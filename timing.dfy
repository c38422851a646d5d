/**
 * The timing core of the purchase script: the corrected clock reading and the
 * scheduling decision taken against the fixed target instant.
 *
 * All instants are integers on one timeline in microseconds, the resolution of
 * Python's `datetime`; the remote time authority answers in milliseconds.
 */
module Timing {

  const UsPerMs: int := 1000
  const UsPerSecond: int := 1_000_000

  /** `wake_up_time = 60 * 10` seconds: the longest single nap before re-deciding. */
  const WakeUpUs: int := 60 * 10 * UsPerSecond

  /**
   * Corrected "now": the remote stamp, converted from milliseconds, plus the
   * whole measured round trip of the request that fetched it.
   */
  function Corrected(remoteMs: int, rttUs: nat): (t: int)
    ensures t >= remoteMs * UsPerMs
    ensures (t - rttUs) % UsPerMs == 0
  {
    remoteMs * UsPerMs + rttUs
  }

  /** The correction adds the full round trip (not half of it) to the remote stamp. */
  lemma CorrectionAddsWholeRoundTrip(remoteMs: int, rttUs: nat)
    ensures Corrected(remoteMs, rttUs) - Corrected(remoteMs, 0) == rttUs
    ensures rttUs > 0 ==> Corrected(remoteMs, rttUs) > remoteMs * UsPerMs + rttUs / 2
  {
  }

  /** A later remote stamp or a longer round trip never yields an earlier corrected time. */
  lemma CorrectedMonotone(r1: int, rtt1: nat, r2: int, rtt2: nat)
    requires r1 <= r2 && rtt1 <= rtt2
    ensures Corrected(r1, rtt1) <= Corrected(r2, rtt2)
    ensures r1 < r2 ==> Corrected(r1, rtt1) + UsPerMs <= Corrected(r2, rtt2)
  {
  }

  /** What one pass of the scheduler decides to do. */
  datatype Decision =
    | FireNow            // target reached: select and buy at once
    | CoarseWait(us: nat) // nap, refresh the page, decide again
    | FineWait(us: nat)   // one nap of exactly the remaining time, then buy

  /** How long a decision sleeps before its next step. */
  function WaitOf(d: Decision): (w: nat)
  {
    match d
    case FireNow => 0
    case CoarseWait(w) => w
    case FineWait(w) => w
  }

  /**
   * The branch taken by one pass of the scheduler at corrected time `now`:
   * fire once `now >= target`; otherwise nap for the wake-up period when the
   * remaining time exceeds it strictly, else wait out the remaining time.
   */
  function Decide(now: int, target: int): (d: Decision)
    ensures d.FireNow? <==> target - now <= 0
    ensures d.CoarseWait? <==> target - now > WakeUpUs
    ensures d.FineWait? <==> 0 < target - now <= WakeUpUs
    ensures d.CoarseWait? ==> d.us == WakeUpUs
    ensures d.FineWait? ==> now + d.us == target
    ensures d.CoarseWait? ==> now + WaitOf(d) < target
  {
    if now >= target then FireNow
    else
      var diff := target - now;
      if diff > WakeUpUs then CoarseWait(WakeUpUs) else FineWait(diff)
  }

  /**
   * The decisions the scheduler takes when every nap lasts exactly as long as
   * asked and the corrected clock advances by exactly that much: a run of
   * coarse naps closed by one fire or fine decision.
   */
  function Plan(now: int, target: int): (p: seq<Decision>)
    decreases target - now
    ensures |p| >= 1 && p[0] == Decide(now, target)
    ensures forall i :: 0 <= i < |p| - 1 ==> p[i] == CoarseWait(WakeUpUs)
    ensures !p[|p| - 1].CoarseWait?
  {
    var d := Decide(now, target);
    if d.CoarseWait? then [d] + Plan(now + WakeUpUs, target) else [d]
  }

  /** Total time slept by a sequence of decisions. */
  function TotalWait(ds: seq<Decision>): (total: nat)
  {
    if ds == [] then 0 else WaitOf(ds[0]) + TotalWait(ds[1..])
  }

  /**
   * With an exact clock the naps of the plan add up to the remaining time:
   * the purchase fires exactly at the target, or at once if it has passed.
   */
  lemma {:induction false} PlanFiresOnTarget(now: int, target: int)
    ensures TotalWait(Plan(now, target)) == if now >= target then 0 else target - now
    decreases target - now
  {
    var p := Plan(now, target);
    if Decide(now, target).CoarseWait? {
      PlanFiresOnTarget(now + WakeUpUs, target);
      assert p[1..] == Plan(now + WakeUpUs, target);
    }
  }

  /**
   * Number of decisions of the plan: one final decision preceded by one coarse
   * nap per started wake-up period beyond the first.
   */
  lemma {:induction false} PlanLength(now: int, target: int)
    ensures |Plan(now, target)| == if now >= target then 1 else 1 + (target - now - 1) / WakeUpUs
    decreases target - now
  {
    if Decide(now, target).CoarseWait? {
      PlanLength(now + WakeUpUs, target);
      var x := target - now - 1;
      assert (x - WakeUpUs) / WakeUpUs + 1 == x / WakeUpUs;
    }
  }

  /** Deciding later never needs more coarse naps. */
  lemma {:induction false} PlanShrinks(now1: int, now2: int, target: int)
    requires now1 <= now2
    ensures |Plan(now2, target)| <= |Plan(now1, target)|
  {
    PlanLength(now1, target);
    PlanLength(now2, target);
    if now2 < target {
      var a, b := target - now2 - 1, target - now1 - 1;
      assert a / WakeUpUs <= b / WakeUpUs;
    }
  }

  /**
   * `ds` are decisions taken at the corrected times `readings`, each one but
   * the last a coarse nap, and the clock advanced by at least the nap between
   * two readings.
   */
  ghost predicate Passes(ds: seq<Decision>, readings: seq<int>, target: int)
  {
    |ds| == |readings| >= 1 &&
    (forall i :: 0 <= i < |ds| ==> ds[i] == Decide(readings[i], target)) &&
    (forall i :: 0 <= i < |ds| - 1 ==> ds[i] == CoarseWait(WakeUpUs)) &&
    (forall i :: 0 <= i < |readings| - 1 ==> readings[i + 1] >= readings[i] + WakeUpUs)
  }

  /**
   * Passes taken from the corrected time `start` that use no more passes than
   * the exact-clock plan from `start`, counting those the plan from the last
   * reading still needs.
   */
  ghost predicate OnTrack(ds: seq<Decision>, readings: seq<int>, target: int, start: int)
  {
    Passes(ds, readings, target) && readings[0] == start &&
    |ds| + |Plan(readings[|readings| - 1], target)| <= |Plan(start, target)| + 1
  }

  /**
   * A coarse pass followed by a reading at least one nap later extends the
   * passes and stays within the exact-clock plan.
   */
  lemma PassesExtend(ds: seq<Decision>, readings: seq<int>, target: int, start: int, now: int)
    requires OnTrack(ds, readings, target, start)
    requires ds[|ds| - 1].CoarseWait?
    requires now >= readings[|readings| - 1] + WakeUpUs
    ensures OnTrack(ds + [Decide(now, target)], readings + [now], target, start)
  {
    var last := readings[|readings| - 1];
    assert |Plan(last, target)| == 1 + |Plan(last + WakeUpUs, target)|;
    PlanShrinks(last + WakeUpUs, now, target);
  }
}
