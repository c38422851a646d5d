/**
 * The script's global state and its procedures: the browser session `wd`, the
 * two cache files, the local and remote clocks, and the login, scheduling and
 * purchase steps run by `main`.
 *
 * Every effect on the outside world (a page load, a click, a nap, a file
 * write) is appended to `trace`, so contracts can say what happened and in
 * which order.
 */
module Script {
  import opened Options
  import opened Timing
  import opened SessionCache
  import opened Checkout

  const LoginUrl: string := "https://login.taobao.com"
  const TargetUrl: string := "https://cart.taobao.com/cart.htm?from=btop"

  /** An observable effect of the script. */
  datatype Action =
    | Get(url: string)                         // wd.get(url)
    | AddCookie(cookie: CookieSpec)            // wd.add_cookie(...)
    | DumpCookies(cookies: seq<BrowserCookie>) // cookies written to the cookie file
    | DumpExpiry(expiry: int)                  // expiry written to the expiry file
    | Sleep(us: nat)                           // time.sleep
    | Refresh                                  // wd.refresh()
    | ClickSelectAll                           // the cart's "select all" box
    | ClickSubmit                              // the cart's submit button
    | ClickGo                                  // the order page's confirm button

  /** One `add_cookie` per replayed cookie, in order. */
  function AddCookies(specs: seq<CookieSpec>): (calls: seq<Action>)
  {
    seq(|specs|, i requires 0 <= i < |specs| => AddCookie(specs[i]))
  }

  /** The two clicks of `buy`. */
  const BuyClicks: seq<Action> := [ClickSubmit, ClickGo]

  /** What the scheduler does for one decision, before any expiry write. */
  function RoundActions(d: Decision): (acts: seq<Action>)
  {
    match d
    case CoarseWait(w) => [Sleep(w), Refresh]
    case FineWait(w) => [ClickSelectAll, Sleep(w)] + BuyClicks
    case FireNow => [ClickSelectAll] + BuyClicks
  }

  function RoundsActions(ds: seq<Decision>): (acts: seq<Action>)
  {
    if ds == [] then [] else RoundsActions(ds[..|ds| - 1]) + RoundActions(ds[|ds| - 1])
  }

  /** `n` coarse passes: nap the wake-up period, refresh, `n` times. */
  function CoarseActions(n: nat): (acts: seq<Action>)
  {
    if n == 0 then [] else CoarseActions(n - 1) + [Sleep(WakeUpUs), Refresh]
  }

  /** Acting on a run of coarse decisions is that many coarse passes. */
  lemma {:induction false} CoarseRoundsActions(ds: seq<Decision>)
    requires forall i :: 0 <= i < |ds| ==> ds[i] == CoarseWait(WakeUpUs)
    ensures RoundsActions(ds) == CoarseActions(|ds|)
  {
    if ds != [] {
      CoarseRoundsActions(ds[..|ds| - 1]);
    }
  }

  /**
   * Expiry writes of a scheduler run: one by the fine branch, and one by every
   * coarse pass when its recursive call returns.
   */
  function ExpiryWrites(ds: seq<Decision>): (writes: nat)
    requires |ds| >= 1
  {
    |ds| - 1 + (if ds[|ds| - 1].FineWait? then 1 else 0)
  }

  function Repeat(a: Action, n: nat): (acts: seq<Action>)
  {
    if n == 0 then [] else Repeat(a, n - 1) + [a]
  }

  /** Two repetitions of one action in a row are one longer repetition. */
  lemma {:induction false} RepeatAdd(a: Action, m: nat, n: nat)
    ensures Repeat(a, m) + Repeat(a, n) == Repeat(a, m + n)
  {
    if n > 0 {
      RepeatAdd(a, m, n - 1);
    }
  }

  /** Everything a scheduler run taking decisions `ds` does, in order. */
  function ScheduleActions(ds: seq<Decision>, expiry: int): (acts: seq<Action>)
    requires |ds| >= 1
  {
    RoundsActions(ds) + Repeat(DumpExpiry(expiry), ExpiryWrites(ds))
  }

  /**
   * A scheduler run splits into its coarse passes, its buying pass with that
   * pass's own expiry write, and the writes made while the recursion returns.
   */
  lemma ScheduleActionsSplit(before: seq<Action>, ds: seq<Decision>, expiry: int)
    requires |ds| >= 1
    ensures before + ScheduleActions(ds, expiry)
            == before + RoundsActions(ds[..|ds| - 1]) + RoundActions(ds[|ds| - 1])
               + Repeat(DumpExpiry(expiry), if ds[|ds| - 1].FineWait? then 1 else 0)
               + Repeat(DumpExpiry(expiry), |ds| - 1)
  {
    var fine: nat := if ds[|ds| - 1].FineWait? then 1 else 0;
    var k: nat := |ds| - 1;
    var w := DumpExpiry(expiry);
    var a, b := RoundsActions(ds[..k]), RoundActions(ds[k]);
    assert RoundsActions(ds) == a + b;
    RepeatAdd(w, fine, k);
    assert ExpiryWrites(ds) == fine + k;
    SeqAssoc4(before, a, b, Repeat(w, fine), Repeat(w, k));
  }

  lemma SeqAssoc4<T>(p: seq<T>, a: seq<T>, b: seq<T>, c: seq<T>, d: seq<T>)
    ensures p + ((a + b) + (c + d)) == p + a + b + c + d
  {
  }

  /** A scheduler that finds the target reached selects and buys once, and never sleeps. */
  lemma ImmediateFireNeverSleeps(expiry: int)
    ensures ScheduleActions([FireNow], expiry) == [ClickSelectAll, ClickSubmit, ClickGo]
  {
  }

  /**
   * A scheduler that finds the target at most one wake-up period away sleeps
   * once, exactly the remaining time, buys once, and writes the expiry once.
   */
  lemma FineWindowSleepsOnce(diff: nat, expiry: int)
    requires 0 < diff <= WakeUpUs
    ensures ScheduleActions([FineWait(diff)], expiry)
            == [ClickSelectAll, Sleep(diff), ClickSubmit, ClickGo, DumpExpiry(expiry)]
  {
    var ds := [FineWait(diff)];
    assert ds[..0] == [];
    assert RoundsActions(ds) == [ClickSelectAll, Sleep(diff), ClickSubmit, ClickGo];
    assert Repeat(DumpExpiry(expiry), 1) == [DumpExpiry(expiry)];
  }

  /** How `main` ends. */
  datatype RunOutcome =
    | LoginCrashed           // `login` raised because no expiry was loaded
    | Finished(bought: bool) // the scheduler ran; `bought` is what `buy` reported

  class Bot {
    /** `datetime.now()`, in microseconds. */
    var localUs: int
    /** The stamp, in milliseconds, that the time endpoint would return now. */
    var remoteMs: int
    /**
     * The round trip of the next request to the time endpoint, in microseconds.
     * Each call measures its own; a nap may leave a different one behind.
     */
    var rttUs: nat
    /** `cookies.pkl`, if it exists. */
    var cookieFile: Option<seq<BrowserCookie>>
    /** `cookie_expired_time.pkl`, if it exists. */
    var expiryFile: Option<int>
    /** What `wd.get_cookies()` returns once the operator has logged in. */
    var siteCookies: seq<BrowserCookie>
    /** `wd.title` once the order is confirmed. */
    var title: string
    /** The effects so far, oldest first. */
    var trace: seq<Action>

    constructor (localUs: int, remoteMs: int, rttUs: nat,
                 cookieFile: Option<seq<BrowserCookie>>, expiryFile: Option<int>,
                 siteCookies: seq<BrowserCookie>, title: string)
      ensures this.localUs == localUs && this.remoteMs == remoteMs && this.rttUs == rttUs
      ensures this.cookieFile == cookieFile && this.expiryFile == expiryFile
      ensures this.siteCookies == siteCookies && this.title == title
      ensures trace == []
    {
      this.localUs, this.remoteMs, this.rttUs := localUs, remoteMs, rttUs;
      this.cookieFile, this.expiryFile := cookieFile, expiryFile;
      this.siteCookies, this.title := siteCookies, title;
      trace := [];
    }

    /** The corrected time `get_taobao_time` would return now. */
    function CorrectedNow(): (t: int)
      reads this`remoteMs, this`rttUs
    {
      Corrected(remoteMs, rttUs)
    }

    /** `get_taobao_time`: the remote stamp corrected by the round trip. */
    method GetTaobaoTime() returns (now: int)
      ensures now - rttUs == remoteMs * UsPerMs
    {
      now := Corrected(remoteMs, rttUs);
    }

    /**
     * `time.sleep(us)`. A nap lasts at least as long as asked, on the local and
     * on the corrected clock alike; how much longer, and the round trip of the
     * next time request, are up to the environment.
     */
    method SleepFor(us: nat)
      modifies this`localUs, this`remoteMs, this`rttUs, this`trace
      ensures trace == old(trace) + [Sleep(us)]
      ensures localUs >= old(localUs) + us
      ensures CorrectedNow() >= old(CorrectedNow()) + us
    {
      localUs := localUs + us;
      remoteMs := remoteMs + us / UsPerMs + 1;
      trace := trace + [Sleep(us)];
    }

    /** `wd.refresh()`. */
    method RefreshPage()
      modifies this`trace
      ensures trace == old(trace) + [Refresh]
    {
      trace := trace + [Refresh];
    }

    /** `set_cookie_expired_time`: store an expiry fifteen minutes from local now. */
    method SetCookieExpiredTime()
      modifies this`expiryFile, this`trace
      ensures expiryFile == Some(ExpiryFrom(localUs))
      ensures trace == old(trace) + [DumpExpiry(ExpiryFrom(localUs))]
    {
      var expired := ExpiryFrom(localUs);
      expiryFile := Some(expired);
      trace := trace + [DumpExpiry(expired)];
    }

    /** `login_by_manual`, from the moment the operator has left the login page. */
    method LoginByManual()
      modifies this`cookieFile, this`expiryFile, this`trace
      ensures cookieFile == Some(siteCookies)
      ensures expiryFile == Some(ExpiryFrom(localUs))
      ensures trace == old(trace) + [DumpCookies(siteCookies), DumpExpiry(ExpiryFrom(localUs))]
    {
      cookieFile := Some(siteCookies);
      trace := trace + [DumpCookies(siteCookies)];
      SetCookieExpiredTime();
    }

    /** `login_by_cookies`: add every stored cookie to the browser, projected, in order. */
    method LoginByCookies()
      requires cookieFile.Some?
      modifies this`trace
      ensures trace == old(trace) + AddCookies(Replay(cookieFile.value))
    {
      var stored := cookieFile.value;
      var i := 0;
      while i < |stored|
        invariant 0 <= i <= |stored|
        invariant trace == old(trace) + AddCookies(Replay(stored[..i]))
      {
        ReplaySnoc(stored[..i], stored[i]);
        assert stored[..i + 1] == stored[..i] + [stored[i]];
        trace := trace + [AddCookie(Project(stored[i]))];
        i := i + 1;
      }
      assert stored[..i] == stored;
    }

    /** `login`: open the login page, then replay the cache or log in by hand. */
    method Login() returns (path: LoginPath)
      modifies this`cookieFile, this`expiryFile, this`trace
      ensures path == ChooseLogin(old(cookieFile).Some?, old(expiryFile), localUs)
      ensures path == ByCookies ==>
                cookieFile == old(cookieFile) && expiryFile == old(expiryFile) &&
                trace == old(trace) + [Get(LoginUrl)] + AddCookies(Replay(cookieFile.value))
      ensures path == ByManual ==>
                cookieFile == Some(siteCookies) && expiryFile == Some(ExpiryFrom(localUs)) &&
                trace == old(trace) + [Get(LoginUrl), DumpCookies(siteCookies), DumpExpiry(ExpiryFrom(localUs))]
      ensures path == ExpiryUnbound ==>
                cookieFile == old(cookieFile) && expiryFile == old(expiryFile) &&
                trace == old(trace) + [Get(LoginUrl)]
    {
      trace := trace + [Get(LoginUrl)];
      path := ChooseLogin(cookieFile.Some?, expiryFile, localUs);
      match path
      case ByCookies => LoginByCookies();
      case ByManual => LoginByManual();
      case ExpiryUnbound =>
    }

    /** `check_all_goods`, for a cart that has goods: tick "select all". */
    method CheckAllGoods()
      modifies this`trace
      ensures trace == old(trace) + [ClickSelectAll]
    {
      trace := trace + [ClickSelectAll];
    }

    /** `buy`: submit the cart, confirm the order, and report whether the payment page opened. */
    method Buy() returns (bought: bool)
      modifies this`trace
      ensures trace == old(trace) + BuyClicks
      ensures bought == IsPaymentPage(title)
      ensures bought <==> exists i :: OccursAt(title, PaymentMarker, i)
    {
      trace := trace + BuyClicks;
      bought := IsPaymentPage(title);
      PaymentPageIff(title);
    }

    /**
     * The passes of `scheduler` that end in a coarse nap, each followed by the
     * refresh and the recursive call: decide, and while the target is more than
     * the wake-up period away, nap, refresh and decide again. Returns every
     * decision taken, the last one not coarse, and the corrected times read.
     */
    method CoarsePasses(target: int) returns (decisions: seq<Decision>, readings: seq<int>)
      modifies this`localUs, this`remoteMs, this`rttUs, this`trace
      ensures Passes(decisions, readings, target)
      ensures readings[0] == old(CorrectedNow())
      ensures readings[|readings| - 1] == CorrectedNow()
      ensures !decisions[|decisions| - 1].CoarseWait?
      ensures |decisions| <= |Plan(readings[0], target)|
      ensures trace == old(trace) + RoundsActions(decisions[..|decisions| - 1])
    {
      var now := GetTaobaoTime();
      ghost var start := now;
      var d := Decide(now, target);
      decisions, readings := [d], [now];
      while d.CoarseWait?
        invariant OnTrack(decisions, readings, target, start)
        invariant now == CorrectedNow() && d == Decide(now, target)
        invariant decisions[|decisions| - 1] == d && readings[|readings| - 1] == now
        invariant trace == old(trace) + CoarseActions(|decisions| - 1)
        decreases target - now
      {
        var next := NapAndRecheck(d.us);
        PassesExtend(decisions, readings, target, start, next);
        now := next;
        d := Decide(now, target);
        decisions, readings := decisions + [d], readings + [now];
      }
      CoarseRoundsActions(decisions[..|decisions| - 1]);
    }

    /**
     * The body of a coarse pass: nap, refresh the page, and read the
     * corrected clock again for the next pass.
     */
    method NapAndRecheck(us: nat) returns (next: int)
      modifies this`localUs, this`remoteMs, this`rttUs, this`trace
      ensures trace == old(trace) + [Sleep(us), Refresh]
      ensures localUs >= old(localUs) + us
      ensures next == CorrectedNow() && next >= old(CorrectedNow()) + us
    {
      SleepFor(us);
      RefreshPage();
      next := GetTaobaoTime();
    }

    /** The `set_cookie_expired_time` calls made as `count` recursive calls return. */
    method UnwindExpiryWrites(count: nat)
      modifies this`expiryFile, this`trace
      ensures trace == old(trace) + Repeat(DumpExpiry(ExpiryFrom(localUs)), count)
      ensures expiryFile == if count == 0 then old(expiryFile) else Some(ExpiryFrom(localUs))
    {
      var written := 0;
      while written < count
        invariant 0 <= written <= count
        invariant trace == old(trace) + Repeat(DumpExpiry(ExpiryFrom(localUs)), written)
        invariant expiryFile == if written == 0 then old(expiryFile) else Some(ExpiryFrom(localUs))
      {
        SetCookieExpiredTime();
        written := written + 1;
      }
    }

    /**
     * The pass of `scheduler` that buys: at once when the target is reached,
     * otherwise after one nap of exactly the remaining time, followed by one
     * expiry write.
     */
    method FinalPass(d: Decision) returns (bought: bool)
      requires !d.CoarseWait?
      modifies this`localUs, this`remoteMs, this`rttUs, this`expiryFile, this`trace
      ensures localUs >= old(localUs) + WaitOf(d)
      ensures CorrectedNow() >= old(CorrectedNow()) + WaitOf(d)
      ensures bought == IsPaymentPage(title)
      ensures trace == old(trace) + RoundActions(d) + Repeat(DumpExpiry(ExpiryFrom(localUs)), if d.FineWait? then 1 else 0)
      ensures expiryFile == if d.FineWait? then Some(ExpiryFrom(localUs)) else old(expiryFile)
    {
      CheckAllGoods();
      if d.FireNow? {
        bought := Buy();
      } else {
        SleepFor(d.us);
        bought := Buy();
        SetCookieExpiredTime();
      }
    }

    /**
     * `scheduler`: decide against the corrected clock, nap and re-decide while
     * the target is more than the wake-up period away, then buy, either at once
     * or after one nap of exactly the remaining time, and refresh the stored
     * expiry once per pass that did not fire at once.
     *
     * Returns the decisions taken and the corrected times they were taken at.
     */
    method Scheduler(target: int) returns (decisions: seq<Decision>, readings: seq<int>, bought: bool)
      modifies this`localUs, this`remoteMs, this`rttUs, this`expiryFile, this`trace
      ensures Passes(decisions, readings, target)
      ensures readings[0] == old(CorrectedNow())
      ensures !decisions[|decisions| - 1].CoarseWait?
      ensures decisions == [FireNow] <==> readings[0] >= target
      ensures |decisions| - 1 <= if readings[0] >= target then 0 else (target - readings[0] - 1) / WakeUpUs
      ensures CorrectedNow() >= target
      ensures bought == IsPaymentPage(title)
      ensures trace == old(trace) + ScheduleActions(decisions, ExpiryFrom(localUs))
      ensures expiryFile == if decisions == [FireNow] then old(expiryFile) else Some(ExpiryFrom(localUs))
    {
      decisions, readings := CoarsePasses(target);
      PlanLength(readings[0], target);
      bought := FinalPass(decisions[|decisions| - 1]);
      UnwindExpiryWrites(|decisions| - 1);
      ScheduleActionsSplit(old(trace), decisions, ExpiryFrom(localUs));
      if |decisions| > 1 {
        assert decisions[0] == CoarseWait(WakeUpUs);
      }
    }

    /**
     * `main`: log in, open the cart, run the scheduler. Also returns the
     * login path taken, the trace as the login left it, and the scheduler's
     * decisions.
     */
    method Run(target: int)
      returns (outcome: RunOutcome, path: LoginPath, ghost afterLogin: seq<Action>,
               ghost decisions: seq<Decision>, ghost readings: seq<int>)
      modifies this`localUs, this`remoteMs, this`rttUs, this`cookieFile, this`expiryFile, this`trace
      ensures path == ChooseLogin(old(cookieFile).Some?, old(expiryFile), old(localUs))
      ensures outcome == LoginCrashed <==> path == ExpiryUnbound
      ensures path == ByCookies ==>
                old(cookieFile).Some? &&
                afterLogin == old(trace) + [Get(LoginUrl)] + AddCookies(Replay(old(cookieFile).value))
      ensures path == ByManual ==>
                afterLogin == old(trace) + [Get(LoginUrl), DumpCookies(siteCookies), DumpExpiry(ExpiryFrom(old(localUs)))]
      ensures path == ExpiryUnbound ==> afterLogin == old(trace) + [Get(LoginUrl)]
      ensures cookieFile == if path == ByManual then Some(siteCookies) else old(cookieFile)
      ensures outcome == LoginCrashed ==>
                trace == afterLogin && expiryFile == old(expiryFile) &&
                localUs == old(localUs) && CorrectedNow() == old(CorrectedNow())
      ensures outcome.Finished? ==>
                |decisions| >= 1 && !decisions[|decisions| - 1].CoarseWait? &&
                (decisions == [FireNow] <==> old(CorrectedNow()) >= target) &&
                trace == afterLogin + [Get(TargetUrl)] + ScheduleActions(decisions, ExpiryFrom(localUs))
      ensures outcome.Finished? ==>
                Passes(decisions, readings, target) && readings[0] == old(CorrectedNow()) &&
                |decisions| - 1 <= if readings[0] >= target then 0 else (target - readings[0] - 1) / WakeUpUs
      ensures outcome.Finished? ==> CorrectedNow() >= target && outcome.bought == IsPaymentPage(title)
      ensures outcome.Finished? ==>
                expiryFile == if decisions != [FireNow] then Some(ExpiryFrom(localUs))
                              else if path == ByManual then Some(ExpiryFrom(old(localUs)))
                              else old(expiryFile)
    {
      path := Login();
      afterLogin := trace;
      if path == ExpiryUnbound {
        outcome, decisions, readings := LoginCrashed, [], [];
        return;
      }
      trace := trace + [Get(TargetUrl)];
      var bought;
      decisions, readings, bought := Scheduler(target);
      outcome := Finished(bought);
    }
  }

  /**
   * Two logins in immediate succession: unless the first stops on a missing
   * expiry, the second replays the cache and adds nothing to the trace but
   * the login page and the replayed cookies: no cookie or expiry is written
   * again, so no second manual login is asked for. `mid` is the trace between
   * the two logins.
   */
  method SecondLoginReplaysCache(b: Bot) returns (first: LoginPath, second: LoginPath, ghost mid: seq<Action>)
    modifies b`cookieFile, b`expiryFile, b`trace
    ensures first == ByCookies ==>
              old(b.cookieFile).Some? &&
              mid == old(b.trace) + [Get(LoginUrl)] + AddCookies(Replay(old(b.cookieFile).value))
    ensures first == ByManual ==>
              mid == old(b.trace) + [Get(LoginUrl), DumpCookies(b.siteCookies), DumpExpiry(ExpiryFrom(b.localUs))]
    ensures first == ExpiryUnbound ==> mid == old(b.trace) + [Get(LoginUrl)]
    ensures first != ExpiryUnbound ==> second == ByCookies
    ensures first != ExpiryUnbound ==>
              b.cookieFile.Some? &&
              b.trace == mid + [Get(LoginUrl)] + AddCookies(Replay(b.cookieFile.value))
    ensures first == ByManual ==> b.cookieFile == Some(b.siteCookies) && b.expiryFile == Some(ExpiryFrom(b.localUs))
    ensures first == ByCookies ==> b.cookieFile == old(b.cookieFile) && b.expiryFile == old(b.expiryFile)
  {
    first := b.Login();
    mid := b.trace;
    second := b.Login();
  }
}
