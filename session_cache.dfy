/**
 * The session cache: which login path the script takes, the expiry it
 * writes, and the cookies it replays into the browser.
 *
 * The two cache files are separate: `cookies.pkl` holds the browser's cookies
 * and `cookie_expired_time.pkl` the instant after which they are not reused.
 */
module SessionCache {
  import opened Options
  import Timing

  /** `timedelta(minutes=15)`, in microseconds. */
  const ExpiryWindowUs: int := 15 * 60 * Timing.UsPerSecond

  /** A cookie as the browser reports it and as it is stored in the cookie file. */
  datatype BrowserCookie = BrowserCookie(
    domain: string,
    name: string,
    value: string,
    path: string,
    secure: bool,
    httpOnly: bool,
    expiry: Option<int>)

  /** The dictionary handed to the browser when a stored cookie is replayed. */
  datatype CookieSpec = CookieSpec(domain: string, name: string, value: string)

  /** Which way `login` goes. */
  datatype LoginPath =
    | ByCookies     // replay the stored cookies
    | ByManual      // wait for the operator, then store cookies and an expiry
    | ExpiryUnbound // the cookie file exists but no expiry was loaded: the script stops with an error

  /**
   * The branch of `login`: the expiry is loaded only when its file exists, and
   * the cookie-file test comes first, so a missing expiry is an error only when
   * the cookie file exists.
   */
  function ChooseLogin(cookieFileExists: bool, expiry: Option<int>, now: int): (p: LoginPath)
    ensures p == ByCookies <==> cookieFileExists && expiry.Some? && now < expiry.value
    ensures p == ExpiryUnbound <==> cookieFileExists && expiry.None?
    ensures p == ByManual <==> !cookieFileExists || (expiry.Some? && expiry.value <= now)
  {
    if !cookieFileExists then ByManual
    else
      match expiry
      case None => ExpiryUnbound
      case Some(e) => if now < e then ByCookies else ByManual
  }

  /** The expiry written at local time `now`. */
  function ExpiryFrom(now: int): (expiry: int)
    ensures now < expiry
    ensures expiry - now == 15 * 60 * Timing.UsPerSecond
  {
    now + ExpiryWindowUs
  }

  /**
   * A session stored at `savedAt` is reused by a login at `now` exactly when
   * fewer than fifteen minutes have passed; at fifteen minutes sharp it is not.
   */
  lemma FreshSessionWindow(savedAt: int, now: int)
    ensures ChooseLogin(true, Some(ExpiryFrom(savedAt)), now) == ByCookies
            <==> now - savedAt < 15 * 60 * Timing.UsPerSecond
    ensures now == savedAt + ExpiryWindowUs ==> ChooseLogin(true, Some(ExpiryFrom(savedAt)), now) == ByManual
  {
  }

  /** The cookie handed to the browser keeps the domain, name and value only. */
  function Project(c: BrowserCookie): (spec: CookieSpec)
    ensures spec.domain == c.domain && spec.name == c.name && spec.value == c.value
  {
    CookieSpec(c.domain, c.name, c.value)
  }

  /** The cookies replayed for a stored list: one per entry, in order. */
  function Replay(stored: seq<BrowserCookie>): (specs: seq<CookieSpec>)
    ensures |specs| == |stored|
    ensures forall i :: 0 <= i < |stored| ==> specs[i] == Project(stored[i])
  {
    if stored == [] then [] else [Project(stored[0])] + Replay(stored[1..])
  }

  /** Replaying a list one entry longer replays one more cookie at the end. */
  lemma {:induction false} ReplaySnoc(stored: seq<BrowserCookie>, c: BrowserCookie)
    ensures Replay(stored + [c]) == Replay(stored) + [Project(c)]
  {
    var l, r := Replay(stored + [c]), Replay(stored) + [Project(c)];
    assert |l| == |r|;
    forall i | 0 <= i < |l| ensures l[i] == r[i] {
      if i < |stored| {
        assert (stored + [c])[i] == stored[i];
      }
    }
  }

  /**
   * Replay forgets every attribute but domain, name and value: stored lists that
   * agree on those three replay to the same cookies.
   */
  lemma ReplayIgnoresOtherAttributes(a: seq<BrowserCookie>, b: seq<BrowserCookie>)
    requires |a| == |b|
    requires forall i :: 0 <= i < |a| ==>
               a[i].domain == b[i].domain && a[i].name == b[i].name && a[i].value == b[i].value
    ensures Replay(a) == Replay(b)
  {
  }
}
