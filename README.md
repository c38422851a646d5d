# Timed purchase script: timing and session core

`main.py` logs into a shopping site once, caches the session cookies with a
fifteen-minute expiry, opens the cart, and clicks "buy" as close as possible to
a fixed target instant read against the site's own clock. This project models
the part of it that decides things, over integer time:

- **Clock correction** (`Timing.Corrected`): the remote millisecond stamp plus
  the whole measured round trip of the request that fetched it.
- **Scheduling decision** (`Timing.Decide`): fire at once when the corrected
  time has reached the target; nap 600 s and decide again when more than 600 s
  remain; otherwise wait out exactly the remaining time and buy.
- **Scheduler** (`Script.Bot.Scheduler`): the source's recursion, written as a
  loop of coarse passes (`CoarsePasses`), the buying pass (`FinalPass`), and the
  expiry writes each coarse pass performs when its recursive call returns
  (`UnwindExpiryWrites`). `Timing.Plan` is what the scheduler does with an
  exact clock, and the lemmas about it give the firing instant and the number
  of naps.
- **Session cache** (`SessionCache.ChooseLogin`, `Script.Bot.Login`): the
  cookies are replayed only when the cookie file exists, an expiry was loaded
  and local now is strictly before it. A cookie file without an expiry file
  stops the script with an error (`ExpiryUnbound`). A new expiry is always
  local now plus fifteen minutes.
- **Cookie replay** (`SessionCache.Replay`, `Script.Bot.LoginByCookies`): one
  `add_cookie` per stored cookie, in order, with domain, name and value only.
- **Purchase result** (`Checkout.IsPaymentPage`): success means the page title
  contains "支付宝".

Time is an integer count of microseconds, the resolution of Python's
`datetime`. The remote stamp is in milliseconds. The class `Script.Bot` holds the
script's global state: the two cache files, both clocks, what the site shows
(its cookies after a manual login, the title after the order), and a `trace`
of every effect in order (page loads, clicks, naps, file writes).

Behaviour of the code worth noting:
- the correction adds the whole round trip, not half of it;
- there is no retry loop (`buy`'s `retry` parameter is never used);
- a cached login does not refresh the expiry; only a manual login and the
  scheduler do;
- a cookie file without an expiry file raises an error instead of forcing a
  new login;
- an empty cart quits the browser, and the run then fails in `buy` instead of stopping cleanly (see "Left out").

## Model

| member | source | states |
|---|---|---|
| Timing.Corrected | main.py:168 | the corrected time is never before the remote stamp in µs, and taking the round trip back off leaves a whole number of milliseconds |
| Timing.CorrectionAddsWholeRoundTrip | main.py:164-168 | the corrected time is the remote stamp in µs plus the whole round trip; for any positive round trip it exceeds stamp plus half the round trip |
| Timing.CorrectedMonotone | main.py:168 | a later stamp or longer round trip never gives an earlier corrected time; a later stamp gives one at least 1 ms later |
| Timing.Decide | main.py:134-152 | FireNow exactly when now ≥ target (diff ≤ 0, diff = 0 included); CoarseWait(600 s) exactly when diff > 600 s; FineWait exactly when 0 < diff ≤ 600 s, with now + wait = target; a coarse nap always ends before the target |
| Timing.Plan | main.py:130-155 | with an exact clock the decisions are a run of 600 s coarse naps closed by one FireNow or FineWait, the first being the decision at the starting time |
| Timing.PlanFiresOnTarget | main.py:139-154 | with an exact clock the naps add up to the remaining time, so the purchase fires exactly at the target (or at once if it has passed) |
| Timing.PlanLength | main.py:139-146 | with an exact clock the number of coarse naps is ⌈diff / 600 s⌉ − 1 for diff > 0 and 0 otherwise |
| Timing.PlanShrinks | main.py:143-146 | deciding at a later time never needs more passes |
| Timing.PassesExtend | main.py:143-146 | a coarse pass followed by a reading at least 600 s later keeps every decision equal to Decide at its reading and keeps the pass count within the exact-clock plan from the first reading |
| SessionCache.ChooseLogin | main.py:70-76 | cached path exactly when the cookie file exists, an expiry was loaded and now < expiry; error exactly when the cookie file exists without an expiry; manual path otherwise, including now = expiry |
| SessionCache.ExpiryFrom | main.py:101 | the expiry written at local now lies exactly fifteen minutes after it |
| SessionCache.FreshSessionWindow | main.py:100-101 | with the validity test of line 73: a session stored at t is reused at t' exactly when t' − t < 15 min; at exactly 15 min it is not |
| SessionCache.Project | main.py:93-97 | the cookie handed to the browser has the stored cookie's domain, name and value |
| SessionCache.Replay | main.py:92-97 | one replayed cookie per stored cookie, in order, each keeping only domain, name and value |
| SessionCache.ReplaySnoc | main.py:92-97 | replaying one more stored cookie adds exactly its projection at the end |
| SessionCache.ReplayIgnoresOtherAttributes | main.py:93-97 | stored cookies that agree on domain, name and value replay identically |
| Checkout.Contains | main.py:124 | Python's substring test `p in s`: it fails when the pattern is longer than the text, holds when the text starts with the pattern, and always holds for the empty pattern |
| Checkout.ContainsFromOccurrence | main.py:124 | an occurrence of the marker at any position makes the substring test succeed |
| Checkout.OccurrenceFromContains | main.py:124 | a successful substring test yields a position where the marker occurs |
| Checkout.ContainsIff | main.py:124 | the substring test holds exactly when some position carries the marker |
| Checkout.IsPaymentPage | main.py:124 | a title shorter than "支付宝" never counts as the payment page; a title starting with it always does |
| Checkout.PaymentPageIff | main.py:124-127 | the purchase counts as successful exactly when "支付宝" occurs in the title; a title shorter than the marker never does |
| Script.Bot.GetTaobaoTime | main.py:159-168 | returns a time whose difference from the remote stamp in µs is exactly the measured round trip |
| Script.Bot.SleepFor | main.py:152 | `time.sleep`, as on lines 144 and 152: records the nap; local and corrected clocks advance by at least its length |
| Script.Bot.RefreshPage | main.py:145 | records one page refresh and changes nothing else |
| Script.Bot.SetCookieExpiredTime | main.py:100-102 | the expiry file holds local now + 15 min, and one write is recorded |
| Script.Bot.LoginByManual | main.py:80-87 | stores the site's cookies, then an expiry of local now + 15 min, in that order |
| Script.Bot.LoginByCookies | main.py:90-97 | the trace gains exactly the `add_cookie` calls of the replayed stored cookies, in order, and nothing else changes |
| Script.Bot.Login | main.py:67-77 | opens the login page, takes the path chosen by ChooseLogin and has that path's effects on the files and trace; the error path changes no file |
| Script.Bot.CheckAllGoods | main.py:105-113 | records the "select all" click |
| Script.Bot.Buy | main.py:116-127 | records the submit and confirm clicks, and reports success exactly when the marker occurs in the title |
| Script.Bot.NapAndRecheck | main.py:144-146 | records one nap and one refresh, then reads a corrected time at least the nap later than before |
| Script.Bot.CoarsePasses | main.py:131-146 | every decision is Decide at the corrected time read; all but the last are 600 s coarse naps, each followed by a refresh; readings advance by ≥ 600 s; the last decision is not coarse; passes never exceed the exact-clock plan |
| Script.Bot.FinalPass | main.py:134-155 | selects and buys, sleeping exactly the remaining time first when the decision is FineWait and then writing the expiry once; a FireNow pass never sleeps or writes |
| Script.Bot.UnwindExpiryWrites | main.py:146-147 | each returning coarse pass writes the expiry once more |
| Script.Bot.Scheduler | main.py:130-155 | decisions follow Decide at each reading; a single FireNow exactly when the first reading is ≥ target; at most ⌈diff/600 s⌉ − 1 coarse naps; the purchase happens at corrected time ≥ target; the whole effect trace; the expiry is rewritten to local now + 15 min unless the scheduler fired at once |
| Script.Bot.Run | main.py:55-60 | the login path is ChooseLogin's, with that path's trace and cookie file; a missing expiry alongside a cookie file stops the run after opening the login page, with the expiry file and clocks unchanged; otherwise the decisions are Decide at each corrected reading, the first reading is the corrected time at the start, at most ⌈diff/600 s⌉ − 1 coarse naps are taken, the trace is the login's, then the cart page, then the scheduler's whole trace for those decisions, the purchase happens at corrected time ≥ target, the title check is reported, and the expiry file holds the scheduler's write, or the login's when the scheduler fired at once |
| Script.ImmediateFireNeverSleeps | main.py:134-137 | firing at once is: select all, submit, confirm, with no sleep and no expiry write |
| Script.FineWindowSleepsOnce | main.py:150-155 | inside the 600 s window: select all, one sleep of exactly diff, submit, confirm, one expiry write |
| Script.SecondLoginReplaysCache | main.py:67-102 | two logins in immediate succession: the trace after the first is exactly that path's effects; unless the first stops on a missing expiry, the second takes the cached path and adds only the login page and the replayed `add_cookie` calls to the trace, writing neither file |

## Left out

- Browser creation, stealth script injection and window options (main.py:24-52): foreign calls into Selenium and Chrome.
- The pickle encoding of the two files: each file is an optional value, either missing or holding what was written. A corrupt file, which raises in the source, is not modelled.
- The HTTP request to the time endpoint, its JSON decoding and the `int()` conversion of the stamp: the stamp (ms) and the round trip (µs) are fields of `Script.Bot`.
- Script.Bot.GetTaobaoTime: the time the request itself takes does not advance the local clock in the model.
- Script.Bot.SleepFor: assumes the corrected clock advances by at least the full nap. The source's correction (main.py:168) adds the round trip of each request, so when a later request is faster than the earlier one the corrected reading can advance by less than the nap; the model does not cover that case. The nap bound of `Scheduler`, `CoarsePasses` and `Run`, `PassesExtend`, and the termination of the coarse loop depend on this assumption. How much longer a nap lasts, and any other drift, are left to the environment.
- Script.Bot.CoarsePasses: the recursion depth limit is not modelled. Each coarse pass of the source is a recursive `scheduler()` call (main.py:146), so under CPython's default limit of 1000 frames a target more than roughly 950 × 600 s (about 6.6 days) away raises `RecursionError` before buying, and the unwinding skips every pending expiry write of line 147. The model's loop buys for any distance.
- Only naps advance the clocks: the operator's manual login (main.py:82-84), page loads, and element lookups (which can wait up to 10 s under `implicitly_wait(10)`, main.py:46) take no time in the model. So the expiry written by `login_by_manual` (main.py:87, 101) uses the same instant as the validity test of line 73, and the round trip (`req_time`, main.py:166) changes only across a nap, not between two requests with no nap between them.
- The operator's manual login: the `while True` poll on `wd.current_url` (main.py:82-84) waits on an outside actor. `LoginByManual` starts once the browser has left the login page.
- The empty-cart path of `check_all_goods` (main.py:106-111): the source then quits the browser, and `buy` fails on the closed session. `CheckAllGoods` models a cart with goods.
- The element lookups and clicks of `check_all_goods` and `buy` are recorded as trace entries. The page title after the order is a field set by the site.
- The `IS_DEBUG` branches (main.py:27-28, 62-63, 119-120): the constant is `False`.
- `maxRetry` and `leadTime` (main.py:19-20, 116): `leadTime` is never read; `maxRetry` is only the default of `buy`'s `retry` parameter (main.py:116), which the body never uses.
- Parsing the configured `targetTime` with `strptime` (main.py:132), and the local time zone used by `datetime.fromtimestamp`: the target is an instant on the same microsecond timeline as the corrected time.
- Floating point: `total_seconds()` and the float timestamp are exact at microsecond resolution for the times involved, so the model uses integers.
- The `print` messages.
