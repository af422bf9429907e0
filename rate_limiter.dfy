/** The five limiters of src/middleware/rateLimiter.js and the fixed-window
    counter express-rate-limit runs for each of them. Every rateLimit(...) call
    owns its own store, so each tier is one Limiter object, and inside it every
    client key (the IP address) has its own window. */
module RateLimiter {
  import opened Json

  datatype Tier = General | Auth | Crud | PasswordReset | Admin

  /** One rateLimit(...) configuration. */
  datatype Policy = Policy(
    windowMs: nat,
    max: nat,
    error: string,
    retryAfter: string,
    skipSuccessful: bool,
    skipFailed: bool)

  const QuarterHour: nat := 15 * 60 * 1000
  const Hour: nat := 60 * 60 * 1000

  const TooMany: string := "Too many requests from this IP, please try again later."

  /** The policy table. */
  function PolicyOf(t: Tier): (p: Policy)
    ensures p.windowMs > 0 && p.max > 0
    ensures !p.skipFailed
    ensures p.skipSuccessful <==> t == Auth
    ensures p.windowMs == (if t == PasswordReset then Hour else QuarterHour)
    ensures p.retryAfter == (if p.windowMs == Hour then "1 hour" else "15 minutes")
  {
    match t
    case General => Policy(QuarterHour, 100, TooMany, "15 minutes", false, false)
    case Auth => Policy(QuarterHour, 5,
      "Too many authentication attempts from this IP, please try again later.", "15 minutes", true, false)
    case Crud => Policy(QuarterHour, 50, TooMany, "15 minutes", false, false)
    case PasswordReset => Policy(Hour, 3,
      "Too many password reset attempts from this IP, please try again later.", "1 hour", false, false)
    case Admin => Policy(QuarterHour, 30,
      "Too many admin requests from this IP, please try again later.", "15 minutes", false, false)
  }

  /** The limits, tier by tier: requests per window, and the error text of
      each tier's 429 body. */
  lemma {:induction false} Limits()
    ensures PolicyOf(General).max == 100 && PolicyOf(Auth).max == 5 && PolicyOf(Crud).max == 50
    ensures PolicyOf(PasswordReset).max == 3 && PolicyOf(Admin).max == 30
    ensures PolicyOf(General).windowMs == 900000 && PolicyOf(PasswordReset).windowMs == 3600000
    ensures PolicyOf(General).error == PolicyOf(Crud).error == "Too many requests from this IP, please try again later."
    ensures PolicyOf(Auth).error == "Too many authentication attempts from this IP, please try again later."
    ensures PolicyOf(PasswordReset).error == "Too many password reset attempts from this IP, please try again later."
    ensures PolicyOf(Admin).error == "Too many admin requests from this IP, please try again later."
  {
  }

  /** One client's window: the hits counted in it and when it ends. */
  datatype Window = Window(hits: nat, resetAt: int)

  /** What the limiter does with a request: pass it on, or answer 429 with the
      tier's message object. */
  datatype Decision = Admitted | Limited(status: int, error: string, retryAfter: string)

  /** The window a request at `now` is counted in: the stored one while it
      lasts, otherwise a fresh one that ends windowMs later. */
  function Current(p: Policy, w: Option<Window>, now: int): (c: Window)
    ensures w.Some? && now < w.value.resetAt ==> c == w.value
    ensures (w.None? || w.value.resetAt <= now) ==> c.hits == 0 && c.resetAt == now + p.windowMs
  {
    if w.Some? && now < w.value.resetAt then w.value else Window(0, now + p.windowMs)
  }

  /** Whether the hit of a request answered with `status` is taken back after
      the response (requestWasSuccessful is status < 400). */
  predicate Skipped(p: Policy, status: int)
  {
    (p.skipSuccessful && status < 400) || (p.skipFailed && status >= 400)
  }

  datatype Outcome = Outcome(window: Window, decision: Decision, counted: bool)

  /** One request: the hit is counted first, the request is refused when the
      count then exceeds max, and the hit is taken back when the response is
      one the policy skips. `status` is what the route would answer. */
  function Step(p: Policy, w: Option<Window>, now: int, status: int): (o: Outcome)
    ensures o.decision.Admitted? <==> Current(p, w, now).hits < p.max
    ensures o.decision.Limited? ==> o.decision == Limited(429, p.error, p.retryAfter)
    ensures o.window.resetAt == Current(p, w, now).resetAt
    ensures o.counted ==> o.window.hits == Current(p, w, now).hits + 1
    ensures !o.counted ==> o.window.hits == Current(p, w, now).hits
    ensures o.counted <==> !Skipped(p, if o.decision.Limited? then 429 else status)
  {
    var c := Current(p, w, now);
    if c.hits + 1 > p.max then
      Outcome(c.(hits := if Skipped(p, 429) then c.hits else c.hits + 1), Limited(429, p.error, p.retryAfter), !Skipped(p, 429))
    else
      Outcome(c.(hits := if Skipped(p, status) then c.hits else c.hits + 1), Admitted, !Skipped(p, status))
  }

  function WindowOf(windows: map<string, Window>, key: string): Option<Window>
  {
    if key in windows then Some(windows[key]) else None
  }

  /** One tier's store. `counted` is a ghost record, per key, of the admitted
      requests whose hit still counts in the current window: Handle restarts it
      with the window and adds one for each admitted, counted request, and
      Valid keeps it within both the window's hits and max. */
  class Limiter {
    const policy: Policy
    var windows: map<string, Window>
    ghost var counted: map<string, nat>

    ghost predicate Valid()
      reads this
    {
      forall k :: k in windows ==> k in counted && counted[k] <= windows[k].hits && counted[k] <= policy.max
    }

    constructor(p: Policy)
      ensures policy == p && windows == map[] && Valid()
    {
      policy := p;
      windows := map[];
      counted := map[];
    }

    /** The limiter middleware for one request from `key` at time `now`,
        followed by the bookkeeping done when the response finishes. Other keys'
        windows are untouched. */
    method Handle(key: string, now: int, status: int) returns (d: Decision)
      requires Valid()
      modifies this
      ensures Valid()
      ensures windows == old(windows)[key := Step(policy, WindowOf(old(windows), key), now, status).window]
      ensures d == Step(policy, WindowOf(old(windows), key), now, status).decision
      ensures var o := Step(policy, WindowOf(old(windows), key), now, status);
        var before := if key in old(windows) && now < old(windows)[key].resetAt then old(counted)[key] else 0;
        counted == old(counted)[key := before + (if o.decision.Admitted? && o.counted then 1 else 0)]
    {
      ghost var o := Step(policy, WindowOf(windows, key), now, status);
      var w: Window;
      if key in windows && now < windows[key].resetAt {
        w := windows[key];
      } else {
        w := Window(0, now + policy.windowMs);
        counted := counted[key := 0];
      }
      assert w == Current(policy, WindowOf(old(windows), key), now);
      assert key in counted && counted[key] <= w.hits && counted[key] <= policy.max;
      ghost var before := counted[key];
      w := w.(hits := w.hits + 1);
      if w.hits > policy.max {
        d := Limited(429, policy.error, policy.retryAfter);
        if Skipped(policy, 429) {
          w := w.(hits := w.hits - 1);
        }
      } else {
        d := Admitted;
        if Skipped(policy, status) {
          w := w.(hits := w.hits - 1);
        } else {
          counted := counted[key := counted[key] + 1];
        }
      }
      assert w == o.window && d == o.decision;
      assert counted == old(counted)[key := before + (if o.decision.Admitted? && o.counted then 1 else 0)];
      windows := windows[key := w];
    }
  }

  // ---------------------------------------------------------------------------
  // Sequences of requests from one client

  datatype Request = Request(now: int, status: int)

  /** The window after a sequence of requests from one key. */
  function Run(p: Policy, w: Option<Window>, reqs: seq<Request>): Option<Window>
    decreases |reqs|
  {
    if reqs == [] then w
    else Run(p, Some(Step(p, w, reqs[0].now, reqs[0].status).window), reqs[1..])
  }

  /** How many of the requests were admitted with their hit counted. */
  function CountedAdmitted(p: Policy, w: Option<Window>, reqs: seq<Request>): nat
    decreases |reqs|
  {
    if reqs == [] then 0
    else
      var o := Step(p, w, reqs[0].now, reqs[0].status);
      (if o.decision.Admitted? && o.counted then 1 else 0) + CountedAdmitted(p, Some(o.window), reqs[1..])
  }

  /** All requests arrive before `end`. */
  predicate Before(reqs: seq<Request>, end: int)
  {
    forall i :: 0 <= i < |reqs| ==> reqs[i].now < end
  }

  /** Each client gets at most max counted requests per window: starting from a window in
      which `a` counted requests have been admitted (never more than its hits
      and max), the requests that arrive before the window ends add at most
      max - a more. */
  lemma {:induction false} WindowBound(p: Policy, win: Window, reqs: seq<Request>, a: nat)
    requires a <= win.hits && a <= p.max
    requires Before(reqs, win.resetAt)
    ensures a + CountedAdmitted(p, Some(win), reqs) <= p.max
    decreases |reqs|
  {
    if reqs != [] {
      var o := Step(p, Some(win), reqs[0].now, reqs[0].status);
      var a' := if o.decision.Admitted? && o.counted then a + 1 else a;
      assert Before(reqs[1..], o.window.resetAt) by {
        forall i | 0 <= i < |reqs[1..]| ensures reqs[1..][i].now < o.window.resetAt {
          assert reqs[1..][i] == reqs[i + 1];
        }
      }
      WindowBound(p, o.window, reqs[1..], a');
    }
  }

  /** A client starting a new window gets at most max counted requests through
      before that window ends. */
  lemma {:induction false} FreshWindowBound(p: Policy, first: Request, rest: seq<Request>)
    requires p.windowMs > 0
    requires Before(rest, first.now + p.windowMs)
    ensures CountedAdmitted(p, None, [first] + rest) <= p.max
  {
    var reqs := [first] + rest;
    assert reqs[1..] == rest;
    var o := Step(p, None, first.now, first.status);
    if p.max == 0 {
      assert o.decision.Limited?;
    }
    var a := if o.decision.Admitted? && o.counted then 1 else 0;
    WindowBound(p, o.window, rest, a);
  }

  /** Once max hits are counted in a window, the next request inside it is
      refused with the tier's 429 body. */
  lemma {:induction false} NextIsLimited(p: Policy, win: Window, now: int, status: int)
    requires win.hits >= p.max && now < win.resetAt
    ensures Step(p, Some(win), now, status).decision == Limited(429, p.error, p.retryAfter)
  {
  }

  /** After the window has ended, the next request starts a new one and is
      admitted, however many hits the old one held. */
  lemma {:induction false} ExpiredWindowAdmits(t: Tier, win: Window, now: int, status: int)
    requires win.resetAt <= now
    ensures Step(PolicyOf(t), Some(win), now, status).decision == Admitted
    ensures Step(PolicyOf(t), Some(win), now, status).window.resetAt == now + PolicyOf(t).windowMs
  {
  }

  /** Only failures count on the auth tier: successful requests
      inside a window that is not yet full are all admitted and leave its hit
      count where it was. */
  lemma {:induction false} AuthSuccessesNotCounted(win: Window, reqs: seq<Request>)
    requires win.hits < PolicyOf(Auth).max
    requires Before(reqs, win.resetAt)
    requires forall i :: 0 <= i < |reqs| ==> reqs[i].status < 400
    ensures Run(PolicyOf(Auth), Some(win), reqs) == Some(win)
    decreases |reqs|
  {
    if reqs != [] {
      var p := PolicyOf(Auth);
      assert Step(p, Some(win), reqs[0].now, reqs[0].status).window == win;
      assert forall i :: 0 <= i < |reqs[1..]| ==> reqs[1..][i] == reqs[i + 1];
      AuthSuccessesNotCounted(win, reqs[1..]);
    }
  }

  /** The other half of "only failures count": on the auth tier a request
      answered with a failure status inside a window adds one hit, and so does
      the limiter's own 429. */
  lemma {:induction false} AuthFailuresCount(win: Window, now: int, status: int)
    requires now < win.resetAt && status >= 400
    ensures Step(PolicyOf(Auth), Some(win), now, status).window == Window(win.hits + 1, win.resetAt)
  {
  }

  predicate AllFailed(reqs: seq<Request>)
  {
    forall i :: 0 <= i < |reqs| ==> reqs[i].status >= 400
  }

  /** Failed auth requests inside a window each leave their hit in it. */
  lemma {:induction false} AuthFailuresAccumulate(win: Window, reqs: seq<Request>)
    requires Before(reqs, win.resetAt) && AllFailed(reqs)
    ensures Run(PolicyOf(Auth), Some(win), reqs) == Some(Window(win.hits + |reqs|, win.resetAt))
    decreases |reqs|
  {
    if reqs != [] {
      var next := Step(PolicyOf(Auth), Some(win), reqs[0].now, reqs[0].status).window;
      AuthFailuresCount(win, reqs[0].now, reqs[0].status);
      assert forall i :: 0 <= i < |reqs[1..]| ==> reqs[1..][i] == reqs[i + 1];
      AuthFailuresAccumulate(next, reqs[1..]);
    }
  }

  /** Brute-force protection: a client whose first five auth attempts in a new
      window all fail gets 429 on the sixth attempt inside those fifteen
      minutes, whatever that attempt would have answered. */
  lemma {:induction false} SixthFailedAttemptLimited(first: Request, rest: seq<Request>, sixth: Request)
    requires |rest| == 4 && first.status >= 400 && AllFailed(rest)
    requires Before(rest + [sixth], first.now + QuarterHour)
    ensures Step(PolicyOf(Auth), Run(PolicyOf(Auth), None, [first] + rest), sixth.now, sixth.status).decision
      == Limited(429, PolicyOf(Auth).error, "15 minutes")
  {
    var p := PolicyOf(Auth);
    var reqs := [first] + rest;
    assert reqs[1..] == rest;
    var begun := Step(p, None, first.now, first.status).window;
    assert begun == Window(1, first.now + QuarterHour);
    assert Before(rest, begun.resetAt) by {
      forall i | 0 <= i < |rest| ensures rest[i].now < begun.resetAt {
        assert (rest + [sixth])[i] == rest[i];
      }
    }
    AuthFailuresAccumulate(begun, rest);
    assert (rest + [sixth])[4] == sixth;
    NextIsLimited(p, Window(5, begun.resetAt), sixth.now, sixth.status);
  }

  /** On the other tiers every request inside a window adds one hit, whatever
      its outcome. */
  lemma {:induction false} EveryRequestCounts(t: Tier, win: Window, now: int, status: int)
    requires t != Auth && now < win.resetAt
    ensures Step(PolicyOf(t), Some(win), now, status).window.hits == win.hits + 1
  {
  }
}
