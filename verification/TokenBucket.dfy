/**
  The token bucket (internal/resilience/ratelimiter.go) over exact arithmetic.
  Tokens are counted in units of 1/Period of a request, so one nanosecond adds
  Rate units, the cap is BurstSize * Period and n requests cost n * Period.
 */
module TokenBucket {
  import opened Prelude

  datatype Config = Config(rate: int, period: int, burst: int, waitTimeout: int) {
    predicate Ok() { rate > 0 && period > 0 && burst >= 0 }
    function Cap(): int { burst * period }
  }

  datatype Bucket = Bucket(tokens: int, last: int)

  function New(c: Config, now: int): Bucket {
    Bucket(c.Cap(), now)
  }

  function Refill(c: Config, b: Bucket, now: int): Bucket {
    Bucket(Min(c.Cap(), b.tokens + (now - b.last) * c.rate), now)
  }

  /** AllowN; the first half of WaitN; and what WaitN does when its timer fires. */
  datatype Event = AllowN(n: nat, now: int) | WaitN(n: nat, now: int) | Wake(n: nat, now: int)

  datatype Verdict = Granted | Refused | Sleep(duration: int)

  function WaitTime(c: Config, b: Bucket, n: nat): int
    requires c.Ok()
  {
    (n * c.period - b.tokens) / c.rate
  }

  function Step(c: Config, b: Bucket, e: Event): (Bucket, Verdict)
    requires c.Ok()
  {
    var r := Refill(c, b, e.now);
    if e.Wake? || r.tokens >= e.n * c.period then
      (r.(tokens := r.tokens - e.n * c.period), Granted)
    else if e.AllowN? || WaitTime(c, r, e.n) > c.waitTimeout then (r, Refused)
    else (r, Sleep(WaitTime(c, r, e.n)))
  }

  class TokenBucketLimiter {
    const config: Config
    var tokens: int
    var lastRefill: int

    ghost function View(): Bucket
      reads this
    {
      Bucket(tokens, lastRefill)
    }

    constructor (c: Config, now: int)
      ensures config == c && View() == New(c, now)
    {
      config := c;
      tokens := c.Cap();
      lastRefill := now;
    }

    method DoRefill(now: int)
      modifies this
      ensures View() == Refill(config, old(View()), now)
    {
      var elapsed := now - lastRefill;
      lastRefill := now;
      tokens := tokens + elapsed * config.rate;
      if tokens > config.Cap() {
        tokens := config.Cap();
      }
    }

    method Allow(n: nat, now: int) returns (ok: bool)
      requires config.Ok()
      modifies this
      ensures (View(), if ok then Granted else Refused) == Step(config, old(View()), AllowN(n, now))
    {
      DoRefill(now);
      if tokens >= n * config.period {
        tokens := tokens - n * config.period;
        return true;
      }
      return false;
    }

    /** WaitN up to the point where it returns or goes to sleep. */
    method WaitStart(n: nat, now: int) returns (v: Verdict)
      requires config.Ok()
      modifies this
      ensures (View(), v) == Step(config, old(View()), WaitN(n, now))
    {
      DoRefill(now);
      if tokens >= n * config.period {
        tokens := tokens - n * config.period;
        return Granted;
      }
      var needed := n * config.period - tokens;
      var waitTime := needed / config.rate;
      if waitTime > config.waitTimeout {
        return Refused;
      }
      return Sleep(waitTime);
    }

    /** WaitN after its timer fires: the tokens are taken without another look. */
    method WaitFinish(n: nat, now: int)
      requires config.Ok()
      modifies this
      ensures (View(), Granted) == Step(config, old(View()), Wake(n, now))
    {
      DoRefill(now);
      tokens := tokens - n * config.period;
    }
  }

  // ---------- How long a waiter sleeps ----------

  /** The quotient, as the number whose multiple is the last not above. */
  lemma QuotientIff(missing: int, rate: int, k: int)
    requires rate > 0
    ensures missing / rate >= k <==> missing >= k * rate
  {
    var d := missing / rate;
    assert d * rate <= missing < d * rate + rate;
    if d >= k {
      MultipleGrows(k, d, rate);
    } else {
      MultipleGrows(d + 1, k, rate);
      assert (d + 1) * rate == d * rate + rate;
    }
  }

  lemma MultipleGrows(j: int, k: int, rate: int)
    requires rate > 0 && j <= k
    ensures j * rate <= k * rate
  {
  }

  /**
    WaitN by what is missing after the refill: nothing, then it is granted; more than WaitTimeout and another
    nanosecond bring in, then it is refused; otherwise it sleeps the whole nanoseconds that bring it in.
   */
  lemma {:induction false} WaitExactly(c: Config, b: Bucket, n: nat, now: int)
    requires c.Ok()
    ensures var (missing, v) := (n * c.period - Refill(c, b, now).tokens, Step(c, b, WaitN(n, now)).1);
      && (v.Granted? <==> missing <= 0)
      && (v.Refused? <==> missing > 0 && missing >= (c.waitTimeout + 1) * c.rate)
      && (v.Sleep? ==> v.duration * c.rate <= missing < (v.duration + 1) * c.rate)
  {
    var missing := n * c.period - Refill(c, b, now).tokens;
    var d := missing / c.rate;
    QuotientIff(missing, c.rate, c.waitTimeout + 1);
    QuotientIff(missing, c.rate, d);
    QuotientIff(missing, c.rate, d + 1);
  }

  /** What the bucket holds after a waiter for `n` has slept `k` and taken its tokens, with nobody else around. */
  function AfterSleep(c: Config, b: Bucket, n: nat, now: int, k: nat): int
    requires c.Ok()
  {
    Step(c, Step(c, b, WaitN(n, now)).0, Wake(n, now + k)).0.tokens
  }

  /**
    A lone waiter for no more than the burst: the time it is told to sleep is the shortest after which it
    owes less than one nanosecond's refill.
   */
  lemma {:induction false} LoneWaiter(c: Config, b: Bucket, n: nat, now: int, k: nat)
    requires c.Ok() && n <= c.burst && Step(c, b, WaitN(n, now)).1.Sleep?
    ensures AfterSleep(c, b, n, now, k) > -c.rate <==> k >= Step(c, b, WaitN(n, now)).1.duration
  {
    var r := Refill(c, b, now);
    var missing := n * c.period - r.tokens;
    MultipleGrows(n, c.burst, c.period);
    assert n * c.period <= c.Cap();
    assert AfterSleep(c, b, n, now, k) == Min(c.Cap(), r.tokens + k * c.rate) - n * c.period;
    assert AfterSleep(c, b, n, now, k) > -c.rate <==> k * c.rate - missing > -c.rate;
    assert (k + 1) * c.rate == k * c.rate + c.rate;
    QuotientIff(missing, c.rate, k + 1);
  }

  // ---------- Runs ----------

  function Run(c: Config, b: Bucket, es: seq<Event>): Bucket
    requires c.Ok()
  {
    if es == [] then b else Step(c, Run(c, b, es[..|es| - 1]), es[|es| - 1]).0
  }

  function Verdicts(c: Config, b: Bucket, es: seq<Event>): (vs: seq<Verdict>)
    requires c.Ok()
    ensures |vs| == |es|
  {
    if es == [] then []
    else
      var n := |es| - 1;
      Verdicts(c, b, es[..n]) + [Step(c, Run(c, b, es[..n]), es[n]).1]
  }

  /** Requests granted while `es` is processed from `b`. */
  function GrantedIn(c: Config, b: Bucket, es: seq<Event>): nat
    requires c.Ok()
  {
    if es == [] then 0
    else
      var n := |es| - 1;
      GrantedIn(c, b, es[..n]) + if Step(c, Run(c, b, es[..n]), es[n]).1 == Granted then es[n].n else 0
  }

  /** The clock of the run starts no earlier than `t` and never goes back. */
  ghost predicate Clocked(t: int, es: seq<Event>) {
    && (forall i :: 0 <= i < |es| ==> t <= es[i].now)
    && (forall i, j :: 0 <= i < j < |es| ==> es[i].now <= es[j].now)
  }

  lemma {:induction false} RunLast(c: Config, b: Bucket, es: seq<Event>)
    requires c.Ok()
    ensures Run(c, b, es).last == if es == [] then b.last else es[|es| - 1].now
  {
  }

  /** What one step does to the tokens. */
  lemma StepConserves(c: Config, b: Bucket, e: Event)
    requires c.Ok() && b.last <= e.now
    ensures var (after, v) := Step(c, b, e);
      && after.last == e.now && after.tokens <= c.Cap()
      && after.tokens + (if v == Granted then e.n * c.period else 0) <= b.tokens + (e.now - b.last) * c.rate
      && (0 <= b.tokens && !e.Wake? ==> 0 <= after.tokens)
  {
    assert 0 <= e.n * c.period;
    assert 0 <= c.burst * c.period;
    assert 0 <= (e.now - b.last) * c.rate;
  }

  lemma Telescope(granted: int, n: int, period: int, start: int, mid: int, now: int, rate: int)
    ensures (granted + n) * period == granted * period + n * period
    ensures (mid - start) * rate + (now - mid) * rate == (now - start) * rate
  {
  }

  /** One more step of the account. */
  lemma Balance(granted: int, n: int, period: int, t0: int, t1: int, t2: int, start: int, mid: int, now: int, rate: int)
    requires granted * period + t1 <= t0 + (mid - start) * rate && t2 + n * period <= t1 + (now - mid) * rate
    ensures (granted + n) * period + t2 <= t0 + (now - start) * rate
  {
    Telescope(granted, n, period, start, mid, now, rate);
  }

  /**
    Conservation, for every interleaving of AllowN and WaitN: tokens never exceed the burst, and
    what was granted plus what is left never exceeds what there was plus the refill for the elapsed time.
   */
  lemma {:induction false} Conservation(c: Config, b: Bucket, es: seq<Event>)
    requires c.Ok() && Clocked(b.last, es) && b.tokens <= c.Cap()
    ensures var e := Run(c, b, es);
      && b.last <= e.last && e.tokens <= c.Cap()
      && GrantedIn(c, b, es) * c.period + e.tokens <= b.tokens + (e.last - b.last) * c.rate
  {
    if es != [] {
      var prefix, ev := es[..|es| - 1], es[|es| - 1];
      Conservation(c, b, prefix);
      RunLast(c, b, prefix);
      var m, e := Run(c, b, prefix), Run(c, b, es);
      StepConserves(c, m, ev);
      var n := GrantedIn(c, b, es) - GrantedIn(c, b, prefix);
      assert 0 * c.period == 0;
      Balance(GrantedIn(c, b, prefix), n, c.period, b.tokens, m.tokens, e.tokens, b.last, m.last, ev.now, c.rate);
    }
  }

  /** Without WaitN wake-ups the bucket never goes into debt. */
  lemma {:induction false} NoDebtWithoutWake(c: Config, b: Bucket, es: seq<Event>)
    requires c.Ok() && Clocked(b.last, es) && 0 <= b.tokens
    requires forall i :: 0 <= i < |es| ==> !es[i].Wake?
    ensures 0 <= Run(c, b, es).tokens
  {
    if es != [] {
      var n := |es| - 1;
      NoDebtWithoutWake(c, b, es[..n]);
      RunLast(c, b, es[..n]);
      StepConserves(c, Run(c, b, es[..n]), es[n]);
    }
  }

  /** A bucket may as well be topped up at the moment of the next call. */
  lemma {:induction false} TopUpFirst(c: Config, b: Bucket, es: seq<Event>)
    requires c.Ok() && es != [] && b.last <= es[0].now
    ensures var full := Refill(c, b, es[0].now);
      Run(c, b, es) == Run(c, full, es) && GrantedIn(c, b, es) == GrantedIn(c, full, es)
  {
    var n := |es| - 1;
    if n == 0 {
      RefillComposes(c, b, es[0].now, es[0].now);
    } else {
      TopUpFirst(c, b, es[..n]);
    }
  }

  /** In any interval of any run the grants are bounded by burst, refill over its length and the debt at its end. */
  lemma {:induction false} IntervalBound(c: Config, start: int, before: seq<Event>, es: seq<Event>)
    requires c.Ok() && Clocked(start, before + es) && es != []
    ensures var b := Run(c, New(c, start), before);
      GrantedIn(c, b, es) * c.period <= c.Cap() + (es[|es| - 1].now - es[0].now) * c.rate - Run(c, b, es).tokens
  {
    var all, b := before + es, Run(c, New(c, start), before);
    assert forall i :: 0 <= i < |before| ==> all[i] == before[i];
    assert forall i :: 0 <= i < |es| ==> all[|before| + i] == es[i];
    RunLast(c, New(c, start), before);
    TopUpFirst(c, b, es);
    Conservation(c, Refill(c, b, es[0].now), es);
    RunLast(c, Refill(c, b, es[0].now), es);
  }

  /** AllowN alone: any interval grants at most BurstSize + Rate * length / Period requests. */
  lemma {:induction false} AllowIntervalBound(c: Config, start: int, before: seq<Event>, es: seq<Event>)
    requires c.Ok() && Clocked(start, before + es) && es != []
    requires forall i :: 0 <= i < |before + es| ==> !(before + es)[i].Wake?
    ensures var b := Run(c, New(c, start), before);
      && 0 <= Run(c, b, es).tokens
      && GrantedIn(c, b, es) * c.period <= c.Cap() + (es[|es| - 1].now - es[0].now) * c.rate
  {
    var all := before + es;
    assert forall i :: 0 <= i < |before| ==> all[i] == before[i];
    assert forall i :: 0 <= i < |es| ==> all[|before| + i] == es[i];
    IntervalBound(c, start, before, es);
    NoDebtWithoutWake(c, New(c, start), before) by { assert 0 <= c.burst * c.period; }
    RunLast(c, New(c, start), before);
    NoDebtWithoutWake(c, Run(c, New(c, start), before), es);
  }

  // ---------- When a request is granted ----------

  /** Requests granted from the i-th event on, in a run that starts with a full bucket. */
  function Since(c: Config, start: int, es: seq<Event>, i: nat): int
    requires c.Ok() && i <= |es|
  {
    GrantedIn(c, New(c, start), es) - GrantedIn(c, New(c, start), es[..i])
  }

  /** Another `x` tokens at `now` stay within burst and refill for the interval that begins with the i-th event. */
  ghost predicate Fits(c: Config, start: int, es: seq<Event>, i: nat, x: int, now: int)
    requires c.Ok() && i < |es|
  {
    Since(c, start, es, i) * c.period + x <= c.Cap() + (now - es[i].now) * c.rate
  }

  ghost predicate FitsEverywhere(c: Config, start: int, es: seq<Event>, x: int, now: int)
    requires c.Ok()
  {
    x <= c.Cap() && forall i :: 0 <= i < |es| ==> Fits(c, start, es, i, x, now)
  }

  lemma Shift(g: int, n: int, period: int, t: int, mid: int, now: int, rate: int)
    ensures (g + n) * period == g * period + n * period
    ensures (now - t) * rate == (mid - t) * rate + (now - mid) * rate
  {
  }

  /** What the last event of a run granted. */
  function LastGrant(c: Config, start: int, es: seq<Event>): int
    requires c.Ok() && es != []
  {
    Since(c, start, es, |es| - 1)
  }

  lemma {:induction false} FitsBefore(c: Config, start: int, es: seq<Event>, i: nat, x: int, now: int)
    requires c.Ok() && i < |es| - 1
    ensures var n := |es| - 1;
      Fits(c, start, es, i, x, now) <==>
      Fits(c, start, es[..n], i, x + LastGrant(c, start, es) * c.period - (now - es[n].now) * c.rate, es[n].now)
  {
    var n := |es| - 1;
    assert es[..n][..i] == es[..i];
    Shift(Since(c, start, es[..n], i), LastGrant(c, start, es), c.period, es[i].now, es[n].now, now, c.rate);
  }

  lemma {:induction false} FitsEverywhereStep(c: Config, start: int, es: seq<Event>, x: int, now: int, y: int)
    requires c.Ok() && es != []
    requires y == x + LastGrant(c, start, es) * c.period - (now - es[|es| - 1].now) * c.rate
    ensures FitsEverywhere(c, start, es, x, now) <==>
            x <= c.Cap() && FitsEverywhere(c, start, es[..|es| - 1], y, es[|es| - 1].now)
  {
    var n := |es| - 1;
    forall i | 0 <= i < n ensures Fits(c, start, es, i, x, now) <==> Fits(c, start, es[..n], i, y, es[n].now) {
      FitsBefore(c, start, es, i, x, now);
    }
    assert Fits(c, start, es, n, x, now) <==> y <= c.Cap();
  }

  lemma {:induction false} TokensStep(c: Config, start: int, es: seq<Event>)
    requires c.Ok() && es != []
    ensures var n := |es| - 1;
      var topped := Refill(c, Run(c, New(c, start), es[..n]), es[n].now);
      Run(c, New(c, start), es) == topped.(tokens := topped.tokens - LastGrant(c, start, es) * c.period)
  {
    assert 0 * c.period == 0;
  }

  lemma OfferStep(c: Config, topped: Bucket, taken: int, now: int, x: int, y: int)
    requires y == x + taken - (now - topped.last) * c.rate
    ensures x <= Refill(c, topped.(tokens := topped.tokens - taken), now).tokens <==> x <= c.Cap() && y <= topped.tokens
  {
  }

  lemma {:induction false} OfferBefore(c: Config, start: int, es: seq<Event>, x: int, now: int, y: int)
    requires c.Ok() && es != []
    requires y == x + LastGrant(c, start, es) * c.period - (now - es[|es| - 1].now) * c.rate
    ensures var n := |es| - 1;
      x <= Offer(c, start, es, now) <==> x <= c.Cap() && y <= Offer(c, start, es[..n], es[n].now)
  {
    var n := |es| - 1;
    TokensStep(c, start, es);
    OfferStep(c, Refill(c, Run(c, New(c, start), es[..n]), es[n].now), LastGrant(c, start, es) * c.period, now, x, y);
  }

  /** Tokens on offer at `now`, after a run that starts with a full bucket. */
  function Offer(c: Config, start: int, es: seq<Event>, now: int): int
    requires c.Ok()
  {
    Refill(c, Run(c, New(c, start), es), now).tokens
  }

  lemma FullOffer(c: Config, start: int, now: int)
    requires c.Ok() && start <= now
    ensures Offer(c, start, [], now) == c.Cap()
  {
    assert 0 <= (now - start) * c.rate;
  }

  /** What is on offer is exactly what every earlier interval leaves room for. */
  lemma {:induction false} OfferIsRoom(c: Config, start: int, es: seq<Event>, x: int, now: int)
    requires c.Ok() && start <= now && forall i :: 0 <= i < |es| ==> start <= es[i].now
    ensures x <= Offer(c, start, es, now) <==> FitsEverywhere(c, start, es, x, now)
  {
    if es == [] {
      FullOffer(c, start, now);
    } else {
      var n := |es| - 1;
      var y := x + LastGrant(c, start, es) * c.period - (now - es[n].now) * c.rate;
      OfferBefore(c, start, es, x, now, y);
      FitsEverywhereStep(c, start, es, x, now, y);
      OfferIsRoom(c, start, es[..n], y, es[n].now);
    }
  }

  /**
    A request is granted at once if and only if granting it keeps every interval that ends now within
    BurstSize + Rate * length / Period: no call is refused that the bound would have allowed.
   */
  lemma {:induction false} GrantedExactly(c: Config, start: int, es: seq<Event>, e: Event)
    requires c.Ok() && Clocked(start, es + [e]) && !e.Wake?
    ensures Step(c, Run(c, New(c, start), es), e).1 == Granted <==> FitsEverywhere(c, start, es, e.n * c.period, e.now)
  {
    var all := es + [e];
    assert all[|es|] == e && forall i :: 0 <= i < |es| ==> all[i] == es[i];
    OfferIsRoom(c, start, es, e.n * c.period, e.now);
  }

  /** The bucket is not in debt. */
  lemma {:induction false} NoDebtIff(c: Config, start: int, es: seq<Event>)
    requires c.Ok() && Clocked(start, es) && es != []
    ensures 0 <= Run(c, New(c, start), es).tokens <==> FitsEverywhere(c, start, es, 0, es[|es| - 1].now)
  {
    var now := es[|es| - 1].now;
    Conservation(c, New(c, start), es);
    RunLast(c, New(c, start), es);
    OfferIsRoom(c, start, es, 0, now);
    assert (now - now) * c.rate == 0;
    assert 0 <= c.burst * c.period;
  }

  lemma {:induction false} WakeGrants(c: Config, start: int, es: seq<Event>, e: Event, all: seq<Event>)
    requires c.Ok() && e.Wake? && all == es + [e]
    ensures LastGrant(c, start, all) == e.n
  {
    assert all[..|es|] == es;
  }

  /**
    The exact condition for a wake-up: taking the tokens keeps every interval that ends then within
    BurstSize + Rate * length / Period if and only if the refilled bucket has them, which is the check
    that WaitN does not repeat.
   */
  lemma {:induction false} WakeFitsIff(c: Config, start: int, es: seq<Event>, e: Event, all: seq<Event>)
    requires c.Ok() && Clocked(start, all) && e.Wake? && all == es + [e]
    ensures FitsEverywhere(c, start, all, 0, e.now) <==>
      e.n * c.period <= Refill(c, Run(c, New(c, start), es), e.now).tokens
  {
    assert all[|es|] == e && all[..|es|] == es && forall i :: 0 <= i < |es| ==> all[i] == es[i];
    WakeGrants(c, start, es, e, all);
    assert (e.now - e.now) * c.rate == 0;
    assert 0 <= c.burst * c.period;
    FitsEverywhereStep(c, start, all, 0, e.now, e.n * c.period);
    OfferIsRoom(c, start, es, e.n * c.period, e.now);
  }

  function Repeat(k: nat, e: Event): seq<Event> {
    if k == 0 then [] else Repeat(k - 1, e) + [e]
  }

  lemma EmptySleeps(c: Config, t: int)
    requires c.Ok() && c.period / c.rate <= c.waitTimeout
    ensures Step(c, Bucket(0, t), WaitN(1, t)) == (Bucket(0, t), Sleep(c.period / c.rate))
  {
    assert Refill(c, Bucket(0, t), t) == Bucket(0, t);
    assert 1 * c.period - 0 == c.period;
  }

  lemma BurstEmpties(c: Config, t: int)
    requires c.Ok()
    ensures Step(c, New(c, t), AllowN(c.burst, t)) == (Bucket(0, t), Granted)
  {
  }

  /** Any number of waiters that find the bucket empty all go to sleep for the same time... */
  lemma {:induction false} AllSleep(c: Config, t: int, k: nat)
    requires c.Ok() && c.period / c.rate <= c.waitTimeout
    ensures var b, es := Bucket(0, t), Repeat(k, WaitN(1, t));
      && Run(c, b, es) == b && GrantedIn(c, b, es) == 0
      && forall v :: v in Verdicts(c, b, es) ==> v == Sleep(c.period / c.rate)
  {
    if k > 0 {
      AllSleep(c, t, k - 1);
      EmptySleeps(c, t);
      var b, e, es := Bucket(0, t), WaitN(1, t), Repeat(k - 1, WaitN(1, t));
      Snoc(c, b, es, e, Repeat(k, e));
    }
  }

  lemma {:induction false} AllWake(c: Config, b: Bucket, now: int, k: nat)
    requires c.Ok()
    ensures GrantedIn(c, b, Repeat(k, Wake(1, now))) == k
  {
    if k > 0 {
      AllWake(c, b, now, k - 1);
      Snoc(c, b, Repeat(k - 1, Wake(1, now)), Wake(1, now), Repeat(k, Wake(1, now)));
    }
  }

  /**
    ... and are all let through when they wake.  So with WaitN no bound on the grants of an interval
    holds: for every k there is a run in which k requests are granted one wait time after an empty bucket.
   */
  lemma {:induction false} WaitersOvershoot(c: Config, t: int, k: nat)
    requires c.Ok() && c.period / c.rate <= c.waitTimeout
    ensures var b, d := Bucket(0, t), c.period / c.rate;
      var waits, wakes := Repeat(k, WaitN(1, t)), Repeat(k, Wake(1, t + d));
      && Step(c, New(c, t), AllowN(c.burst, t)) == (b, Granted)
      && (forall v :: v in Verdicts(c, b, waits) ==> v == Sleep(d))
      && GrantedIn(c, Run(c, b, waits), wakes) == k
  {
    BurstEmpties(c, t);
    AllSleep(c, t, k);
    AllWake(c, Bucket(0, t), t + c.period / c.rate, k);
  }

  /** One more event at the end of a run. */
  lemma {:induction false} Snoc(c: Config, b: Bucket, es: seq<Event>, e: Event, all: seq<Event>)
    requires c.Ok() && all == es + [e]
    ensures Run(c, b, all) == Step(c, Run(c, b, es), e).0
    ensures Verdicts(c, b, all) == Verdicts(c, b, es) + [Step(c, Run(c, b, es), e).1]
    ensures GrantedIn(c, b, all) ==
            GrantedIn(c, b, es) + if Step(c, Run(c, b, es), e).1 == Granted then e.n else 0
  {
    assert all[..|es|] == es;
  }

  // ---------- Refusals leave no trace ----------

  /** Lazy capped refill composes: looking at the bucket on the way changes nothing. */
  lemma RefillComposes(c: Config, b: Bucket, t1: int, t2: int)
    requires c.Ok() && b.last <= t1 <= t2
    ensures Refill(c, Refill(c, b, t1), t2) == Refill(c, b, t2)
  {
    assert (t2 - t1) * c.rate + (t1 - b.last) * c.rate == (t2 - b.last) * c.rate;
    assert (t2 - t1) * c.rate >= 0;
  }

  /** `late` is `early`, looked at once or more without taking anything. */
  ghost predicate Lags(c: Config, early: Bucket, late: Bucket) {
    early.last <= late.last && (early == late || Refill(c, early, late.last) == late)
  }

  lemma LagKept(c: Config, early: Bucket, late: Bucket, e: Event)
    requires c.Ok() && Lags(c, early, late) && late.last <= e.now
    ensures Step(c, early, e) == Step(c, late, e)
    ensures Step(c, late, e).1 == Refused ==> Lags(c, early, Step(c, late, e).0)
  {
    if early != late {
      RefillComposes(c, early, late.last, e.now);
    }
  }

  /** One more event: kept, or a refused one that is left out. */
  lemma {:induction false} OneMore(c: Config, b: Bucket, prefix: seq<Event>, kept: seq<Event>, e: Event, keep: bool,
      all: seq<Event>)
    requires c.Ok() && Lags(c, Run(c, b, kept), Run(c, b, prefix)) && Run(c, b, prefix).last <= e.now
    requires all == prefix + [e] && (keep || Step(c, Run(c, b, prefix), e).1 == Refused)
    ensures var more := if keep then kept + [e] else kept;
      && Verdicts(c, b, more) == Verdicts(c, b, kept) + (if keep then [Step(c, Run(c, b, prefix), e).1] else [])
      && Lags(c, Run(c, b, more), Run(c, b, all))
  {
    LagKept(c, Run(c, b, kept), Run(c, b, prefix), e);
    Snoc(c, b, prefix, e, all);
    if keep {
      Snoc(c, b, kept, e, kept + [e]);
    }
  }

  /** Only refused calls are left out. */
  ghost predicate DropsRefused(vs: seq<Verdict>, keep: seq<bool>) {
    |vs| == |keep| && forall i :: 0 <= i < |vs| && !keep[i] ==> vs[i] == Refused
  }

  /**
    Deleting any set of refused calls from a run leaves every other call's verdict, and what the
    bucket will offer later, unchanged.
   */
  lemma {:induction false} RefusalsLeaveNoTrace(c: Config, b: Bucket, es: seq<Event>, keep: seq<bool>)
    requires c.Ok() && Clocked(b.last, es) && |keep| == |es| && DropsRefused(Verdicts(c, b, es), keep)
    ensures Verdicts(c, b, Select(es, keep)) == Select(Verdicts(c, b, es), keep)
    ensures Lags(c, Run(c, b, Select(es, keep)), Run(c, b, es))
  {
    if es != [] {
      var n := |es| - 1;
      var prefix, e, vs := es[..n], es[n], Verdicts(c, b, es);
      Snoc(c, b, prefix, e, es);
      assert vs[..n] == Verdicts(c, b, prefix) && vs[n] == Step(c, Run(c, b, prefix), e).1;
      RefusalsLeaveNoTrace(c, b, prefix, keep[..n]);
      RunLast(c, b, prefix);
      OneMore(c, b, prefix, Select(prefix, keep[..n]), e, keep[n], es);
    }
  }
}
