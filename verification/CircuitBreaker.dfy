/**
  The circuit breaker (internal/resilience/circuitbreaker.go): its transition
  functions, the class that performs them in place, and what holds of every
  interleaving of admissions, outcomes and resets.  Times are integers; the
  clock reading of each step is a parameter.
 */
module CircuitBreaking {
  import opened Prelude
  import opened CallWindow

  datatype State = Closed | Open | HalfOpen

  datatype Config = Config(failureThreshold: int, successThreshold: int, timeout: int,
                           maxHalfOpen: int, slowThreshold: int)

  datatype Breaker = Breaker(state: State, failures: int, successes: int,
                             halfOpenRequests: int, lastFailure: int)

  datatype Verdict = Admitted | CircuitOpen | TooManyRequests

  function Initial(): Breaker {
    Breaker(Closed, 0, 0, 0, 0)
  }

  function TransitionTo(b: Breaker, s: State): Breaker {
    if b.state == s then b else Breaker(s, 0, 0, 0, b.lastFailure)
  }

  function Allow(c: Config, b: Breaker, now: int): (Breaker, Verdict) {
    match b.state
    case Closed => (b, Admitted)
    case Open =>
      if now - b.lastFailure > c.timeout then
        (TransitionTo(b, HalfOpen).(halfOpenRequests := 1), Admitted)
      else (b, CircuitOpen)
    case HalfOpen =>
      if b.halfOpenRequests >= c.maxHalfOpen then (b, TooManyRequests)
      else (b.(halfOpenRequests := b.halfOpenRequests + 1), Admitted)
  }

  function RecordClosed(c: Config, b: Breaker, success: bool, now: int): Breaker {
    if success then b.(failures := 0)
    else
      var b1 := b.(failures := b.failures + 1, lastFailure := now);
      if b1.failures >= c.failureThreshold then TransitionTo(b1, Open) else b1
  }

  function RecordHalfOpen(c: Config, b: Breaker, success: bool): Breaker {
    if !success then TransitionTo(b, Open)
    else
      var b1 := b.(successes := b.successes + 1);
      if b1.successes >= c.successThreshold then TransitionTo(b1, Closed) else b1
  }

  function Record(c: Config, b: Breaker, success: bool, now: int): Breaker {
    match b.state
    case Closed => RecordClosed(c, b, success, now)
    case HalfOpen => RecordHalfOpen(c, b, success)
    case Open => b
  }

  function ResetOf(b: Breaker): Breaker {
    Breaker(Closed, 0, 0, 0, b.lastFailure)
  }

  class CircuitBreaker {
    const config: Config
    var state: State
    var failures: int
    var successes: int
    var halfOpenRequests: int
    var lastFailure: int
    var totalCalls: nat
    var successfulCalls: nat
    var failedCalls: nat
    var rejectedCalls: nat
    var slowCalls: nat
    var stateTransitions: nat
    const window: SlidingWindow

    ghost function View(): Breaker
      reads this
    {
      Breaker(state, failures, successes, halfOpenRequests, lastFailure)
    }

    /** The call metrics are tallies of the window's full history. */
    ghost predicate Valid()
      reads this, window, window.outcomes, window.durations
    {
      && window.Valid()
      && totalCalls == |window.history| == successfulCalls + failedCalls
      && failedCalls == Count(window.history, Failed)
      && slowCalls == Count(window.history, SlowerThan(config.slowThreshold))
    }

    constructor (c: Config, windowSize: int)
      requires 1 <= windowSize
      ensures Valid() && config == c && View() == Initial()
      ensures fresh(window) && fresh(window.outcomes) && fresh(window.durations)
      ensures rejectedCalls == 0 && stateTransitions == 0 && window.history == []
    {
      config := c;
      state, failures, successes, halfOpenRequests, lastFailure := Closed, 0, 0, 0, 0;
      totalCalls, successfulCalls, failedCalls, rejectedCalls := 0, 0, 0, 0;
      slowCalls, stateTransitions := 0, 0;
      window := new SlidingWindow(windowSize);
    }

    method Transition(s: State)
      modifies this`state, this`failures, this`successes, this`halfOpenRequests, this`stateTransitions
      ensures View() == TransitionTo(old(View()), s)
      ensures stateTransitions == old(stateTransitions) + if old(state) == s then 0 else 1
    {
      if state == s {
        return;
      }
      state := s;
      failures := 0;
      successes := 0;
      halfOpenRequests := 0;
      stateTransitions := stateTransitions + 1;
    }

    method AllowRequest(now: int) returns (v: Verdict)
      modifies this`state, this`failures, this`successes, this`halfOpenRequests, this`stateTransitions
      ensures (View(), v) == Allow(config, old(View()), now)
      ensures stateTransitions == old(stateTransitions) + if state == old(state) then 0 else 1
    {
      match state {
        case Closed =>
          v := Admitted;
        case Open =>
          if now - lastFailure > config.timeout {
            Transition(HalfOpen);
            halfOpenRequests := 1;
            v := Admitted;
          } else {
            v := CircuitOpen;
          }
        case HalfOpen =>
          if halfOpenRequests >= config.maxHalfOpen {
            v := TooManyRequests;
          } else {
            halfOpenRequests := halfOpenRequests + 1;
            v := Admitted;
          }
      }
    }

    method RecordRejection()
      modifies this`rejectedCalls
      ensures rejectedCalls == old(rejectedCalls) + 1
    {
      rejectedCalls := rejectedCalls + 1;
    }

    method UpdateMetrics(success: bool, duration: int)
      modifies this`totalCalls, this`successfulCalls, this`failedCalls, this`slowCalls
      ensures totalCalls == old(totalCalls) + 1
      ensures successfulCalls == old(successfulCalls) + if success then 1 else 0
      ensures failedCalls == old(failedCalls) + if success then 0 else 1
      ensures slowCalls == old(slowCalls) + if duration > config.slowThreshold then 1 else 0
    {
      totalCalls := totalCalls + 1;
      if success {
        successfulCalls := successfulCalls + 1;
      } else {
        failedCalls := failedCalls + 1;
      }
      if duration > config.slowThreshold {
        slowCalls := slowCalls + 1;
      }
    }

    method UpdateState(success: bool, now: int)
      modifies this`state, this`failures, this`successes, this`halfOpenRequests, this`lastFailure, this`stateTransitions
      ensures View() == Record(config, old(View()), success, now)
      ensures stateTransitions == old(stateTransitions) + if state == old(state) then 0 else 1
    {
      match state {
        case Closed =>
          if success {
            failures := 0;
          } else {
            failures := failures + 1;
            lastFailure := now;
            if failures >= config.failureThreshold {
              Transition(Open);
            }
          }
        case HalfOpen =>
          if success {
            successes := successes + 1;
            if successes >= config.successThreshold {
              Transition(Closed);
            }
          } else {
            Transition(Open);
          }
        case Open =>
      }
    }

    method RecordOutcome(success: bool, duration: int, now: int)
      requires Valid()
      modifies this, window, window.outcomes, window.durations
      ensures Valid() && rejectedCalls == old(rejectedCalls)
      ensures window.outcomes == old(window.outcomes) && window.durations == old(window.durations)
      ensures View() == Record(config, old(View()), success, now)
      ensures window.history == old(window.history) + [Call(success, duration)]
      ensures stateTransitions == old(stateTransitions) + if state == old(state) then 0 else 1
    {
      ghost var h := window.history;
      window.Record(success, duration);
      assert window.history[..|h|] == h;
      UpdateMetrics(success, duration);
      UpdateState(success, now);
    }

    method Reset()
      modifies this`state, this`failures, this`successes, this`halfOpenRequests
      ensures View() == ResetOf(old(View()))
    {
      state := Closed;
      failures := 0;
      successes := 0;
      halfOpenRequests := 0;
    }
  }
}

/** What every run of the breaker satisfies. */
module BreakerRuns {
  import opened Prelude
  import opened CircuitBreaking

  datatype Event = Ask(now: int) | Outcome(success: bool, now: int) | Reset

  function Apply(c: Config, b: Breaker, e: Event): Breaker {
    match e
    case Ask(now) => Allow(c, b, now).0
    case Outcome(success, now) => Record(c, b, success, now)
    case Reset => ResetOf(b)
  }

  /** The verdict of an event: only requests get one. */
  function VerdictOf(c: Config, b: Breaker, e: Event): Option<Verdict> {
    if e.Ask? then Some(Allow(c, b, e.now).1) else None
  }

  function Run(c: Config, b: Breaker, es: seq<Event>): Breaker {
    if es == [] then b else Apply(c, Run(c, b, es[..|es| - 1]), es[|es| - 1])
  }

  /** Requests admitted while `es` is processed from `b`. */
  function Admissions(c: Config, b: Breaker, es: seq<Event>): nat {
    if es == [] then 0
    else
      var n := |es| - 1;
      Admissions(c, b, es[..n]) +
      if VerdictOf(c, Run(c, b, es[..n]), es[n]) == Some(Admitted) then 1 else 0
  }

  lemma {:induction false} RunConcat(c: Config, b: Breaker, p: seq<Event>, q: seq<Event>)
    ensures Run(c, b, p + q) == Run(c, Run(c, b, p), q)
  {
    if q == [] {
      assert p + q == p;
    } else {
      var n := |q| - 1;
      assert (p + q)[..|p| + n] == p + q[..n];
      RunConcat(c, b, p, q[..n]);
    }
  }

  // ---------- Half-open discipline ----------

  ghost predicate HalfOpenSane(c: Config, b: Breaker) {
    b.state == HalfOpen ==> 1 <= b.halfOpenRequests <= Max(1, c.maxHalfOpen)
  }

  lemma {:induction false} ReachableHalfOpenSane(c: Config, es: seq<Event>)
    ensures HalfOpenSane(c, Run(c, Initial(), es))
  {
    if es != [] {
      ReachableHalfOpenSane(c, es[..|es| - 1]);
    }
  }

  /**
    Any stretch of any run throughout which the breaker is half-open admits at most
    max(1, MaxHalfOpenRequests) calls.  `before` is the run up to the stretch, which
    may begin with the very request that opens the episode.
   */
  lemma {:induction false} HalfOpenEpisodeBound(c: Config, before: seq<Event>, stretch: seq<Event>)
    requires forall k :: 0 < k <= |stretch| ==>
               Run(c, Run(c, Initial(), before), stretch[..k]).state == HalfOpen
    ensures Admissions(c, Run(c, Initial(), before), stretch) <= Max(1, c.maxHalfOpen)
  {
    var b := Run(c, Initial(), before);
    ReachableHalfOpenSane(c, before);
    EpisodeCounted(c, b, stretch);
    ReachableHalfOpenSane(c, before + stretch);
    RunConcat(c, Initial(), before, stretch);
  }

  /** Within an episode the counter is what it was at the start plus the admissions since. */
  lemma {:induction false} EpisodeCounted(c: Config, b: Breaker, stretch: seq<Event>)
    requires HalfOpenSane(c, b)
    requires forall k :: 0 < k <= |stretch| ==> Run(c, b, stretch[..k]).state == HalfOpen
    ensures stretch != [] ==>
              Run(c, b, stretch).halfOpenRequests ==
              Admissions(c, b, stretch) + if b.state == HalfOpen then b.halfOpenRequests else 0
  {
    if stretch != [] {
      var n := |stretch| - 1;
      var prefix := stretch[..n];
      assert stretch[..|stretch|] == stretch;
      forall k | 0 < k <= n ensures Run(c, b, prefix[..k]).state == HalfOpen {
        assert prefix[..k] == stretch[..k];
      }
      EpisodeCounted(c, b, prefix);
    }
  }

  // ---------- Trip rule ----------

  /** Outcomes recorded since the breaker last became, or was reset to, closed. */
  function ClosedLog(c: Config, es: seq<Event>): seq<bool> {
    if es == [] then []
    else
      var n := |es| - 1;
      var was := Run(c, Initial(), es[..n]).state;
      if was != Closed || Run(c, Initial(), es).state != Closed || es[n].Reset? then []
      else if es[n].Outcome? then ClosedLog(c, es[..n]) + [es[n].success]
      else ClosedLog(c, es[..n])
  }

  /** Length of the final run of failures in a log of outcomes. */
  function TrailingFailures(log: seq<bool>): nat {
    if log == [] || log[|log| - 1] then 0 else 1 + TrailingFailures(log[..|log| - 1])
  }

  /** In the closed state the failure counter is the trailing run of failures, below the threshold. */
  lemma {:induction false} FailuresAreTrailing(c: Config, es: seq<Event>)
    requires c.failureThreshold > 0
    ensures var b := Run(c, Initial(), es);
      b.state == Closed ==>
        b.failures == TrailingFailures(ClosedLog(c, es)) && b.failures < c.failureThreshold
  {
    if es != [] {
      var n := |es| - 1;
      FailuresAreTrailing(c, es[..n]);
      if es[n].Outcome? {
        var log := ClosedLog(c, es[..n]);
        assert (log + [es[n].success])[..|log|] == log;
      }
    }
  }

  /**
   * An outcome recorded while closed opens the breaker exactly when it completes a run of
   * FailureThreshold failures.
   */
  lemma {:induction false} TripsExactlyAtThreshold(c: Config, es: seq<Event>, success: bool, now: int)
    requires c.failureThreshold > 0
    requires Run(c, Initial(), es).state == Closed
    ensures Record(c, Run(c, Initial(), es), success, now).state ==
            if TrailingFailures(ClosedLog(c, es) + [success]) == c.failureThreshold then Open else Closed
  {
    FailuresAreTrailing(c, es);
    var log := ClosedLog(c, es);
    assert (log + [success])[..|log|] == log;
  }

  // ---------- Recovery ----------

  /** Outcomes recorded since the breaker last became half-open. */
  function EpisodeLog(c: Config, es: seq<Event>): seq<bool> {
    if es == [] then []
    else
      var n := |es| - 1;
      if Run(c, Initial(), es[..n]).state != HalfOpen || Run(c, Initial(), es).state != HalfOpen then []
      else if es[n].Outcome? then EpisodeLog(c, es[..n]) + [es[n].success]
      else EpisodeLog(c, es[..n])
  }

  function Successes(log: seq<bool>): nat {
    if log == [] then 0 else Successes(log[..|log| - 1]) + if log[|log| - 1] then 1 else 0
  }

  lemma {:induction false} SuccessesCounted(c: Config, es: seq<Event>)
    ensures var b := Run(c, Initial(), es); b.state == HalfOpen ==> b.successes == Successes(EpisodeLog(c, es))
  {
    if es != [] {
      var n := |es| - 1;
      SuccessesCounted(c, es[..n]);
      if es[n].Outcome? {
        var log := EpisodeLog(c, es[..n]);
        assert (log + [es[n].success])[..|log|] == log;
      }
    }
  }

  /**
    Where an outcome takes a half-open breaker, in every run: a failure reopens it; a success closes it
    exactly when the episode's successes, this one included, reach SuccessThreshold.
   */
  lemma {:induction false} RecoversExactlyAtThreshold(c: Config, es: seq<Event>, success: bool, now: int)
    requires Run(c, Initial(), es).state == HalfOpen
    ensures Record(c, Run(c, Initial(), es), success, now).state ==
            if !success then Open
            else if Successes(EpisodeLog(c, es) + [success]) >= c.successThreshold then Closed
            else HalfOpen
  {
    SuccessesCounted(c, es);
    var log := EpisodeLog(c, es);
    assert (log + [success])[..|log|] == log;
  }

  ghost predicate NotAfter(e: Event, t: int) {
    match e
    case Ask(now) => now <= t
    case Outcome(_, now) => now <= t
    case Reset => false
  }

  /**
    After the breaker trips from Closed at `t`, and until it is reset, every request made no
    later than t + Timeout is rejected, whatever outcomes of earlier calls arrive meanwhile.
   */
  lemma {:induction false} TripRejectsForTimeout(c: Config, b: Breaker, t: int, later: seq<Event>)
    requires b.state == Closed && Record(c, b, false, t).state == Open
    requires forall i :: 0 <= i < |later| ==> NotAfter(later[i], t + c.timeout)
    ensures var tripped := Record(c, b, false, t);
      && Run(c, tripped, later) == tripped
      && Admissions(c, tripped, later) == 0
      && forall i :: 0 <= i < |later| && later[i].Ask? ==>
           VerdictOf(c, Run(c, tripped, later[..i]), later[i]) == Some(CircuitOpen)
  {
    var tripped := Record(c, b, false, t);
    assert tripped.lastFailure == t;
    if later != [] {
      var n := |later| - 1;
      assert NotAfter(later[n], t + c.timeout);
      TripRejectsForTimeout(c, b, t, later[..n]);
      forall i | 0 <= i < |later| && later[i].Ask?
        ensures VerdictOf(c, Run(c, tripped, later[..i]), later[i]) == Some(CircuitOpen)
      {
        if i < n {
          assert later[..n][..i] == later[..i] && later[..n][i] == later[i];
        }
      }
    }
  }

  /** Clock readings never go back. */
  ghost predicate Clocked(es: seq<Event>) {
    forall i, j :: 0 <= i < j < |es| && !es[i].Reset? && !es[j].Reset? ==> es[i].now <= es[j].now
  }

  lemma {:induction false} HalfOpenIsPastTimeout(c: Config, es: seq<Event>, now: int)
    requires Clocked(es)
    requires forall i :: 0 <= i < |es| && !es[i].Reset? ==> es[i].now <= now
    ensures var b := Run(c, Initial(), es);
      b.state == HalfOpen ==> now - b.lastFailure > c.timeout
  {
    if es != [] {
      var n := |es| - 1;
      assert !es[n].Reset? ==> es[n].now <= now;
      HalfOpenIsPastTimeout(c, es[..n], now);
    }
  }

  /**
    The full-timeout guarantee does not extend to a breaker reopened by a failed probe: the
    failure time is not refreshed, so the next request is admitted however soon it comes.
   */
  lemma {:induction false} ReopenedAdmitsAtOnce(c: Config, es: seq<Event>, failedAt: int, now: int)
    requires Clocked(es) && failedAt <= now
    requires forall i :: 0 <= i < |es| && !es[i].Reset? ==> es[i].now <= failedAt
    requires Run(c, Initial(), es).state == HalfOpen
    ensures var reopened := Record(c, Run(c, Initial(), es), false, failedAt);
      reopened.state == Open && Allow(c, reopened, now).1 == Admitted
  {
    HalfOpenIsPastTimeout(c, es, failedAt);
  }
}

/** Callers that finish one call before starting the next. */
module SequentialCallers {
  import opened Prelude
  import opened CircuitBreaking

  /** One Execute, during which the breaker may be reset, or a reset between calls. */
  datatype Op = Execute(start: int, success: bool, finish: int, resetDuring: bool) | Reset

  function Verdict(c: Config, b: Breaker, op: Op): Verdict
    requires op.Execute?
  {
    Allow(c, b, op.start).1
  }

  function Apply(c: Config, b: Breaker, op: Op): Breaker {
    match op
    case Reset => ResetOf(b)
    case Execute(start, success, finish, resetDuring) =>
      var (b1, v) := Allow(c, b, start);
      if v != Admitted then b1
      else Record(c, if resetDuring then ResetOf(b1) else b1, success, finish)
  }

  function Run(c: Config, b: Breaker, ops: seq<Op>): Breaker {
    if ops == [] then b else Apply(c, Run(c, b, ops[..|ops| - 1]), ops[|ops| - 1])
  }

  /** The requests of a run from the initial state that are turned away with "too many requests". */
  ghost predicate SeesTooMany(c: Config, ops: seq<Op>) {
    exists i :: 0 <= i < |ops| && ops[i].Execute? &&
      Verdict(c, Run(c, Initial(), ops[..i]), ops[i]) == TooManyRequests
  }

  ghost predicate Positive(c: Config) {
    c.failureThreshold > 0 && c.successThreshold > 0
  }

  /** Between calls, every probe of the current episode has been a success. */
  lemma {:induction false} ProbesAllSucceeded(c: Config, ops: seq<Op>)
    requires Positive(c)
    ensures var b := Run(c, Initial(), ops);
      b.state == HalfOpen ==> b.halfOpenRequests == b.successes && 1 <= b.successes < c.successThreshold
  {
    if ops != [] {
      ProbesAllSucceeded(c, ops[..|ops| - 1]);
    }
  }

  lemma NeverTooMany(c: Config, ops: seq<Op>)
    requires Positive(c) && c.successThreshold <= Max(1, c.maxHalfOpen)
    ensures !SeesTooMany(c, ops)
  {
    forall i | 0 <= i < |ops| && ops[i].Execute?
      ensures Verdict(c, Run(c, Initial(), ops[..i]), ops[i]) != TooManyRequests
    {
      ProbesAllSucceeded(c, ops[..i]);
    }
  }

  ghost predicate NoReset(ops: seq<Op>) {
    forall i :: 0 <= i < |ops| ==> ops[i].Execute?
  }

  lemma StuckOnce(c: Config, b: Breaker, op: Op)
    requires b.state == HalfOpen && b.halfOpenRequests >= c.maxHalfOpen && op.Execute?
    ensures Apply(c, b, op) == b && Verdict(c, b, op) == TooManyRequests
  {
  }

  lemma {:induction false} StuckRun(c: Config, b: Breaker, ops: seq<Op>)
    requires b.state == HalfOpen && b.halfOpenRequests >= c.maxHalfOpen && NoReset(ops)
    ensures Run(c, b, ops) == b
  {
    if ops != [] {
      var n := |ops| - 1;
      StuckRun(c, b, ops[..n]);
      StuckOnce(c, b, ops[n]);
    }
  }

  /** A half-open breaker that has used up its probes turns every call away until it is reset. */
  lemma {:induction false} StuckUntilReset(c: Config, b: Breaker, ops: seq<Op>)
    requires b.state == HalfOpen && b.halfOpenRequests >= c.maxHalfOpen && NoReset(ops)
    ensures Run(c, b, ops) == b
    ensures forall i :: 0 <= i < |ops| ==> Verdict(c, Run(c, b, ops[..i]), ops[i]) == TooManyRequests
  {
    StuckRun(c, b, ops);
    forall i | 0 <= i < |ops| ensures Verdict(c, Run(c, b, ops[..i]), ops[i]) == TooManyRequests {
      StuckRun(c, b, ops[..i]);
      StuckOnce(c, b, ops[i]);
    }
  }

  /** `n` calls at time `t`, all with the same outcome. */
  function Repeat(n: nat, success: bool, t: int): seq<Op> {
    if n == 0 then [] else Repeat(n - 1, success, t) + [Execute(t, success, t, false)]
  }

  lemma {:induction false} RunConcat(c: Config, b: Breaker, p: seq<Op>, q: seq<Op>)
    ensures Run(c, b, p + q) == Run(c, Run(c, b, p), q)
  {
    if q == [] {
      assert p + q == p;
    } else {
      var n := |q| - 1;
      assert (p + q)[..|p| + n] == p + q[..n];
      RunConcat(c, b, p, q[..n]);
    }
  }

  /** A breaker that failures recorded at time 0 have brought to this state. */
  function Failed(c: Config, n: nat): Breaker {
    if n < c.failureThreshold then Breaker(Closed, n, 0, 0, 0) else Breaker(Open, 0, 0, 0, 0)
  }

  lemma {:induction false} RunRepeat(c: Config, b: Breaker, n: nat, success: bool, t: int)
    requires n > 0
    ensures Run(c, b, Repeat(n, success, t)) ==
            Apply(c, Run(c, b, Repeat(n - 1, success, t)), Execute(t, success, t, false))
  {
    var ops := Repeat(n, success, t);
    assert ops[..|ops| - 1] == Repeat(n - 1, success, t);
  }

  /** An open breaker after `n` probes that all succeeded, too few to close it. */
  function Probed(n: nat): Breaker {
    if n == 0 then Breaker(Open, 0, 0, 0, 0) else Breaker(HalfOpen, 0, n, n, 0)
  }

  lemma FailureStep(c: Config, n: nat)
    requires 0 < n <= c.failureThreshold
    ensures Apply(c, Failed(c, n - 1), Execute(0, false, 0, false)) == Failed(c, n)
  {
  }

  lemma ProbeStep(c: Config, n: nat, t: int)
    requires 0 < n < c.successThreshold && n <= Max(1, c.maxHalfOpen) && t > c.timeout
    ensures Apply(c, Probed(n - 1), Execute(t, true, t, false)) == Probed(n)
  {
  }

  lemma {:induction false} FailuresTrip(c: Config, n: nat, b: Breaker)
    requires n <= c.failureThreshold && 0 < c.failureThreshold && b == Failed(c, 0)
    ensures Run(c, b, Repeat(n, false, 0)) == Failed(c, n)
  {
    if n > 0 {
      FailuresTrip(c, n - 1, b);
      RunRepeat(c, b, n, false, 0);
      FailureStep(c, n);
    }
  }

  /** All-successful probes, one at a time, after the timeout of an open breaker. */
  lemma {:induction false} ProbesSucceed(c: Config, n: nat, t: int, b: Breaker)
    requires n < c.successThreshold && n <= Max(1, c.maxHalfOpen) && t > c.timeout && b == Probed(0)
    ensures Run(c, b, Repeat(n, true, t)) == Probed(n)
  {
    if n > 0 {
      ProbesSucceed(c, n - 1, t, b);
      RunRepeat(c, b, n, true, t);
      ProbeStep(c, n, t);
    }
  }

  /** An open breaker after `n` calls past its timeout that all succeeded, with enough probes allowed. */
  function Recovering(c: Config, b: Breaker, n: nat): Breaker {
    if n == 0 then b
    else if n < c.successThreshold then Breaker(HalfOpen, 0, n, n, b.lastFailure)
    else Breaker(Closed, 0, 0, 0, b.lastFailure)
  }

  lemma RecoveryStep(c: Config, b: Breaker, n: nat, t: int)
    requires b.state == Open && t > b.lastFailure + c.timeout
    requires 0 < n <= c.successThreshold <= Max(1, c.maxHalfOpen)
    ensures Apply(c, Recovering(c, b, n - 1), Execute(t, true, t, false)) == Recovering(c, b, n)
    ensures Verdict(c, Recovering(c, b, n - 1), Execute(t, true, t, false)) == Admitted
  {
  }

  lemma {:induction false} RecoveryRun(c: Config, b: Breaker, n: nat, t: int)
    requires b.state == Open && t > b.lastFailure + c.timeout
    requires n <= c.successThreshold <= Max(1, c.maxHalfOpen)
    ensures Run(c, b, Repeat(n, true, t)) == Recovering(c, b, n)
  {
    if n > 0 {
      RecoveryRun(c, b, n - 1, t);
      RunRepeat(c, b, n, true, t);
      RecoveryStep(c, b, n, t);
    }
  }

  /** `n` successful calls one after the other, past the timeout, close the breaker and let the next one in. */
  ghost predicate RecoversAfter(c: Config, b: Breaker, n: nat, t: int) {
    var after := Run(c, b, Repeat(n, true, t));
    after.state == Closed && Allow(c, after, t).1 == Admitted
  }

  /**
    SuccessThreshold successful calls, one after the other, close any open breaker whose timeout is over,
    and the next request is admitted, if and only if enough probes are allowed.
   */
  lemma {:induction false} RecoversIff(c: Config, b: Breaker, t: int)
    requires b.state == Open && t > b.lastFailure + c.timeout && c.successThreshold > 0
    ensures RecoversAfter(c, b, c.successThreshold, t) <==> c.successThreshold <= Max(1, c.maxHalfOpen)
  {
    if c.successThreshold <= Max(1, c.maxHalfOpen) {
      RecoveryRun(c, b, c.successThreshold, t);
    } else {
      StarvingRun(c, b, c.successThreshold, t);
    }
  }

  /** The same with too few probes allowed: the breaker stays half-open with its probes used up. */
  function Starving(c: Config, b: Breaker, n: nat): Breaker {
    if n == 0 then b
    else
      var probes := Min(n, Max(1, c.maxHalfOpen));
      Breaker(HalfOpen, 0, probes, probes, b.lastFailure)
  }

  lemma StarvingStep(c: Config, b: Breaker, n: nat, t: int)
    requires b.state == Open && t > b.lastFailure + c.timeout && c.successThreshold > Max(1, c.maxHalfOpen) && n > 0
    ensures Apply(c, Starving(c, b, n - 1), Execute(t, true, t, false)) == Starving(c, b, n)
  {
  }

  lemma {:induction false} StarvingRun(c: Config, b: Breaker, n: nat, t: int)
    requires b.state == Open && t > b.lastFailure + c.timeout && c.successThreshold > Max(1, c.maxHalfOpen)
    ensures Run(c, b, Repeat(n, true, t)) == Starving(c, b, n)
  {
    if n > 0 {
      StarvingRun(c, b, n - 1, t);
      RunRepeat(c, b, n, true, t);
      StarvingStep(c, b, n, t);
    }
  }

  /** Failures trip the breaker; then as many successful probes as are allowed. */
  lemma {:induction false} ProbesUsedUp(c: Config, b: Breaker, t: int) returns (ops: seq<Op>)
    requires Positive(c) && c.successThreshold > Max(1, c.maxHalfOpen) && t > c.timeout && b == Initial()
    ensures var after := Run(c, b, ops);
      after.state == HalfOpen && after.halfOpenRequests == Max(1, c.maxHalfOpen)
  {
    var m := Max(1, c.maxHalfOpen);
    var trip, probes := Repeat(c.failureThreshold, false, 0), Repeat(m, true, t);
    FailuresTrip(c, c.failureThreshold, b);
    ProbesSucceed(c, m, t, Failed(c, c.failureThreshold));
    RunConcat(c, b, trip, probes);
    ops := trip + probes;
  }

  /** With too few probes allowed, all-successful callers drive the breaker into the stuck state. */
  lemma {:induction false} TooManyReachable(c: Config, b: Breaker) returns (ops: seq<Op>)
    requires Positive(c) && c.successThreshold > Max(1, c.maxHalfOpen) && b == Initial()
    ensures SeesTooMany(c, ops)
  {
    var t := c.timeout + 1;
    var stuck := ProbesUsedUp(c, b, t);
    var last := Execute(t, true, t, false);
    ops := stuck + [last];
    var i := |stuck|;
    assert ops[..i] == stuck && ops[i] == last;
    assert Verdict(c, Run(c, b, stuck), last) == TooManyRequests;
  }

  /**
   * Sequential callers are never told "too many requests" if and only if enough probes are allowed to
   * close the breaker.
   */
  lemma TooManyIff(c: Config)
    requires Positive(c)
    ensures (forall ops :: !SeesTooMany(c, ops)) <==> c.successThreshold <= Max(1, c.maxHalfOpen)
  {
    if c.successThreshold <= Max(1, c.maxHalfOpen) {
      forall ops ensures !SeesTooMany(c, ops) {
        NeverTooMany(c, ops);
      }
    } else {
      var ops := TooManyReachable(c, Initial());
    }
  }
}
