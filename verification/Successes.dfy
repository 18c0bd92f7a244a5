/**
  Idempotency command by command (internal/jobs/worker/pool.go,
  internal/jobs/lock/distributed_lock.go): the workers' steps, with the idempotency keys and
  the history of successful handler runs beside them.
 */
module JobSuccesses {
  import opened Prelude
  import opened RetryTiming
  import opened JobStore
  import opened JobWorkers
  import opened JobOwnership
  import opened KeyRaces

  datatype Ledger = Ledger(
    s: System,
    finishing: map<nat, string>,   // keys of successes whose worker has not marked them yet
    completed: set<string>,        // arcana:jobs:idempotency:<key>
    successes: seq<string>)        // history: keys of successful handler runs

  datatype Turn = Do(step: Step) | Mark(a: nat)

  /** The step is the idempotency check of a job with this key. */
  predicate AtCheck(s: System, step: Step, key: string) {
    && step.Advance? && step.a in s.actors && s.actors[step.a].HasJob? && s.actors[step.a].task.Dequeued?
    && s.actors[step.a].job.uniqueKey == key
  }

  /** The check answers by the keys that are marked. */
  ghost predicate Answers(l: Ledger, step: Step) {
    forall key :: AtCheck(l.s, step, key) ==> (step.choice <==> key != "" && key in l.completed)
  }

  /** The key of the job whose handler succeeds in this step, if it has one. */
  function SuccessOf(s: System, step: Step): Option<string> {
    if step.Advance? && step.choice && step.a in s.actors && s.actors[step.a].HasJob?
       && s.actors[step.a].task.Handling? && s.actors[step.a].job.uniqueKey != ""
    then Some(s.actors[step.a].job.uniqueKey) else None
  }

  /** A worker marks its success before it begins anything else. */
  ghost predicate CanTake(l: Ledger, turn: Turn) {
    match turn
    case Do(step) => Enabled(l.s, step) && Answers(l, step) &&
      (step.BeginEnqueue? || step.BeginDequeue? ==> step.a !in l.finishing)
    case Mark(a) => a in l.finishing && a !in l.s.actors
  }

  function Taken(l: Ledger, turn: Turn): Ledger {
    match turn
    case Do(step) =>
      var t := l.(s := After(l.s, step));
      (match SuccessOf(l.s, step)
       case None => t
       case Some(key) => t.(finishing := l.finishing[step.a := key], successes := l.successes + [key]))
    case Mark(a) =>
      if a in l.finishing then l.(finishing := l.finishing - {a}, completed := l.completed + {l.finishing[a]}) else l
  }

  function RunAll(turns: seq<Turn>): Ledger {
    if turns == [] then Ledger(Initial(), map[], {}, []) else Taken(RunAll(turns[..|turns| - 1]), turns[|turns| - 1])
  }

  ghost predicate ValidAll(turns: seq<Turn>) {
    forall i :: 0 <= i < |turns| ==> CanTake(RunAll(turns[..i]), turns[i])
  }

  /** The workers' steps alone. */
  function Steps(turns: seq<Turn>): seq<Step> {
    if turns == [] then []
    else Steps(turns[..|turns| - 1]) + if turns[|turns| - 1].Do? then [turns[|turns| - 1].step] else []
  }

  lemma {:induction false} LastTurn(turns: seq<Turn>, before: seq<Turn>, n: nat)
    requires ValidAll(turns) && n == |turns| - 1 && before == turns[..n]
    ensures ValidAll(before) && CanTake(RunAll(before), turns[n]) && RunAll(turns) == Taken(RunAll(before), turns[n])
  {
    assert forall i :: 0 <= i <= n ==> before[..i] == turns[..i];
  }

  lemma TakenStep(l: Ledger, turn: Turn)
    ensures Taken(l, turn).s == if turn.Do? then After(l.s, turn.step) else l.s
  {
  }

  lemma {:induction false} StepsSnoc(turns: seq<Turn>, before: seq<Turn>)
    requires turns != [] && before == turns[..|turns| - 1]
    ensures Steps(turns) == Steps(before) + if turns[|turns| - 1].Do? then [turns[|turns| - 1].step] else []
  {
  }

  /** The steps are a run to `s`; looked into where it is asked. */
  ghost predicate Reaches(steps: seq<Step>, s: System) {
    forall k :: Asked(k) ==> Valid(steps) && Run(steps) == s
  }

  lemma {:induction false} StepsGoOn(steps: seq<Step>, step: Step, s: System)
    requires Reaches(steps, s) && Enabled(s, step)
    ensures Reaches(steps + [step], After(s, step))
  {
    assert Asked(0);
    Snoc(steps, step);
  }

  lemma {:induction false} StepsReach(turns: seq<Turn>)
    requires ValidAll(turns)
    ensures Reaches(Steps(turns), RunAll(turns).s)
  {
    if turns != [] {
      var n := |turns| - 1;
      var before := turns[..n];
      LastTurn(turns, before, n);
      StepsReach(before);
      StepsSnoc(turns, before);
      TakenStep(RunAll(before), turns[n]);
      if turns[n].Do? {
        StepsGoOn(Steps(before), turns[n].step, RunAll(before).s);
      } else {
        assert Steps(turns) == Steps(before);
      }
    }
  }

  /** Without the ledger it is a run of the job system. */
  lemma {:induction false} StepsAreRun(turns: seq<Turn>)
    requires ValidAll(turns)
    ensures Valid(Steps(turns)) && Run(Steps(turns)) == RunAll(turns).s
  {
    StepsReach(turns);
    assert Asked(0);
  }

  // ---------- The invariant, for one key ----------

  /** The actor has passed the idempotency check with this key, and its handler has not finished. */
  predicate Cleared(actors: map<nat, Pc>, a: nat, key: string) {
    && a in actors && actors[a].HasJob? && actors[a].job.uniqueKey == key
    && (actors[a].task.Locking? || actors[a].task.Locked? || actors[a].task.Handling?)
  }

  /** The actor is on its way through Complete. */
  predicate Completing(pc: Pc) {
    match pc
    case Free(next) => next.CompleteStored?
    case HasId(_, _, fetch) => fetch.ToComplete?
    case HasJob(_, _, task) => task.CompleteFetched?
  }

  ghost predicate Recorded(l: Ledger, key: string) {
    && multiset(l.successes)[key] <= 1
    && (key in l.successes ==> key in l.completed || key in l.finishing.Values)
    && (forall a :: Cleared(l.s.actors, a, key) ==> key !in l.completed && key !in l.finishing.Values)
    && (forall a :: a in l.finishing && a in l.s.actors ==> Completing(l.s.actors[a]))
  }

  /** The check of a job with the key is passed. */
  predicate Passes(l: Ledger, turn: Turn, key: string) {
    turn.Do? && AtCheck(l.s, turn.step, key) && !turn.step.choice
  }

  /** No check of the key is passed between another success with it and its mark. */
  ghost predicate Orderly(l: Ledger, turn: Turn, key: string) {
    Passes(l, turn, key) ==> key !in l.finishing.Values
  }

  // ---------- Steps ----------

  lemma JobStepClears(s: System, a: nat, job: Job, task: JobTask, choice: bool, read: int, delay: int, key: string)
    requires Cleared(AfterJob(s, a, job, task, choice, read, delay).actors, a, key)
    ensures job.uniqueKey == key && (task.Locking? || task.Locked? || (task.Dequeued? && !choice))
  {
  }

  /** Everybody but `a` is where they were. */
  ghost predicate OnlyMoves(s: System, t: System, a: nat) {
    forall b :: b != a ==> (b in t.actors <==> b in s.actors) && (b in s.actors ==> t.actors[b] == s.actors[b])
  }

  lemma JobMovesOne(s: System, a: nat, job: Job, task: JobTask, choice: bool, read: int, delay: int)
    ensures OnlyMoves(s, AfterJob(s, a, job, task, choice, read, delay), a)
  {
  }

  lemma FreeMovesOne(s: System, a: nat, next: FreeTask)
    ensures OnlyMoves(s, AfterFree(s, a, next), a)
  {
  }

  lemma OthersStay(s: System, a: nat, choice: bool, read: int, b: nat)
    requires a in s.actors && a != b
    ensures var t := AfterAdvance(s, a, choice, read);
      (b in t.actors <==> b in s.actors) && (b in s.actors ==> t.actors[b] == s.actors[b])
  {
    match s.actors[a]
    case Free(next) => FreeMovesOne(s, a, next);
    case HasId(_, _, _) =>
    case HasJob(job, _, task) => JobMovesOne(s, a, job, task, choice, read, CalculateDelay(job.policy, job.attempts));
  }

  lemma FreeStepClears(s: System, a: nat, next: FreeTask, key: string)
    requires a in s.actors && s.actors[a] == Free(next) && !next.EnqueueChecked?
    ensures !Cleared(AfterFree(s, a, next).actors, a, key)
  {
  }

  lemma AdvanceClears(s: System, a: nat, choice: bool, read: int, key: string, b: nat)
    requires a in s.actors && !AwaitsJob(s.actors[a]) && Cleared(AfterAdvance(s, a, choice, read).actors, b, key)
    ensures Cleared(s.actors, b, key) ||
      (a == b && s.actors[a].HasJob? && s.actors[a].task.Dequeued? && s.actors[a].job.uniqueKey == key && !choice)
  {
    if a != b {
      OthersStay(s, a, choice, read, b);
    } else {
      match s.actors[a]
      case Free(next) => FreeStepClears(s, a, next, key);
      case HasId(_, _, _) =>
      case HasJob(job, _, task) =>
        JobStepClears(s, a, job, task, choice, read, CalculateDelay(job.policy, job.attempts), key);
    }
  }

  /** An actor is cleared with the key after a step only if it was before, or has just passed the check. */
  lemma StepClears(s: System, step: Step, key: string, b: nat)
    requires Enabled(s, step) && Cleared(After(s, step).actors, b, key)
    ensures Cleared(s.actors, b, key) || (step.Advance? && step.a == b && AtCheck(s, step, key) && !step.choice)
  {
    if step.Advance? {
      AdvanceClears(s.(clock := step.now), step.a, step.choice, step.read, key, b);
    } else if step.AdvanceMove? {
      MoveKeepsActors(s.(clock := step.now));
    }
  }

  lemma MoveKeepsActors(s: System)
    ensures AfterMove(s).actors == s.actors
  {
  }

  lemma AdvanceCompletes(s: System, a: nat, choice: bool, read: int)
    requires a in s.actors && Completing(s.actors[a])
    ensures a in AfterAdvance(s, a, choice, read).actors ==> Completing(AfterAdvance(s, a, choice, read).actors[a])
  {
  }

  /** An actor that is completing goes on completing until it is done. */
  lemma StepCompletes(s: System, step: Step, b: nat)
    requires Enabled(s, step) && (b in s.actors ==> Completing(s.actors[b]))
    requires step.BeginEnqueue? || step.BeginDequeue? ==> step.a != b
    ensures b in After(s, step).actors ==> Completing(After(s, step).actors[b])
  {
    var t := s.(clock := step.now);
    if step.Advance? {
      if step.a == b {
        AdvanceCompletes(t, b, step.choice, step.read);
      } else {
        OthersStay(t, step.a, step.choice, step.read, b);
      }
    } else if step.AdvanceMove? {
      MoveKeepsActors(t);
    }
  }

  /** With one live job of the key, no two actors are cleared with it. */
  lemma ClearedAlone(p: Placed, key: string, a: nat, b: nat)
    requires Guarded(p.s, key) && Cleared(p.s.actors, a, key) && Cleared(p.s.actors, b, key)
    ensures a == b
  {
    var x, y := p.s.actors[a].job.id, p.s.actors[b].job.id;
    HeldIsLive(p, a, x);
    HeldIsLive(p, b, y);
    assert LiveWith(p.s.store, x, key) && LiveWith(p.s.store, y, key);
    HeldByGrip(p, a, x);
    HeldByGrip(p, b, y);
  }

  /** A step without a success. */
  lemma QuietTurn(l: Ledger, step: Step, key: string)
    requires Recorded(l, key) && CanTake(l, Do(step)) && Orderly(l, Do(step), key) && SuccessOf(l.s, step).None? &&
      key != ""
    ensures Recorded(Taken(l, Do(step)), key)
  {
    var t := Taken(l, Do(step));
    forall b | Cleared(t.s.actors, b, key) ensures key !in l.completed && key !in l.finishing.Values {
      StepClears(l.s, step, key, b);
    }
    forall b | b in l.finishing && b in t.s.actors ensures Completing(t.s.actors[b]) {
      StepCompletes(l.s, step, b);
    }
  }

  lemma CountOneMore(successes: seq<string>, k: string, key: string)
    ensures multiset(successes + [k])[key] == multiset(successes)[key] + if k == key then 1 else 0
    ensures multiset(successes)[key] > 0 <==> key in successes
  {
  }

  lemma ValuesAdded(m: map<nat, string>, a: nat, k: string, key: string)
    requires a !in m
    ensures key in m[a := k].Values <==> key in m.Values || key == k
  {
    if key in m.Values {
      var x :| x in m && m[x] == key;
      assert m[a := k][x] == key;
    }
    if key == k {
      assert m[a := k][a] == key;
    }
  }

  lemma ValuesRemoved(m: map<nat, string>, a: nat, key: string)
    requires a in m
    ensures key in m.Values <==> key in (m - {a}).Values || key == m[a]
  {
    if key in m.Values {
      var x :| x in m && m[x] == key;
      assert x != a ==> (m - {a})[x] == key;
    }
  }

  lemma SuccessEffect(s: System, step: Step)
    requires Enabled(s, step) && SuccessOf(s, step).Some?
    ensures var t := After(s, step); step.a in t.actors && Completing(t.actors[step.a])
    ensures Cleared(s.actors, step.a, SuccessOf(s, step).value) && !Completing(s.actors[step.a])
  {
  }

  /** A success: nobody else is cleared with the key, and it is not on record yet. */
  lemma SuccessTurn(p: Placed, l: Ledger, step: Step, key: string)
    requires p.s == l.s && Guarded(l.s, key) && Recorded(l, key) && CanTake(l, Do(step)) && key != ""
    requires SuccessOf(l.s, step).Some?
    ensures Recorded(Taken(l, Do(step)), key)
  {
    var t, k, a := Taken(l, Do(step)), SuccessOf(l.s, step).value, step.a;
    SuccessEffect(l.s, step);
    ValuesAdded(l.finishing, a, k, key);
    CountOneMore(l.successes, k, key);
    forall b | Cleared(t.s.actors, b, key) ensures key !in t.completed && key !in t.finishing.Values {
      StepClears(l.s, step, key, b);
      if k == key {
        ClearedAlone(p, key, a, b);
      }
    }
    forall b | b in t.finishing && b in t.s.actors ensures Completing(t.s.actors[b]) {
      if b != a {
        StepCompletes(l.s, step, b);
      }
    }
  }

  lemma MarkTurn(l: Ledger, a: nat, key: string)
    requires Recorded(l, key) && CanTake(l, Mark(a))
    ensures Recorded(Taken(l, Mark(a)), key)
  {
    ValuesRemoved(l.finishing, a, key);
  }

  lemma TurnRecords(p: Placed, l: Ledger, turn: Turn, key: string)
    requires p.s == l.s && Guarded(l.s, key) && Recorded(l, key) && CanTake(l, turn) && Orderly(l, turn, key) &&
      key != ""
    ensures Recorded(Taken(l, turn), key)
  {
    match turn
    case Do(step) =>
      if SuccessOf(l.s, step).None? {
        QuietTurn(l, step, key);
      } else {
        SuccessTurn(p, l, step, key);
      }
    case Mark(a) => MarkTurn(l, a, key);
  }

  // ---------- Runs ----------

  /** From the n-th turn on, no check of the key is passed while a success with it is not marked. */
  ghost predicate AllOrderly(turns: seq<Turn>, n: nat, key: string) {
    forall k :: n <= k < |turns| ==> Orderly(RunAll(turns[..k]), turns[k], key)
  }

  lemma {:induction false} StepsPrefix(turns: seq<Turn>, before: seq<Turn>, key: string)
    requires turns != [] && before == turns[..|turns| - 1] && KeptApart(Steps(turns), 0, key)
    ensures KeptApart(Steps(before), 0, key)
  {
    StepsSnoc(turns, before);
    KeptApartPrefix(Steps(turns), 0, |Steps(before)|, key);
    assert Steps(turns)[..|Steps(before)|] == Steps(before);
  }

  lemma {:induction false} LedgerGuarded(turns: seq<Turn>, key: string) returns (p: Placed)
    requires ValidAll(turns) && KeptApart(Steps(turns), 0, key) && key != ""
    ensures p.s == RunAll(turns).s && Guarded(p.s, key)
  {
    StepsAreRun(turns);
    RunGuarded(Steps(turns), key);
    p := RunKeeps(Steps(turns));
  }

  lemma {:induction false} RunRecorded(turns: seq<Turn>, key: string)
    requires ValidAll(turns) && KeptApart(Steps(turns), 0, key) && AllOrderly(turns, 0, key) && key != ""
    ensures Recorded(RunAll(turns), key)
  {
    if turns != [] {
      var n := |turns| - 1;
      var before := turns[..n];
      LastTurn(turns, before, n);
      StepsPrefix(turns, before, key);
      assert forall k :: 0 <= k < n ==> before[..k] == turns[..k];
      RunRecorded(before, key);
      var p := LedgerGuarded(before, key);
      TurnRecords(p, RunAll(before), turns[n], key);
    }
  }

  /**
    Command by command: if the duplicate check lets producers of the key past only when it is quiet, and no
    idempotency check of the key is passed between a success and its mark, then in every interleaving the
    key has at most one successful handler run over the whole history.
   */
  lemma {:induction false} AtMostOneSuccess(turns: seq<Turn>, key: string)
    requires ValidAll(turns) && KeptApart(Steps(turns), 0, key) && AllOrderly(turns, 0, key) && key != ""
    ensures multiset(RunAll(turns).successes)[key] <= 1
  {
    RunRecorded(turns, key);
  }

  // ---------- Exactly when a check may be passed ----------

  /** The run goes on from `turns`, kept apart and orderly. */
  ghost predicate Goes(all: seq<Turn>, turns: seq<Turn>, key: string) {
    && |turns| <= |all| && all[..|turns|] == turns && ValidAll(all)
    && KeptApart(Steps(all), 0, key) && AllOrderly(all, |turns|, key)
  }

  /** However the run goes on, the key has at most one success. */
  ghost predicate SafeAfter(turns: seq<Turn>, key: string) {
    forall all :: Goes(all, turns, key) ==> multiset(RunAll(all).successes)[key] <= 1
  }

  lemma {:induction false} KeptApartSnoc(steps: seq<Step>, step: Step, key: string)
    requires KeptApart(steps, 0, key) && !step.BeginEnqueue?
    ensures KeptApart(steps + [step], 0, key)
  {
    var all := steps + [step];
    forall k | 0 <= k < |all| && Admits(Run(all[..k]), all[k], key) ensures Quiet(Run(all[..k]), key) {
      assert all[..k] == steps[..k];
    }
  }

  lemma {:induction false} SnocTurn(turns: seq<Turn>, turn: Turn, all: seq<Turn>)
    requires ValidAll(turns) && CanTake(RunAll(turns), turn) && all == turns + [turn]
    ensures ValidAll(all) && RunAll(all) == Taken(RunAll(turns), turn)
  {
    assert all[..|turns|] == turns;
    assert forall i :: 0 <= i < |turns| ==> all[..i] == turns[..i];
  }

  /** A run and its last state; looked into with OpenReached. */
  datatype Stage = Stage(all: seq<Turn>, l: Ledger)

  ghost predicate IsReached(o: Stage, turns: seq<Turn>, key: string) {
    forall k :: Asked(k) ==> Goes(o.all, turns, key) && RunAll(o.all) == o.l
  }

  lemma OpenReached(o: Stage, turns: seq<Turn>, key: string)
    requires IsReached(o, turns, key)
    ensures Goes(o.all, turns, key) && RunAll(o.all) == o.l
  {
    assert Asked(0);
  }

  lemma {:induction false} Reach(o: Stage, turns: seq<Turn>, key: string, step: Step) returns (n: Stage)
    requires IsReached(o, turns, key) && CanTake(o.l, Do(step)) && step.Advance? && !AtCheck(o.l.s, step, key)
    ensures IsReached(n, turns, key) && n.l == Taken(o.l, Do(step))
  {
    OpenReached(o, turns, key);
    var all := o.all + [Do(step)];
    SnocTurn(o.all, Do(step), all);
    assert all[..|all| - 1] == o.all;
    StepsSnoc(all, o.all);
    KeptApartSnoc(Steps(o.all), step, key);
    forall k | |turns| <= k < |all| ensures Orderly(RunAll(all[..k]), all[k], key) {
      assert all[..k] == o.all[..k];
      assert k == |o.all| ==> o.all[..k] == o.all;
    }
    assert all[..|turns|] == o.all[..|turns|];
    n := Stage(all, Taken(o.l, Do(step)));
  }

  /** The next step of a cleared actor whose lock is free and whose handler succeeds. */
  lemma ClearedStep(l: Ledger, a: nat, job: Job, phase: Phase, task: JobTask, step: Step)
    requires a in l.s.actors && l.s.actors[a] == HasJob(job, phase, task) &&
      (task.Locking? || task.Locked? || task.Handling?)
    requires step == Advance(a, true, l.s.clock, l.s.clock) && job.uniqueKey != ""
    ensures CanTake(l, Do(step)) && !AtCheck(l.s, step, job.uniqueKey)
    ensures var t := Taken(l, Do(step));
      if task.Handling? then t.successes == l.successes + [job.uniqueKey]
      else
        && t.successes == l.successes && a in t.s.actors && t.s.clock == l.s.clock
        && t.s.actors[a] == (if task.Locking? then HasJob(job, Counted, Locked) else HasJob(job, Handed, Handling))
  {
  }

  /** A cleared actor can go on to a success. */
  lemma {:induction false} ClearedSucceeds(o: Stage, turns: seq<Turn>, key: string, a: nat, job: Job) returns (n: Stage)
    requires IsReached(o, turns, key) && key != "" && job.uniqueKey == key
    requires a in o.l.s.actors && o.l.s.actors[a] == HasJob(job, Counted, Locking)
    ensures IsReached(n, turns, key) && n.l.successes == o.l.successes + [key]
  {
    var step := Advance(a, true, o.l.s.clock, o.l.s.clock);
    ClearedStep(o.l, a, job, Counted, Locking, step);
    n := Reach(o, turns, key, step);
    ClearedStep(n.l, a, job, Counted, Locked, step);
    n := Reach(n, turns, key, step);
    ClearedStep(n.l, a, job, Handed, Handling, step);
    n := Reach(n, turns, key, step);
  }

  /** A pending mark is the mark of a success. */
  lemma {:induction false} PendingIsSuccess(turns: seq<Turn>, key: string)
    requires ValidAll(turns) && key in RunAll(turns).finishing.Values
    ensures key in RunAll(turns).successes
  {
    if turns != [] {
      var n := |turns| - 1;
      LastTurn(turns, turns[..n], n);
      if key in RunAll(turns[..n]).finishing.Values {
        PendingIsSuccess(turns[..n], key);
      }
      SuccessesGrow(RunAll(turns[..n]), turns[n], key);
    }
  }

  lemma SuccessesGrow(l: Ledger, turn: Turn, key: string)
    ensures key in Taken(l, turn).finishing.Values ==> key in l.finishing.Values || key in Taken(l, turn).successes
    ensures key in l.successes ==> key in Taken(l, turn).successes
  {
    var t := Taken(l, turn);
    if key in t.finishing.Values {
      var a :| a in t.finishing && t.finishing[a] == key;
      assert a in l.finishing && l.finishing[a] == key ==> key in l.finishing.Values;
    }
  }

  lemma PassEffect(l: Ledger, step: Step, key: string)
    requires CanTake(l, Do(step)) && Passes(l, Do(step), key)
    ensures var t := Taken(l, Do(step));
      && t.successes == l.successes && step.a in t.s.actors
      && t.s.actors[step.a] == HasJob(l.s.actors[step.a].job, Counted, Locking)
  {
  }

  lemma {:induction false} EarlyCheckBreaks(turns: seq<Turn>, step: Step, key: string, passed: seq<Turn>)
      returns (all: seq<Turn>)
    requires ValidAll(turns) && CanTake(RunAll(turns), Do(step)) && Passes(RunAll(turns), Do(step), key) && key != ""
    requires KeptApart(Steps(turns), 0, key) && passed == turns + [Do(step)] && key in RunAll(turns).finishing.Values
    ensures Goes(all, passed, key) && multiset(RunAll(all).successes)[key] > 1
  {
    var l := RunAll(turns);
    SnocTurn(turns, Do(step), passed);
    PassEffect(l, step, key);
    PendingIsSuccess(turns, key);
    assert passed[..|passed| - 1] == turns && passed[..|passed|] == passed;
    StepsSnoc(passed, turns);
    KeptApartSnoc(Steps(turns), step, key);
    var t := RunAll(passed);
    var o := ClearedSucceeds(Stage(passed, t), passed, key, step.a, l.s.actors[step.a].job);
    OpenReached(o, passed, key);
    CountOneMore(t.successes, key, key);
    all := o.all;
  }

  lemma {:induction false} OrderlyThroughout(turns: seq<Turn>, turn: Turn, passed: seq<Turn>, all: seq<Turn>,
      key: string)
    requires AllOrderly(turns, 0, key) && Orderly(RunAll(turns), turn, key) && passed == turns + [turn] &&
      Goes(all, passed, key)
    ensures AllOrderly(all, 0, key)
  {
    var n := |turns|;
    assert all[..n] == passed[..n] == turns;
    forall k | 0 <= k < |all| ensures Orderly(RunAll(all[..k]), all[k], key) {
      if k < n {
        assert all[..k] == turns[..k] && all[k] == turns[k];
      } else if k == n {
        assert all[k] == passed[n];
      }
    }
  }

  /**
    The exact condition, command by command: passing the idempotency check with a key is safe for every
    continuation if and only if no success with that key is waiting for its mark.
   */
  lemma {:induction false} CheckSafeIff(turns: seq<Turn>, step: Step, key: string, passed: seq<Turn>)
    requires ValidAll(turns) && KeptApart(Steps(turns), 0, key) && AllOrderly(turns, 0, key) && key != ""
    requires CanTake(RunAll(turns), Do(step)) && Passes(RunAll(turns), Do(step), key) && passed == turns + [Do(step)]
    ensures SafeAfter(passed, key) <==> key !in RunAll(turns).finishing.Values
  {
    if key in RunAll(turns).finishing.Values {
      var all := EarlyCheckBreaks(turns, step, key, passed);
    } else {
      forall all | Goes(all, passed, key) ensures multiset(RunAll(all).successes)[key] <= 1 {
        OrderlyThroughout(turns, Do(step), passed, all, key);
        AtMostOneSuccess(all, key);
      }
    }
  }
}
