/**
  Retry timing over whole runs: a failed or delayed job is in no queue before its
  time has come, up to one second, whoever else is doing what
  (internal/jobs/queue/redis_queue.go).
 */
module RetryRelease {
  import opened Prelude
  import opened RetryTiming
  import opened JobStore
  import opened JobWorkers
  import opened JobOwnership

  /** The actor is about to put the job in the scheduled set. */
  ghost predicate Reschedules(pc: Pc, id: Id) {
    IsRetry(pc) && pc.job.id == id
  }

  /** The job is promised for `due` and on its way through the scheduled set. */
  ghost predicate Pending(s: System, id: Id, due: int) {
    && id in s.due && s.due[id] == due
    && (id in s.store.scheduled || Moves(s.mover, id) || exists a :: a in s.actors && Reschedules(s.actors[a], id))
  }

  ghost predicate IsQueued(s: System, id: Id) {
    QueueEntries(s.store.queues, id) > 0
  }

  lemma PendingNotQueued(p: Placed, id: Id, due: int)
    requires Pending(p.s, id, due)
    ensures !IsQueued(p.s, id)
  {
    PendingPlace(p, id, due);
    QueuesCount(p, id);
  }

  lemma WaitingOrMoving(p: JobsPlaced, id: Id)
    requires id in p.s.store.scheduled || Moves(p.s.mover, id)
    ensures id in p.loc && (p.loc[id].Waiting? || p.loc[id].Moving?)
  {
    OpenJobs(p);
  }

  /** The three ways of being pending, as places. */
  lemma PendingPlace(p: Placed, id: Id, due: int)
    requires Pending(p.s, id, due)
    ensures id in p.loc && !p.loc[id].Queued? && (p.loc[id].Held? ==> p.loc[id].phase == Rescheduling)
  {
    if id in p.s.store.scheduled || Moves(p.s.mover, id) {
      WaitingOrMoving(p, id);
    } else {
      var a :| a in p.s.actors && Reschedules(p.s.actors[a], id);
      HeldByGrip(p, a, id);
    }
  }

  // ---------- Steps ----------

  /** Between the states actor `a` has moved; the job's promise, its schedule and everybody else are as before. */
  ghost predicate Leaves(s: System, t: System, a: nat, id: Id) {
    && t.mover == s.mover
    && (id in s.due ==> id in t.due && t.due[id] == s.due[id])
    && (id in s.store.scheduled ==> id in t.store.scheduled)
    && forall x :: x in s.actors && x != a ==> x in t.actors && t.actors[x] == s.actors[x]
  }

  lemma JobStepLeaves(s: System, a: nat, job: Job, task: JobTask, choice: bool, read: int, delay: int, id: Id)
    requires job.id != id
    ensures Leaves(s, AfterJob(s, a, job, task, choice, read, delay), a, id)
  {
  }

  lemma FreeStepLeaves(s: System, a: nat, next: FreeTask, id: Id)
    ensures Leaves(s, AfterFree(s, a, next), a, id)
  {
  }

  /** An actor that does not hold the job leaves it alone. */
  lemma OthersUntouched(s: System, a: nat, choice: bool, read: int, id: Id)
    requires a in s.actors && !Holds(s.actors[a], id)
    ensures Leaves(s, AfterAdvance(s, a, choice, read), a, id)
  {
    match s.actors[a]
    case Free(next) => FreeStepLeaves(s, a, next, id);
    case HasId(_, _, _) =>
    case HasJob(job, _, task) =>
      JobStepLeaves(s, a, job, task, choice, read, CalculateDelay(job.policy, job.attempts), id);
  }

  lemma PendingAdvances(p: Placed, a: nat, choice: bool, read: int, id: Id, due: int)
    requires a in p.s.actors && Pending(p.s, id, due)
    ensures Pending(AfterAdvance(p.s, a, choice, read), id, due)
  {
    PendingPlace(p, id, due);
    if Holds(p.s.actors[a], id) {
      HeldByGrip(p, a, id);
    } else {
      OthersUntouched(p.s, a, choice, read, id);
    }
  }

  lemma PendingMoves(s: System, id: Id, due: int)
    requires Pending(s, id, due)
    ensures Pending(AfterMove(s), id, due) || (s.mover.MoveStored? && s.mover.job.id == id)
  {
  }

  /** The processor lets go of the job only when it is due, up to one second. */
  lemma ReleasedWhenDue(p: Placed, id: Id, due: int)
    requires Pending(p.s, id, due) && p.s.mover.MoveStored? && p.s.mover.job.id == id
    ensures p.s.clock > due - SECOND
  {
    OpenJobs(p);
    DueWithinSecond(due, p.s.clock);
  }

  /** Beginnings of operations, by actors that hold nothing and by the processor. */
  lemma PendingBegins(s: System, step: Step, id: Id, due: int)
    requires Enabled(s, step) && !step.Advance? && !step.AdvanceMove? && Pending(s, id, due)
    ensures Pending(After(s, step), id, due)
  {
    var t := After(s, step);
    if a :| a in s.actors && Reschedules(s.actors[a], id) {
      assert a in t.actors && Reschedules(t.actors[a], id);
    }
  }

  /** Still pending, or due up to one second. */
  ghost predicate PendingOrDue(s: System, id: Id, due: int) {
    Pending(s, id, due) || s.clock > due - SECOND
  }

  lemma MoveKeepsPromise(p: Placed, id: Id, due: int)
    requires Pending(p.s, id, due)
    ensures PendingOrDue(AfterMove(p.s), id, due)
  {
    PendingMoves(p.s, id, due);
    if p.s.mover.MoveStored? && p.s.mover.job.id == id {
      ReleasedWhenDue(p, id, due);
    }
  }

  lemma StepKeepsPromise(p0: Placed, step: Step, id: Id, due: int)
    requires Enabled(p0.s, step) && PendingOrDue(p0.s, id, due)
    ensures PendingOrDue(After(p0.s, step), id, due)
  {
    ClockIsNow(p0.s, step);
    if Pending(p0.s, id, due) {
      var p := ClockAdvances(p0, step.now);
      match step
      case Advance(a, choice, read, _) => PendingAdvances(p, a, choice, read, id, due);
      case AdvanceMove(_) => MoveKeepsPromise(p, id, due);
      case _ => PendingBegins(p0.s, step, id, due);
    }
  }

  lemma AdvanceKeepsClock(s: System, a: nat, choice: bool, read: int)
    requires a in s.actors
    ensures AfterAdvance(s, a, choice, read).clock == s.clock
  {
  }

  lemma ClockIsNow(s: System, step: Step)
    ensures After(s, step).clock == step.now
  {
    if step.Advance? && step.a in s.actors {
      AdvanceKeepsClock(s.(clock := step.now), step.a, step.choice, step.read);
    }
  }

  // ---------- Runs ----------

  /** The step is a failure of the job that leaves it another attempt, after `delay`. */
  ghost predicate FailsFor(s: System, step: Step, id: Id, delay: int) {
    && step.Advance? && step.a in s.actors
    && var pc := s.actors[step.a];
       && pc.HasJob? && pc.task.FailFetched? && pc.job.id == id && pc.job.attempts < pc.job.maxRetries
       && delay == CalculateDelay(pc.job.policy, pc.job.attempts)
  }

  lemma FailureStarts(s: System, step: Step, id: Id, delay: int)
    requires FailsFor(s, step, id, delay)
    ensures Pending(After(s, step), id, step.read + delay)
  {
    var t := After(s, step);
    assert Reschedules(t.actors[step.a], id);
  }

  datatype Promise = Promise(s: System, id: Id, due: int)

  type Kept = r: Promise | PendingOrDue(r.s, r.id, r.due) ghost witness Promise(Initial(), 0, 0)

  lemma {:induction false} NextKeepsPromise(steps: seq<Step>, step: Step, r: Kept) returns (t: Kept)
    requires Valid(steps) && r.s == Run(steps) && Enabled(r.s, step)
    ensures t == r.(s := After(r.s, step))
  {
    var p := RunKeeps(steps);
    StepKeepsPromise(p, step, r.id, r.due);
    t := r.(s := After(r.s, step));
  }

  /** A promise of the m-th state is kept ever after. */
  lemma {:induction false} PromiseKept(steps: seq<Step>, m: nat, r: Kept) returns (t: Kept)
    requires Valid(steps) && m <= |steps| && r.s == Run(steps[..m])
    ensures t == r.(s := Run(steps))
    decreases |steps|
  {
    if m == |steps| {
      assert steps[..m] == steps;
      t := r;
    } else {
      var n := |steps| - 1;
      var before := steps[..n];
      LastStep(steps, before, n);
      assert before[..m] == steps[..m];
      t := PromiseKept(before, m, r);
      t := NextKeepsPromise(before, steps[n], t);
    }
  }

  lemma {:induction false} PromiseMade(steps: seq<Step>, k: nat, id: Id, delay: int, due: int)
    requires k < |steps| && FailsFor(Run(steps[..k]), steps[k], id, delay) && due == steps[k].read + delay
    ensures Pending(Run(steps[..k + 1]), id, due)
  {
    assert steps[..k + 1][..k] == steps[..k];
    FailureStarts(Run(steps[..k]), steps[k], id, delay);
  }

  lemma {:induction false} NotQueuedEarly(steps: seq<Step>, m: nat, id: Id, due: int)
    requires Valid(steps) && m <= |steps| && Pending(Run(steps[..m]), id, due)
    ensures IsQueued(Run(steps), id) ==> Run(steps).clock > due - SECOND
  {
    var kept := PromiseKept(steps, m, Promise(Run(steps[..m]), id, due));
    var p := RunKeeps(steps);
    if Pending(p.s, id, due) {
      PendingNotQueued(p, id, due);
    }
  }

  /**
    From a failure on, whatever interleaving follows, the job is in no queue at any moment up to one
    second before the clock reading of the failure plus the policy's delay.
   */
  lemma {:induction false} FailedJobNotEarly(steps: seq<Step>, k: nat, id: Id, delay: int)
    requires Valid(steps) && k < |steps| && FailsFor(Run(steps[..k]), steps[k], id, delay)
    ensures IsQueued(Run(steps), id) ==> Run(steps).clock > steps[k].read + delay - SECOND
  {
    var due := steps[k].read + delay;
    PromiseMade(steps, k, id, delay, due);
    NotQueuedEarly(steps, k + 1, id, due);
  }

  /** The step places a newly enqueued job that is scheduled for `due`, later than the clock reading. */
  ghost predicate Delays(s: System, step: Step, id: Id, due: int) {
    && step.Advance? && step.a in s.actors
    && var pc := s.actors[step.a];
       pc.HasJob? && pc.task.EnqueueStored? && pc.job.id == id && pc.job.scheduledAt == Some(due) && due > step.read
  }

  lemma {:induction false} DelayPromised(steps: seq<Step>, k: nat, id: Id, due: int)
    requires k < |steps| && Delays(Run(steps[..k]), steps[k], id, due)
    ensures Pending(Run(steps[..k + 1]), id, due)
  {
    assert steps[..k + 1][..k] == steps[..k];
  }

  /** The same for a job that was enqueued with a time to wait for. */
  lemma {:induction false} DelayedJobNotEarly(steps: seq<Step>, k: nat, id: Id, due: int)
    requires Valid(steps) && k < |steps| && Delays(Run(steps[..k]), steps[k], id, due)
    ensures IsQueued(Run(steps), id) ==> Run(steps).clock > due - SECOND
  {
    DelayPromised(steps, k, id, due);
    NotQueuedEarly(steps, k + 1, id, due);
  }

  // ---------- Not late either ----------

  lemma ListedIsQueued(s: System, q: QueueName, id: Id)
    requires id in List(s.store.queues, q)
    ensures IsQueued(s, id)
  {
    assert multiset(List(s.store.queues, q))[id] > 0;
  }

  /** The processor's last command for a job queues it. */
  lemma ReleaseQueues(s: System)
    requires s.mover.MoveStored?
    ensures IsQueued(AfterMove(s), s.mover.job.id)
  {
    var job, t := s.mover.job, AfterMove(s);
    var q := QueueOf(job.priority);
    assert List(t.store.queues, q) == [job.id] + List(s.store.queues, q);
    ListedIsQueued(t, q, job.id);
  }

  /** A promised job stays promised until it is queued. */
  lemma PendingUntilQueued(p0: Placed, step: Step, id: Id, due: int)
    requires Enabled(p0.s, step) && Pending(p0.s, id, due) && !IsQueued(After(p0.s, step), id)
    ensures Pending(After(p0.s, step), id, due)
  {
    var p := ClockAdvances(p0, step.now);
    match step
    case Advance(a, choice, read, _) => PendingAdvances(p, a, choice, read, id, due);
    case AdvanceMove(_) =>
      PendingMoves(p.s, id, due);
      if p.s.mover.MoveStored? && p.s.mover.job.id == id {
        ReleaseQueues(p.s);
      }
    case _ => PendingBegins(p0.s, step, id, due);
  }

  /** From the m-th state on the job has been in no queue. */
  ghost predicate NotQueuedSince(steps: seq<Step>, m: nat, id: Id) {
    forall n :: m <= n <= |steps| ==> !IsQueued(Run(steps[..n]), id)
  }

  lemma {:induction false} NotQueuedBefore(steps: seq<Step>, before: seq<Step>, m: nat, id: Id)
    requires steps != [] && before == steps[..|steps| - 1] && m <= |before| && NotQueuedSince(steps, m, id)
    ensures NotQueuedSince(before, m, id) && !IsQueued(Run(steps), id)
  {
    assert steps[..|steps|] == steps;
    forall n | m <= n <= |before| ensures !IsQueued(Run(before[..n]), id) {
      assert before[..n] == steps[..n];
    }
  }

  lemma {:induction false} NextStillPending(steps: seq<Step>, step: Step, id: Id, due: int)
    requires Valid(steps) && Enabled(Run(steps), step) && Pending(Run(steps), id, due)
    requires !IsQueued(After(Run(steps), step), id)
    ensures Pending(After(Run(steps), step), id, due)
  {
    var p := RunKeeps(steps);
    PendingUntilQueued(p, step, id, due);
  }

  lemma {:induction false} StillPending(steps: seq<Step>, m: nat, id: Id, due: int)
    requires Valid(steps) && m <= |steps| && Pending(Run(steps[..m]), id, due) && NotQueuedSince(steps, m, id)
    ensures Pending(Run(steps), id, due)
    decreases |steps|
  {
    if m == |steps| {
      assert steps[..m] == steps;
    } else {
      var n := |steps| - 1;
      var before := steps[..n];
      LastStep(steps, before, n);
      NotQueuedBefore(steps, before, m, id);
      assert before[..m] == steps[..m];
      StillPending(before, m, id, due);
      NextStillPending(before, steps[n], id, due);
    }
  }

  lemma PendingScore(p: Placed, id: Id, due: int)
    requires Pending(p.s, id, due) && id in p.s.store.scheduled
    ensures p.s.store.scheduled[id] == due / SECOND
  {
    OpenJobs(p);
  }

  lemma {:induction false} AnsweredWhenDue(steps: seq<Step>, m: nat, id: Id, due: int, ask: Step)
    requires Valid(steps) && m <= |steps| && Pending(Run(steps[..m]), id, due) && NotQueuedSince(steps, m, id)
    requires ask.BeginMove? && Enabled(Run(steps), ask) && id in Run(steps).store.scheduled
    ensures id in ask.ids <==> due / SECOND <= ask.read / SECOND
  {
    StillPending(steps, m, id, due);
    var p := RunKeeps(steps);
    PendingScore(p, id, due);
  }

  /**
    Nor is the retry late: from a failure until the job is queued again, whatever interleaving, every
    question of the processor that finds it scheduled is answered with it if and only if the second read
    has reached the second of the failure's clock reading plus the policy's delay.
   */
  lemma {:induction false} FailedJobNotLate(steps: seq<Step>, k: nat, id: Id, delay: int, ask: Step)
    requires Valid(steps) && k < |steps| && FailsFor(Run(steps[..k]), steps[k], id, delay)
    requires NotQueuedSince(steps, k + 1, id)
    requires ask.BeginMove? && Enabled(Run(steps), ask) && id in Run(steps).store.scheduled
    ensures id in ask.ids <==> (steps[k].read + delay) / SECOND <= ask.read / SECOND
  {
    var due := steps[k].read + delay;
    PromiseMade(steps, k, id, delay, due);
    AnsweredWhenDue(steps, k + 1, id, due, ask);
  }

  /** The same for a job that was enqueued with a time to wait for. */
  lemma {:induction false} DelayedJobNotLate(steps: seq<Step>, k: nat, id: Id, due: int, ask: Step)
    requires Valid(steps) && k < |steps| && Delays(Run(steps[..k]), steps[k], id, due)
    requires NotQueuedSince(steps, k + 1, id)
    requires ask.BeginMove? && Enabled(Run(steps), ask) && id in Run(steps).store.scheduled
    ensures id in ask.ids <==> due / SECOND <= ask.read / SECOND
  {
    DelayPromised(steps, k, id, due);
    AnsweredWhenDue(steps, k + 1, id, due, ask);
  }
}
