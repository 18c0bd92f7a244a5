/** What single steps of the job system do to records and allowances, and what they do not prevent. */
module JobHistory {
  import opened Prelude
  import opened RetryTiming
  import opened JobStore
  import opened JobWorkers
  import opened JobOwnership

  /** The parts of a record that are fixed when the job is created. */
  ghost predicate SameJob(j: Job, k: Job) {
    j.id == k.id && j.priority == k.priority && j.maxRetries == k.maxRetries && j.policy == k.policy &&
    j.uniqueKey == k.uniqueKey
  }

  /** Failures a job can still record before it is buried. */
  ghost function Allowance(s: System, id: Id): int
    requires id in s.store.jobs
  {
    Cap(s.store.jobs[id]) - BookOf(s, id).fails
  }

  /** The step records a failure of `id`: a retry is scheduled or the job is buried. */
  ghost predicate RecordsFailure(s: System, step: Step, id: Id) {
    step.Advance? && step.a in s.actors && s.actors[step.a].HasJob? && s.actors[step.a].job.id == id &&
    (s.actors[step.a].task.FailRetry? || s.actors[step.a].task.FailDead?)
  }

  /** What a step of the actor that holds `job` does to records, as far as it matters here. */
  ghost predicate Rewrites(s: System, t: System, job: Job) {
    t.store.jobs == s.store.jobs || (exists j :: SameJob(job, j) && t.store.jobs == s.store.jobs[job.id := j])
  }

  lemma JobStepRewrites(s: System, a: nat, job: Job, task: JobTask, choice: bool, read: int, delay: int)
    ensures Rewrites(s, AfterJob(s, a, job, task, choice, read, delay), job)
  {
    var t := AfterJob(s, a, job, task, choice, read, delay);
    match task
    case Fetched => assert SameJob(job, Started(job));
    case Requeueing => assert SameJob(job, Unstarted(job));
    case CompleteFetched => assert SameJob(job, job.(status := Completed));
    case FailFetched => assert SameJob(job, t.actors[a].job) && t.store.jobs == s.store.jobs[job.id := t.actors[a].job];
    case _ =>
  }

  lemma JobStepBooks(s: System, a: nat, job: Job, task: JobTask, choice: bool, read: int, delay: int, id: Id)
    ensures BookOf(AfterJob(s, a, job, task, choice, read, delay), id).fails == BookOf(s, id).fails +
              if id == job.id && (task.FailRetry? || task.FailDead?) then 1 else 0
  {
  }

  lemma JobStepKeepsRecord(s: System, a: nat, job: Job, task: JobTask, choice: bool, read: int, delay: int, id: Id)
    requires job.id in s.store.jobs && s.store.jobs[job.id] == job && id in s.store.jobs
    ensures var t := AfterJob(s, a, job, task, choice, read, delay);
      && id in t.store.jobs && SameJob(s.store.jobs[id], t.store.jobs[id])
      && BookOf(t, id).fails == BookOf(s, id).fails +
           if id == job.id && (task.FailRetry? || task.FailDead?) then 1 else 0
  {
    JobStepRewrites(s, a, job, task, choice, read, delay);
    JobStepBooks(s, a, job, task, choice, read, delay, id);
  }

  /**
    No step loses a record or changes what a job is.  Each recorded failure uses up exactly one unit of
    the job's allowance, nothing else touches it, and it never runs below zero: so it is a termination
    measure for retries.
   */
  lemma {:induction false} AllowanceShrinks(steps: seq<Step>, step: Step, id: Id)
    requires Valid(steps) && Enabled(Run(steps), step) && id in Run(steps).store.jobs
    ensures var (s, t) := (Run(steps), After(Run(steps), step));
      && id in t.store.jobs && SameJob(s.store.jobs[id], t.store.jobs[id])
      && Allowance(t, id) == Allowance(s, id) - (if RecordsFailure(s, step, id) then 1 else 0)
      && 0 <= Allowance(t, id)
  {
    var p := RunKeeps(steps);
    PlacedAllowance(p, step, id);
    var q := StepKeeps(p, step);
    PlacedAttempts(q, id);
    NonNegative(q, id);
  }

  lemma NonNegative(p: Placed, id: Id)
    requires id in p.s.store.jobs
    ensures 0 <= Allowance(p.s, id)
  {
    BalancedRecord(p, id);
  }

  lemma PlacedAllowance(p: Placed, step: Step, id: Id)
    requires Enabled(p.s, step) && id in p.s.store.jobs
    ensures var (s, t) := (p.s, After(p.s, step));
      && id in t.store.jobs && SameJob(s.store.jobs[id], t.store.jobs[id])
      && BookOf(t, id).fails == BookOf(s, id).fails + if RecordsFailure(s, step, id) then 1 else 0
  {
    if step.Advance? && p.s.actors[step.a].HasJob? {
      HeldByGrip(p, step.a, p.s.actors[step.a].job.id);
    } else if step.AdvanceMove? && !p.s.mover.Batch? {
      CarriedPlace(p, p.s.mover.job.id);
    }
    StepKeepsRecord(p.s, step, id);
  }

  /** With current copies, steps write back what they read up to status, attempts and schedule. */
  lemma StepKeepsRecord(s: System, step: Step, id: Id)
    requires Enabled(s, step) && id in s.store.jobs
    requires step.Advance? && s.actors[step.a].HasJob? ==>
               var job := s.actors[step.a].job; job.id in s.store.jobs && s.store.jobs[job.id] == job
    requires step.AdvanceMove? && !s.mover.Batch? ==>
               var job := s.mover.job; job.id in s.store.jobs && s.store.jobs[job.id] == job
    ensures var t := After(s, step);
      && id in t.store.jobs && SameJob(s.store.jobs[id], t.store.jobs[id])
      && BookOf(t, id).fails == BookOf(s, id).fails + if RecordsFailure(s, step, id) then 1 else 0
  {
    var t := s.(clock := step.now);
    if step.AdvanceMove? {
      MoveStepKeepsRecord(t, id);
    } else if step.Advance? {
      var pc := s.actors[step.a];
      if pc.Free? {
        FreeStepKeepsRecord(t, step.a, pc.next);
      } else if pc.HasJob? {
        JobStepKeepsRecord(t, step.a, pc.job, pc.task, step.choice, step.read,
          CalculateDelay(pc.job.policy, pc.job.attempts), id);
      }
    }
  }

  lemma FreeStepKeepsRecord(s: System, a: nat, next: FreeTask)
    ensures AfterFree(s, a, next).store.jobs == s.store.jobs && AfterFree(s, a, next).book == s.book
  {
  }

  lemma MoveStepKeepsRecord(s: System, id: Id)
    requires id in s.store.jobs && !s.mover.Resting?
    requires !s.mover.Batch? ==>
               var job := s.mover.job; job.id in s.store.jobs && s.store.jobs[job.id] == job
    ensures AfterMove(s).book == s.book
    ensures id in AfterMove(s).store.jobs && SameJob(s.store.jobs[id], AfterMove(s).store.jobs[id])
  {
    var t := AfterMove(s);
    if s.mover.MoveRemoved? {
      assert t.store.jobs == s.store.jobs[t.mover.job.id := t.mover.job] && SameJob(s.mover.job, t.mover.job);
    } else {
      assert t.store.jobs == s.store.jobs;
    }
  }

  // ---------- What command-by-command interleaving does not prevent ----------

  lemma CheckStep(s: System, a: nat, key: string)
    requires a !in s.actors && key !in s.store.unique
    ensures Enabled(s, BeginEnqueue(a, key, s.clock))
    ensures After(s, BeginEnqueue(a, key, s.clock)) == To(s, a, Free(EnqueueChecked(key)))
  {
  }

  lemma StoreStep(s: System, a: nat, job: Job)
    requires a in s.actors && s.actors[a] == Free(EnqueueChecked(job.uniqueKey))
    requires job.id !in s.store.jobs && job.attempts == 0 && job.status == Pending
    ensures Enabled(s, StoreJob(a, job, s.clock))
    ensures After(s, StoreJob(a, job, s.clock)) ==
            To(s, a, HasJob(job, Uncounted, EnqueueStored)).(
              store := SetJob(s.store, job), book := s.book[job.id := Book(0, 0)])
  {
  }

  lemma PlaceStep(s: System, a: nat, job: Job)
    requires a in s.actors && s.actors[a] == HasJob(job, Uncounted, EnqueueStored) && job.scheduledAt.None?
    ensures Enabled(s, Advance(a, true, s.clock, s.clock))
    ensures After(s, Advance(a, true, s.clock, s.clock)) ==
            To(s, a, Free(EnqueuePlaced(job))).(store := LPush(s.store, QueueOf(job.priority), job.id))
  {
  }

  lemma AnnounceStep(s: System, a: nat, job: Job)
    requires a in s.actors && s.actors[a] == Free(EnqueuePlaced(job))
    ensures Enabled(s, Advance(a, true, s.clock, s.clock))
    ensures After(s, Advance(a, true, s.clock, s.clock)) == Done(s, a).(store := SetUnique(s.store, job))
  {
  }

  lemma ClearStep(s: System, a: nat, job: Job)
    requires a in s.actors && s.actors[a] in {Free(CompleteStored(job)), Free(FailBuried(job))}
    ensures Enabled(s, Advance(a, true, s.clock, s.clock))
    ensures After(s, Advance(a, true, s.clock, s.clock)) == Done(s, a).(store := DelUnique(s.store, job))
  {
  }

  /** Both producers have checked the key, and neither has stored anything. */
  lemma {:induction false} BothChecked(a: nat, b: nat, key: string) returns (steps: seq<Step>)
    requires a != b
    ensures Valid(steps) && Run(steps).store == EmptyStore()
    ensures a in Run(steps).actors && Run(steps).actors[a] == Free(EnqueueChecked(key))
    ensures b in Run(steps).actors && Run(steps).actors[b] == Free(EnqueueChecked(key))
  {
    var s0 := Initial();
    CheckStep(s0, a, key);
    Snoc([], BeginEnqueue(a, key, s0.clock));
    var one := [] + [BeginEnqueue(a, key, s0.clock)];
    var s1 := Run(one);
    CheckStep(s1, b, key);
    Snoc(one, BeginEnqueue(b, key, s1.clock));
    steps := one + [BeginEnqueue(b, key, s1.clock)];
  }

  lemma {:induction false} BothStored(a: nat, b: nat, first: Job, second: Job) returns (steps: seq<Step>)
    requires a != b && first.uniqueKey == second.uniqueKey && first.id != second.id
    requires first.attempts == second.attempts == 0 && first.status == second.status == Pending
    ensures Valid(steps)
    ensures a in Run(steps).actors && Run(steps).actors[a] == HasJob(first, Uncounted, EnqueueStored)
    ensures b in Run(steps).actors && Run(steps).actors[b] == HasJob(second, Uncounted, EnqueueStored)
  {
    steps := BothChecked(a, b, first.uniqueKey);
    var s := Run(steps);
    StoreStep(s, a, first);
    Snoc(steps, StoreJob(a, first, s.clock));
    steps := steps + [StoreJob(a, first, s.clock)];
    s := Run(steps);
    StoreStep(s, b, second);
    Snoc(steps, StoreJob(b, second, s.clock));
    steps := steps + [StoreJob(b, second, s.clock)];
  }

  /**
    Two producers can both pass the duplicate check before either has written its unique key: in some
    run two queued jobs share a key.  One producer of a key at a time is enough to rule this out.
   */
  lemma {:induction false} DuplicateCheckRaces(first: Job, second: Job) returns (steps: seq<Step>)
    requires first.uniqueKey == second.uniqueKey && first.id != second.id
    requires first.attempts == second.attempts == 0 && first.status == second.status == Pending
    requires first.scheduledAt == second.scheduledAt == None
    ensures Valid(steps)
    ensures first.id in List(Run(steps).store.queues, QueueOf(first.priority))
    ensures second.id in List(Run(steps).store.queues, QueueOf(second.priority))
  {
    steps := BothStored(0, 1, first, second);
    var s := Run(steps);
    PlaceStep(s, 0, first);
    Snoc(steps, Advance(0, true, s.clock, s.clock));
    steps := steps + [Advance(0, true, s.clock, s.clock)];
    s := Run(steps);
    PlaceStep(s, 1, second);
    Snoc(steps, Advance(1, true, s.clock, s.clock));
    steps := steps + [Advance(1, true, s.clock, s.clock)];
  }
}
