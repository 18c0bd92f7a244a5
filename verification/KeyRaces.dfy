/**
  Unique keys under command-by-command interleaving (internal/jobs/queue/redis_queue.go):
  exactly when the duplicate check protects a key.
 */
module KeyRaces {
  import opened Prelude
  import opened RetryTiming
  import opened JobStore
  import opened JobWorkers
  import opened JobOwnership
  import opened JobHistory

  /** What an actor is about to do that concerns a unique key. */
  datatype Role =
    | Bystander
    | Checked(key: string)              // has found the key free; will SET the record
    | Stored(key: string, id: Id)       // will place the job
    | Announcing(key: string, id: Id)   // will SET the unique key
    | Clearing(key: string)             // will DEL the unique key

  function RoleOf(pc: Pc): Role {
    match pc
    case Free(EnqueueChecked(key)) => Checked(key)
    case Free(EnqueuePlaced(job)) => Announcing(job.uniqueKey, job.id)
    case Free(CompleteStored(job)) => Clearing(job.uniqueKey)
    case Free(FailBuried(job)) => Clearing(job.uniqueKey)
    case Free(Polling(_)) => Bystander
    case HasId(_, _, _) => Bystander
    case HasJob(job, _, task) => if task.EnqueueStored? then Stored(job.uniqueKey, job.id) else Bystander
  }

  /** The role of an actor as far as `key` is concerned. */
  function RoleFor(actors: map<nat, Pc>, a: nat, key: string): Role {
    if a !in actors || RoleOf(actors[a]).Bystander? || RoleOf(actors[a]).key != key then Bystander
    else RoleOf(actors[a])
  }

  /** The actor is inside Enqueue with this key. */
  predicate Enqueuing(actors: map<nat, Pc>, a: nat, key: string) {
    var r := RoleFor(actors, a, key);
    r.Checked? || r.Stored? || r.Announcing?
  }

  /** A live job is neither completed nor in the dead-letter list. */
  predicate Live(s: Store, id: Id) {
    id in s.jobs && s.jobs[id].status != Completed && id !in s.dlq
  }

  predicate LiveWith(s: Store, id: Id, key: string) {
    Live(s, id) && s.jobs[id].uniqueKey == key
  }

  /** A job is live exactly while it is in a queue, in the scheduled set, or in somebody's hands. */
  lemma {:induction false} LiveIsInPlay(steps: seq<Step>, id: Id)
    requires Valid(steps) && id in Run(steps).store.jobs
    ensures var s := Run(steps);
      Live(s.store, id) <==>
      (QueueEntries(s.store.queues, id) > 0 || id in s.store.scheduled || Holders(s, id) != {} || Moves(s.mover, id))
  {
    var p := RunKeeps(steps);
    SameKeys(p);
    RestCounts(p, id);
    QueuesCount(p, id);
    HolderCount(p, id);
    DeadCount(p, id);
  }

  lemma DeadCount(p: Placed, id: Id)
    requires id in p.loc
    ensures id in p.s.store.dlq <==> p.loc[id] == Buried
  {
    OpenJobs(p);
  }

  // ---------- The invariant ----------

  /** A live job or a pending DEL with this key. */
  ghost predicate Busy(s: System, key: string) {
    (exists x :: LiveWith(s.store, x, key)) || (exists a :: RoleFor(s.actors, a, key).Clearing?)
  }

  /** The key is in the index, or somebody who has stored a job is going to put it there. */
  ghost predicate Covered(s: System, key: string) {
    key in s.store.unique || exists a :: RoleFor(s.actors, a, key).Stored? || RoleFor(s.actors, a, key).Announcing?
  }

  /** At most one live job or pending DEL, covered; and none while a producer has checked but not stored. */
  ghost predicate Guarded(s: System, key: string) {
    && (forall x, y :: LiveWith(s.store, x, key) && LiveWith(s.store, y, key) ==> x == y)
    && (forall a, b :: RoleFor(s.actors, a, key).Clearing? && RoleFor(s.actors, b, key).Clearing? ==> a == b)
    && (forall x, a :: LiveWith(s.store, x, key) ==> !RoleFor(s.actors, a, key).Clearing?)
    && (forall a, b :: RoleFor(s.actors, a, key).Checked? && RoleFor(s.actors, b, key).Checked? ==> a == b)
    && (forall a :: RoleFor(s.actors, a, key).Checked? ==> !Busy(s, key))
    && (Busy(s, key) ==> Covered(s, key))
  }

  /** Everybody else's role for the key is as before. */
  ghost predicate OthersKeep(actors: map<nat, Pc>, after: map<nat, Pc>, a: nat, key: string) {
    forall b :: b != a ==> RoleFor(after, b, key) == RoleFor(actors, b, key)
  }

  ghost predicate SameLive(s: Store, t: Store, key: string) {
    forall x :: LiveWith(t, x, key) <==> LiveWith(s, x, key)
  }

  /** One live job more, or less. */
  ghost predicate Adds(s: Store, t: Store, x: Id, key: string) {
    LiveWith(t, x, key) && forall y :: LiveWith(t, y, key) <==> LiveWith(s, y, key) || y == x
  }

  ghost predicate Removes(s: Store, t: Store, x: Id, key: string) {
    LiveWith(s, x, key) && forall y :: LiveWith(t, y, key) <==> LiveWith(s, y, key) && y != x
  }

  /** Nothing happens that concerns the key. */
  ghost predicate Steady(s: System, t: System, key: string) {
    && (forall b :: RoleFor(t.actors, b, key) == RoleFor(s.actors, b, key))
    && SameLive(s.store, t.store, key)
    && (key in t.store.unique <==> key in s.store.unique)
    && (key in s.store.unique ==> t.store.unique[key] == s.store.unique[key])
  }

  /** The ways in which a step of actor `a` can concern the key. */
  ghost predicate Enters(s: System, t: System, a: nat, key: string) {
    && OthersKeep(s.actors, t.actors, a, key) && SameLive(s.store, t.store, key) && t.store.unique == s.store.unique
    && RoleFor(s.actors, a, key).Bystander? && RoleFor(t.actors, a, key).Checked? && key !in s.store.unique
  }

  ghost predicate Stores(s: System, t: System, a: nat, key: string) {
    && OthersKeep(s.actors, t.actors, a, key) && t.store.unique == s.store.unique
    && RoleFor(s.actors, a, key).Checked? && RoleFor(t.actors, a, key).Stored?
    && Adds(s.store, t.store, RoleFor(t.actors, a, key).id, key)
  }

  ghost predicate PutsDown(s: System, t: System, a: nat, key: string) {
    && OthersKeep(s.actors, t.actors, a, key) && SameLive(s.store, t.store, key) && t.store.unique == s.store.unique
    && RoleFor(s.actors, a, key).Stored? && RoleFor(t.actors, a, key) == Announcing(key, RoleFor(s.actors, a, key).id)
  }

  ghost predicate Announces(s: System, t: System, a: nat, key: string) {
    && OthersKeep(s.actors, t.actors, a, key) && SameLive(s.store, t.store, key)
    && RoleFor(s.actors, a, key).Announcing? && RoleFor(t.actors, a, key).Bystander?
    && key in t.store.unique && t.store.unique[key] == RoleFor(s.actors, a, key).id
  }

  ghost predicate Ends(s: System, t: System, a: nat, key: string) {
    && OthersKeep(s.actors, t.actors, a, key) && t.store.unique == s.store.unique
    && RoleFor(s.actors, a, key).Bystander? && RoleFor(t.actors, a, key).Clearing?
    && exists x :: Removes(s.store, t.store, x, key)
  }

  ghost predicate Clears(s: System, t: System, a: nat, key: string) {
    && OthersKeep(s.actors, t.actors, a, key) && SameLive(s.store, t.store, key) && key !in t.store.unique
    && RoleFor(s.actors, a, key).Clearing? && RoleFor(t.actors, a, key).Bystander?
  }

  ghost predicate Concerns(s: System, t: System, a: nat, key: string) {
    Enters(s, t, a, key) || Stores(s, t, a, key) || PutsDown(s, t, a, key) || Announces(s, t, a, key)
    || Ends(s, t, a, key) || Clears(s, t, a, key)
  }

  /**
    The check may pass: nobody is inside Enqueue with the key, or whoever is has stored a job that is
    already gone, with its DEL done.
   */
  ghost predicate Quiet(s: System, key: string) {
    (forall a :: !Enqueuing(s.actors, a, key)) || (!Busy(s, key) && forall a :: !RoleFor(s.actors, a, key).Checked?)
  }

  lemma SteadyKeeps(s: System, t: System, key: string)
    requires Guarded(s, key) && Steady(s, t, key)
    ensures Guarded(t, key)
  {
  }

  lemma EntersKeeps(s: System, t: System, a: nat, key: string)
    requires Guarded(s, key) && Enters(s, t, a, key) && Quiet(s, key)
    ensures Guarded(t, key)
  {
    if forall b :: !Enqueuing(s.actors, b, key) {
      assert forall b :: RoleFor(s.actors, b, key).Stored? || RoleFor(s.actors, b, key).Announcing? ==>
        Enqueuing(s.actors, b, key);
      assert forall b :: RoleFor(s.actors, b, key).Checked? ==> Enqueuing(s.actors, b, key);
    }
    assert !Busy(s, key);
    assert forall b :: !RoleFor(s.actors, b, key).Checked?;
  }

  lemma StoresKeeps(s: System, t: System, a: nat, key: string)
    requires Guarded(s, key) && Stores(s, t, a, key)
    ensures Guarded(t, key)
  {
  }

  lemma PutsDownKeeps(s: System, t: System, a: nat, key: string)
    requires Guarded(s, key) && PutsDown(s, t, a, key)
    ensures Guarded(t, key)
  {
  }

  lemma AnnouncesKeeps(s: System, t: System, a: nat, key: string)
    requires Guarded(s, key) && Announces(s, t, a, key)
    ensures Guarded(t, key)
  {
  }

  lemma EndsKeeps(s: System, t: System, a: nat, key: string)
    requires Guarded(s, key) && Ends(s, t, a, key)
    ensures Guarded(t, key)
  {
  }

  lemma ClearsKeeps(s: System, t: System, a: nat, key: string)
    requires Guarded(s, key) && Clears(s, t, a, key)
    ensures Guarded(t, key)
  {
  }

  // ---------- What the steps do ----------

  lemma HeldIsLive(p: Placed, a: nat, id: Id)
    requires a in p.s.actors && Holds(p.s.actors[a], id)
    ensures Live(p.s.store, id)
    ensures p.s.actors[a].HasJob? ==> p.s.store.jobs[id] == p.s.actors[a].job
  {
    HeldByGrip(p, a, id);
    DeadCount(p, id);
  }

  lemma CarriedIsLive(p: Placed)
    requires p.s.mover.MoveRemoved?
    ensures Live(p.s.store, p.s.mover.job.id) && p.s.store.jobs[p.s.mover.job.id] == p.s.mover.job
  {
    CarriedPlace(p, p.s.mover.job.id);
    DeadCount(p, p.s.mover.job.id);
  }

  /** Nobody acts, and at most the record of a live job is rewritten. */
  lemma RecordSteady(s: System, t: System, j: Job, key: string)
    requires t.actors == s.actors && t.store.dlq == s.store.dlq && t.store.unique == s.store.unique
    requires t.store.jobs == s.store.jobs[j.id := j]
    requires Live(s.store, j.id) && s.store.jobs[j.id].uniqueKey == j.uniqueKey && j.status != Completed
    ensures Steady(s, t, key)
  {
  }

  lemma NothingSteady(s: System, t: System, key: string)
    requires t.actors == s.actors && t.store.dlq == s.store.dlq && t.store.unique == s.store.unique
    requires t.store.jobs == s.store.jobs
    ensures Steady(s, t, key)
  {
  }

  lemma MoveSteady(s: System, key: string)
    requires s.mover.MoveRemoved? ==> Live(s.store, s.mover.job.id) && s.store.jobs[s.mover.job.id] == s.mover.job
    ensures Steady(s, AfterMove(s), key)
  {
    var t := AfterMove(s);
    match s.mover
    case MoveRemoved(job, ids) => RecordSteady(s, t, job.(scheduledAt := None, status := Pending), key);
    case _ => NothingSteady(s, t, key);
  }

  lemma FreeConcerns(s: System, a: nat, next: FreeTask, key: string)
    requires a in s.actors && s.actors[a] == Free(next) && !next.EnqueueChecked? && key != ""
    ensures var t := AfterFree(s, a, next);
      if RoleFor(s.actors, a, key).Announcing? then Announces(s, t, a, key)
      else if RoleFor(s.actors, a, key).Clearing? then Clears(s, t, a, key)
      else Steady(s, t, key)
  {
  }

  lemma FetchSteady(s: System, a: nat, id: Id, phase: Phase, fetch: FetchTask, key: string)
    requires a in s.actors && s.actors[a] == HasId(id, phase, fetch)
    ensures Steady(s, AfterFetch(s, a, id, fetch), key)
  {
  }

  /** Rewriting the record of a live job under the same key and with a status other than completed. */
  lemma RewriteSteady(s: System, a: nat, job: Job, j: Job, task: JobTask, key: string)
    requires a in s.actors && RoleOf(s.actors[a]).Bystander? && !task.EnqueueStored?
    requires Live(s.store, job.id) && s.store.jobs[job.id] == job
    requires j.id == job.id && j.uniqueKey == job.uniqueKey && j.status != Completed
    ensures Steady(s, Rewritten(s, a, j, task), key)
  {
  }

  lemma RetrySteady(s: System, a: nat, job: Job, read: int, delay: int, key: string)
    requires a in s.actors && RoleOf(s.actors[a]).Bystander?
    requires Live(s.store, job.id) && s.store.jobs[job.id] == job
    ensures Steady(s, AfterRetry(s, a, job, read, delay), key)
  {
  }

  lemma PlaceConcerns(s: System, a: nat, job: Job, read: int, key: string)
    requires a in s.actors && s.actors[a] == HasJob(job, Uncounted, EnqueueStored)
    ensures var t := AfterPlace(s, a, job, read);
      if job.uniqueKey == key then PutsDown(s, t, a, key) else Steady(s, t, key)
  {
  }

  lemma CompleteConcerns(s: System, a: nat, job: Job, key: string)
    requires a in s.actors && RoleOf(s.actors[a]).Bystander?
    requires Live(s.store, job.id) && s.store.jobs[job.id] == job
    ensures var t := AfterComplete(s, a, job);
      if job.uniqueKey == key then Ends(s, t, a, key) else Steady(s, t, key)
  {
    if job.uniqueKey == key {
      assert Removes(s.store, AfterComplete(s, a, job).store, job.id, key);
    }
  }

  lemma BuryConcerns(s: System, a: nat, job: Job, key: string)
    requires a in s.actors && RoleOf(s.actors[a]).Bystander?
    requires Live(s.store, job.id) && s.store.jobs[job.id] == job
    ensures var t := AfterBury(s, a, job);
      if job.uniqueKey == key then Ends(s, t, a, key) else Steady(s, t, key)
  {
    if job.uniqueKey == key {
      assert Removes(s.store, AfterBury(s, a, job).store, job.id, key);
    }
  }

  /** Steps that write no record. */
  lemma ThoughtSteady(s: System, a: nat, job: Job, task: JobTask, choice: bool, read: int, delay: int, key: string)
    requires a in s.actors && RoleOf(s.actors[a]).Bystander?
    requires IsThought(task) || task.Requeued? || task.FailRetry?
    ensures Steady(s, AfterJob(s, a, job, task, choice, read, delay), key)
  {
  }

  lemma JobConcerns(s: System, a: nat, job: Job, phase: Phase, task: JobTask, choice: bool, read: int, delay: int,
      key: string)
    requires a in s.actors && s.actors[a] == HasJob(job, phase, task)
    requires Live(s.store, job.id) && s.store.jobs[job.id] == job
    ensures var t := AfterJob(s, a, job, task, choice, read, delay);
      Steady(s, t, key) || PutsDown(s, t, a, key) || Ends(s, t, a, key)
  {
    match task
    case EnqueueStored => PlaceConcerns(s, a, job, read, key);
    case CompleteFetched => CompleteConcerns(s, a, job, key);
    case FailDead => BuryConcerns(s, a, job, key);
    case Fetched => RewriteSteady(s, a, job, Started(job), Dequeued, key);
    case Requeueing => RewriteSteady(s, a, job, Unstarted(job), Requeued, key);
    case FailFetched =>
      RetrySteady(s, a, job, read, delay, key);
      RewriteSteady(s, a, job, job.(status := Status.Dead), FailDead, key);
    case _ => ThoughtSteady(s, a, job, task, choice, read, delay, key);
  }

  lemma AdvanceConcerns(p: Placed, a: nat, choice: bool, read: int, key: string)
    requires a in p.s.actors && !AwaitsJob(p.s.actors[a]) && key != ""
    ensures var t := AfterAdvance(p.s, a, choice, read);
      Steady(p.s, t, key) || (Concerns(p.s, t, a, key) && !Enters(p.s, t, a, key))
  {
    match p.s.actors[a]
    case Free(next) => FreeConcerns(p.s, a, next, key);
    case HasId(id, phase, fetch) => FetchSteady(p.s, a, id, phase, fetch, key);
    case HasJob(job, phase, task) =>
      HeldIsLive(p, a, job.id);
      JobConcerns(p.s, a, job, phase, task, choice, read, CalculateDelay(job.policy, job.attempts), key);
  }

  /** The step passes the duplicate check for the key. */
  ghost predicate Admits(s: System, step: Step, key: string) {
    step.BeginEnqueue? && step.key == key && key !in s.store.unique
  }

  lemma BeginConcerns(s: System, step: Step, key: string)
    requires Enabled(s, step) && key != "" && (step.BeginEnqueue? || step.BeginDequeue? || step.BeginMove?)
    ensures var t := After(s, step);
      if Admits(s, step, key) then Enters(s, t, step.a, key) else Steady(s, t, key)
  {
  }

  /** A new record is live, and nothing else changes. */
  lemma RecordAdded(s: System, t: System, j: Job, key: string, x: Id)
    requires j.id !in s.store.jobs && j.id !in s.store.dlq && j.status != Completed
    requires t.store.jobs == s.store.jobs[j.id := j] && t.store.dlq == s.store.dlq
    ensures LiveWith(t.store, x, key) <==> LiveWith(s.store, x, key) || (x == j.id && j.uniqueKey == key)
  {
  }

  lemma StoreConcerns(s: System, a: nat, job: Job, now: int, key: string)
    requires Enabled(s, StoreJob(a, job, now)) && key != "" && job.id !in s.store.dlq
    ensures var t := After(s, StoreJob(a, job, now));
      if job.uniqueKey == key then Stores(s, t, a, key) else Steady(s, t, key)
  {
    var t := After(s, StoreJob(a, job, now));
    forall x ensures LiveWith(t.store, x, key) <==> LiveWith(s.store, x, key) || (x == job.id && job.uniqueKey == key) {
      RecordAdded(s, t, job, key, x);
    }
    StoreRoles(s, t, a, job, key);
    if job.uniqueKey == key {
      assert Adds(s.store, t.store, job.id, key);
    }
  }

  lemma StoreRoles(s: System, t: System, a: nat, job: Job, key: string)
    requires a in s.actors && s.actors[a] == Free(EnqueueChecked(job.uniqueKey))
    requires t.actors == s.actors[a := HasJob(job, Uncounted, EnqueueStored)]
    ensures OthersKeep(s.actors, t.actors, a, key)
    ensures if job.uniqueKey == key
            then RoleFor(s.actors, a, key).Checked? && RoleFor(t.actors, a, key) == Stored(key, job.id)
            else RoleFor(s.actors, a, key).Bystander? && RoleFor(t.actors, a, key).Bystander?
  {
  }

  lemma NewIsNotDead(p: Placed, id: Id)
    requires id !in p.s.store.jobs
    ensures id !in p.s.store.dlq
  {
    OpenJobs(p);
  }

  /** The actor that takes the step; the scheduled processor's steps concern no key. */
  function ActorOf(step: Step): nat {
    if step.BeginMove? || step.AdvanceMove? then 0 else step.a
  }

  /** The clock does not matter. */
  lemma SameState(s: System, r: System, t: System, a: nat, key: string)
    requires r.actors == s.actors && r.store == s.store
    ensures Steady(r, t, key) == Steady(s, t, key)
    ensures Concerns(r, t, a, key) == Concerns(s, t, a, key) && Enters(r, t, a, key) == Enters(s, t, a, key)
  {
  }

  /** A step either does not concern the key or concerns it in one of the six ways. */
  ghost predicate StepConcerns(s: System, t: System, step: Step, key: string) {
    var a := ActorOf(step);
    if Admits(s, step, key) then Enters(s, t, a, key)
    else Steady(s, t, key) || (Concerns(s, t, a, key) && !Enters(s, t, a, key))
  }

  lemma AdvanceStepConcerns(p0: Placed, step: Step, key: string)
    requires Enabled(p0.s, step) && step.Advance? && key != ""
    ensures StepConcerns(p0.s, After(p0.s, step), step, key)
  {
    var p := ClockAdvances(p0, step.now);
    AdvanceConcerns(p, step.a, step.choice, step.read, key);
    SameState(p0.s, p.s, After(p0.s, step), step.a, key);
  }

  lemma MoveStepSteady(p0: Placed, now: int, key: string)
    ensures Steady(p0.s, After(p0.s, AdvanceMove(now)), key)
  {
    if p0.s.mover.MoveRemoved? {
      CarriedIsLive(p0);
    }
    var r := p0.s.(clock := now);
    MoveSteady(r, key);
    SameState(p0.s, r, AfterMove(r), 0, key);
  }

  lemma EveryStepConcerns(p: Placed, step: Step, key: string)
    requires Enabled(p.s, step) && key != ""
    ensures StepConcerns(p.s, After(p.s, step), step, key)
  {
    match step
    case StoreJob(a, job, now) =>
      NewIsNotDead(p, job.id);
      StoreConcerns(p.s, a, job, now, key);
    case Advance(_, _, _, _) => AdvanceStepConcerns(p, step, key);
    case AdvanceMove(now) => MoveStepSteady(p, now, key);
    case _ => BeginConcerns(p.s, step, key);
  }

  lemma StepGuards(s: System, step: Step, key: string)
    requires StepConcerns(s, After(s, step), step, key) && Guarded(s, key) && (Admits(s, step, key) ==> Quiet(s, key))
    ensures Guarded(After(s, step), key)
  {
    var t, a := After(s, step), ActorOf(step);
    if Admits(s, step, key) {
      EntersKeeps(s, t, a, key);
    } else if Steady(s, t, key) {
      SteadyKeeps(s, t, key);
    } else if Stores(s, t, a, key) {
      StoresKeeps(s, t, a, key);
    } else if PutsDown(s, t, a, key) {
      PutsDownKeeps(s, t, a, key);
    } else if Announces(s, t, a, key) {
      AnnouncesKeeps(s, t, a, key);
    } else if Ends(s, t, a, key) {
      EndsKeeps(s, t, a, key);
    } else {
      ClearsKeeps(s, t, a, key);
    }
  }

  // ---------- Runs ----------

  /** From the n-th step on, the check passes for the key only when it is quiet. */
  ghost predicate KeptApart(steps: seq<Step>, n: nat, key: string) {
    forall k :: n <= k < |steps| && Admits(Run(steps[..k]), steps[k], key) ==> Quiet(Run(steps[..k]), key)
  }

  lemma KeptApartPrefix(steps: seq<Step>, n: nat, m: nat, key: string)
    requires KeptApart(steps, n, key) && m <= |steps|
    ensures KeptApart(steps[..m], n, key)
  {
    forall k | n <= k < m && Admits(Run(steps[..m][..k]), steps[..m][k], key) ensures Quiet(Run(steps[..m][..k]), key) {
      assert steps[..m][..k] == steps[..k];
    }
  }

  /** A run that is guarded after `n` steps and kept apart from then on is guarded at its end. */
  lemma {:induction false} StaysGuarded(steps: seq<Step>, n: nat, key: string)
    requires Valid(steps) && key != "" && n <= |steps|
    requires Guarded(Run(steps[..n]), key) && KeptApart(steps, n, key)
    ensures Guarded(Run(steps), key)
    decreases |steps|
  {
    if n == |steps| {
      assert steps[..n] == steps;
    } else {
      var m := |steps| - 1;
      var before := steps[..m];
      assert before[..n] == steps[..n];
      LastStep(steps, before, m);
      KeptApartPrefix(steps, n, m, key);
      StaysGuarded(before, n, key);
      var p := RunKeeps(before);
      EveryStepConcerns(p, steps[m], key);
      StepGuards(Run(before), steps[m], key);
    }
  }

  lemma {:induction false} RunGuarded(steps: seq<Step>, key: string)
    requires Valid(steps) && key != "" && KeptApart(steps, 0, key)
    ensures Guarded(Run(steps), key)
  {
    assert steps[..0] == [];
    StaysGuarded(steps, 0, key);
  }

  /** No two actors are inside Enqueue with the key at once. */
  ghost predicate Alone(s: System, key: string) {
    forall a, b :: Enqueuing(s.actors, a, key) && Enqueuing(s.actors, b, key) ==> a == b
  }

  ghost predicate OneAtATime(steps: seq<Step>, key: string) {
    forall k :: 0 <= k <= |steps| ==> Alone(Run(steps[..k]), key)
  }

  lemma {:induction false} OneAtATimeKeepsApart(steps: seq<Step>, key: string)
    requires Valid(steps) && key != "" && OneAtATime(steps, key)
    ensures KeptApart(steps, 0, key)
  {
    forall k | 0 <= k < |steps| && Admits(Run(steps[..k]), steps[k], key) ensures Quiet(Run(steps[..k]), key) {
      var s, t := Run(steps[..k]), Run(steps[..k + 1]);
      assert steps[..k + 1][..k] == steps[..k];
      assert Alone(t, key);
      BeginConcerns(s, steps[k], key);
      assert Enqueuing(t.actors, steps[k].a, key);
      forall b ensures !Enqueuing(s.actors, b, key) {
        assert b != steps[k].a ==> Enqueuing(t.actors, b, key) == Enqueuing(s.actors, b, key);
      }
    }
  }

  /**
    In every interleaving in which producers of the key are inside Enqueue one at a time, no two live
    jobs share the key, whatever workers, the scheduled processor and other producers do.
   */
  lemma {:induction false} NoSharedKeyOneAtATime(steps: seq<Step>, key: string, x: Id, y: Id)
    requires Valid(steps) && key != "" && OneAtATime(steps, key)
    requires LiveWith(Run(steps).store, x, key) && LiveWith(Run(steps).store, y, key)
    ensures x == y
  {
    OneAtATimeKeepsApart(steps, key);
    RunGuarded(steps, key);
  }

  // ---------- The check passes too early ----------

  /** The run goes on from `steps`, and from there the check passes only when the key is quiet. */
  ghost predicate Goes(all: seq<Step>, steps: seq<Step>, key: string) {
    |steps| <= |all| && all[..|steps|] == steps && Valid(all) && KeptApart(all, |steps|, key)
  }

  lemma {:induction false} GoOn(all: seq<Step>, steps: seq<Step>, key: string, step: Step) returns (more: seq<Step>)
    requires Goes(all, steps, key) && Enabled(Run(all), step)
    requires Admits(Run(all), step, key) ==> Quiet(Run(all), key)
    ensures Goes(more, steps, key) && Run(more) == After(Run(all), step)
  {
    more := all + [step];
    Snoc(all, step);
    assert more[..|steps|] == all[..|steps|];
    forall k | |steps| <= k < |more| && Admits(Run(more[..k]), more[k], key) ensures Quiet(Run(more[..k]), key) {
      assert more[..k] == all[..k];
      assert k == |all| ==> all[..k] == all;
    }
  }

  /** A job with this ID and key, for immediate execution. */
  function NewJob(id: Id, key: string): Job {
    Job(id, 3, Pending, 0, 0, RetryPolicy(Fixed, 0, 0, 1.0), None, key)
  }

  /** A producer that has checked stores its job; what was live stays live. */
  lemma {:induction false} StoreAnother(all: seq<Step>, steps: seq<Step>, key: string, a: nat)
    returns (more: seq<Step>, y: Id)
    requires Goes(all, steps, key) && key != ""
    requires a in Run(all).actors && Run(all).actors[a] == Free(EnqueueChecked(key))
    ensures Goes(more, steps, key) && y !in Run(all).store.jobs
    ensures Run(more).actors == Run(all).actors[a := HasJob(NewJob(y, key), Uncounted, EnqueueStored)]
    ensures Adds(Run(all).store, Run(more).store, y, key) && Run(more).store.unique == Run(all).store.unique
  {
    var s := Run(all);
    y := Bound(s.store.jobs.Keys);
    var job := NewJob(y, key);
    StoreStep(s, a, job);
    more := GoOn(all, steps, key, StoreJob(a, job, s.clock));
    var p := RunKeeps(all);
    NewIsNotDead(p, y);
    forall x ensures LiveWith(Run(more).store, x, key) <==> LiveWith(s.store, x, key) || x == y {
      RecordAdded(s, Run(more), job, key, x);
    }
  }

  ghost predicate Shares(s: System, key: string) {
    exists x, y :: x != y && LiveWith(s.store, x, key) && LiveWith(s.store, y, key)
  }

  lemma {:induction false} BothStore(all: seq<Step>, steps: seq<Step>, key: string, a: nat, b: nat)
      returns (more: seq<Step>)
    requires Goes(all, steps, key) && key != "" && a != b
    requires a in Run(all).actors && Run(all).actors[a] == Free(EnqueueChecked(key))
    requires b in Run(all).actors && Run(all).actors[b] == Free(EnqueueChecked(key))
    ensures Goes(more, steps, key) && Shares(Run(more), key)
  {
    var mid, x := StoreAnother(all, steps, key, a);
    var y;
    more, y := StoreAnother(mid, steps, key, b);
    assert LiveWith(Run(more).store, x, key) && LiveWith(Run(more).store, y, key);
  }

  lemma {:induction false} OneMoreStores(all: seq<Step>, steps: seq<Step>, key: string, a: nat, x: Id)
      returns (more: seq<Step>)
    requires Goes(all, steps, key) && key != "" && LiveWith(Run(all).store, x, key)
    requires a in Run(all).actors && Run(all).actors[a] == Free(EnqueueChecked(key))
    ensures Goes(more, steps, key) && Shares(Run(more), key)
  {
    var y;
    more, y := StoreAnother(all, steps, key, a);
    assert LiveWith(Run(more).store, x, key) && LiveWith(Run(more).store, y, key);
  }

  /** A live job, a DEL to come, and producers that only have to announce. */
  ghost predicate Draining(s: System, key: string, y: Id, w: nat) {
    && LiveWith(s.store, y, key) && RoleFor(s.actors, w, key).Clearing?
    && forall b :: !RoleFor(s.actors, b, key).Checked? && !RoleFor(s.actors, b, key).Stored?
  }

  lemma DrainOne(s: System, key: string, y: Id, w: nat, b: nat, job: Job, t: System)
    requires Draining(s, key, y, w) && RoleFor(s.actors, b, key).Announcing? && s.actors[b] == Free(EnqueuePlaced(job))
    requires t == Done(s, b).(store := SetUnique(s.store, job))
    ensures Draining(t, key, y, w) && t.actors.Keys < s.actors.Keys
  {
    assert b in s.actors && b !in t.actors;
    assert LiveWith(t.store, y, key) == LiveWith(s.store, y, key);
    forall x ensures !RoleFor(t.actors, x, key).Checked? && !RoleFor(t.actors, x, key).Stored? {
      assert x != b ==> RoleFor(t.actors, x, key) == RoleFor(s.actors, x, key);
    }
  }

  /** All producers announce and leave. */
  lemma {:induction false} Drain(all: seq<Step>, steps: seq<Step>, key: string, y: Id, w: nat) returns (more: seq<Step>)
    requires Goes(all, steps, key) && Draining(Run(all), key, y, w)
    ensures Goes(more, steps, key) && Draining(Run(more), key, y, w)
    ensures forall b :: !Enqueuing(Run(more).actors, b, key)
    decreases Run(all).actors.Keys
  {
    var s := Run(all);
    if b :| RoleFor(s.actors, b, key).Announcing? {
      var job := s.actors[b].next.job;
      AnnounceStep(s, b, job);
      more := GoOn(all, steps, key, Advance(b, true, s.clock, s.clock));
      DrainOne(s, key, y, w, b, job, Run(more));
      more := Drain(more, steps, key, y, w);
    } else {
      more := all;
    }
  }

  lemma ClearedState(s: System, key: string, y: Id, w: nat, job: Job, t: System)
    requires Draining(s, key, y, w) && (forall b :: !Enqueuing(s.actors, b, key)) && key != ""
    requires s.actors[w] in {Free(CompleteStored(job)), Free(FailBuried(job))}
    requires t == Done(s, w).(store := DelUnique(s.store, job))
    ensures LiveWith(t.store, y, key) && key !in t.store.unique && forall b :: !Enqueuing(t.actors, b, key)
  {
    forall b ensures !Enqueuing(t.actors, b, key) {
      assert !Enqueuing(s.actors, b, key);
    }
  }

  /** The pending DEL removes the key of the live job, and the next producer gets in. */
  lemma {:induction false} ClearThenEnter(all: seq<Step>, steps: seq<Step>, key: string, y: Id, w: nat)
      returns (more: seq<Step>)
    requires Goes(all, steps, key) && Draining(Run(all), key, y, w) && key != ""
    requires forall b :: !Enqueuing(Run(all).actors, b, key)
    ensures Goes(more, steps, key) && Shares(Run(more), key)
  {
    var s := Run(all);
    var job := s.actors[w].next.job;
    ClearStep(s, w, job);
    more := GoOn(all, steps, key, Advance(w, true, s.clock, s.clock));
    s := Run(more);
    ClearedState(Run(all), key, y, w, job, s);
    var c := Bound(s.actors.Keys);
    CheckStep(s, c, key);
    more := GoOn(more, steps, key, BeginEnqueue(c, key, s.clock));
    more := OneMoreStores(more, steps, key, c, y);
  }

  lemma PlacedDraining(s: System, t: System, key: string, a: nat, y: Id, w: nat)
    requires LiveWith(s.store, y, key) && RoleFor(s.actors, w, key).Clearing? && w != a
    requires forall b :: b != a ==> !RoleFor(s.actors, b, key).Checked? && !RoleFor(s.actors, b, key).Stored?
    requires t.actors == s.actors[a := Free(EnqueuePlaced(NewJob(y, key)))]
    requires t.store.jobs == s.store.jobs && t.store.dlq == s.store.dlq
    ensures Draining(t, key, y, w)
  {
    forall b ensures !RoleFor(t.actors, b, key).Checked? && !RoleFor(t.actors, b, key).Stored? {
      assert b != a ==> RoleFor(t.actors, b, key) == RoleFor(s.actors, b, key);
    }
  }

  lemma {:induction false} StoreAndPlace(all: seq<Step>, steps: seq<Step>, key: string, a: nat, w: nat)
    returns (more: seq<Step>, y: Id)
    requires Goes(all, steps, key) && key != "" && RoleFor(Run(all).actors, w, key).Clearing?
    requires a in Run(all).actors && Run(all).actors[a] == Free(EnqueueChecked(key))
    requires forall b :: b != a ==>
      !RoleFor(Run(all).actors, b, key).Checked? && !RoleFor(Run(all).actors, b, key).Stored?
    ensures Goes(more, steps, key) && Draining(Run(more), key, y, w)
  {
    var mid;
    mid, y := StoreAnother(all, steps, key, a);
    var s, job := Run(mid), NewJob(y, key);
    StoreRoles(Run(all), s, a, job, key);
    PlaceStep(s, a, job);
    more := GoOn(mid, steps, key, Advance(a, true, s.clock, s.clock));
    PlacedDraining(s, Run(more), key, a, y, w);
  }

  lemma {:induction false} LateDelBreaks(all: seq<Step>, steps: seq<Step>, key: string, a: nat, w: nat)
      returns (more: seq<Step>)
    requires Goes(all, steps, key) && key != ""
    requires a in Run(all).actors && Run(all).actors[a] == Free(EnqueueChecked(key))
    requires RoleFor(Run(all).actors, w, key).Clearing?
    requires forall b :: b != a ==>
      !RoleFor(Run(all).actors, b, key).Checked? && !RoleFor(Run(all).actors, b, key).Stored?
    ensures Goes(more, steps, key) && Shares(Run(more), key)
  {
    var y;
    more, y := StoreAndPlace(all, steps, key, a, w);
    more := Drain(more, steps, key, y, w);
    more := ClearThenEnter(more, steps, key, y, w);
  }

  lemma StoredIsLive(p: Placed, a: nat, key: string)
    requires RoleFor(p.s.actors, a, key).Stored?
    ensures exists x :: LiveWith(p.s.store, x, key)
  {
    HeldIsLive(p, a, p.s.actors[a].job.id);
    assert LiveWith(p.s.store, p.s.actors[a].job.id, key);
  }

  /** The run right after the check. */
  lemma {:induction false} Entered(steps: seq<Step>, a: nat, key: string, now: int, entered: seq<Step>)
    requires Valid(steps) && key != "" && key !in Run(steps).store.unique
    requires Enabled(Run(steps), BeginEnqueue(a, key, now)) && entered == steps + [BeginEnqueue(a, key, now)]
    ensures Goes(entered, entered, key) && Enters(Run(steps), Run(entered), a, key)
    ensures a in Run(entered).actors && Run(entered).actors[a] == Free(EnqueueChecked(key))
  {
    Snoc(steps, BeginEnqueue(a, key, now));
    BeginConcerns(Run(steps), BeginEnqueue(a, key, now), key);
    assert entered[..|entered|] == entered;
  }

  /** Nobody else has to store or place a job of this key when none is live. */
  lemma {:induction false} NobodyStoring(steps: seq<Step>, t: System, a: nat, key: string)
    requires Valid(steps) && Enters(Run(steps), t, a, key)
    requires (forall b :: !RoleFor(Run(steps).actors, b, key).Checked?) &&
      forall x :: !LiveWith(Run(steps).store, x, key)
    ensures forall b :: b != a ==> !RoleFor(t.actors, b, key).Checked? && !RoleFor(t.actors, b, key).Stored?
  {
    var p := RunKeeps(steps);
    forall b | b != a ensures !RoleFor(t.actors, b, key).Checked? && !RoleFor(t.actors, b, key).Stored? {
      if RoleFor(p.s.actors, b, key).Stored? {
        StoredIsLive(p, b, key);
      }
    }
  }

  lemma {:induction false} PendingDelBreaks(steps: seq<Step>, entered: seq<Step>, key: string, a: nat, w: nat)
      returns (more: seq<Step>)
    requires Valid(steps) && key != "" && Goes(entered, entered, key) && Enters(Run(steps), Run(entered), a, key)
    requires a in Run(entered).actors && Run(entered).actors[a] == Free(EnqueueChecked(key))
    requires (forall b :: !RoleFor(Run(steps).actors, b, key).Checked?) &&
      forall x :: !LiveWith(Run(steps).store, x, key)
    requires RoleFor(Run(steps).actors, w, key).Clearing?
    ensures Goes(more, entered, key) && Shares(Run(more), key)
  {
    NobodyStoring(steps, Run(entered), a, key);
    assert RoleFor(Run(entered).actors, w, key) == RoleFor(Run(steps).actors, w, key);
    more := LateDelBreaks(entered, entered, key, a, w);
  }

  /** A check that passes while the key is not quiet can lead to two live jobs with the key. */
  lemma {:induction false} UnquietBreaks(steps: seq<Step>, a: nat, key: string, now: int, entered: seq<Step>)
      returns (more: seq<Step>)
    requires Valid(steps) && key != "" && key !in Run(steps).store.unique && !Quiet(Run(steps), key)
    requires Enabled(Run(steps), BeginEnqueue(a, key, now)) && entered == steps + [BeginEnqueue(a, key, now)]
    ensures Goes(more, entered, key) && Shares(Run(more), key)
  {
    var s := Run(steps);
    Entered(steps, a, key, now, entered);
    if b :| RoleFor(s.actors, b, key).Checked? {
      assert RoleFor(Run(entered).actors, b, key).Checked?;
      more := BothStore(entered, entered, key, a, b);
    } else if x :| LiveWith(s.store, x, key) {
      more := OneMoreStores(entered, entered, key, a, x);
    } else {
      var w :| RoleFor(s.actors, w, key).Clearing?;
      more := PendingDelBreaks(steps, entered, key, a, w);
    }
  }

  /** However the run goes on, as long as later checks pass only when the key is quiet, no two live jobs share it. */
  ghost predicate SafeAfter(steps: seq<Step>, key: string) {
    forall all :: Goes(all, steps, key) ==> !Shares(Run(all), key)
  }

  /**
    The exact condition: letting a producer past the duplicate check is safe for every continuation if
    and only if nobody else is inside Enqueue with the key, or whoever is there has stored a job that
    has come and gone.
   */
  lemma {:induction false} CheckSafeIff(steps: seq<Step>, a: nat, key: string, now: int, entered: seq<Step>)
    requires Valid(steps) && KeptApart(steps, 0, key) && key != ""
    requires Enabled(Run(steps), BeginEnqueue(a, key, now)) && key !in Run(steps).store.unique
    requires entered == steps + [BeginEnqueue(a, key, now)]
    ensures SafeAfter(entered, key) <==> Quiet(Run(steps), key)
  {
    if Quiet(Run(steps), key) {
      Entered(steps, a, key, now, entered);
      RunGuarded(steps, key);
      EntersKeeps(Run(steps), Run(entered), a, key);
      forall all | Goes(all, entered, key) ensures !Shares(Run(all), key) {
        StaysGuarded(all, |entered|, key);
      }
    } else {
      var more := UnquietBreaks(steps, a, key, now, entered);
    }
  }
}
