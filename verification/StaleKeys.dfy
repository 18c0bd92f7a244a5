/**
  The index of unique keys under command-by-command interleaving
  (internal/jobs/queue/redis_queue.go): exactly when it is accurate, and what becomes of a
  key that is announced too late.
 */
module StaleKeys {
  import opened Prelude
  import opened JobStore
  import opened JobWorkers
  import opened JobOwnership
  import opened JobHistory
  import opened KeyRaces
  import opened JobJourneys

  /** The key is in the index although no job with it is live and nobody is going to remove it. */
  ghost predicate Stale(s: System, key: string) {
    key in s.store.unique && !Busy(s, key) && forall a :: !RoleFor(s.actors, a, key).Checked?
  }

  lemma StaleSteady(s: System, t: System, key: string)
    requires Stale(s, key) && Steady(s, t, key)
    ensures Stale(t, key)
  {
  }

  lemma StaleAnnounced(s: System, t: System, a: nat, key: string)
    requires Stale(s, key) && Announces(s, t, a, key)
    ensures Stale(t, key)
  {
  }

  lemma StaleStays(p: Placed, step: Step, key: string)
    requires Enabled(p.s, step) && key != "" && Stale(p.s, key)
    ensures Stale(After(p.s, step), key)
  {
    var s, t, a := p.s, After(p.s, step), ActorOf(step);
    EveryStepConcerns(p, step, key);
    if Steady(s, t, key) {
      StaleSteady(s, t, key);
    } else if Announces(s, t, a, key) {
      StaleAnnounced(s, t, a, key);
    } else if PutsDown(s, t, a, key) {
      StoredIsLive(p, a, key);
      assert false;
    }
  }

  /** A stale key stays in the index for ever: every later enqueue with it is refused. */
  lemma {:induction false} StaleForever(steps: seq<Step>, n: nat, key: string)
    requires Valid(steps) && key != "" && n <= |steps| && Stale(Run(steps[..n]), key)
    ensures Stale(Run(steps), key)
    decreases |steps|
  {
    if n == |steps| {
      assert steps[..n] == steps;
    } else {
      var m := |steps| - 1;
      var before := steps[..m];
      assert before[..n] == steps[..n];
      LastStep(steps, before, m);
      StaleForever(before, n, key);
      var p := RunKeeps(before);
      StaleStays(p, steps[m], key);
    }
  }

  /**
    Outside Enqueue, the key is in the index exactly while a job with it is live or its DEL is pending,
    and a live job is the one it is mapped to.
   */
  ghost predicate IndexExact(s: System, key: string) {
    (forall a :: !Enqueuing(s.actors, a, key)) ==>
      && (key in s.store.unique <==> Busy(s, key))
      && forall x :: LiveWith(s.store, x, key) ==> s.store.unique[key] == x
  }

  /** The step is Enqueue's SET of the key. */
  ghost predicate SetsKey(s: System, step: Step, key: string) {
    step.Advance? && RoleFor(s.actors, step.a, key).Announcing?
  }

  ghost predicate IndexedOnlyBusy(s: System, key: string) {
    key in s.store.unique ==> Busy(s, key)
  }

  lemma StepIndexes(p: Placed, step: Step, key: string)
    requires Enabled(p.s, step) && key != "" && IndexedOnlyBusy(p.s, key)
    requires SetsKey(p.s, step, key) ==> Busy(p.s, key)
    ensures IndexedOnlyBusy(After(p.s, step), key)
  {
    EveryStepConcerns(p, step, key);
    BusyStays(p.s, After(p.s, step), step, key);
  }

  /** A live job or pending DEL goes away only with the DEL itself. */
  lemma BusyStays(s: System, t: System, step: Step, key: string)
    requires StepConcerns(s, t, step, key) && IndexedOnlyBusy(s, key)
    requires Announces(s, t, ActorOf(step), key) ==> Busy(s, key)
    ensures IndexedOnlyBusy(t, key)
  {
    var a := ActorOf(step);
    if Busy(s, key) && !Clears(s, t, a, key) {
      if w :| RoleFor(s.actors, w, key).Clearing? {
        assert RoleFor(t.actors, w, key).Clearing?;
      } else {
        var x :| LiveWith(s.store, x, key);
        assert LiveWith(t.store, x, key) || RoleFor(t.actors, a, key).Clearing?;
      }
    }
  }

  /** Every SET of the key comes while its job is live or the DEL is pending. */
  ghost predicate SetsInTime(steps: seq<Step>, key: string) {
    forall k :: 0 <= k < |steps| && SetsKey(Run(steps[..k]), steps[k], key) ==> Busy(Run(steps[..k]), key)
  }

  lemma SetsInTimePrefix(steps: seq<Step>, m: nat, key: string)
    requires SetsInTime(steps, key) && m <= |steps|
    ensures SetsInTime(steps[..m], key)
  {
    forall k | 0 <= k < m && SetsKey(Run(steps[..m][..k]), steps[..m][k], key) ensures Busy(Run(steps[..m][..k]), key) {
      assert steps[..m][..k] == steps[..k];
    }
  }

  lemma {:induction false} InTimeIndexes(steps: seq<Step>, key: string)
    requires Valid(steps) && key != "" && SetsInTime(steps, key)
    ensures IndexedOnlyBusy(Run(steps), key)
  {
    if steps != [] {
      var m := |steps| - 1;
      var before := steps[..m];
      LastStep(steps, before, m);
      SetsInTimePrefix(steps, m, key);
      InTimeIndexes(before, key);
      var p := RunKeeps(before);
      StepIndexes(p, steps[m], key);
    }
  }

  /** The live job is the one its producer announces, and the one the index has. */
  ghost predicate Owned(s: System, key: string) {
    && (forall a, x :: LiveWith(s.store, x, key) ==>
          (RoleFor(s.actors, a, key).Stored? || RoleFor(s.actors, a, key).Announcing?) ==>
          RoleFor(s.actors, a, key).id == x)
    && (forall x :: LiveWith(s.store, x, key) && key in s.store.unique ==> s.store.unique[key] == x)
    && (forall a :: RoleFor(s.actors, a, key).Checked? ==> key !in s.store.unique)
  }

  lemma StoresOwned(s: System, t: System, a: nat, key: string)
    requires Stores(s, t, a, key) && Guarded(s, key) && Alone(t, key) && Owned(s, key)
    ensures Owned(t, key)
  {
    assert Enqueuing(t.actors, a, key);
    forall b, x | LiveWith(t.store, x, key) &&
        (RoleFor(t.actors, b, key).Stored? || RoleFor(t.actors, b, key).Announcing?)
      ensures RoleFor(t.actors, b, key).id == x
    {
      assert Enqueuing(t.actors, b, key);
    }
  }

  lemma AnnouncesOwned(s: System, t: System, a: nat, key: string)
    requires Announces(s, t, a, key) && Alone(s, key) && Owned(s, key)
    ensures Owned(t, key)
  {
    assert Enqueuing(s.actors, a, key);
    forall b | b != a ensures !RoleFor(t.actors, b, key).Checked? {
      assert RoleFor(s.actors, b, key).Checked? ==> Enqueuing(s.actors, b, key);
    }
  }

  lemma StepOwned(s: System, t: System, step: Step, key: string)
    requires StepConcerns(s, t, step, key) && Guarded(s, key) && Alone(s, key) && Alone(t, key) && Owned(s, key)
    ensures Owned(t, key)
  {
    var a := ActorOf(step);
    if Stores(s, t, a, key) {
      StoresOwned(s, t, a, key);
    } else if Announces(s, t, a, key) {
      AnnouncesOwned(s, t, a, key);
    } else if Enters(s, t, a, key) {
      EntrantAlone(s, t, a, key);
    }
  }

  lemma EntrantAlone(s: System, t: System, a: nat, key: string)
    requires Enters(s, t, a, key) && Alone(t, key) && Guarded(s, key)
    ensures !Busy(s, key) && forall b :: b != a ==> !Enqueuing(t.actors, b, key)
  {
    assert Enqueuing(t.actors, a, key);
    forall b | b != a ensures !Enqueuing(s.actors, b, key) {
      assert Enqueuing(t.actors, b, key) == Enqueuing(s.actors, b, key);
    }
    assert forall b :: RoleFor(s.actors, b, key).Stored? || RoleFor(s.actors, b, key).Announcing? ==>
      Enqueuing(s.actors, b, key);
  }

  lemma OneAtATimePrefix(steps: seq<Step>, m: nat, key: string)
    requires OneAtATime(steps, key) && m <= |steps|
    ensures OneAtATime(steps[..m], key) && Alone(Run(steps[..m]), key)
  {
    forall k | 0 <= k <= m ensures Alone(Run(steps[..m][..k]), key) {
      assert steps[..m][..k] == steps[..k];
    }
  }

  lemma {:induction false} RunOwned(steps: seq<Step>, key: string)
    requires Valid(steps) && key != "" && OneAtATime(steps, key)
    ensures Guarded(Run(steps), key) && Owned(Run(steps), key)
  {
    OneAtATimeKeepsApart(steps, key);
    RunGuarded(steps, key);
    if steps != [] {
      var m := |steps| - 1;
      var before := steps[..m];
      LastStep(steps, before, m);
      OneAtATimePrefix(steps, m, key);
      OneAtATimePrefix(steps, |steps|, key);
      assert steps[..|steps|] == steps;
      RunOwned(before, key);
      NextOwned(before, steps[m], key);
    }
  }

  lemma {:induction false} NextOwned(steps: seq<Step>, step: Step, key: string)
    requires Valid(steps) && Enabled(Run(steps), step) && key != ""
    requires Guarded(Run(steps), key) && Owned(Run(steps), key)
    requires Alone(Run(steps), key) && Alone(After(Run(steps), step), key)
    ensures Owned(After(Run(steps), step), key)
  {
    var p := RunKeeps(steps);
    EveryStepConcerns(p, step, key);
    StepOwned(p.s, After(p.s, step), step, key);
  }

  /** With SETs in time, the index is exact at the end of the run. */
  lemma {:induction false} InTimeExact(steps: seq<Step>, key: string)
    requires Valid(steps) && key != "" && OneAtATime(steps, key) && SetsInTime(steps, key)
    ensures IndexExact(Run(steps), key)
  {
    RunOwned(steps, key);
    InTimeIndexes(steps, key);
    var s := Run(steps);
    if forall a :: !Enqueuing(s.actors, a, key) {
      assert forall a :: RoleFor(s.actors, a, key).Stored? || RoleFor(s.actors, a, key).Announcing? ==>
        Enqueuing(s.actors, a, key);
    }
  }

  /** A SET that comes too late leaves a stale key behind. */
  lemma {:induction false} LateSetGoesStale(steps: seq<Step>, step: Step, key: string)
    requires Valid(steps) && key != "" && Alone(Run(steps), key) && Enabled(Run(steps), step)
    requires SetsKey(Run(steps), step, key) && !Busy(Run(steps), key)
    ensures Stale(After(Run(steps), step), key) && !IndexExact(After(Run(steps), step), key)
  {
    var s, t := Run(steps), After(Run(steps), step);
    var p := RunKeeps(steps);
    EveryStepConcerns(p, step, key);
    assert Enqueuing(s.actors, step.a, key);
    LateSet(s, t, step, key);
  }

  lemma LateSet(s: System, t: System, step: Step, key: string)
    requires Alone(s, key) && SetsKey(s, step, key) && !Busy(s, key) && Announces(s, t, step.a, key)
    ensures Stale(t, key) && !IndexExact(t, key)
  {
    forall b ensures !Enqueuing(t.actors, b, key) {
      assert Enqueuing(s.actors, step.a, key);
      assert b != step.a ==> Enqueuing(t.actors, b, key) == Enqueuing(s.actors, b, key);
    }
    assert forall b :: RoleFor(t.actors, b, key).Checked? ==> Enqueuing(t.actors, b, key);
  }

  ghost predicate ExactThroughout(steps: seq<Step>, key: string) {
    forall k :: 0 <= k <= |steps| ==> IndexExact(Run(steps[..k]), key)
  }

  /**
    For producers of the key that are inside Enqueue one at a time, the index is exact throughout a run
    if and only if every SET of the key comes before the DEL of the job it announces.  A SET that comes
    later leaves the key refused for ever, by StaleForever.
   */
  lemma {:induction false} IndexExactIff(steps: seq<Step>, key: string)
    requires Valid(steps) && key != "" && OneAtATime(steps, key)
    ensures ExactThroughout(steps, key) <==> SetsInTime(steps, key)
  {
    if SetsInTime(steps, key) {
      forall k | 0 <= k <= |steps| ensures IndexExact(Run(steps[..k]), key) {
        OneAtATimePrefix(steps, k, key);
        SetsInTimePrefix(steps, k, key);
        ValidPrefix(steps, k);
        InTimeExact(steps[..k], key);
      }
    } else {
      var k :| 0 <= k < |steps| && SetsKey(Run(steps[..k]), steps[k], key) && !Busy(Run(steps[..k]), key);
      ValidPrefix(steps, k + 1);
      LastStep(steps[..k + 1], steps[..k], k);
      OneAtATimePrefix(steps, k, key);
      LateSetGoesStale(steps[..k], steps[k], key);
    }
  }

  // ---------- A run that leaves a stale key ----------

  /** Producer 0 has placed its job and still has to announce it. */
  function Unannounced(key: string): map<nat, Pc> {
    map[0 := Free(EnqueuePlaced(NewJob(0, key)))]
  }

  /** A run that has come as far as this; looked into with OpenReached. */
  datatype Stage = Stage(steps: seq<Step>, key: string, pc: Pc, job: Job)

  ghost predicate IsReached(o: Stage) {
    forall k :: Asked(k) ==> Valid(o.steps) && Travels(Run(o.steps), Unannounced(o.key), o.pc, o.job)
  }

  lemma OpenReached(o: Stage)
    requires IsReached(o)
    ensures Valid(o.steps) && Travels(Run(o.steps), Unannounced(o.key), o.pc, o.job)
  {
    assert Asked(0);
  }

  lemma {:induction false} WorkerGoes(o: Stage) returns (n: Stage)
    requires IsReached(o) && OnTheWay(o.pc, o.job)
    ensures IsReached(n) && n.key == o.key && n.pc == Successor(o.pc, o.job) && n.job == Recorded(o.pc, o.job)
  {
    OpenReached(o);
    var step := Onward(Run(o.steps), o.pc);
    TravelStep(Run(o.steps), Unannounced(o.key), o.pc, o.job);
    Snoc(o.steps, step);
    n := Stage(o.steps + [step], o.key, Successor(o.pc, o.job), Recorded(o.pc, o.job));
  }

  /** Producer 0 is about to announce the job it has queued. */
  lemma {:induction false} QueuedUnannounced(key: string) returns (steps: seq<Step>)
    ensures Valid(steps) && Run(steps).actors == Unannounced(key) && Run(steps).store.jobs == map[0 := NewJob(0, key)]
    ensures Run(steps).store.dlq == [] && Run(steps).store.unique == map[]
    ensures List(Run(steps).store.queues, CriticalQueue) == [0]
  {
    var job, s := NewJob(0, key), Initial();
    CheckStep(s, 0, key);
    Snoc([], BeginEnqueue(0, key, s.clock));
    steps := [] + [BeginEnqueue(0, key, s.clock)];
    s := Run(steps);
    StoreStep(s, 0, job);
    Snoc(steps, StoreJob(0, job, s.clock));
    steps := steps + [StoreJob(0, job, s.clock)];
    s := Run(steps);
    PlaceStep(s, 0, job);
    Snoc(steps, Advance(0, true, s.clock, s.clock));
    steps := steps + [Advance(0, true, s.clock, s.clock)];
  }

  lemma {:induction false} WorkerPops(key: string) returns (n: Stage)
    ensures IsReached(n) && n.key == key && n.pc == HasId(0, Uncounted, ToDequeue(0)) && n.job == NewJob(0, key)
  {
    var steps := QueuedUnannounced(key);
    var s := Run(steps);
    var begin, pop := BeginDequeue(1, s.clock), Advance(1, true, s.clock, s.clock);
    PopTravels(s, Unannounced(key), NewJob(0, key), begin, pop);
    SnocTwo(steps, begin, pop, steps + [begin] + [pop]);
    n := Stage(steps + [begin] + [pop], key, HasId(0, Uncounted, ToDequeue(0)), NewJob(0, key));
  }

  /** The worker dequeues the job, locks it, runs its handler and marks it completed. */
  lemma {:induction false} WorkerCompletes(key: string) returns (o: Stage)
    ensures IsReached(o) && o.key == key && o.pc == Free(CompleteStored(o.job)) && o.job.status == Completed
    ensures o.job.uniqueKey == key
  {
    o := WorkerPops(key);
    o := WorkerGoes(o);
    o := WorkerGoes(o);
    o := WorkerGoes(o);
    o := WorkerGoes(o);
    o := WorkerGoes(o);
    o := WorkerGoes(o);
    o := WorkerGoes(o);
    o := WorkerGoes(o);
  }

  /** The worker's DEL and then the producer's SET. */
  lemma ClearedThenAnnounced(s: System, key: string, done: Job, clear: Step, announce: Step)
    requires Travels(s, Unannounced(key), Free(CompleteStored(done)), done) && key != "" && done.status == Completed
    requires clear == Advance(1, true, s.clock, s.clock) && announce == Advance(0, true, s.clock, s.clock)
    ensures Enabled(s, clear) && Enabled(After(s, clear), announce)
    ensures var t := After(After(s, clear), announce);
      Stale(t, key) && t.actors == map[] && t.store.jobs == map[0 := done]
  {
    ClearStep(s, 1, done);
    AnnounceStep(After(s, clear), 0, NewJob(0, key));
  }

  /**
    The stale key is reachable with a single producer and a single worker: the worker runs the job and
    deletes its key before the producer has announced it.
   */
  lemma {:induction false} SlowAnnouncement(key: string) returns (steps: seq<Step>)
    requires key != ""
    ensures Valid(steps) && Stale(Run(steps), key) && Run(steps).actors == map[]
    ensures Run(steps).store.jobs.Keys == {0} && Run(steps).store.jobs[0].status == Completed
  {
    var o := WorkerCompletes(key);
    OpenReached(o);
    steps := o.steps;
    var s := Run(steps);
    var clear, announce := Advance(1, true, s.clock, s.clock), Advance(0, true, s.clock, s.clock);
    ClearedThenAnnounced(s, key, o.job, clear, announce);
    SnocTwo(steps, clear, announce, steps + [clear] + [announce]);
    steps := steps + [clear] + [announce];
  }
}
