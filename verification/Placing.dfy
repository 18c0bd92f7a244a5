/**
  Where jobs are put (internal/jobs/queue/redis_queue.go): Enqueue and ProcessScheduled, by
  what they leave in the lists and sets of any state that whole operations reach.
 */
module JobPlacing {
  import opened Prelude
  import opened RetryTiming
  import opened JobStore
  import opened QueueOperations
  import opened UniqueKeys

  // ---------- Enqueue ----------

  /** A live job has this key. */
  ghost predicate InUse(v: Service, key: string) {
    exists x :: x in v.store.jobs && v.store.jobs[x].uniqueKey == key && IsLive(v, x)
  }

  /** The job has come first into the list of its priority, and no list has changed otherwise. */
  ghost predicate Heads(s: Store, t: Store, job: Job) {
    && List(t.queues, QueueOf(job.priority)) == [job.id] + List(s.queues, QueueOf(job.priority))
    && forall q :: q != QueueOf(job.priority) ==> List(t.queues, q) == List(s.queues, q)
  }

  /** The job is on record; it waits for its time if that is still to come, and is in its list otherwise. */
  ghost predicate Placed(s: Store, t: Store, job: Job, now: int) {
    && t.jobs == s.jobs[job.id := job] && t.dlq == s.dlq
    && if job.scheduledAt.Some? && now < job.scheduledAt.value then
         t.scheduled == s.scheduled[job.id := job.scheduledAt.value / SECOND] && t.queues == s.queues
       else t.scheduled == s.scheduled && Heads(s, t, job)
  }

  lemma {:induction false} InUseIff(steps: seq<Step>, key: string)
    requires Valid(steps) && key != ""
    ensures InUse(Run(steps), key) <==> key in Run(steps).store.unique
  {
    var v := Run(steps);
    if key in v.store.unique {
      UniqueIndexExact(steps, key, v.store.unique[key]);
    }
    if InUse(v, key) {
      var x :| x in v.store.jobs && v.store.jobs[x].uniqueKey == key && IsLive(v, x);
      UniqueIndexExact(steps, key, x);
    }
  }

  lemma EnqueuePlaces(s: Store, job: Job, now: int)
    requires job.uniqueKey == "" || job.uniqueKey !in s.unique
    ensures var (t, r) := EnqueueOp(s, job, now); r == Ok(()) && Placed(s, t, job, now)
  {
  }

  /**
    In every reachable state a new job is refused, and nothing changes, if and only if a live job has its
    non-empty unique key.  Otherwise it is placed by its time, and its key is in use from then on.
   */
  lemma {:induction false} EnqueuedIff(steps: seq<Step>, job: Job, now: int)
    requires Valid(steps) && Enabled(Run(steps), Enqueue(job, now))
    ensures var (v, t) := (Run(steps), After(Run(steps), Enqueue(job, now)));
      if job.uniqueKey != "" && InUse(v, job.uniqueKey) then
        t == v && EnqueueOp(v.store, job, now).1 == Err(DuplicateJob)
      else
        && EnqueueOp(v.store, job, now).1 == Ok(()) && t == v.(store := t.store) && Placed(v.store, t.store, job, now)
        && (job.uniqueKey != "" ==> InUse(t, job.uniqueKey))
  {
    var v := Run(steps);
    if job.uniqueKey != "" {
      InUseIff(steps, job.uniqueKey);
    }
    if job.uniqueKey == "" || job.uniqueKey !in v.store.unique {
      EnqueuePlaces(v.store, job, now);
      NowLive(v, job, now);
    }
  }

  lemma NowLive(v: Service, job: Job, now: int)
    requires job.uniqueKey == "" || job.uniqueKey !in v.store.unique
    ensures InUse(After(v, Enqueue(job, now)), job.uniqueKey)
  {
    var t := After(v, Enqueue(job, now));
    EnqueuePlaces(v.store, job, now);
    if job.id !in t.store.scheduled {
      assert job.id in List(t.store.queues, QueueOf(job.priority));
    }
    assert job.id in t.store.jobs && t.store.jobs[job.id].uniqueKey == job.uniqueKey && IsLive(t, job.id);
  }

  // ---------- ProcessScheduled ----------

  /** The answered jobs of a priority list, the last answered first. */
  function Front(jobs: map<Id, Job>, ids: seq<Id>, q: QueueName): seq<Id> {
    if ids == [] then []
    else
      var id := ids[|ids| - 1];
      (if id in jobs && QueueOf(jobs[id].priority) == q then [id] else []) + Front(jobs, ids[..|ids| - 1], q)
  }

  /** What a job's record becomes when it is moved. */
  function Awake(job: Job): Job {
    job.(scheduledAt := None, status := Pending)
  }

  /** The answered jobs have moved from the scheduled set to the heads of their lists; nothing else has changed. */
  ghost predicate MovedAll(s: Store, t: Store, ids: seq<Id>) {
    && t.jobs.Keys == s.jobs.Keys && t.dlq == s.dlq && t.unique == s.unique
    && (forall id :: id in s.jobs ==> t.jobs[id] == if id in ids then Awake(s.jobs[id]) else s.jobs[id])
    && t.scheduled == s.scheduled - (set id | id in ids)
    && forall q :: List(t.queues, q) == Front(s.jobs, ids, q) + List(s.queues, q)
  }

  lemma MoveOne(s: Store, id: Id)
    requires id in s.jobs && s.jobs[id].id == id
    ensures var t := MoveOp(s, id);
      && t.jobs == s.jobs[id := Awake(s.jobs[id])] && t.dlq == s.dlq && t.unique == s.unique
      && t.scheduled == s.scheduled - {id} && Heads(s, t, s.jobs[id])
  {
  }

  lemma {:induction false} MoveNext(s: Store, t: Store, ids: seq<Id>, rest: seq<Id>, id: Id)
    requires MovedAll(s, t, rest) && ids == rest + [id] && id !in rest && id in s.jobs && s.jobs[id].id == id
    ensures MovedAll(s, MoveOp(t, id), ids)
  {
    assert t.jobs[id] == s.jobs[id];
    MoveOne(t, id);
    assert (set x | x in ids) == (set x | x in rest) + {id};
    ListsNext(s, t, MoveOp(t, id), ids, rest, id);
  }

  lemma {:induction false} ListsNext(s: Store, t: Store, u: Store, ids: seq<Id>, rest: seq<Id>, id: Id)
    requires id in s.jobs && s.jobs[id].id == id && ids == rest + [id] && Heads(t, u, s.jobs[id])
    requires forall q :: List(t.queues, q) == Front(s.jobs, rest, q) + List(s.queues, q)
    ensures forall q :: List(u.queues, q) == Front(s.jobs, ids, q) + List(s.queues, q)
  {
    forall q ensures List(u.queues, q) == Front(s.jobs, ids, q) + List(s.queues, q) {
      FrontNext(s.jobs, ids, rest, id, q);
      assert List(t.queues, q) == Front(s.jobs, rest, q) + List(s.queues, q);
    }
  }

  lemma {:induction false} FrontNext(jobs: map<Id, Job>, ids: seq<Id>, rest: seq<Id>, id: Id, q: QueueName)
    requires id in jobs && ids == rest + [id]
    ensures Front(jobs, ids, q) ==
      (if QueueOf(jobs[id].priority) == q then [id] else []) + Front(jobs, rest, q)
  {
    assert ids[..|ids| - 1] == rest;
  }

  lemma {:induction false} MovesAll(s: Store, ids: seq<Id>)
    requires NoDup(ids) && forall id :: id in ids ==> id in s.jobs && s.jobs[id].id == id
    ensures MovedAll(s, MoveAll(s, ids), ids) && Moved(s, ids) == |ids|
  {
    if ids == [] {
      assert (set id | id in ids) == {};
    } else {
      var n := |ids| - 1;
      var rest, id := ids[..n], ids[n];
      assert ids == rest + [id] && id !in rest;
      MovesAll(s, rest);
      MoveNext(s, MoveAll(s, rest), ids, rest, id);
    }
  }

  /** The job is scheduled, and its second has come. */
  predicate IsDueAt(s: Store, id: Id, now: int) {
    id in s.scheduled && s.scheduled[id] <= now / SECOND
  }

  lemma DueOnRecord(p: Sound, ids: seq<Id>)
    requires forall id :: id in ids ==> id in p.v.store.scheduled
    ensures forall id :: id in ids ==> id in p.v.store.jobs && p.v.store.jobs[id].id == id
  {
    Open(p);
  }

  /**
    In every reachable state ProcessScheduled takes exactly the due jobs out of the scheduled set, makes
    them pending, puts them at the heads of the lists of their priorities and counts them all; everything
    else stays as it is.
   */
  lemma {:induction false} DueJobsMove(steps: seq<Step>, ids: seq<Id>, now: int)
    requires Valid(steps) && Enabled(Run(steps), ProcessScheduled(ids, now))
    ensures var (s, t) := (Run(steps).store, After(Run(steps), ProcessScheduled(ids, now)).store);
      && MovedAll(s, t, ids) && Moved(s, ids) == |ids|
      && forall id :: id in ids <==> IsDueAt(s, id, now)
  {
    var p := RunKeeps(steps);
    DueOnRecord(p, ids);
    MovesAll(Run(steps).store, ids);
  }
}
