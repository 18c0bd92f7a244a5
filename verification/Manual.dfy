/**
  What an operator does to jobs by hand (internal/jobs/queue/redis_queue.go): retrying a
  dead job and deleting a job, in any state that a run of whole operations reaches.
 */
module ManualOperations {
  import opened Prelude
  import opened JobStore
  import opened QueueOperations
  import opened UniqueKeys

  /** `m` is `l` without the entry of `id`, in the same order. */
  ghost predicate WithoutOne(l: seq<Id>, m: seq<Id>, id: Id) {
    if id in l then exists i :: 0 <= i < |l| && l[i] == id && m == l[..i] + l[i + 1..] else m == l
  }

  lemma WithoutHead(rest: seq<Id>, id: Id)
    ensures WithoutOne([id] + rest, rest, id)
  {
    var l := [id] + rest;
    assert l[0] == id && l[..0] + l[1..] == rest;
  }

  lemma WithoutLater(x: Id, rest: seq<Id>, m: seq<Id>, id: Id)
    requires WithoutOne(rest, m, id) && x != id
    ensures WithoutOne([x] + rest, [x] + m, id)
  {
    var l := [x] + rest;
    if id in rest {
      var i :| 0 <= i < |rest| && rest[i] == id && m == rest[..i] + rest[i + 1..];
      assert l[i + 1] == id && l[..i + 1] == [x] + rest[..i] && l[i + 2..] == rest[i + 1..];
      assert l[..i + 1] + l[i + 1 + 1..] == [x] + m;
    } else {
      assert id !in l;
    }
  }

  lemma {:induction false} RemoveAbsent(l: seq<Id>, id: Id)
    requires id !in l
    ensures RemoveAll(l, id) == l
  {
    if l != [] {
      RemoveAbsent(l[1..], id);
    }
  }

  lemma {:induction false} RemoveAllOne(l: seq<Id>, id: Id)
    requires NoDup(l)
    ensures WithoutOne(l, RemoveAll(l, id), id)
  {
    if l != [] {
      var x, rest := l[0], l[1..];
      assert l == [x] + rest;
      if x == id {
        assert id !in rest;
        RemoveAbsent(rest, id);
        WithoutHead(rest, id);
      } else {
        RemoveAllOne(rest, id);
        WithoutLater(x, rest, RemoveAll(rest, id), id);
      }
    }
  }

  lemma {:induction false} RemoveFirstOne(l: seq<Id>, id: Id)
    ensures WithoutOne(l, RemoveFirst(l, id), id)
  {
    if l != [] {
      var x, rest := l[0], l[1..];
      assert l == [x] + rest;
      if x == id {
        WithoutHead(rest, id);
      } else {
        RemoveFirstOne(rest, id);
        WithoutLater(x, rest, RemoveFirst(rest, id), id);
      }
    }
  }

  // ---------- Deleting a job ----------

  /** The job is in no list and no set, and there is no record of it. */
  ghost predicate Gone(s: Store, id: Id) {
    && id !in s.jobs && id !in s.scheduled && id !in s.dlq
    && forall q :: id !in List(s.queues, q)
  }

  /** Nothing but the job and its unique key is missing, and the lists keep their order. */
  ghost predicate OthersStay(s: Store, t: Store, id: Id)
    requires id in s.jobs
  {
    && t.jobs == s.jobs - {id} && t.scheduled == s.scheduled - {id}
    && WithoutOne(s.dlq, t.dlq, id)
    && (forall q :: WithoutOne(List(s.queues, q), List(t.queues, q), id))
    && forall key :: key in t.unique <==> key in s.unique && (key != s.jobs[id].uniqueKey || key == "")
  }

  /** A list of the store holds each of its jobs once, and no list but its own holds a job. */
  lemma ListsSound(p: Sound, q: QueueName, id: Id)
    requires id in p.v.store.jobs
    ensures NoDup(List(p.v.store.queues, q)) && NoDup(p.v.store.dlq)
    ensures id in List(p.v.store.queues, q) ==> q == QueueOf(p.v.store.jobs[id].priority)
  {
    Open(p);
    assert ListTracks(List(p.v.store.queues, q), p.loc, Queued(q));
  }

  lemma {:induction false} ListLoses(l: seq<Id>, id: Id)
    requires NoDup(l)
    ensures WithoutOne(l, RemoveAll(l, id), id) && id !in RemoveAll(l, id)
  {
    RemoveAllOne(l, id);
    RemovedAll(l, id);
  }

  lemma {:induction false} QueueLoses(p: Sound, id: Id, q: QueueName)
    requires id in p.v.store.jobs
    ensures var l := List(DeleteOp(p.v.store, id).0.queues, q);
      id !in l && WithoutOne(List(p.v.store.queues, q), l, id)
  {
    ListsSound(p, q, id);
    ListLoses(List(p.v.store.queues, q), id);
  }

  lemma {:induction false} DeletedGone(p: Sound, id: Id)
    requires id in p.v.store.jobs
    ensures Gone(DeleteOp(p.v.store, id).0, id) && OthersStay(p.v.store, DeleteOp(p.v.store, id).0, id)
  {
    ListsSound(p, LowQueue, id);
    ListLoses(p.v.store.dlq, id);
    forall q
      ensures id !in List(DeleteOp(p.v.store, id).0.queues, q)
      ensures WithoutOne(List(p.v.store.queues, q), List(DeleteOp(p.v.store, id).0.queues, q), id)
    {
      QueueLoses(p, id, q);
    }
  }

  /** In every reachable state: a deleted job, wherever it was, is gone for good, and nothing else changes. */
  lemma {:induction false} DeletedIsGone(steps: seq<Step>, id: Id)
    requires Valid(steps) && id in Run(steps).store.jobs
    ensures var (s, t) := (Run(steps).store, DeleteOp(Run(steps).store, id).0); Gone(t, id) && OthersStay(s, t, id)
  {
    var p := RunKeeps(steps);
    DeletedGone(p, id);
  }

  // ---------- Retrying a dead job ----------

  /** The job is live somewhere: in a list, in the scheduled set or with a worker. */
  ghost predicate Survives(v: Service, id: Id) {
    id in v.store.jobs && IsLive(v, id)
  }

  lemma RetryPlaces(v: Service, id: Id, newId: Id, now: int)
    requires id in v.store.jobs && newId !in v.store.jobs && newId != id
    requires v.store.jobs[id].uniqueKey == "" || v.store.jobs[id].uniqueKey !in v.store.unique
    ensures var t := After(v, RetryDead(id, newId, now));
      && newId in t.store.jobs
      && t.store.jobs[newId] == v.store.jobs[id].(id := newId, status := Pending, attempts := 0)
      && IsLive(t, newId)
  {
    var t := After(v, RetryDead(id, newId, now)).store;
    var job := t.jobs[newId];
    if newId !in t.scheduled {
      var q := QueueOf(job.priority);
      assert List(t.queues, q) == [newId] + List(v.store.queues, q);
      assert newId in List(t.queues, q);
    }
  }

  /**
    A retried job leaves the dead-letter list, and starts over under its new ID if and only if no live job
    has its unique key.  Otherwise the retry is refused after the entry has been removed, and the job is
    in no list any more.
   */
  lemma {:induction false} RetriedIff(steps: seq<Step>, id: Id, newId: Id, now: int)
    requires Valid(steps) && Enabled(Run(steps), RetryDead(id, newId, now)) && id in Run(steps).store.jobs
    ensures Retried(Run(steps), After(Run(steps), RetryDead(id, newId, now)), id, newId)
  {
    var p := RunKeeps(steps);
    DeadNotLive(steps, id);
    RetryRetries(p, id, newId, now);
  }

  ghost predicate Retried(v: Service, t: Service, id: Id, newId: Id)
    requires id in v.store.jobs
  {
    var (job, key) := (v.store.jobs[id], v.store.jobs[id].uniqueKey);
    && WithoutOne(v.store.dlq, t.store.dlq, id) && id !in t.store.dlq && !IsLive(t, id)
    && (Survives(t, newId) <==> key == "" || key !in v.store.unique)
    && (Survives(t, newId) ==> t.store.jobs[newId] == job.(id := newId, status := Pending, attempts := 0))
  }

  lemma DeadlistLoses(p: Sound, id: Id, newId: Id, now: int)
    requires id in p.v.store.jobs
    ensures var l := After(p.v, RetryDead(id, newId, now)).store.dlq; WithoutOne(p.v.store.dlq, l, id) && id !in l
  {
    ListsSound(p, LowQueue, id);
    FirstLoses(p.v.store.dlq, id);
    RetryRemoves(p.v, id, newId, now);
  }

  lemma {:induction false} FirstLoses(l: seq<Id>, id: Id)
    requires NoDup(l)
    ensures WithoutOne(l, RemoveFirst(l, id), id) && id !in RemoveFirst(l, id)
  {
    RemoveFirstOne(l, id);
    RemovedFirst(l, id);
  }

  lemma RetryRemoves(v: Service, id: Id, newId: Id, now: int)
    requires id in v.store.jobs
    ensures After(v, RetryDead(id, newId, now)).store.dlq == RemoveFirst(v.store.dlq, id)
  {
  }

  lemma {:induction false} RetryRetries(p: Sound, id: Id, newId: Id, now: int)
    requires id in p.v.store.jobs && newId !in p.v.store.jobs && !IsLive(p.v, id)
    ensures Retried(p.v, After(p.v, RetryDead(id, newId, now)), id, newId)
  {
    DeadlistLoses(p, id, newId, now);
    RetriedNotLive(p.v, id, newId, now);
    var key := p.v.store.jobs[id].uniqueKey;
    if key == "" || key !in p.v.store.unique {
      RetryPlaces(p.v, id, newId, now);
    } else {
      RetryRefused(p.v, id, newId, now);
    }
  }

  lemma RetryRefused(v: Service, id: Id, newId: Id, now: int)
    requires id in v.store.jobs && newId !in v.store.jobs
    requires v.store.jobs[id].uniqueKey != "" && v.store.jobs[id].uniqueKey in v.store.unique
    ensures After(v, RetryDead(id, newId, now)).store.jobs == v.store.jobs
  {
  }

  lemma BuriedFirst(v: Service, key: string)
    requires v.workers == map[0 := Work(0, true)] && v.store.jobs == map[0 := Started(Keyed(0, key))] && key != ""
    requires v.store.unique == map[key := 0]
    ensures Enabled(v, Fail(0, 0))
    ensures var t := After(v, Fail(0, 0));
      0 in t.store.dlq && t.store.unique == map[] && t.store.jobs.Keys == {0} && t.store.jobs[0].uniqueKey == key
  {
  }

  lemma KeyTakenAgain(v: Service, key: string)
    requires key != "" && v.store.unique == map[] && 1 !in v.store.jobs
    ensures Enabled(v, Enqueue(Keyed(1, key), 0))
    ensures var t := After(v, Enqueue(Keyed(1, key), 0));
      t.store.dlq == v.store.dlq && key in t.store.unique && t.store.jobs == v.store.jobs[1 := Keyed(1, key)]
  {
  }

  /** A dead job whose key is in use again is lost by the attempt to retry it. */
  lemma {:induction false} RetryLosesJob(key: string) returns (steps: seq<Step>)
    requires key != ""
    ensures Valid(steps) && Enabled(Run(steps), RetryDead(0, 2, 0)) && 0 in Run(steps).store.dlq
    ensures var t := After(Run(steps), RetryDead(0, 2, 0));
      0 !in t.store.dlq && !IsLive(t, 0) && !Survives(t, 2) && t.store.jobs == Run(steps).store.jobs
  {
    var o := FirstInHand(key);
    BuriedFirst(o.v, key);
    o := Reach(o, Fail(0, 0), After(o.v, Fail(0, 0)));
    KeyTakenAgain(o.v, key);
    o := Reach(o, Enqueue(Keyed(1, key), 0), After(o.v, Enqueue(Keyed(1, key), 0)));
    OpenReached(o);
    steps := o.steps;
    RetryRefused(o.v, 0, 2, 0);
    RetriedIff(steps, 0, 2, 0);
  }

  /** The record and its place after `k` further attempts that have all failed. */
  function Exhausted(s: Store, id: Id, k: nat, now: int): Store {
    if k == 0 then s
    else
      var t := Exhausted(s, id, k - 1, now);
      if id in t.jobs then FailOp(SetJob(t, Started(t.jobs[id])), id, now).0 else t
  }

  /** What `k` failures have made of a job that had made no attempt. */
  ghost predicate Spent(s: Store, t: Store, id: Id, k: nat)
    requires id in s.jobs
  {
    && id in t.jobs && t.jobs[id].id == id && t.jobs[id].attempts == k && t.jobs[id].maxRetries == s.jobs[id].maxRetries
    && (1 <= k < Max(1, s.jobs[id].maxRetries) ==> t.jobs[id].status == Retrying && id in t.scheduled)
    && (k == Max(1, s.jobs[id].maxRetries) ==> t.jobs[id].status == Status.Dead && id in t.dlq)
  }

  lemma FailureSpends(s: Store, t: Store, id: Id, k: nat, now: int)
    requires id in s.jobs && Spent(s, t, id, k) && k < Max(1, s.jobs[id].maxRetries)
    ensures Spent(s, FailOp(SetJob(t, Started(t.jobs[id])), id, now).0, id, k + 1)
  {
    var u := SetJob(t, Started(t.jobs[id]));
    assert u.jobs[id].attempts == k + 1 && u.jobs[id].maxRetries == s.jobs[id].maxRetries;
  }

  /** A job that has made no attempt dies with its max(1, MaxRetries)-th failure, and not before. */
  lemma {:induction false} FullAllowance(s: Store, id: Id, k: nat, now: int)
    requires id in s.jobs && s.jobs[id].id == id && s.jobs[id].attempts == 0
    requires k <= Max(1, s.jobs[id].maxRetries)
    ensures Spent(s, Exhausted(s, id, k, now), id, k)
  {
    if k > 0 {
      var t := Exhausted(s, id, k - 1, now);
      FullAllowance(s, id, k - 1, now);
      OneMoreFailure(s, id, k, now, t);
      FailureSpends(s, t, id, k - 1, now);
    }
  }

  lemma {:induction false} OneMoreFailure(s: Store, id: Id, k: nat, now: int, t: Store)
    requires k > 0 && t == Exhausted(s, id, k - 1, now) && id in t.jobs
    ensures Exhausted(s, id, k, now) == FailOp(SetJob(t, Started(t.jobs[id])), id, now).0
  {
  }

  /** A dead job that is retried by hand gets its full allowance of attempts again. */
  lemma {:induction false} RetriedStartsOver(steps: seq<Step>, id: Id, newId: Id, now: int, k: nat)
    requires Valid(steps) && Enabled(Run(steps), RetryDead(id, newId, now)) && id in Run(steps).store.jobs
    requires var v := Run(steps); v.store.jobs[id].uniqueKey == "" || v.store.jobs[id].uniqueKey !in v.store.unique
    requires 1 <= k <= Max(1, Run(steps).store.jobs[id].maxRetries)
    ensures var t := Exhausted(After(Run(steps), RetryDead(id, newId, now)).store, newId, k, now);
      newId in t.jobs && (t.jobs[newId].status == Status.Dead <==> k == Max(1, Run(steps).store.jobs[id].maxRetries))
  {
    RetriedIff(steps, id, newId, now);
    FullAllowance(After(Run(steps), RetryDead(id, newId, now)).store, newId, k, now);
  }
}
