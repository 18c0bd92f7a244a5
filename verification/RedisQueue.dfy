/**
  The queue's operations, each run to completion (internal/jobs/queue/redis_queue.go):
  what each does to the store as a function, and the object that does it with the
  source's loops and branches.
 */
module QueueOperations {
  import opened Prelude
  import opened RetryTiming
  import opened JobStore

  datatype Error = DuplicateJob | JobNotFound | QueueEmpty

  datatype Outcome<T> = Ok(value: T) | Err(error: Error)

  function EnqueueOp(s: Store, job: Job, now: int): (Store, Outcome<()>) {
    if job.uniqueKey != "" && job.uniqueKey in s.unique then (s, Err(DuplicateJob))
    else
      var t := SetJob(s, job);
      var u :=
        if job.scheduledAt.Some? && job.scheduledAt.value > now then ZAdd(t, job.id, Unix(job.scheduledAt.value))
        else LPush(t, QueueOf(job.priority), job.id);
      (SetUnique(u, job), Ok(()))
  }

  /** Polls the queues of `order` in turn; an ID without a record is dropped. */
  function DequeueOp(s: Store, order: seq<QueueName>): (Store, Outcome<Job>)
    decreases |order|
  {
    if order == [] then (s, Err(QueueEmpty))
    else
      var l := List(s.queues, order[0]);
      if l == [] then DequeueOp(s, order[1..])
      else
        var (id, t) := (l[|l| - 1], RPop(s, order[0]));
        if id !in t.jobs then DequeueOp(t, order[1..])
        else (SetJob(t, Started(t.jobs[id])), Ok(Started(t.jobs[id])))
  }

  function CompleteOp(s: Store, id: Id): (Store, Outcome<()>) {
    if id !in s.jobs then (s, Err(JobNotFound))
    else (DelUnique(SetJob(s, s.jobs[id].(status := Completed)), s.jobs[id]), Ok(()))
  }

  function FailOp(s: Store, id: Id, now: int): (Store, Outcome<()>) {
    if id !in s.jobs then (s, Err(JobNotFound))
    else
      var job := s.jobs[id];
      if job.attempts < job.maxRetries then
        var at := now + CalculateDelay(job.policy, job.attempts);
        (ZAdd(SetJob(s, job.(status := Retrying, scheduledAt := Some(at))), job.id, Unix(at)), Ok(()))
      else
        (DelUnique(PushDead(SetJob(s, job.(status := Status.Dead)), job.id), job), Ok(()))
  }

  /** One round of ProcessScheduled's loop. */
  function MoveOp(s: Store, id: Id): Store {
    if id !in s.jobs then s
    else
      var job := s.jobs[id].(scheduledAt := None, status := Pending);
      LPush(SetJob(ZRem(s, id), job), QueueOf(job.priority), job.id)
  }

  function MoveAll(s: Store, ids: seq<Id>): Store {
    if ids == [] then s else MoveOp(MoveAll(s, ids[..|ids| - 1]), ids[|ids| - 1])
  }

  /** How many of `ids` have a record when their turn comes. */
  function Moved(s: Store, ids: seq<Id>): nat {
    if ids == [] then 0
    else
      var n := |ids| - 1;
      Moved(s, ids[..n]) + if ids[n] in MoveAll(s, ids[..n]).jobs then 1 else 0
  }

  function RemoveAll(l: seq<Id>, id: Id): seq<Id> {
    if l == [] then [] else (if l[0] == id then [] else [l[0]]) + RemoveAll(l[1..], id)
  }

  function RemoveFirst(l: seq<Id>, id: Id): seq<Id> {
    if l == [] then [] else if l[0] == id then l[1..] else [l[0]] + RemoveFirst(l[1..], id)
  }

  /** The retried job starts over under a new ID; the old record stays behind. */
  function RetryDeadOp(s: Store, id: Id, newId: Id, now: int): (Store, Outcome<()>) {
    if id !in s.jobs then (s, Err(JobNotFound))
    else
      EnqueueOp(s.(dlq := RemoveFirst(s.dlq, id)),
                s.jobs[id].(id := newId, status := Pending, attempts := 0), now)
  }

  function DeleteOp(s: Store, id: Id): (Store, Outcome<()>) {
    if id !in s.jobs then (s, Err(JobNotFound))
    else
      var job := s.jobs[id];
      var q := QueueOf(job.priority);
      var t := Store(s.jobs - {id}, s.queues[q := RemoveAll(List(s.queues, q), id)],
                     s.scheduled - {id}, RemoveAll(s.dlq, id), s.unique);
      (DelUnique(t, job), Ok(()))
  }

  /** The pool's requeueJob: the attempt is taken back and the job pushed again. */
  function RequeueOp(s: Store, id: Id): Store {
    if id !in s.jobs then s
    else
      var job := Unstarted(s.jobs[id]);
      LPush(SetJob(s, job), QueueOf(job.priority), job.id)
  }

  // ---------- Which job is next ----------

  /** Every ID in a list has its record, under its own ID, and is in the list of its priority. */
  ghost predicate Filed(s: Store) {
    forall q, id :: id in List(s.queues, q) ==>
      id in s.jobs && s.jobs[id].id == id && QueueOf(s.jobs[id].priority) == q
  }

  /** The job is in some list, with a priority that workers know. */
  ghost predicate Offered(s: Store, id: Id) {
    id in s.jobs && 0 <= s.jobs[id].priority <= 3 && exists q :: id in List(s.queues, q)
  }

  /** No offered job is more urgent, and those of the same priority came later: this one is last in its list. */
  ghost predicate IsNext(s: Store, id: Id) {
    && Offered(s, id)
    && (forall x :: Offered(s, x) ==> s.jobs[x].priority <= s.jobs[id].priority)
    && var l := List(s.queues, QueueOf(s.jobs[id].priority)); l != [] && l[|l| - 1] == id
  }

  /** The lists without the last entry of job `id`'s own. */
  ghost predicate Popped(s: Store, id: Id, queues: map<QueueName, seq<Id>>)
    requires id in s.jobs && List(s.queues, QueueOf(s.jobs[id].priority)) != []
  {
    var q := QueueOf(s.jobs[id].priority);
    && List(queues, q) == List(s.queues, q)[..|List(s.queues, q)| - 1]
    && forall p :: p != q ==> List(queues, p) == List(s.queues, p)
  }

  /** The most urgent job is taken out, running and with its attempt counted; or none is offered. */
  ghost predicate TakesNext(s: Store, t: Store, r: Outcome<Job>) {
    match r
    case Err(error) => error == QueueEmpty && t == s && forall x :: !Offered(s, x)
    case Ok(job) =>
      && IsNext(s, job.id) && Popped(s, job.id, t.queues)
      && job == s.jobs[job.id].(status := Running, attempts := s.jobs[job.id].attempts + 1)
      && t == Store(s.jobs[job.id := job], t.queues, s.scheduled, s.dlq, s.unique)
  }

  /** The lists before the i-th are empty: no offered job is more urgent than those of the i-th. */
  lemma OfferedFrom(s: Store, i: nat, x: Id)
    requires Filed(s) && i <= |POLL_ORDER| && Offered(s, x)
    requires forall j :: 0 <= j < i ==> List(s.queues, POLL_ORDER[j]) == []
    ensures i < |POLL_ORDER| && s.jobs[x].priority <= 3 - i
  {
    var q :| x in List(s.queues, q);
    assert q == POLL_ORDER[3 - s.jobs[x].priority];
  }

  /** The last of the first list that is not empty is next. */
  lemma {:induction false} LastIsNext(s: Store, i: nat, id: Id)
    requires Filed(s) && i < |POLL_ORDER| && forall j :: 0 <= j < i ==> List(s.queues, POLL_ORDER[j]) == []
    requires var l := List(s.queues, POLL_ORDER[i]); l != [] && id == l[|l| - 1]
    ensures IsNext(s, id) && QueueOf(s.jobs[id].priority) == POLL_ORDER[i]
  {
    assert id in List(s.queues, POLL_ORDER[i]);
    assert s.jobs[id].priority == 3 - i;
    forall x | Offered(s, x) ensures s.jobs[x].priority <= s.jobs[id].priority {
      OfferedFrom(s, i, x);
    }
  }

  lemma {:induction false} PollsInOrder(s: Store, i: nat)
    requires Filed(s) && i <= |POLL_ORDER| && forall j :: 0 <= j < i ==> List(s.queues, POLL_ORDER[j]) == []
    ensures var (t, r) := DequeueOp(s, POLL_ORDER[i..]); TakesNext(s, t, r)
    decreases |POLL_ORDER| - i
  {
    if i == |POLL_ORDER| {
      forall x ensures !Offered(s, x) {
        if Offered(s, x) {
          OfferedFrom(s, i, x);
          assert false;
        }
      }
    } else {
      assert POLL_ORDER[i..][0] == POLL_ORDER[i] && POLL_ORDER[i..][1..] == POLL_ORDER[i + 1..];
      var l := List(s.queues, POLL_ORDER[i]);
      if l == [] {
        PollsInOrder(s, i + 1);
      } else {
        LastIsNext(s, i, l[|l| - 1]);
      }
    }
  }

  // ---------- The queue object ----------

  class RedisQueue {
    var jobs: map<Id, Job>
    var queues: map<QueueName, seq<Id>>
    var scheduled: map<Id, int>
    var dlq: seq<Id>
    var unique: map<string, Id>

    ghost function View(): Store
      reads this
    {
      Store(jobs, queues, scheduled, dlq, unique)
    }

    constructor ()
      ensures View() == EmptyStore()
    {
      jobs, queues, scheduled, dlq, unique := map[], map[], map[], [], map[];
    }

    method PushQueue(q: QueueName, id: Id)
      modifies this`queues
      ensures View() == LPush(old(View()), q, id)
    {
      queues := queues[q := [id] + List(queues, q)];
    }

    method Enqueue(job: Job, now: int) returns (r: Outcome<()>)
      modifies this
      ensures (View(), r) == EnqueueOp(old(View()), job, now)
    {
      if job.uniqueKey != "" && job.uniqueKey in unique {
        return Err(DuplicateJob);
      }
      jobs := jobs[job.id := job];
      if job.scheduledAt.Some? && job.scheduledAt.value > now {
        scheduled := scheduled[job.id := Unix(job.scheduledAt.value)];
      } else {
        PushQueue(QueueOf(job.priority), job.id);
      }
      if job.uniqueKey != "" {
        unique := unique[job.uniqueKey := job.id];
      }
      return Ok(());
    }

    /** An empty list of priorities means all four, most urgent first. */
    method Dequeue(priorities: seq<int>) returns (r: Outcome<Job>)
      modifies this
      ensures (View(), r) == DequeueOp(old(View()), PollOrder(priorities))
      ensures priorities == [] && Filed(old(View())) ==> TakesNext(old(View()), View(), r)
    {
      var order := PollOrder(priorities);
      if priorities == [] && Filed(View()) {
        PollsInOrder(View(), 0);
        assert POLL_ORDER[0..] == POLL_ORDER;
      }
      var i := 0;
      while i < |order|
        invariant 0 <= i <= |order|
        invariant DequeueOp(View(), order[i..]) == DequeueOp(old(View()), order)
      {
        var q := order[i];
        assert order[i..][0] == q && order[i..][1..] == order[i + 1..];
        var l := List(queues, q);
        if l != [] {
          var id := l[|l| - 1];
          queues := queues[q := l[..|l| - 1]];
          if id in jobs {
            var job := Started(jobs[id]);
            jobs := jobs[job.id := job];
            return Ok(job);
          }
        }
        i := i + 1;
      }
      return Err(QueueEmpty);
    }

    method Complete(id: Id) returns (r: Outcome<()>)
      modifies this
      ensures (View(), r) == CompleteOp(old(View()), id)
    {
      if id !in jobs {
        return Err(JobNotFound);
      }
      var job := jobs[id].(status := Completed);
      jobs := jobs[job.id := job];
      if job.uniqueKey != "" {
        unique := unique - {job.uniqueKey};
      }
      return Ok(());
    }

    method Fail(id: Id, now: int) returns (r: Outcome<()>)
      modifies this
      ensures (View(), r) == FailOp(old(View()), id, now)
    {
      if id !in jobs {
        return Err(JobNotFound);
      }
      var job := jobs[id];
      if job.attempts < job.maxRetries {
        var delay := ComputeDelay(job.policy, job.attempts);
        var at := now + delay;
        job := job.(status := Retrying, scheduledAt := Some(at));
        jobs := jobs[job.id := job];
        scheduled := scheduled[job.id := Unix(at)];
      } else {
        job := job.(status := Status.Dead);
        jobs := jobs[job.id := job];
        dlq := [job.id] + dlq;
        if job.uniqueKey != "" {
          unique := unique - {job.uniqueKey};
        }
      }
      return Ok(());
    }

    /** `due` is the answer of ZRANGEBYSCORE, in whatever order. */
    method ProcessScheduled(due: seq<Id>, now: int) returns (processed: nat)
      requires IsDue(scheduled, Unix(now), due)
      modifies this
      ensures View() == MoveAll(old(View()), due)
      ensures processed == Moved(old(View()), due)
    {
      processed := 0;
      for i := 0 to |due|
        invariant View() == MoveAll(old(View()), due[..i])
        invariant processed == Moved(old(View()), due[..i])
      {
        assert due[..i + 1][..i] == due[..i];
        var id := due[i];
        if id in jobs {
          var job := jobs[id].(scheduledAt := None, status := Pending);
          scheduled := scheduled - {id};
          jobs := jobs[job.id := job];
          PushQueue(QueueOf(job.priority), job.id);
          processed := processed + 1;
        }
      }
      assert due[..|due|] == due;
    }

    method RetryDLQJob(id: Id, newId: Id, now: int) returns (r: Outcome<()>)
      modifies this
      ensures (View(), r) == RetryDeadOp(old(View()), id, newId, now)
    {
      if id !in jobs {
        return Err(JobNotFound);
      }
      dlq := RemoveFirst(dlq, id);
      r := Enqueue(jobs[id].(id := newId, status := Pending, attempts := 0), now);
    }

    method DeleteJob(id: Id) returns (r: Outcome<()>)
      modifies this
      ensures (View(), r) == DeleteOp(old(View()), id)
    {
      if id !in jobs {
        return Err(JobNotFound);
      }
      var job := jobs[id];
      var q := QueueOf(job.priority);
      jobs := jobs - {id};
      queues := queues[q := RemoveAll(List(queues, q), id)];
      scheduled := scheduled - {id};
      dlq := RemoveAll(dlq, id);
      if job.uniqueKey != "" {
        unique := unique - {job.uniqueKey};
      }
      return Ok(());
    }
  }

  function PollOrder(priorities: seq<int>): seq<QueueName> {
    if priorities == [] then POLL_ORDER
    else seq(|priorities|, i requires 0 <= i < |priorities| => QueueOf(priorities[i]))
  }
}
