/**
  One round of a pool worker (internal/jobs/worker/pool.go): dequeue, idempotency
  check, job lock, handler, and the outcome's bookkeeping.
 */
module WorkerPools {
  import opened Prelude
  import opened RetryTiming
  import opened JobStore
  import opened QueueOperations
  import opened UniqueKeys

  /** What a round does not decide itself: the job lock, the handler table, the handler and the clock. */
  datatype Chances = Chances(lockFree: bool, hasHandler: bool, succeeds: bool, now: int)

  /** The round as steps of the service. */
  function Round(v: Service, w: nat, c: Chances): Service {
    var v1 := After(v, Dequeue(w));
    if w !in v1.workers then v1 else Rest(v1, w, c)
  }

  /** The round once a job has been dequeued. */
  function Rest(v: Service, w: nat, c: Chances): Service {
    var v1 := After(v, Check(w));
    if w !in v1.workers then v1 else Ending(v1, w, c)
  }

  /** The end of a round; Mark has nothing to do unless a keyed job has succeeded. */
  function Ending(v: Service, w: nat, c: Chances): Service {
    After(After(v, Finish(w, c)), Mark(w))
  }

  /** How a round ends for a job that passed the idempotency check. */
  function Finish(w: nat, c: Chances): Step {
    if !c.lockFree then Requeue(w)
    else if c.hasHandler && c.succeeds then Succeed(w)
    else Fail(w, c.now)
  }

  /** What has become of a round. */
  datatype Tally = Nothing | Processed | Failed | Skipped

  function TallyOf(v: Service, c: Chances): Tally {
    var r := DequeueOp(v.store, POLL_ORDER).1;
    if r.Err? then Nothing
    else if r.value.uniqueKey != "" && r.value.uniqueKey in v.completed then Skipped
    else Verdict(c)
  }

  function Verdict(c: Chances): Tally {
    if !c.lockFree then Skipped else if c.hasHandler && c.succeeds then Processed else Tally.Failed
  }

  // ---------- What a round comes to ----------

  /** The unique keys without the job's. */
  ghost predicate Freed(unique: map<string, Id>, job: Job, after: map<string, Id>) {
    after == if job.uniqueKey == "" then unique else unique - {job.uniqueKey}
  }

  /** The job is as it was before it was dequeued, and first in its list, behind all others of its priority. */
  ghost predicate PutBack(s: Store, t: Store, id: Id)
    requires id in s.jobs && List(s.queues, QueueOf(s.jobs[id].priority)) != []
  {
    var (q, job) := (QueueOf(s.jobs[id].priority), s.jobs[id]);
    && t == Store(s.jobs[id := job.(status := Pending)], t.queues, s.scheduled, s.dlq, s.unique)
    && List(t.queues, q) == [id] + List(s.queues, q)[..|List(s.queues, q)| - 1]
    && forall p :: p != q ==> List(t.queues, p) == List(s.queues, p)
  }

  /** The job is out of its list, completed, with its attempt counted and its unique key free. */
  ghost predicate CompletedIn(s: Store, t: Store, id: Id)
    requires id in s.jobs && List(s.queues, QueueOf(s.jobs[id].priority)) != []
  {
    var job := s.jobs[id];
    && Popped(s, id, t.queues)
    && t == Store(s.jobs[id := job.(status := Completed, attempts := job.attempts + 1)],
                  t.queues, s.scheduled, s.dlq, t.unique)
    && Freed(s.unique, job, t.unique)
  }

  /** The job is out of its list, waiting for its next attempt, or dead if this was its last. */
  ghost predicate FailedIn(s: Store, t: Store, id: Id, now: int)
    requires id in s.jobs && List(s.queues, QueueOf(s.jobs[id].priority)) != []
  {
    var job := s.jobs[id].(attempts := s.jobs[id].attempts + 1);
    && Popped(s, id, t.queues)
    && if job.attempts < job.maxRetries then
         var at := now + CalculateDelay(job.policy, job.attempts);
         t == Store(s.jobs[id := job.(status := Retrying, scheduledAt := Some(at))],
                    t.queues, s.scheduled[id := at / 1_000_000_000], s.dlq, s.unique)
       else
         && t == Store(s.jobs[id := job.(status := Status.Dead)], t.queues, s.scheduled, [id] + s.dlq, t.unique)
         && Freed(s.unique, job, t.unique)
  }

  /**
    What a round does to the job that is next: skipped as completed before, put back because its lock is
    taken, failed without a handler or by it, or completed and remembered by its unique key.
   */
  ghost predicate Treated(v: Service, t: Service, id: Id, c: Chances, r: Tally)
    requires IsNext(v.store, id)
  {
    var key := v.store.jobs[id].uniqueKey;
    && t.workers == v.workers && t.marking == v.marking
    && if key != "" && key in v.completed then
         r == Skipped && CompletedIn(v.store, t.store, id) && t.completed == v.completed && t.successes == v.successes
       else if !c.lockFree then
         r == Skipped && PutBack(v.store, t.store, id) && t.completed == v.completed && t.successes == v.successes
       else if c.hasHandler && c.succeeds then
         && r == Processed && CompletedIn(v.store, t.store, id)
         && t.completed == v.completed + (if key == "" then {} else {key})
         && t.successes == v.successes + (if key == "" then [] else [key])
       else
         && r == Tally.Failed && FailedIn(v.store, t.store, id, c.now)
         && t.completed == v.completed && t.successes == v.successes
  }

  /** The round treats the most urgent job; or none is offered and nothing happens. */
  ghost predicate RoundTreats(v: Service, t: Service, c: Chances, r: Tally) {
    if r.Nothing? then t == v && forall x :: !Offered(v.store, x)
    else exists id :: IsNext(v.store, id) && Treated(v, t, id, c, r)
  }

  /** The store after the job that is next has been dequeued. */
  ghost predicate Taken(s: Store, t: Store, id: Id) {
    && IsNext(s, id) && Popped(s, id, t.queues) && s.jobs[id].id == id
    && t == Store(s.jobs[id := Started(s.jobs[id])], t.queues, s.scheduled, s.dlq, s.unique)
  }

  lemma RequeuePutsBack(s: Store, t: Store, id: Id)
    requires Taken(s, t, id)
    ensures PutBack(s, RequeueOp(t, id), id)
  {
    assert RequeueOp(t, id).jobs == s.jobs[id := s.jobs[id].(status := Pending)];
  }

  lemma CompleteCompletes(s: Store, t: Store, id: Id)
    requires Taken(s, t, id)
    ensures CompletedIn(s, CompleteOp(t, id).0, id)
  {
    assert CompleteOp(t, id).0.jobs ==
      s.jobs[id := s.jobs[id].(status := Completed, attempts := s.jobs[id].attempts + 1)];
  }

  lemma FailFails(s: Store, t: Store, id: Id, now: int)
    requires Taken(s, t, id)
    ensures FailedIn(s, FailOp(t, id, now).0, id, now)
  {
    var u := FailOp(t, id, now).0;
    assert u.jobs == s.jobs[id := u.jobs[id]];
  }

  /** A service whose worker `w` has just dequeued job `id` of `v`. */
  ghost predicate HasTaken(v: Service, v1: Service, w: nat, id: Id) {
    && Taken(v.store, v1.store, id) && w !in v.workers && w !in v.marking
    && v1 == v.(store := v1.store, workers := v.workers[w := Work(id, false)])
  }

  lemma {:induction false} DequeueTaken(v: Service, w: nat, c: Chances)
    requires Filed(v.store) && w !in v.workers && w !in v.marking
    ensures var v1 := After(v, Dequeue(w));
      if TallyOf(v, c).Nothing? then v1 == v && forall x :: !Offered(v.store, x)
      else exists id :: HasTaken(v, v1, w, id) && TallyOf(v, c) == TallyFor(v, id, c)
  {
    PollsInOrder(v.store, 0);
    assert POLL_ORDER[0..] == POLL_ORDER;
    var (t, r) := DequeueOp(v.store, POLL_ORDER);
    if r.Ok? {
      assert HasTaken(v, After(v, Dequeue(w)), w, r.value.id);
    }
  }

  function TallyFor(v: Service, id: Id, c: Chances): Tally
    requires id in v.store.jobs
  {
    var key := v.store.jobs[id].uniqueKey;
    if key != "" && key in v.completed then Skipped else Verdict(c)
  }

  lemma {:induction false} RestTreats(v: Service, v1: Service, w: nat, id: Id, c: Chances)
    requires HasTaken(v, v1, w, id)
    ensures Treated(v, Rest(v1, w, c), id, c, TallyFor(v, id, c))
  {
    var key := v.store.jobs[id].uniqueKey;
    if key != "" && key in v.completed {
      CompleteCompletes(v.store, v1.store, id);
      assert Rest(v1, w, c) == v.(store := CompleteOp(v1.store, id).0) by {
        assert v.workers[w := Work(id, false)] - {w} == v.workers;
      }
    } else {
      var v2 := v1.(workers := v.workers[w := Work(id, true)]);
      assert After(v1, Check(w)) == v2;
      EndingTreats(v, v1, v2, w, id, c);
    }
  }

  lemma {:induction false} EndingTreats(v: Service, v1: Service, v2: Service, w: nat, id: Id, c: Chances)
    requires HasTaken(v, v1, w, id) && v2 == v1.(workers := v.workers[w := Work(id, true)])
    requires v.store.jobs[id].uniqueKey == "" || v.store.jobs[id].uniqueKey !in v.completed
    ensures Treated(v, Ending(v2, w, c), id, c, Verdict(c))
  {
    assert v.workers[w := Work(id, true)] - {w} == v.workers;
    if !c.lockFree {
      RequeuePutsBack(v.store, v1.store, id);
      MarkEffect(After(v2, Requeue(w)), w);
    } else if c.hasHandler && c.succeeds {
      CompleteCompletes(v.store, v1.store, id);
      SuccessEffect(v2, w);
    } else {
      FailFails(v.store, v1.store, id, c.now);
      MarkEffect(After(v2, Fail(w, c.now)), w);
    }
  }

  /** A success with its mark. */
  lemma SuccessEffect(v: Service, w: nat)
    requires w in v.workers && w !in v.marking
    ensures var key := KeyOf(v.store, v.workers[w].id);
      After(After(v, Succeed(w)), Mark(w)) ==
      v.(store := CompleteOp(v.store, v.workers[w].id).0, workers := v.workers - {w},
        completed := v.completed + (if key == "" then {} else {key}),
        successes := v.successes + (if key == "" then [] else [key]))
  {
    var key := KeyOf(v.store, v.workers[w].id);
    assert v.marking[w := key] - {w} == v.marking;
  }

  lemma {:induction false} RoundSettles(v: Service, w: nat, c: Chances)
    requires Filed(v.store) && w !in v.workers && w !in v.marking
    ensures RoundTreats(v, Round(v, w, c), c, TallyOf(v, c))
  {
    DequeueTaken(v, w, c);
    var v1 := After(v, Dequeue(w));
    if !TallyOf(v, c).Nothing? {
      var id :| HasTaken(v, v1, w, id) && TallyOf(v, c) == TallyFor(v, id, c);
      RestTreats(v, v1, w, id, c);
    }
  }

  /** Every listed ID being on record, the round treats the job that is next. */
  ghost predicate Lawful(v: Service, t: Service, c: Chances, r: Tally) {
    forall k :: Asked(k) ==> Filed(v.store) ==> RoundTreats(v, t, c, r)
  }

  lemma {:induction false} RoundLaw(v: Service, w: nat, c: Chances)
    requires w !in v.workers && w !in v.marking
    ensures Lawful(v, Round(v, w, c), c, TallyOf(v, c))
  {
    if Filed(v.store) {
      RoundSettles(v, w, c);
    }
  }

  class WorkerPool {
    const queue: RedisQueue
    var completed: set<string>
    var processedJobs: int
    var failedJobs: int
    var skippedJobs: int
    ghost var workers: map<nat, Work>
    ghost var marking: map<nat, string>
    ghost var successes: seq<string>

    constructor (q: RedisQueue)
      ensures queue == q && completed == {} && workers == map[] && marking == map[] && successes == []
      ensures processedJobs == failedJobs == skippedJobs == 0
    {
      queue, completed := q, {};
      processedJobs, failedJobs, skippedJobs := 0, 0, 0;
      workers, marking, successes := map[], map[], [];
    }

    ghost function Value(): Service
      reads this, queue
    {
      Service(queue.View(), workers, marking, completed, successes)
    }

    /** True if the job was completed before; it is then completed unrun. */
    method CheckIdempotency(job: Job, ghost w: nat) returns (skip: bool)
      requires w in workers && workers[w] == Work(job.id, false)
      requires job.id in queue.jobs && queue.jobs[job.id] == job
      modifies this, queue
      ensures Value() == After(old(Value()), Check(w))
      ensures if skip then w !in workers else w in workers && workers[w] == Work(job.id, true)
      ensures !skip ==> queue.jobs == old(queue.jobs)
      ensures marking == old(marking)
      ensures skip <==> job.uniqueKey != "" && job.uniqueKey in old(completed)
      ensures processedJobs == old(processedJobs) && failedJobs == old(failedJobs)
      ensures skippedJobs == old(skippedJobs) + if skip then 1 else 0
    {
      if job.uniqueKey != "" && job.uniqueKey in completed {
        var _ := queue.Complete(job.id);
        skippedJobs := skippedJobs + 1;
        workers := workers - {w};
        return true;
      }
      workers := workers[w := Work(job.id, true)];
      return false;
    }

    method RequeueJob(job: Job, ghost w: nat)
      requires w in workers && workers[w] == Work(job.id, true)
      requires job.id in queue.jobs && queue.jobs[job.id] == job
      modifies this`workers, queue
      ensures Value() == After(old(Value()), Requeue(w))
    {
      var j := Unstarted(job);
      queue.jobs := queue.jobs[j.id := j];
      queue.PushQueue(QueueOf(j.priority), j.id);
      workers := workers - {w};
    }

    method ExecuteJob(job: Job, succeeds: bool, now: int, ghost w: nat)
      requires w in workers && workers[w] == Work(job.id, true) && w !in marking
      requires job.id in queue.jobs && queue.jobs[job.id] == job
      modifies this, queue
      ensures Value() == After(After(old(Value()), if succeeds then Succeed(w) else Fail(w, now)), Mark(w))
      ensures processedJobs == old(processedJobs) + if succeeds then 1 else 0
      ensures failedJobs == old(failedJobs) + if succeeds then 0 else 1
      ensures skippedJobs == old(skippedJobs)
    {
      ghost var before := marking;
      workers := workers - {w};
      if !succeeds {
        var _ := queue.Fail(job.id, now);
        failedJobs := failedJobs + 1;
        return;
      }
      var _ := queue.Complete(job.id);
      processedJobs := processedJobs + 1;
      if job.uniqueKey != "" {
        successes := successes + [job.uniqueKey];
        completed := completed + {job.uniqueKey};
        assert before[w := job.uniqueKey] - {w} == before;
      }
    }

    /** The job lock, the handler lookup and what follows. */
    method LockAndExecute(job: Job, c: Chances, ghost w: nat) returns (r: Tally)
      requires w in workers && workers[w] == Work(job.id, true) && w !in marking
      requires job.id in queue.jobs && queue.jobs[job.id] == job
      modifies this, queue
      ensures Value() == Ending(old(Value()), w, c) && r == Verdict(c)
      ensures processedJobs == old(processedJobs) + if r.Processed? then 1 else 0
      ensures failedJobs == old(failedJobs) + if r.Failed? then 1 else 0
      ensures skippedJobs == old(skippedJobs) + if r.Skipped? then 1 else 0
    {
      if !c.lockFree {
        RequeueJob(job, w);
        skippedJobs := skippedJobs + 1;
        return Skipped;
      }
      if !c.hasHandler {
        ExecuteJob(job, false, c.now, w);
        return Tally.Failed;
      }
      ExecuteJob(job, c.succeeds, c.now, w);
      return if c.succeeds then Processed else Tally.Failed;
    }

    method ProcessNextJob(c: Chances, ghost w: nat) returns (r: Tally)
      requires w !in workers && w !in marking
      modifies this, queue
      ensures Value() == Round(old(Value()), w, c) && r == TallyOf(old(Value()), c)
      ensures Lawful(old(Value()), Value(), c, r)
      ensures processedJobs == old(processedJobs) + if r.Processed? then 1 else 0
      ensures failedJobs == old(failedJobs) + if r.Failed? then 1 else 0
      ensures skippedJobs == old(skippedJobs) + if r.Skipped? then 1 else 0
    {
      ghost var v := Value();
      RoundLaw(v, w, c);
      var next := queue.Dequeue([]);
      if next.Err? {
        return Nothing;
      }
      var job := next.value;
      workers := workers[w := Work(job.id, false)];
      DequeuedRecord(v.store, POLL_ORDER);
      assert Value() == After(v, Dequeue(w));
      var skip := CheckIdempotency(job, w);
      if skip {
        return Skipped;
      }
      r := LockAndExecute(job, c, w);
    }
  }

  /** A dequeued job is the one on record. */
  lemma {:induction false} DequeuedRecord(s: Store, order: seq<QueueName>)
    ensures var (t, r) := DequeueOp(s, order);
      r.Ok? ==> r.value.id in t.jobs && t.jobs[r.value.id] == r.value
    decreases |order|
  {
    if order != [] {
      var l := List(s.queues, order[0]);
      DequeuedRecord(if l == [] then s else RPop(s, order[0]), order[1..]);
    }
  }

  lemma CheckEffect(v: Service, w: nat)
    requires w in v.workers
    ensures w in After(v, Check(w)).workers ==> After(v, Check(w)).workers[w].cleared
    ensures After(v, Check(w)).marking == v.marking
  {
  }

  lemma FinishEffect(v: Service, w: nat, c: Chances)
    requires w in v.workers && w !in v.marking
    ensures var t := After(v, Finish(w, c)); w !in t.workers && t.marking - {w} == v.marking
  {
  }

  lemma DequeueEffect(v: Service, w: nat)
    requires w !in v.workers
    ensures w in After(v, Dequeue(w)).workers ==> !After(v, Dequeue(w)).workers[w].cleared
    ensures After(v, Dequeue(w)).marking == v.marking
  {
  }

  /** No step but a check can be out of order, and none is while no mark is pending. */
  lemma {:induction false} OrderlySnoc(steps: seq<Step>, step: Step)
    requires Valid(steps) && Enabled(Run(steps), step) && AllOrderly(steps, 0)
    requires step.Check? ==> Run(steps).marking == map[]
    ensures Valid(steps + [step]) && AllOrderly(steps + [step], 0) && Run(steps + [step]) == After(Run(steps), step)
  {
    Snoc(steps, step);
    var all := steps + [step];
    forall k | 0 <= k < |all| ensures Orderly(Run(all[..k]), all[k]) {
      assert all[..k] == steps[..k];
      assert k == |steps| ==> steps[..k] == steps;
    }
  }

  lemma MarkEffect(v: Service, w: nat)
    ensures var t := After(v, Mark(w)); t.workers == v.workers && t.marking == v.marking - {w}
    ensures w !in v.marking ==> After(v, Mark(w)) == v
  {
  }

  lemma {:induction false} EndingIsRun(steps: seq<Step>, w: nat, c: Chances) returns (all: seq<Step>)
    requires Valid(steps) && AllOrderly(steps, 0) && Run(steps).marking == map[]
    requires w in Run(steps).workers && Run(steps).workers[w].cleared
    ensures Valid(all) && AllOrderly(all, 0) && Run(all) == Ending(Run(steps), w, c)
    ensures w !in Run(all).workers && Run(all).marking == map[]
  {
    var v := After(Run(steps), Finish(w, c));
    FinishEffect(Run(steps), w, c);
    MarkEffect(v, w);
    OrderlySnoc(steps, Finish(w, c));
    all := steps + [Finish(w, c)];
    if w in v.marking {
      OrderlySnoc(all, Mark(w));
      all := all + [Mark(w)];
    }
  }

  lemma {:induction false} RestIsRun(steps: seq<Step>, w: nat, c: Chances) returns (all: seq<Step>)
    requires Valid(steps) && AllOrderly(steps, 0) && Run(steps).marking == map[]
    requires w in Run(steps).workers && !Run(steps).workers[w].cleared
    ensures Valid(all) && AllOrderly(all, 0) && Run(all) == Rest(Run(steps), w, c)
    ensures w !in Run(all).workers && Run(all).marking == map[]
  {
    OrderlySnoc(steps, Check(w));
    CheckEffect(Run(steps), w);
    all := steps + [Check(w)];
    if w in Run(all).workers {
      all := EndingIsRun(all, w, c);
    }
  }

  /**
    A round that starts while nobody is between Complete and MarkCompleted is an orderly run of the
    service: one success per key and the exact unique index survive it.
   */
  lemma {:induction false} RoundIsRun(steps: seq<Step>, w: nat, c: Chances) returns (all: seq<Step>)
    requires Valid(steps) && AllOrderly(steps, 0) && Run(steps).marking == map[] && w !in Run(steps).workers
    ensures Valid(all) && AllOrderly(all, 0) && Run(all) == Round(Run(steps), w, c)
    ensures w !in Run(all).workers && Run(all).marking == map[]
  {
    OrderlySnoc(steps, Dequeue(w));
    DequeueEffect(Run(steps), w);
    all := steps + [Dequeue(w)];
    if w in Run(all).workers {
      all := RestIsRun(all, w, c);
    }
  }
}
