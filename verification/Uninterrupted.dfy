/**
  The command-by-command actors refine the whole-operation functions: an operation
  whose commands are not interleaved with anybody else's does exactly what its
  function says (internal/jobs/queue/redis_queue.go, internal/jobs/worker/pool.go).
 */
module UninterruptedOperations {
  import opened RetryTiming
  import opened JobStore
  import opened JobWorkers
  import opened QueueOperations

  /** Up to `n` steps of actor `a` with nobody else moving. */
  function Alone(s: System, a: nat, n: nat, now: int): System
    decreases n
  {
    if n == 0 || a !in s.actors then s else Alone(AfterAdvance(s, a, true, now), a, n - 1, now)
  }

  /** Up to `n` steps of the scheduled processor with nobody else moving. */
  function MoverAlone(s: System, n: nat): System
    decreases n
  {
    if n == 0 then s else MoverAlone(AfterMove(s), n - 1)
  }

  lemma {:induction false} OneStep(s: System, a: nat, n: nat, now: int)
    requires a in s.actors
    ensures Alone(s, a, n + 1, now) == Alone(AfterAdvance(s, a, true, now), a, n, now)
  {
  }

  lemma {:induction false} Stop(s: System, a: nat, now: int)
    ensures Alone(s, a, 0, now) == s
  {
  }

  // ---------- Enqueue ----------

  /** Enqueue from its first command to its last; a refused duplicate has no more to do after the check. */
  function EnqueuedAlone(s: System, a: nat, job: Job, now: int): System {
    var checked := After(s, BeginEnqueue(a, job.uniqueKey, now));
    if a !in checked.actors then checked else Alone(After(checked, StoreJob(a, job, now)), a, 2, now)
  }

  lemma {:induction false} EnqueueAlone(s: System, a: nat, job: Job, now: int)
    requires a !in s.actors
    ensures a !in EnqueuedAlone(s, a, job, now).actors
    ensures EnqueuedAlone(s, a, job, now).store == EnqueueOp(s.store, job, now).0
    ensures EnqueueOp(s.store, job, now).1 ==
            if a in After(s, BeginEnqueue(a, job.uniqueKey, now)).actors then Ok(()) else Err(DuplicateJob)
  {
    var checked := After(s, BeginEnqueue(a, job.uniqueKey, now));
    if a in checked.actors {
      var s0 := After(checked, StoreJob(a, job, now));
      var s1 := AfterAdvance(s0, a, true, now);
      OneStep(s0, a, 1, now);
      OneStep(s1, a, 0, now);
      Stop(AfterAdvance(s1, a, true, now), a, now);
    }
  }

  // ---------- Dequeue ----------

  lemma {:induction false} TakeAlone(s: System, a: nat, i: nat, now: int)
    requires i < |POLL_ORDER| && List(s.store.queues, POLL_ORDER[i]) != []
    requires a in s.actors && s.actors[a] == Free(Polling(i))
    ensures var (l, r) := (List(s.store.queues, POLL_ORDER[i]), RPop(s.store, POLL_ORDER[i]));
      var id := l[|l| - 1];
      if id in r.jobs then
        Alone(s, a, 3, now) == Rewritten(s.(store := r), a, Started(r.jobs[id]), Dequeued)
      else Alone(s, a, 2, now) == To(s, a, Free(Polling(i + 1))).(store := r)
  {
    var s1 := AfterAdvance(s, a, true, now);
    var s2 := AfterAdvance(s1, a, true, now);
    OneStep(s, a, 2, now);
    OneStep(s1, a, 1, now);
    OneStep(s2, a, 0, now);
    OneStep(s, a, 1, now);
    OneStep(s1, a, 0, now);
    Stop(s2, a, now);
    Stop(AfterAdvance(s2, a, true, now), a, now);
  }

  lemma {:induction false} Chain(s: System, a: nat, m: nat, n: nat, now: int)
    ensures Alone(Alone(s, a, m, now), a, n, now) == Alone(s, a, m + n, now)
    decreases m
  {
    if m > 0 && a in s.actors {
      Chain(AfterAdvance(s, a, true, now), a, m - 1, n, now);
    }
  }

  /** Polling the queues from the i-th on, alone, is DequeueOp on the rest of the poll order. */
  ghost predicate Dequeues(s: System, a: nat, order: seq<QueueName>, t: System) {
    var (store, r) := DequeueOp(s.store, order);
    && t.store == store
    && if r.Ok? then a in t.actors && t.actors[a] == HasJob(r.value, Counted, Dequeued) else a !in t.actors
  }

  lemma {:induction false} EmptyPoll(s: System, a: nat, i: nat, now: int)
    requires i < |POLL_ORDER| && List(s.store.queues, POLL_ORDER[i]) == []
    requires a in s.actors && s.actors[a] == Free(Polling(i))
    ensures AfterAdvance(s, a, true, now) == To(s, a, Free(Polling(i + 1)))
    ensures DequeueOp(s.store, POLL_ORDER[i..]) == DequeueOp(s.store, POLL_ORDER[i + 1..])
  {
    var order := POLL_ORDER[i..];
    assert order[0] == POLL_ORDER[i] && order[1..] == POLL_ORDER[i + 1..];
  }

  lemma {:induction false} FullPoll(s: System, i: nat)
    requires i < |POLL_ORDER| && List(s.store.queues, POLL_ORDER[i]) != []
    ensures var (l, r) := (List(s.store.queues, POLL_ORDER[i]), RPop(s.store, POLL_ORDER[i]));
      var id := l[|l| - 1];
      DequeueOp(s.store, POLL_ORDER[i..]) ==
      if id in r.jobs then (SetJob(r, Started(r.jobs[id])), Ok(Started(r.jobs[id])))
      else DequeueOp(r, POLL_ORDER[i + 1..])
  {
    var order := POLL_ORDER[i..];
    assert order[0] == POLL_ORDER[i] && order[1..] == POLL_ORDER[i + 1..];
  }

  /** A queue that is not empty either ends the poll in three steps, or sends it on to the next queue in two. */
  lemma {:induction false} FullPollTakes(s: System, a: nat, i: nat, now: int) returns (taken: bool)
    requires i < |POLL_ORDER| && List(s.store.queues, POLL_ORDER[i]) != []
    requires a in s.actors && s.actors[a] == Free(Polling(i))
    ensures taken ==> Dequeues(s, a, POLL_ORDER[i..], Alone(s, a, 3, now))
    ensures !taken ==> var t := Alone(s, a, 2, now);
      && a in t.actors && t.actors[a] == Free(Polling(i + 1))
      && DequeueOp(s.store, POLL_ORDER[i..]) == DequeueOp(t.store, POLL_ORDER[i + 1..])
  {
    var l := List(s.store.queues, POLL_ORDER[i]);
    FullPoll(s, i);
    TakeAlone(s, a, i, now);
    taken := l[|l| - 1] in s.store.jobs;
  }

  lemma {:induction false} LastPoll(s: System, a: nat, now: int)
    requires a in s.actors && s.actors[a] == Free(Polling(|POLL_ORDER|))
    ensures Dequeues(s, a, [], Alone(s, a, 1, now))
  {
    OneStep(s, a, 0, now);
    Stop(AfterAdvance(s, a, true, now), a, now);
  }

  lemma {:induction false} DequeueAlone(s: System, a: nat, i: nat, now: int) returns (n: nat)
    requires i <= |POLL_ORDER| && a in s.actors && s.actors[a] == Free(Polling(i))
    ensures Dequeues(s, a, POLL_ORDER[i..], Alone(s, a, n, now))
    decreases |POLL_ORDER| - i
  {
    if i == |POLL_ORDER| {
      LastPoll(s, a, now);
      assert POLL_ORDER[i..] == [];
      n := 1;
    } else {
      if List(s.store.queues, POLL_ORDER[i]) == [] {
        EmptyPoll(s, a, i, now);
        n := DequeueAlone(AfterAdvance(s, a, true, now), a, i + 1, now);
        OneStep(s, a, n, now);
        n := n + 1;
      } else {
        var taken := FullPollTakes(s, a, i, now);
        if taken {
          n := 3;
        } else {
          n := DequeueAlone(Alone(s, a, 2, now), a, i + 1, now);
          Chain(s, a, 2, n, now);
          n := 2 + n;
        }
      }
    }
  }

  // ---------- Complete, Fail, Requeue ----------

  lemma {:induction false} CompleteAlone(s: System, a: nat, id: Id, now: int)
    requires a in s.actors && s.actors[a] == HasId(id, Handed, ToComplete)
    ensures a !in Alone(s, a, 3, now).actors && Alone(s, a, 3, now).store == CompleteOp(s.store, id).0
  {
    var s1 := AfterAdvance(s, a, true, now);
    OneStep(s, a, 2, now);
    if id in s.store.jobs {
      var s2 := AfterAdvance(s1, a, true, now);
      OneStep(s1, a, 1, now);
      OneStep(s2, a, 0, now);
      Stop(AfterAdvance(s2, a, true, now), a, now);
    }
  }

  lemma {:induction false} RescheduleAlone(s: System, a: nat, job: Job, at: int, now: int)
    requires a in s.actors && s.actors[a] == HasJob(job, Rescheduling, FailRetry(at))
    ensures a !in Alone(s, a, 2, now).actors && Alone(s, a, 2, now).store == ZAdd(s.store, job.id, Unix(at))
  {
    OneStep(s, a, 1, now);
  }

  lemma {:induction false} BuryAlone(s: System, a: nat, job: Job, now: int)
    requires a in s.actors && s.actors[a] == HasJob(job, Burying, FailDead)
    ensures a !in Alone(s, a, 2, now).actors
    ensures Alone(s, a, 2, now).store == DelUnique(PushDead(s.store, job.id), job)
  {
    var s1 := AfterAdvance(s, a, true, now);
    OneStep(s, a, 1, now);
    OneStep(s1, a, 0, now);
    Stop(AfterAdvance(s1, a, true, now), a, now);
  }

  /** From the moment the record has been read. */
  lemma {:induction false} VerdictAlone(s: System, a: nat, job: Job, now: int)
    requires a in s.actors && s.actors[a] == HasJob(job, Handed, FailFetched)
    requires job.id in s.store.jobs && s.store.jobs[job.id] == job
    ensures a !in Alone(s, a, 3, now).actors && Alone(s, a, 3, now).store == FailOp(s.store, job.id, now).0
  {
    var s1 := AfterAdvance(s, a, true, now);
    OneStep(s, a, 2, now);
    if job.attempts < job.maxRetries {
      RescheduleAlone(s1, a, s1.actors[a].job, s1.actors[a].task.at, now);
    } else {
      BuryAlone(s1, a, s1.actors[a].job, now);
    }
  }

  lemma {:induction false} FailAlone(s: System, a: nat, id: Id, now: int)
    requires a in s.actors && s.actors[a] == HasId(id, Handed, ToFail)
    requires id in s.store.jobs ==> s.store.jobs[id].id == id
    ensures a !in Alone(s, a, 4, now).actors && Alone(s, a, 4, now).store == FailOp(s.store, id, now).0
  {
    var s1 := AfterAdvance(s, a, true, now);
    OneStep(s, a, 3, now);
    if id in s.store.jobs {
      VerdictAlone(s1, a, s.store.jobs[id], now);
    }
  }

  lemma {:induction false} RequeueAlone(s: System, a: nat, job: Job, now: int)
    requires a in s.actors && s.actors[a] == HasJob(job, Counted, Requeueing)
    requires job.id in s.store.jobs && s.store.jobs[job.id] == job
    ensures a !in Alone(s, a, 2, now).actors && Alone(s, a, 2, now).store == RequeueOp(s.store, job.id)
  {
    var s1 := AfterAdvance(s, a, true, now);
    OneStep(s, a, 1, now);
    OneStep(s1, a, 0, now);
    Stop(AfterAdvance(s1, a, true, now), a, now);
  }

  // ---------- ProcessScheduled ----------

  lemma {:induction false} MoveFirst(s: Store, ids: seq<Id>)
    requires ids != []
    ensures MoveAll(s, ids) == MoveAll(MoveOp(s, ids[0]), ids[1..])
    decreases |ids|
  {
    var n := |ids| - 1;
    if n == 0 {
      assert ids[..0] == ids[1..] == [];
    } else {
      assert ids[..n][1..] == ids[1..][..n - 1] && ids[..n][0] == ids[0];
      MoveFirst(s, ids[..n]);
    }
  }

  lemma {:induction false} MoveOneAlone(s: System, id: Id, ids: seq<Id>, n: nat)
    requires s.mover == Batch(ids) && ids != [] && id == ids[0] && n >= 4
    requires OwnIds(s.store.jobs) && id in s.store.jobs
    ensures MoverAlone(s, n) == MoverAlone(s.(mover := Batch(ids[1..]), store := MoveOp(s.store, id)), n - 4)
  {
    var s1 := AfterMove(s);
    var s2 := AfterMove(s1);
    var s3 := AfterMove(s2);
    assert MoverAlone(s, n) == MoverAlone(s1, n - 1);
    assert MoverAlone(s1, n - 1) == MoverAlone(s2, n - 2);
    assert MoverAlone(s2, n - 2) == MoverAlone(s3, n - 3);
    assert MoverAlone(s3, n - 3) == MoverAlone(AfterMove(s3), n - 4);
  }

  /** One run of the scheduled processor, alone, is MoveAll on its batch. */
  lemma {:induction false} MoveAlone(s: System, ids: seq<Id>) returns (n: nat)
    requires s.mover == Batch(ids) && OwnIds(s.store.jobs)
    ensures MoverAlone(s, n) == s.(mover := Resting, store := MoveAll(s.store, ids))
    decreases |ids|
  {
    if ids == [] {
      n := 1;
      assert MoverAlone(AfterMove(s), 0) == AfterMove(s);
    } else {
      var id, t := ids[0], s.(mover := Batch(ids[1..]), store := MoveOp(s.store, ids[0]));
      MoveFirst(s.store, ids);
      n := MoveAlone(t, ids[1..]);
      if id in s.store.jobs {
        n := n + 4;
        MoveOneAlone(s, id, ids, n);
      } else {
        n := n + 1;
        assert AfterMove(s) == t;
      }
    }
  }
}
