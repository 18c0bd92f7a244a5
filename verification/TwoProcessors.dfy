/**
  Two scheduled processors, as two worker pools have them, beside any number of
  producers and workers: ProcessScheduled does not look at how many members ZREM removed
  (internal/jobs/queue/redis_queue.go), so a due job is pushed once for every answer of
  ZRANGEBYSCORE that named it.
 */
module TwoProcessors {
  import opened Prelude
  import opened RetryTiming
  import opened JobStore
  import opened JobWorkers
  import opened JobOwnership
  import opened JobHistory
  import opened JobJourneys

  /** A system whose own processor is the first, with the second beside it. */
  datatype Twin = Twin(s: System, second: Mover)

  /** A step of the system, a question of the second processor, or another command of it. */
  datatype Turn = Do(step: Step) | SecondAsks(ids: seq<Id>, read: int, now: int) | SecondMoves(now: int)

  ghost predicate CanTake(t: Twin, turn: Turn) {
    match turn
    case Do(step) => Enabled(t.s, step)
    case SecondAsks(ids, read, now) =>
      t.s.clock <= now && read <= now && t.second.Resting? && IsDue(t.s.store.scheduled, Unix(read), ids)
    case SecondMoves(now) => t.s.clock <= now && !t.second.Resting?
  }

  function Taken(t: Twin, turn: Turn): Twin {
    match turn
    case Do(step) => Twin(After(t.s, step), t.second)
    case SecondAsks(ids, _, now) => Twin(t.s.(clock := now), Batch(ids))
    case SecondMoves(now) =>
      var r := AfterMove(t.s.(clock := now, mover := t.second));
      Twin(r.(mover := t.s.mover), r.mover)
  }

  function RunTwo(turns: seq<Turn>): Twin {
    if turns == [] then Twin(Initial(), Resting) else Taken(RunTwo(turns[..|turns| - 1]), turns[|turns| - 1])
  }

  ghost predicate ValidTwo(turns: seq<Turn>) {
    forall i :: 0 <= i < |turns| ==> CanTake(RunTwo(turns[..i]), turns[i])
  }

  // ---------- Records ----------

  ghost predicate MoverKnows(jobs: map<Id, Job>, m: Mover) {
    && (!m.Resting? ==> forall id :: id in m.ids ==> id in jobs)
    && (!m.Resting? && !m.Batch? ==> m.job.id in jobs)
  }

  /** Whatever is scheduled, or in the hands of an actor or a processor, has a record under its own ID. */
  ghost predicate OnRecord(t: Twin) {
    && OwnIds(t.s.store.jobs)
    && (forall id :: id in t.s.store.scheduled ==> id in t.s.store.jobs)
    && (forall a :: a in t.s.actors && t.s.actors[a].HasJob? ==> t.s.actors[a].job.id in t.s.store.jobs)
    && MoverKnows(t.s.store.jobs, t.s.mover) && MoverKnows(t.s.store.jobs, t.second)
  }

  ghost predicate Writes(jobs: map<Id, Job>, after: map<Id, Job>, j: Job) {
    after == jobs[j.id := j]
  }

  /** A step of actor `a` that writes at most one record, and schedules only what is on record. */
  ghost predicate Minor(s: System, t: System, a: nat) {
    && (t.store.jobs == s.store.jobs || exists j :: Writes(s.store.jobs, t.store.jobs, j))
    && (forall id :: id in t.store.scheduled ==> id in s.store.scheduled || id in t.store.jobs)
    && (forall b :: b in t.actors && b != a ==> b in s.actors && t.actors[b] == s.actors[b])
    && (a in t.actors && t.actors[a].HasJob? ==> t.actors[a].job.id in t.store.jobs)
    && t.mover == s.mover
  }

  lemma MinorKeeps(t: Twin, s: System, a: nat)
    requires OnRecord(t) && Minor(t.s, s, a)
    ensures OnRecord(Twin(s, t.second))
  {
  }

  lemma JobStepRest(s: System, a: nat, job: Job, task: JobTask, choice: bool, read: int, delay: int)
    requires job.id in s.store.jobs
    ensures var t := AfterJob(s, a, job, task, choice, read, delay);
      && (forall id :: id in t.store.scheduled ==> id in s.store.scheduled || id == job.id)
      && (forall b :: b in t.actors && b != a ==> b in s.actors && t.actors[b] == s.actors[b])
      && (a in t.actors && t.actors[a].HasJob? ==> t.actors[a].job.id == job.id)
      && t.mover == s.mover && job.id in t.store.jobs
  {
  }

  lemma JobStepMinor(s: System, a: nat, job: Job, task: JobTask, choice: bool, read: int, delay: int)
    requires job.id in s.store.jobs
    ensures Minor(s, AfterJob(s, a, job, task, choice, read, delay), a)
  {
    JobStepRest(s, a, job, task, choice, read, delay);
    JobStepRewrites(s, a, job, task, choice, read, delay);
    var t := AfterJob(s, a, job, task, choice, read, delay);
    if t.store.jobs != s.store.jobs {
      var j :| SameJob(job, j) && t.store.jobs == s.store.jobs[job.id := j];
      assert Writes(s.store.jobs, t.store.jobs, j);
    }
  }

  lemma FreeStepMinor(s: System, a: nat, next: FreeTask)
    requires a in s.actors && s.actors[a] == Free(next)
    ensures Minor(s, AfterFree(s, a, next), a)
  {
    assert AfterFree(s, a, next).store.jobs == s.store.jobs;
  }

  lemma FetchStepMinor(s: System, a: nat, id: Id, fetch: FetchTask)
    requires OwnIds(s.store.jobs)
    ensures Minor(s, AfterFetch(s, a, id, fetch), a)
  {
    assert AfterFetch(s, a, id, fetch).store == s.store;
  }

  lemma AdvanceOnRecord(t: Twin, a: nat, choice: bool, read: int)
    requires OnRecord(t) && a in t.s.actors
    ensures OnRecord(Twin(AfterAdvance(t.s, a, choice, read), t.second))
  {
    match t.s.actors[a] {
      case Free(next) => FreeStepMinor(t.s, a, next);
      case HasId(id, _, fetch) => FetchStepMinor(t.s, a, id, fetch);
      case HasJob(job, _, task) =>
        JobStepMinor(t.s, a, job, task, choice, read, CalculateDelay(job.policy, job.attempts));
    }
    MinorKeeps(t, AfterAdvance(t.s, a, choice, read), a);
  }

  lemma BeginOnRecord(t: Twin, step: Step)
    requires OnRecord(t) && Enabled(t.s, step) && (step.BeginEnqueue? || step.BeginDequeue? || step.StoreJob?)
    ensures OnRecord(Twin(After(t.s, step), t.second))
  {
    var s := After(t.s, step);
    assert if step.StoreJob? then Writes(t.s.store.jobs, s.store.jobs, step.job) else s.store.jobs == t.s.store.jobs;
    MinorKeeps(t, s, step.a);
  }

  lemma AskOnRecord(t: Twin, ids: seq<Id>, second: int)
    requires OnRecord(t) && IsDue(t.s.store.scheduled, second, ids)
    ensures MoverKnows(t.s.store.jobs, Batch(ids))
  {
  }

  lemma MoverGoesOn(s: System)
    requires OwnIds(s.store.jobs) && MoverKnows(s.store.jobs, s.mover)
    ensures MoverKnows(AfterMove(s).store.jobs, AfterMove(s).mover) && OwnIds(AfterMove(s).store.jobs)
    ensures s.store.jobs.Keys <= AfterMove(s).store.jobs.Keys
  {
    match s.mover
    case Batch(ids) =>
      if ids != [] {
        assert ids == [ids[0]] + ids[1..];
      }
    case MoveRemoved(job, _) =>
      var j := job.(scheduledAt := None, status := Pending);
      assert AfterMove(s).store.jobs == s.store.jobs[j.id := j];
    case _ =>
  }

  lemma MoveSchedules(s: System)
    ensures AfterMove(s).store.scheduled.Keys <= s.store.scheduled.Keys && AfterMove(s).actors == s.actors
  {
    if s.mover.MoveFetched? {
      assert AfterMove(s).store.scheduled == s.store.scheduled - {s.mover.job.id};
    } else {
      assert AfterMove(s).store.scheduled == s.store.scheduled;
    }
  }

  lemma MoveOnRecord(s: System, other: Mover)
    requires OnRecord(Twin(s, other))
    ensures OnRecord(Twin(AfterMove(s), other))
  {
    MoverGoesOn(s);
    MoveSchedules(s);
  }

  lemma TurnOnRecord(t: Twin, turn: Turn)
    requires OnRecord(t) && CanTake(t, turn)
    ensures OnRecord(Taken(t, turn))
  {
    match turn
    case Do(step) =>
      match step {
        case Advance(a, choice, read, now) => AdvanceOnRecord(Twin(t.s.(clock := now), t.second), a, choice, read);
        case AdvanceMove(now) => MoveOnRecord(t.s.(clock := now), t.second);
        case BeginMove(ids, read, _) => AskOnRecord(t, ids, Unix(read));
        case _ => BeginOnRecord(t, step);
      }
    case SecondAsks(ids, read, _) => AskOnRecord(t, ids, Unix(read));
    case SecondMoves(now) => MoveOnRecord(t.s.(clock := now, mover := t.second), t.s.mover);
  }

  // ---------- Every answer is acted on once ----------

  /** How often the processor is still going to push the job. */
  function Owed(m: Mover, id: Id): nat {
    match m
    case Resting => 0
    case Batch(ids) => multiset(ids)[id]
    case MoveFetched(job, ids) => multiset(ids)[id] + if job.id == id then 1 else 0
    case MoveRemoved(job, ids) => multiset(ids)[id] + if job.id == id then 1 else 0
    case MoveStored(job, ids) => multiset(ids)[id] + if job.id == id then 1 else 0
  }

  /** The processor's next command pushes the job. */
  function Pushing(m: Mover, id: Id): nat {
    if m.MoveStored? && m.job.id == id then 1 else 0
  }

  /** How often the answer of this turn's question names the job. */
  function Named(turn: Turn, id: Id): nat {
    match turn
    case Do(step) => if step.BeginMove? then multiset(step.ids)[id] else 0
    case SecondAsks(ids, _, _) => multiset(ids)[id]
    case SecondMoves(_) => 0
  }

  /** Whether a processor pushes the job in this turn. */
  function Pushed(t: Twin, turn: Turn, id: Id): nat {
    match turn
    case Do(step) => if step.AdvanceMove? then Pushing(t.s.mover, id) else 0
    case SecondAsks(_, _, _) => 0
    case SecondMoves(_) => Pushing(t.second, id)
  }

  function Answers(turns: seq<Turn>, id: Id): nat {
    if turns == [] then 0 else Answers(turns[..|turns| - 1], id) + Named(turns[|turns| - 1], id)
  }

  function Pushes(turns: seq<Turn>, id: Id): nat {
    if turns == [] then 0
    else
      var before := turns[..|turns| - 1];
      Pushes(before, id) + Pushed(RunTwo(before), turns[|turns| - 1], id)
  }

  function Owing(t: Twin, id: Id): nat {
    Owed(t.s.mover, id) + Owed(t.second, id)
  }

  lemma HeadCount(ids: seq<Id>, id: Id)
    requires ids != []
    ensures multiset(ids)[id] == multiset(ids[1..])[id] + if ids[0] == id then 1 else 0
  {
    assert ids == [ids[0]] + ids[1..];
  }

  /** A command of a processor keeps what it owes, up to the push itself. */
  lemma MoveOwes(s: System, id: Id)
    requires OwnIds(s.store.jobs) && MoverKnows(s.store.jobs, s.mover)
    ensures Owed(AfterMove(s).mover, id) + Pushing(s.mover, id) == Owed(s.mover, id)
  {
    if s.mover.Batch? && s.mover.ids != [] {
      HeadCount(s.mover.ids, id);
    }
  }

  lemma AdvanceKeepsMover(s: System, a: nat, choice: bool, read: int)
    requires a in s.actors
    ensures AfterAdvance(s, a, choice, read).mover == s.mover
  {
  }

  lemma TurnOwes(t: Twin, turn: Turn, id: Id)
    requires OnRecord(t) && CanTake(t, turn)
    ensures Owing(Taken(t, turn), id) + Pushed(t, turn, id) == Owing(t, id) + Named(turn, id)
  {
    match turn
    case Do(step) =>
      if step.AdvanceMove? {
        MoveOwes(t.s.(clock := step.now), id);
      } else if step.Advance? {
        AdvanceKeepsMover(t.s.(clock := step.now), step.a, step.choice, step.read);
      }
    case SecondAsks(_, _, _) =>
    case SecondMoves(now) => MoveOwes(t.s.(clock := now, mover := t.second), id);
  }

  lemma ValidPrefixTwo(turns: seq<Turn>, n: nat)
    requires ValidTwo(turns) && n <= |turns|
    ensures ValidTwo(turns[..n])
  {
    assert forall i :: 0 <= i < n ==> turns[..n][..i] == turns[..i];
  }

  lemma {:induction false} LastTurn(turns: seq<Turn>, before: seq<Turn>, n: nat)
    requires ValidTwo(turns) && n == |turns| - 1 && before == turns[..n]
    ensures ValidTwo(before) && CanTake(RunTwo(before), turns[n]) && RunTwo(turns) == Taken(RunTwo(before), turns[n])
  {
    ValidPrefixTwo(turns, n);
  }

  lemma {:induction false} RunOnRecord(turns: seq<Turn>)
    requires ValidTwo(turns)
    ensures OnRecord(RunTwo(turns))
  {
    if turns != [] {
      var n := |turns| - 1;
      LastTurn(turns, turns[..n], n);
      RunOnRecord(turns[..n]);
      TurnOnRecord(RunTwo(turns[..n]), turns[n]);
    }
  }

  /**
    In every interleaving of producers, workers and two processors, the processors have pushed a job, or are
    still going to push it, exactly as often as their questions were answered with it: so it is doubled if
    and only if the second asks while the job is still scheduled, at whatever point of the first one's batch.
   */
  lemma {:induction false} PushesExact(turns: seq<Turn>, id: Id)
    requires ValidTwo(turns)
    ensures Pushes(turns, id) + Owing(RunTwo(turns), id) == Answers(turns, id)
  {
    if turns != [] {
      var n := |turns| - 1;
      LastTurn(turns, turns[..n], n);
      PushesExact(turns[..n], id);
      RunOnRecord(turns[..n]);
      TurnOwes(RunTwo(turns[..n]), turns[n], id);
    }
  }

  /** A question is answered with a job, once, if and only if it is scheduled and due. */
  lemma {:induction false} AnswerIsDue(scheduled: map<Id, int>, second: int, ids: seq<Id>, id: Id)
    requires IsDue(scheduled, second, ids)
    ensures multiset(ids)[id] == if id in scheduled && scheduled[id] <= second then 1 else 0
  {
    NoDupCount(ids, id);
  }

  // ---------- Queue entries, while only the processors move ----------

  predicate IsProcessors(turn: Turn) {
    match turn
    case Do(step) => step.BeginMove? || step.AdvanceMove?
    case _ => true
  }

  lemma ListGrows(queues: map<QueueName, seq<Id>>, q: QueueName, x: Id, p: QueueName, id: Id)
    ensures multiset(List(queues[q := [x] + List(queues, q)], p))[id] ==
            multiset(List(queues, p))[id] + if p == q && x == id then 1 else 0
  {
    assert multiset([x] + List(queues, q)) == multiset{x} + multiset(List(queues, q));
  }

  lemma PushCounts(queues: map<QueueName, seq<Id>>, q: QueueName, x: Id, id: Id, after: map<QueueName, seq<Id>>)
    requires after == queues[q := [x] + List(queues, q)]
    ensures QueueEntries(after, id) == QueueEntries(queues, id) + if x == id then 1 else 0
  {
    ListGrows(queues, q, x, CriticalQueue, id);
    ListGrows(queues, q, x, HighQueue, id);
    ListGrows(queues, q, x, NormalQueue, id);
    ListGrows(queues, q, x, LowQueue, id);
    ListGrows(queues, q, x, UnknownQueue, id);
    assert q.CriticalQueue? || q.HighQueue? || q.NormalQueue? || q.LowQueue? || q.UnknownQueue?;
  }

  lemma MoveEntries(s: System, id: Id)
    ensures QueueEntries(AfterMove(s).store.queues, id) == QueueEntries(s.store.queues, id) + Pushing(s.mover, id)
  {
    var t := AfterMove(s);
    if s.mover.MoveStored? {
      PushCounts(s.store.queues, QueueOf(s.mover.job.priority), s.mover.job.id, id, t.store.queues);
    } else {
      assert t.store.queues == s.store.queues;
    }
  }

  lemma TurnEntries(t: Twin, turn: Turn, id: Id)
    requires IsProcessors(turn)
    ensures QueueEntries(Taken(t, turn).s.store.queues, id) == QueueEntries(t.s.store.queues, id) + Pushed(t, turn, id)
  {
    match turn
    case Do(step) =>
      if step.AdvanceMove? {
        MoveEntries(t.s.(clock := step.now), id);
      }
    case SecondAsks(_, _, _) =>
    case SecondMoves(now) => MoveEntries(t.s.(clock := now, mover := t.second), id);
  }

  lemma {:induction false} EntriesGrow(turns: seq<Turn>, n: nat, id: Id)
    requires ValidTwo(turns) && n <= |turns| && forall k :: n <= k < |turns| ==> IsProcessors(turns[k])
    ensures QueueEntries(RunTwo(turns).s.store.queues, id) + Pushes(turns[..n], id) ==
            QueueEntries(RunTwo(turns[..n]).s.store.queues, id) + Pushes(turns, id)
    decreases |turns|
  {
    if n == |turns| {
      assert turns[..n] == turns;
    } else {
      var m := |turns| - 1;
      LastTurn(turns, turns[..m], m);
      assert turns[..m][..n] == turns[..n];
      EntriesGrow(turns[..m], n, id);
      TurnEntries(RunTwo(turns[..m]), turns[m], id);
    }
  }

  ghost predicate BothRest(t: Twin) {
    t.s.mover.Resting? && t.second.Resting?
  }

  /**
    While only the two processors move, from rest to rest, the queues gain an entry of the job for every
    answer that named it, at whatever points of the interleaving the questions were asked.
   */
  lemma {:induction false} EntriesExact(turns: seq<Turn>, n: nat, id: Id)
    requires ValidTwo(turns) && n <= |turns| && forall k :: n <= k < |turns| ==> IsProcessors(turns[k])
    requires ValidTwo(turns[..n]) && BothRest(RunTwo(turns[..n])) && BothRest(RunTwo(turns))
    ensures QueueEntries(RunTwo(turns).s.store.queues, id) ==
            QueueEntries(RunTwo(turns[..n]).s.store.queues, id) + Answers(turns, id) - Answers(turns[..n], id)
  {
    PushesExact(turns, id);
    PushesExact(turns[..n], id);
    EntriesGrow(turns, n, id);
  }

  // ---------- What a late push does ----------

  /** Whatever has become of the job meanwhile, the second processor makes it pending and queues it again. */
  lemma LateMove(t: Twin, id: Id, rest: seq<Id>, now: int, t1: Twin, t2: Twin, t3: Twin, t4: Twin)
    requires OnRecord(t) && t.second == Batch([id] + rest) && id in t.s.store.jobs && t.s.clock <= now
    requires t1 == Taken(t, SecondMoves(now)) && t2 == Taken(t1, SecondMoves(now))
    requires t3 == Taken(t2, SecondMoves(now)) && t4 == Taken(t3, SecondMoves(now))
    ensures CanTake(t, SecondMoves(now)) && CanTake(t1, SecondMoves(now))
    ensures CanTake(t2, SecondMoves(now)) && CanTake(t3, SecondMoves(now))
    ensures id in t4.s.store.jobs && t4.s.store.jobs[id].status == Pending
    ensures id in List(t4.s.store.queues, QueueOf(t4.s.store.jobs[id].priority))
  {
    var job := t.s.store.jobs[id];
    assert ([id] + rest)[0] == id && ([id] + rest)[1..] == rest;
    assert t1.second == MoveFetched(job, rest) && t1.s.store == t.s.store;
    assert t2.second == MoveRemoved(job, rest) && t2.s.store == ZRem(t.s.store, id);
    var j := job.(scheduledAt := None, status := Pending);
    assert t3.second == MoveStored(j, rest) && t3.s.store == SetJob(t2.s.store, j);
  }

  // ---------- A completed job that runs again ----------

  lemma {:induction false} SnocTurn(turns: seq<Turn>, turn: Turn)
    requires ValidTwo(turns) && CanTake(RunTwo(turns), turn)
    ensures ValidTwo(turns + [turn]) && RunTwo(turns + [turn]) == Taken(RunTwo(turns), turn)
  {
    var all := turns + [turn];
    assert all[..|turns|] == turns;
    assert forall i :: 0 <= i < |turns| ==> all[..i] == turns[..i];
  }

  /** A run and its last state; looked into with OpenReached. */
  datatype Stage = Stage(turns: seq<Turn>, t: Twin)

  ghost predicate IsReached(o: Stage) {
    forall k :: Asked(k) ==> ValidTwo(o.turns) && RunTwo(o.turns) == o.t
  }

  lemma OpenReached(o: Stage)
    requires IsReached(o)
    ensures ValidTwo(o.turns) && RunTwo(o.turns) == o.t
  {
    assert Asked(0);
  }

  lemma {:induction false} Reach(o: Stage, turn: Turn) returns (n: Stage)
    requires IsReached(o) && CanTake(o.t, turn)
    ensures IsReached(n) && n.turns == o.turns + [turn] && n.t == Taken(o.t, turn)
  {
    OpenReached(o);
    SnocTurn(o.turns, turn);
    n := Stage(o.turns + [turn], Taken(o.t, turn));
  }

  /** A critical job that is to run at time 1. */
  function Delayed(): Job {
    Job(0, 3, Pending, 0, 0, RetryPolicy(Fixed, 0, 0, 1.0), Some(1), "")
  }

  /** The only job is scheduled and due, and everybody is idle. */
  ghost predicate Ready(t: Twin) {
    && t.s.actors == map[] && t.s.mover == t.second == Resting && t.s.clock == 0
    && t.s.store == EmptyStore().(jobs := map[0 := Delayed()], scheduled := map[0 := 0])
  }

  lemma EnqueueEffects(s: System, check: Step, store: Step, place: Step, announce: Step, t: System)
    requires s == Initial() && check == BeginEnqueue(0, "", 0) && store == StoreJob(0, Delayed(), 0)
    requires place == announce == Advance(0, true, 0, 0)
    requires t == After(After(After(After(s, check), store), place), announce)
    ensures Enabled(s, check) && Enabled(After(s, check), store) && Enabled(After(After(s, check), store), place)
    ensures Enabled(After(After(After(s, check), store), place), announce) && Ready(Twin(t, Resting))
  {
    var s1 := After(s, check);
    assert s1.actors == map[0 := Free(EnqueueChecked(""))] && s1.store == EmptyStore();
    var s2 := After(s1, store);
    assert s2.actors == map[0 := HasJob(Delayed(), Uncounted, EnqueueStored)];
    var s3 := After(s2, place);
    assert Unix(1) == 0;
    assert s3.actors == map[0 := Free(EnqueuePlaced(Delayed()))] && s3.store.scheduled == map[0 := 0];
  }

  lemma {:induction false} ReachReady() returns (o: Stage)
    ensures IsReached(o) && Ready(o.t)
  {
    o := Stage([], Twin(Initial(), Resting));
    var check, store, place := BeginEnqueue(0, "", 0), StoreJob(0, Delayed(), 0), Advance(0, true, 0, 0);
    EnqueueEffects(Initial(), check, store, place, place,
      After(After(After(After(Initial(), check), store), place), place));
    o := Reach(o, Do(check));
    o := Reach(o, Do(store));
    o := Reach(o, Do(place));
    o := Reach(o, Do(place));
  }

  /** Both processors have been told of the job, and neither has removed it. */
  ghost predicate BothTold(t: Twin) {
    && t.s.actors == map[] && t.s.mover == t.second == Batch([0]) && t.s.clock == 1
    && t.s.store == EmptyStore().(jobs := map[0 := Delayed()], scheduled := map[0 := 0])
  }

  lemma AskEffects(t: Twin)
    requires Ready(t)
    ensures CanTake(t, Do(BeginMove([0], 1, 1)))
    ensures var u := Taken(t, Do(BeginMove([0], 1, 1)));
      CanTake(u, SecondAsks([0], 1, 1)) && BothTold(Taken(u, SecondAsks([0], 1, 1)))
  {
    assert Unix(1) == 0 && IsDue(map[0 := 0], 0, [0]);
  }

  /** The first processor has queued the job; the second still has it in its batch. */
  ghost predicate MovedOnce(t: Twin, job: Job) {
    && t.s.actors == map[] && t.second == Batch([0]) && t.s.clock == 1 && t.s.store.jobs == map[0 := job]
    && t.s.store.dlq == [] && t.s.store.unique == map[] && List(t.s.store.queues, CriticalQueue) == [0]
  }

  lemma MoveEffects(t: Twin, turn: Turn, t1: Twin, t2: Twin, t3: Twin, t4: Twin)
    requires BothTold(t) && turn == Do(AdvanceMove(1))
    requires t1 == Taken(t, turn) && t2 == Taken(t1, turn) && t3 == Taken(t2, turn) && t4 == Taken(t3, turn)
    ensures CanTake(t, turn) && CanTake(t1, turn) && CanTake(t2, turn) && CanTake(t3, turn)
    ensures MovedOnce(t4, Delayed().(scheduledAt := None))
  {
    var j := Delayed().(scheduledAt := None);
    assert [0][1..] == [];
    assert t1.s.mover == MoveFetched(Delayed(), []) && t1.s.store == t.s.store;
    assert t2.s.mover == MoveRemoved(Delayed(), []) && t2.s.store == ZRem(t.s.store, 0);
    assert t3.s.mover == MoveStored(j, []) && t3.s.store == SetJob(t2.s.store, j);
  }

  lemma {:induction false} ReachMoved() returns (o: Stage)
    ensures IsReached(o) && MovedOnce(o.t, Delayed().(scheduledAt := None))
  {
    o := ReachReady();
    AskEffects(o.t);
    o := Reach(o, Do(BeginMove([0], 1, 1)));
    o := Reach(o, SecondAsks([0], 1, 1));
    var turn := Do(AdvanceMove(1));
    var t1 := Taken(o.t, turn);
    var t2 := Taken(t1, turn);
    var t3 := Taken(t2, turn);
    MoveEffects(o.t, turn, t1, t2, t3, Taken(t3, turn));
    o := Reach(o, turn);
    o := Reach(o, turn);
    o := Reach(o, turn);
    o := Reach(o, turn);
  }

  /** The worker's way with the job, beside the second processor. */
  datatype Way = Way(o: Stage, pc: Pc, job: Job)

  ghost predicate IsOnWay(y: Way) {
    forall k :: Asked(k) ==> IsReached(y.o) && Travels(y.o.t.s, map[], y.pc, y.job) && y.o.t.second == Batch([0])
  }

  lemma OpenWay(y: Way)
    requires IsOnWay(y)
    ensures IsReached(y.o) && Travels(y.o.t.s, map[], y.pc, y.job) && y.o.t.second == Batch([0])
  {
    assert Asked(0);
  }

  lemma {:induction false} WorkerGoes(y: Way) returns (n: Way)
    requires IsOnWay(y) && OnTheWay(y.pc, y.job)
    ensures IsOnWay(n) && n.pc == Successor(y.pc, y.job) && n.job == Recorded(y.pc, y.job)
  {
    OpenWay(y);
    TravelStep(y.o.t.s, map[], y.pc, y.job);
    var o := Reach(y.o, Do(Onward(y.o.t.s, y.pc)));
    n := Way(o, Successor(y.pc, y.job), Recorded(y.pc, y.job));
  }

  lemma {:induction false} WorkerPops() returns (y: Way)
    ensures IsOnWay(y) && y.pc == HasId(0, Uncounted, ToDequeue(0)) && y.job == Delayed().(scheduledAt := None)
  {
    var o := ReachMoved();
    var job := Delayed().(scheduledAt := None);
    var begin, pop := BeginDequeue(1, o.t.s.clock), Advance(1, true, o.t.s.clock, o.t.s.clock);
    PopTravels(o.t.s, map[], job, begin, pop);
    o := Reach(o, Do(begin));
    o := Reach(o, Do(pop));
    y := Way(o, HasId(0, Uncounted, ToDequeue(0)), job);
  }

  /** A worker has run the job to completion while the second processor still has it in its batch. */
  lemma {:induction false} WorkerCompletes() returns (y: Way)
    ensures IsOnWay(y) && y.job.id == 0 && y.job.status == Completed
  {
    y := WorkerPops();
    y := WorkerGoes(y);
    y := WorkerGoes(y);
    y := WorkerGoes(y);
    y := WorkerGoes(y);
    y := WorkerGoes(y);
    y := WorkerGoes(y);
    y := WorkerGoes(y);
    y := WorkerGoes(y);
  }

  /** The second processor's way with the head of its batch, from any state. */
  lemma {:induction false} SecondMovesHead(o: Stage, id: Id, rest: seq<Id>) returns (n: Stage)
    requires IsReached(o) && OnRecord(o.t) && o.t.second == Batch([id] + rest) && id in o.t.s.store.jobs
    ensures IsReached(n) && |o.turns| <= |n.turns| && n.turns[..|o.turns|] == o.turns
    ensures id in n.t.s.store.jobs && n.t.s.store.jobs[id].status == Pending
    ensures id in List(n.t.s.store.queues, QueueOf(n.t.s.store.jobs[id].priority))
  {
    var move := SecondMoves(o.t.s.clock);
    var t1 := Taken(o.t, move);
    var t2 := Taken(t1, move);
    var t3 := Taken(t2, move);
    LateMove(o.t, id, rest, o.t.s.clock, t1, t2, t3, Taken(t3, move));
    n := Reach(o, move);
    n := Reach(n, move);
    n := Reach(n, move);
    n := Reach(n, move);
  }

  /** A job that has been completed is pending and queued again. */
  lemma {:induction false} CompletedRunsAgain() returns (before: seq<Turn>, turns: seq<Turn>)
    ensures ValidTwo(turns) && |before| <= |turns| && turns[..|before|] == before
    ensures 0 in RunTwo(before).s.store.jobs && RunTwo(before).s.store.jobs[0].status == Completed
    ensures var s := RunTwo(turns).s.store;
      0 in s.jobs && s.jobs[0].status == Pending && 0 in List(s.queues, QueueOf(s.jobs[0].priority))
  {
    var y := WorkerCompletes();
    OpenWay(y);
    var o := y.o;
    OpenReached(o);
    RunOnRecord(o.turns);
    assert [0] == [0] + [];
    var r := SecondMovesHead(o, 0, []);
    OpenReached(r);
    before, turns := o.turns, r.turns;
  }
}
