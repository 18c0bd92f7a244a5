/**
  Which job a worker gets (internal/jobs/queue/redis_queue.go, internal/jobs/job.go): the
  most urgent one, for whole operations and for a poll that nobody interrupts; and what is
  left of that when others push and pop between the commands of a poll.
 */
module JobUrgency {
  import opened Prelude
  import opened RetryTiming
  import opened JobStore
  import opened JobWorkers
  import opened JobOwnership
  import opened QueueOperations
  import opened UninterruptedOperations
  import Whole = UniqueKeys

  // ---------- Whole operations ----------

  lemma TrackedFiled(s: Store, loc: Places)
    requires Tracks(s, loc)
    ensures Filed(s)
  {
    forall q, id | id in List(s.queues, q)
      ensures id in s.jobs && s.jobs[id].id == id && QueueOf(s.jobs[id].priority) == q
    {
      assert ListTracks(List(s.queues, q), loc, Queued(q));
    }
  }

  /** In every reachable state of whole operations every listed ID is on record, in the list of its priority. */
  lemma {:induction false} WholeFiled(steps: seq<Whole.Step>)
    requires Whole.Valid(steps)
    ensures Filed(Whole.Run(steps).store)
  {
    var p := Whole.RunKeeps(steps);
    Whole.Open(p);
    TrackedFiled(p.v.store, p.loc);
  }

  /** In every run of whole operations, a worker that dequeues gets the most urgent job, or there is none. */
  lemma {:induction false} DequeueGetsNext(steps: seq<Whole.Step>, w: nat)
    requires Whole.Valid(steps) && Whole.Enabled(Whole.Run(steps), Whole.Dequeue(w))
    ensures var (v, t) := (Whole.Run(steps), Whole.After(Whole.Run(steps), Whole.Dequeue(w)));
      if w in t.workers then IsNext(v.store, t.workers[w].id) && Popped(v.store, t.workers[w].id, t.store.queues)
      else t == v && forall x :: !Offered(v.store, x)
  {
    WholeFiled(steps);
    PollsInOrder(Whole.Run(steps).store, 0);
    assert POLL_ORDER[0..] == POLL_ORDER;
  }

  // ---------- A poll that nobody interrupts ----------

  lemma {:induction false} RunFiled(steps: seq<Step>)
    requires Valid(steps)
    ensures Filed(Run(steps).store)
  {
    var p := RunKeeps(steps);
    OpenJobs(p);
    TrackedFiled(p.s.store, p.loc);
  }

  /** What an actor's poll has come to. */
  ghost predicate PollEnds(s: System, t: System, a: nat) {
    if a in t.actors then t.actors[a].HasJob? && TakesNext(s.store, t.store, Ok(t.actors[a].job))
    else TakesNext(s.store, t.store, Err(QueueEmpty))
  }

  /** Command by command, alone, from any reachable state: the same. */
  lemma {:induction false} PollGetsNext(steps: seq<Step>, a: nat, now: int) returns (n: nat)
    requires Valid(steps) && a in Run(steps).actors && Run(steps).actors[a] == Free(Polling(0))
    ensures PollEnds(Run(steps), Alone(Run(steps), a, n, now), a)
  {
    RunFiled(steps);
    n := DequeueAlone(Run(steps), a, 0, now);
    PollsInOrder(Run(steps).store, 0);
  }

  // ---------- A poll with others in between ----------

  /** At some moment since the actor last began to dequeue, up to now, the list was empty. */
  ghost predicate SeenEmpty(steps: seq<Step>, a: nat, q: QueueName) {
    steps != [] &&
    (List(Run(steps).store.queues, q) == [] ||
     (!IsBeginning(steps[|steps| - 1], a) && SeenEmpty(steps[..|steps| - 1], a, q)))
  }

  predicate IsBeginning(step: Step, a: nat) {
    step.BeginDequeue? && step.a == a
  }

  predicate IsBy(step: Step, a: nat) {
    !step.BeginMove? && !step.AdvanceMove? && step.a == a
  }

  lemma OthersStay(s: System, step: Step, a: nat)
    requires Enabled(s, step) && !IsBy(step, a)
    ensures a in After(s, step).actors <==> a in s.actors
    ensures a in s.actors ==> After(s, step).actors[a] == s.actors[a]
  {
    var t := s.(clock := step.now);
    match step
    case Advance(b, choice, read, _) => AdvanceStays(t, b, choice, read, a);
    case AdvanceMove(_) => assert AfterMove(t).actors == t.actors;
    case _ =>
  }

  /** Actor `a` is as it was. */
  ghost predicate Unmoved(s: System, t: System, a: nat) {
    (a in t.actors <==> a in s.actors) && (a in s.actors ==> t.actors[a] == s.actors[a])
  }

  lemma AdvanceStays(s: System, b: nat, choice: bool, read: int, a: nat)
    requires b in s.actors && b != a
    ensures Unmoved(s, AfterAdvance(s, b, choice, read), a)
  {
    match s.actors[b]
    case Free(_) =>
    case HasId(_, _, _) =>
    case HasJob(job, _, task) => JobStays(s, b, job, task, choice, read, CalculateDelay(job.policy, job.attempts), a);
  }

  lemma JobStays(s: System, b: nat, job: Job, task: JobTask, choice: bool, read: int, delay: int, a: nat)
    requires b != a
    ensures Unmoved(s, AfterJob(s, b, job, task, choice, read, delay), a)
  {
  }

  /** How far a poll has got: the lists before this one have been tried. */
  function Tried(pc: Pc): nat {
    match pc
    case Free(Polling(i)) => i
    case HasId(_, _, ToDequeue(i)) => i
    case _ => 0
  }

  /** An actor's own step tries at most one more list, and finds that one empty. */
  lemma OwnStep(s: System, step: Step, a: nat)
    requires Enabled(s, step) && IsBy(step, a) && a in After(s, step).actors
    requires a in s.actors && s.actors[a].HasId? ==> s.actors[a].id in s.store.jobs
    ensures var (t, n) := (After(s, step), Tried(After(s, step).actors[a]));
      n == 0 || (a in s.actors && !IsBeginning(step, a) &&
        (n == Tried(s.actors[a]) ||
         (n == Tried(s.actors[a]) + 1 && 1 <= n <= |POLL_ORDER| && List(t.store.queues, POLL_ORDER[n - 1]) == [])))
  {
  }

  lemma HeldOnRecord(p: Placed, a: nat)
    requires a in p.s.actors && p.s.actors[a].HasId?
    ensures var id := p.s.actors[a].id; id in p.s.store.jobs && p.s.store.jobs[id].id == id
  {
    OpenActors(p);
    OpenJobs(p);
    assert Grip(p.s.actors[a]) == Some((p.s.actors[a].id, p.s.actors[a].phase));
  }

  lemma {:induction false} StillSeen(steps: seq<Step>, before: seq<Step>, a: nat, q: QueueName)
    requires steps != [] && before == steps[..|steps| - 1] && !IsBeginning(steps[|steps| - 1], a)
    requires SeenEmpty(before, a, q)
    ensures SeenEmpty(steps, a, q)
  {
  }

  /** The poll goes on as it was, or has just found another list empty. */
  lemma {:induction false} TriedBefore(before: seq<Step>, step: Step, a: nat, j: nat)
    requires Valid(before) && Enabled(Run(before), step) && a in After(Run(before), step).actors
    requires j < Tried(After(Run(before), step).actors[a]) && j < |POLL_ORDER|
    ensures !IsBeginning(step, a)
    ensures (a in Run(before).actors && j < Tried(Run(before).actors[a])) ||
      List(After(Run(before), step).store.queues, POLL_ORDER[j]) == []
  {
    if IsBy(step, a) {
      var p := RunKeeps(before);
      if a in p.s.actors && p.s.actors[a].HasId? {
        HeldOnRecord(p, a);
      }
      OwnStep(Run(before), step, a);
    } else {
      OthersStay(Run(before), step, a);
    }
  }

  lemma {:induction false} OneMoreTried(steps: seq<Step>, before: seq<Step>, a: nat, j: nat)
    requires Valid(steps) && steps != [] && before == steps[..|steps| - 1]
    requires a in Run(steps).actors && j < Tried(Run(steps).actors[a]) && j < |POLL_ORDER|
    requires a in Run(before).actors && j < Tried(Run(before).actors[a]) ==> SeenEmpty(before, a, POLL_ORDER[j])
    ensures SeenEmpty(steps, a, POLL_ORDER[j])
  {
    LastStep(steps, before, |steps| - 1);
    TriedBefore(before, steps[|steps| - 1], a, j);
    if a in Run(before).actors && j < Tried(Run(before).actors[a]) {
      StillSeen(steps, before, a, POLL_ORDER[j]);
    }
  }

  /** Every list that a poll has passed was empty at some moment of it. */
  lemma {:induction false} PassedWhenEmpty(steps: seq<Step>, a: nat, j: nat)
    requires Valid(steps) && a in Run(steps).actors && j < Tried(Run(steps).actors[a]) && j < |POLL_ORDER|
    ensures SeenEmpty(steps, a, POLL_ORDER[j])
  {
    if steps != [] {
      var before := steps[..|steps| - 1];
      LastStep(steps, before, |steps| - 1);
      if a in Run(before).actors && j < Tried(Run(before).actors[a]) {
        PassedWhenEmpty(before, a, j);
      }
      OneMoreTried(steps, before, a, j);
    }
  }

  /** The step gets the actor hold of the job. */
  ghost predicate Takes(s: System, step: Step, a: nat, id: Id) {
    && step.Advance? && step.a == a && a in s.actors && !Holds(s.actors[a], id)
    && a in After(s, step).actors && Holds(After(s, step).actors[a], id)
  }

  lemma TakesLast(s: System, step: Step, a: nat, id: Id)
    requires Enabled(s, step) && Takes(s, step, a, id)
    requires s.actors[a].HasId? ==> var x := s.actors[a].id; x in s.store.jobs && s.store.jobs[x].id == x
    ensures var i := Tried(s.actors[a]);
      s.actors[a] == Free(Polling(i)) && i < |POLL_ORDER| &&
      var l := List(s.store.queues, POLL_ORDER[i]); l != [] && id == l[|l| - 1]
  {
  }

  /**
    In every interleaving, a worker that takes a job takes the last of the list of the job's priority, and
    the list of every more urgent priority was empty at some moment since the worker began to poll.
   */
  lemma {:induction false} TakenInOrder(steps: seq<Step>, step: Step, a: nat, id: Id, p: int)
    requires Valid(steps) && Enabled(Run(steps), step) && Takes(Run(steps), step, a, id)
    ensures var s := Run(steps).store;
      && id in s.jobs && 0 <= s.jobs[id].priority <= 3
      && (var l := List(s.queues, QueueOf(s.jobs[id].priority)); l != [] && id == l[|l| - 1])
      && (s.jobs[id].priority < p <= 3 ==> SeenEmpty(steps, a, QueueOf(p)))
  {
    var s := Run(steps);
    var i := Tried(s.actors[a]);
    var placed := RunKeeps(steps);
    if s.actors[a].HasId? {
      HeldOnRecord(placed, a);
    }
    TakesLast(s, step, a, id);
    RunFiled(steps);
    assert id in List(s.store.queues, POLL_ORDER[i]);
    assert s.store.jobs[id].priority == 3 - i;
    if 3 - i < p <= 3 {
      assert POLL_ORDER[3 - p] == QueueOf(p);
      PassedWhenEmpty(steps, a, 3 - p);
    }
  }
}
