/**
  Jobs in queues that nobody polls (internal/jobs/job.go, internal/jobs/queue/redis_queue.go):
  a priority outside the four known ones names a queue of its own.
 */
module StrandedJobs {
  import opened Prelude
  import opened RetryTiming
  import opened JobStore
  import opened JobWorkers
  import opened JobOwnership
  import opened JobHistory

  ghost predicate Stranded(s: System, id: Id) {
    id in List(s.store.queues, UnknownQueue)
  }

  lemma PollLeavesStranded(s: System, a: nat, i: nat, id: Id)
    requires Stranded(s, id)
    ensures Stranded(AfterFree(s, a, Polling(i)), id)
  {
    if i < |POLL_ORDER| {
      assert POLL_ORDER[i] != UnknownQueue;
    }
  }

  lemma JobStepLeavesStranded(s: System, a: nat, job: Job, task: JobTask, choice: bool, read: int, delay: int, id: Id)
    requires Stranded(s, id)
    ensures Stranded(AfterJob(s, a, job, task, choice, read, delay), id)
  {
  }

  lemma StepLeavesStranded(s: System, step: Step, id: Id)
    requires Stranded(s, id)
    ensures Stranded(After(s, step), id)
  {
    var t := s.(clock := step.now);
    if step.Advance? && step.a in s.actors {
      var pc := s.actors[step.a];
      if pc.HasJob? {
        JobStepLeavesStranded(t, step.a, pc.job, pc.task, step.choice, step.read,
          CalculateDelay(pc.job.policy, pc.job.attempts), id);
      } else if pc.Free? && pc.next.Polling? {
        PollLeavesStranded(t, step.a, pc.next.i, id);
      }
    }
  }

  /** A job whose priority is none of the four, once queued, is never taken out again. */
  lemma {:induction false} StrandedForever(steps: seq<Step>, n: nat, id: Id)
    requires n <= |steps| && Stranded(Run(steps[..n]), id)
    ensures Stranded(Run(steps), id)
  {
    if n == |steps| {
      assert steps[..n] == steps;
    } else {
      var m := |steps| - 1;
      assert steps[..m][..n] == steps[..n];
      StrandedForever(steps[..m], n, id);
      StepLeavesStranded(Run(steps[..m]), steps[m], id);
    }
  }

  // ---------- Jobs that can be taken ----------

  /** A run that goes on from `steps`. */
  ghost predicate Goes(all: seq<Step>, steps: seq<Step>) {
    |steps| <= |all| && all[..|steps|] == steps && Valid(all)
  }

  /** A continuation and its last state; looked into with OpenReached. */
  datatype Stage = Stage(all: seq<Step>, s: System)

  ghost predicate IsReached(o: Stage, steps: seq<Step>) {
    forall k :: Asked(k) ==> Goes(o.all, steps) && Run(o.all) == o.s
  }

  lemma OpenReached(o: Stage, steps: seq<Step>)
    requires IsReached(o, steps)
    ensures Goes(o.all, steps) && Run(o.all) == o.s
  {
    assert Asked(0);
  }

  lemma {:induction false} GoOn(o: Stage, steps: seq<Step>, step: Step) returns (n: Stage)
    requires IsReached(o, steps) && Enabled(o.s, step)
    ensures IsReached(n, steps) && n.s == After(o.s, step)
  {
    OpenReached(o, steps);
    var more := o.all + [step];
    Snoc(o.all, step);
    assert more[..|steps|] == o.all[..|steps|];
    n := Stage(more, After(o.s, step));
  }

  /** Somebody gets hold of the job. */
  ghost predicate IsHeld(s: System, id: Id) {
    exists a :: a in s.actors && Holds(s.actors[a], id)
  }

  /** In some continuation somebody gets hold of the job. */
  ghost predicate CanBeTaken(steps: seq<Step>, id: Id) {
    exists all :: Goes(all, steps) && IsHeld(Run(all), id)
  }

  /** Entries of the queues that workers poll. */
  function Backlog(queues: map<QueueName, seq<Id>>): nat {
    |List(queues, CriticalQueue)| + |List(queues, HighQueue)| + |List(queues, NormalQueue)| + |List(queues, LowQueue)|
  }

  lemma EmptyPollStep(s: System, a: nat, i: nat, step: Step)
    requires a in s.actors && s.actors[a] == Free(Polling(i)) && i < |POLL_ORDER| &&
      List(s.store.queues, POLL_ORDER[i]) == []
    requires step == Advance(a, true, s.clock, s.clock)
    ensures Enabled(s, step) && After(s, step) == To(s, a, Free(Polling(i + 1)))
  {
  }

  lemma PopStep(s: System, a: nat, i: nat, step: Step, x: Id)
    requires a in s.actors && s.actors[a] == Free(Polling(i)) && i < |POLL_ORDER|
    requires var l := List(s.store.queues, POLL_ORDER[i]); l != [] && x == l[|l| - 1]
    requires step == Advance(a, true, s.clock, s.clock)
    ensures Enabled(s, step)
    ensures After(s, step) == To(s, a, HasId(x, Uncounted, ToDequeue(i))).(store := RPop(s.store, POLL_ORDER[i]))
  {
  }

  lemma PopShrinks(s: Store, i: nat)
    requires i < |POLL_ORDER| && List(s.queues, POLL_ORDER[i]) != []
    ensures Backlog(RPop(s, POLL_ORDER[i]).queues) == Backlog(s.queues) - 1
  {
    assert POLL_ORDER[i] in {CriticalQueue, HighQueue, NormalQueue, LowQueue};
  }

  /** A pop takes the job or leaves it where it is. */
  lemma PopLeaves(s: Store, i: nat, k: nat, id: Id)
    requires i < |POLL_ORDER| && k < |POLL_ORDER| && List(s.queues, POLL_ORDER[i]) != [] &&
      id in List(s.queues, POLL_ORDER[k])
    ensures var l := List(s.queues, POLL_ORDER[i]);
      id == l[|l| - 1] || id in List(RPop(s, POLL_ORDER[i]).queues, POLL_ORDER[k])
  {
    var l := List(s.queues, POLL_ORDER[i]);
    assert l == l[..|l| - 1] + [l[|l| - 1]];
  }

  /** The job is held, or still queued with less in front of the pollers than `n`. */
  ghost predicate Nearer(s: System, k: nat, id: Id, n: nat)
    requires k < |POLL_ORDER|
  {
    IsHeld(s, id) || (id in List(s.store.queues, POLL_ORDER[k]) && Backlog(s.store.queues) < n)
  }

  lemma PopNears(s: System, a: nat, i: nat, k: nat, id: Id, step: Step)
    requires i <= k < |POLL_ORDER| && id in List(s.store.queues, POLL_ORDER[k]) &&
      List(s.store.queues, POLL_ORDER[i]) != []
    requires a in s.actors && s.actors[a] == Free(Polling(i)) && step == Advance(a, true, s.clock, s.clock)
    ensures Enabled(s, step) && Nearer(After(s, step), k, id, Backlog(s.store.queues))
  {
    var l, t := List(s.store.queues, POLL_ORDER[i]), After(s, step);
    PopStep(s, a, i, step, l[|l| - 1]);
    PopShrinks(s.store, i);
    PopLeaves(s.store, i, k, id);
    assert a in t.actors && Holds(t.actors[a], l[|l| - 1]);
  }

  /** A poller that has not passed the job's queue pops the job, or somebody else's entry. */
  lemma {:induction false} OnePoll(o: Stage, steps: seq<Step>, a: nat, i: nat, k: nat, id: Id, n: nat)
      returns (r: Stage)
    requires IsReached(o, steps) && i <= k < |POLL_ORDER| && id in List(o.s.store.queues, POLL_ORDER[k])
    requires a in o.s.actors && o.s.actors[a] == Free(Polling(i)) && n == Backlog(o.s.store.queues)
    ensures IsReached(r, steps) && Nearer(r.s, k, id, n)
    decreases k - i
  {
    var step := Advance(a, true, o.s.clock, o.s.clock);
    if List(o.s.store.queues, POLL_ORDER[i]) == [] {
      EmptyPollStep(o.s, a, i, step);
      r := GoOn(o, steps, step);
      r := OnePoll(r, steps, a, i + 1, k, id, n);
    } else {
      PopNears(o.s, a, i, k, id, step);
      r := GoOn(o, steps, step);
    }
  }

  lemma BeginPoll(s: System, a: nat)
    requires a !in s.actors
    ensures Enabled(s, BeginDequeue(a, s.clock)) && After(s, BeginDequeue(a, s.clock)) == To(s, a, Free(Polling(0)))
  {
  }

  /** Enough fresh pollers empty the queues down to the job. */
  lemma {:induction false} PolledIsTaken(o: Stage, steps: seq<Step>, k: nat, id: Id) returns (r: Stage)
    requires IsReached(o, steps) && k < |POLL_ORDER| && id in List(o.s.store.queues, POLL_ORDER[k])
    ensures IsReached(r, steps) && IsHeld(r.s, id)
    decreases Backlog(o.s.store.queues)
  {
    var a := Bound(o.s.actors.Keys);
    BeginPoll(o.s, a);
    r := GoOn(o, steps, BeginDequeue(a, o.s.clock));
    r := OnePoll(r, steps, a, 0, k, id, Backlog(o.s.store.queues));
    if !IsHeld(r.s, id) {
      r := PolledIsTaken(r, steps, k, id);
    }
  }

  lemma StrandedNotHeld(p: Placed, id: Id)
    requires Stranded(p.s, id)
    ensures !IsHeld(p.s, id)
  {
    QueuedPlace(p, UnknownQueue, id);
    HolderCount(p, id);
    assert forall a :: a in p.s.actors && Holds(p.s.actors[a], id) ==> a in Holders(p.s, id);
  }

  lemma QueuedPlace(p: Placed, q: QueueName, id: Id)
    requires id in List(p.s.store.queues, q)
    ensures id in p.loc && p.loc[id] == Queued(q)
  {
    OpenJobs(p);
    assert ListTracks(List(p.s.store.queues, q), p.loc, Queued(q));
  }

  lemma {:induction false} StrandedNotTaken(steps: seq<Step>, all: seq<Step>, id: Id)
    requires Goes(all, steps) && Stranded(Run(steps), id)
    ensures !IsHeld(Run(all), id)
  {
    StrandedForever(all, |steps|, id);
    var p := RunKeeps(all);
    StrandedNotHeld(p, id);
  }

  /**
   * In every reachable state, a queued job can still be taken by a worker if and only if its priority
   * is one of the four.
   */
  lemma {:induction false} TakenIffPolled(steps: seq<Step>, q: QueueName, id: Id)
    requires Valid(steps) && id in List(Run(steps).store.queues, q)
    ensures CanBeTaken(steps, id) <==> q != UnknownQueue
  {
    assert steps[..|steps|] == steps;
    if q == UnknownQueue {
      forall all | Goes(all, steps) ensures !IsHeld(Run(all), id) {
        StrandedNotTaken(steps, all, id);
      }
    } else {
      var k := IndexOf(q);
      var o := PolledIsTaken(Stage(steps, Run(steps)), steps, k, id);
      OpenReached(o, steps);
    }
  }

  lemma IndexOf(q: QueueName) returns (k: nat)
    requires q != UnknownQueue
    ensures k < |POLL_ORDER| && POLL_ORDER[k] == q
  {
    k := match q
      case CriticalQueue => 0
      case HighQueue => 1
      case NormalQueue => 2
      case LowQueue => 3;
  }

  lemma {:induction false} EnqueuesAt(job: Job) returns (steps: seq<Step>)
    requires job.attempts == 0 && job.status == Pending && job.scheduledAt == None
    ensures Valid(steps) && job.id in List(Run(steps).store.queues, QueueOf(job.priority))
  {
    var s := Initial();
    CheckStep(s, 0, job.uniqueKey);
    Snoc([], BeginEnqueue(0, job.uniqueKey, s.clock));
    steps := [] + [BeginEnqueue(0, job.uniqueKey, s.clock)];
    s := Run(steps);
    StoreStep(s, 0, job);
    Snoc(steps, StoreJob(0, job, s.clock));
    steps := steps + [StoreJob(0, job, s.clock)];
    s := Run(steps);
    PlaceStep(s, 0, job);
    Snoc(steps, Advance(0, true, s.clock, s.clock));
    steps := steps + [Advance(0, true, s.clock, s.clock)];
  }

  /** Any priority outside 0..3 strands its job for good. */
  lemma {:induction false} OddPriorityStrands(job: Job) returns (steps: seq<Step>)
    requires job.attempts == 0 && job.status == Pending && job.scheduledAt == None && !(0 <= job.priority <= 3)
    ensures Valid(steps) && Stranded(Run(steps), job.id) && !CanBeTaken(steps, job.id)
  {
    steps := EnqueuesAt(job);
    TakenIffPolled(steps, UnknownQueue, job.id);
  }
}
