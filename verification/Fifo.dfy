/**
  The priority lists as queues (internal/jobs/queue/redis_queue.go): LPUSH at one end and
  RPOP at the other make each of them first in, first out, in every interleaving.
 */
module JobOrder {
  import opened Prelude
  import opened RetryTiming
  import opened JobStore
  import opened JobWorkers
  import opened JobOwnership

  /** The entries of `m` that are not in `l`, in order. */
  function Newcomers(l: seq<Id>, m: seq<Id>): seq<Id> {
    if m == [] then [] else (if m[0] in l then [] else [m[0]]) + Newcomers(l, m[1..])
  }

  function ListAfter(steps: seq<Step>, q: QueueName): seq<Id> {
    List(Run(steps).store.queues, q)
  }

  /** The jobs that have come into the list, in the order in which they came, as seen from step to step. */
  function Arrivals(steps: seq<Step>, q: QueueName): seq<Id> {
    if steps == [] then []
    else
      var before := steps[..|steps| - 1];
      Arrivals(before, q) + Newcomers(ListAfter(before, q), ListAfter(steps, q))
  }

  /** The jobs that have left it, in the order in which they left. */
  function Departures(steps: seq<Step>, q: QueueName): seq<Id> {
    if steps == [] then []
    else
      var before := steps[..|steps| - 1];
      Departures(before, q) + Newcomers(ListAfter(steps, q), ListAfter(before, q))
  }

  function Reversed(l: seq<Id>): seq<Id> {
    if l == [] then [] else Reversed(l[1..]) + [l[0]]
  }

  lemma {:induction false} ReversedSnoc(l: seq<Id>, id: Id)
    ensures Reversed(l + [id]) == [id] + Reversed(l)
  {
    if l != [] {
      assert (l + [id])[1..] == l[1..] + [id];
      ReversedSnoc(l[1..], id);
    } else {
      assert (l + [id])[1..] == [];
    }
  }

  lemma {:induction false} NoNewcomers(l: seq<Id>, m: seq<Id>)
    requires forall id :: id in m ==> id in l
    ensures Newcomers(l, m) == []
  {
    if m != [] {
      NoNewcomers(l, m[1..]);
    }
  }

  lemma {:induction false} LastNewcomer(l: seq<Id>, m: seq<Id>, id: Id)
    requires (forall x :: x in m ==> x in l) && id !in l
    ensures Newcomers(l, m + [id]) == [id]
  {
    if m == [] {
      assert (m + [id])[1..] == [];
    } else {
      assert (m + [id])[1..] == m[1..] + [id];
      LastNewcomer(l, m[1..], id);
    }
  }

  /** Nothing happens to the list, or one entry comes in at its head, or one leaves at its end. */
  ghost predicate OneEntry(l: seq<Id>, m: seq<Id>) {
    m == l || (m != [] && m[1..] == l) || (l != [] && m == l[..|l| - 1])
  }

  lemma PollOneEntry(s: System, a: nat, next: FreeTask, q: QueueName)
    ensures OneEntry(List(s.store.queues, q), List(AfterFree(s, a, next).store.queues, q))
  {
  }

  lemma JobOneEntry(s: System, a: nat, job: Job, task: JobTask, choice: bool, read: int, delay: int, q: QueueName)
    ensures OneEntry(List(s.store.queues, q), List(AfterJob(s, a, job, task, choice, read, delay).store.queues, q))
  {
  }

  lemma PushOneEntry(s: Store, p: QueueName, id: Id, q: QueueName)
    ensures OneEntry(List(s.queues, q), List(LPush(s, p, id).queues, q))
  {
    if p == q {
      assert ([id] + List(s.queues, q))[1..] == List(s.queues, q);
    }
  }

  lemma MoveOneEntry(s: System, q: QueueName)
    ensures OneEntry(List(s.store.queues, q), List(AfterMove(s).store.queues, q))
  {
    if s.mover.MoveStored? {
      var job := s.mover.job;
      assert AfterMove(s).store == LPush(s.store, QueueOf(job.priority), job.id);
      PushOneEntry(s.store, QueueOf(job.priority), job.id, q);
    } else {
      assert AfterMove(s).store.queues == s.store.queues;
    }
  }

  lemma StepOneEntry(s: System, step: Step, q: QueueName)
    ensures OneEntry(List(s.store.queues, q), List(After(s, step).store.queues, q))
  {
    var t := s.(clock := step.now);
    match step
    case Advance(a, choice, read, _) =>
      if a in s.actors {
        match s.actors[a]
        case Free(next) => PollOneEntry(t, a, next, q);
        case HasId(_, _, _) =>
        case HasJob(job, _, task) =>
          JobOneEntry(t, a, job, task, choice, read, CalculateDelay(job.policy, job.attempts), q);
      }
    case AdvanceMove(_) => MoveOneEntry(t, q);
    case _ =>
  }

  lemma ListsOnce(p: Placed, q: QueueName)
    ensures NoDup(List(p.s.store.queues, q))
  {
    OpenJobs(p);
    assert ListTracks(List(p.s.store.queues, q), p.loc, Queued(q));
  }

  /** What one step adds to the arrivals and the departures, and does to the list. */
  lemma {:induction false} EntryCounts(l: seq<Id>, m: seq<Id>)
    requires OneEntry(l, m) && NoDup(l) && NoDup(m)
    ensures Reversed(l) + Newcomers(l, m) == Newcomers(m, l) + Reversed(m)
  {
    if m == l {
      NoNewcomers(l, l);
    } else if m != [] && m[1..] == l {
      var id := m[0];
      assert m == [id] + l && id !in l;
      NoNewcomers(m, l);
      NoNewcomers(l, l);
    } else {
      var id := l[|l| - 1];
      assert l == m + [id];
      assert id !in m;
      ReversedSnoc(m, id);
      NoNewcomers(l, m);
      LastNewcomer(m, m, id);
    }
  }

  lemma {:induction false} StepCounts(steps: seq<Step>, before: seq<Step>, q: QueueName)
    requires Valid(steps) && steps != [] && before == steps[..|steps| - 1] && Valid(before)
    ensures var (l, m) := (ListAfter(before, q), ListAfter(steps, q));
      Reversed(l) + Newcomers(l, m) == Newcomers(m, l) + Reversed(m)
  {
    var p := RunKeeps(before);
    ListsOnce(p, q);
    p := RunKeeps(steps);
    ListsOnce(p, q);
    StepOneEntry(Run(before), steps[|steps| - 1], q);
    EntryCounts(ListAfter(before, q), ListAfter(steps, q));
  }

  lemma Rejoin(left: seq<Id>, l: seq<Id>, came: seq<Id>, went: seq<Id>, m: seq<Id>)
    requires l + came == went + m
    ensures (left + l) + came == (left + went) + m
  {
    assert (left + l) + came == left + (l + came);
    assert (left + went) + m == left + (went + m);
  }

  /**
    In every interleaving, each priority list is first in, first out: what has come into it, in order, is
    what has left it, in order, followed by what is in it now, oldest first.
   */
  lemma {:induction false} FirstInFirstOut(steps: seq<Step>, q: QueueName)
    requires Valid(steps)
    ensures Arrivals(steps, q) == Departures(steps, q) + Reversed(ListAfter(steps, q))
  {
    if steps != [] {
      var n := |steps| - 1;
      var before := steps[..n];
      LastStep(steps, before, n);
      FirstInFirstOut(before, q);
      var l, m := ListAfter(before, q), ListAfter(steps, q);
      StepCounts(steps, before, q);
      Rejoin(Departures(before, q), Reversed(l), Newcomers(l, m), Newcomers(m, l), Reversed(m));
    }
  }

  /** So the k-th job to leave a list is the k-th that came into it. */
  lemma {:induction false} LeavesInTurn(steps: seq<Step>, q: QueueName, k: nat)
    requires Valid(steps) && k < |Departures(steps, q)|
    ensures k < |Arrivals(steps, q)| && Departures(steps, q)[k] == Arrivals(steps, q)[k]
  {
    FirstInFirstOut(steps, q);
  }
}
