/** The way of a single job through one worker whose handler succeeds, beside whatever else is going on. */
module JobJourneys {
  import opened JobStore
  import opened JobWorkers
  import opened JobOwnership

  /** Job 0 is the only one, with record `job`; worker 1 is at `pc`, and `others` are the other actors. */
  ghost predicate Travels(s: System, others: map<nat, Pc>, pc: Pc, job: Job) {
    && 1 !in others && s.actors == others[1 := pc]
    && s.store.jobs == map[0 := job] && s.store.dlq == [] && s.store.unique == map[]
  }

  /** Worker 1 has popped the job, and has not yet marked it completed. */
  predicate OnTheWay(pc: Pc, job: Job) {
    && job.id == 0
    && match pc
       case Free(_) => false
       case HasId(id, _, fetch) => id == 0 && !fetch.ToFail?
       case HasJob(j, _, task) => j == job && (IsThought(task) || task.Fetched? || task.CompleteFetched?)
  }

  /** The worker's next program counter. */
  function Successor(pc: Pc, job: Job): Pc {
    match pc
    case HasId(_, _, ToDequeue(_)) => HasJob(job, Uncounted, Fetched)
    case HasId(_, _, ToComplete) => HasJob(job, Handed, CompleteFetched)
    case HasJob(_, _, Fetched) => HasJob(Started(job), Counted, Dequeued)
    case HasJob(_, _, Dequeued) => HasJob(job, Counted, Locking)
    case HasJob(_, _, Locking) => HasJob(job, Counted, Locked)
    case HasJob(_, _, Locked) => HasJob(job, Handed, Handling)
    case HasJob(_, _, Handling) => HasId(job.id, Handed, ToComplete)
    case HasJob(_, _, CompleteFetched) => Free(CompleteStored(job.(status := Completed)))
    case _ => pc
  }

  /** The record after that step. */
  function Recorded(pc: Pc, job: Job): Job {
    match pc
    case HasJob(_, _, Fetched) => Started(job)
    case HasJob(_, _, CompleteFetched) => job.(status := Completed)
    case _ => job
  }

  /** The step itself: the idempotency check finds nothing, and everything else goes well. */
  function Onward(s: System, pc: Pc): Step {
    Advance(1, !(pc.HasJob? && pc.task.Dequeued?), s.clock, s.clock)
  }

  lemma FetchTravels(s: System, others: map<nat, Pc>, pc: Pc, job: Job)
    requires Travels(s, others, pc, job) && OnTheWay(pc, job) && pc.HasId?
    ensures Travels(AfterAdvance(s, 1, true, s.clock), others, Successor(pc, job), job)
  {
  }

  lemma JobTravels(s: System, others: map<nat, Pc>, pc: Pc, job: Job)
    requires Travels(s, others, pc, job) && OnTheWay(pc, job) && pc.HasJob?
    ensures Travels(AfterAdvance(s, 1, !pc.task.Dequeued?, s.clock), others, Successor(pc, job), Recorded(pc, job))
  {
  }

  lemma TravelStep(s: System, others: map<nat, Pc>, pc: Pc, job: Job)
    requires Travels(s, others, pc, job) && OnTheWay(pc, job)
    ensures Enabled(s, Onward(s, pc)) && Travels(After(s, Onward(s, pc)), others, Successor(pc, job), Recorded(pc, job))
  {
    assert s.(clock := s.clock) == s;
    if pc.HasId? {
      FetchTravels(s, others, pc, job);
    } else {
      JobTravels(s, others, pc, job);
    }
  }

  /** Worker 1 begins to poll and finds the job in the first queue. */
  lemma PopTravels(s: System, others: map<nat, Pc>, job: Job, begin: Step, pop: Step)
    requires 1 !in others && s.actors == others && s.store.jobs == map[0 := job] && s.store.dlq == [] &&
      s.store.unique == map[]
    requires List(s.store.queues, CriticalQueue) == [0]
    requires begin == BeginDequeue(1, s.clock) && pop == Advance(1, true, s.clock, s.clock)
    ensures Enabled(s, begin) && Enabled(After(s, begin), pop)
    ensures Travels(After(After(s, begin), pop), others, HasId(0, Uncounted, ToDequeue(0)), job)
  {
    assert POLL_ORDER[0] == CriticalQueue;
    var t := After(s, begin);
    assert t == To(s, 1, Free(Polling(0)));
  }
}
