/**
  Producers, workers and the scheduled processor, command by command
  (internal/jobs/queue/redis_queue.go and internal/jobs/worker/pool.go).

  Every actor is a program counter with its local variables; every step issues at
  most one Redis command.  What an actor cannot determine from the store (whether
  the idempotency key exists, whether the lock is free, whether a handler is
  registered, whether it succeeds) is a free choice of the step.  A clock reading
  that goes into a command may be older than the command by any amount.
 */
module JobWorkers {
  import opened Prelude
  import opened RetryTiming
  import opened JobStore

  /** What an actor that holds no job does next. */
  datatype FreeTask =
    | EnqueueChecked(key: string)       // SET the record
    | EnqueuePlaced(job: Job)           // SET the unique key
    | Polling(i: nat)                   // RPOP the i-th queue
    | CompleteStored(job: Job)          // DEL the unique key
    | FailBuried(job: Job)              // DEL the unique key

  /** What an actor that holds a job's ID but not its record will GET the record for. */
  datatype FetchTask = ToDequeue(i: nat) | ToComplete | ToFail

  /** What an actor that holds a job and its record does next. */
  datatype JobTask =
    | EnqueueStored                     // ZADD or LPUSH
    | Fetched                           // SET it as running, one attempt more
    | Dequeued                          // check the idempotency key
    | Locking                           // SETNX the job lock
    | Locked                            // look up the handler
    | Handling                          // run the handler
    | Requeueing                        // SET it as pending, one attempt less
    | Requeued                          // LPUSH
    | CompleteFetched                   // SET it as completed
    | FailFetched                       // SET it as retrying or dead
    | FailRetry(at: int)                // ZADD
    | FailDead                          // LPUSH to the dead-letter list

  datatype RawPc =
    | Free(next: FreeTask)
    | HasId(id: Id, phase: Phase, fetch: FetchTask)
    | HasJob(job: Job, phase: Phase, task: JobTask)

  function PhaseOf(task: JobTask): Phase {
    match task
    case EnqueueStored => Uncounted
    case Fetched => Uncounted
    case Dequeued => Counted
    case Locking => Counted
    case Locked => Counted
    case Handling => Handed
    case Requeueing => Counted
    case Requeued => Uncounted
    case CompleteFetched => Handed
    case FailFetched => Handed
    case FailRetry(_) => Rescheduling
    case FailDead => Burying
  }

  predicate WellPhased(pc: RawPc) {
    && (pc.HasId? ==> pc.phase == if pc.fetch.ToDequeue? then Uncounted else Handed)
    && (pc.HasJob? ==> pc.phase == PhaseOf(pc.task))
  }

  /** A program counter; `phase` says how far the holder has got with the job and follows from what it does next. */
  type Pc = pc: RawPc | WellPhased(pc) witness Free(Polling(0))

  /** The scheduled processor, which runs one ProcessScheduled after another. */
  datatype Mover =
    | Resting
    | Batch(ids: seq<Id>)               // next: GET the first record
    | MoveFetched(job: Job, ids: seq<Id>)   // next: ZREM
    | MoveRemoved(job: Job, ids: seq<Id>)   // next: SET it as pending
    | MoveStored(job: Job, ids: seq<Id>)    // next: LPUSH

  /** History of one job: failures recorded, and how often a handler was given it. */
  datatype Book = Book(fails: nat, handed: nat)

  datatype System = System(
    store: Store,
    actors: map<nat, Pc>,        // an absent actor is idle
    mover: Mover,
    clock: int,
    book: map<Id, Book>,         // history only
    due: map<Id, int>)           // history only: when a delayed or failed job was promised to run

  datatype Step =
    | BeginEnqueue(a: nat, key: string, now: int)
    | StoreJob(a: nat, job: Job, now: int)
    | BeginDequeue(a: nat, now: int)
    | Advance(a: nat, choice: bool, read: int, now: int)
    | BeginMove(ids: seq<Id>, read: int, now: int)
    | AdvanceMove(now: int)

  function Initial(): System {
    System(EmptyStore(), map[], Resting, 0, map[], map[])
  }

  /** New IDs are fresh, new jobs have made no attempt, time does not go back and is read before it is used. */
  ghost predicate Enabled(s: System, step: Step) {
    && step.now >= s.clock
    && match step
       case BeginEnqueue(a, _, _) => a !in s.actors
       case StoreJob(a, job, _) =>
         && a in s.actors && s.actors[a] == Free(EnqueueChecked(job.uniqueKey))
         && job.id !in s.store.jobs && job.attempts == 0 && job.status == Pending
       case BeginDequeue(a, _) => a !in s.actors
       case Advance(a, _, read, now) => read <= now && a in s.actors && !AwaitsJob(s.actors[a])
       case BeginMove(ids, read, now) => read <= now && s.mover.Resting? && IsDue(s.store.scheduled, Unix(read), ids)
       case AdvanceMove(_) => !s.mover.Resting?
  }

  /** The duplicate check is passed; the next step brings the job itself. */
  predicate AwaitsJob(pc: Pc) {
    pc.Free? && pc.next.EnqueueChecked?
  }

  function To(s: System, a: nat, pc: Pc): System {
    s.(actors := s.actors[a := pc])
  }

  function Done(s: System, a: nat): System {
    s.(actors := s.actors - {a})
  }

  function BookOf(s: System, id: Id): Book {
    if id in s.book then s.book[id] else Book(0, 0)
  }

  function AfterFree(s: System, a: nat, next: FreeTask): System {
    match next
    case EnqueueChecked(_) => s
    case EnqueuePlaced(job) => Done(s, a).(store := SetUnique(s.store, job))
    case Polling(i) =>
      if i >= |POLL_ORDER| then Done(s, a)
      else
        var l := List(s.store.queues, POLL_ORDER[i]);
        if l == [] then To(s, a, Free(Polling(i + 1)))
        else To(s, a, HasId(l[|l| - 1], Uncounted, ToDequeue(i))).(store := RPop(s.store, POLL_ORDER[i]))
    case CompleteStored(job) => Done(s, a).(store := DelUnique(s.store, job))
    case FailBuried(job) => Done(s, a).(store := DelUnique(s.store, job))
  }

  function AfterFetch(s: System, a: nat, id: Id, fetch: FetchTask): System {
    if id !in s.store.jobs then
      if fetch.ToDequeue? then To(s, a, Free(Polling(fetch.i + 1))) else Done(s, a)
    else
      To(s, a, match fetch
        case ToDequeue(_) => HasJob(s.store.jobs[id], Uncounted, Fetched)
        case ToComplete => HasJob(s.store.jobs[id], Handed, CompleteFetched)
        case ToFail => HasJob(s.store.jobs[id], Handed, FailFetched))
  }

  /** Enqueue's placing of the job. */
  function AfterPlace(s: System, a: nat, job: Job, read: int): System {
    var t := To(s, a, Free(EnqueuePlaced(job)));
    if job.scheduledAt.Some? && job.scheduledAt.value > read then
      t.(store := ZAdd(s.store, job.id, Unix(job.scheduledAt.value)), due := s.due[job.id := job.scheduledAt.value])
    else t.(store := LPush(s.store, QueueOf(job.priority), job.id))
  }

  function Rewritten(s: System, a: nat, job: Job, task: JobTask): System {
    To(s, a, HasJob(job, PhaseOf(task), task)).(store := SetJob(s.store, job))
  }

  function AfterRequeue(s: System, a: nat, job: Job): System {
    Done(s, a).(store := LPush(s.store, QueueOf(job.priority), job.id))
  }

  function AfterHand(s: System, a: nat, job: Job): System {
    var b := BookOf(s, job.id);
    To(s, a, HasJob(job, Handed, Handling)).(book := s.book[job.id := b.(handed := b.handed + 1)])
  }

  function AfterComplete(s: System, a: nat, job: Job): System {
    var j := job.(status := Completed);
    To(s, a, Free(CompleteStored(j))).(store := SetJob(s.store, j))
  }

  /** Fail's decision between another attempt after `delay` and the dead-letter list. */
  function AfterVerdict(s: System, a: nat, job: Job, read: int, delay: int): System {
    if job.attempts < job.maxRetries then AfterRetry(s, a, job, read, delay)
    else Rewritten(s, a, job.(status := Status.Dead), FailDead)
  }

  function AfterRetry(s: System, a: nat, job: Job, read: int, delay: int): System {
    var at := read + delay;
    var j := job.(status := Retrying, scheduledAt := Some(at));
    To(s, a, HasJob(j, Rescheduling, FailRetry(at))).(store := SetJob(s.store, j), due := s.due[job.id := at])
  }

  function AfterReschedule(s: System, a: nat, job: Job, at: int): System {
    var b := BookOf(s, job.id);
    Done(s, a).(store := ZAdd(s.store, job.id, Unix(at)), book := s.book[job.id := b.(fails := b.fails + 1)])
  }

  function AfterBury(s: System, a: nat, job: Job): System {
    var b := BookOf(s, job.id);
    To(s, a, Free(FailBuried(job))).(
      store := PushDead(s.store, job.id), book := s.book[job.id := b.(fails := b.fails + 1)])
  }

  /** `read` is the clock reading, and `delay` the retry delay, that the step may use. */
  function AfterJob(s: System, a: nat, job: Job, task: JobTask, choice: bool, read: int, delay: int): System {
    match task
    case EnqueueStored => AfterPlace(s, a, job, read)
    case Fetched => Rewritten(s, a, Started(job), Dequeued)
    case Dequeued =>
      To(s, a, if choice then HasId(job.id, Handed, ToComplete) else HasJob(job, Counted, Locking))
    case Locking => To(s, a, HasJob(job, Counted, if choice then Locked else Requeueing))
    case Locked => if choice then AfterHand(s, a, job) else To(s, a, HasId(job.id, Handed, ToFail))
    case Handling => To(s, a, HasId(job.id, Handed, if choice then ToComplete else ToFail))
    case Requeueing => Rewritten(s, a, Unstarted(job), Requeued)
    case Requeued => AfterRequeue(s, a, job)
    case CompleteFetched => AfterComplete(s, a, job)
    case FailFetched => AfterVerdict(s, a, job, read, delay)
    case FailRetry(at) => AfterReschedule(s, a, job, at)
    case FailDead => AfterBury(s, a, job)
  }

  function AfterMove(s: System): System {
    match s.mover
    case Resting => s
    case Batch(ids) =>
      if ids == [] then s.(mover := Resting)
      else if ids[0] !in s.store.jobs then s.(mover := Batch(ids[1..]))
      else s.(mover := MoveFetched(s.store.jobs[ids[0]], ids[1..]))
    case MoveFetched(job, ids) => s.(mover := MoveRemoved(job, ids), store := ZRem(s.store, job.id))
    case MoveRemoved(job, ids) =>
      var j := job.(scheduledAt := None, status := Pending);
      s.(mover := MoveStored(j, ids), store := SetJob(s.store, j))
    case MoveStored(job, ids) =>
      s.(mover := Batch(ids), store := LPush(s.store, QueueOf(job.priority), job.id))
  }

  function AfterAdvance(s: System, a: nat, choice: bool, read: int): System
    requires a in s.actors
  {
    match s.actors[a]
    case Free(next) => AfterFree(s, a, next)
    case HasId(id, _, fetch) => AfterFetch(s, a, id, fetch)
    case HasJob(job, _, task) => AfterJob(s, a, job, task, choice, read, CalculateDelay(job.policy, job.attempts))
  }

  function After(s: System, step: Step): System {
    var t := s.(clock := step.now);
    match step
    case BeginEnqueue(a, key, _) =>
      if key != "" && key in s.store.unique then t else To(t, a, Free(EnqueueChecked(key)))
    case StoreJob(a, job, _) =>
      To(t, a, HasJob(job, Uncounted, EnqueueStored)).(store := SetJob(t.store, job),
        book := t.book[job.id := Book(0, 0)])
    case BeginDequeue(a, _) => To(t, a, Free(Polling(0)))
    case Advance(a, choice, read, _) => if a in t.actors then AfterAdvance(t, a, choice, read) else t
    case BeginMove(ids, _, _) => t.(mover := Batch(ids))
    case AdvanceMove(_) => AfterMove(t)
  }

  // ---------- Runs ----------

  function Run(steps: seq<Step>): System {
    if steps == [] then Initial() else After(Run(steps[..|steps| - 1]), steps[|steps| - 1])
  }

  ghost predicate Valid(steps: seq<Step>) {
    forall i :: 0 <= i < |steps| ==> Enabled(Run(steps[..i]), steps[i])
  }

  // ---------- Places, counted on the system itself ----------

  /** The job a program counter holds, and how far it has got with it. */
  function Grip(pc: Pc): Option<(Id, Phase)> {
    match pc
    case Free(_) => None
    case HasId(id, phase, _) => Some((id, phase))
    case HasJob(job, phase, _) => Some((job.id, phase))
  }

  predicate Holds(pc: Pc, id: Id) {
    Grip(pc).Some? && Grip(pc).value.0 == id
  }

  predicate Moves(m: Mover, id: Id) {
    (m.MoveRemoved? || m.MoveStored?) && m.job.id == id
  }

  function Holders(s: System, id: Id): set<nat> {
    set a | a in s.actors && Holds(s.actors[a], id)
  }

  /** Entries of a job in the five priority lists. */
  function QueueEntries(queues: map<QueueName, seq<Id>>, id: Id): nat {
    multiset(List(queues, CriticalQueue))[id] + multiset(List(queues, HighQueue))[id]
    + multiset(List(queues, NormalQueue))[id] + multiset(List(queues, LowQueue))[id]
    + multiset(List(queues, UnknownQueue))[id]
  }

  /** In how many places a job is, counting every list entry and every holder. */
  function PlaceCount(s: System, id: Id): nat
    requires id in s.store.jobs
  {
    QueueEntries(s.store.queues, id)
    + (if id in s.store.scheduled then 1 else 0)
    + multiset(s.store.dlq)[id]
    + |Holders(s, id)|
    + (if Moves(s.mover, id) then 1 else 0)
    + (if s.store.jobs[id].status == Completed then 1 else 0)
  }

  // ---------- The invariant ----------

  /** The actors hold exactly the jobs that `loc` puts in their hands. */
  ghost predicate GripsTrack(actors: map<nat, Pc>, loc: Places) {
    && (forall a :: a in actors && Grip(actors[a]).Some? ==>
          var (id, phase) := Grip(actors[a]).value; id in loc && loc[id] == Held(a, phase))
    && (forall id :: id in loc && loc[id].Held? ==>
          loc[id].owner in actors && Grip(actors[loc[id].owner]) == Some((id, loc[id].phase)))
  }

  /** No holder's copy of a record is stale. */
  ghost predicate CopiesTrack(actors: map<nat, Pc>, jobs: map<Id, Job>) {
    forall a :: a in actors && actors[a].HasJob? ==>
      actors[a].job.id in jobs && jobs[actors[a].job.id] == actors[a].job
  }

  /** What the attempt counter of a record means, by where the job is. */
  ghost predicate Balanced(j: Job, b: Book, place: Place) {
    && (place == Finished <==> j.status == Completed)
    && match place
       case Queued(_) => j.attempts == b.fails < Cap(j) && b.handed <= b.fails
       case Waiting => j.attempts == b.fails < Cap(j) && b.handed <= b.fails
       case Moving => j.attempts == b.fails < Cap(j) && b.handed <= b.fails
       case Buried => j.attempts == b.fails == Cap(j) && b.handed <= b.fails
       case Finished => j.attempts == b.fails + 1 <= Cap(j) && b.handed <= b.fails + 1
       case Held(_, phase) =>
         && b.fails < Cap(j)
         && j.attempts == (if phase == Uncounted then b.fails else b.fails + 1)
         && b.handed <= (if phase == Uncounted || phase == Counted then b.fails else b.fails + 1)
         && (phase == Rescheduling ==> j.attempts < j.maxRetries)
         && (phase == Burying ==> j.attempts >= j.maxRetries)
  }

  ghost predicate BooksTrack(jobs: map<Id, Job>, book: map<Id, Book>, loc: Places) {
    && loc.Keys == jobs.Keys == book.Keys
    && forall id :: id in loc ==> Balanced(jobs[id], book[id], loc[id])
  }

  /** Scores are the promised times in whole seconds. */
  ghost predicate ScoresTrack(scheduled: map<Id, int>, due: map<Id, int>) {
    forall id :: id in scheduled ==> id in due && scheduled[id] == Unix(due[id])
  }

  ghost predicate IsRetry(pc: Pc) {
    pc.HasJob? && pc.task.FailRetry?
  }

  ghost predicate PendingRetries(actors: map<nat, Pc>, due: map<Id, int>) {
    forall a :: a in actors && IsRetry(actors[a]) ==>
      actors[a].job.id in due && due[actors[a].job.id] == actors[a].task.at
  }

  /** The rest of the processor's batch is still scheduled, and due. */
  ghost predicate BatchTracks(scheduled: map<Id, int>, second: int, ids: seq<Id>) {
    NoDup(ids) && forall id :: id in ids ==> id in scheduled && scheduled[id] <= second
  }

  /** The processor's copy of the job it works on is current, and the job was due. */
  ghost predicate CarriedTracks(jobs: map<Id, Job>, due: map<Id, int>, second: int, job: Job, ids: seq<Id>) {
    job.id in jobs && jobs[job.id] == job && job.id !in ids && job.id in due && Unix(due[job.id]) <= second
  }

  ghost predicate MoverTracks(s: System, loc: Places) {
    && (forall id :: id in loc && loc[id] == Moving <==> Moves(s.mover, id))
    && (!s.mover.Resting? ==> BatchTracks(s.store.scheduled, Unix(s.clock), s.mover.ids))
    && (!s.mover.Resting? && !s.mover.Batch? ==>
          CarriedTracks(s.store.jobs, s.due, Unix(s.clock), s.mover.job, s.mover.ids))
    && (s.mover.MoveFetched? ==> s.mover.job.id in s.store.scheduled)
  }

  ghost predicate ActorsTrack(s: System, loc: Places) {
    && GripsTrack(s.actors, loc)
    && CopiesTrack(s.actors, s.store.jobs)
    && PendingRetries(s.actors, s.due)
  }

  ghost predicate JobsTrack(s: System, loc: Places) {
    && Tracks(s.store, loc)
    && BooksTrack(s.store.jobs, s.book, loc)
    && ScoresTrack(s.store.scheduled, s.due)
    && MoverTracks(s, loc)
  }

  datatype Placement = Placement(s: System, loc: Places)

  /** The two halves of the agreement, each looked into only with OpenJobs or OpenActors. */
  ghost predicate JobsSealed(p: Placement) {
    forall k :: Asked(k) ==> JobsTrack(p.s, p.loc)
  }

  ghost predicate ActorsSealed(p: Placement) {
    forall k :: Asked(k) ==> ActorsTrack(p.s, p.loc)
  }

  type JobsPlaced = p: Placement | JobsSealed(p) ghost witness Placement(Initial(), map[])
  type ActorsPlaced = p: Placement | ActorsSealed(p) ghost witness Placement(Initial(), map[])

  /** A system together with a placement of its jobs that all of its parts agree with. */
  type Placed = p: Placement | JobsSealed(p) && ActorsSealed(p) ghost witness Placement(Initial(), map[])

  lemma OpenJobs(p: JobsPlaced)
    ensures JobsTrack(p.s, p.loc)
  {
    assert Asked(0);
  }

  lemma OpenActors(p: ActorsPlaced)
    ensures ActorsTrack(p.s, p.loc)
  {
    assert Asked(0);
  }

  // ---------- How the parts of the invariant change ----------

  function Put(actors: map<nat, Pc>, a: nat, pc: Option<Pc>): map<nat, Pc> {
    if pc.Some? then actors[a := pc.value] else actors - {a}
  }

  ghost function GripOf(actors: map<nat, Pc>, a: nat): Option<(Id, Phase)> {
    if a in actors then Grip(actors[a]) else None
  }

  ghost function NewGrip(pc: Option<Pc>): Option<(Id, Phase)> {
    if pc.Some? then Grip(pc.value) else None
  }

  /** Actor `a`, holding `id` or nothing, ends up holding `id` or nothing, and `loc` says so. */
  lemma GripsChange(actors: map<nat, Pc>, loc: Places, a: nat, pc: Option<Pc>, id: Id, place: Place)
    requires GripsTrack(actors, loc)
    requires id in loc && loc[id].Held? ==> loc[id].owner == a
    requires GripOf(actors, a).Some? ==> GripOf(actors, a).value.0 == id
    requires if NewGrip(pc).Some? then NewGrip(pc).value.0 == id && place == Held(a, NewGrip(pc).value.1)
             else !place.Held?
    ensures GripsTrack(Put(actors, a, pc), loc[id := place])
  {
  }

  lemma GripsStay(actors: map<nat, Pc>, loc: Places, a: nat, pc: Option<Pc>)
    requires GripsTrack(actors, loc)
    requires GripOf(actors, a).None? && NewGrip(pc).None?
    ensures GripsTrack(Put(actors, a, pc), loc)
  {
  }

  /** A job no actor holds can be moved about freely by the processor. */
  lemma GripsIgnore(actors: map<nat, Pc>, loc: Places, id: Id, place: Place)
    requires GripsTrack(actors, loc) && !place.Held?
    requires id in loc ==> !loc[id].Held?
    ensures GripsTrack(actors, loc[id := place])
  {
  }

  /** Writing the record of a job that no other actor holds leaves every copy current. */
  lemma CopiesChange(actors: map<nat, Pc>, loc: Places, jobs: map<Id, Job>, a: nat, pc: Option<Pc>, j: Job)
    requires GripsTrack(actors, loc) && CopiesTrack(actors, jobs)
    requires j.id in loc && loc[j.id].Held? ==> loc[j.id].owner == a
    requires pc.Some? && pc.value.HasJob? ==> pc.value.job == j
    ensures CopiesTrack(Put(actors, a, pc), jobs[j.id := j])
  {
    forall x | x in Put(actors, a, pc) && x != a && actors[x].HasJob? ensures actors[x].job.id != j.id {
      assert Grip(actors[x]).Some?;
    }
  }

  lemma CopiesStay(actors: map<nat, Pc>, jobs: map<Id, Job>, a: nat, pc: Option<Pc>)
    requires CopiesTrack(actors, jobs)
    requires pc.Some? ==> !pc.value.HasJob?
    ensures CopiesTrack(Put(actors, a, pc), jobs)
  {
  }

  lemma BooksChange(jobs: map<Id, Job>, book: map<Id, Book>, loc: Places, j: Job, b: Book, place: Place)
    requires BooksTrack(jobs, book, loc) && Balanced(j, b, place)
    ensures BooksTrack(jobs[j.id := j], book[j.id := b], loc[j.id := place])
  {
  }

  lemma RetriesChange(actors: map<nat, Pc>, loc: Places, due: map<Id, int>, a: nat, pc: Option<Pc>, id: Id, at: int)
    requires GripsTrack(actors, loc) && PendingRetries(actors, due)
    requires id in loc && loc[id].Held? ==> loc[id].owner == a
    requires pc.Some? && IsRetry(pc.value) ==> pc.value.job.id == id && pc.value.task.at == at
    ensures PendingRetries(Put(actors, a, pc), due[id := at])
  {
  }

  lemma RetriesStay(actors: map<nat, Pc>, due: map<Id, int>, a: nat, pc: Option<Pc>)
    requires PendingRetries(actors, due)
    requires pc.Some? ==> !IsRetry(pc.value)
    ensures PendingRetries(Put(actors, a, pc), due)
  {
  }

  /** The processor does not notice changes to a job it is not concerned with. */
  lemma MoverFrame(s: System, t: System, loc: Places, id: Id, place: Place)
    requires Tracks(s.store, loc) && MoverTracks(s, loc)
    requires id in loc ==> !loc[id].Waiting? && !loc[id].Moving?
    requires !place.Moving?
    requires t.mover == s.mover && t.clock == s.clock
    requires forall x :: x in s.store.jobs && x != id ==> x in t.store.jobs && t.store.jobs[x] == s.store.jobs[x]
    requires forall x :: x in s.store.scheduled && x != id ==>
               x in t.store.scheduled && t.store.scheduled[x] == s.store.scheduled[x]
    requires forall x :: x in s.due && x != id ==> x in t.due && t.due[x] == s.due[x]
    ensures MoverTracks(t, loc[id := place])
  {
  }
}
