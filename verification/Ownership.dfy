/**
  What every command-by-command interleaving of producers, workers and the
  scheduled processor keeps: each job is in exactly one place, and its attempt
  counter is exact.
 */
module JobOwnership {
  import opened Prelude
  import opened RetryTiming
  import opened JobStore
  import opened JobWorkers

  // ---------- What a placement says ----------

  lemma HeldByGrip(p: Placed, a: nat, id: Id)
    requires a in p.s.actors && Holds(p.s.actors[a], id)
    ensures id in p.loc && p.loc[id] == Held(a, Grip(p.s.actors[a]).value.1)
    ensures id in p.s.store.jobs && p.s.store.jobs[id].id == id && id in p.s.book
    ensures Balanced(p.s.store.jobs[id], p.s.book[id], p.loc[id])
    ensures p.s.actors[a].HasJob? ==> p.s.actors[a].job == p.s.store.jobs[id]
    ensures IsRetry(p.s.actors[a]) ==> id in p.s.due && p.s.due[id] == p.s.actors[a].task.at
  {
    OpenJobs(p);
    OpenActors(p);
  }

  lemma SameKeys(p: JobsPlaced)
    ensures p.loc.Keys == p.s.store.jobs.Keys == p.s.book.Keys
  {
    OpenJobs(p);
  }

  lemma SameBook(book: map<Id, Book>, id: Id)
    requires id in book
    ensures book[id := book[id]] == book
  {
  }

  lemma Join(jobs: JobsPlaced, actors: ActorsPlaced) returns (q: Placed)
    requires jobs == actors
    ensures q == jobs
  {
    q := jobs;
  }

  // ---------- Shapes of step ----------

  /** The due times after a step that concerns job `id`. */
  ghost predicate DueChanges(due: map<Id, int>, after: map<Id, int>, id: Id) {
    after == due || (id in after && after == due[id := after[id]])
  }

  /** The scheduled set after a step that concerns job `id`. */
  ghost predicate ScheduleChanges(s: Store, t: Store, due: map<Id, int>, id: Id) {
    t.scheduled == s.scheduled || (id in due && t.scheduled == s.scheduled[id := Unix(due[id])])
  }

  /** How the actors' side of the invariant changes when `a` moves on with job `j`. */
  lemma ActorsChange(p: ActorsPlaced, a: nat, pc: Option<Pc>, j: Job, place: Place, t: System) returns (q: ActorsPlaced)
    requires t.actors == Put(p.s.actors, a, pc) && t.store.jobs == p.s.store.jobs[j.id := j]
    requires j.id in p.loc && p.loc[j.id].Held? ==> p.loc[j.id].owner == a
    requires GripOf(p.s.actors, a).Some? ==> GripOf(p.s.actors, a).value.0 == j.id
    requires if NewGrip(pc).Some? then NewGrip(pc).value.0 == j.id && place == Held(a, NewGrip(pc).value.1)
             else !place.Held?
    requires pc.Some? && pc.value.HasJob? ==> pc.value.job == j
    requires DueChanges(p.s.due, t.due, j.id)
    requires pc.Some? && IsRetry(pc.value) ==> t.due == p.s.due[j.id := pc.value.task.at]
    ensures q == Placement(t, p.loc[j.id := place])
  {
    var s, loc := p.s, p.loc;
    OpenActors(p);
    GripsChange(s.actors, loc, a, pc, j.id, place);
    CopiesChange(s.actors, loc, s.store.jobs, a, pc, j);
    if j.id in t.due && t.due == s.due[j.id := t.due[j.id]] {
      RetriesChange(s.actors, loc, s.due, a, pc, j.id, t.due[j.id]);
    } else {
      RetriesStay(s.actors, s.due, a, pc);
    }
    q := Placement(t, loc[j.id := place]);
  }

  /** How the jobs' side changes when one job, not the processor's concern, gets a new record and place. */
  lemma JobsChange(p: JobsPlaced, j: Job, place: Place, b: Book, t: System) returns (q: JobsPlaced)
    requires (j.id in p.loc ==> !p.loc[j.id].Waiting? && !p.loc[j.id].Moving?) && !place.Moving?
    requires Balanced(j, b, place)
    requires t == p.s.(actors := t.actors, store := t.store, book := p.s.book[j.id := b], due := t.due)
    requires t.store.jobs == p.s.store.jobs[j.id := j] && Tracks(t.store, p.loc[j.id := place])
    requires DueChanges(p.s.due, t.due, j.id) && ScheduleChanges(p.s.store, t.store, t.due, j.id)
    ensures q == Placement(t, p.loc[j.id := place])
  {
    BooksMove(p, j, b, place);
    ScoresChange(p, j.id, t);
    MoverIgnores(p, j, place, t);
    q := Placement(t, p.loc[j.id := place]);
  }

  lemma BooksMove(p: JobsPlaced, j: Job, b: Book, place: Place)
    requires Balanced(j, b, place)
    ensures BooksTrack(p.s.store.jobs[j.id := j], p.s.book[j.id := b], p.loc[j.id := place])
  {
    OpenJobs(p);
    BooksChange(p.s.store.jobs, p.s.book, p.loc, j, b, place);
  }

  lemma ScoresChange(p: JobsPlaced, id: Id, t: System)
    requires id in p.loc ==> !p.loc[id].Waiting?
    requires DueChanges(p.s.due, t.due, id) && ScheduleChanges(p.s.store, t.store, t.due, id)
    ensures ScoresTrack(t.store.scheduled, t.due)
  {
    OpenJobs(p);
  }

  lemma MoverIgnores(p: JobsPlaced, j: Job, place: Place, t: System)
    requires (j.id in p.loc ==> !p.loc[j.id].Waiting? && !p.loc[j.id].Moving?) && !place.Moving?
    requires t.mover == p.s.mover && t.clock == p.s.clock && t.store.jobs == p.s.store.jobs[j.id := j]
    requires DueChanges(p.s.due, t.due, j.id) && ScheduleChanges(p.s.store, t.store, t.due, j.id)
    ensures MoverTracks(t, p.loc[j.id := place])
  {
    OpenJobs(p);
    MoverFrame(p.s, t, p.loc, j.id, place);
  }

  /** The holder of a job rewrites its record and goes on holding it. */
  lemma HoldStep(p: Placed, a: nat, pc: Pc, j: Job, b: Book, t: System) returns (q: Placed)
    requires a in p.s.actors && Holds(p.s.actors[a], j.id) && Holds(pc, j.id)
    requires pc.HasJob? ==> pc.job == j
    requires Balanced(j, b, Held(a, pc.phase))
    requires t == p.s.(actors := p.s.actors[a := pc], store := SetJob(p.s.store, j),
                       book := p.s.book[j.id := b], due := t.due)
    requires if IsRetry(pc) then t.due == p.s.due[j.id := pc.task.at] else t.due == p.s.due
    ensures q.s == t
  {
    HeldByGrip(p, a, j.id);
    var actors := ActorsChange(p, a, Some(pc), j, Held(a, pc.phase), t);
    var jobs := JobsHold(p, j, Held(a, pc.phase), b, t);
    q := Join(jobs, actors);
  }

  lemma JobsHold(p: JobsPlaced, j: Job, place: Place, b: Book, t: System) returns (q: JobsPlaced)
    requires (j.id in p.loc ==> p.loc[j.id].Held?) && place.Held? && Balanced(j, b, place)
    requires t == p.s.(actors := t.actors, store := SetJob(p.s.store, j), book := p.s.book[j.id := b], due := t.due)
    requires DueChanges(p.s.due, t.due, j.id)
    ensures q == Placement(t, p.loc[j.id := place])
  {
    StoreHolds(p, j, place);
    q := JobsChange(p, j, place, b, t);
  }

  lemma StoreHolds(p: JobsPlaced, j: Job, place: Place)
    requires (j.id in p.loc ==> OffStore(p.loc[j.id])) && OffStore(place)
    ensures Tracks(SetJob(p.s.store, j), p.loc[j.id := place])
  {
    OpenJobs(p);
    TrackHold(p.s.store, p.loc, j, place);
  }

  /** The same when the record and the history stay as they are. */
  lemma HoldOn(p: Placed, a: nat, pc: Pc, id: Id, t: System) returns (q: Placed)
    requires a in p.s.actors && Holds(p.s.actors[a], id) && Holds(pc, id) && !IsRetry(pc)
    requires id in p.s.store.jobs && (pc.HasJob? ==> pc.job == p.s.store.jobs[id])
    requires id in p.s.book && Balanced(p.s.store.jobs[id], p.s.book[id], Held(a, pc.phase))
    requires t == To(p.s, a, pc)
    ensures q.s == t
  {
    HeldByGrip(p, a, id);
    SameRecord(p.s.store.jobs, id);
    SameBook(p.s.book, id);
    q := HoldStep(p, a, pc, p.s.store.jobs[id], p.s.book[id], t);
  }

  /** The holder of a job puts it somewhere and lets go. */
  lemma LetGo(p: Placed, a: nat, pc: Option<Pc>, j: Job, place: Place, b: Book, t: System) returns (q: Placed)
    requires a in p.s.actors && Holds(p.s.actors[a], j.id)
    requires !place.Held? && !place.Moving? && Balanced(j, b, place)
    requires pc.Some? ==> pc.value.Free?
    requires t == p.s.(actors := Put(p.s.actors, a, pc), store := t.store, book := p.s.book[j.id := b], due := t.due)
    requires t.store.jobs == p.s.store.jobs[j.id := j] && Tracks(t.store, p.loc[j.id := place])
    requires DueChanges(p.s.due, t.due, j.id) && ScheduleChanges(p.s.store, t.store, t.due, j.id)
    ensures q.s == t
  {
    HeldByGrip(p, a, j.id);
    var actors := ActorsChange(p, a, pc, j, place, t);
    var jobs := JobsChange(p, j, place, b, t);
    q := Join(jobs, actors);
  }

  /** An actor that holds nothing goes on holding nothing; only unique keys may change. */
  lemma Idle(p: Placed, a: nat, pc: Option<Pc>, t: System) returns (q: Placed)
    requires a in p.s.actors ==> p.s.actors[a].Free?
    requires pc.Some? ==> pc.value.Free?
    requires t == p.s.(actors := Put(p.s.actors, a, pc), store := p.s.store.(unique := t.store.unique))
    ensures q.s == t
  {
    var actors := ActorsIdle(p, a, pc, t);
    var jobs := JobsIdle(p, t);
    q := Join(jobs, actors);
  }

  lemma ActorsIdle(p: ActorsPlaced, a: nat, pc: Option<Pc>, t: System) returns (q: ActorsPlaced)
    requires a in p.s.actors ==> p.s.actors[a].Free?
    requires pc.Some? ==> pc.value.Free?
    requires t.actors == Put(p.s.actors, a, pc) && t.store.jobs == p.s.store.jobs && t.due == p.s.due
    ensures q == Placement(t, p.loc)
  {
    OpenActors(p);
    GripsStay(p.s.actors, p.loc, a, pc);
    CopiesStay(p.s.actors, p.s.store.jobs, a, pc);
    RetriesStay(p.s.actors, p.s.due, a, pc);
    q := Placement(t, p.loc);
  }

  lemma JobsIdle(p: JobsPlaced, t: System) returns (q: JobsPlaced)
    requires t == p.s.(actors := t.actors, store := p.s.store.(unique := t.store.unique))
    ensures q == Placement(t, p.loc)
  {
    OpenJobs(p);
    q := Placement(t, p.loc);
  }

  // ---------- Steps of Enqueue ----------

  lemma StoreJobKeeps(p: Placed, a: nat, job: Job, t: System) returns (q: Placed)
    requires a in p.s.actors && p.s.actors[a].Free?
    requires job.id !in p.s.store.jobs && job.attempts == 0 && job.status == Pending
    requires t == To(p.s, a, HasJob(job, Uncounted, EnqueueStored)).(
                    store := SetJob(p.s.store, job), book := p.s.book[job.id := Book(0, 0)])
    ensures q.s == t
  {
    SameKeys(p);
    var actors := ActorsChange(p, a, Some(HasJob(job, Uncounted, EnqueueStored)), job, Held(a, Uncounted), t);
    var jobs := JobsHold(p, job, Held(a, Uncounted), Book(0, 0), t);
    q := Join(jobs, actors);
  }

  /** Putting down a job that is in somebody's hands, as the store sees it. */
  lemma StoreQueues(p: JobsPlaced, job: Job)
    requires job.id in p.loc && p.loc[job.id].Held? && job.id in p.s.store.jobs && p.s.store.jobs[job.id] == job
    ensures var q := QueueOf(job.priority); Tracks(LPush(p.s.store, q, job.id), p.loc[job.id := Queued(q)])
    ensures p.s.store.jobs[job.id := job] == p.s.store.jobs
  {
    OpenJobs(p);
    SameRecord(p.s.store.jobs, job.id);
    TrackPush(p.s.store, p.loc, job.id);
  }

  lemma StoreSchedules(p: JobsPlaced, job: Job, score: int)
    requires job.id in p.loc && p.loc[job.id].Held? && job.id in p.s.store.jobs && p.s.store.jobs[job.id] == job
    ensures Tracks(ZAdd(p.s.store, job.id, score), p.loc[job.id := Waiting])
    ensures p.s.store.jobs[job.id := job] == p.s.store.jobs
  {
    OpenJobs(p);
    SameRecord(p.s.store.jobs, job.id);
    TrackZAdd(p.s.store, p.loc, job.id, score);
  }

  lemma StoreBuries(p: JobsPlaced, job: Job)
    requires job.id in p.loc && p.loc[job.id].Held? && job.id in p.s.store.jobs && p.s.store.jobs[job.id] == job
    ensures Tracks(PushDead(p.s.store, job.id), p.loc[job.id := Buried])
    ensures p.s.store.jobs[job.id := job] == p.s.store.jobs
  {
    OpenJobs(p);
    SameRecord(p.s.store.jobs, job.id);
    TrackBury(p.s.store, p.loc, job.id);
  }

  lemma PlaceKeeps(p: Placed, a: nat, job: Job, read: int) returns (q: Placed)
    requires a in p.s.actors && p.s.actors[a] == HasJob(job, Uncounted, EnqueueStored)
    ensures q.s == AfterPlace(p.s, a, job, read)
  {
    var t, pc := AfterPlace(p.s, a, job, read), Some(Free(EnqueuePlaced(job)));
    HeldByGrip(p, a, job.id);
    SameBook(p.s.book, job.id);
    if job.scheduledAt.Some? && job.scheduledAt.value > read {
      StoreSchedules(p, job, Unix(job.scheduledAt.value));
      q := LetGo(p, a, pc, job, Waiting, p.s.book[job.id], t);
    } else {
      StoreQueues(p, job);
      q := LetGo(p, a, pc, job, Queued(QueueOf(job.priority)), p.s.book[job.id], t);
    }
  }

  // ---------- Steps of Dequeue, and of actors without a job ----------

  /** What popping a queue does to the places. */
  lemma StorePops(p: JobsPlaced, qn: QueueName, id: Id, place: Place)
    requires var l := List(p.s.store.queues, qn); l != [] && id == l[|l| - 1]
    requires place.Held? && place.phase == Uncounted
    ensures id in p.loc && p.loc[id] == Queued(qn) && Tracks(RPop(p.s.store, qn), p.loc[id := place])
    ensures id in p.s.store.jobs && p.s.store.jobs[id].id == id && id in p.s.book
    ensures Balanced(p.s.store.jobs[id], p.s.book[id], place)
  {
    OpenJobs(p);
    TrackPop(p.s.store, p.loc, qn, place);
  }

  lemma JobsPopped(p: JobsPlaced, qn: QueueName, id: Id, place: Place, t: System) returns (q: JobsPlaced)
    requires var l := List(p.s.store.queues, qn); l != [] && id == l[|l| - 1]
    requires place.Held? && place.phase == Uncounted
    requires t == p.s.(actors := t.actors, store := RPop(p.s.store, qn))
    ensures id in p.loc && p.loc[id] == Queued(qn) && id in p.s.store.jobs && p.s.store.jobs[id].id == id
    ensures q == Placement(t, p.loc[id := place])
  {
    StorePops(p, qn, id, place);
    SameRecord(p.s.store.jobs, id);
    SameBook(p.s.book, id);
    q := JobsChange(p, p.s.store.jobs[id], place, p.s.book[id], t);
  }

  lemma ActorsPopped(p: ActorsPlaced, a: nat, id: Id, i: nat, t: System) returns (q: ActorsPlaced)
    requires GripOf(p.s.actors, a).None? && id in p.loc && !p.loc[id].Held?
    requires id in p.s.store.jobs && p.s.store.jobs[id].id == id
    requires t.actors == p.s.actors[a := HasId(id, Uncounted, ToDequeue(i))]
    requires t.store.jobs == p.s.store.jobs && t.due == p.s.due
    ensures q == Placement(t, p.loc[id := Held(a, Uncounted)])
  {
    SameRecord(p.s.store.jobs, id);
    q := ActorsChange(p, a, Some(HasId(id, Uncounted, ToDequeue(i))), p.s.store.jobs[id], Held(a, Uncounted), t);
  }

  lemma PopKeeps(p: Placed, a: nat, qn: QueueName, i: nat, t: System) returns (q: Placed)
    requires GripOf(p.s.actors, a).None? && List(p.s.store.queues, qn) != []
    requires var l := List(p.s.store.queues, qn);
      t == To(p.s, a, HasId(l[|l| - 1], Uncounted, ToDequeue(i))).(store := RPop(p.s.store, qn))
    ensures q.s == t
  {
    var l := List(p.s.store.queues, qn);
    var id := l[|l| - 1];
    var jobs := JobsPopped(p, qn, id, Held(a, Uncounted), t);
    var actors := ActorsPopped(p, a, id, i, t);
    q := Join(jobs, actors);
  }

  lemma FreeKeeps(p: Placed, a: nat, next: FreeTask) returns (q: Placed)
    requires a in p.s.actors && p.s.actors[a] == Free(next) && !next.EnqueueChecked?
    ensures q.s == AfterFree(p.s, a, next)
  {
    var t := AfterFree(p.s, a, next);
    if next.Polling? && next.i < |POLL_ORDER| {
      if List(p.s.store.queues, POLL_ORDER[next.i]) == [] {
        q := Idle(p, a, Some(Free(Polling(next.i + 1))), t);
      } else {
        q := PopKeeps(p, a, POLL_ORDER[next.i], next.i, t);
      }
    } else {
      q := Idle(p, a, None, t);
    }
  }

  // ---------- Steps of an actor with a job ----------

  lemma FetchKeeps(p: Placed, a: nat, id: Id, phase: Phase, fetch: FetchTask) returns (q: Placed)
    requires a in p.s.actors && p.s.actors[a] == HasId(id, phase, fetch)
    ensures q.s == AfterFetch(p.s, a, id, fetch)
  {
    var t := AfterFetch(p.s, a, id, fetch);
    HeldByGrip(p, a, id);
    q := HoldOn(p, a, t.actors[a], id, t);
  }

  /** The record is written; the history is not. */
  lemma RewriteKeeps(p: Placed, a: nat, j: Job, task: JobTask) returns (q: Placed)
    requires a in p.s.actors && Holds(p.s.actors[a], j.id) && !task.FailRetry?
    requires j.id in p.s.book && Balanced(j, p.s.book[j.id], Held(a, PhaseOf(task)))
    ensures q.s == Rewritten(p.s, a, j, task)
  {
    SameBook(p.s.book, j.id);
    q := HoldStep(p, a, HasJob(j, PhaseOf(task), task), j, p.s.book[j.id], Rewritten(p.s, a, j, task));
  }

  /** Idempotency check, lock, handler lookup and handler, as far as only the program counter changes. */
  lemma ThinkKeeps(p: Placed, a: nat, job: Job, phase: Phase, task: JobTask, pc: Pc) returns (q: Placed)
    requires a in p.s.actors && p.s.actors[a] == HasJob(job, phase, task) && !task.FailRetry?
    requires Holds(pc, job.id) && !IsRetry(pc) && (pc.HasJob? ==> pc.job == job)
    requires phase == Counted || phase == Handed
    requires pc.phase == phase || pc.phase == Handed
    ensures q.s == To(p.s, a, pc)
  {
    HeldByGrip(p, a, job.id);
    q := HoldOn(p, a, pc, job.id, To(p.s, a, pc));
  }

  lemma HandKeeps(p: Placed, a: nat, job: Job) returns (q: Placed)
    requires a in p.s.actors && p.s.actors[a] == HasJob(job, Counted, Locked)
    ensures q.s == AfterHand(p.s, a, job)
  {
    HeldByGrip(p, a, job.id);
    SameRecord(p.s.store.jobs, job.id);
    var b := p.s.book[job.id];
    q := HoldStep(p, a, HasJob(job, Handed, Handling), job, b.(handed := b.handed + 1), AfterHand(p.s, a, job));
  }

  lemma RequeuedKeeps(p: Placed, a: nat, job: Job) returns (q: Placed)
    requires a in p.s.actors && p.s.actors[a] == HasJob(job, Uncounted, Requeued)
    ensures q.s == AfterRequeue(p.s, a, job)
  {
    HeldByGrip(p, a, job.id);
    SameBook(p.s.book, job.id);
    StoreQueues(p, job);
    q := LetGo(p, a, None, job, Queued(QueueOf(job.priority)), p.s.book[job.id], AfterRequeue(p.s, a, job));
  }

  lemma CompleteKeeps(p: Placed, a: nat, job: Job) returns (q: Placed)
    requires a in p.s.actors && p.s.actors[a] == HasJob(job, Handed, CompleteFetched)
    ensures q.s == AfterComplete(p.s, a, job)
  {
    HeldByGrip(p, a, job.id);
    SameBook(p.s.book, job.id);
    var j := job.(status := Completed);
    StoreHolds(p, j, Finished);
    q := LetGo(p, a, Some(Free(CompleteStored(j))), j, Finished, p.s.book[job.id], AfterComplete(p.s, a, job));
  }

  lemma RetryKeeps(p: Placed, a: nat, job: Job, read: int, delay: int) returns (q: Placed)
    requires a in p.s.actors && p.s.actors[a] == HasJob(job, Handed, FailFetched) && job.attempts < job.maxRetries
    ensures q.s == AfterRetry(p.s, a, job, read, delay)
  {
    HeldByGrip(p, a, job.id);
    SameBook(p.s.book, job.id);
    var at := read + delay;
    var j := job.(status := Retrying, scheduledAt := Some(at));
    q := HoldStep(p, a, HasJob(j, Rescheduling, FailRetry(at)), j, p.s.book[job.id],
      AfterRetry(p.s, a, job, read, delay));
  }

  lemma DeadKeeps(p: Placed, a: nat, job: Job, j: Job) returns (q: Placed)
    requires a in p.s.actors && p.s.actors[a] == HasJob(job, Handed, FailFetched) && job.attempts >= job.maxRetries
    requires j == job.(status := Status.Dead)
    ensures q.s == Rewritten(p.s, a, j, FailDead)
  {
    HeldByGrip(p, a, job.id);
    q := RewriteKeeps(p, a, j, FailDead);
  }

  lemma VerdictKeeps(p: Placed, a: nat, job: Job, read: int, delay: int) returns (q: Placed)
    requires a in p.s.actors && p.s.actors[a] == HasJob(job, Handed, FailFetched)
    ensures q.s == AfterVerdict(p.s, a, job, read, delay)
  {
    if job.attempts < job.maxRetries {
      q := RetryKeeps(p, a, job, read, delay);
    } else {
      q := DeadKeeps(p, a, job, job.(status := Status.Dead));
    }
  }

  lemma RescheduleKeeps(p: Placed, a: nat, job: Job, at: int) returns (q: Placed)
    requires a in p.s.actors && p.s.actors[a] == HasJob(job, Rescheduling, FailRetry(at))
    ensures q.s == AfterReschedule(p.s, a, job, at)
  {
    HeldByGrip(p, a, job.id);
    StoreSchedules(p, job, Unix(at));
    var b := p.s.book[job.id];
    q := LetGo(p, a, None, job, Waiting, b.(fails := b.fails + 1), AfterReschedule(p.s, a, job, at));
  }

  lemma BuryKeeps(p: Placed, a: nat, job: Job) returns (q: Placed)
    requires a in p.s.actors && p.s.actors[a] == HasJob(job, Burying, FailDead)
    ensures q.s == AfterBury(p.s, a, job)
  {
    HeldByGrip(p, a, job.id);
    StoreBuries(p, job);
    var b := p.s.book[job.id];
    q := LetGo(p, a, Some(Free(FailBuried(job))), job, Buried, b.(fails := b.fails + 1), AfterBury(p.s, a, job));
  }

  lemma CountKeeps(p: Placed, a: nat, job: Job, j: Job) returns (q: Placed)
    requires a in p.s.actors && p.s.actors[a] == HasJob(job, Uncounted, Fetched)
    requires j == job.(status := Running, attempts := job.attempts + 1)
    ensures q.s == Rewritten(p.s, a, j, Dequeued)
  {
    HeldByGrip(p, a, job.id);
    q := RewriteKeeps(p, a, j, Dequeued);
  }

  lemma UncountKeeps(p: Placed, a: nat, job: Job, j: Job) returns (q: Placed)
    requires a in p.s.actors && p.s.actors[a] == HasJob(job, Counted, Requeueing)
    requires j == job.(status := Pending, attempts := job.attempts - 1)
    ensures q.s == Rewritten(p.s, a, j, Requeued)
  {
    HeldByGrip(p, a, job.id);
    q := RewriteKeeps(p, a, j, Requeued);
  }

  /** The steps of processNextJob between dequeue and outcome. */
  predicate IsThought(task: JobTask) {
    task.Dequeued? || task.Locking? || task.Locked? || task.Handling?
  }

  /** The program counter such a step leads to, when it only moves the program counter. */
  function Thought(job: Job, task: JobTask, choice: bool): Pc
    requires IsThought(task)
  {
    match task
    case Dequeued => if choice then HasId(job.id, Handed, ToComplete) else HasJob(job, Counted, Locking)
    case Locking => HasJob(job, Counted, if choice then Locked else Requeueing)
    case Locked => HasId(job.id, Handed, ToFail)
    case Handling => HasId(job.id, Handed, if choice then ToComplete else ToFail)
  }

  lemma ProcessKeeps(p: Placed, a: nat, job: Job, phase: Phase, task: JobTask, choice: bool, read: int, delay: int)
      returns (q: Placed)
    requires a in p.s.actors && p.s.actors[a] == HasJob(job, phase, task) && IsThought(task)
    ensures q.s == AfterJob(p.s, a, job, task, choice, read, delay)
  {
    if task.Locked? && choice {
      q := HandKeeps(p, a, job);
    } else {
      q := ThinkKeeps(p, a, job, phase, task, Thought(job, task, choice));
    }
  }

  lemma JobKeeps(p: Placed, a: nat, job: Job, phase: Phase, task: JobTask, choice: bool, read: int, delay: int)
      returns (q: Placed)
    requires a in p.s.actors && p.s.actors[a] == HasJob(job, phase, task)
    ensures q.s == AfterJob(p.s, a, job, task, choice, read, delay)
  {
    if IsThought(task) {
      q := ProcessKeeps(p, a, job, phase, task, choice, read, delay);
    } else {
      match task
      case EnqueueStored => q := PlaceKeeps(p, a, job, read);
      case Fetched => q := CountKeeps(p, a, job, Started(job));
      case Requeueing => q := UncountKeeps(p, a, job, Unstarted(job));
      case Requeued => q := RequeuedKeeps(p, a, job);
      case CompleteFetched => q := CompleteKeeps(p, a, job);
      case FailFetched => q := VerdictKeeps(p, a, job, read, delay);
      case FailRetry(at) => q := RescheduleKeeps(p, a, job, at);
      case FailDead => q := BuryKeeps(p, a, job);
    }
  }

  // ---------- Steps of ProcessScheduled ----------

  /** How the actors' side changes when the processor rewrites or places a job nobody holds. */
  lemma ActorsIgnore(p: ActorsPlaced, j: Job, place: Place, t: System) returns (q: ActorsPlaced)
    requires j.id in p.loc && !p.loc[j.id].Held? && !place.Held?
    requires t.actors == p.s.actors && t.due == p.s.due && t.store.jobs == p.s.store.jobs[j.id := j]
    ensures q == Placement(t, p.loc[j.id := place])
  {
    OpenActors(p);
    GripsIgnore(p.s.actors, p.loc, j.id, place);
    forall x | x in t.actors && t.actors[x].HasJob? ensures t.actors[x].job.id != j.id {
      assert Grip(t.actors[x]).Some?;
    }
    q := Placement(t, p.loc[j.id := place]);
  }

  lemma MoveBegins(p: Placed, ids: seq<Id>, read: int, t: System) returns (q: Placed)
    requires p.s.mover.Resting? && read <= p.s.clock && IsDue(p.s.store.scheduled, Unix(read), ids)
    requires t == p.s.(mover := Batch(ids))
    ensures q.s == t
  {
    UnixMonotone(read, p.s.clock);
    var actors := ActorsAside(p, t);
    var jobs := JobsBegin(p, ids, read, t);
    q := Join(jobs, actors);
  }

  /** The actors do not notice what only concerns the processor. */
  lemma ActorsAside(p: ActorsPlaced, t: System) returns (q: ActorsPlaced)
    requires t == p.s.(mover := t.mover)
    ensures q == Placement(t, p.loc)
  {
    OpenActors(p);
    q := Placement(t, p.loc);
  }

  lemma JobsBegin(p: JobsPlaced, ids: seq<Id>, read: int, t: System) returns (q: JobsPlaced)
    requires p.s.mover.Resting? && Unix(read) <= Unix(p.s.clock) && IsDue(p.s.store.scheduled, Unix(read), ids)
    requires t == p.s.(mover := Batch(ids))
    ensures q == Placement(t, p.loc)
  {
    OpenJobs(p);
    q := Placement(t, p.loc);
  }

  lemma BatchHead(scheduled: map<Id, int>, second: int, ids: seq<Id>)
    requires BatchTracks(scheduled, second, ids) && ids != []
    ensures ids[0] in scheduled && scheduled[ids[0]] <= second
    ensures ids[0] !in ids[1..] && BatchTracks(scheduled, second, ids[1..])
  {
    assert ids == [ids[0]] + ids[1..];
  }

  lemma MoveFetches(p: Placed, ids: seq<Id>) returns (q: Placed)
    requires p.s.mover == Batch(ids)
    ensures q.s == AfterMove(p.s)
  {
    var actors := ActorsAside(p, AfterMove(p.s));
    var jobs := JobsFetched(p, ids);
    q := Join(jobs, actors);
  }

  lemma JobsFetched(p: JobsPlaced, ids: seq<Id>) returns (q: JobsPlaced)
    requires p.s.mover == Batch(ids)
    ensures q == Placement(AfterMove(p.s), p.loc)
  {
    OpenJobs(p);
    if ids != [] {
      BatchHead(p.s.store.scheduled, Unix(p.s.clock), ids);
    }
    q := Placement(AfterMove(p.s), p.loc);
  }

  /** The job the processor works on is scheduled until it is removed, and moving from then on. */
  lemma CarriedPlace(p: JobsPlaced, id: Id)
    requires p.s.mover.MoveFetched? || p.s.mover.MoveRemoved? || p.s.mover.MoveStored?
    requires id == p.s.mover.job.id
    ensures id in p.loc && p.loc[id] == if p.s.mover.MoveFetched? then Waiting else Moving
    ensures id in p.s.store.jobs && p.s.store.jobs[id] == p.s.mover.job && id in p.s.book
    ensures Balanced(p.s.mover.job, p.s.book[id], p.loc[id])
  {
    OpenJobs(p);
    assert !p.s.mover.MoveFetched? ==> Moves(p.s.mover, id);
  }

  lemma BooksStay(p: JobsPlaced, id: Id, place: Place)
    requires id in p.s.store.jobs && id in p.s.book && p.s.store.jobs[id].id == id
    requires Balanced(p.s.store.jobs[id], p.s.book[id], place)
    ensures BooksTrack(p.s.store.jobs, p.s.book, p.loc[id := place])
  {
    SameRecord(p.s.store.jobs, id);
    SameBook(p.s.book, id);
    BooksMove(p, p.s.store.jobs[id], p.s.book[id], place);
  }

  /** The processor takes the job off the scheduled set. */
  lemma JobsRemoved(p: JobsPlaced, job: Job, ids: seq<Id>, t: System) returns (q: JobsPlaced)
    requires p.s.mover == MoveFetched(job, ids)
    requires t == p.s.(mover := MoveRemoved(job, ids), store := ZRem(p.s.store, job.id))
    ensures q == Placement(t, p.loc[job.id := Moving])
  {
    CarriedPlace(p, job.id);
    BooksStay(p, job.id, Moving);
    StoreRemoves(p, job.id);
    MoverRemoves(p, job, ids, t);
    q := Placement(t, p.loc[job.id := Moving]);
  }

  lemma StoreRemoves(p: JobsPlaced, id: Id)
    requires id in p.loc && p.loc[id] == Waiting
    ensures Tracks(ZRem(p.s.store, id), p.loc[id := Moving]) && ScoresTrack(ZRem(p.s.store, id).scheduled, p.s.due)
  {
    OpenJobs(p);
    TrackZRem(p.s.store, p.loc, id, Moving);
  }

  lemma MoverRemoves(p: JobsPlaced, job: Job, ids: seq<Id>, t: System)
    requires p.s.mover == MoveFetched(job, ids)
    requires t == p.s.(mover := MoveRemoved(job, ids), store := ZRem(p.s.store, job.id))
    ensures MoverTracks(t, p.loc[job.id := Moving])
  {
    OpenJobs(p);
  }

  /** The processor rewrites the record of the job it is moving. */
  lemma JobsMoving(p: JobsPlaced, job: Job, ids: seq<Id>, j: Job, t: System) returns (q: JobsPlaced)
    requires p.s.mover == MoveRemoved(job, ids) && j == job.(scheduledAt := None, status := Pending)
    requires t == p.s.(mover := MoveStored(j, ids), store := SetJob(p.s.store, j))
    ensures q == Placement(t, p.loc[job.id := Moving])
  {
    CarriedPlace(p, job.id);
    SameBook(p.s.book, job.id);
    BooksMove(p, j, p.s.book[job.id], Moving);
    StoreHolds(p, j, Moving);
    MoverRewrites(p, job, ids, j, t);
    q := Placement(t, p.loc[job.id := Moving]);
  }

  lemma MoverRewrites(p: JobsPlaced, job: Job, ids: seq<Id>, j: Job, t: System)
    requires p.s.mover == MoveRemoved(job, ids) && j == job.(scheduledAt := None, status := Pending)
    requires t == p.s.(mover := MoveStored(j, ids), store := SetJob(p.s.store, j))
    ensures MoverTracks(t, p.loc[job.id := Moving]) && ScoresTrack(t.store.scheduled, t.due)
  {
    OpenJobs(p);
  }

  /** The processor puts the job it is moving in its queue. */
  lemma JobsMoved(p: JobsPlaced, job: Job, ids: seq<Id>, place: Place, t: System) returns (q: JobsPlaced)
    requires p.s.mover == MoveStored(job, ids) && place == Queued(QueueOf(job.priority))
    requires t == p.s.(mover := Batch(ids), store := LPush(p.s.store, QueueOf(job.priority), job.id))
    ensures q == Placement(t, p.loc[job.id := place])
  {
    CarriedPlace(p, job.id);
    BooksStay(p, job.id, place);
    StoreMoves(p, job.id);
    MoverLets(p, job, ids, place, t);
    q := Placement(t, p.loc[job.id := place]);
  }

  lemma StoreMoves(p: JobsPlaced, id: Id)
    requires id in p.loc && p.loc[id] == Moving && id in p.s.store.jobs
    ensures var q := QueueOf(p.s.store.jobs[id].priority); Tracks(LPush(p.s.store, q, id), p.loc[id := Queued(q)])
  {
    OpenJobs(p);
    TrackPush(p.s.store, p.loc, id);
  }

  lemma MoverLets(p: JobsPlaced, job: Job, ids: seq<Id>, place: Place, t: System)
    requires p.s.mover == MoveStored(job, ids) && place.Queued?
    requires t == p.s.(mover := Batch(ids), store := LPush(p.s.store, QueueOf(job.priority), job.id))
    ensures MoverTracks(t, p.loc[job.id := place]) && ScoresTrack(t.store.scheduled, t.due)
  {
    OpenJobs(p);
  }

  lemma MoveKeeps(p: Placed) returns (q: Placed)
    requires !p.s.mover.Resting?
    ensures q.s == AfterMove(p.s)
  {
    var t := AfterMove(p.s);
    if p.s.mover.Batch? {
      q := MoveFetches(p, p.s.mover.ids);
      return;
    }
    CarriedPlace(p, p.s.mover.job.id);
    match p.s.mover
    case MoveFetched(job, ids) =>
      SameRecord(p.s.store.jobs, job.id);
      var actors := ActorsIgnore(p, job, Moving, t);
      var jobs := JobsRemoved(p, job, ids, t);
      q := Join(jobs, actors);
    case MoveRemoved(job, ids) =>
      var actors := ActorsIgnore(p, t.mover.job, Moving, t);
      var jobs := JobsMoving(p, job, ids, t.mover.job, t);
      q := Join(jobs, actors);
    case MoveStored(job, ids) =>
      SameRecord(p.s.store.jobs, job.id);
      var actors := ActorsIgnore(p, job, Queued(QueueOf(job.priority)), t);
      var jobs := JobsMoved(p, job, ids, Queued(QueueOf(job.priority)), t);
      q := Join(jobs, actors);
  }

  // ---------- Every step, every run ----------

  lemma ClockAdvances(p: Placed, now: int) returns (q: Placed)
    requires p.s.clock <= now
    ensures q == Placement(p.s.(clock := now), p.loc)
  {
    UnixMonotone(p.s.clock, now);
    OpenJobs(p);
    OpenActors(p);
    q := Placement(p.s.(clock := now), p.loc);
  }

  lemma AdvanceKeeps(p: Placed, a: nat, choice: bool, read: int) returns (q: Placed)
    requires a in p.s.actors && !AwaitsJob(p.s.actors[a])
    ensures q.s == AfterAdvance(p.s, a, choice, read)
  {
    match p.s.actors[a]
    case Free(next) => q := FreeKeeps(p, a, next);
    case HasId(id, phase, fetch) => q := FetchKeeps(p, a, id, phase, fetch);
    case HasJob(job, phase, task) =>
      q := JobKeeps(p, a, job, phase, task, choice, read, CalculateDelay(job.policy, job.attempts));
  }

  lemma StepKeeps(p0: Placed, step: Step) returns (q: Placed)
    requires Enabled(p0.s, step)
    ensures q.s == After(p0.s, step)
  {
    var p := ClockAdvances(p0, step.now);
    var t := After(p0.s, step);
    match step
    case BeginEnqueue(a, key, _) =>
      if key != "" && key in p.s.store.unique {
        q := p;
      } else {
        q := Idle(p, a, Some(Free(EnqueueChecked(key))), t);
      }
    case StoreJob(a, job, _) => q := StoreJobKeeps(p, a, job, t);
    case BeginDequeue(a, _) => q := Idle(p, a, Some(Free(Polling(0))), t);
    case Advance(a, choice, read, _) => q := AdvanceKeeps(p, a, choice, read);
    case BeginMove(ids, read, now) => q := MoveBegins(p, ids, read, t);
    case AdvanceMove(_) => q := MoveKeeps(p);
  }

  lemma ValidPrefix(steps: seq<Step>, n: nat)
    requires Valid(steps) && n <= |steps|
    ensures Valid(steps[..n])
  {
    assert forall i :: 0 <= i < n ==> steps[..n][..i] == steps[..i];
  }

  lemma {:induction false} LastStep(steps: seq<Step>, before: seq<Step>, n: nat)
    requires Valid(steps) && n == |steps| - 1 && before == steps[..n]
    ensures Valid(before) && Enabled(Run(before), steps[n]) && Run(steps) == After(Run(before), steps[n])
  {
    ValidPrefix(steps, n);
  }

  lemma {:induction false} Snoc(steps: seq<Step>, step: Step)
    requires Valid(steps) && Enabled(Run(steps), step)
    ensures Valid(steps + [step]) && Run(steps + [step]) == After(Run(steps), step)
  {
    var all := steps + [step];
    assert all[..|steps|] == steps;
    assert forall i :: 0 <= i < |steps| ==> all[..i] == steps[..i];
  }

  lemma {:induction false} SnocTwo(steps: seq<Step>, first: Step, second: Step, all: seq<Step>)
    requires Valid(steps) && Enabled(Run(steps), first) && Enabled(After(Run(steps), first), second)
    requires all == steps + [first] + [second]
    ensures Valid(all) && Run(all) == After(After(Run(steps), first), second)
  {
    Snoc(steps, first);
    Snoc(steps + [first], second);
  }

  /** Every reachable system has a placement that agrees with all of its parts. */
  lemma {:induction false} RunKeeps(steps: seq<Step>) returns (p: Placed)
    requires Valid(steps)
    ensures p.s == Run(steps)
  {
    if steps == [] {
      p := Placement(Initial(), map[]);
    } else {
      var n := |steps| - 1;
      LastStep(steps, steps[..n], n);
      p := RunKeeps(steps[..n]);
      p := StepKeeps(p, steps[n]);
    }
  }

  // ---------- Main results ----------

  lemma {:induction false} NoDupCount(l: seq<Id>, id: Id)
    requires NoDup(l)
    ensures multiset(l)[id] == if id in l then 1 else 0
  {
    if l != [] {
      var n := |l| - 1;
      assert l == l[..n] + [l[n]];
      NoDupCount(l[..n], id);
    }
  }

  lemma QueueCounts(p: Placed, q: QueueName, id: Id)
    requires id in p.loc
    ensures multiset(List(p.s.store.queues, q))[id] == if p.loc[id] == Queued(q) then 1 else 0
  {
    OpenJobs(p);
    assert ListTracks(List(p.s.store.queues, q), p.loc, Queued(q));
    NoDupCount(List(p.s.store.queues, q), id);
  }

  lemma HolderCount(p: Placed, id: Id)
    requires id in p.loc
    ensures |Holders(p.s, id)| == if p.loc[id].Held? then 1 else 0
  {
    OpenActors(p);
    if p.loc[id].Held? {
      assert Holders(p.s, id) == {p.loc[id].owner};
    } else {
      assert Holders(p.s, id) == {};
    }
  }

  lemma RestCounts(p: Placed, id: Id)
    requires id in p.loc
    ensures multiset(p.s.store.dlq)[id] == if p.loc[id] == Buried then 1 else 0
    ensures id in p.s.store.scheduled <==> p.loc[id] == Waiting
    ensures Moves(p.s.mover, id) <==> p.loc[id] == Moving
    ensures id in p.s.store.jobs && (p.s.store.jobs[id].status == Completed <==> p.loc[id] == Finished)
  {
    OpenJobs(p);
    NoDupCount(p.s.store.dlq, id);
  }

  lemma QueuesCount(p: Placed, id: Id)
    requires id in p.loc
    ensures QueueEntries(p.s.store.queues, id) == if p.loc[id].Queued? then 1 else 0
  {
    if p.loc[id].Queued? {
      var q := p.loc[id].q;
      assert q.CriticalQueue? || q.HighQueue? || q.NormalQueue? || q.LowQueue? || q.UnknownQueue?;
    }
    QueueCounts(p, CriticalQueue, id);
    QueueCounts(p, HighQueue, id);
    QueueCounts(p, NormalQueue, id);
    QueueCounts(p, LowQueue, id);
    QueueCounts(p, UnknownQueue, id);
  }

  lemma PlacedOnce(p: Placed, id: Id)
    requires id in p.s.store.jobs
    ensures PlaceCount(p.s, id) == 1
  {
    SameKeys(p);
    QueuesCount(p, id);
    RestCounts(p, id);
    HolderCount(p, id);
  }

  /**
    Ownership: in every reachable state of every interleaving, every job that has been stored is in
    exactly one place, counting each list entry and each holder; so none is lost and none is doubled.
   */
  lemma {:induction false} ExactlyOnePlace(steps: seq<Step>, id: Id)
    requires Valid(steps) && id in Run(steps).store.jobs
    ensures PlaceCount(Run(steps), id) == 1
  {
    var p := RunKeeps(steps);
    PlacedOnce(p, id);
  }

  /** Waiting in a queue, in the scheduled set or on the way from one to the other. */
  ghost predicate IsWaiting(s: System, id: Id) {
    QueueEntries(s.store.queues, id) > 0 || id in s.store.scheduled || Moves(s.mover, id)
  }

  /**
    Attempts: a waiting job has made exactly as many attempts as it has recorded failures, below its
    allowance; from the moment a worker has counted an attempt there is exactly one more, within the
    allowance; a dead job has used up its allowance exactly.  A requeue therefore costs nothing, and
    no job is given to a handler more often than its allowance.
   */
  lemma {:induction false} AttemptsExact(steps: seq<Step>, id: Id)
    requires Valid(steps) && id in Run(steps).store.jobs
    ensures var s := Run(steps);
      var (j, b) := (s.store.jobs[id], BookOf(s, id));
      && b.handed <= j.attempts <= Cap(j)
      && (IsWaiting(s, id) ==> 0 <= j.attempts == b.fails < Cap(j))
      && (forall a :: a in s.actors && Holds(s.actors[a], id) && s.actors[a].phase != Uncounted ==>
            1 <= j.attempts == b.fails + 1 <= Cap(j))
      && (id in s.store.dlq ==> j.attempts == b.fails == Cap(j))
      && (j.status == Completed ==> j.attempts == b.fails + 1 <= Cap(j))
  {
    var p := RunKeeps(steps);
    PlacedAttempts(p, id);
  }

  lemma BalancedRecord(p: JobsPlaced, id: Id)
    requires id in p.s.store.jobs
    ensures id in p.loc && id in p.s.book && Balanced(p.s.store.jobs[id], p.s.book[id], p.loc[id])
  {
    OpenJobs(p);
  }

  lemma PlacedAttempts(p: Placed, id: Id)
    requires id in p.s.store.jobs
    ensures var s := p.s;
      var (j, b) := (s.store.jobs[id], BookOf(s, id));
      && b.handed <= j.attempts <= Cap(j)
      && (IsWaiting(s, id) ==> 0 <= j.attempts == b.fails < Cap(j))
      && (forall a :: a in s.actors && Holds(s.actors[a], id) && s.actors[a].phase != Uncounted ==>
            1 <= j.attempts == b.fails + 1 <= Cap(j))
      && (id in s.store.dlq ==> j.attempts == b.fails == Cap(j))
      && (j.status == Completed ==> j.attempts == b.fails + 1 <= Cap(j))
  {
    BalancedRecord(p, id);
    QueuesCount(p, id);
    RestCounts(p, id);
    forall a | a in p.s.actors && Holds(p.s.actors[a], id) ensures p.loc[id] == Held(a, p.s.actors[a].phase) {
      HeldByGrip(p, a, id);
    }
  }
}
