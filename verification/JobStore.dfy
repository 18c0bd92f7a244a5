/**
  The Redis data of the job queue (internal/jobs/queue/redis_queue.go) and the
  commands issued on it, each one atomic.  Record and key expiry is not modelled.
 */
module JobStore {
  import opened Prelude
  import opened RetryTiming

  type Id = nat

  datatype Status = Pending | Running | Completed | Failed | Retrying | Dead

  datatype QueueName = LowQueue | NormalQueue | HighQueue | CriticalQueue | UnknownQueue

  /** Any priority outside 0..3 names the queue "unknown", which no worker polls. */
  function QueueOf(priority: int): QueueName {
    if priority == 0 then LowQueue
    else if priority == 1 then NormalQueue
    else if priority == 2 then HighQueue
    else if priority == 3 then CriticalQueue
    else UnknownQueue
  }

  const POLL_ORDER: seq<QueueName> := [CriticalQueue, HighQueue, NormalQueue, LowQueue]

  datatype Job = Job(id: Id, priority: int, status: Status, attempts: int, maxRetries: int,
                     policy: RetryPolicy, scheduledAt: Option<int>, uniqueKey: string)

  /** How many attempts a job may use: the first is always allowed. */
  function Cap(j: Job): int {
    Max(1, j.maxRetries)
  }

  /** Dequeue's update of a record, and requeueJob's. */
  function Started(job: Job): Job {
    job.(status := Running, attempts := job.attempts + 1)
  }

  function Unstarted(job: Job): Job {
    job.(status := Pending, attempts := job.attempts - 1)
  }

  datatype Store = Store(
    jobs: map<Id, Job>,                  // arcana:jobs:job:<id>
    queues: map<QueueName, seq<Id>>,     // arcana:jobs:queue:<name>, head first
    scheduled: map<Id, int>,             // arcana:jobs:scheduled, with scores
    dlq: seq<Id>,                        // arcana:jobs:dlq
    unique: map<string, Id>)             // arcana:jobs:unique:<key>

  function EmptyStore(): Store {
    Store(map[], map[], map[], [], map[])
  }

  function List(queues: map<QueueName, seq<Id>>, q: QueueName): seq<Id> {
    if q in queues then queues[q] else []
  }

  function SetJob(s: Store, j: Job): Store {
    s.(jobs := s.jobs[j.id := j])
  }

  function LPush(s: Store, q: QueueName, id: Id): Store {
    s.(queues := s.queues[q := [id] + List(s.queues, q)])
  }

  /** RPOP of a non-empty list leaves all but its last element. */
  function RPop(s: Store, q: QueueName): Store
    requires List(s.queues, q) != []
  {
    var l := List(s.queues, q);
    s.(queues := s.queues[q := l[..|l| - 1]])
  }

  function ZAdd(s: Store, id: Id, score: int): Store {
    s.(scheduled := s.scheduled[id := score])
  }

  function ZRem(s: Store, id: Id): Store {
    s.(scheduled := s.scheduled - {id})
  }

  function PushDead(s: Store, id: Id): Store {
    s.(dlq := [id] + s.dlq)
  }

  function SetUnique(s: Store, j: Job): Store {
    if j.uniqueKey == "" then s else s.(unique := s.unique[j.uniqueKey := j.id])
  }

  function DelUnique(s: Store, j: Job): Store {
    if j.uniqueKey == "" then s else s.(unique := s.unique - {j.uniqueKey})
  }

  /** Every record is kept under its own ID. */
  ghost predicate OwnIds(jobs: map<Id, Job>) {
    forall id :: id in jobs ==> jobs[id].id == id
  }

  /** `ids` lists, once each and in some order, the scheduled jobs with a score up to `second`. */
  ghost predicate IsDue(scheduled: map<Id, int>, second: int, ids: seq<Id>) {
    && NoDup(ids)
    && forall id :: id in ids <==> id in scheduled && scheduled[id] <= second
  }

  // ---------- Where a job is ----------

  /** What the holder of a job has done with it so far. */
  datatype Phase =
    | Uncounted   // this attempt is not in the record yet, or was taken back
    | Counted     // the attempt is in the record
    | Handed      // the handler may have run
    | Rescheduling
    | Burying

  datatype Place =
    | Queued(q: QueueName)
    | Waiting              // in the scheduled set
    | Buried               // in the dead-letter list
    | Held(owner: nat, phase: Phase)
    | Moving               // between the scheduled set and its queue
    | Finished

  type Places = map<Id, Place>

  /** The list holds, once each, exactly the jobs at `place`. */
  ghost predicate ListTracks(l: seq<Id>, loc: Places, place: Place) {
    NoDup(l) && forall id :: id in l <==> id in loc && loc[id] == place
  }

  ghost predicate QueuesTrack(queues: map<QueueName, seq<Id>>, loc: Places) {
    forall q :: ListTracks(List(queues, q), loc, Queued(q))
  }

  ghost predicate ScheduledTracks(scheduled: map<Id, int>, loc: Places) {
    forall id :: id in scheduled <==> id in loc && loc[id] == Waiting
  }

  /** Every placed job has its record, under its own ID, and queues only hold jobs of their priority. */
  ghost predicate RecordsTrack(jobs: map<Id, Job>, loc: Places) {
    forall id :: id in loc ==>
      id in jobs && jobs[id].id == id && (loc[id].Queued? ==> loc[id].q == QueueOf(jobs[id].priority))
  }

  /** `loc` says exactly what the lists and sets of the store contain. */
  ghost predicate Tracks(s: Store, loc: Places) {
    && QueuesTrack(s.queues, loc)
    && ScheduledTracks(s.scheduled, loc)
    && ListTracks(s.dlq, loc, Buried)
    && RecordsTrack(s.jobs, loc)
  }

  /** Neither in a list or set of the store now, nor to be put in one by `place`. */
  ghost predicate OffStore(place: Place) {
    place.Held? || place.Moving? || place.Finished?
  }

  lemma PushList(l: seq<Id>, loc: Places, id: Id, place: Place)
    requires ListTracks(l, loc, place) && (id in loc ==> loc[id] != place)
    ensures ListTracks([id] + l, loc[id := place], place)
  {
  }

  lemma PopList(l: seq<Id>, loc: Places, from: Place, to: Place)
    requires ListTracks(l, loc, from) && l != [] && from != to
    ensures var id := l[|l| - 1];
      id in loc && loc[id] == from && ListTracks(l[..|l| - 1], loc[id := to], from)
  {
    var id, rest := l[|l| - 1], l[..|l| - 1];
    assert l == rest + [id];
    assert id in l;
  }

  /** A list does not notice a job that is not in it going anywhere else. */
  lemma ListFrame(l: seq<Id>, loc: Places, at: Place, id: Id, place: Place)
    requires ListTracks(l, loc, at) && (id in loc ==> loc[id] != at) && place != at
    ensures ListTracks(l, loc[id := place], at)
  {
  }

  lemma PushQueue(queues: map<QueueName, seq<Id>>, loc: Places, id: Id, q: QueueName)
    requires QueuesTrack(queues, loc) && (id in loc ==> !loc[id].Queued?)
    ensures QueuesTrack(queues[q := [id] + List(queues, q)], loc[id := Queued(q)])
  {
    forall p ensures ListTracks(List(queues[q := [id] + List(queues, q)], p), loc[id := Queued(q)], Queued(p)) {
      assert ListTracks(List(queues, p), loc, Queued(p));
      if p == q {
        PushList(List(queues, q), loc, id, Queued(q));
      } else {
        ListFrame(List(queues, p), loc, Queued(p), id, Queued(q));
      }
    }
  }

  lemma PopQueue(queues: map<QueueName, seq<Id>>, loc: Places, q: QueueName, place: Place)
    requires QueuesTrack(queues, loc) && List(queues, q) != [] && !place.Queued?
    ensures var l := List(queues, q);
      var id := l[|l| - 1];
      && id in loc && loc[id] == Queued(q)
      && QueuesTrack(queues[q := l[..|l| - 1]], loc[id := place])
  {
    var l := List(queues, q);
    var id := l[|l| - 1];
    PopList(l, loc, Queued(q), place);
    forall p ensures ListTracks(List(queues[q := l[..|l| - 1]], p), loc[id := place], Queued(p)) {
      assert ListTracks(List(queues, p), loc, Queued(p));
      if p != q {
        ListFrame(List(queues, p), loc, Queued(p), id, place);
      }
    }
  }

  lemma QueuesFrame(queues: map<QueueName, seq<Id>>, loc: Places, id: Id, place: Place)
    requires QueuesTrack(queues, loc) && (id in loc ==> !loc[id].Queued?) && !place.Queued?
    ensures QueuesTrack(queues, loc[id := place])
  {
    forall p ensures ListTracks(List(queues, p), loc[id := place], Queued(p)) {
      ListFrame(List(queues, p), loc, Queued(p), id, place);
    }
  }

  lemma ScheduledFrame(scheduled: map<Id, int>, loc: Places, id: Id, place: Place)
    requires ScheduledTracks(scheduled, loc) && (id in loc ==> loc[id] != Waiting) && place != Waiting
    ensures ScheduledTracks(scheduled, loc[id := place])
  {
  }

  lemma RecordsFrame(jobs: map<Id, Job>, loc: Places, j: Job, place: Place)
    requires RecordsTrack(jobs, loc) && (place.Queued? ==> place.q == QueueOf(j.priority))
    ensures RecordsTrack(jobs[j.id := j], loc[j.id := place])
  {
  }

  /** Writing a record and changing hands, all outside the lists and sets. */
  lemma TrackHold(s: Store, loc: Places, j: Job, place: Place)
    requires Tracks(s, loc) && (j.id in loc ==> OffStore(loc[j.id])) && OffStore(place)
    ensures Tracks(SetJob(s, j), loc[j.id := place])
  {
    QueuesFrame(s.queues, loc, j.id, place);
    ScheduledFrame(s.scheduled, loc, j.id, place);
    ListFrame(s.dlq, loc, Buried, j.id, place);
    RecordsFrame(s.jobs, loc, j, place);
  }

  lemma SameRecord(jobs: map<Id, Job>, id: Id)
    requires id in jobs
    ensures jobs[id := jobs[id]] == jobs
  {
  }

  lemma TrackPush(s: Store, loc: Places, id: Id)
    requires Tracks(s, loc) && id in loc && OffStore(loc[id])
    ensures var q := QueueOf(s.jobs[id].priority); Tracks(LPush(s, q, id), loc[id := Queued(q)])
  {
    var q := QueueOf(s.jobs[id].priority);
    PushQueue(s.queues, loc, id, q);
    ScheduledFrame(s.scheduled, loc, id, Queued(q));
    ListFrame(s.dlq, loc, Buried, id, Queued(q));
    RecordsFrame(s.jobs, loc, s.jobs[id], Queued(q));
    SameRecord(s.jobs, id);
  }

  lemma TrackPop(s: Store, loc: Places, q: QueueName, place: Place)
    requires Tracks(s, loc) && List(s.queues, q) != [] && OffStore(place)
    ensures var l := List(s.queues, q);
      var id := l[|l| - 1];
      && id in loc && loc[id] == Queued(q)
      && Tracks(RPop(s, q), loc[id := place])
  {
    var l := List(s.queues, q);
    var id := l[|l| - 1];
    PopQueue(s.queues, loc, q, place);
    ScheduledFrame(s.scheduled, loc, id, place);
    ListFrame(s.dlq, loc, Buried, id, place);
    RecordsFrame(s.jobs, loc, s.jobs[id], place);
    SameRecord(s.jobs, id);
  }

  lemma TrackZAdd(s: Store, loc: Places, id: Id, score: int)
    requires Tracks(s, loc) && id in loc && OffStore(loc[id])
    ensures Tracks(ZAdd(s, id, score), loc[id := Waiting])
  {
    QueuesFrame(s.queues, loc, id, Waiting);
    ListFrame(s.dlq, loc, Buried, id, Waiting);
    RecordsFrame(s.jobs, loc, s.jobs[id], Waiting);
    SameRecord(s.jobs, id);
  }

  lemma TrackZRem(s: Store, loc: Places, id: Id, place: Place)
    requires Tracks(s, loc) && id in loc && loc[id] == Waiting && OffStore(place)
    ensures Tracks(ZRem(s, id), loc[id := place])
  {
    QueuesFrame(s.queues, loc, id, place);
    ListFrame(s.dlq, loc, Buried, id, place);
    RecordsFrame(s.jobs, loc, s.jobs[id], place);
    SameRecord(s.jobs, id);
  }

  lemma TrackBury(s: Store, loc: Places, id: Id)
    requires Tracks(s, loc) && id in loc && OffStore(loc[id])
    ensures Tracks(PushDead(s, id), loc[id := Buried])
  {
    PushList(s.dlq, loc, id, Buried);
    QueuesFrame(s.queues, loc, id, Buried);
    ScheduledFrame(s.scheduled, loc, id, Buried);
    RecordsFrame(s.jobs, loc, s.jobs[id], Buried);
    SameRecord(s.jobs, id);
  }
}
