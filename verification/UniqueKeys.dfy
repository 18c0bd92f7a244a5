/**
  Deduplication by unique key and idempotency by completion key, with each queue
  operation as one step (internal/jobs/queue/redis_queue.go,
  internal/jobs/worker/pool.go, internal/jobs/lock/distributed_lock.go).
 */
module UniqueKeys {
  import opened Prelude
  import opened RetryTiming
  import opened JobStore
  import opened QueueOperations

  /** A worker's job, and whether it has passed the idempotency check. */
  datatype Work = Work(id: Id, cleared: bool)

  datatype Service = Service(
    store: Store,
    workers: map<nat, Work>,
    marking: map<nat, string>,   // keys of completed jobs whose worker has not marked them yet
    completed: set<string>,      // arcana:jobs:idempotency:<key>
    successes: seq<string>)      // history: keys of successful handler runs

  datatype Step =
    | Enqueue(job: Job, now: int)
    | Dequeue(w: nat)
    | Check(w: nat)                          // idempotency; a hit completes the job unrun
    | Succeed(w: nat)                        // handler succeeds: Complete
    | Mark(w: nat)                           // MarkCompleted
    | Fail(w: nat, now: int)
    | Requeue(w: nat)                        // the job lock was taken
    | ProcessScheduled(ids: seq<Id>, now: int)
    | RetryDead(id: Id, newId: Id, now: int)
    | Delete(id: Id)

  function Initial(): Service {
    Service(EmptyStore(), map[], map[], {}, [])
  }

  /** New IDs are fresh, only dead jobs are retried by hand and only waiting jobs are deleted. */
  ghost predicate Enabled(v: Service, step: Step) {
    match step
    case Enqueue(job, _) => job.id !in v.store.jobs
    case Dequeue(w) => w !in v.workers && w !in v.marking
    case Check(w) => w in v.workers && !v.workers[w].cleared
    case Succeed(w) => w in v.workers && v.workers[w].cleared
    case Mark(w) => w in v.marking
    case Fail(w, _) => w in v.workers && v.workers[w].cleared
    case Requeue(w) => w in v.workers && v.workers[w].cleared
    case ProcessScheduled(ids, now) => IsDue(v.store.scheduled, Unix(now), ids)
    case RetryDead(id, newId, _) => id in v.store.dlq && newId !in v.store.jobs
    case Delete(id) => IsWaiting(v.store, id)
  }

  ghost predicate IsWaiting(s: Store, id: Id) {
    id in s.scheduled || exists q :: id in List(s.queues, q)
  }

  function KeyOf(s: Store, id: Id): string {
    if id in s.jobs then s.jobs[id].uniqueKey else ""
  }

  function AfterWorker(v: Service, step: Step): Service
    requires (step.Check? || step.Succeed? || step.Fail? || step.Requeue?) && step.w in v.workers
  {
    var id := v.workers[step.w].id;
    var key := KeyOf(v.store, id);
    var released := v.workers - {step.w};
    match step
    case Check(w) =>
      if key != "" && key in v.completed then v.(store := CompleteOp(v.store, id).0, workers := released)
      else v.(workers := v.workers[w := Work(id, true)])
    case Succeed(w) =>
      var t := v.(store := CompleteOp(v.store, id).0, workers := released);
      if key == "" then t else t.(marking := v.marking[w := key], successes := v.successes + [key])
    case Fail(w, now) => v.(store := FailOp(v.store, id, now).0, workers := released)
    case Requeue(w) => v.(store := RequeueOp(v.store, id), workers := released)
  }

  function After(v: Service, step: Step): Service {
    match step
    case Enqueue(job, now) => v.(store := EnqueueOp(v.store, job, now).0)
    case Dequeue(w) =>
      var (s, r) := DequeueOp(v.store, POLL_ORDER);
      v.(store := s, workers := if r.Ok? then v.workers[w := Work(r.value.id, false)] else v.workers)
    case ProcessScheduled(ids, _) => v.(store := MoveAll(v.store, ids))
    case RetryDead(id, newId, now) => v.(store := RetryDeadOp(v.store, id, newId, now).0)
    case Delete(id) => v.(store := DeleteOp(v.store, id).0)
    case Mark(w) =>
      if w in v.marking then v.(marking := v.marking - {w}, completed := v.completed + {v.marking[w]}) else v
    case _ => if step.w in v.workers then AfterWorker(v, step) else v
  }

  function Run(steps: seq<Step>): Service {
    if steps == [] then Initial() else After(Run(steps[..|steps| - 1]), steps[|steps| - 1])
  }

  ghost predicate Valid(steps: seq<Step>) {
    forall i :: 0 <= i < |steps| ==> Enabled(Run(steps[..i]), steps[i])
  }

  // ---------- The invariant ----------

  predicate Live(place: Place) {
    place.Queued? || place.Waiting? || place.Held?
  }

  /** The unique map is exactly the map from the keys of live keyed jobs to their IDs. */
  ghost predicate IndexTracks(jobs: map<Id, Job>, unique: map<string, Id>, loc: Places) {
    && (forall id :: id in loc && Live(loc[id]) && id in jobs && jobs[id].uniqueKey != "" ==>
          jobs[id].uniqueKey in unique && unique[jobs[id].uniqueKey] == id)
    && (forall k :: k in unique ==>
          k != "" && unique[k] in loc && Live(loc[unique[k]]) && unique[k] in jobs && jobs[unique[k]].uniqueKey == k)
  }

  ghost predicate WorkersTrack(workers: map<nat, Work>, loc: Places) {
    && (forall w :: w in workers ==>
          workers[w].id in loc && loc[workers[w].id] == Held(w, if workers[w].cleared then Handed else Counted))
    && (forall id :: id in loc && loc[id].Held? ==> loc[id].owner in workers && workers[loc[id].owner].id == id)
  }

  /** Every success is on record or about to be, and no cleared worker's key is. */
  ghost predicate SuccessesTrack(jobs: map<Id, Job>, workers: map<nat, Work>, done: set<string>,
    successes: seq<string>) {
    && NoDup(successes)
    && (forall k :: k in successes ==> k in done)
    && (forall w :: w in workers && workers[w].cleared && workers[w].id in jobs ==>
          jobs[workers[w].id].uniqueKey == "" || jobs[workers[w].id].uniqueKey !in done)
  }

  /** Keys that are marked as completed, or about to be. */
  function Finishing(v: Service): set<string> {
    v.completed + v.marking.Values
  }

  /** A service, a placement of its jobs, and whether the run so far has been orderly. */
  datatype Snapshot = Snapshot(v: Service, loc: Places, orderly: bool)

  ghost predicate Inv(p: Snapshot) {
    && Tracks(p.v.store, p.loc)
    && IndexTracks(p.v.store.jobs, p.v.store.unique, p.loc)
    && WorkersTrack(p.v.workers, p.loc)
    && p.v.workers.Keys !! p.v.marking.Keys
    && (p.orderly ==> SuccessesTrack(p.v.store.jobs, p.v.workers, Finishing(p.v), p.v.successes))
  }

  ghost predicate IsSound(p: Snapshot) {
    forall k :: Asked(k) ==> Inv(p)
  }

  /** All parts of the service agree with the placement; looked into with Open. */
  type Sound = p: Snapshot | IsSound(p) ghost witness Snapshot(Initial(), map[], true)

  lemma Open(p: Sound)
    ensures Inv(p)
  {
    assert Asked(0);
  }

  // ---------- How the parts change ----------

  lemma IndexMoves(jobs: map<Id, Job>, unique: map<string, Id>, loc: Places, j: Job, place: Place)
    requires IndexTracks(jobs, unique, loc) && j.id in jobs && jobs[j.id].uniqueKey == j.uniqueKey
    requires j.id in loc && Live(loc[j.id]) && Live(place)
    ensures IndexTracks(jobs[j.id := j], unique, loc[j.id := place])
  {
  }

  function WithoutKey(unique: map<string, Id>, j: Job): map<string, Id> {
    if j.uniqueKey == "" then unique else unique - {j.uniqueKey}
  }

  function WithKey(unique: map<string, Id>, j: Job): map<string, Id> {
    if j.uniqueKey == "" then unique else unique[j.uniqueKey := j.id]
  }

  lemma IndexDrops(jobs: map<Id, Job>, unique: map<string, Id>, loc: Places, j: Job, place: Place)
    requires IndexTracks(jobs, unique, loc) && j.id in jobs && jobs[j.id].uniqueKey == j.uniqueKey
    requires j.id in loc && Live(loc[j.id]) && !Live(place)
    ensures IndexTracks(jobs[j.id := j], WithoutKey(unique, j), loc[j.id := place])
  {
  }

  lemma IndexGains(jobs: map<Id, Job>, unique: map<string, Id>, loc: Places, j: Job, place: Place)
    requires IndexTracks(jobs, unique, loc) && j.id !in loc && Live(place)
    requires j.uniqueKey == "" || j.uniqueKey !in unique
    ensures IndexTracks(jobs[j.id := j], WithKey(unique, j), loc[j.id := place])
  {
  }

  lemma IndexForgets(jobs: map<Id, Job>, unique: map<string, Id>, loc: Places, id: Id)
    requires IndexTracks(jobs, unique, loc) && id in loc && id in jobs && Live(loc[id])
    ensures IndexTracks(jobs - {id}, WithoutKey(unique, jobs[id]), loc - {id})
  {
  }

  lemma IndexIgnores(jobs: map<Id, Job>, unique: map<string, Id>, loc: Places, id: Id)
    requires IndexTracks(jobs, unique, loc) && id in loc && !Live(loc[id])
    ensures IndexTracks(jobs, unique, loc - {id})
  {
  }

  /** Worker `w` takes up, keeps or lets go of job `id`. */
  lemma WorkersChange(workers: map<nat, Work>, loc: Places, w: nat, work: Option<Work>, id: Id, place: Place)
    requires WorkersTrack(workers, loc)
    requires w in workers ==> workers[w].id == id
    requires id in loc && loc[id].Held? ==> loc[id].owner == w
    requires if work.Some? then work.value.id == id && place == Held(w, if work.value.cleared then Handed else Counted)
             else !place.Held?
    ensures WorkersTrack(if work.Some? then workers[w := work.value] else workers - {w}, loc[id := place])
  {
  }

  lemma WorkersIgnore(workers: map<nat, Work>, loc: Places, id: Id, place: Place)
    requires WorkersTrack(workers, loc) && (id in loc ==> !loc[id].Held?) && !place.Held?
    ensures WorkersTrack(workers, loc[id := place])
  {
  }

  lemma WorkersForget(workers: map<nat, Work>, loc: Places, id: Id)
    requires WorkersTrack(workers, loc) && id in loc && !loc[id].Held?
    ensures WorkersTrack(workers, loc - {id})
  {
  }

  /** Rewriting a record under the same key does not matter to the success history. */
  lemma SuccessesKeep(jobs: map<Id, Job>, workers: map<nat, Work>, done: set<string>, successes: seq<string>, j: Job)
    requires SuccessesTrack(jobs, workers, done, successes)
    requires j.id in jobs ==> jobs[j.id].uniqueKey == j.uniqueKey
    requires j.id in jobs || forall w :: w in workers ==> workers[w].id != j.id
    ensures SuccessesTrack(jobs[j.id := j], workers, done, successes)
  {
  }

  lemma SuccessesRelease(jobs: map<Id, Job>, workers: map<nat, Work>, done: set<string>, successes: seq<string>, w: nat)
    requires SuccessesTrack(jobs, workers, done, successes)
    ensures SuccessesTrack(jobs, workers - {w}, done, successes)
  {
  }

  /** The step at the heart of idempotency: the key was not completed, and no other cleared worker has it. */
  lemma SuccessRecorded(jobs: map<Id, Job>, unique: map<string, Id>, workers: map<nat, Work>, loc: Places,
                        done: set<string>, successes: seq<string>, w: nat, key: string)
    requires SuccessesTrack(jobs, workers, done, successes)
    requires IndexTracks(jobs, unique, loc) && WorkersTrack(workers, loc)
    requires w in workers && workers[w].cleared && workers[w].id in jobs
    requires key == jobs[workers[w].id].uniqueKey && key != ""
    ensures SuccessesTrack(jobs, workers - {w}, done + {key}, successes + [key])
  {
    assert key !in successes;
    forall x | x in workers && x != w && workers[x].id in jobs ensures jobs[workers[x].id].uniqueKey != key {
      assert workers[x].id != workers[w].id;
      assert Live(loc[workers[x].id]) && Live(loc[workers[w].id]);
    }
  }

  // ---------- Lists without a job ----------

  lemma {:induction false} RemovedAll(l: seq<Id>, id: Id)
    requires NoDup(l)
    ensures NoDup(RemoveAll(l, id)) && forall x :: x in RemoveAll(l, id) <==> x in l && x != id
  {
    if l != [] {
      assert l == [l[0]] + l[1..];
      RemovedAll(l[1..], id);
      assert l[0] !in l[1..];
    }
  }

  lemma {:induction false} RemovedFirst(l: seq<Id>, id: Id)
    requires NoDup(l)
    ensures NoDup(RemoveFirst(l, id)) && forall x :: x in RemoveFirst(l, id) <==> x in l && x != id
  {
    if l != [] {
      assert l == [l[0]] + l[1..];
      RemovedFirst(l[1..], id);
      assert l[0] !in l[1..];
    }
  }

  lemma ListForgets(l: seq<Id>, m: seq<Id>, loc: Places, at: Place, id: Id)
    requires ListTracks(l, loc, at) && NoDup(m) && forall x :: x in m <==> x in l && x != id
    ensures ListTracks(m, loc - {id}, at)
  {
  }

  lemma ListIgnores(l: seq<Id>, loc: Places, at: Place, id: Id)
    requires ListTracks(l, loc, at) && (id in loc ==> loc[id] != at)
    ensures ListTracks(l, loc - {id}, at)
  {
  }

  // ---------- Steps of a worker ----------

  /** Write the record of a job that is in somebody's hands, then put the job at `place`. */
  ghost predicate Settles(s: Store, j: Job, place: Place, t: Store) {
    match place
    case Queued(q) => q == QueueOf(j.priority) && t == LPush(SetJob(s, j), q, j.id)
    case Waiting => j.id in t.scheduled && t == ZAdd(SetJob(s, j), j.id, t.scheduled[j.id])
    case Buried => t == PushDead(SetJob(s, j), j.id)
    case Finished => t == SetJob(s, j)
    case _ => false
  }

  lemma TrackSettles(s: Store, loc: Places, j: Job, place: Place, t: Store)
    requires Tracks(s, loc) && (j.id in loc ==> OffStore(loc[j.id])) && Settles(s, j, place, t)
    ensures Tracks(t, loc[j.id := place]) && t.jobs == s.jobs[j.id := j] && t.unique == s.unique
  {
    TrackHold(s, loc, j, Finished);
    var mid := loc[j.id := Finished];
    assert mid[j.id := place] == loc[j.id := place];
    match place
    case Queued(q) => TrackPush(SetJob(s, j), mid, j.id);
    case Waiting => TrackZAdd(SetJob(s, j), mid, j.id, t.scheduled[j.id]);
    case Buried => TrackBury(SetJob(s, j), mid, j.id);
    case Finished =>
  }

  lemma Working(p: Sound, w: nat)
    requires w in p.v.workers
    ensures var id := p.v.workers[w].id;
      && id in p.loc && p.loc[id] == Held(w, if p.v.workers[w].cleared then Handed else Counted)
      && id in p.v.store.jobs && p.v.store.jobs[id].id == id && w !in p.v.marking
  {
    Open(p);
  }

  /** The job that worker `w` holds, with a new record but the same key. */
  ghost predicate Has(p: Sound, w: nat, j: Job) {
    && w in p.v.workers && p.v.workers[w].id == j.id && j.id in p.v.store.jobs
    && p.v.store.jobs[j.id].uniqueKey == j.uniqueKey
  }

  lemma StoreSettles(p: Sound, w: nat, j: Job, place: Place, mid: Store)
    requires Has(p, w, j) && Settles(p.v.store, j, place, mid)
    ensures Tracks(mid, p.loc[j.id := place]) && mid.jobs == p.v.store.jobs[j.id := j] && mid.unique == p.v.store.unique
  {
    Working(p, w);
    Open(p);
    TrackSettles(p.v.store, p.loc, j, place, mid);
  }

  lemma IndexSettles(p: Sound, w: nat, j: Job, place: Place, unique: map<string, Id>)
    requires Has(p, w, j) && !place.Held?
    requires unique == if Live(place) then p.v.store.unique else WithoutKey(p.v.store.unique, j)
    ensures IndexTracks(p.v.store.jobs[j.id := j], unique, p.loc[j.id := place])
  {
    Working(p, w);
    Open(p);
    if Live(place) {
      IndexMoves(p.v.store.jobs, p.v.store.unique, p.loc, j, place);
    } else {
      IndexDrops(p.v.store.jobs, p.v.store.unique, p.loc, j, place);
    }
  }

  lemma WorkerLeaves(p: Sound, w: nat, id: Id, place: Place)
    requires w in p.v.workers && p.v.workers[w].id == id && !place.Held?
    ensures WorkersTrack(p.v.workers - {w}, p.loc[id := place])
  {
    Working(p, w);
    Open(p);
    WorkersChange(p.v.workers, p.loc, w, None, id, place);
  }

  lemma SuccessesUnchanged(p: Sound, w: nat, j: Job)
    requires Has(p, w, j)
    ensures p.orderly ==> SuccessesTrack(p.v.store.jobs[j.id := j], p.v.workers - {w}, Finishing(p.v), p.v.successes)
    ensures (p.v.workers - {w}).Keys !! p.v.marking.Keys
  {
    Open(p);
    if p.orderly {
      SuccessesRelease(p.v.store.jobs, p.v.workers, Finishing(p.v), p.v.successes, w);
      SuccessesKeep(p.v.store.jobs, p.v.workers - {w}, Finishing(p.v), p.v.successes, j);
    }
  }

  /** A worker puts its job down without success. */
  lemma Release(p: Sound, w: nat, j: Job, place: Place, mid: Store, t: Store) returns (q: Sound)
    requires Has(p, w, j) && Settles(p.v.store, j, place, mid)
    requires t == if Live(place) then mid else mid.(unique := WithoutKey(mid.unique, j))
    ensures q.v == p.v.(store := t, workers := p.v.workers - {w})
    ensures q.orderly == p.orderly
  {
    StoreSettles(p, w, j, place, mid);
    IndexSettles(p, w, j, place, t.unique);
    WorkerLeaves(p, w, j.id, place);
    SuccessesUnchanged(p, w, j);
    q := Snapshot(p.v.(store := t, workers := p.v.workers - {w}), p.loc[j.id := place], p.orderly);
  }

  lemma ClearKeeps(p: Sound, w: nat, orderly: bool) returns (q: Sound)
    requires w in p.v.workers && !p.v.workers[w].cleared
    requires var key := KeyOf(p.v.store, p.v.workers[w].id);
      orderly ==> p.orderly && (key == "" || key !in Finishing(p.v))
    ensures q.v == p.v.(workers := p.v.workers[w := Work(p.v.workers[w].id, true)])
    ensures q.orderly == orderly
  {
    Working(p, w);
    Open(p);
    var id, place := p.v.workers[w].id, Held(w, Handed);
    var job := p.v.store.jobs[id];
    WorkersChange(p.v.workers, p.loc, w, Some(Work(id, true)), id, place);
    IndexMoves(p.v.store.jobs, p.v.store.unique, p.loc, job, place);
    TrackHold(p.v.store, p.loc, job, place);
    SameRecord(p.v.store.jobs, id);
    q := Snapshot(p.v.(workers := p.v.workers[w := Work(id, true)]), p.loc[id := place], orderly);
  }

  /** The check lets the worker go on with a keyed job. */
  ghost predicate Clears(v: Service, step: Step, key: string) {
    && step.Check? && step.w in v.workers && !v.workers[step.w].cleared
    && key == KeyOf(v.store, v.workers[step.w].id) && key != "" && key !in v.completed
  }

  /** No check is passed while the mark of another success with that key is pending. */
  ghost predicate Orderly(v: Service, step: Step) {
    forall key :: Clears(v, step, key) ==> key !in v.marking.Values
  }

  lemma CheckKeeps(p: Sound, w: nat) returns (q: Sound)
    requires w in p.v.workers && !p.v.workers[w].cleared
    ensures q.v == After(p.v, Check(w))
    ensures q.orderly == (p.orderly && Orderly(p.v, Check(w)))
  {
    Working(p, w);
    var id := p.v.workers[w].id;
    var job := p.v.store.jobs[id];
    if job.uniqueKey != "" && job.uniqueKey in p.v.completed {
      var j := job.(status := Completed);
      q := Release(p, w, j, Finished, SetJob(p.v.store, j), CompleteOp(p.v.store, id).0);
    } else {
      assert job.uniqueKey != "" ==> Clears(p.v, Check(w), job.uniqueKey);
      q := ClearKeeps(p, w, p.orderly && Orderly(p.v, Check(w)));
    }
  }

  lemma SuccessNoted(p: Sound, w: nat, j: Job)
    requires Has(p, w, j) && p.v.workers[w].cleared && j.uniqueKey != ""
    ensures p.orderly ==>
      SuccessesTrack(p.v.store.jobs[j.id := j], p.v.workers - {w}, Finishing(p.v) + {j.uniqueKey},
        p.v.successes + [j.uniqueKey])
  {
    Open(p);
    var v, key := p.v, j.uniqueKey;
    if p.orderly {
      SuccessRecorded(v.store.jobs, v.store.unique, v.workers, p.loc, Finishing(v), v.successes, w, key);
      SuccessesKeep(v.store.jobs, v.workers - {w}, Finishing(v) + {key}, v.successes + [key], j);
    }
  }

  lemma ValuesAdded(m: map<nat, string>, w: nat, key: string)
    requires w !in m
    ensures m[w := key].Values == m.Values + {key}
  {
    forall k | k in m.Values + {key} ensures k in m[w := key].Values {
      if k in m.Values {
        var x :| x in m && m[x] == k;
        assert m[w := key][x] == k;
      } else {
        assert m[w := key][w] == k;
      }
    }
  }

  lemma ValuesRemoved(m: map<nat, string>, w: nat)
    requires w in m
    ensures (m - {w}).Values + {m[w]} == m.Values
  {
    forall k | k in m.Values ensures k in (m - {w}).Values + {m[w]} {
      var x :| x in m && m[x] == k;
      assert x != w ==> (m - {w})[x] == k;
    }
  }

  lemma MarkingDisjoint(p: Sound, w: nat, key: string)
    requires w in p.v.workers
    ensures (p.v.workers - {w}).Keys !! p.v.marking[w := key].Keys
  {
    Open(p);
  }

  lemma KeyedSuccessKeeps(p: Sound, w: nat, j: Job, t: Store) returns (q: Sound)
    requires Has(p, w, j) && p.v.workers[w].cleared && j.uniqueKey != ""
    requires t == SetJob(p.v.store, j).(unique := WithoutKey(p.v.store.unique, j))
    ensures q.v == Service(t, p.v.workers - {w}, p.v.marking[w := j.uniqueKey], p.v.completed,
      p.v.successes + [j.uniqueKey])
    ensures q.orderly == p.orderly
  {
    Working(p, w);
    StoreSettles(p, w, j, Finished, SetJob(p.v.store, j));
    IndexSettles(p, w, j, Finished, t.unique);
    WorkerLeaves(p, w, j.id, Finished);
    SuccessNoted(p, w, j);
    ValuesAdded(p.v.marking, w, j.uniqueKey);
    MarkingDisjoint(p, w, j.uniqueKey);
    var v := Service(t, p.v.workers - {w}, p.v.marking[w := j.uniqueKey], p.v.completed, p.v.successes + [j.uniqueKey]);
    assert Finishing(v) == Finishing(p.v) + {j.uniqueKey};
    q := Snapshot(v, p.loc[j.id := Finished], p.orderly);
  }

  lemma SucceedKeeps(p: Sound, w: nat) returns (q: Sound)
    requires w in p.v.workers && p.v.workers[w].cleared
    ensures q.v == After(p.v, Succeed(w))
    ensures q.orderly == p.orderly
  {
    Working(p, w);
    var v, id := p.v, p.v.workers[w].id;
    var j := v.store.jobs[id].(status := Completed);
    var t := CompleteOp(v.store, id).0;
    if j.uniqueKey == "" {
      q := Release(p, w, j, Finished, SetJob(v.store, j), t);
    } else {
      q := KeyedSuccessKeeps(p, w, j, t);
    }
  }

  lemma MarkKeeps(p: Sound, w: nat) returns (q: Sound)
    requires w in p.v.marking
    ensures q.v == After(p.v, Mark(w))
    ensures q.orderly == p.orderly
  {
    Open(p);
    ValuesRemoved(p.v.marking, w);
    var v := After(p.v, Mark(w));
    assert Finishing(v) == Finishing(p.v);
    q := Snapshot(v, p.loc, p.orderly);
  }

  /** What the two cases of a failure do to the service. */
  function Rescheduled(v: Service, w: nat, job: Job, at: int): Service {
    var j := job.(status := Retrying, scheduledAt := Some(at));
    v.(store := ZAdd(SetJob(v.store, j), j.id, Unix(at)), workers := v.workers - {w})
  }

  function GivenUp(v: Service, w: nat, job: Job): Service {
    v.(store := DelUnique(PushDead(SetJob(v.store, job.(status := Status.Dead)), job.id), job),
      workers := v.workers - {w})
  }

  lemma RescheduleKeeps(p: Sound, w: nat, job: Job, at: int) returns (q: Sound)
    requires Has(p, w, job)
    ensures q.v == Rescheduled(p.v, w, job, at)
    ensures q.orderly == p.orderly
  {
    var j := job.(status := Retrying, scheduledAt := Some(at));
    var t := ZAdd(SetJob(p.v.store, j), j.id, Unix(at));
    q := Release(p, w, j, Waiting, t, t);
  }

  lemma BuryKeeps(p: Sound, w: nat, job: Job) returns (q: Sound)
    requires Has(p, w, job)
    ensures q.v == GivenUp(p.v, w, job)
    ensures q.orderly == p.orderly
  {
    var j := job.(status := Status.Dead);
    var t := PushDead(SetJob(p.v.store, j), j.id);
    q := Release(p, w, j, Buried, t, DelUnique(t, job));
  }

  lemma FailEffect(v: Service, w: nat, job: Job, now: int) returns (at: int)
    requires w in v.workers && job.id == v.workers[w].id && job.id in v.store.jobs && v.store.jobs[job.id] == job
    ensures After(v, Fail(w, now)) ==
            if job.attempts < job.maxRetries then Rescheduled(v, w, job, at) else GivenUp(v, w, job)
  {
    at := now + CalculateDelay(job.policy, job.attempts);
  }

  lemma FailKeeps(p: Sound, w: nat, now: int) returns (q: Sound)
    requires w in p.v.workers && p.v.workers[w].cleared
    ensures q.v == After(p.v, Fail(w, now))
    ensures q.orderly == p.orderly
  {
    Working(p, w);
    var job := p.v.store.jobs[p.v.workers[w].id];
    var at := FailEffect(p.v, w, job, now);
    if job.attempts < job.maxRetries {
      q := RescheduleKeeps(p, w, job, at);
    } else {
      q := BuryKeeps(p, w, job);
    }
  }

  lemma PushBackKeeps(p: Sound, w: nat, j: Job) returns (q: Sound)
    requires Has(p, w, j)
    ensures q.v == p.v.(store := LPush(SetJob(p.v.store, j), QueueOf(j.priority), j.id), workers := p.v.workers - {w})
    ensures q.orderly == p.orderly
  {
    var t := LPush(SetJob(p.v.store, j), QueueOf(j.priority), j.id);
    q := Release(p, w, j, Queued(QueueOf(j.priority)), t, t);
  }

  lemma RequeueKeeps(p: Sound, w: nat) returns (q: Sound)
    requires w in p.v.workers && p.v.workers[w].cleared
    ensures q.v == After(p.v, Requeue(w))
    ensures q.orderly == p.orderly
  {
    Working(p, w);
    q := PushBackKeeps(p, w, Unstarted(p.v.store.jobs[p.v.workers[w].id]));
  }

  // ---------- Dequeue ----------

  /** The k-th queue is the first non-empty one, and its oldest job is taken. */
  ghost predicate TakesAt(s: Store, order: seq<QueueName>, k: nat, t: Store, job: Job) {
    && k < |order| && TakesFrom(s, order[k], t, job)
    && forall i :: 0 <= i < k ==> List(s.queues, order[i]) == []
  }

  /** With every record present, Dequeue takes the oldest job of the first non-empty queue. */
  lemma {:induction false} DequeueTakes(s: Store, loc: Places, order: seq<QueueName>)
    requires Tracks(s, loc)
    ensures var (t, r) := DequeueOp(s, order);
      if r.Err? then t == s && forall q :: q in order ==> List(s.queues, q) == []
      else exists k: nat :: TakesAt(s, order, k, t, r.value)
    decreases |order|
  {
    if order != [] {
      var l, rest := List(s.queues, order[0]), order[1..];
      var (t, r) := DequeueOp(s, order);
      if l == [] {
        DequeueTakes(s, loc, rest);
        if r.Ok? {
          var k: nat :| TakesAt(s, rest, k, t, r.value);
          assert forall i :: 0 < i < k + 1 ==> order[i] == rest[i - 1];
          assert TakesAt(s, order, k + 1, t, r.value);
        } else {
          assert order == [order[0]] + rest;
        }
      } else {
        TrackPop(s, loc, order[0], Finished);
        assert TakesAt(s, order, 0, t, r.value);
      }
    }
  }

  ghost predicate TakesFrom(s: Store, q: QueueName, t: Store, job: Job) {
    var l := List(s.queues, q);
    && l != [] && l[|l| - 1] in s.jobs
    && job == Started(s.jobs[l[|l| - 1]])
    && t == SetJob(RPop(s, q), job)
  }

  lemma StoreTakes(p: Sound, qn: QueueName, t: Store, job: Job, place: Place)
    requires TakesFrom(p.v.store, qn, t, job) && place.Held?
    ensures job.id in p.v.store.jobs && p.v.store.jobs[job.id].uniqueKey == job.uniqueKey
    ensures job.id in p.loc && p.loc[job.id] == Queued(qn)
    ensures Tracks(t, p.loc[job.id := place]) && t.jobs == p.v.store.jobs[job.id := job] && t.unique == p.v.store.unique
  {
    Open(p);
    var s := p.v.store;
    TrackPop(s, p.loc, qn, place);
    var l := List(s.queues, qn);
    var id := l[|l| - 1];
    assert job.id == id;
    TrackHold(RPop(s, qn), p.loc[id := place], job, place);
    assert p.loc[id := place][id := place] == p.loc[id := place];
  }

  /** The index and the success history do not notice a live job moving, or its record changing. */
  lemma RestMoves(p: Sound, j: Job, place: Place)
    requires j.id in p.v.store.jobs && p.v.store.jobs[j.id].uniqueKey == j.uniqueKey
    requires j.id in p.loc && Live(p.loc[j.id]) && Live(place)
    ensures IndexTracks(p.v.store.jobs[j.id := j], p.v.store.unique, p.loc[j.id := place])
    ensures p.orderly ==> SuccessesTrack(p.v.store.jobs[j.id := j], p.v.workers, Finishing(p.v), p.v.successes)
    ensures p.v.workers.Keys !! p.v.marking.Keys
  {
    Open(p);
    IndexMoves(p.v.store.jobs, p.v.store.unique, p.loc, j, place);
    if p.orderly {
      SuccessesKeep(p.v.store.jobs, p.v.workers, Finishing(p.v), p.v.successes, j);
    }
  }

  lemma WorkerTakes(p: Sound, w: nat, id: Id)
    requires w !in p.v.workers && id in p.loc && !p.loc[id].Held?
    ensures WorkersTrack(p.v.workers[w := Work(id, false)], p.loc[id := Held(w, Counted)])
  {
    Open(p);
    WorkersChange(p.v.workers, p.loc, w, Some(Work(id, false)), id, Held(w, Counted));
  }

  lemma TakeKeeps(p: Sound, w: nat, qn: QueueName, t: Store, job: Job) returns (q: Sound)
    requires w !in p.v.workers && w !in p.v.marking && TakesFrom(p.v.store, qn, t, job)
    ensures q.v == p.v.(store := t, workers := p.v.workers[w := Work(job.id, false)])
    ensures q.orderly == p.orderly
  {
    var place := Held(w, Counted);
    StoreTakes(p, qn, t, job, place);
    RestMoves(p, job, place);
    WorkerTakes(p, w, job.id);
    q := Snapshot(p.v.(store := t, workers := p.v.workers[w := Work(job.id, false)]), p.loc[job.id := place],
      p.orderly);
  }

  lemma DequeueKeeps(p: Sound, w: nat) returns (q: Sound)
    requires w !in p.v.workers && w !in p.v.marking
    ensures q.v == After(p.v, Dequeue(w))
    ensures q.orderly == p.orderly
  {
    var (t, r) := DequeueOp(p.v.store, POLL_ORDER);
    Open(p);
    DequeueTakes(p.v.store, p.loc, POLL_ORDER);
    if r.Ok? {
      var k: nat :| TakesAt(p.v.store, POLL_ORDER, k, t, r.value);
      q := TakeKeeps(p, w, POLL_ORDER[k], t, r.value);
    } else {
      q := p;
    }
  }

  // ---------- Enqueue and manual operations ----------

  lemma NotPlaced(p: Sound, id: Id)
    requires id !in p.v.store.jobs
    ensures id !in p.loc
  {
    Open(p);
  }

  lemma EnqueueKeeps(p: Sound, job: Job, now: int) returns (q: Sound)
    requires job.id !in p.v.store.jobs
    ensures q.v == After(p.v, Enqueue(job, now))
    ensures q.orderly == p.orderly
  {
    var s := p.v.store;
    if job.uniqueKey != "" && job.uniqueKey in s.unique {
      q := p;
    } else {
      NotPlaced(p, job.id);
      var place, mid;
      if job.scheduledAt.Some? && job.scheduledAt.value > now {
        place, mid := Waiting, ZAdd(SetJob(s, job), job.id, Unix(job.scheduledAt.value));
      } else {
        place, mid := Queued(QueueOf(job.priority)), LPush(SetJob(s, job), QueueOf(job.priority), job.id);
      }
      q := NewJob(p, job, place, mid);
    }
  }

  lemma NewJob(p: Sound, job: Job, place: Place, mid: Store) returns (q: Sound)
    requires job.id !in p.loc && job.id !in p.v.store.jobs && (place.Queued? || place.Waiting?)
    requires job.uniqueKey == "" || job.uniqueKey !in p.v.store.unique
    requires Settles(p.v.store, job, place, mid)
    ensures q.v == p.v.(store := SetUnique(mid, job))
    ensures q.orderly == p.orderly
  {
    Open(p);
    TrackSettles(p.v.store, p.loc, job, place, mid);
    IndexGains(p.v.store.jobs, p.v.store.unique, p.loc, job, place);
    WorkersIgnore(p.v.workers, p.loc, job.id, place);
    if p.orderly {
      SuccessesKeep(p.v.store.jobs, p.v.workers, Finishing(p.v), p.v.successes, job);
    }
    q := Snapshot(p.v.(store := SetUnique(mid, job)), p.loc[job.id := place], p.orderly);
  }

  lemma TrackRetire(s: Store, loc: Places, id: Id)
    requires Tracks(s, loc) && id in loc && loc[id] == Buried
    ensures Tracks(s.(dlq := RemoveFirst(s.dlq, id)), loc - {id})
  {
    RemovedFirst(s.dlq, id);
    ListForgets(s.dlq, RemoveFirst(s.dlq, id), loc, Buried, id);
    forall q ensures ListTracks(List(s.queues, q), loc - {id}, Queued(q)) {
      ListIgnores(List(s.queues, q), loc, Queued(q), id);
    }
  }

  lemma RetireKeeps(p: Sound, id: Id) returns (q: Sound)
    requires id in p.v.store.dlq
    ensures q.v == p.v.(store := p.v.store.(dlq := RemoveFirst(p.v.store.dlq, id)))
    ensures q.orderly == p.orderly
    ensures id in p.v.store.jobs
  {
    Open(p);
    var s := p.v.store;
    assert id in p.loc && p.loc[id] == Buried;
    TrackRetire(s, p.loc, id);
    IndexIgnores(s.jobs, s.unique, p.loc, id);
    WorkersForget(p.v.workers, p.loc, id);
    q := Snapshot(p.v.(store := s.(dlq := RemoveFirst(s.dlq, id))), p.loc - {id}, p.orderly);
  }

  lemma RetryDeadKeeps(p: Sound, id: Id, newId: Id, now: int) returns (q: Sound)
    requires id in p.v.store.dlq && newId !in p.v.store.jobs
    ensures q.v == After(p.v, RetryDead(id, newId, now))
    ensures q.orderly == p.orderly
  {
    q := RetireKeeps(p, id);
    var again := p.v.store.jobs[id].(id := newId, status := Pending, attempts := 0);
    assert After(p.v, RetryDead(id, newId, now)) == After(q.v, Enqueue(again, now));
    q := EnqueueKeeps(q, again, now);
  }

  lemma TrackDelete(s: Store, loc: Places, id: Id, qn: QueueName, t: Store)
    requires Tracks(s, loc) && id in loc && (loc[id].Queued? || loc[id].Waiting?)
    requires qn == QueueOf(s.jobs[id].priority)
    requires t == Store(s.jobs - {id}, s.queues[qn := RemoveAll(List(s.queues, qn), id)],
                        s.scheduled - {id}, RemoveAll(s.dlq, id), t.unique)
    ensures Tracks(t, loc - {id})
  {
    RemovedAll(s.dlq, id);
    ListForgets(s.dlq, t.dlq, loc, Buried, id);
    assert ListTracks(List(s.queues, qn), loc, Queued(qn));
    RemovedAll(List(s.queues, qn), id);
    forall q ensures ListTracks(List(t.queues, q), loc - {id}, Queued(q)) {
      assert ListTracks(List(s.queues, q), loc, Queued(q));
      if q == qn {
        ListForgets(List(s.queues, q), List(t.queues, q), loc, Queued(q), id);
      } else {
        ListIgnores(List(s.queues, q), loc, Queued(q), id);
      }
    }
  }

  lemma WaitingPlace(p: Sound, id: Id)
    requires IsWaiting(p.v.store, id)
    ensures id in p.loc && (p.loc[id].Queued? || p.loc[id].Waiting?) && id in p.v.store.jobs
  {
    Open(p);
    if id !in p.v.store.scheduled {
      var q :| id in List(p.v.store.queues, q);
      assert ListTracks(List(p.v.store.queues, q), p.loc, Queued(q));
    }
  }

  lemma DeleteKeeps(p: Sound, id: Id) returns (q: Sound)
    requires IsWaiting(p.v.store, id)
    ensures q.v == After(p.v, Delete(id))
    ensures q.orderly == p.orderly
  {
    var s, t := p.v.store, DeleteOp(p.v.store, id).0;
    WaitingPlace(p, id);
    Open(p);
    TrackDelete(s, p.loc, id, QueueOf(s.jobs[id].priority), t);
    IndexForgets(s.jobs, s.unique, p.loc, id);
    WorkersForget(p.v.workers, p.loc, id);
    q := Snapshot(p.v.(store := t), p.loc - {id}, p.orderly);
  }

  // ---------- ProcessScheduled ----------

  lemma StoreMoves(p: Sound, id: Id, j: Job, t: Store)
    requires id in p.v.store.scheduled && id in p.v.store.jobs
    requires j == p.v.store.jobs[id].(scheduledAt := None, status := Pending) && t == MoveOp(p.v.store, id)
    ensures id in p.loc && p.loc[id] == Waiting && j.id == id
    ensures Tracks(t, p.loc[id := Queued(QueueOf(j.priority))]) && t.jobs == p.v.store.jobs[id := j] &&
      t.unique == p.v.store.unique
  {
    Open(p);
    var s, place := p.v.store, Queued(QueueOf(j.priority));
    TrackZRem(s, p.loc, id, Moving);
    TrackSettles(ZRem(s, id), p.loc[id := Moving], j, place, t);
    assert p.loc[id := Moving][id := place] == p.loc[id := place];
  }

  lemma WorkersAside(p: Sound, id: Id, place: Place)
    requires (id in p.loc ==> !p.loc[id].Held?) && !place.Held?
    ensures WorkersTrack(p.v.workers, p.loc[id := place])
  {
    Open(p);
    WorkersIgnore(p.v.workers, p.loc, id, place);
  }

  lemma ScheduledRecord(p: Sound, id: Id)
    requires id in p.v.store.scheduled
    ensures id in p.v.store.jobs
  {
    Open(p);
  }

  lemma MoveOneKeeps(p: Sound, id: Id) returns (q: Sound)
    requires id in p.v.store.scheduled
    ensures q.v == p.v.(store := MoveOp(p.v.store, id))
    ensures q.orderly == p.orderly
    ensures q.v.store.scheduled == p.v.store.scheduled - {id}
  {
    ScheduledRecord(p, id);
    var j, t := p.v.store.jobs[id].(scheduledAt := None, status := Pending), MoveOp(p.v.store, id);
    var place := Queued(QueueOf(j.priority));
    StoreMoves(p, id, j, t);
    RestMoves(p, j, place);
    WorkersAside(p, id, place);
    q := Snapshot(p.v.(store := t), p.loc[id := place], p.orderly);
  }

  lemma {:induction false} MoveAllKeeps(p: Sound, ids: seq<Id>) returns (q: Sound)
    requires NoDup(ids) && forall id :: id in ids ==> id in p.v.store.scheduled
    ensures q.v == p.v.(store := MoveAll(p.v.store, ids))
    ensures q.orderly == p.orderly
    ensures q.v.store.scheduled.Keys == p.v.store.scheduled.Keys - set id | id in ids
  {
    if ids == [] {
      q := p;
    } else {
      var n := |ids| - 1;
      assert ids == ids[..n] + [ids[n]];
      var mid := MoveAllKeeps(p, ids[..n]);
      assert ids[n] !in ids[..n];
      q := MoveOneKeeps(mid, ids[n]);
    }
  }

  // ---------- Every run ----------

  lemma StepKeeps(p: Sound, step: Step) returns (q: Sound)
    requires Enabled(p.v, step)
    ensures q.v == After(p.v, step) && q.orderly == (p.orderly && Orderly(p.v, step))
  {
    match step
    case Enqueue(job, now) => q := EnqueueKeeps(p, job, now);
    case Dequeue(w) => q := DequeueKeeps(p, w);
    case Check(w) => q := CheckKeeps(p, w);
    case Succeed(w) => q := SucceedKeeps(p, w);
    case Mark(w) => q := MarkKeeps(p, w);
    case Fail(w, now) => q := FailKeeps(p, w, now);
    case Requeue(w) => q := RequeueKeeps(p, w);
    case ProcessScheduled(ids, _) => q := MoveAllKeeps(p, ids);
    case RetryDead(id, newId, now) => q := RetryDeadKeeps(p, id, newId, now);
    case Delete(id) => q := DeleteKeeps(p, id);
  }

  lemma {:induction false} LastStep(steps: seq<Step>, before: seq<Step>, n: nat)
    requires Valid(steps) && n == |steps| - 1 && before == steps[..n]
    ensures Valid(before) && Enabled(Run(before), steps[n]) && Run(steps) == After(Run(before), steps[n])
  {
    assert forall i :: 0 <= i <= n ==> before[..i] == steps[..i];
  }

  lemma {:induction false} Snoc(steps: seq<Step>, step: Step)
    requires Valid(steps) && Enabled(Run(steps), step)
    ensures Valid(steps + [step]) && Run(steps + [step]) == After(Run(steps), step)
  {
    var all := steps + [step];
    assert all[..|steps|] == steps;
    assert forall i :: 0 <= i < |steps| ==> all[..i] == steps[..i];
  }

  /** From the n-th step on, no check is passed while a mark of that key is pending. */
  ghost predicate AllOrderly(steps: seq<Step>, n: nat) {
    forall k :: n <= k < |steps| ==> Orderly(Run(steps[..k]), steps[k])
  }

  lemma AllOrderlyPrefix(steps: seq<Step>, n: nat, m: nat)
    requires n <= m < |steps|
    ensures AllOrderly(steps[..m + 1], n) <==> AllOrderly(steps[..m], n) && Orderly(Run(steps[..m]), steps[m])
  {
    assert forall k :: 0 <= k <= m ==> steps[..m + 1][..k] == steps[..k] && steps[..m][..k] == steps[..k];
    assert steps[..m + 1][m] == steps[m];
    if AllOrderly(steps[..m + 1], n) {
      assert Orderly(Run(steps[..m + 1][..m]), steps[..m + 1][m]);
      forall k | n <= k < m ensures Orderly(Run(steps[..m][..k]), steps[..m][k]) {
        assert Orderly(Run(steps[..m + 1][..k]), steps[..m + 1][k]);
      }
    }
  }

  lemma {:induction false} RunKeeps(steps: seq<Step>) returns (p: Sound)
    requires Valid(steps)
    ensures p.v == Run(steps) && p.orderly == AllOrderly(steps, 0)
  {
    if steps == [] {
      p := Snapshot(Initial(), map[], true);
    } else {
      var n := |steps| - 1;
      LastStep(steps, steps[..n], n);
      assert steps[..n + 1] == steps;
      AllOrderlyPrefix(steps, 0, n);
      p := RunKeeps(steps[..n]);
      p := StepKeeps(p, steps[n]);
    }
  }

  // ---------- Main results ----------

  /** Queued, scheduled or in a worker's hands. */
  ghost predicate IsLive(v: Service, id: Id) {
    IsWaiting(v.store, id) || exists w :: w in v.workers && v.workers[w].id == id
  }

  lemma LivePlace(p: Sound, id: Id)
    ensures IsLive(p.v, id) <==> id in p.loc && Live(p.loc[id])
  {
    if IsWaiting(p.v.store, id) {
      WaitingPlace(p, id);
    }
    Open(p);
    if id in p.loc && p.loc[id].Queued? {
      assert ListTracks(List(p.v.store.queues, p.loc[id].q), p.loc, p.loc[id]);
    }
  }

  /**
    The unique map is exact: in every run a non-empty key is mapped to an ID if and only if that ID is a
    live job with that key.  In particular no two live jobs share a non-empty key.
   */
  lemma {:induction false} UniqueIndexExact(steps: seq<Step>, key: string, id: Id)
    requires Valid(steps)
    ensures var v := Run(steps);
      (key in v.store.unique && v.store.unique[key] == id) <==>
      (key != "" && IsLive(v, id) && id in v.store.jobs && v.store.jobs[id].uniqueKey == key)
  {
    var p := RunKeeps(steps);
    LivePlace(p, id);
    Open(p);
  }

  lemma {:induction false} NoSharedKeys(steps: seq<Step>, id: Id, other: Id)
    requires Valid(steps)
    requires var v := Run(steps);
      && IsLive(v, id) && IsLive(v, other) && id in v.store.jobs && other in v.store.jobs
      && v.store.jobs[id].uniqueKey == v.store.jobs[other].uniqueKey != ""
    ensures id == other
  {
    UniqueIndexExact(steps, Run(steps).store.jobs[id].uniqueKey, id);
    UniqueIndexExact(steps, Run(steps).store.jobs[id].uniqueKey, other);
  }

  /** Over the whole history of an orderly run no key has two successful handler runs. */
  lemma {:induction false} AtMostOneSuccess(steps: seq<Step>)
    requires Valid(steps) && AllOrderly(steps, 0)
    ensures NoDup(Run(steps).successes)
  {
    var p := RunKeeps(steps);
    Open(p);
  }

  // ---------- Exactly when a check may be passed ----------

  /** The run goes on from `steps`, orderly from there on. */
  ghost predicate Goes(all: seq<Step>, steps: seq<Step>) {
    |steps| <= |all| && all[..|steps|] == steps && Valid(all) && AllOrderly(all, |steps|)
  }

  /** However the run goes on in an orderly way, no key has two successes. */
  ghost predicate SafeAfter(steps: seq<Step>) {
    forall all :: Goes(all, steps) ==> NoDup(Run(all).successes)
  }

  lemma {:induction false} PendingIsSuccess(steps: seq<Step>, key: string)
    requires Valid(steps) && key in Run(steps).marking.Values
    ensures key in Run(steps).successes
  {
    var n := |steps| - 1;
    var before := steps[..n];
    LastStep(steps, before, n);
    if key in Run(before).marking.Values {
      PendingIsSuccess(before, key);
    }
    SuccessesGrow(Run(before), steps[n], key);
  }

  /** A step adds a pending mark only together with its success, and forgets no success. */
  lemma SuccessesGrow(v: Service, step: Step, key: string)
    ensures key in After(v, step).marking.Values ==> key in v.marking.Values || key in After(v, step).successes
    ensures key in v.successes ==> key in After(v, step).successes
  {
    var t := After(v, step);
    if key in t.marking.Values {
      var w :| w in t.marking && t.marking[w] == key;
      assert w in v.marking && v.marking[w] == key ==> key in v.marking.Values;
    }
  }

  lemma SucceedRecords(v: Service, w: nat, key: string)
    requires w in v.workers && v.workers[w].cleared && key == KeyOf(v.store, v.workers[w].id) && key != ""
    ensures Enabled(v, Succeed(w)) && Orderly(v, Succeed(w)) && After(v, Succeed(w)).successes == v.successes + [key]
  {
  }

  lemma {:induction false} RepeatedSuccess(s: seq<string>, key: string)
    requires key in s
    ensures !NoDup(s + [key])
  {
    var i :| 0 <= i < |s| && s[i] == key;
    assert (s + [key])[i] == (s + [key])[|s|];
  }

  lemma {:induction false} EarlyCheckBreaks(steps: seq<Step>, w: nat, key: string, cleared: seq<Step>)
      returns (all: seq<Step>)
    requires Valid(steps) && Clears(Run(steps), Check(w), key) && key in Run(steps).marking.Values
    requires cleared == steps + [Check(w)]
    ensures Goes(all, cleared) && !NoDup(Run(all).successes)
  {
    Snoc(steps, Check(w));
    var v := Run(cleared);
    PendingIsSuccess(steps, key);
    assert v.successes == Run(steps).successes;
    SucceedRecords(v, w, key);
    Snoc(cleared, Succeed(w));
    all := cleared + [Succeed(w)];
    assert all[..|cleared|] == cleared;
    RepeatedSuccess(v.successes, key);
  }

  /**
    The exact condition: passing the idempotency check with a key is safe for every orderly continuation
    if and only if no mark of that key is pending, that is, no worker is between Complete and
    MarkCompleted with it.
   */
  lemma {:induction false} CheckSafeIff(steps: seq<Step>, w: nat, key: string, cleared: seq<Step>)
    requires Valid(steps) && AllOrderly(steps, 0) && Clears(Run(steps), Check(w), key) && cleared == steps + [Check(w)]
    ensures SafeAfter(cleared) <==> key !in Run(steps).marking.Values
  {
    if key in Run(steps).marking.Values {
      var all := EarlyCheckBreaks(steps, w, key, cleared);
    } else {
      forall all | Goes(all, cleared) ensures NoDup(Run(all).successes) {
        OrderlyThroughout(steps, Check(w), all);
        AtMostOneSuccess(all);
      }
    }
  }

  lemma {:induction false} OrderlyThroughout(steps: seq<Step>, step: Step, all: seq<Step>)
    requires AllOrderly(steps, 0) && Orderly(Run(steps), step) && Goes(all, steps + [step])
    ensures AllOrderly(all, 0)
  {
    var n := |steps|;
    assert all[..n + 1] == steps + [step];
    assert all[..n] == (steps + [step])[..n] == steps;
    forall k | 0 <= k < |all| ensures Orderly(Run(all[..k]), all[k]) {
      if k < n {
        assert all[..k] == steps[..k] && all[k] == steps[k];
      } else if k == n {
        assert all[k] == all[..n + 1][n];
      }
    }
  }

  // ---------- Deleting a job that is done ----------

  /** A non-empty key is mapped to an ID exactly if that ID is a live job with that key. */
  ghost predicate IndexExact(v: Service) {
    forall key, id :: (key in v.store.unique && v.store.unique[key] == id) <==> Owns(v, id, key)
  }

  ghost predicate Owns(v: Service, id: Id, key: string) {
    key != "" && IsLive(v, id) && id in v.store.jobs && v.store.jobs[id].uniqueKey == key
  }

  lemma {:induction false} AlwaysExact(steps: seq<Step>)
    requires Valid(steps)
    ensures IndexExact(Run(steps))
  {
    forall key, id
      ensures (key in Run(steps).store.unique && Run(steps).store.unique[key] == id) <==> Owns(Run(steps), id, key)
    {
      UniqueIndexExact(steps, key, id);
    }
  }

  function Deleted(v: Service, id: Id): Service {
    v.(store := DeleteOp(v.store, id).0)
  }

  lemma {:induction false} NothingRemoved(l: seq<Id>, id: Id)
    requires id !in l
    ensures RemoveAll(l, id) == l
  {
    if l != [] {
      NothingRemoved(l[1..], id);
    }
  }

  /** Deleting a job that is not live leaves every other job as live as it was. */
  lemma DeletedLive(v: Service, id: Id, x: Id)
    requires !IsLive(v, id) && id in v.store.jobs
    ensures IsLive(Deleted(v, id), x) <==> IsLive(v, x)
  {
    var q := QueueOf(v.store.jobs[id].priority);
    assert id !in List(v.store.queues, q);
    NothingRemoved(List(v.store.queues, q), id);
    assert forall p :: List(Deleted(v, id).store.queues, p) == List(v.store.queues, p);
  }

  lemma DeletedOwns(v: Service, id: Id, x: Id, key: string)
    requires !IsLive(v, id) && id in v.store.jobs
    ensures Owns(Deleted(v, id), x, key) <==> Owns(v, x, key)
  {
    DeletedLive(v, id, x);
  }

  /**
    Why deletion is limited to waiting jobs: in every reachable state, deleting a job that is not live
    keeps the index exact if and only if its key is not in the index, that is, unless a newer live job
    has the key.
   */
  lemma {:induction false} DeletingDoneJob(steps: seq<Step>, id: Id)
    requires Valid(steps) && id in Run(steps).store.jobs && !IsLive(Run(steps), id)
    ensures IndexExact(Deleted(Run(steps), id)) <==> Run(steps).store.jobs[id].uniqueKey !in Run(steps).store.unique
  {
    AlwaysExact(steps);
    DeletingDone(Run(steps), id);
  }

  lemma DeletingDone(v: Service, id: Id)
    requires IndexExact(v) && id in v.store.jobs && !IsLive(v, id)
    ensures IndexExact(Deleted(v, id)) <==> v.store.jobs[id].uniqueKey !in v.store.unique
  {
    var t, key := Deleted(v, id), v.store.jobs[id].uniqueKey;
    forall x, k ensures Owns(t, x, k) <==> Owns(v, x, k) {
      DeletedOwns(v, id, x, k);
    }
    if key in v.store.unique {
      assert Owns(v, v.store.unique[key], key);
      assert key !in t.store.unique;
    } else {
      assert t.store.unique == v.store.unique;
    }
  }

  lemma RetriedNotLive(v: Service, id: Id, newId: Id, now: int)
    requires !IsLive(v, id) && id != newId && id in v.store.jobs
    ensures !IsLive(After(v, RetryDead(id, newId, now)), id)
  {
    var t := After(v, RetryDead(id, newId, now));
    forall q ensures id !in List(t.store.queues, q) {
      assert id !in List(v.store.queues, q);
    }
  }

  lemma RetriedKey(v: Service, id: Id, newId: Id, now: int)
    requires id in v.store.jobs && id != newId && v.store.jobs[id].uniqueKey != "" &&
      v.store.jobs[id].uniqueKey !in v.store.unique
    ensures var t := After(v, RetryDead(id, newId, now)).store;
      id in t.jobs && t.jobs[id] == v.store.jobs[id] && v.store.jobs[id].uniqueKey in t.unique
  {
  }

  lemma {:induction false} DeadNotLive(steps: seq<Step>, id: Id)
    requires Valid(steps) && id in Run(steps).store.dlq
    ensures !IsLive(Run(steps), id) && id in Run(steps).store.jobs
  {
    var p := RunKeeps(steps);
    LivePlace(p, id);
    Open(p);
  }

  /** Retrying a dead keyed job by hand and then deleting the old ID removes the key of the new job. */
  lemma {:induction false} RetryThenDelete(steps: seq<Step>, id: Id, newId: Id, now: int) returns (all: seq<Step>)
    requires Valid(steps) && id in Run(steps).store.dlq && newId !in Run(steps).store.jobs &&
      id in Run(steps).store.jobs
    requires Run(steps).store.jobs[id].uniqueKey != "" &&
      Run(steps).store.jobs[id].uniqueKey !in Run(steps).store.unique
    ensures Valid(all) && id in Run(all).store.jobs && !IsLive(Run(all), id) && !IndexExact(Deleted(Run(all), id))
  {
    var step := RetryDead(id, newId, now);
    DeadNotLive(steps, id);
    Snoc(steps, step);
    all := steps + [step];
    RetriedNotLive(Run(steps), id, newId, now);
    RetriedKey(Run(steps), id, newId, now);
    DeletingDoneJob(all, id);
  }

  // ---------- Two runs ----------

  /** A critical job with this ID and key that may be tried once. */
  function Keyed(id: Id, key: string): Job {
    Job(id, 3, Pending, 0, 0, RetryPolicy(Fixed, 0, 0, 1.0), None, key)
  }

  /** A run that has come to this state; looked into with OpenReached. */
  datatype Stage = Stage(steps: seq<Step>, v: Service)

  ghost predicate IsReached(o: Stage) {
    forall k :: Asked(k) ==> Valid(o.steps) && Run(o.steps) == o.v
  }

  lemma OpenReached(o: Stage)
    requires IsReached(o)
    ensures Valid(o.steps) && Run(o.steps) == o.v
  {
    assert Asked(0);
  }

  lemma {:induction false} Reach(o: Stage, step: Step, v: Service) returns (n: Stage)
    requires IsReached(o) && Enabled(o.v, step) && After(o.v, step) == v
    ensures IsReached(n) && n.v == v
  {
    OpenReached(o);
    Snoc(o.steps, step);
    n := Stage(o.steps + [step], v);
  }

  /** One keyed job, in the hands of worker `w` that has passed the check, beside what is there already. */
  function InHand(v: Service, w: nat, id: Id, key: string): Service {
    v.(store := SetUnique(SetJob(v.store, Started(Keyed(id, key))), Keyed(id, key)),
      workers := v.workers[w := Work(id, false)])
  }

  lemma EnqueueThenTake(v: Service, w: nat, id: Id, key: string, mid: Service, t: Service)
    requires id !in v.store.jobs && key != "" && key !in v.store.unique && List(v.store.queues, CriticalQueue) == []
    requires w !in v.workers && w !in v.marking
    requires mid == After(v, Enqueue(Keyed(id, key), 0)) && t == After(mid, Dequeue(w))
    ensures Enabled(v, Enqueue(Keyed(id, key), 0)) && Enabled(mid, Dequeue(w))
    ensures t == InHand(v, w, id, key).(store := t.store) && t.store.jobs == v.store.jobs[id := Started(Keyed(id, key))]
    ensures t.store.unique == v.store.unique[key := id] && t.store.dlq == v.store.dlq
    ensures List(t.store.queues, CriticalQueue) == []
  {
    assert POLL_ORDER[0] == CriticalQueue;
    assert List(mid.store.queues, CriticalQueue) == [id];
  }

  /** Enqueue a keyed job and let worker `w` take it. */
  lemma {:induction false} TakeKeyed(o: Stage, w: nat, id: Id, key: string) returns (n: Stage)
    requires IsReached(o) && id !in o.v.store.jobs && key != "" && key !in o.v.store.unique
    requires w !in o.v.workers && w !in o.v.marking && List(o.v.store.queues, CriticalQueue) == []
    ensures IsReached(n) && n.v == InHand(o.v, w, id, key).(store := n.v.store)
    ensures n.v.store.jobs == o.v.store.jobs[id := Started(Keyed(id, key))]
    ensures n.v.store.unique == o.v.store.unique[key := id] && List(n.v.store.queues, CriticalQueue) == []
  {
    var mid := After(o.v, Enqueue(Keyed(id, key), 0));
    var t := After(mid, Dequeue(w));
    EnqueueThenTake(o.v, w, id, key, mid, t);
    n := Reach(o, Enqueue(Keyed(id, key), 0), mid);
    n := Reach(n, Dequeue(w), t);
  }

  lemma {:induction false} FirstInHand(key: string) returns (o: Stage)
    requires key != ""
    ensures IsReached(o) && o.v.workers == map[0 := Work(0, true)] && o.v.marking == map[] && o.v.completed == {}
    ensures o.v.store.jobs == map[0 := Started(Keyed(0, key))] && o.v.store.unique == map[key := 0]
    ensures List(o.v.store.queues, CriticalQueue) == []
  {
    o := Stage([], Initial());
    o := TakeKeyed(o, 0, 0, key);
    o := Reach(o, Check(0), After(o.v, Check(0)));
  }

  /** A dead keyed job is reachable, so the index can be broken by deleting it after a retry. */
  lemma {:induction false} DeleteAfterRetryBreaks(key: string) returns (steps: seq<Step>)
    requires key != ""
    ensures Valid(steps) && 0 in Run(steps).store.jobs && !IsLive(Run(steps), 0) && !IndexExact(Deleted(Run(steps), 0))
  {
    var o := FirstInHand(key);
    o := Reach(o, Fail(0, 0), After(o.v, Fail(0, 0)));
    OpenReached(o);
    steps := RetryThenDelete(o.steps, 0, 1, 0);
  }

  lemma SucceedMarks(v: Service, key: string)
    requires v.workers == map[0 := Work(0, true)] && v.store.jobs == map[0 := Started(Keyed(0, key))] && key != ""
    requires v.marking == map[] && v.store.unique == map[key := 0]
    ensures Enabled(v, Succeed(0))
    ensures var t := After(v, Succeed(0));
      && t.workers == map[] && t.marking == map[0 := key] && t.completed == v.completed
      && t.store.unique == map[] && t.store.jobs.Keys == {0} && t.store.queues == v.store.queues
  {
  }

  /** A worker between Complete and MarkCompleted, and a second job with the key that passes the check. */
  lemma {:induction false} UnmarkedSuccess(key: string) returns (o: Stage)
    requires key != ""
    ensures IsReached(o) && Clears(o.v, Check(1), key) && key in o.v.marking.Values
  {
    o := FirstInHand(key);
    SucceedMarks(o.v, key);
    o := Reach(o, Succeed(0), After(o.v, Succeed(0)));
    o := TakeKeyed(o, 1, 1, key);
    assert o.v.marking[0] == key;
  }

  /** So two successes with one key are reachable: MarkCompleted comes after Complete has freed the key. */
  lemma {:induction false} MarkRaces(key: string) returns (steps: seq<Step>)
    requires key != ""
    ensures Valid(steps) && !NoDup(Run(steps).successes)
  {
    var o := UnmarkedSuccess(key);
    OpenReached(o);
    steps := EarlyCheckBreaks(o.steps, 1, key, o.steps + [Check(1)]);
  }
}
