/**
  The distributed job lock (internal/jobs/lock/distributed_lock.go): a Redis key with
  an expiry whose value is "<worker>:<nanoseconds>", and lock objects that believe
  they hold it.  Replies may be lost.  Times and TTLs are whole milliseconds.
 */
module JobLocks {
  import opened Prelude

  // ---------- Owner matching ----------

  /** Plain substring search, as string.find with its fourth argument set. */
  predicate Contains(text: string, pattern: string) {
    exists i :: 0 <= i <= |text| - |pattern| && OccursAt(text, pattern, i)
  }

  predicate OccursAt(text: string, pattern: string, i: nat)
    requires i + |pattern| <= |text|
  {
    text[i..i + |pattern|] == pattern
  }

  /** Worker IDs are UUIDs: 36 characters, none of them a colon. */
  predicate IsWorkerId(id: string) {
    |id| == 36 && forall i :: 0 <= i < |id| ==> id[i] != ':'
  }

  predicate IsNumber(digits: string) {
    forall i :: 0 <= i < |digits| ==> digits[i] != ':'
  }

  function LockValue(worker: string, stamp: string): string {
    worker + ":" + stamp
  }

  /** The script's prefix match by substring search accepts exactly the owner's own value. */
  lemma MatchIsOwnership(owner: string, stamp: string, worker: string)
    requires IsWorkerId(owner) && IsWorkerId(worker) && IsNumber(stamp)
    ensures Contains(LockValue(owner, stamp), worker + ":") <==> owner == worker
  {
    var text, pattern := LockValue(owner, stamp), worker + ":";
    if owner == worker {
      assert OccursAt(text, pattern, 0);
    }
    if Contains(text, pattern) {
      var i :| 0 <= i <= |text| - |pattern| && OccursAt(text, pattern, i);
      var last := |pattern| - 1;
      assert text[i..i + |pattern|][last] == pattern[last] == ':';
      assert text[i + last] == ':';
      assert i + last == |owner|;
      assert i == 0;
      assert owner == text[..36] == pattern[..36] == worker;
    }
  }

  // ---------- The protocol for one job's key ----------

  datatype Entry = Entry(value: string, expires: int)

  /** A lock object in some process: `since` is when its key was last set or extended (history). */
  datatype Lock = Lock(worker: string, held: bool, since: int)

  datatype World = World(key: Option<Entry>, locks: map<nat, Lock>, clock: int)

  /** The reply to a command may be lost, whether or not Redis had carried it out. */
  datatype Reply = Received | Lost(applied: bool)

  datatype Step =
    | Acquire(obj: nat, worker: string, stamp: string, reply: Reply, now: int)
    | Heartbeat(obj: nat, reply: Reply, now: int)
    | Release(obj: nat, reply: Reply, now: int)

  function Initial(): World {
    World(None, map[], 0)
  }

  /** A key is gone once its expiry time has passed. */
  function Alive(key: Option<Entry>, now: int): Option<Entry> {
    if key.Some? && now > key.value.expires then None else key
  }

  function SetNX(key: Option<Entry>, value: string, ttl: int, now: int): (Option<Entry>, bool) {
    if Alive(key, now).Some? then (Alive(key, now), false) else (Some(Entry(value, now + ttl)), true)
  }

  /** The compare step of the release and heartbeat scripts. */
  predicate Matches(key: Option<Entry>, worker: string) {
    key.Some? && Contains(key.value.value, worker + ":")
  }

  /** The heartbeat script: extend the key if it is ours. */
  function Extend(key: Option<Entry>, worker: string, ttl: int, now: int): (Option<Entry>, bool) {
    var k := Alive(key, now);
    if Matches(k, worker) then (Some(k.value.(expires := now + ttl)), true) else (k, false)
  }

  /** The release script: delete the key if it is ours. */
  function DeleteOwn(key: Option<Entry>, worker: string, now: int): Option<Entry> {
    var k := Alive(key, now);
    if Matches(k, worker) then None else k
  }

  /** What a command leaves of the key, and what the caller learns. */
  function Answered(key: Option<Entry>, now: int, reply: Reply, done: (Option<Entry>, bool)): (Option<Entry>, bool) {
    match reply
    case Received => done
    case Lost(applied) => (if applied then done.0 else Alive(key, now), false)
  }

  function After(ttl: int, w: World, step: Step): World {
    match step
    case Acquire(obj, worker, stamp, reply, now) =>
      var (key, ok) := Answered(w.key, now, reply, SetNX(w.key, LockValue(worker, stamp), ttl, now));
      World(key, if ok then w.locks[obj := Lock(worker, true, now)] else w.locks, now)
    case Heartbeat(obj, reply, now) =>
      if obj !in w.locks || !w.locks[obj].held then World(Alive(w.key, now), w.locks, now)
      else
        var l := w.locks[obj];
        var (key, ok) := Answered(w.key, now, reply, Extend(w.key, l.worker, ttl, now));
        World(key, w.locks[obj := if ok then l.(since := now) else l.(held := false)], now)
    case Release(obj, reply, now) =>
      if obj !in w.locks || !w.locks[obj].held then World(Alive(w.key, now), w.locks, now)
      else
        var l := w.locks[obj];
        var (key, _) := Answered(w.key, now, reply, (DeleteOwn(w.key, l.worker, now), true));
        World(key, w.locks[obj := l.(held := false)], now)
  }

  /** New objects are new, time does not go back, and IDs and stamps have their fixed shape. */
  ghost predicate Enabled(w: World, step: Step) {
    && w.clock <= step.now
    && (step.Acquire? ==> step.obj !in w.locks && IsWorkerId(step.worker) && IsNumber(step.stamp))
  }

  /** The request finds the key free, and its process learns so. */
  predicate Succeeds(w: World, step: Step) {
    step.Acquire? && step.reply.Received? && Alive(w.key, step.now).None?
  }

  /** A process gets the lock only when it has no held lock object for the job. */
  ghost predicate Disciplined(w: World, step: Step) {
    Succeeds(w, step) ==> forall o :: o in w.locks && w.locks[o].worker == step.worker ==> !w.locks[o].held
  }

  function Run(ttl: int, steps: seq<Step>): World {
    if steps == [] then Initial() else After(ttl, Run(ttl, steps[..|steps| - 1]), steps[|steps| - 1])
  }

  ghost predicate Valid(ttl: int, steps: seq<Step>) {
    forall i :: 0 <= i < |steps| ==> Enabled(Run(ttl, steps[..i]), steps[i])
  }

  /** From the n-th step on. */
  ghost predicate AllDisciplined(ttl: int, steps: seq<Step>, n: nat) {
    forall i :: n <= i < |steps| ==> Disciplined(Run(ttl, steps[..i]), steps[i])
  }

  /** The object believes it holds the lock, and its lease has not run out at `now`. */
  predicate HasLease(ttl: int, l: Lock, now: int) {
    l.held && now <= l.since + ttl
  }

  // ---------- The invariant ----------

  /** The key carries a well-formed value of `worker`. */
  ghost predicate OwnedBy(key: Option<Entry>, worker: string) {
    key.Some? && exists stamp :: IsNumber(stamp) && key.value.value == LockValue(worker, stamp)
  }

  predicate SameHolder(l: Lock, m: Lock) {
    l.held && m.held && l.worker == m.worker
  }

  ghost predicate Inv(ttl: int, w: World) {
    && (w.key.Some? ==> exists worker :: IsWorkerId(worker) && OwnedBy(w.key, worker))
    && (forall o :: o in w.locks ==> IsWorkerId(w.locks[o].worker))
    && (forall o :: o in w.locks && w.locks[o].held ==> w.locks[o].since <= w.clock)
    && (forall o, p :: o in w.locks && p in w.locks && SameHolder(w.locks[o], w.locks[p]) ==> o == p)
    && (forall o :: o in w.locks && HasLease(ttl, w.locks[o], w.clock) ==>
          OwnedBy(w.key, w.locks[o].worker) && w.key.value.expires == w.locks[o].since + ttl)
  }

  lemma OwnerMatches(key: Option<Entry>, owner: string, worker: string)
    requires IsWorkerId(owner) && IsWorkerId(worker) && OwnedBy(key, owner)
    ensures Matches(key, worker) <==> owner == worker
    ensures OwnedBy(key, worker) ==> owner == worker
  {
    var stamp :| IsNumber(stamp) && key.value.value == LockValue(owner, stamp);
    MatchIsOwnership(owner, stamp, worker);
    if OwnedBy(key, worker) {
      var other :| IsNumber(other) && key.value.value == LockValue(worker, other);
      MatchIsOwnership(worker, other, worker);
    }
  }

  lemma AliveKeeps(ttl: int, w: World, now: int)
    requires Inv(ttl, w) && w.clock <= now
    ensures Inv(ttl, w.(key := Alive(w.key, now), clock := now))
  {
  }

  lemma AcquireKeeps(ttl: int, w: World, step: Step)
    requires 0 < ttl && Inv(ttl, w) && w.clock == step.now && w.key == Alive(w.key, step.now)
    requires step.Acquire? && Enabled(w, step) && Disciplined(w, step)
    ensures Inv(ttl, After(ttl, w, step))
  {
    var v := After(ttl, w, step);
    if w.key.None? && v.key.Some? {
      assert v.key.value.value == LockValue(step.worker, step.stamp);
      assert OwnedBy(v.key, step.worker);
      assert forall o :: o in w.locks ==> !HasLease(ttl, w.locks[o], w.clock);
    }
  }

  lemma HeartbeatKeeps(ttl: int, w: World, obj: nat, reply: Reply)
    requires 0 < ttl && Inv(ttl, w) && w.key == Alive(w.key, w.clock)
    ensures Inv(ttl, After(ttl, w, Heartbeat(obj, reply, w.clock)))
  {
    var v := After(ttl, w, Heartbeat(obj, reply, w.clock));
    if obj in w.locks && w.locks[obj].held && Matches(w.key, w.locks[obj].worker) {
      var worker :| IsWorkerId(worker) && OwnedBy(w.key, worker);
      OwnerMatches(w.key, worker, w.locks[obj].worker);
      assert OwnedBy(v.key, worker);
      forall o | o in w.locks && o != obj ensures !HasLease(ttl, w.locks[o], w.clock) {
        OwnerMatches(w.key, worker, w.locks[o].worker);
      }
    }
  }

  lemma ReleaseKeeps(ttl: int, w: World, obj: nat, reply: Reply)
    requires 0 < ttl && Inv(ttl, w) && w.key == Alive(w.key, w.clock)
    ensures Inv(ttl, After(ttl, w, Release(obj, reply, w.clock)))
  {
    if obj in w.locks && w.locks[obj].held && Matches(w.key, w.locks[obj].worker) {
      var worker :| IsWorkerId(worker) && OwnedBy(w.key, worker);
      OwnerMatches(w.key, worker, w.locks[obj].worker);
      forall o | o in w.locks && o != obj ensures !HasLease(ttl, w.locks[o], w.clock) {
        OwnerMatches(w.key, worker, w.locks[o].worker);
      }
    }
  }

  lemma StepKeeps(ttl: int, w: World, step: Step)
    requires 0 < ttl && Inv(ttl, w) && Enabled(w, step) && Disciplined(w, step)
    ensures Inv(ttl, After(ttl, w, step))
  {
    var v := w.(key := Alive(w.key, step.now), clock := step.now);
    AliveKeeps(ttl, w, step.now);
    assert After(ttl, v, step) == After(ttl, w, step);
    match step
    case Acquire(_, _, _, _, _) => AcquireKeeps(ttl, v, step);
    case Heartbeat(obj, reply, _) => HeartbeatKeeps(ttl, v, obj, reply);
    case Release(obj, reply, _) => ReleaseKeeps(ttl, v, obj, reply);
  }

  lemma {:induction false} LastStep(ttl: int, steps: seq<Step>, n: nat, before: seq<Step>)
    requires Valid(ttl, steps) && AllDisciplined(ttl, steps, n) && n < |steps| && before == steps[..|steps| - 1]
    ensures Valid(ttl, before) && AllDisciplined(ttl, before, n) && before[..n] == steps[..n]
    ensures var last := steps[|steps| - 1];
      && Enabled(Run(ttl, before), last) && Disciplined(Run(ttl, before), last)
      && Run(ttl, steps) == After(ttl, Run(ttl, before), last)
  {
    assert forall k :: 0 <= k <= |before| ==> before[..k] == steps[..k];
  }

  /** The invariant holds at the end if it holds after `n` steps and the run is disciplined from then on. */
  lemma {:induction false} RunKeeps(ttl: int, steps: seq<Step>, n: nat)
    requires 0 < ttl && Valid(ttl, steps) && AllDisciplined(ttl, steps, n) && n <= |steps| &&
      Inv(ttl, Run(ttl, steps[..n]))
    ensures Inv(ttl, Run(ttl, steps))
    decreases |steps|
  {
    if n == |steps| {
      assert steps[..n] == steps;
    } else {
      var before := steps[..|steps| - 1];
      LastStep(ttl, steps, n, before);
      RunKeeps(ttl, before, n);
      StepKeeps(ttl, Run(ttl, before), steps[|steps| - 1]);
    }
  }

  lemma {:induction false} ReachableInv(ttl: int, steps: seq<Step>)
    requires 0 < ttl && Valid(ttl, steps) && AllDisciplined(ttl, steps, 0)
    ensures Inv(ttl, Run(ttl, steps))
  {
    assert steps[..0] == [];
    RunKeeps(ttl, steps, 0);
  }

  // ---------- When the lock is free ----------

  /** Some lock object set the key, or extended it last, and believes to hold it. */
  ghost predicate Backed(ttl: int, w: World) {
    w.key.Some? ==> exists o :: Backs(ttl, w, o)
  }

  ghost predicate Backs(ttl: int, w: World, o: nat) {
    && o in w.locks && w.locks[o].held && OwnedBy(w.key, w.locks[o].worker)
    && w.key.value.expires == w.locks[o].since + ttl
  }

  lemma BackedStep(ttl: int, w: World, step: Step)
    requires 0 < ttl && Inv(ttl, w) && Backed(ttl, w) && w.clock == step.now && w.key == Alive(w.key, step.now)
    requires Enabled(w, step) && step.reply.Received?
    ensures Backed(ttl, After(ttl, w, step))
  {
    var v := After(ttl, w, step);
    if w.key.Some? {
      var o :| Backs(ttl, w, o);
      if !step.Acquire? && step.obj in w.locks && w.locks[step.obj].held {
        OwnerMatches(w.key, w.locks[o].worker, w.locks[step.obj].worker);
        assert w.locks[step.obj].worker == w.locks[o].worker ==> SameHolder(w.locks[o], w.locks[step.obj]);
        if step.Heartbeat? && step.obj == o {
          assert v.key.value.value == w.key.value.value;
        }
      }
      assert v.key.Some? ==> Backs(ttl, v, o);
    } else if v.key.Some? {
      assert v.key.value.value == LockValue(step.worker, step.stamp);
      assert Backs(ttl, v, step.obj);
    }
  }

  lemma {:induction false} RunBacked(ttl: int, steps: seq<Step>)
    requires 0 < ttl && Valid(ttl, steps) && AllDisciplined(ttl, steps, 0)
    requires forall k :: 0 <= k < |steps| ==> steps[k].reply.Received?
    ensures Backed(ttl, Run(ttl, steps))
  {
    if steps != [] {
      var before, step := steps[..|steps| - 1], steps[|steps| - 1];
      LastStep(ttl, steps, 0, before);
      RunBacked(ttl, before);
      ReachableInv(ttl, before);
      var w := Run(ttl, before);
      var v := w.(key := Alive(w.key, step.now), clock := step.now);
      AliveKeeps(ttl, w, step.now);
      assert After(ttl, v, step) == After(ttl, w, step);
      if o :| Backs(ttl, w, o) {
        assert v.key.Some? ==> Backs(ttl, v, o);
      }
      BackedStep(ttl, v, step);
    }
  }

  /** While no reply is lost, the next request gets the lock if and only if nobody's lease is running. */
  lemma {:induction false} FreeIff(ttl: int, steps: seq<Step>, now: int)
    requires 0 < ttl && Valid(ttl, steps) && AllDisciplined(ttl, steps, 0) && Run(ttl, steps).clock <= now
    requires forall k :: 0 <= k < |steps| ==> steps[k].reply.Received?
    ensures Alive(Run(ttl, steps).key, now).None? <==>
      forall o :: o in Run(ttl, steps).locks ==> !HasLease(ttl, Run(ttl, steps).locks[o], now)
  {
    var w := Run(ttl, steps);
    ReachableInv(ttl, steps);
    RunBacked(ttl, steps);
    forall o | o in w.locks && HasLease(ttl, w.locks[o], now) ensures Alive(w.key, now).Some? {
      assert HasLease(ttl, w.locks[o], w.clock);
    }
    if Alive(w.key, now).Some? {
      var o :| Backs(ttl, w, o);
      assert HasLease(ttl, w.locks[o], now);
    }
  }

  /** Whatever is lost, and whoever dies, the lock is free once nothing has happened for longer than the TTL. */
  lemma {:induction false} FreeAfterTtl(ttl: int, steps: seq<Step>, now: int)
    requires 0 < ttl && Valid(ttl, steps) && Run(ttl, steps).clock + ttl < now
    ensures Alive(Run(ttl, steps).key, now).None?
  {
    ExpiresWithinTtl(ttl, steps);
  }

  lemma StepExpires(ttl: int, w: World, step: Step)
    requires 0 < ttl && Enabled(w, step) && (w.key.Some? ==> w.key.value.expires <= w.clock + ttl)
    ensures var v := After(ttl, w, step); v.key.Some? ==> v.key.value.expires <= v.clock + ttl
  {
  }

  lemma {:induction false} ExpiresWithinTtl(ttl: int, steps: seq<Step>)
    requires 0 < ttl && Valid(ttl, steps)
    ensures var w := Run(ttl, steps); w.key.Some? ==> w.key.value.expires <= w.clock + ttl
  {
    if steps != [] {
      var n := |steps| - 1;
      var before := steps[..n];
      assert forall k :: 0 <= k <= n ==> before[..k] == steps[..k];
      ExpiresWithinTtl(ttl, before);
      StepExpires(ttl, Run(ttl, before), steps[n]);
    }
  }

  // ---------- Main results ----------

  /**
    Mutual exclusion: at any moment `now` of any disciplined run, whatever the delays, at most one lock
    object has an unexpired lease, and the key is then alive and carries its worker's value.
   */
  lemma {:induction false} AtMostOneLease(ttl: int, steps: seq<Step>, o: nat, p: nat, now: int)
    requires 0 < ttl && Valid(ttl, steps) && AllDisciplined(ttl, steps, 0) && Run(ttl, steps).clock <= now
    requires o in Run(ttl, steps).locks && HasLease(ttl, Run(ttl, steps).locks[o], now)
    requires p in Run(ttl, steps).locks && HasLease(ttl, Run(ttl, steps).locks[p], now)
    ensures o == p
    ensures OwnedBy(Alive(Run(ttl, steps).key, now), Run(ttl, steps).locks[o].worker)
  {
    ReachableInv(ttl, steps);
    var w := Run(ttl, steps);
    OwnerMatches(w.key, w.locks[o].worker, w.locks[p].worker);
    assert SameHolder(w.locks[o], w.locks[p]);
  }

  ghost predicate WellFormed(w: World) {
    forall o :: o in w.locks ==> IsWorkerId(w.locks[o].worker)
  }

  lemma StepWellFormed(ttl: int, w: World, step: Step)
    requires WellFormed(w) && Enabled(w, step)
    ensures WellFormed(After(ttl, w, step))
  {
  }

  lemma {:induction false} WorkersWellFormed(ttl: int, steps: seq<Step>)
    requires Valid(ttl, steps)
    ensures WellFormed(Run(ttl, steps))
  {
    if steps != [] {
      var n := |steps| - 1;
      assert forall i :: 0 <= i < n ==> steps[..n][..i] == steps[..i];
      WorkersWellFormed(ttl, steps[..n]);
      StepWellFormed(ttl, Run(ttl, steps[..n]), steps[n]);
    }
  }

  /** Heartbeat and release leave a key that belongs to another worker exactly as it is. */
  lemma {:induction false} ForeignKeyUntouched(ttl: int, steps: seq<Step>, owner: string, step: Step)
    requires Valid(ttl, steps) && Enabled(Run(ttl, steps), step)
    requires !step.Acquire? && step.obj in Run(ttl, steps).locks
    requires IsWorkerId(owner) && owner != Run(ttl, steps).locks[step.obj].worker
    requires OwnedBy(Alive(Run(ttl, steps).key, step.now), owner)
    ensures After(ttl, Run(ttl, steps), step).key == Run(ttl, steps).key
  {
    WorkersWellFormed(ttl, steps);
    var w := Run(ttl, steps);
    OwnerMatches(Alive(w.key, step.now), owner, w.locks[step.obj].worker);
  }

  lemma {:induction false} Snoc(ttl: int, steps: seq<Step>, step: Step)
    requires Valid(ttl, steps) && Enabled(Run(ttl, steps), step)
    ensures Valid(ttl, steps + [step]) && Run(ttl, steps + [step]) == After(ttl, Run(ttl, steps), step)
  {
    var all := steps + [step];
    assert all[..|steps|] == steps;
    assert forall i :: 0 <= i < |steps| ==> all[..i] == steps[..i];
  }

  lemma {:induction false} TakenTwice(ttl: int, a: string, stamp: string) returns (steps: seq<Step>)
    requires 0 < ttl && IsWorkerId(a) && IsNumber(stamp)
    ensures Valid(ttl, steps)
    ensures Run(ttl, steps) == World(Some(Entry(LockValue(a, stamp), ttl + 1 + ttl)),
                                     map[0 := Lock(a, true, 0), 1 := Lock(a, true, ttl + 1)], ttl + 1)
  {
    var first, second := Acquire(0, a, stamp, Received, 0), Acquire(1, a, stamp, Received, ttl + 1);
    Snoc(ttl, [], first);
    Snoc(ttl, [] + [first], second);
    steps := [] + [first] + [second];
  }

  lemma OwnRelease(ttl: int, w: World, obj: nat, stamp: string, now: int)
    requires obj in w.locks && w.locks[obj].held && IsWorkerId(w.locks[obj].worker) && IsNumber(stamp)
    requires w.key.Some? && w.key.value.value == LockValue(w.locks[obj].worker, stamp)
    ensures After(ttl, w, Release(obj, Received, now)) == World(None, w.locks[obj := w.locks[obj].(held := false)], now)
  {
    MatchIsOwnership(w.locks[obj].worker, stamp, w.locks[obj].worker);
  }

  /** The first lock object's release deletes the key that the second one set. */
  lemma {:induction false} ReleasedForBoth(ttl: int, a: string, stamp: string) returns (steps: seq<Step>)
    requires 0 < ttl && IsWorkerId(a) && IsNumber(stamp)
    ensures Valid(ttl, steps)
    ensures var w := Run(ttl, steps);
      w.key == None && w.clock == ttl + 1 && w.locks.Keys == {0, 1} && w.locks[1] == Lock(a, true, ttl + 1)
  {
    var twice := TakenTwice(ttl, a, stamp);
    var w := Run(ttl, twice);
    OwnRelease(ttl, w, 0, stamp, w.clock);
    Snoc(ttl, twice, Release(0, Received, w.clock));
    steps := twice + [Release(0, Received, w.clock)];
  }

  /**
    The discipline is needed: when two goroutines of one process (one worker ID) each get a lock object
    for the job, the first one's release deletes the second one's key, and another process gets in.
   */
  lemma {:induction false} SharedWorkerBreaksExclusion(ttl: int, a: string, b: string, stamp: string)
      returns (steps: seq<Step>)
    requires 0 < ttl && IsWorkerId(a) && IsWorkerId(b) && a != b && IsNumber(stamp)
    ensures Valid(ttl, steps)
    ensures var w := Run(ttl, steps);
      && 1 in w.locks && w.locks[1].worker == a && HasLease(ttl, w.locks[1], w.clock)
      && 2 in w.locks && w.locks[2].worker == b && HasLease(ttl, w.locks[2], w.clock)
  {
    var released := ReleasedForBoth(ttl, a, stamp);
    var intrude := Acquire(2, b, stamp, Received, ttl + 1);
    Snoc(ttl, released, intrude);
    steps := released + [intrude];
  }

  // ---------- Exactly when a lock may be granted ----------

  ghost predicate OneLease(ttl: int, w: World) {
    forall o, p :: o in w.locks && p in w.locks ==>
      HasLease(ttl, w.locks[o], w.clock) && HasLease(ttl, w.locks[p], w.clock) ==> o == p
  }

  lemma InvOneLease(ttl: int, w: World)
    requires Inv(ttl, w)
    ensures OneLease(ttl, w)
  {
    forall o, p | o in w.locks && p in w.locks && HasLease(ttl, w.locks[o], w.clock) &&
      HasLease(ttl, w.locks[p], w.clock)
      ensures o == p
    {
      OwnerMatches(w.key, w.locks[o].worker, w.locks[p].worker);
      assert SameHolder(w.locks[o], w.locks[p]);
    }
  }

  /** The run goes on from `steps`, disciplined from there on. */
  ghost predicate Goes(ttl: int, all: seq<Step>, steps: seq<Step>) {
    |steps| <= |all| && all[..|steps|] == steps && Valid(ttl, all) && AllDisciplined(ttl, all, |steps|)
  }

  lemma {:induction false} GoOn(ttl: int, all: seq<Step>, steps: seq<Step>, step: Step) returns (more: seq<Step>)
    requires Goes(ttl, all, steps) && Enabled(Run(ttl, all), step) && Disciplined(Run(ttl, all), step)
    ensures Goes(ttl, more, steps) && Run(ttl, more) == After(ttl, Run(ttl, all), step)
  {
    more := all + [step];
    Snoc(ttl, all, step);
    assert more[..|all|] == all && more[..|steps|] == all[..|steps|];
    assert forall k :: 0 <= k <= |all| ==> more[..k] == all[..k];
  }

  /** However the run goes on, as long as it is disciplined, at most one lease is unexpired. */
  ghost predicate SafeAfter(ttl: int, steps: seq<Step>) {
    forall all :: Goes(ttl, all, steps) ==> OneLease(ttl, Run(ttl, all))
  }

  /** The old object's release deletes the new object's key, and worker `b` gets in. */
  lemma {:induction false} SecondGrantBreaks(ttl: int, granted: seq<Step>, a: string, stamp: string, b: string,
      held: nat, obj: nat)
    returns (more: seq<Step>)
    requires 0 < ttl && Goes(ttl, granted, granted) && IsWorkerId(a) && IsWorkerId(b) && a != b && IsNumber(stamp)
    requires var w := Run(ttl, granted);
      && w.key.Some? && w.key.value.value == LockValue(a, stamp) && w.clock <= w.key.value.expires
      && held != obj && held in w.locks && w.locks[held].held && w.locks[held].worker == a
      && obj in w.locks && HasLease(ttl, w.locks[obj], w.clock)
      && forall o :: o in w.locks && w.locks[o].held ==> w.locks[o].worker != b
    ensures Goes(ttl, more, granted) && !OneLease(ttl, Run(ttl, more))
  {
    var w := Run(ttl, granted);
    OwnRelease(ttl, w, held, stamp, w.clock);
    more := GoOn(ttl, granted, granted, Release(held, Received, w.clock));
    var v := Run(ttl, more);
    var next := Bound(v.locks.Keys);
    more := GoOn(ttl, more, granted, Acquire(next, b, stamp, Received, v.clock));
    var u := Run(ttl, more);
    assert HasLease(ttl, u.locks[next], u.clock) && HasLease(ttl, u.locks[obj], u.clock);
  }

  /**
    The exact condition: granting the lock is safe for every disciplined continuation if and only if the
    process has no held lock object for the job.  `b` is any other worker without a held one.
   */
  lemma {:induction false} GrantSafeIff(ttl: int, steps: seq<Step>, step: Step, granted: seq<Step>, b: string)
    requires 0 < ttl && Valid(ttl, steps) && AllDisciplined(ttl, steps, 0) && Enabled(Run(ttl, steps), step)
    requires Succeeds(Run(ttl, steps), step) && granted == steps + [step]
    requires IsWorkerId(b) && b != step.worker
    requires forall o :: o in Run(ttl, steps).locks && Run(ttl, steps).locks[o].held ==>
      Run(ttl, steps).locks[o].worker != b
    ensures SafeAfter(ttl, granted) <==> Disciplined(Run(ttl, steps), step)
  {
    Snoc(ttl, steps, step);
    assert granted[..|granted|] == granted;
    if Disciplined(Run(ttl, steps), step) {
      ReachableInv(ttl, steps);
      StepKeeps(ttl, Run(ttl, steps), step);
      forall all | Goes(ttl, all, granted) ensures OneLease(ttl, Run(ttl, all)) {
        RunKeeps(ttl, all, |granted|);
        InvOneLease(ttl, Run(ttl, all));
      }
    } else {
      var w := Run(ttl, steps);
      var held :| held in w.locks && w.locks[held].worker == step.worker && w.locks[held].held;
      var more := SecondGrantBreaks(ttl, granted, step.worker, step.stamp, b, held, step.obj);
    }
  }

  // ---------- The objects ----------

  class Redis {
    var keys: map<string, Entry>

    constructor ()
      ensures keys == map[]
    {
      keys := map[];
    }

    ghost function At(key: string): Option<Entry>
      reads this
    {
      if key in keys then Some(keys[key]) else None
    }

    method Put(key: string, entry: Option<Entry>)
      modifies this
      ensures At(key) == entry
      ensures forall k :: k != key ==> At(k) == old(At(k))
    {
      keys := if entry.Some? then keys[key := entry.value] else keys - {key};
    }

    method Get(key: string) returns (entry: Option<Entry>)
      ensures entry == At(key)
    {
      entry := if key in keys then Some(keys[key]) else None;
    }
  }

  const KEY_PREFIX := "arcana:jobs:lock:"

  class JobLock {
    const jobId: string
    const workerId: string
    const lockKey: string
    const ttl: int
    var held: bool

    constructor (jobId: string, workerId: string, ttl: int)
      ensures this.jobId == jobId && this.workerId == workerId && this.ttl == ttl
      ensures lockKey == KEY_PREFIX + jobId && held
    {
      this.jobId, this.workerId, this.ttl := jobId, workerId, ttl;
      this.lockKey := KEY_PREFIX + jobId;
      this.held := true;
    }

    /** One tick of the heartbeat goroutine. */
    method Heartbeat(redis: Redis, reply: Reply, now: int)
      modifies this, redis
      ensures var (entry, ok) :=
          Answered(old(redis.At(lockKey)), now, reply, Extend(old(redis.At(lockKey)), workerId, ttl, now));
        if old(held) then redis.At(lockKey) == entry && held == ok
        else redis.At(lockKey) == old(redis.At(lockKey)) && !held
      ensures forall k :: k != lockKey ==> redis.At(k) == old(redis.At(k))
    {
      if !held {
        return;
      }
      var current := redis.Get(lockKey);
      var (entry, ok) := Answered(current, now, reply, Extend(current, workerId, ttl, now));
      redis.Put(lockKey, entry);
      if !ok {
        held := false;
      }
    }
  }

  class LockManager {
    const redis: Redis
    const workerId: string
    const lockTTL: int
    var activeLocks: map<string, JobLock>

    constructor (redis: Redis, workerId: string, lockTTL: int)
      ensures this.redis == redis && this.workerId == workerId && this.lockTTL == lockTTL
      ensures activeLocks == map[]
    {
      this.redis, this.workerId, this.lockTTL := redis, workerId, lockTTL;
      activeLocks := map[];
    }

    method AcquireLock(jobId: string, stamp: string, reply: Reply, now: int) returns (lock: JobLock?)
      modifies this`activeLocks, redis
      ensures var before := old(redis.At(KEY_PREFIX + jobId));
        var (entry, ok) := Answered(before, now, reply, SetNX(before, LockValue(workerId, stamp), lockTTL, now));
        && redis.At(KEY_PREFIX + jobId) == entry
        && (ok <==> lock != null)
      ensures forall k :: k != KEY_PREFIX + jobId ==> redis.At(k) == old(redis.At(k))
      ensures lock != null ==>
        && fresh(lock) && lock.held && lock.jobId == jobId && lock.workerId == workerId && lock.ttl == lockTTL
        && activeLocks == old(activeLocks)[jobId := lock]
      ensures lock == null ==> activeLocks == old(activeLocks)
    {
      var lockKey := KEY_PREFIX + jobId;
      var current := redis.Get(lockKey);
      var (entry, ok) := Answered(current, now, reply, SetNX(current, LockValue(workerId, stamp), lockTTL, now));
      redis.Put(lockKey, entry);
      if !ok {
        return null;
      }
      lock := new JobLock(jobId, workerId, lockTTL);
      activeLocks := activeLocks[jobId := lock];
    }

    /** When the reply is lost the lock stays listed among the active ones. */
    method ReleaseLock(lock: JobLock?, reply: Reply, now: int)
      modifies this`activeLocks, redis, if lock == null then {} else {lock}
      ensures lock == null || !old(lock.held) ==>
        redis.keys == old(redis.keys) && activeLocks == old(activeLocks) && (lock != null ==> !lock.held)
      ensures lock != null && old(lock.held) ==>
        var before := old(redis.At(lock.lockKey));
        && !lock.held
        && redis.At(lock.lockKey) == Answered(before, now, reply, (DeleteOwn(before, workerId, now), true)).0
        && (forall k :: k != lock.lockKey ==> redis.At(k) == old(redis.At(k)))
        && activeLocks == if reply.Received? then old(activeLocks) - {lock.jobId} else old(activeLocks)
    {
      if lock == null || !lock.held {
        return;
      }
      lock.held := false;
      var current := redis.Get(lock.lockKey);
      var (entry, ok) := Answered(current, now, reply, (DeleteOwn(current, workerId, now), true));
      redis.Put(lock.lockKey, entry);
      if ok {
        activeLocks := activeLocks - {lock.jobId};
      }
    }
  }
}
