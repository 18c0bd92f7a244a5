/**
  Leader election of the cron scheduler (internal/jobs/scheduler/scheduler.go).
  Each attempt and each release is one step; replies may be lost, with or without
  the command having taken effect.
 */
module LeaderElection {
  import opened Prelude

  datatype Lease = Lease(owner: nat, expires: int)

  /** One scheduler process: `since` is when the key was last set or extended for it, if ever (history). */
  datatype Instance = Instance(isLeader: bool, since: Option<int>)

  datatype World = World(key: Option<Lease>, instances: map<nat, Instance>, clock: int)

  /** Which command of the step fails; `applied` says whether Redis had carried it out. */
  datatype Fault = NoFault | SetFails(applied: bool) | GetFails | ExpireFails(applied: bool) | DelFails(applied: bool)

  datatype Step = Attempt(i: nat, fault: Fault, now: int) | Resign(i: nat, fault: Fault, now: int)

  function Initial(): World {
    World(None, map[], 0)
  }

  function Alive(key: Option<Lease>, now: int): Option<Lease> {
    if key.Some? && now > key.value.expires then None else key
  }

  function Of(w: World, i: nat): Instance {
    if i in w.instances then w.instances[i] else Instance(false, None)
  }

  /** tryAcquireLeadership: the new key and the new state of the instance. */
  function Attempted(ttl: int, k: Option<Lease>, me: Instance, i: nat, fault: Fault, now: int):
      (Option<Lease>, Instance) {
    var key := Alive(k, now);
    if fault.SetFails? then
      if fault.applied && key.None? then (Some(Lease(i, now + ttl)), Instance(false, Some(now)))
      else (key, me.(isLeader := false))
    else if key.None? then (Some(Lease(i, now + ttl)), Instance(true, Some(now)))
    else if fault.GetFails? || key.value.owner != i then (key, me.(isLeader := false))
    else if fault.ExpireFails? && !fault.applied then (key, me.(isLeader := true))
    else (Some(Lease(i, now + ttl)), Instance(true, Some(now)))
  }

  /** releaseLeadership. */
  function Resigned(k: Option<Lease>, me: Instance, i: nat, fault: Fault, now: int): (Option<Lease>, Instance) {
    var key := Alive(k, now);
    if !me.isLeader then (key, me)
    else if fault.GetFails? || key.None? || key.value.owner != i || (fault.DelFails? && !fault.applied) then
      (key, me.(isLeader := false))
    else (None, me.(isLeader := false))
  }

  function After(ttl: int, w: World, step: Step): World {
    var (key, me) := match step
      case Attempt(i, fault, now) => Attempted(ttl, w.key, Of(w, i), i, fault, now)
      case Resign(i, fault, now) => Resigned(w.key, Of(w, i), i, fault, now);
    World(key, w.instances[step.i := me], step.now)
  }

  function Run(ttl: int, steps: seq<Step>): World {
    if steps == [] then Initial() else After(ttl, Run(ttl, steps[..|steps| - 1]), steps[|steps| - 1])
  }

  /** Delays are arbitrary, but time does not go back. */
  ghost predicate Clocked(ttl: int, steps: seq<Step>) {
    forall i :: 0 <= i < |steps| ==> Run(ttl, steps[..i]).clock <= steps[i].now
  }

  predicate HasLease(ttl: int, me: Instance, now: int) {
    me.isLeader && me.since.Some? && now <= me.since.value + ttl
  }

  ghost predicate Inv(ttl: int, w: World) {
    && (w.key.Some? ==>
          && w.key.value.owner in w.instances && w.instances[w.key.value.owner].since.Some?
          && w.key.value.expires == w.instances[w.key.value.owner].since.value + ttl)
    && (forall i :: i in w.instances && w.instances[i].isLeader ==> w.instances[i].since.Some?)
    && (forall i :: i in w.instances && HasLease(ttl, w.instances[i], w.clock) ==>
          w.key.Some? && w.key.value.owner == i)
  }

  lemma StepKeeps(ttl: int, w: World, step: Step)
    requires 0 < ttl && Inv(ttl, w) && w.clock <= step.now
    ensures Inv(ttl, After(ttl, w, step))
  {
    var v := After(ttl, w, step);
    forall i | i in w.instances && i != step.i && HasLease(ttl, w.instances[i], step.now)
      ensures v.key.Some? && v.key.value.owner == i
    {
      assert HasLease(ttl, w.instances[i], w.clock);
    }
  }

  lemma {:induction false} RunKeeps(ttl: int, steps: seq<Step>)
    requires 0 < ttl && Clocked(ttl, steps)
    ensures Inv(ttl, Run(ttl, steps))
  {
    if steps != [] {
      var n := |steps| - 1;
      assert forall i :: 0 <= i < n ==> steps[..n][..i] == steps[..i];
      RunKeeps(ttl, steps[..n]);
      StepKeeps(ttl, Run(ttl, steps[..n]), steps[n]);
    }
  }

  /**
    At any moment `now` of any run, at most one instance has its flag set within LeaderLockTTL of its
    last acquisition or renewal, and the leader key is then alive and stores its ID.
   */
  lemma {:induction false} AtMostOneLease(ttl: int, steps: seq<Step>, i: nat, j: nat, now: int)
    requires 0 < ttl && Clocked(ttl, steps) && Run(ttl, steps).clock <= now
    requires i in Run(ttl, steps).instances && HasLease(ttl, Run(ttl, steps).instances[i], now)
    requires j in Run(ttl, steps).instances && HasLease(ttl, Run(ttl, steps).instances[j], now)
    ensures i == j
    ensures var key := Alive(Run(ttl, steps).key, now); key.Some? && key.value.owner == i
  {
    RunKeeps(ttl, steps);
  }

  predicate Flagged(w: World, i: nat) {
    i in w.instances && w.instances[i].isLeader
  }

  /**
    A leader whose lease is running gives the flag up, and another instance can become leader at that very
    moment if and only if the release got through to Redis.
   */
  lemma {:induction false} HandsOverIff(ttl: int, steps: seq<Step>, i: nat, j: nat, fault: Fault, now: int)
    requires 0 < ttl && Clocked(ttl, steps) && Run(ttl, steps).clock <= now && i != j
    requires HasLease(ttl, Of(Run(ttl, steps), i), now)
    ensures var released := After(ttl, Run(ttl, steps), Resign(i, fault, now));
      && !Flagged(released, i)
      && (Flagged(After(ttl, released, Attempt(j, NoFault, now)), j) <==>
            !fault.GetFails? && !(fault.DelFails? && !fault.applied))
  {
    RunKeeps(ttl, steps);
    assert HasLease(ttl, Run(ttl, steps).instances[i], Run(ttl, steps).clock);
  }

  /**
    The exact moment from which leadership is no longer protected: some other instance can get the flag
    beside a flagged one at time `now` if and only if the flagged one's last applied SET or EXPIRE is
    more than LeaderLockTTL ago.
   */
  lemma {:induction false} SecondFlagIff(ttl: int, steps: seq<Step>, i: nat, now: int)
    requires 0 < ttl && Clocked(ttl, steps) && Run(ttl, steps).clock <= now && Flagged(Run(ttl, steps), i)
    ensures Of(Run(ttl, steps), i).since.Some?
    ensures (exists j :: j != i && Flagged(After(ttl, Run(ttl, steps), Attempt(j, NoFault, now)), j)) <==>
            now > Of(Run(ttl, steps), i).since.value + ttl
  {
    RunKeeps(ttl, steps);
    var w := Run(ttl, steps);
    var key := Alive(w.key, now);
    if now > w.instances[i].since.value + ttl {
      var j := if key.Some? then key.value.owner else i + 1;
      assert j != i && Flagged(After(ttl, w, Attempt(j, NoFault, now)), j);
    } else {
      forall j | j != i ensures !Flagged(After(ttl, w, Attempt(j, NoFault, now)), j) {
        assert HasLease(ttl, w.instances[i], w.clock);
      }
    }
  }

  // ---------- The objects ----------

  class LeaderKey {
    var key: Option<Lease>

    constructor ()
      ensures key == None
    {
      key := None;
    }
  }

  class Scheduler {
    const redis: LeaderKey
    const instanceId: nat
    const leaderLockTTL: int
    var isLeader: bool
    /** When the key was last set or extended for this instance. */
    ghost var since: Option<int>

    ghost function View(): Instance
      reads this
    {
      Instance(isLeader, since)
    }

    constructor (redis: LeaderKey, instanceId: nat, ttl: int)
      ensures this.redis == redis && this.instanceId == instanceId && leaderLockTTL == ttl
      ensures View() == Instance(false, None)
    {
      this.redis, this.instanceId, leaderLockTTL := redis, instanceId, ttl;
      isLeader, since := false, None;
    }

    method TryAcquireLeadership(fault: Fault, now: int)
      modifies this, redis
      ensures (redis.key, View()) ==
              Attempted(leaderLockTTL, old(redis.key), old(View()), instanceId, fault, now)
    {
      // SETNX
      var current := Alive(redis.key, now);
      redis.key := current;
      if current.None? && (!fault.SetFails? || fault.applied) {
        redis.key := Some(Lease(instanceId, now + leaderLockTTL));
        since := Some(now);
      }
      if fault.SetFails? {
        isLeader := false;
        return;
      }
      if current.None? {
        isLeader := true;
        return;
      }
      // GET
      if fault.GetFails? {
        isLeader := false;
        return;
      }
      if current.value.owner == instanceId {
        // EXPIRE, whose reply is ignored
        if !fault.ExpireFails? || fault.applied {
          redis.key := Some(Lease(instanceId, now + leaderLockTTL));
          since := Some(now);
        }
        isLeader := true;
      } else {
        isLeader := false;
      }
    }

    method ReleaseLeadership(fault: Fault, now: int)
      modifies this, redis
      ensures (redis.key, View()) == Resigned(old(redis.key), old(View()), instanceId, fault, now)
    {
      redis.key := Alive(redis.key, now);
      if !isLeader {
        return;
      }
      if !fault.GetFails? && redis.key.Some? && redis.key.value.owner == instanceId {
        if !fault.DelFails? || fault.applied {
          redis.key := None;
        }
      }
      isLeader := false;
    }
  }
}
