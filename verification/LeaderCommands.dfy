/**
  Leader election command by command (internal/jobs/scheduler/scheduler.go): SETNX, GET
  and EXPIRE of an attempt, GET and DEL of a release, each one step, with arbitrary
  delays between them and replies that may be lost.
 */
module LeaderCommands {
  import opened Prelude
  import Whole = LeaderElection

  /** The next command of an instance. */
  datatype Pc = Idle | ToGet | ToExpire | ToDelete

  datatype Instance = Instance(isLeader: bool, since: Option<int>, pc: Pc)

  datatype World = World(key: Option<Whole.Lease>, instances: map<nat, Instance>, clock: int)

  datatype Reply = Received | Lost(applied: bool)

  datatype Step =
    | SetNX(i: nat, reply: Reply, now: int)
    | Get(i: nat, reply: Reply, now: int)
    | Expire(i: nat, reply: Reply, now: int)
    | BeginRelease(i: nat, reply: Reply, now: int)   // GET of a release
    | Delete(i: nat, reply: Reply, now: int)

  function Initial(): World {
    World(None, map[], 0)
  }

  function Of(w: World, i: nat): Instance {
    if i in w.instances then w.instances[i] else Instance(false, None, Idle)
  }

  predicate Applied(reply: Reply) {
    reply.Received? || reply.applied
  }

  predicate OwnedBy(key: Option<Whole.Lease>, i: nat) {
    key.Some? && key.value.owner == i
  }

  /** The new key and the new state of the instance; EXPIRE and DEL do not ask whose key it is. */
  function Done(ttl: int, key: Option<Whole.Lease>, me: Instance, step: Step): (Option<Whole.Lease>, Instance) {
    var (i, now) := (step.i, step.now);
    match step
    case SetNX(_, reply, _) =>
      if key.Some? then (key, if reply.Lost? then me.(isLeader := false) else me.(pc := ToGet))
      else if Applied(reply) then (Some(Whole.Lease(i, now + ttl)), Instance(reply.Received?, Some(now), Idle))
      else (key, me.(isLeader := false))
    case Get(_, reply, _) =>
      (key, if reply.Received? && OwnedBy(key, i) then me.(pc := ToExpire) else me.(isLeader := false, pc := Idle))
    case Expire(_, reply, _) =>
      if !Applied(reply) || key.None? then (key, me.(isLeader := true, pc := Idle))
      else
        (Some(key.value.(expires := now + ttl)),
         Instance(true, if OwnedBy(key, i) then Some(now) else me.since, Idle))
    case BeginRelease(_, reply, _) =>
      if !me.isLeader then (key, me)
      else (key, if reply.Received? && OwnedBy(key, i) then me.(pc := ToDelete) else me.(isLeader := false))
    case Delete(_, reply, _) =>
      (if Applied(reply) then None else key, me.(isLeader := false, pc := Idle))
  }

  function After(ttl: int, w: World, step: Step): World {
    var (key, me) := Done(ttl, Whole.Alive(w.key, step.now), Of(w, step.i), step);
    World(key, w.instances[step.i := me], step.now)
  }

  /** Time does not go back, and an instance goes through one attempt or release at a time. */
  ghost predicate Enabled(w: World, step: Step) {
    && w.clock <= step.now
    && Of(w, step.i).pc == match step
       case SetNX(_, _, _) => Idle
       case Get(_, _, _) => ToGet
       case Expire(_, _, _) => ToExpire
       case BeginRelease(_, _, _) => Idle
       case Delete(_, _, _) => ToDelete
  }

  function Run(ttl: int, steps: seq<Step>): World {
    if steps == [] then Initial() else After(ttl, Run(ttl, steps[..|steps| - 1]), steps[|steps| - 1])
  }

  ghost predicate Valid(ttl: int, steps: seq<Step>) {
    forall i :: 0 <= i < |steps| ==> Enabled(Run(ttl, steps[..i]), steps[i])
  }

  /** The instance believes it leads, within the TTL of the last time the key was set or extended for it. */
  predicate HasLease(ttl: int, me: Instance, now: int) {
    me.isLeader && me.since.Some? && now <= me.since.value + ttl
  }

  /** The same, or it is about to believe so. */
  predicate Standing(ttl: int, me: Instance, now: int) {
    (me.isLeader || me.pc.ToExpire?) && me.since.Some? && now <= me.since.value + ttl
  }

  /** A DEL that takes effect finds no other instance standing. */
  ghost predicate Careful(ttl: int, w: World, step: Step) {
    step.Delete? && Applied(step.reply) ==>
      forall j :: j in w.instances && j != step.i ==> !Standing(ttl, w.instances[j], step.now)
  }

  ghost predicate AllCareful(ttl: int, steps: seq<Step>, n: nat) {
    forall k :: n <= k < |steps| ==> Careful(ttl, Run(ttl, steps[..k]), steps[k])
  }

  ghost predicate Inv(ttl: int, w: World) {
    && (forall i :: i in w.instances && w.instances[i].since.Some? ==> w.instances[i].since.value <= w.clock)
    && (w.key.Some? ==>
          && w.key.value.owner in w.instances && w.instances[w.key.value.owner].since.Some?
          && w.key.value.expires >= w.instances[w.key.value.owner].since.value + ttl)
    && (forall i :: i in w.instances && Standing(ttl, w.instances[i], w.clock) ==> OwnedBy(w.key, i))
  }

  /** Time passes. */
  lemma AliveKeeps(ttl: int, w: World, now: int)
    requires Inv(ttl, w) && w.clock <= now
    ensures Inv(ttl, w.(key := Whole.Alive(w.key, now), clock := now))
  {
    var v := w.(key := Whole.Alive(w.key, now), clock := now);
    forall i | i in v.instances && Standing(ttl, v.instances[i], v.clock) ensures OwnedBy(v.key, i) {
      assert Standing(ttl, w.instances[i], w.clock);
    }
  }

  lemma NowKeeps(ttl: int, w: World, step: Step)
    requires 0 < ttl && Inv(ttl, w) && w.clock == step.now && w.key == Whole.Alive(w.key, step.now)
    requires Enabled(w, step) && Careful(ttl, w, step)
    ensures Inv(ttl, After(ttl, w, step))
  {
  }

  lemma StepKeeps(ttl: int, w: World, step: Step)
    requires 0 < ttl && Inv(ttl, w) && Enabled(w, step) && Careful(ttl, w, step)
    ensures Inv(ttl, After(ttl, w, step))
  {
    var v := w.(key := Whole.Alive(w.key, step.now), clock := step.now);
    AliveKeeps(ttl, w, step.now);
    assert After(ttl, v, step) == After(ttl, w, step);
    NowKeeps(ttl, v, step);
  }

  lemma {:induction false} LastStep(ttl: int, steps: seq<Step>, n: nat, before: seq<Step>)
    requires Valid(ttl, steps) && AllCareful(ttl, steps, n) && n < |steps| && before == steps[..|steps| - 1]
    ensures Valid(ttl, before) && AllCareful(ttl, before, n) && before[..n] == steps[..n]
    ensures var last := steps[|steps| - 1];
      && Enabled(Run(ttl, before), last) && Careful(ttl, Run(ttl, before), last)
      && Run(ttl, steps) == After(ttl, Run(ttl, before), last)
  {
    assert forall k :: 0 <= k <= |before| ==> before[..k] == steps[..k];
  }

  /** The invariant holds at the end if it holds after `n` steps and DELs are careful from then on. */
  lemma {:induction false} RunKeeps(ttl: int, steps: seq<Step>, n: nat)
    requires 0 < ttl && Valid(ttl, steps) && AllCareful(ttl, steps, n) && n <= |steps| && Inv(ttl, Run(ttl, steps[..n]))
    ensures Inv(ttl, Run(ttl, steps))
    decreases |steps|
  {
    if n == |steps| {
      assert steps[..n] == steps;
    } else {
      var before := steps[..|steps| - 1];
      LastStep(ttl, steps, n, before);
      RunKeeps(ttl, before, n);
      StepKeeps(ttl, Run(ttl, before), steps[|steps| - 1]);
    }
  }

  ghost predicate OneLease(ttl: int, w: World) {
    forall i, j :: i in w.instances && j in w.instances ==>
      HasLease(ttl, w.instances[i], w.clock) && HasLease(ttl, w.instances[j], w.clock) ==> i == j
  }

  /** However attempts and releases of any number of instances interleave, careful DELs keep the lease exclusive. */
  lemma {:induction false} AtMostOneLease(ttl: int, steps: seq<Step>)
    requires 0 < ttl && Valid(ttl, steps) && AllCareful(ttl, steps, 0)
    ensures OneLease(ttl, Run(ttl, steps))
    ensures var w := Run(ttl, steps);
      forall i :: i in w.instances && HasLease(ttl, w.instances[i], w.clock) ==> OwnedBy(w.key, i)
  {
    assert steps[..0] == [];
    RunKeeps(ttl, steps, 0);
  }

  lemma StandingOwns(ttl: int, w: World, now: int)
    requires Inv(ttl, w) && w.clock <= now
    ensures forall j :: j in w.instances && Standing(ttl, w.instances[j], now) ==> OwnedBy(w.key, j)
  {
    assert forall j :: j in w.instances && Standing(ttl, w.instances[j], now) ==>
      Standing(ttl, w.instances[j], w.clock);
  }

  /** A DEL issued within the TTL of its own instance's last SET or EXPIRE is careful. */
  lemma {:induction false} TimelyDeleteIsCareful(ttl: int, steps: seq<Step>, step: Step)
    requires 0 < ttl && Valid(ttl, steps) && AllCareful(ttl, steps, 0) && step.Delete? && Enabled(Run(ttl, steps), step)
    requires HasLease(ttl, Of(Run(ttl, steps), step.i), step.now)
    ensures Careful(ttl, Run(ttl, steps), step)
  {
    assert steps[..0] == [];
    RunKeeps(ttl, steps, 0);
    StandingOwns(ttl, Run(ttl, steps), step.now);
  }

  // ---------- A careless DEL ----------

  /** The run goes on from `steps` with careful DELs only. */
  ghost predicate Goes(ttl: int, all: seq<Step>, steps: seq<Step>) {
    |steps| <= |all| && all[..|steps|] == steps && Valid(ttl, all) && AllCareful(ttl, all, |steps|)
  }

  lemma {:induction false} GoOn(ttl: int, all: seq<Step>, steps: seq<Step>, step: Step) returns (more: seq<Step>)
    requires Goes(ttl, all, steps) && Enabled(Run(ttl, all), step) && !step.Delete?
    ensures Goes(ttl, more, steps) && Run(ttl, more) == After(ttl, Run(ttl, all), step)
  {
    more := all + [step];
    assert more[..|all|] == all && more[..|steps|] == all[..|steps|];
    assert forall k :: 0 <= k <= |all| ==> more[..k] == all[..k];
  }

  ghost predicate SafeAfter(ttl: int, steps: seq<Step>) {
    forall all :: Goes(ttl, all, steps) ==> OneLease(ttl, Run(ttl, all))
  }

  /** A standing instance without the flag takes it up although the key is no longer its own. */
  lemma {:induction false} StandsUp(ttl: int, all: seq<Step>, steps: seq<Step>, j: nat, k: nat)
      returns (more: seq<Step>)
    requires Goes(ttl, all, steps) && j != k
    requires var w := Run(ttl, all);
      && j in w.instances && Standing(ttl, w.instances[j], w.clock)
      && k in w.instances && HasLease(ttl, w.instances[k], w.clock)
    ensures Goes(ttl, more, steps) && !OneLease(ttl, Run(ttl, more))
  {
    var w := Run(ttl, all);
    if w.instances[j].isLeader {
      more := all;
    } else {
      more := GoOn(ttl, all, steps, Expire(j, Lost(false), w.clock));
      assert HasLease(ttl, Run(ttl, more).instances[j], w.clock) && HasLease(ttl, Run(ttl, more).instances[k], w.clock);
    }
  }

  lemma {:induction false} CarelessBreaks(ttl: int, steps: seq<Step>, step: Step, deleted: seq<Step>, j: nat)
      returns (more: seq<Step>)
    requires 0 < ttl && Valid(ttl, steps) && Enabled(Run(ttl, steps), step) && step.Delete? && Applied(step.reply)
    requires deleted == steps + [step]
    requires j in Run(ttl, steps).instances && j != step.i && Standing(ttl, Run(ttl, steps).instances[j], step.now)
    ensures Goes(ttl, more, deleted) && !OneLease(ttl, Run(ttl, more))
  {
    assert deleted[..|steps|] == steps && deleted[..|deleted|] == deleted;
    assert forall k :: 0 <= k <= |steps| ==> deleted[..k] == steps[..k];
    var w := Run(ttl, deleted);
    var k := Bound(w.instances.Keys);
    more := GoOn(ttl, deleted, deleted, SetNX(k, Received, w.clock));
    more := StandsUp(ttl, more, deleted, j, k);
  }

  /**
    The exact condition: a DEL that takes effect is safe for every continuation if and only if no other
    instance is standing.  Otherwise it removed the key of a leader that goes on believing it leads.
   */
  lemma {:induction false} DeleteSafeIff(ttl: int, steps: seq<Step>, step: Step, deleted: seq<Step>)
    requires 0 < ttl && Valid(ttl, steps) && AllCareful(ttl, steps, 0) && Enabled(Run(ttl, steps), step)
    requires step.Delete? && Applied(step.reply) && deleted == steps + [step]
    ensures SafeAfter(ttl, deleted) <==> Careful(ttl, Run(ttl, steps), step)
  {
    if Careful(ttl, Run(ttl, steps), step) {
      assert steps[..0] == [];
      RunKeeps(ttl, steps, 0);
      assert deleted[..|steps|] == steps;
      StepKeeps(ttl, Run(ttl, steps), step);
      forall all | Goes(ttl, all, deleted) ensures OneLease(ttl, Run(ttl, all)) {
        RunKeeps(ttl, all, |deleted|);
      }
    } else {
      var j :| j in Run(ttl, steps).instances && j != step.i && Standing(ttl, Run(ttl, steps).instances[j], step.now);
      var more := CarelessBreaks(ttl, steps, step, deleted, j);
    }
  }

  // ---------- A late EXPIRE ----------

  lemma {:induction false} Snoc(ttl: int, steps: seq<Step>, step: Step)
    requires Valid(ttl, steps) && Enabled(Run(ttl, steps), step)
    ensures Valid(ttl, steps + [step]) && Run(ttl, steps + [step]) == After(ttl, Run(ttl, steps), step)
  {
    var all := steps + [step];
    assert all[..|steps|] == steps;
    assert forall i :: 0 <= i < |steps| ==> all[..i] == steps[..i];
  }

  /** Instance 0 has seen its own key at the last moment and is about to extend it. */
  lemma {:induction false} LastMoment(ttl: int) returns (steps: seq<Step>)
    requires 0 < ttl
    ensures Valid(ttl, steps) && forall k :: 0 <= k < |steps| ==> !steps[k].Delete?
    ensures Run(ttl, steps) == World(Some(Whole.Lease(0, ttl)), map[0 := Instance(true, Some(0), ToExpire)], ttl)
  {
    var first, again, get := SetNX(0, Received, 0), SetNX(0, Received, ttl), Get(0, Received, ttl);
    Snoc(ttl, [], first);
    Snoc(ttl, [] + [first], again);
    Snoc(ttl, [] + [first] + [again], get);
    steps := [] + [first] + [again] + [get];
  }

  lemma LateExpire(ttl: int, w: World, other: Step, late: Step)
    requires 0 < ttl && w == World(Some(Whole.Lease(0, ttl)), map[0 := Instance(true, Some(0), ToExpire)], ttl)
    requires other == SetNX(1, Received, ttl + 1) && late == Expire(0, Received, ttl + 1)
    ensures Enabled(w, other) && Enabled(After(ttl, w, other), late)
    ensures var t := After(ttl, After(ttl, w, other), late);
      0 in t.instances && t.instances[0].isLeader && 1 in t.instances && t.instances[1].isLeader && OwnedBy(t.key, 1)
  {
  }

  /**
    An attempt is not one step: its EXPIRE can come after the key has expired and passed to another
    instance.  It then extends that instance's key, and both flags are set.  The lease of the first has
    run out, so AtMostOneLease is not affected.
   */
  lemma {:induction false} LateExpireTwoFlags(ttl: int) returns (steps: seq<Step>)
    requires 0 < ttl
    ensures Valid(ttl, steps) && AllCareful(ttl, steps, 0)
    ensures var w := Run(ttl, steps);
      0 in w.instances && w.instances[0].isLeader && 1 in w.instances && w.instances[1].isLeader
    ensures OwnedBy(Run(ttl, steps).key, 1)
  {
    var before := LastMoment(ttl);
    var other, late := SetNX(1, Received, ttl + 1), Expire(0, Received, ttl + 1);
    LateExpire(ttl, Run(ttl, before), other, late);
    Snoc(ttl, before, other);
    Snoc(ttl, before + [other], late);
    steps := before + [other] + [late];
    assert forall k :: 0 <= k < |steps| ==> !steps[k].Delete?;
  }

  /** An EXPIRE issued within the TTL of its own instance's last SET or EXPIRE extends that instance's own key. */
  lemma {:induction false} TimelyExpireRenews(ttl: int, steps: seq<Step>, step: Step)
    requires 0 < ttl && Valid(ttl, steps) && AllCareful(ttl, steps, 0) && Enabled(Run(ttl, steps), step)
    requires step.Expire? && Applied(step.reply) && Standing(ttl, Of(Run(ttl, steps), step.i), step.now)
    ensures After(ttl, Run(ttl, steps), step).key == Some(Whole.Lease(step.i, step.now + ttl))
    ensures HasLease(ttl, After(ttl, Run(ttl, steps), step).instances[step.i], step.now)
  {
    assert steps[..0] == [];
    RunKeeps(ttl, steps, 0);
    StandingOwns(ttl, Run(ttl, steps), step.now);
  }

  // ---------- An attempt that nothing interrupts ----------

  function Uninterrupted(ttl: int, w: World, i: nat, onSet: Reply, onGet: Reply, onExpire: Reply, now: int): World {
    var w1 := After(ttl, w, SetNX(i, onSet, now));
    if Of(w1, i).pc != ToGet then w1
    else
      var w2 := After(ttl, w1, Get(i, onGet, now));
      if Of(w2, i).pc != ToExpire then w2 else After(ttl, w2, Expire(i, onExpire, now))
  }

  function FaultOf(onSet: Reply, onGet: Reply, onExpire: Reply): Whole.Fault {
    if onSet.Lost? then Whole.SetFails(onSet.applied)
    else if onGet.Lost? then Whole.GetFails
    else if onExpire.Lost? then Whole.ExpireFails(onExpire.applied)
    else Whole.NoFault
  }

  /** The three commands at one instant are the attempt as a whole. */
  lemma AttemptIsWhole(ttl: int, w: World, i: nat, onSet: Reply, onGet: Reply, onExpire: Reply, now: int)
    requires Of(w, i).pc == Idle
    ensures var (t, me) := (Uninterrupted(ttl, w, i, onSet, onGet, onExpire, now), Of(w, i));
      && (t.key, Whole.Instance(Of(t, i).isLeader, Of(t, i).since)) ==
         Whole.Attempted(ttl, w.key, Whole.Instance(me.isLeader, me.since), i, FaultOf(onSet, onGet, onExpire), now)
      && Of(t, i).pc == Idle
  {
  }
}
