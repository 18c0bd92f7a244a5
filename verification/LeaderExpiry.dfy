/**
  EXPIREs of the leader key that come too late (internal/jobs/scheduler/scheduler.go):
  exactly when an EXPIRE renews its own instance's key, and exactly when it leaves
  room for a second leader.
 */
module LeaderExpiry {
  import opened Prelude
  import Whole = LeaderElection
  import opened LeaderCommands

  /** An EXPIRE is issued within the TTL of its own instance's last applied SET or EXPIRE. */
  ghost predicate Timely(ttl: int, w: World, step: Step) {
    step.Expire? ==> Standing(ttl, Of(w, step.i), step.now)
  }

  /** From the n-th step on, DELs are careful and EXPIREs are timely. */
  ghost predicate Orderly(ttl: int, steps: seq<Step>, n: nat) {
    AllCareful(ttl, steps, n) && forall k :: n <= k < |steps| ==> Timely(ttl, Run(ttl, steps[..k]), steps[k])
  }

  /** The key lives exactly one TTL from its owner's last SET or EXPIRE. */
  ghost predicate Exact(ttl: int, w: World) {
    && Inv(ttl, w)
    && (w.key.Some? ==> w.key.value.expires == w.instances[w.key.value.owner].since.value + ttl)
    && (forall i :: i in w.instances && w.instances[i].pc.ToExpire? ==> w.instances[i].since.Some?)
  }

  lemma AliveExact(ttl: int, w: World, now: int)
    requires Exact(ttl, w) && w.clock <= now
    ensures Exact(ttl, w.(key := Whole.Alive(w.key, now), clock := now))
  {
    AliveKeeps(ttl, w, now);
  }

  lemma NowExact(ttl: int, w: World, step: Step)
    requires 0 < ttl && Exact(ttl, w) && w.clock == step.now && w.key == Whole.Alive(w.key, step.now)
    requires Enabled(w, step) && Careful(ttl, w, step) && Timely(ttl, w, step)
    ensures Exact(ttl, After(ttl, w, step))
  {
    NowKeeps(ttl, w, step);
  }

  lemma StepExact(ttl: int, w: World, step: Step)
    requires 0 < ttl && Exact(ttl, w) && Enabled(w, step) && Careful(ttl, w, step) && Timely(ttl, w, step)
    ensures Exact(ttl, After(ttl, w, step))
  {
    var v := w.(key := Whole.Alive(w.key, step.now), clock := step.now);
    AliveExact(ttl, w, step.now);
    assert After(ttl, v, step) == After(ttl, w, step);
    NowExact(ttl, v, step);
  }

  lemma {:induction false} RunExact(ttl: int, steps: seq<Step>)
    requires 0 < ttl && Valid(ttl, steps) && Orderly(ttl, steps, 0)
    ensures Exact(ttl, Run(ttl, steps))
  {
    if steps != [] {
      var n := |steps| - 1;
      var before := steps[..n];
      LastStep(ttl, steps, 0, before);
      assert forall k :: 0 <= k < n ==> before[..k] == steps[..k];
      RunExact(ttl, before);
      StepExact(ttl, Run(ttl, before), steps[n]);
    }
  }

  /**
    After orderly runs, an EXPIRE that takes effect leaves the key its own instance's, with a full TTL, if
    and only if it is timely.
   */
  lemma {:induction false} ExpireRenewsIff(ttl: int, steps: seq<Step>, step: Step)
    requires 0 < ttl && Valid(ttl, steps) && Orderly(ttl, steps, 0) && Enabled(Run(ttl, steps), step)
    requires step.Expire? && Applied(step.reply)
    ensures After(ttl, Run(ttl, steps), step).key == Some(Whole.Lease(step.i, step.now + ttl)) <==>
            Standing(ttl, Of(Run(ttl, steps), step.i), step.now)
  {
    RunExact(ttl, steps);
    StandingOwns(ttl, Run(ttl, steps), step.now);
  }

  // ---------- A second leader ----------

  /** The run goes on from `steps`, with orderly commands of instances other than `i`, all at the same instant. */
  ghost predicate Rivals(ttl: int, all: seq<Step>, steps: seq<Step>, i: nat) {
    && |steps| <= |all| && all[..|steps|] == steps && Valid(ttl, all) && Orderly(ttl, all, |steps|)
    && forall k :: |steps| <= k < |all| ==> all[k].i != i && all[k].now == Run(ttl, steps).clock
  }

  /** The last command ends an attempt, and its instance has the flag. */
  ghost predicate Wins(ttl: int, steps: seq<Step>) {
    && steps != []
    && var last := steps[|steps| - 1];
       (last.SetNX? || last.Expire?) && Of(Run(ttl, steps), last.i).isLeader && Of(Run(ttl, steps), last.i).pc.Idle?
  }

  /** Some rival gets the flag at this very instant. */
  ghost predicate RivalWins(ttl: int, steps: seq<Step>, i: nat) {
    exists all :: |all| > |steps| && Rivals(ttl, all, steps, i) && Wins(ttl, all)
  }

  /** The key is in the hands of instance `i`, which is standing. */
  ghost predicate Secure(ttl: int, w: World, i: nat, now: int) {
    && Inv(ttl, w) && w.clock == now && w.key.Some? && w.key.value.owner == i && now <= w.key.value.expires
    && i in w.instances && Standing(ttl, w.instances[i], now)
  }

  /** A rival's command changes neither, and does not give it the flag. */
  lemma SecureStays(ttl: int, w: World, i: nat, step: Step)
    requires 0 < ttl && Secure(ttl, w, i, step.now) && Enabled(w, step) && Careful(ttl, w, step) && Timely(ttl, w, step)
    requires step.i != i
    ensures Secure(ttl, After(ttl, w, step), i, step.now)
    ensures var me := Of(After(ttl, w, step), step.i); !((step.SetNX? || step.Expire?) && me.isLeader && me.pc.Idle?)
  {
    StepKeeps(ttl, w, step);
  }

  lemma {:induction false} LastRival(ttl: int, all: seq<Step>, steps: seq<Step>, i: nat, before: seq<Step>)
    requires Rivals(ttl, all, steps, i) && |all| > |steps| && before == all[..|all| - 1]
    ensures Rivals(ttl, before, steps, i)
    ensures var last := all[|all| - 1];
      && Enabled(Run(ttl, before), last) && Careful(ttl, Run(ttl, before), last) && Timely(ttl, Run(ttl, before), last)
      && last.i != i && last.now == Run(ttl, steps).clock && Run(ttl, all) == After(ttl, Run(ttl, before), last)
  {
    LastStep(ttl, all, |steps|, before);
    assert forall k :: 0 <= k <= |before| ==> before[..k] == all[..k];
  }

  lemma {:induction false} NoRivalWins(ttl: int, all: seq<Step>, steps: seq<Step>, i: nat)
    requires 0 < ttl && Rivals(ttl, all, steps, i) && Secure(ttl, Run(ttl, steps), i, Run(ttl, steps).clock)
    ensures Secure(ttl, Run(ttl, all), i, Run(ttl, steps).clock)
    ensures |all| > |steps| ==> !Wins(ttl, all)
    decreases |all|
  {
    if |all| == |steps| {
      assert all[..|steps|] == all;
    } else {
      var before := all[..|all| - 1];
      LastRival(ttl, all, steps, i, before);
      NoRivalWins(ttl, before, steps, i);
      SecureStays(ttl, Run(ttl, before), i, all[|all| - 1]);
    }
  }

  lemma {:induction false} OrderlySnoc(ttl: int, all: seq<Step>, n: nat, step: Step, more: seq<Step>)
    requires Orderly(ttl, all, n) && n <= |all| && more == all + [step]
    requires Careful(ttl, Run(ttl, all), step) && Timely(ttl, Run(ttl, all), step)
    ensures Orderly(ttl, more, n)
  {
    forall k | n <= k < |more|
      ensures Careful(ttl, Run(ttl, more[..k]), more[k]) && Timely(ttl, Run(ttl, more[..k]), more[k])
    {
      assert more[..k] == all[..k];
      assert k == |all| ==> all[..k] == all;
    }
  }

  lemma {:induction false} Rival(ttl: int, all: seq<Step>, steps: seq<Step>, i: nat, step: Step)
      returns (more: seq<Step>)
    requires Rivals(ttl, all, steps, i) && Enabled(Run(ttl, all), step)
    requires Careful(ttl, Run(ttl, all), step) && Timely(ttl, Run(ttl, all), step)
    requires step.i != i && step.now == Run(ttl, steps).clock
    ensures more == all + [step] && Rivals(ttl, more, steps, i) && Run(ttl, more) == After(ttl, Run(ttl, all), step)
  {
    more := all + [step];
    Snoc(ttl, all, step);
    OrderlySnoc(ttl, all, |steps|, step, more);
    assert more[..|steps|] == all[..|steps|];
  }

  /** The key is free: anybody new takes it. */
  lemma {:induction false} FreeKeyTaken(ttl: int, all: seq<Step>, steps: seq<Step>, i: nat) returns (more: seq<Step>)
    requires Rivals(ttl, all, steps, i) && Run(ttl, all).key.None? && Run(ttl, all).clock == Run(ttl, steps).clock
    ensures |more| > |all| && Rivals(ttl, more, steps, i) && Wins(ttl, more)
  {
    var w := Run(ttl, all);
    var j := Bound(w.instances.Keys + {i});
    assert i in w.instances.Keys + {i};
    more := Rival(ttl, all, steps, i, SetNX(j, Received, w.clock));
  }

  /** The key's owner `k` at some point of an attempt or release, with its lease running. */
  ghost predicate Owner(ttl: int, w: World, k: nat, now: int) {
    && Inv(ttl, w) && w.clock == now && w.key.Some? && w.key.value.owner == k && now <= w.key.value.expires
    && k in w.instances && w.instances[k].since.Some? && now <= w.instances[k].since.value + ttl
  }

  lemma OwnerRenewed(ttl: int, w: World, expire: Step)
    requires Owner(ttl, w, expire.i, expire.now) && w.instances[expire.i].pc.ToExpire? && expire.Expire?
    ensures Enabled(w, expire) && Careful(ttl, w, expire) && Timely(ttl, w, expire)
    ensures var me := Of(After(ttl, w, expire), expire.i); me.isLeader && me.pc.Idle?
  {
  }

  lemma {:induction false} OwnerExpires(ttl: int, all: seq<Step>, steps: seq<Step>, i: nat, k: nat)
      returns (more: seq<Step>)
    requires Rivals(ttl, all, steps, i) && k != i && Owner(ttl, Run(ttl, all), k, Run(ttl, steps).clock)
    requires Run(ttl, all).instances[k].pc.ToExpire?
    ensures |more| > |all| && Rivals(ttl, more, steps, i) && Wins(ttl, more)
  {
    var expire := Expire(k, Received, Run(ttl, steps).clock);
    OwnerRenewed(ttl, Run(ttl, all), expire);
    more := Rival(ttl, all, steps, i, expire);
  }

  lemma {:induction false} OwnerGets(ttl: int, all: seq<Step>, steps: seq<Step>, i: nat, k: nat)
      returns (more: seq<Step>)
    requires 0 < ttl && Rivals(ttl, all, steps, i) && k != i && Owner(ttl, Run(ttl, all), k, Run(ttl, steps).clock)
    requires Run(ttl, all).instances[k].pc.ToGet?
    ensures |more| > |all| && Rivals(ttl, more, steps, i) && Wins(ttl, more)
  {
    var get := Get(k, Received, Run(ttl, steps).clock);
    StepKeeps(ttl, Run(ttl, all), get);
    more := Rival(ttl, all, steps, i, get);
    more := OwnerExpires(ttl, more, steps, i, k);
  }

  lemma {:induction false} OwnerAttempts(ttl: int, all: seq<Step>, steps: seq<Step>, i: nat, k: nat)
      returns (more: seq<Step>)
    requires 0 < ttl && Rivals(ttl, all, steps, i) && k != i && Owner(ttl, Run(ttl, all), k, Run(ttl, steps).clock)
    requires Run(ttl, all).instances[k].pc.Idle?
    ensures |more| > |all| && Rivals(ttl, more, steps, i) && Wins(ttl, more)
  {
    var set_ := SetNX(k, Received, Run(ttl, steps).clock);
    StepKeeps(ttl, Run(ttl, all), set_);
    more := Rival(ttl, all, steps, i, set_);
    more := OwnerGets(ttl, more, steps, i, k);
  }

  lemma {:induction false} OwnerDeletes(ttl: int, all: seq<Step>, steps: seq<Step>, i: nat, k: nat)
      returns (more: seq<Step>)
    requires 0 < ttl && Rivals(ttl, all, steps, i) && k != i && Owner(ttl, Run(ttl, all), k, Run(ttl, steps).clock)
    requires Run(ttl, all).instances[k].pc.ToDelete?
    ensures |more| > |all| && Rivals(ttl, more, steps, i) && Wins(ttl, more)
  {
    more := Rival(ttl, all, steps, i, Delete(k, Received, Run(ttl, steps).clock));
    more := FreeKeyTaken(ttl, more, steps, i);
  }

  /** Whoever owns the key, if not `i`, gets or hands on the flag at once. */
  lemma {:induction false} SomeRivalWins(ttl: int, steps: seq<Step>, i: nat)
    requires 0 < ttl && Valid(ttl, steps)
    requires var w := Run(ttl, steps);
      Inv(ttl, w) && (w.key.Some? ==> w.key.value.owner != i && Owner(ttl, w, w.key.value.owner, w.clock))
    ensures RivalWins(ttl, steps, i)
  {
    var w, more := Run(ttl, steps), steps;
    assert steps[..|steps|] == steps && Rivals(ttl, steps, steps, i);
    if w.key.None? {
      more := FreeKeyTaken(ttl, steps, steps, i);
    } else {
      var k := w.key.value.owner;
      match w.instances[k].pc
      case Idle => more := OwnerAttempts(ttl, steps, steps, i, k);
      case ToGet => more := OwnerGets(ttl, steps, steps, i, k);
      case ToExpire => more := OwnerExpires(ttl, steps, steps, i, k);
      case ToDelete => more := OwnerDeletes(ttl, steps, steps, i, k);
    }
  }

  lemma ExpireSecures(ttl: int, w: World, step: Step)
    requires 0 < ttl && Exact(ttl, w) && Enabled(w, step) && step.Expire? && Standing(ttl, Of(w, step.i), step.now)
    ensures Secure(ttl, After(ttl, w, step), step.i, step.now)
  {
    StepKeeps(ttl, w, step);
    StandingOwns(ttl, w, step.now);
  }

  lemma LateExpireLeaves(ttl: int, w: World, step: Step)
    requires 0 < ttl && Exact(ttl, w) && Enabled(w, step) && step.Expire? && !Standing(ttl, Of(w, step.i), step.now)
    ensures var t := After(ttl, w, step);
      && Inv(ttl, t) && t.clock == step.now
      && (t.key.Some? ==> t.key.value.owner != step.i && Owner(ttl, t, t.key.value.owner, t.clock))
  {
    StepKeeps(ttl, w, step);
  }

  /**
    After orderly runs, an EXPIRE, whatever becomes of it, leaves no other instance able to get the flag at
    that instant if and only if it is timely.  A late one sets its own flag although the key is free or
    another's, and the rival's flag can be set beside it at once.
   */
  lemma {:induction false} SecondLeaderIff(ttl: int, steps: seq<Step>, step: Step, expired: seq<Step>)
    requires 0 < ttl && Valid(ttl, steps) && Orderly(ttl, steps, 0) && Enabled(Run(ttl, steps), step)
    requires step.Expire? && expired == steps + [step]
    ensures Of(Run(ttl, expired), step.i).isLeader
    ensures RivalWins(ttl, expired, step.i) <==> !Standing(ttl, Of(Run(ttl, steps), step.i), step.now)
  {
    RunExact(ttl, steps);
    Snoc(ttl, steps, step);
    if Standing(ttl, Of(Run(ttl, steps), step.i), step.now) {
      ExpireSecures(ttl, Run(ttl, steps), step);
      forall all | |all| > |expired| && Rivals(ttl, all, expired, step.i) ensures !Wins(ttl, all) {
        NoRivalWins(ttl, all, expired, step.i);
      }
    } else {
      LateExpireLeaves(ttl, Run(ttl, steps), step);
      SomeRivalWins(ttl, expired, step.i);
    }
  }
}
