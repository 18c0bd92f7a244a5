/**
  Polling for leadership, command by command (internal/jobs/scheduler/scheduler.go): with
  arbitrary delays between the commands of an attempt and lost replies, exactly which
  polling keeps the number of leaders at one.
 */
module LeaderPolling {
  import opened Prelude
  import Whole = LeaderElection
  import opened LeaderCommands

  predicate IsRelease(step: Step) {
    step.BeginRelease? || step.Delete?
  }

  /** The command is the last one of its attempt. */
  predicate Completes(ttl: int, w: World, step: Step) {
    !IsRelease(step) && Of(After(ttl, w, step), step.i).pc.Idle?
  }

  /** The command is the last one of its release. */
  predicate Leaves(ttl: int, w: World, step: Step) {
    IsRelease(step) && Of(After(ttl, w, step), step.i).pc.Idle?
  }

  /** The instance has completed an attempt, and no release since. */
  predicate Running(ttl: int, steps: seq<Step>, i: nat) {
    steps != [] &&
    var (w, last) := (Run(ttl, steps[..|steps| - 1]), steps[|steps| - 1]);
    if last.i == i && Completes(ttl, w, last) then true
    else if last.i == i && Leaves(ttl, w, last) then false
    else Running(ttl, steps[..|steps| - 1], i)
  }

  /** When the instance last completed an attempt. */
  function LastDone(ttl: int, steps: seq<Step>, i: nat): int {
    if steps == [] then 0
    else
      var (w, last) := (Run(ttl, steps[..|steps| - 1]), steps[|steps| - 1]);
      if last.i == i && Completes(ttl, w, last) then last.now else LastDone(ttl, steps[..|steps| - 1], i)
  }

  /** The command leaves the key its instance's, with a full TTL. */
  predicate Renews(ttl: int, w: World, step: Step) {
    var t := After(ttl, w, step);
    Of(t, step.i).since == Some(step.now) && t.key == Some(Whole.Lease(step.i, step.now + ttl))
  }

  /** How many attempts the instance has completed in a row, up to now, that did not renew the key. */
  function Missed(ttl: int, steps: seq<Step>, i: nat): nat {
    if steps == [] then 0
    else
      var (before, last) := (steps[..|steps| - 1], steps[|steps| - 1]);
      if last.i != i || !Completes(ttl, Run(ttl, before), last) then Missed(ttl, before, i)
      else if Renews(ttl, Run(ttl, before), last) then 0
      else Missed(ttl, before, i) + 1
  }

  /** Running instances complete an attempt at least every `gap`, and nobody attempts after a release. */
  ghost predicate Polls(ttl: int, gap: int, steps: seq<Step>) {
    && (forall k, i :: 0 <= k < |steps| && Running(ttl, steps[..k], i) ==>
          steps[k].now <= LastDone(ttl, steps[..k], i) + gap)
    && (forall k, m :: 0 <= m < k < |steps| && IsRelease(steps[m]) && steps[k].i == steps[m].i ==>
          IsRelease(steps[k]))
  }

  predicate Flagged(w: World, i: nat) {
    Of(w, i).isLeader
  }

  /** Whoever has the flag renewed the key in one of its last `losses` + 1 completed attempts. */
  ghost predicate FewLosses(ttl: int, losses: nat, steps: seq<Step>) {
    forall k, i :: 0 <= k <= |steps| && Flagged(Run(ttl, steps[..k]), i) ==> Missed(ttl, steps[..k], i) <= losses
  }

  ghost predicate Regular(ttl: int, gap: int, losses: nat, steps: seq<Step>) {
    Valid(ttl, steps) && Polls(ttl, gap, steps) && FewLosses(ttl, losses, steps)
  }

  ghost predicate OneFlag(w: World) {
    forall i, j :: Flagged(w, i) && Flagged(w, j) ==> i == j
  }

  // ---------- Tight polling is safe ----------

  lemma {:induction false} LastRegular(ttl: int, gap: int, losses: nat, steps: seq<Step>, before: seq<Step>)
    requires Regular(ttl, gap, losses, steps) && steps != [] && before == steps[..|steps| - 1]
    ensures Regular(ttl, gap, losses, before)
    ensures var last := steps[|steps| - 1];
      && Enabled(Run(ttl, before), last) && Run(ttl, steps) == After(ttl, Run(ttl, before), last)
      && forall i :: Running(ttl, before, i) ==> last.now <= LastDone(ttl, before, i) + gap
  {
    assert forall k :: 0 <= k <= |before| ==> before[..k] == steps[..k];
    forall k, i | 0 <= k < |before| && Running(ttl, before[..k], i)
      ensures before[k].now <= LastDone(ttl, before[..k], i) + gap
    {
      assert before[..k] == steps[..k];
    }
    assert before[..|before|] == before;
  }

  /** The flag comes with a completed attempt, or was there before and its release is not over. */
  lemma FlagComes(ttl: int, w: World, step: Step, i: nat)
    requires Enabled(w, step) && Flagged(After(ttl, w, step), i)
    ensures (step.i == i && Completes(ttl, w, step)) || (Flagged(w, i) && !(step.i == i && Leaves(ttl, w, step)))
  {
  }

  lemma {:induction false} FlaggedRuns(ttl: int, steps: seq<Step>, i: nat)
    requires Valid(ttl, steps) && Flagged(Run(ttl, steps), i)
    ensures Running(ttl, steps, i)
  {
    if steps != [] {
      var n := |steps| - 1;
      assert forall k :: 0 <= k <= n ==> steps[..n][..k] == steps[..k];
      FlagComes(ttl, Run(ttl, steps[..n]), steps[n], i);
      if Flagged(Run(ttl, steps[..n]), i) {
        FlaggedRuns(ttl, steps[..n], i);
      }
    }
  }

  /** A command that does not complete an attempt leaves `since` alone; one that does changes it by renewing. */
  lemma SinceChanges(ttl: int, w: World, step: Step)
    requires Enabled(w, step)
    ensures var (before, after) := (Of(w, step.i).since, Of(After(ttl, w, step), step.i).since);
      after == before || (Completes(ttl, w, step) && Renews(ttl, w, step) && after == Some(step.now))
  {
  }

  lemma {:induction false} StillRunning(ttl: int, steps: seq<Step>, i: nat)
    requires Valid(ttl, steps) && Of(Run(ttl, steps), i).since.Some?
    requires forall k :: 0 <= k < |steps| && steps[k].i == i ==> !IsRelease(steps[k])
    ensures Running(ttl, steps, i)
  {
    if steps != [] {
      var n := |steps| - 1;
      assert forall k :: 0 <= k <= n ==> steps[..n][..k] == steps[..k];
      SinceChanges(ttl, Run(ttl, steps[..n]), steps[n]);
      if steps[n].i != i || !Completes(ttl, Run(ttl, steps[..n]), steps[n]) {
        StillRunning(ttl, steps[..n], i);
      }
    }
  }

  /** An instance that goes on attempting, and has held the key before, has been running all along. */
  lemma {:induction false} Attempting(ttl: int, gap: int, losses: nat, steps: seq<Step>, before: seq<Step>)
    requires Regular(ttl, gap, losses, steps) && steps != [] && before == steps[..|steps| - 1]
    requires var last := steps[|steps| - 1]; !IsRelease(last) && Of(Run(ttl, before), last.i).since.Some?
    ensures Running(ttl, before, steps[|steps| - 1].i)
  {
    LastRegular(ttl, gap, losses, steps, before);
    StillRunning(ttl, before, steps[|steps| - 1].i);
  }

  /** Polling keeps the last completed attempt within so many gaps of the last renewal. */
  lemma {:induction false} PollBound(ttl: int, gap: int, losses: nat, steps: seq<Step>, i: nat)
    requires Regular(ttl, gap, losses, steps) && 0 < gap && Running(ttl, steps, i) && Of(Run(ttl, steps), i).since.Some?
    ensures LastDone(ttl, steps, i) <= Of(Run(ttl, steps), i).since.value + Missed(ttl, steps, i) * gap
  {
    var before, last := steps[..|steps| - 1], steps[|steps| - 1];
    LastRegular(ttl, gap, losses, steps, before);
    SinceChanges(ttl, Run(ttl, before), last);
    if last.i != i || !Completes(ttl, Run(ttl, before), last) {
      PollBound(ttl, gap, losses, before, i);
    } else if !Renews(ttl, Run(ttl, before), last) {
      Attempting(ttl, gap, losses, steps, before);
      PollBound(ttl, gap, losses, before, i);
      assert (Missed(ttl, before, i) + 1) * gap == Missed(ttl, before, i) * gap + gap;
    }
  }

  lemma Within(missed: nat, losses: nat, gap: int, ttl: int)
    requires missed <= losses && 0 < gap && (losses + 1) * gap <= ttl
    ensures missed * gap + gap <= ttl
  {
    assert (losses + 1) * gap == losses * gap + gap;
    assert missed * gap <= losses * gap;
  }

  /** Whoever has the flag has an unexpired lease. */
  ghost predicate AllLeased(ttl: int, w: World, now: int) {
    && Inv(ttl, w)
    && (forall i :: i in w.instances && w.instances[i].isLeader ==> HasLease(ttl, w.instances[i], now))
    && (forall i :: i in w.instances && w.instances[i].pc.ToDelete? ==> w.instances[i].isLeader)
    && (forall i :: i in w.instances && w.instances[i].pc.ToExpire? ==> w.instances[i].since.Some?)
  }

  /** Before the next command, at its time, all leases are still good. */
  lemma {:induction false} StillLeased(ttl: int, gap: int, losses: nat, steps: seq<Step>, before: seq<Step>)
    requires 0 < gap && (losses + 1) * gap <= ttl && Regular(ttl, gap, losses, steps) && steps != []
    requires before == steps[..|steps| - 1] && AllLeased(ttl, Run(ttl, before), Run(ttl, before).clock)
    ensures AllLeased(ttl, Run(ttl, before), steps[|steps| - 1].now)
  {
    LastRegular(ttl, gap, losses, steps, before);
    var w, now := Run(ttl, before), steps[|steps| - 1].now;
    forall i | i in w.instances && w.instances[i].isLeader ensures HasLease(ttl, w.instances[i], now) {
      FlaggedRuns(ttl, before, i);
      PollBound(ttl, gap, losses, before, i);
      assert before[..|before|] == before;
      Within(Missed(ttl, before, i), losses, gap, ttl);
    }
  }

  lemma LeasedIsCareful(ttl: int, w: World, step: Step)
    requires AllLeased(ttl, w, step.now) && Enabled(w, step)
    ensures Careful(ttl, w, step)
  {
    StandingOwns(ttl, w, step.now);
  }

  /** An EXPIRE that sets the flag finds its instance's lease still running, or renews it. */
  ghost predicate InTime(ttl: int, w: World, step: Step) {
    step.Expire? ==> Renews(ttl, w, step) || Standing(ttl, Of(w, step.i), step.now)
  }

  lemma LeasedStep(ttl: int, w: World, step: Step)
    requires 0 < ttl && AllLeased(ttl, w, step.now) && Enabled(w, step) && InTime(ttl, w, step)
    ensures AllLeased(ttl, After(ttl, w, step), step.now)
  {
    LeasedIsCareful(ttl, w, step);
    StepKeeps(ttl, w, step);
  }

  lemma {:induction false} ExpireInTime(ttl: int, gap: int, losses: nat, steps: seq<Step>, before: seq<Step>)
    requires 0 < gap && (losses + 1) * gap <= ttl && Regular(ttl, gap, losses, steps) && steps != []
    requires before == steps[..|steps| - 1] && AllLeased(ttl, Run(ttl, before), Run(ttl, before).clock)
    ensures InTime(ttl, Run(ttl, before), steps[|steps| - 1])
  {
    var last, w := steps[|steps| - 1], Run(ttl, before);
    LastRegular(ttl, gap, losses, steps, before);
    if last.Expire? && !Renews(ttl, w, last) {
      Attempting(ttl, gap, losses, steps, before);
      PollBound(ttl, gap, losses, before, last.i);
      assert steps[..|steps|] == steps && Flagged(Run(ttl, steps), last.i);
      Within(Missed(ttl, before, last.i), losses, gap, ttl);
    }
  }

  lemma {:induction false} RegularLeased(ttl: int, gap: int, losses: nat, steps: seq<Step>)
    requires 0 < ttl && 0 < gap && (losses + 1) * gap <= ttl && Regular(ttl, gap, losses, steps)
    ensures AllLeased(ttl, Run(ttl, steps), Run(ttl, steps).clock)
  {
    if steps != [] {
      var before, last := steps[..|steps| - 1], steps[|steps| - 1];
      LastRegular(ttl, gap, losses, steps, before);
      RegularLeased(ttl, gap, losses, before);
      StillLeased(ttl, gap, losses, steps, before);
      ExpireInTime(ttl, gap, losses, steps, before);
      LeasedStep(ttl, Run(ttl, before), last);
    }
  }

  lemma LeasedOneFlag(ttl: int, w: World)
    requires AllLeased(ttl, w, w.clock)
    ensures OneFlag(w)
  {
    forall i, j | Flagged(w, i) && Flagged(w, j) ensures i == j {
      assert HasLease(ttl, w.instances[i], w.clock) && HasLease(ttl, w.instances[j], w.clock);
      assert OwnedBy(w.key, i) && OwnedBy(w.key, j);
    }
  }

  // ---------- Looser polling is not ----------

  lemma {:induction false} SnocRegular(ttl: int, gap: int, losses: nat, steps: seq<Step>, step: Step, all: seq<Step>)
    requires Regular(ttl, gap, losses, steps) && all == steps + [step] && Enabled(Run(ttl, steps), step)
    requires forall k :: 0 <= k < |steps| ==> !IsRelease(steps[k])
    requires forall i :: Running(ttl, steps, i) ==> step.now <= LastDone(ttl, steps, i) + gap
    requires forall i :: Flagged(After(ttl, Run(ttl, steps), step), i) ==> Missed(ttl, all, i) <= losses
    ensures Regular(ttl, gap, losses, all) && Run(ttl, all) == After(ttl, Run(ttl, steps), step)
  {
    Snoc(ttl, steps, step);
    SnocPolls(ttl, gap, steps, step, all);
    SnocLosses(ttl, losses, steps, step, all);
  }

  lemma {:induction false} SnocPolls(ttl: int, gap: int, steps: seq<Step>, step: Step, all: seq<Step>)
    requires Polls(ttl, gap, steps) && all == steps + [step]
    requires forall k :: 0 <= k < |steps| ==> !IsRelease(steps[k])
    requires forall i :: Running(ttl, steps, i) ==> step.now <= LastDone(ttl, steps, i) + gap
    ensures Polls(ttl, gap, all)
  {
    forall k, i | 0 <= k < |all| && Running(ttl, all[..k], i) ensures all[k].now <= LastDone(ttl, all[..k], i) + gap {
      assert all[..k] == steps[..k];
      assert k == |steps| ==> steps[..k] == steps;
    }
  }

  lemma {:induction false} SnocLosses(ttl: int, losses: nat, steps: seq<Step>, step: Step, all: seq<Step>)
    requires FewLosses(ttl, losses, steps) && all == steps + [step]
    requires forall i :: Flagged(Run(ttl, all), i) ==> Missed(ttl, all, i) <= losses
    ensures FewLosses(ttl, losses, all)
  {
    forall k, i | 0 <= k <= |all| && Flagged(Run(ttl, all[..k]), i) ensures Missed(ttl, all[..k], i) <= losses {
      if k <= |steps| {
        assert all[..k] == steps[..k];
      } else {
        assert all[..k] == all;
      }
    }
  }

  lemma {:induction false} LastOf(ttl: int, steps: seq<Step>, step: Step, all: seq<Step>, i: nat)
    requires all == steps + [step] && !IsRelease(step)
    ensures var done := step.i == i && Completes(ttl, Run(ttl, steps), step);
      && Running(ttl, all, i) == (done || Running(ttl, steps, i))
      && LastDone(ttl, all, i) == (if done then step.now else LastDone(ttl, steps, i))
      && Missed(ttl, all, i) ==
         if !done then Missed(ttl, steps, i)
         else if Renews(ttl, Run(ttl, steps), step) then 0 else Missed(ttl, steps, i) + 1
  {
    assert all[..|steps|] == steps;
  }

  /**
    Instance 0 took the key at time 0, has completed `m` attempts without renewing it, the last one at
    `done`, and is at `pc`.  Looked into with OpenFading.
   */
  datatype Stage = Stage(steps: seq<Step>, m: nat, done: int, pc: Pc, now: int)

  ghost predicate Fading(ttl: int, gap: int, losses: nat, o: Stage) {
    && Regular(ttl, gap, losses, o.steps)
    && Run(ttl, o.steps) == World(Some(Whole.Lease(0, ttl)), map[0 := Instance(true, Some(0), o.pc)], o.now)
    && LastDone(ttl, o.steps, 0) == o.done && Missed(ttl, o.steps, 0) == o.m
    && (forall k :: 0 <= k < |o.steps| ==> !IsRelease(o.steps[k])) && forall i :: Running(ttl, o.steps, i) ==> i == 0
  }

  ghost predicate IsFading(ttl: int, gap: int, losses: nat, o: Stage) {
    forall k :: Asked(k) ==> Fading(ttl, gap, losses, o)
  }

  lemma OpenFading(ttl: int, gap: int, losses: nat, o: Stage)
    requires IsFading(ttl, gap, losses, o)
    ensures Fading(ttl, gap, losses, o)
  {
    assert Asked(0);
  }

  lemma {:induction false} FirstAttempt(ttl: int, gap: int, losses: nat) returns (o: Stage)
    requires 0 < ttl && 0 < gap
    ensures IsFading(ttl, gap, losses, o) && o == Stage(o.steps, 0, 0, Idle, 0)
  {
    var step := SetNX(0, Received, 0);
    var steps := [] + [step];
    forall i ensures Running(ttl, steps, i) == (i == 0) && Missed(ttl, steps, i) == 0 && LastDone(ttl, steps, i) == 0 {
      LastOf(ttl, [], step, steps, i);
    }
    SnocRegular(ttl, gap, losses, [], step, steps);
    o := Stage(steps, 0, 0, Idle, 0);
  }

  /** The next command of an attempt whose EXPIRE is going to be lost. */
  function Command(pc: Pc, now: int): Step {
    match pc
    case ToGet => Get(0, Received, now)
    case ToExpire => Expire(0, Lost(false), now)
    case _ => SetNX(0, Received, now)
  }

  function Following(pc: Pc): Pc {
    match pc
    case ToGet => ToExpire
    case ToExpire => Idle
    case _ => ToGet
  }

  lemma CommandEffect(ttl: int, w: World, pc: Pc, step: Step)
    requires !pc.ToDelete? && w == World(Some(Whole.Lease(0, ttl)), map[0 := Instance(true, Some(0), pc)], w.clock)
    requires step == Command(pc, step.now) && w.clock <= step.now <= ttl && 0 < step.now
    ensures Enabled(w, step) && Completes(ttl, w, step) == pc.ToExpire? && !Renews(ttl, w, step)
    ensures After(ttl, w, step) ==
      World(Some(Whole.Lease(0, ttl)), map[0 := Instance(true, Some(0), Following(pc))], step.now)
  {
  }

  lemma {:induction false} NextCommand(ttl: int, gap: int, losses: nat, o: Stage, now: int) returns (n: Stage)
    requires IsFading(ttl, gap, losses, o) && !o.pc.ToDelete? && o.m < losses
    requires o.now <= now <= o.done + gap && 0 < now <= ttl
    ensures IsFading(ttl, gap, losses, n)
    ensures n == Stage(n.steps, if o.pc.ToExpire? then o.m + 1 else o.m, if o.pc.ToExpire? then now else o.done,
                       Following(o.pc), now)
  {
    OpenFading(ttl, gap, losses, o);
    var step := Command(o.pc, now);
    var all := o.steps + [step];
    CommandEffect(ttl, Run(ttl, o.steps), o.pc, step);
    forall i ensures Running(ttl, all, i) ==> i == 0 {
      LastOf(ttl, o.steps, step, all, i);
    }
    LastOf(ttl, o.steps, step, all, 0);
    FadingLosses(ttl, gap, losses, o, step, all);
    n := Stage(all, if o.pc.ToExpire? then o.m + 1 else o.m,
      if o.pc.ToExpire? then now else o.done, Following(o.pc), now);
  }

  lemma {:induction false} FadingLosses(ttl: int, gap: int, losses: nat, o: Stage, step: Step, all: seq<Step>)
    requires Fading(ttl, gap, losses, o) && all == o.steps + [step] && Enabled(Run(ttl, o.steps), step)
    requires step.now <= o.done + gap && Missed(ttl, all, 0) <= losses
    requires forall i :: Flagged(After(ttl, Run(ttl, o.steps), step), i) && i != 0 ==> Missed(ttl, all, i) <= losses
    ensures Regular(ttl, gap, losses, all) && Run(ttl, all) == After(ttl, Run(ttl, o.steps), step)
  {
    SnocRegular(ttl, gap, losses, o.steps, step, all);
  }

  lemma {:induction false} LostAttempts(ttl: int, gap: int, losses: nat, m: nat) returns (o: Stage)
    requires 0 < ttl && 0 < gap && m <= losses && m * gap <= ttl
    ensures IsFading(ttl, gap, losses, o) && o == Stage(o.steps, m, m * gap, Idle, m * gap)
  {
    if m == 0 {
      o := FirstAttempt(ttl, gap, losses);
    } else {
      assert (m - 1) * gap + gap == m * gap && 0 <= (m - 1) * gap;
      o := LostAttempts(ttl, gap, losses, m - 1);
      o := NextCommand(ttl, gap, losses, o, m * gap);
      o := NextCommand(ttl, gap, losses, o, m * gap);
      o := NextCommand(ttl, gap, losses, o, m * gap);
    }
  }

  lemma IntruderEffect(ttl: int, w: World, step: Step)
    requires 0 < ttl && w == World(Some(Whole.Lease(0, ttl)), map[0 := Instance(true, Some(0), Idle)], w.clock)
    requires w.clock <= ttl && step == SetNX(1, Received, ttl + 1)
    ensures Enabled(w, step) && forall i :: Flagged(After(ttl, w, step), i) <==> i == 0 || i == 1
  {
  }

  lemma {:induction false} IntruderTakes(ttl: int, gap: int, losses: nat, o: Stage) returns (steps: seq<Step>)
    requires 0 < ttl && IsFading(ttl, gap, losses, o) && o.m <= losses && o.pc.Idle? && o.now <= ttl < o.done + gap
    ensures Regular(ttl, gap, losses, steps) && Flagged(Run(ttl, steps), 0) && Flagged(Run(ttl, steps), 1)
  {
    OpenFading(ttl, gap, losses, o);
    var step := SetNX(1, Received, ttl + 1);
    steps := o.steps + [step];
    IntruderEffect(ttl, Run(ttl, o.steps), step);
    LastOf(ttl, o.steps, step, steps, 0);
    LastOf(ttl, o.steps, step, steps, 1);
    FadingLosses(ttl, gap, losses, o, step, steps);
  }

  lemma Quotient(ttl: int, gap: int, losses: nat, m: int)
    requires 0 < ttl && 0 < gap && ttl < (losses + 1) * gap && m == ttl / gap
    ensures 0 <= m <= losses && m * gap <= ttl < m * gap + gap
  {
    assert ttl == m * gap + ttl % gap;
    assert m > losses ==> m * gap >= (losses + 1) * gap;
  }

  /**
    Command by command, with arbitrary delays and lost replies: if running instances complete an attempt at
    least every `gap`, and leaders fail to renew at most `losses` times in a row, then at most one flag is set
    at the end of every run if and only if losses + 1 gaps fit in LeaderLockTTL.
   */
  lemma {:induction false} PollingSafeIff(ttl: int, gap: int, losses: nat)
    requires 0 < ttl && 0 < gap
    ensures (forall steps :: Regular(ttl, gap, losses, steps) ==> OneFlag(Run(ttl, steps))) <==>
      (losses + 1) * gap <= ttl
  {
    if (losses + 1) * gap <= ttl {
      forall steps | Regular(ttl, gap, losses, steps) ensures OneFlag(Run(ttl, steps)) {
        RegularLeased(ttl, gap, losses, steps);
        LeasedOneFlag(ttl, Run(ttl, steps));
      }
    } else {
      var m := ttl / gap;
      Quotient(ttl, gap, losses, m);
      var o := LostAttempts(ttl, gap, losses, m);
      var steps := IntruderTakes(ttl, gap, losses, o);
      assert !OneFlag(Run(ttl, steps));
    }
  }
}
