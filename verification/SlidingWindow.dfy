/**
  The circuit breaker's window of recent calls (internal/resilience/circuitbreaker.go).
  Two parallel arrays are overwritten in ring order; the rates scan them in storage
  order and are proved to be the rates over the most recent calls of the whole history.
 */
module CallWindow {
  import opened Prelude

  datatype Call = Call(success: bool, duration: int)

  /** The most recent `n` calls of a history, or all of them when there are fewer. */
  function Recent(history: seq<Call>, n: nat): seq<Call> {
    if |history| <= n then history else history[|history| - n..]
  }

  ghost function Rate(calls: seq<Call>, p: Call -> bool): real {
    if calls == [] then 0.0 else Count(calls, p) as real / |calls| as real
  }

  ghost const Failed: Call -> bool := (c: Call) => !c.success

  ghost function SlowerThan(threshold: int): Call -> bool {
    (c: Call) => c.duration > threshold
  }

  class SlidingWindow {
    const size: int
    var outcomes: array<bool>
    var durations: array<int>
    var index: int
    var count: int
    /** Every call ever recorded, oldest first. */
    ghost var history: seq<Call>

    ghost predicate Shape()
      reads this
    {
      && 1 <= size == outcomes.Length == durations.Length
      && 0 <= index < size && 0 <= count <= size
    }

    /** The occupied slots, in storage order. */
    ghost function Slots(): (s: seq<Call>)
      requires Shape()
      reads this, outcomes, durations
      ensures |s| == count
    {
      seq(count, i requires 0 <= i < count && Shape() reads this, outcomes, durations =>
        Call(outcomes[i], durations[i]))
    }

    ghost predicate Valid()
      reads this, outcomes, durations
    {
      && Shape()
      && Holds(Slots(), index, history, size)
    }

    constructor (n: int)
      requires 1 <= n
      ensures Valid() && size == n && history == []
      ensures fresh(outcomes) && fresh(durations)
    {
      size := n;
      outcomes := new bool[n](_ => false);
      durations := new int[n](_ => 0);
      index := 0;
      count := 0;
      history := [];
    }

    method Record(success: bool, duration: int)
      requires Valid()
      modifies this, outcomes, durations
      ensures Valid() && outcomes == old(outcomes) && durations == old(durations)
      ensures history == old(history) + [Call(success, duration)]
    {
      ghost var before, at := Slots(), index;
      RecordKeeps(before, at, history, size, Call(success, duration));
      assert (index + 1) % size == Next(index, size);
      outcomes[index] := success;
      durations[index] := duration;
      index := (index + 1) % size;
      if count < size {
        count := count + 1;
      }
      history := history + [Call(success, duration)];
      assert Slots() == Written(before, at, size, Call(success, duration));
    }

    method FailureRate() returns (rate: real)
      requires Valid()
      ensures rate == Rate(Recent(history, size), Failed)
    {
      if count == 0 {
        assert history == [];
        return 0.0;
      }
      var failures := 0;
      for i := 0 to count
        invariant failures == Count(Slots()[..i], Failed)
      {
        assert Slots()[..i + 1][..i] == Slots()[..i];
        if !outcomes[i] {
          failures := failures + 1;
        }
      }
      assert Slots()[..count] == Slots();
      SlotsCountRecent(Failed);
      rate := failures as real / count as real;
    }

    method SlowCallRate(threshold: int) returns (rate: real)
      requires Valid()
      ensures rate == Rate(Recent(history, size), SlowerThan(threshold))
    {
      if count == 0 {
        assert history == [];
        return 0.0;
      }
      var slowCalls := 0;
      for i := 0 to count
        invariant slowCalls == Count(Slots()[..i], SlowerThan(threshold))
      {
        assert Slots()[..i + 1][..i] == Slots()[..i];
        if durations[i] > threshold {
          slowCalls := slowCalls + 1;
        }
      }
      assert Slots()[..count] == Slots();
      SlotsCountRecent(SlowerThan(threshold));
      rate := slowCalls as real / count as real;
    }

    /** Counting in storage order and counting in age order give the same number. */
    lemma SlotsCountRecent(p: Call -> bool)
      requires Valid()
      ensures Count(Slots(), p) == Count(Recent(history, size), p)
      ensures count == |Recent(history, size)|
    {
      if count == size {
        CountConcat(Slots()[..index], Slots()[index..], p);
        CountConcat(Slots()[index..], Slots()[..index], p);
        assert Slots()[..index] + Slots()[index..] == Slots();
      }
    }
  }

  /** The ring position after `at`, without the remainder operator. */
  function Next(at: nat, size: nat): (n: nat)
    requires at < size
    ensures n == (at + 1) % size
  {
    if at + 1 == size then 0 else at + 1
  }

  /** Until the ring is full the slots are the history; afterwards they are its tail, rotated. */
  ghost predicate Holds(slots: seq<Call>, index: nat, history: seq<Call>, size: nat) {
    && index < size
    && |slots| == Min(|history|, size)
    && (|slots| < size ==> index == |slots| && slots == history)
    && (|slots| == size ==> slots[index..] + slots[..index] == Recent(history, size))
  }

  ghost function Written(slots: seq<Call>, at: nat, size: nat, call: Call): seq<Call>
    requires |slots| < size ==> at == |slots|
    requires |slots| >= size ==> at < |slots|
  {
    if |slots| < size then slots + [call] else slots[at := call]
  }

  /** Writing one slot and moving the index keeps the ring in step with the history. */
  lemma RecordKeeps(slots: seq<Call>, at: nat, history: seq<Call>, size: nat, call: Call)
    requires Holds(slots, at, history, size)
    ensures Holds(Written(slots, at, size, call), Next(at, size), history + [call], size)
  {
    var after := Written(slots, at, size, call);
    if |slots| < size {
      assert at + 1 == size ==> after[0..] + after[..0] == after;
    } else {
      RotationAdvances(slots, at, call);
      assert Recent(history + [call], size) == Recent(history, size)[1..] + [call];
    }
  }

  /** Overwriting the oldest slot of a full ring drops the oldest call and appends the new one. */
  lemma RotationAdvances(ring: seq<Call>, at: nat, call: Call)
    requires at < |ring|
    ensures var next, after := Next(at, |ring|), ring[at := call];
      after[next..] + after[..next] == (ring[at..] + ring[..at])[1..] + [call]
  {
    var after := ring[at := call];
    assert (ring[at..] + ring[..at])[1..] == ring[at + 1..] + ring[..at];
    if at + 1 == |ring| {
      assert after == ring[..at] + [call];
    } else {
      assert after[at + 1..] == ring[at + 1..];
      assert after[..at + 1] == ring[..at] + [call];
    }
  }
}
