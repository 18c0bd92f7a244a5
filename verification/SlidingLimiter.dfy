/** The sliding-window rate limiter (internal/resilience/ratelimiter.go). */
module SlidingLimiter {
  import opened Prelude

  datatype Config = Config(rate: int, period: int)

  ghost function After(t: int): int -> bool {
    x => x > t
  }

  ghost function Within(lo: int, hi: int): int -> bool {
    x => lo <= x <= hi
  }

  /** The timestamps still inside the window that ends at `now`. */
  ghost function Pruned(c: Config, ts: seq<int>, now: int): seq<int> {
    Filter(ts, After(now - c.period))
  }

  ghost predicate Admits(c: Config, ts: seq<int>, now: int) {
    |Pruned(c, ts, now)| < c.rate
  }

  ghost function Step(c: Config, ts: seq<int>, now: int): seq<int> {
    if Admits(c, ts, now) then Pruned(c, ts, now) + [now] else Pruned(c, ts, now)
  }

  class SlidingWindowLimiter {
    const config: Config
    var timestamps: seq<int>

    constructor (c: Config)
      ensures config == c && timestamps == []
    {
      config := c;
      timestamps := [];
    }

    method Allow(now: int) returns (ok: bool)
      modifies this
      ensures ok == Admits(config, old(timestamps), now)
      ensures timestamps == Step(config, old(timestamps), now)
    {
      var windowStart := now - config.period;
      var kept := [];
      for i := 0 to |timestamps|
        invariant timestamps == old(timestamps)
        invariant kept == Filter(timestamps[..i], After(windowStart))
      {
        assert timestamps[..i + 1][..i] == timestamps[..i];
        if timestamps[i] > windowStart {
          kept := kept + [timestamps[i]];
        }
      }
      assert timestamps[..|timestamps|] == timestamps;
      timestamps := kept;
      if |timestamps| < config.rate {
        timestamps := timestamps + [now];
        return true;
      }
      return false;
    }
  }

  // ---------- Runs: a run is the sequence of call times ----------

  ghost function Run(c: Config, calls: seq<int>): seq<int> {
    if calls == [] then [] else Step(c, Run(c, calls[..|calls| - 1]), calls[|calls| - 1])
  }

  ghost function Decisions(c: Config, calls: seq<int>): (ds: seq<bool>)
    ensures |ds| == |calls|
  {
    if calls == [] then []
    else
      var n := |calls| - 1;
      Decisions(c, calls[..n]) + [Admits(c, Run(c, calls[..n]), calls[n])]
  }

  /** The times of all admitted calls. */
  ghost function Admissions(c: Config, calls: seq<int>): seq<int> {
    Select(calls, Decisions(c, calls))
  }

  ghost predicate Clocked(calls: seq<int>) {
    forall i, j :: 0 <= i < j < |calls| ==> calls[i] <= calls[j]
  }

  lemma {:induction false} FilterFilter(s: seq<int>, t1: int, t2: int)
    requires t1 <= t2
    ensures Filter(Filter(s, After(t1)), After(t2)) == Filter(s, After(t2))
  {
    if s != [] {
      var n := |s| - 1;
      FilterFilter(s[..n], t1, t2);
      if s[n] > t1 {
        FilterAppend(Filter(s[..n], After(t1)), s[n], t2);
      }
    }
  }

  lemma {:induction false} FilterAppend(s: seq<int>, x: int, t: int)
    ensures Filter(s + [x], After(t)) ==
            if x > t then Filter(s, After(t)) + [x] else Filter(s, After(t))
  {
    assert (s + [x])[..|s|] == s;
  }

  /** Pruning now and again later is pruning later. */
  lemma {:induction false} PruneComposes(c: Config, ts: seq<int>, t1: int, t2: int)
    requires t1 <= t2
    ensures Pruned(c, Pruned(c, ts, t1), t2) == Pruned(c, ts, t2)
  {
    FilterFilter(ts, t1 - c.period, t2 - c.period);
  }

  lemma {:induction false} AdmissionsStep(c: Config, calls: seq<int>)
    requires calls != []
    ensures var n := |calls| - 1;
      Admissions(c, calls) ==
        if Admits(c, Run(c, calls[..n]), calls[n]) then Admissions(c, calls[..n]) + [calls[n]]
        else Admissions(c, calls[..n])
  {
    var n, ds := |calls| - 1, Decisions(c, calls);
    assert ds[..n] == Decisions(c, calls[..n]);
  }

  /** The stored timestamps are the admissions of the whole history that still matter. */
  lemma {:induction false} WindowIsHistory(c: Config, calls: seq<int>, now: int)
    requires Clocked(calls) && c.period > 0
    requires forall i :: 0 <= i < |calls| ==> calls[i] <= now
    ensures Pruned(c, Run(c, calls), now) == Pruned(c, Admissions(c, calls), now)
  {
    if calls != [] {
      var n := |calls| - 1;
      var ts, last := Run(c, calls[..n]), calls[n];
      WindowIsHistory(c, calls[..n], now);
      PruneComposes(c, ts, last, now);
      AdmissionsStep(c, calls);
      if Admits(c, ts, last) {
        FilterAppend(Pruned(c, ts, last), last, now - c.period);
        FilterAppend(Admissions(c, calls[..n]), last, now - c.period);
      }
    }
  }

  lemma {:induction false} FilterCounts(s: seq<int>, p: int -> bool)
    ensures |Filter(s, p)| == Count(s, p)
  {
    if s != [] {
      FilterCounts(s[..|s| - 1], p);
    }
  }

  /** A call is admitted exactly when fewer than Rate admissions lie in the Period before it. */
  lemma {:induction false} AdmittedExactly(c: Config, calls: seq<int>, now: int)
    requires Clocked(calls) && c.period > 0
    requires forall i :: 0 <= i < |calls| ==> calls[i] <= now
    ensures Admits(c, Run(c, calls), now) <==>
            Count(Admissions(c, calls), After(now - c.period)) < c.rate
  {
    WindowIsHistory(c, calls, now);
    FilterCounts(Admissions(c, calls), After(now - c.period));
  }

  lemma {:induction false} CountMonotone(s: seq<int>, p: int -> bool, q: int -> bool)
    requires forall x :: p(x) ==> q(x)
    ensures Count(s, p) <= Count(s, q)
  {
    if s != [] {
      CountMonotone(s[..|s| - 1], p, q);
    }
  }

  /** No interval shorter than Period, wherever it lies, contains more than Rate admissions. */
  lemma {:induction false} RateBound(c: Config, calls: seq<int>, lo: int, hi: int)
    requires Clocked(calls) && c.period > 0 && hi - lo < c.period
    ensures Count(Admissions(c, calls), Within(lo, hi)) <= Max(0, c.rate)
  {
    if calls != [] {
      var n := |calls| - 1;
      var prefix, now := calls[..n], calls[n];
      RateBound(c, prefix, lo, hi);
      AdmissionsStep(c, calls);
      var adm := Admissions(c, prefix);
      if Admits(c, Run(c, prefix), now) {
        assert (adm + [now])[..|adm|] == adm;
        if lo <= now <= hi {
          AdmittedExactly(c, prefix, now);
          CountMonotone(adm, Within(lo, hi), After(now - c.period));
        }
      }
    }
  }

  /** `early` will look like `late` to every later call. */
  ghost predicate Lags(c: Config, early: seq<int>, late: seq<int>, since: int) {
    early == late || Pruned(c, early, since) == late
  }

  lemma {:induction false} LagKept(c: Config, early: seq<int>, late: seq<int>, since: int, now: int)
    requires Lags(c, early, late, since) && since <= now
    ensures Pruned(c, early, now) == Pruned(c, late, now)
    ensures Step(c, early, now) == Step(c, late, now)
  {
    PruneComposes(c, early, since, now);
  }

  lemma {:induction false} RunSnoc(c: Config, calls: seq<int>, now: int)
    ensures Run(c, calls + [now]) == Step(c, Run(c, calls), now)
    ensures Decisions(c, calls + [now]) == Decisions(c, calls) + [Admits(c, Run(c, calls), now)]
  {
    assert (calls + [now])[..|calls|] == calls;
  }

  /** Deleting any set of refused calls leaves every other decision unchanged. */
  lemma {:induction false} RefusalsLeaveNoTrace(c: Config, calls: seq<int>, keep: seq<bool>)
    requires Clocked(calls) && |keep| == |calls|
    requires forall i :: 0 <= i < |calls| && !keep[i] ==> !Decisions(c, calls)[i]
    ensures Decisions(c, Select(calls, keep)) == Select(Decisions(c, calls), keep)
    ensures calls != [] ==> Lags(c, Run(c, Select(calls, keep)), Run(c, calls), calls[|calls| - 1])
  {
    if calls != [] {
      var n := |calls| - 1;
      var prefix, now, ds := calls[..n], calls[n], Decisions(c, calls);
      assert calls == prefix + [now];
      RunSnoc(c, prefix, now);
      assert ds[..n] == Decisions(c, prefix);
      RefusalsLeaveNoTrace(c, prefix, keep[..n]);
      var kept := Select(prefix, keep[..n]);
      if prefix != [] {
        LagKept(c, Run(c, kept), Run(c, prefix), prefix[n - 1], now);
      }
      RunSnoc(c, kept, now);
    }
  }
}
