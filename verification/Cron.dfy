/**
  Deduplication of cron firings (internal/jobs/scheduler/scheduler.go).  Times and
  TTLs are whole seconds since 1970-01-01T00:00:00Z.
 */
module CronDeduplication {
  import opened GregorianCalendar

  datatype Granularity = Minute | FiveMinutes | Hour | Day | Week | Month

  /** Unknown schedules fall back to one-minute windows. */
  function GranularityOf(schedule: string): Granularity {
    if schedule == "* * * * *" then Minute
    else if schedule == "*/5 * * * *" then FiveMinutes
    else if schedule == "0 * * * *" then Hour
    else if schedule == "0 0 * * *" then Day
    else if schedule == "0 0 * * 1" then Week
    else if schedule == "0 0 1 * *" then Month
    else Minute
  }

  /**
    The text of a window up to formatting.  A five-minute window is named by its first minute,
    so it reads like a one-minute window.
   */
  datatype Window =
    | MinuteText(minute: int)
    | HourText(hour: int)
    | DayText(day: int)
    | WeekText(week: int)
    | MonthText(month: int)

  /** getExecutionWindow. */
  function WindowAt(g: Granularity, now: int): Window {
    match g
    case Minute => MinuteText(now / 60)
    case FiveMinutes => MinuteText(now / 60 / 5 * 5)
    case Hour => HourText(now / 3600)
    case Day => DayText(now / 86400)
    case Week => WeekText((now / 86400 + 3) / 7)      // ISO weeks start on Monday; 1970-01-01 was a Thursday
    case Month => MonthText(MonthIndex(now / 86400))
  }

  datatype Key = Key(name: string, window: Window)

  /** What a firing finds besides the execution key. */
  datatype Circumstances = Circumstances(isLeader: bool, singletonRunning: bool, duplicate: bool)

  /** The window is computed at time `read`, and the execution key is set at time `now`. */
  datatype Firing = Firing(name: string, schedule: string, read: int, now: int, c: Circumstances)

  /** A job put on the queue by a firing. */
  datatype Entry = Entry(key: Key, read: int, now: int)

  datatype State = State(keys: map<Key, int>, enqueued: seq<Entry>)

  function KeyOf(f: Firing): Key {
    Key(f.name, WindowAt(GranularityOf(f.schedule), f.read))
  }

  /** The execution key exists and has not expired. */
  predicate Taken(keys: map<Key, int>, key: Key, now: int) {
    key in keys && now <= keys[key]
  }

  /** executeScheduledJob. */
  function After(ttl: int, s: State, f: Firing): State {
    var key := KeyOf(f);
    if !f.c.isLeader || Taken(s.keys, key, f.now) then s
    else
      State(s.keys[key := f.now + ttl],
            if f.c.singletonRunning || f.c.duplicate then s.enqueued else s.enqueued + [Entry(key, f.read, f.now)])
  }

  /** The scheduler's shared state: the execution keys in Redis and what firings put on the queue. */
  class CronExecutions {
    var keys: map<Key, int>
    var enqueued: seq<Entry>
    const ttl: int

    constructor (ttl: int)
      ensures Value() == State(map[], []) && this.ttl == ttl
    {
      keys, enqueued, this.ttl := map[], [], ttl;
    }

    ghost function Value(): State
      reads this
    {
      State(keys, enqueued)
    }

    method AcquireCronExecutionLock(key: Key, now: int) returns (acquired: bool)
      modifies this`keys
      ensures acquired == !Taken(old(keys), key, now)
      ensures keys == if acquired then old(keys)[key := now + ttl] else old(keys)
    {
      acquired := !(key in keys && now <= keys[key]);
      if acquired {
        keys := keys[key := now + ttl];
      }
    }

    method ExecuteScheduledJob(f: Firing)
      modifies this
      ensures Value() == After(ttl, old(Value()), f)
    {
      if !f.c.isLeader {
        return;
      }
      var key := Key(f.name, WindowAt(GranularityOf(f.schedule), f.read));
      var acquired := AcquireCronExecutionLock(key, f.now);
      if !acquired || f.c.singletonRunning || f.c.duplicate {
        return;
      }
      enqueued := enqueued + [Entry(key, f.read, f.now)];
    }
  }

  function Run(ttl: int, fs: seq<Firing>): State {
    if fs == [] then State(map[], []) else After(ttl, Run(ttl, fs[..|fs| - 1]), fs[|fs| - 1])
  }

  /** Keys are set in time order, each at most `lag` after its window was computed. */
  ghost predicate Clocked(lag: nat, fs: seq<Firing>) {
    && (forall i, j :: 0 <= i < j < |fs| ==> fs[i].now <= fs[j].now)
    && (forall i :: 0 <= i < |fs| ==> fs[i].read <= fs[i].now <= fs[i].read + lag)
  }

  /** Every firing of the job has a schedule of this granularity. */
  ghost predicate Scheduled(fs: seq<Firing>, name: string, g: Granularity) {
    forall i :: 0 <= i < |fs| && fs[i].name == name ==> GranularityOf(fs[i].schedule) == g
  }

  /** The job has not been enqueued twice for one window. */
  ghost predicate OncePerWindow(name: string, enqueued: seq<Entry>) {
    forall i, j :: 0 <= i < j < |enqueued| && enqueued[i].key.name == name ==> enqueued[i].key != enqueued[j].key
  }

  /** No window of this granularity is longer than `span`. */
  ghost predicate WindowsFit(g: Granularity, span: int) {
    forall t, u :: WindowAt(g, t) == WindowAt(g, u) ==> u <= t + span
  }

  /** The key that enqueued the job is still set, until a TTL after that moment at least. */
  ghost predicate Outlives(ttl: int, keys: map<Key, int>, e: Entry, now: int) {
    && e.read <= e.now <= now
    && e.key in keys && e.now + ttl <= keys[e.key]
  }

  lemma {:induction false} KeysOutlive(ttl: int, lag: nat, fs: seq<Firing>, now: int)
    requires 0 < ttl && Clocked(lag, fs) && forall i :: 0 <= i < |fs| ==> fs[i].now <= now
    ensures forall e :: e in Run(ttl, fs).enqueued ==> Outlives(ttl, Run(ttl, fs).keys, e, now)
  {
    if fs != [] {
      var n := |fs| - 1;
      KeysOutlive(ttl, lag, fs[..n], fs[n].now);
      var s := Run(ttl, fs[..n]);
      forall e | e in Run(ttl, fs).enqueued ensures Outlives(ttl, Run(ttl, fs).keys, e, now) {
        assert e in s.enqueued ==> Outlives(ttl, s.keys, e, fs[n].now);
      }
    }
  }

  /** What is enqueued for a job carries the window its schedule computed. */
  lemma {:induction false} WindowsComputed(ttl: int, fs: seq<Firing>, name: string, g: Granularity)
    requires Scheduled(fs, name, g)
    ensures forall e :: e in Run(ttl, fs).enqueued && e.key.name == name ==> e.key.window == WindowAt(g, e.read)
  {
    if fs != [] {
      WindowsComputed(ttl, fs[..|fs| - 1], name, g);
    }
  }

  lemma {:induction false} FittingWindowsDeduplicate(g: Granularity, ttl: int, lag: nat, name: string, fs: seq<Firing>)
    requires 0 < ttl && Clocked(lag, fs) && Scheduled(fs, name, g) && WindowsFit(g, ttl - lag)
    ensures OncePerWindow(name, Run(ttl, fs).enqueued)
  {
    if fs != [] {
      var n := |fs| - 1;
      FittingWindowsDeduplicate(g, ttl, lag, name, fs[..n]);
      KeysOutlive(ttl, lag, fs[..n], fs[n].now);
      WindowsComputed(ttl, fs[..n], name, g);
      var s, key := Run(ttl, fs[..n]), KeyOf(fs[n]);
      forall e | e in s.enqueued && e.key == key && key.name == name ensures Taken(s.keys, key, fs[n].now) {
        assert Outlives(ttl, s.keys, e, fs[n].now);
        assert WindowAt(g, e.read) == WindowAt(g, fs[n].read);
      }
    }
  }

  /** The schedule with windows of this granularity. */
  function ScheduleFor(g: Granularity): (s: string)
    ensures GranularityOf(s) == g
  {
    match g
    case Minute => "* * * * *"
    case FiveMinutes => "*/5 * * * *"
    case Hour => "0 * * * *"
    case Day => "0 0 * * *"
    case Week => "0 0 * * 1"
    case Month => "0 0 1 * *"
  }

  lemma {:induction false} RunOfTwo(ttl: int, fs: seq<Firing>)
    requires |fs| == 2
    ensures Run(ttl, fs) == After(ttl, After(ttl, State(map[], []), fs[0]), fs[1])
  {
    var one := fs[..1];
    assert one[..0] == [] && one[0] == fs[0];
    assert Run(ttl, one) == After(ttl, Run(ttl, one[..0]), fs[0]);
  }

  /** Two firings in one window, far enough apart for the key to have expired, enqueue two jobs. */
  lemma {:induction false} LongWindowFiresTwice(g: Granularity, ttl: int, lag: nat, name: string, t: int, u: int)
    returns (fs: seq<Firing>)
    requires 0 < ttl && t + ttl - lag < u && WindowAt(g, t) == WindowAt(g, u)
    ensures Clocked(lag, fs) && Scheduled(fs, name, g) && !OncePerWindow(name, Run(ttl, fs).enqueued)
  {
    var c := Circumstances(true, false, false);
    var first, second := Firing(name, ScheduleFor(g), t, t, c), Firing(name, ScheduleFor(g), u, u + lag, c);
    fs := [first, second];
    RunOfTwo(ttl, fs);
    var enqueued := Run(ttl, fs).enqueued;
    assert |enqueued| == 2 && enqueued[0].key == enqueued[1].key;
  }

  /** Every run with this lag enqueues the job at most once per window. */
  ghost predicate Deduplicates(g: Granularity, ttl: int, lag: nat, name: string) {
    forall fs :: Clocked(lag, fs) && Scheduled(fs, name, g) ==> OncePerWindow(name, Run(ttl, fs).enqueued)
  }

  /**
    Whatever instances believe they lead, at most one job is enqueued per name and window in every run,
    if and only if no window is longer than CronDeduplicationTTL less the longest delay between
    computing the window and setting the key.
   */
  lemma DeduplicatesIff(g: Granularity, ttl: int, lag: nat, name: string)
    requires 0 < ttl
    ensures Deduplicates(g, ttl, lag, name) <==> WindowsFit(g, ttl - lag)
  {
    if WindowsFit(g, ttl - lag) {
      forall fs | Clocked(lag, fs) && Scheduled(fs, name, g) ensures OncePerWindow(name, Run(ttl, fs).enqueued) {
        FittingWindowsDeduplicate(g, ttl, lag, name, fs);
      }
    } else {
      var t, u :| WindowAt(g, t) == WindowAt(g, u) && u > t + ttl - lag;
      var fs := LongWindowFiresTwice(g, ttl, lag, name, t, u);
    }
  }

  // ---------- What the windows are ----------

  /** A new window starts at this second. */
  ghost predicate Boundary(g: Granularity, t: int) {
    match g
    case Minute => t % 60 == 0
    case FiveMinutes => t % 300 == 0
    case Hour => t % 3600 == 0
    case Day => t % 86400 == 0
    case Week => t % 86400 == 0 && IsMonday(t / 86400)
    case Month => t % 86400 == 0 && IsFirstOfMonth(t / 86400)
  }

  /** The number in a window's text. */
  function Number(w: Window): int {
    match w
    case MinuteText(n) => n
    case HourText(n) => n
    case DayText(n) => n
    case WeekText(n) => n
    case MonthText(n) => n
  }

  lemma DayTicks(t: int)
    ensures (t + 1) / 86400 == if (t + 1) % 86400 == 0 then t / 86400 + 1 else t / 86400
  {
  }

  lemma FiveMinutesTick(t: int)
    ensures (t + 1) / 60 / 5 == t / 60 / 5 + if (t + 1) % 300 == 0 then 1 else 0
  {
    assert t / 60 / 5 == t / 300;
    assert (t + 1) / 60 / 5 == (t + 1) / 300;
  }

  lemma WeekTicks(day: int)
    ensures (day + 4) / 7 == (day + 3) / 7 + if IsMonday(day + 1) then 1 else 0
  {
  }

  /** From one second to the next the window moves on if and only if a new one starts. */
  lemma {:induction false} WindowTicks(g: Granularity, t: int)
    ensures Number(WindowAt(g, t)) <= Number(WindowAt(g, t + 1))
    ensures WindowAt(g, t) != WindowAt(g, t + 1) <==> Boundary(g, t + 1)
  {
    DayTicks(t);
    match g
    case Minute =>
    case FiveMinutes => FiveMinutesTick(t);
    case Hour =>
    case Day =>
    case Week => WeekTicks(t / 86400);
    case Month => MonthTicks(t / 86400);
  }

  lemma {:induction false} WindowsAdvance(g: Granularity, t: int, u: int)
    requires t <= u
    ensures Number(WindowAt(g, t)) <= Number(WindowAt(g, u))
    decreases u - t
  {
    if t < u {
      WindowsAdvance(g, t, u - 1);
      WindowTicks(g, u - 1);
    }
  }

  /** Two times are in one window if and only if no window starts between them. */
  lemma {:induction false} SameWindowIff(g: Granularity, t: int, u: int)
    requires t <= u
    ensures WindowAt(g, t) == WindowAt(g, u) <==> forall x :: t < x <= u ==> !Boundary(g, x)
    decreases u - t
  {
    if t < u {
      SameWindowIff(g, t, u - 1);
      WindowTicks(g, u - 1);
      WindowsAdvance(g, t, u - 1);
    }
  }

  /** The length of the longest window. */
  function Longest(g: Granularity): int {
    match g
    case Minute => 60
    case FiveMinutes => 300
    case Hour => 3600
    case Day => 86400
    case Week => 604800
    case Month => 31 * 86400
  }

  lemma {:induction false} NoLonger(g: Granularity, t: int, u: int)
    requires WindowAt(g, t) == WindowAt(g, u)
    ensures u <= t + Longest(g) - 1
  {
    match g
    case Minute =>
    case FiveMinutes =>
    case Hour =>
    case Day =>
    case Week =>
      assert (u / 86400 + 3) / 7 == (t / 86400 + 3) / 7;
    case Month =>
      SameMonth(t / 86400, u / 86400);
  }

  /** 1970-01-05 to 1970-01-11 is one ISO week. */
  lemma FirstWeek() returns (t: int)
    ensures WindowAt(Week, t) == WindowAt(Week, t + 604799)
  {
    t := 345600;
    assert t / 86400 == 4 && (t + 604799) / 86400 == 10;
  }

  lemma {:induction false} LongMonth()
    ensures WindowAt(Month, 0) == WindowAt(Month, 2678399)
  {
    assert 2678399 / 86400 == 30;
    January(0);
    January(30);
  }

  /** One as long as that starts at `t`. */
  lemma {:induction false} LongestWindow(g: Granularity) returns (t: int)
    ensures WindowAt(g, t) == WindowAt(g, t + Longest(g) - 1)
  {
    t := 0;
    match g
    case Minute =>
    case FiveMinutes =>
    case Hour =>
    case Day =>
    case Week => t := FirstWeek();
    case Month => LongMonth();
  }

  /** Minutes, five minutes, hours, days and weeks have exactly this length, and the longest month has 31 days. */
  lemma {:induction false} WindowLengths(g: Granularity, span: int)
    ensures WindowsFit(g, span) <==> Longest(g) - 1 <= span
  {
    if Longest(g) - 1 <= span {
      forall t, u | WindowAt(g, t) == WindowAt(g, u) ensures u <= t + span {
        NoLonger(g, t, u);
      }
    } else {
      var t := LongestWindow(g);
      assert t + Longest(g) - 1 > t + span;
    }
  }

  // ---------- Which firings put a job on the queue ----------

  /** The n-th firing sets its execution key: its instance leads, and no earlier setting is still alive. */
  ghost predicate Sets(ttl: int, fs: seq<Firing>, n: nat)
    requires n < |fs|
    decreases n
  {
    fs[n].c.isLeader &&
    forall m :: 0 <= m < n && KeyOf(fs[m]) == KeyOf(fs[n]) && Sets(ttl, fs, m) ==> fs[m].now + ttl < fs[n].now
  }

  /** An earlier firing's setting of the key is still alive. */
  ghost predicate StillSet(ttl: int, fs: seq<Firing>, key: Key, now: int) {
    exists m :: 0 <= m < |fs| && KeyOf(fs[m]) == key && Sets(ttl, fs, m) && now <= fs[m].now + ttl
  }

  lemma {:induction false} SetsPrefix(ttl: int, fs: seq<Firing>, k: nat, n: nat)
    requires n < k <= |fs|
    ensures Sets(ttl, fs[..k], n) <==> Sets(ttl, fs, n)
    decreases n
  {
    forall m | 0 <= m < n ensures Sets(ttl, fs[..k], m) <==> Sets(ttl, fs, m) {
      SetsPrefix(ttl, fs, k, m);
    }
  }

  lemma {:induction false} LastSets(ttl: int, fs: seq<Firing>, before: seq<Firing>, n: nat)
    requires n == |fs| - 1 && before == fs[..n]
    ensures Sets(ttl, fs, n) <==> fs[n].c.isLeader && !StillSet(ttl, before, KeyOf(fs[n]), fs[n].now)
    ensures forall key, now :: StillSet(ttl, fs, key, now) <==>
      StillSet(ttl, before, key, now) || (KeyOf(fs[n]) == key && Sets(ttl, fs, n) && now <= fs[n].now + ttl)
  {
    forall m | 0 <= m < n ensures Sets(ttl, before, m) <==> Sets(ttl, fs, m) {
      SetsPrefix(ttl, fs, n, m);
    }
    forall key, now | StillSet(ttl, before, key, now) ensures StillSet(ttl, fs, key, now) {
      var m :| 0 <= m < n && KeyOf(before[m]) == key && Sets(ttl, before, m) && now <= before[m].now + ttl;
      assert KeyOf(fs[m]) == key && Sets(ttl, fs, m);
    }
    forall key, now | StillSet(ttl, fs, key, now)
      ensures StillSet(ttl, before, key, now) || (KeyOf(fs[n]) == key && Sets(ttl, fs, n) && now <= fs[n].now + ttl)
    {
      var m :| 0 <= m <= n && KeyOf(fs[m]) == key && Sets(ttl, fs, m) && now <= fs[m].now + ttl;
      if m < n {
        assert KeyOf(before[m]) == key && Sets(ttl, before, m);
      }
    }
  }

  lemma {:induction false} TakenIff(ttl: int, lag: nat, fs: seq<Firing>, key: Key, now: int)
    requires 0 < ttl && Clocked(lag, fs) && forall i :: 0 <= i < |fs| ==> fs[i].now <= now
    ensures Taken(Run(ttl, fs).keys, key, now) <==> StillSet(ttl, fs, key, now)
  {
    if fs != [] {
      var n := |fs| - 1;
      var before := fs[..n];
      LastSets(ttl, fs, before, n);
      TakenIff(ttl, lag, before, KeyOf(fs[n]), fs[n].now);
      TakenIff(ttl, lag, before, key, now);
      assert Run(ttl, fs) == After(ttl, Run(ttl, before), fs[n]);
    }
  }

  /**
    In every run, a firing puts its job on the queue if and only if its instance leads, no other firing of
    the window has set the key within the TTL, whether or not it enqueued anything, the singleton is not
    running and the job is no duplicate.
   */
  lemma {:induction false} EnqueuesIff(ttl: int, lag: nat, fs: seq<Firing>, f: Firing, all: seq<Firing>)
    requires 0 < ttl && all == fs + [f] && Clocked(lag, all)
    ensures Run(ttl, all).enqueued ==
            Run(ttl, fs).enqueued +
            if f.c.isLeader && !StillSet(ttl, fs, KeyOf(f), f.now) && !f.c.singletonRunning && !f.c.duplicate
            then [Entry(KeyOf(f), f.read, f.now)] else []
  {
    var n := |fs|;
    assert all[..n] == fs && all[n] == f;
    assert forall i :: 0 <= i < n ==> fs[i] == all[i];
    TakenIff(ttl, lag, fs, KeyOf(f), f.now);
  }

  /** A firing that sets the key but is skipped, its singleton still running, uses the window up for a TTL. */
  lemma {:induction false} SkippedWindowIsLost(ttl: int, lag: nat, fs: seq<Firing>, m: nat, f: Firing,
      all: seq<Firing>)
    requires 0 < ttl && all == fs + [f] && Clocked(lag, all) && m < |fs|
    requires Sets(ttl, fs, m) && fs[m].c.singletonRunning
    requires KeyOf(f) == KeyOf(fs[m]) && f.now <= fs[m].now + ttl
    ensures Run(ttl, all).enqueued == Run(ttl, fs).enqueued
  {
    EnqueuesIff(ttl, lag, fs, f, all);
    assert StillSet(ttl, fs, KeyOf(f), f.now);
  }

  /** Every schedule but five has one-minute windows. */
  lemma GranularityIff(schedule: string, g: Granularity)
    requires g != Minute
    ensures GranularityOf(schedule) == g <==> schedule == ScheduleFor(g)
  {
  }

  const DEFAULT_TTL := 86400

  /**
    With the default TTL of 24 hours, and keys set within a second of computing the window: minutes,
    five minutes, hours and days are deduplicated, weeks and months are not.
   */
  lemma DefaultTtlFits(g: Granularity, name: string)
    ensures Deduplicates(g, DEFAULT_TTL, 1, name) <==> !g.Week? && !g.Month?
  {
    DeduplicatesIff(g, DEFAULT_TTL, 1, name);
    WindowLengths(g, DEFAULT_TTL - 1);
  }
}
