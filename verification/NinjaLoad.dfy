/** The elapsed time of all build steps together, gap by gap: how long each gap is, times how many steps ran in it. */
module NinjaLoad {
  import opened NinjaSweep

  function Times(n: nat, x: real): real { n as real * x }

  lemma TimesMore(n: nat, x: real)
    ensures Times(n + 1, x) == Times(n, x) + x && Times(0, x) == 0.0
  {}

  /** What the first `n` gaps come to, each counted once for every task that runs throughout. */
  ghost function Load(es: seq<Event>, entries: seq<Target>, n: nat): real
    requires n < |es|
  {
    if n == 0 then 0.0
    else
      var (a, b) := (es[n - 1].time, es[n].time);
      Load(es, entries, n - 1) + Times(|Covering(entries, a, b)|, b - a)
  }

  /** How much of the first `n` gaps a task runs. */
  ghost function Ran(es: seq<Event>, t: Target, n: nat): real
    requires n < |es|
  {
    if n == 0 then 0.0
    else Ran(es, t, n - 1) + if Covers(t, es[n - 1].time, es[n].time) then es[n].time - es[n - 1].time else 0.0
  }

  function Least(x: real, y: real): real { if x < y then x else y }

  /** How long a task has run at time `x`: from its start to then, or to its end. */
  function RanBy(t: Target, x: real): real { if x <= t.start then 0.0 else Least(x, t.end) - t.start }

  /** No task starts or ends between two neighbouring events. */
  lemma NothingBetween(es: seq<Event>, entries: seq<Target>, t: Target, n: nat)
    requires Timeline(es, entries) && t in entries && 0 < n < |es|
    ensures var (a, b) := (es[n - 1].time, es[n].time);
            a <= b && (t.start <= a || b <= t.start) && (t.end <= a || b <= t.end)
  {
    hide Sorted;
    var (i, j) := (Begin(es, t), Finish(es, t));
    assert es[i] == StartOf(t) && es[j] == StopOf(t);
    TimeMono(es, n - 1, n);
    if i <= n - 1 { TimeMono(es, i, n - 1); } else { TimeMono(es, n, i); }
    if j <= n - 1 { TimeMono(es, j, n - 1); } else { TimeMono(es, n, j); }
  }

  lemma {:induction false} RanIs(es: seq<Event>, entries: seq<Target>, t: Target, n: nat)
    requires Timeline(es, entries) && Proper(entries) && t in entries && n < |es|
    ensures Ran(es, t, n) == RanBy(t, es[n].time)
  {
    hide Timeline;
    if n == 0 {
      assert es[0].time <= t.start by { FirstEvent(es, entries, t); }
    } else {
      RanIs(es, entries, t, n - 1);
      NothingBetween(es, entries, t, n);
    }
  }

  lemma FirstEvent(es: seq<Event>, entries: seq<Target>, t: Target)
    requires Timeline(es, entries) && t in entries && es != []
    ensures es[0].time <= t.start
  {
    hide Sorted;
    assert es[Begin(es, t)] == StartOf(t);
    TimeMono(es, 0, Begin(es, t));
  }

  /** After the last event it has run for all its duration, from its start to its end. */
  lemma RanAll(es: seq<Event>, entries: seq<Target>, t: Target)
    requires Timeline(es, entries) && Proper(entries) && t in entries
    ensures |es| > 0 && Ran(es, t, |es| - 1) == t.end - t.start
  {
    hide Sorted, Ran;
    assert es[Finish(es, t)] == StopOf(t);
    TimeMono(es, Finish(es, t), |es| - 1);
    RanIs(es, entries, t, |es| - 1);
  }

  ghost function AllRan(es: seq<Event>, ts: seq<Target>, n: nat): real
    requires n < |es|
  {
    if ts == [] then 0.0 else AllRan(es, ts[..|ts| - 1], n) + Ran(es, ts[|ts| - 1], n)
  }

  /** One gap more for all tasks. */
  lemma {:induction false} AllRanNext(es: seq<Event>, ts: seq<Target>, n: nat)
    requires 0 < n < |es| && Distinct(ts)
    ensures var (a, b) := (es[n - 1].time, es[n].time);
            AllRan(es, ts, n) == AllRan(es, ts, n - 1) + Times(|Covering(ts, a, b)|, b - a)
    decreases |ts|
  {
    hide Covering, Times, Covers;
    var (a, b) := (es[n - 1].time, es[n].time);
    CoveringGrows(ts, a, b);
    if ts == [] {
      TimesMore(0, b - a);
    } else {
      AllRanNext(es, ts[..|ts| - 1], n);
      TimesMore(|Covering(ts[..|ts| - 1], a, b)|, b - a);
    }
  }

  lemma {:induction false} AllRanIsLoad(es: seq<Event>, entries: seq<Target>, n: nat)
    requires n < |es| && Distinct(entries)
    ensures AllRan(es, entries, n) == Load(es, entries, n)
  {
    hide Covering, Times, Ran;
    if n == 0 {
      NothingRan(es, entries);
    } else {
      AllRanIsLoad(es, entries, n - 1);
      AllRanNext(es, entries, n);
    }
  }

  lemma {:induction false} NothingRan(es: seq<Event>, ts: seq<Target>)
    requires 0 < |es|
    ensures AllRan(es, ts, 0) == 0.0
    decreases |ts|
  {
    if ts != [] { NothingRan(es, ts[..|ts| - 1]); }
  }

  /** The durations as the report adds them up. */
  ghost function CpuTime(ts: seq<Target>): real {
    if ts == [] then 0.0 else CpuTime(ts[..|ts| - 1]) + ts[|ts| - 1].Duration()
  }

  lemma {:induction false} CpuTimeIsRan(es: seq<Event>, entries: seq<Target>, ts: seq<Target>)
    requires Timeline(es, entries) && Proper(entries) && es != [] && forall t | t in ts :: t in entries
    ensures CpuTime(ts) == AllRan(es, ts, |es| - 1)
    decreases |ts|
  {
    hide Sorted, Ran;
    if ts != [] {
      CpuTimeIsRan(es, entries, ts[..|ts| - 1]);
      RanAll(es, entries, ts[|ts| - 1]);
    }
  }

  /** The sum of the elapsed times is the sum over the gaps of their lengths times the numbers of tasks running then. */
  lemma CpuTimeIsLoad(es: seq<Event>, entries: seq<Target>)
    requires Timeline(es, entries) && Proper(entries) && Distinct(entries) && es != []
    ensures CpuTime(entries) == Load(es, entries, |es| - 1)
  {
    hide Sorted;
    CpuTimeIsRan(es, entries, entries);
    AllRanIsLoad(es, entries, |es| - 1);
  }
}
