/** The report itself: collect events, sort them, sweep over them. */
module BuildReport {
  import opened NinjaSweep
  import opened NinjaLoad

  // ----- Sorting -----

  /** Insert behind every event that does not come later: a stable step. */
  function Insert(es: seq<Event>, e: Event): seq<Event> {
    if es == [] then [e]
    else
      var last := |es| - 1;
      if Before(es[last], e) then es + [e] else Insert(es[..last], e) + [es[last]]
  }

  /** Events by time, starts before stops, otherwise in their original order. */
  function SortEvents(es: seq<Event>): seq<Event> {
    if es == [] then [] else Insert(SortEvents(es[..|es| - 1]), es[|es| - 1])
  }

  lemma BeforeTotal(a: Event, b: Event)
    ensures Before(a, b) || Before(b, a)
  {}

  lemma BeforeChain(es: seq<Event>, e: Event)
    requires Sorted(es) && es != [] && Before(es[|es| - 1], e)
    ensures Sorted(es + [e])
  {
    forall i | 0 <= i < |es| ensures Before(es[i], e) {
      assert i < |es| - 1 ==> Before(es[i], es[|es| - 1]);
    }
  }

  lemma {:induction false} InsertKeeps(es: seq<Event>, e: Event)
    ensures multiset(Insert(es, e)) == multiset(es) + multiset{e}
    decreases |es|
  {
    if es != [] {
      assert es == es[..|es| - 1] + [es[|es| - 1]];
      InsertKeeps(es[..|es| - 1], e);
    }
  }

  lemma {:induction false} InsertSorted(es: seq<Event>, e: Event)
    requires Sorted(es)
    ensures Sorted(Insert(es, e))
    decreases |es|
  {
    if es != [] {
      var (init, x) := (es[..|es| - 1], es[|es| - 1]);
      if Before(x, e) {
        BeforeChain(es, e);
      } else {
        InsertSorted(init, e);
        InsertKeeps(init, e);
        LastStays(init, x, e);
      }
    }
  }

  lemma LastStays(init: seq<Event>, x: Event, e: Event)
    requires Sorted(init + [x]) && !Before(x, e) && Sorted(Insert(init, e))
    requires multiset(Insert(init, e)) == multiset(init) + multiset{e}
    ensures Sorted(Insert(init, e) + [x])
  {
    hide Insert;
    var r := Insert(init, e);
    BeforeTotal(x, e);
    forall i | 0 <= i < |r| ensures Before(r[i], x) {
      assert r[i] in multiset(r);
      if r[i] != e {
        var k :| 0 <= k < |init| && init[k] == r[i];
        assert Before((init + [x])[k], (init + [x])[|init|]);
      }
    }
  }

  lemma {:induction false} SortEventsSorts(es: seq<Event>)
    ensures Sorted(SortEvents(es)) && multiset(SortEvents(es)) == multiset(es)
    decreases |es|
  {
    if es != [] {
      var init := es[..|es| - 1];
      SortEventsSorts(init);
      InsertSorted(SortEvents(init), es[|es| - 1]);
      InsertKeeps(SortEvents(init), es[|es| - 1]);
      assert es == init + [es[|es| - 1]];
    }
  }

  // ----- The events of the entries -----

  ghost function EventsOf(entries: seq<Target>): seq<Event> {
    if entries == [] then []
    else
      var t := entries[|entries| - 1];
      EventsOf(entries[..|entries| - 1]) + [StartOf(t), StopOf(t)]
  }

  lemma {:induction false} EventsOfHas(entries: seq<Target>, e: Event)
    ensures e in EventsOf(entries) <==> e.who in entries && (e == StartOf(e.who) || e == StopOf(e.who))
    decreases |entries|
  {
    if entries != [] {
      var init := entries[..|entries| - 1];
      assert entries == init + [entries[|entries| - 1]];
      EventsOfHas(init, e);
    }
  }

  lemma {:induction false} EventsDistinct(entries: seq<Target>)
    requires Distinct(entries)
    ensures Distinct(EventsOf(entries))
    decreases |entries|
  {
    if entries != [] {
      var (init, t) := (entries[..|entries| - 1], entries[|entries| - 1]);
      assert entries == init + [t] && t !in init;
      EventsDistinct(init);
      EventsOfHas(init, StartOf(t));
      EventsOfHas(init, StopOf(t));
    }
  }

  lemma {:induction false} CountOnce<T>(s: seq<T>, x: T)
    requires Distinct(s)
    ensures multiset(s)[x] <= 1
    decreases |s|
  {
    if s != [] {
      var init := s[..|s| - 1];
      CountOnce(init, x);
      assert s == init + [s[|s| - 1]];
      if s[|s| - 1] == x {
        assert x !in init;
      }
    }
  }

  lemma DistinctByCount<T>(a: seq<T>, b: seq<T>)
    requires multiset(a) == multiset(b) && Distinct(a)
    ensures Distinct(b)
  {
    forall i, j | 0 <= i < j < |b| ensures b[i] != b[j] {
      if b[i] == b[j] {
        assert b == b[..i] + [b[i]] + b[i + 1..j] + [b[j]] + b[j + 1..];
        assert multiset(b)[b[i]] >= 2;
        CountOnce(a, b[i]);
      }
    }
  }

  /** The sorted events of distinct entries are a timeline. */
  lemma SortedTimeline(entries: seq<Target>)
    requires Distinct(entries)
    ensures Timeline(SortEvents(EventsOf(entries)), entries)
  {
    hide Sorted, SortEvents, EventsOf;
    var (raw, es) := (EventsOf(entries), SortEvents(EventsOf(entries)));
    SortEventsSorts(raw);
    EventsDistinct(entries);
    DistinctByCount(raw, es);
    forall t | t in entries ensures StartOf(t) in es && StopOf(t) in es {
      EventsOfHas(entries, StartOf(t));
      EventsOfHas(entries, StopOf(t));
      assert StartOf(t) in multiset(raw) && StopOf(t) in multiset(raw);
    }
    forall e | e in es ensures e.who in entries && (e == StartOf(e.who) || e == StopOf(e.who)) {
      assert e in multiset(es);
      EventsOfHas(entries, e);
    }
  }

  // ----- The sweep -----

  /** Up to its stop event, a task is running exactly when its start event has passed. */
  lemma {:induction false} LiveBeforeStop(es: seq<Event>, entries: seq<Target>, k: nat, t: Target)
    requires Timeline(es, entries) && t in entries && k <= Finish(es, t)
    ensures t in Live(es, k) <==> Begin(es, t) < k
  {
    if k > 0 {
      LiveBeforeStop(es, entries, k - 1, t);
      PosUnique(es, k - 1);
      assert es[k - 1] in es;
    }
  }

  /** Tasks whose stop event is among the first `k` have their accumulator growth recorded. */
  ghost predicate Recorded(es: seq<Event>, entries: seq<Target>, k: nat)
    requires Timeline(es, entries) && k <= |es|
    reads entries
  {
    forall t | t in entries && Finish(es, t) < k ::
      Begin(es, t) < Finish(es, t) && t.weighted == Acc(es, Finish(es, t)) - Acc(es, Begin(es, t))
  }

  /** The running tasks, each with the accumulator's value at its start. */
  ghost predicate RunningIs(es: seq<Event>, running: map<Target, real>, k: nat)
    requires k <= |es|
  {
    running.Keys == Live(es, k) && forall t | t in running :: StartOf(t) in es && running[t] == Acc(es, Begin(es, t))
  }

  /** The tasks stopped by the first `k` events, in the order in which they stop. */
  ghost function Stopped(es: seq<Event>, k: nat): seq<Target>
    requires k <= |es|
  {
    if k == 0 then [] else Stopped(es, k - 1) + if es[k - 1].stop then [es[k - 1].who] else []
  }

  /** The accumulator growth of the given tasks, together. */
  ghost function Growth(es: seq<Event>, ts: seq<Target>): real
    requires forall t | t in ts :: StartOf(t) in es && StopOf(t) in es
  {
    if ts == [] then 0.0
    else
      var t := ts[|ts| - 1];
      Growth(es, ts[..|ts| - 1]) + (Acc(es, Finish(es, t)) - Acc(es, Begin(es, t)))
  }

  lemma StoppedOnce(es: seq<Event>, entries: seq<Target>, k: nat, t: Target)
    requires Timeline(es, entries) && 0 < k <= |es| && t in entries
    requires multiset(Stopped(es, k - 1))[t] == if Finish(es, t) < k - 1 then 1 else 0
    ensures multiset(Stopped(es, k))[t] == if Finish(es, t) < k then 1 else 0
  {
    PosUnique(es, k - 1);
    var e := es[k - 1];
    assert e == StartOf(e.who) || e == StopOf(e.who);
    assert es[Finish(es, t)] == StopOf(t);
  }

  lemma {:induction false} StoppedIn(es: seq<Event>, entries: seq<Target>, k: nat)
    requires Timeline(es, entries) && k <= |es|
    ensures forall t | t in Stopped(es, k) :: t in entries
  {
    if k > 0 {
      StoppedIn(es, entries, k - 1);
      assert es[k - 1].who in entries;
    }
  }

  lemma {:induction false} StoppedOk(es: seq<Event>, entries: seq<Target>, k: nat, t: Target)
    requires Timeline(es, entries) && k <= |es| && t in entries
    ensures multiset(Stopped(es, k))[t] == if Finish(es, t) < k then 1 else 0
  {
    if k > 0 {
      StoppedOk(es, entries, k - 1, t);
      StoppedOnce(es, entries, k, t);
    }
  }

  /** Add the time since the last event, shared out over the running tasks. */
  method Accumulate(es: seq<Event>, k: nat, running: map<Target, real>, lastTime: real, was: real) returns (acc: real)
    requires k < |es| && running.Keys == Live(es, k)
    requires if k == 0 then was == 0.0 else was == Acc(es, k - 1) && lastTime == es[k - 1].time
    ensures acc == Acc(es, k)
  {
    acc := was;
    assert |running| == |running.Keys|;
    if |running| > 0 {
      acc := acc + (es[k].time - lastTime) / |running| as real;
    }
  }

  lemma StartRuns(es: seq<Event>, entries: seq<Target>, k: nat, running: map<Target, real>)
    requires Timeline(es, entries) && k < |es| && !es[k].stop && RunningIs(es, running, k)
    ensures RunningIs(es, running[es[k].who := Acc(es, k)], k + 1)
  {
    hide Acc;
    var t := es[k].who;
    assert es[k] in es && es[k] == StartOf(t);
    PosUnique(es, k);
  }

  lemma StopEnds(es: seq<Event>, entries: seq<Target>, k: nat, running: map<Target, real>)
    requires Timeline(es, entries) && k < |es| && es[k].stop && RunningIs(es, running, k)
    ensures es[k].who in entries && es[k] == StopOf(es[k].who) && Finish(es, es[k].who) == k
    ensures es[k].who in running <==> Begin(es, es[k].who) < k
    ensures RunningIs(es, running - {es[k].who}, k + 1)
  {
    hide Acc;
    var t := es[k].who;
    assert es[k] in es && es[k] == StopOf(t);
    PosUnique(es, k);
    LiveBeforeStop(es, entries, k, t);
  }

  lemma NotFinish(es: seq<Event>, entries: seq<Target>, k: nat)
    requires Timeline(es, entries) && k < |es| && !es[k].stop
    ensures forall t | t in entries :: Finish(es, t) != k
  {
    forall t | t in entries ensures Finish(es, t) != k {
      assert es[Finish(es, t)] == StopOf(t);
    }
  }

  lemma OnlyFinish(es: seq<Event>, entries: seq<Target>, k: nat)
    requires Timeline(es, entries) && k < |es|
    ensures forall t | t in entries && t != es[k].who :: Finish(es, t) != k
  {
    forall t | t in entries && t != es[k].who ensures Finish(es, t) != k {
      assert es[Finish(es, t)] == StopOf(t);
    }
  }

  /** Set the weighted duration of the build step that event `k` stops. */
  method Record(es: seq<Event>, ghost entries: seq<Target>, k: nat, w: real)
    requires Timeline(es, entries) && k < |es| && es[k].who in entries && es[k] == StopOf(es[k].who)
    requires Finish(es, es[k].who) == k && Begin(es, es[k].who) < k
    requires w == Acc(es, k) - Acc(es, Begin(es, es[k].who)) && Recorded(es, entries, k)
    modifies es[k].who
    ensures Recorded(es, entries, k + 1)
  {
    hide Acc, Sorted, Begin, Finish;
    OnlyFinish(es, entries, k);
    es[k].who.SetWeightedDuration(w);
  }

  lemma StoppedNext(es: seq<Event>, k: nat)
    requires k < |es|
    ensures Stopped(es, k + 1) == if es[k].stop then Stopped(es, k) + [es[k].who] else Stopped(es, k)
  {}

  lemma RunningAt(es: seq<Event>, running: map<Target, real>, k: nat, t: Target)
    requires k <= |es| && RunningIs(es, running, k)
    ensures running.Keys == Live(es, k)
    ensures t in running ==> StartOf(t) in es && running[t] == Acc(es, Begin(es, t))
  {}

  /** Scan all events.  A stop without a start is the dictionary's missing key. */
  method Sweep(es: seq<Event>, ghost entries: seq<Target>) returns (ok: bool, total: real)
    requires Timeline(es, entries) && es != []
    modifies entries
    ensures ok <==> Proper(entries)
    ensures ok ==> Recorded(es, entries, |es|)
    ensures ok ==> (forall t | t in Stopped(es, |es|) :: t in entries) && total == Growth(es, Stopped(es, |es|))
  {
    hide Acc, Live, Growth, Sorted, Begin, Finish, Stopped, RunningIs;
    var running: map<Target, real> := map[];
    var (lastTime, acc) := (es[0].time, 0.0);
    total := 0.0;
    EmptyStart(es);
    for k := 0 to |es|
      invariant RunningIs(es, running, k) && Recorded(es, entries, k)
      invariant if k == 0 then acc == 0.0 else acc == Acc(es, k - 1) && lastTime == es[k - 1].time
      invariant (forall t | t in Stopped(es, k) :: t in entries) && total == Growth(es, Stopped(es, k))
    {
      var t := es[k].who;
      StoppedNext(es, k);
      RunningAt(es, running, k, t);
      acc := Accumulate(es, k, running, lastTime, acc);
      if !es[k].stop {
        StartRuns(es, entries, k, running);
        NotFinish(es, entries, k);
        running := running[t := acc];
      } else {
        StopEnds(es, entries, k, running);
        StopAfterStart(es, entries, t);
        if t !in running {
          return false, total;
        }
        var w := acc - running[t];
        Record(es, entries, k, w);
        GrowthNext(es, Stopped(es, k), t);
        total := total + w;
        running := running - {t};
      }
      lastTime := es[k].time;
    }
    ok := true;
    forall t | t in entries ensures t.start <= t.end {
      StopAfterStart(es, entries, t);
    }
    NoneLeft(es, entries, running);
    assert |running| == 0;
  }

  /** After the last event nothing is running any more. */
  lemma NoneLeft(es: seq<Event>, entries: seq<Target>, running: map<Target, real>)
    requires Timeline(es, entries) && Proper(entries) && RunningIs(es, running, |es|)
    ensures running == map[]
  {
    hide Sorted, Live, Acc;
    forall t | t in running ensures false {
      LiveIff(es, entries, |es|, t);
      StopAfterStart(es, entries, t);
    }
  }

  lemma EmptyStart(es: seq<Event>)
    ensures RunningIs(es, map[], 0) && Stopped(es, 0) == [] && Growth(es, []) == 0.0
  {}

  lemma GrowthNext(es: seq<Event>, ts: seq<Target>, t: Target)
    requires forall u | u in ts + [t] :: StartOf(u) in es && StopOf(u) in es
    ensures forall u | u in ts :: u in ts + [t]
    ensures Growth(es, ts + [t]) == Growth(es, ts) + (Acc(es, Finish(es, t)) - Acc(es, Begin(es, t)))
  {
    assert (ts + [t])[..|ts|] == ts;
  }

  // ----- The report -----

  lemma {:induction false} GrowthIsShare(es: seq<Event>, entries: seq<Target>, ts: seq<Target>)
    requires Timeline(es, entries) && Proper(entries) && es != [] && forall t | t in ts :: t in entries
    ensures Growth(es, ts) == TotalShare(es, entries, ts, |es| - 1)
    decreases |ts|
  {
    hide Share, Acc, Sorted, Begin, Finish;
    if ts != [] {
      GrowthIsShare(es, entries, ts[..|ts| - 1]);
      ShareIsGrowth(es, entries, ts[|ts| - 1], |es| - 1);
    }
  }

  lemma {:induction false} TotalSplit(es: seq<Event>, entries: seq<Target>, a: seq<Target>, b: seq<Target>, n: nat)
    requires n < |es| && forall t | t in a + b :: t in entries
    ensures (forall t | t in a :: t in a + b) && (forall t | t in b :: t in a + b)
    ensures TotalShare(es, entries, a + b, n) == TotalShare(es, entries, a, n) + TotalShare(es, entries, b, n)
    decreases |b|
  {
    hide Share;
    if b == [] {
      assert a + b == a;
    } else {
      var b' := b[..|b| - 1];
      assert (a + b)[..|a + b| - 1] == a + b';
      assert forall t | t in a + b' :: t in a + b;
      TotalSplit(es, entries, a, b', n);
    }
  }

  lemma RemoveOne<T>(a: seq<T>, t: T, b: seq<T>, i: nat)
    requires multiset(a + [t]) == multiset(b) && i < |b| && b[i] == t
    ensures b == b[..i] + ([t] + b[i + 1..]) && multiset(a) == multiset(b[..i] + b[i + 1..])
  {
    assert b == b[..i] + ([t] + b[i + 1..]);
    assert multiset(a) == multiset(a + [t]) - multiset{t};
    assert multiset(b[..i] + b[i + 1..]) == multiset(b) - multiset{t};
  }

  /** The order in which shares are added up does not matter. */
  lemma {:induction false} TotalPermuted(es: seq<Event>, entries: seq<Target>, a: seq<Target>, b: seq<Target>, n: nat)
    requires n < |es| && multiset(a) == multiset(b) && forall t | t in a :: t in entries
    ensures forall t | t in b :: t in entries
    ensures TotalShare(es, entries, a, n) == TotalShare(es, entries, b, n)
    decreases |a|
  {
    hide TotalShare;
    forall t | t in b ensures t in entries {
      assert t in multiset(a);
    }
    if a == [] {
      assert |multiset(b)| == 0;
      assert b == [];
    } else {
      var (a', t) := (a[..|a| - 1], a[|a| - 1]);
      assert a == a' + [t];
      assert t in multiset(b);
      var i :| 0 <= i < |b| && b[i] == t;
      var b' := b[..i] + b[i + 1..];
      RemoveOne(a', t, b, i);
      TotalPermuted(es, entries, a', b', n);
      TotalSplit(es, entries, b[..i], [t] + b[i + 1..], n);
      TotalSplit(es, entries, [t], b[i + 1..], n);
      TotalSplit(es, entries, b[..i], b[i + 1..], n);
      TotalSplit(es, entries, a', [t], n);
    }
  }

  /** The times that the report adds up. */
  datatype Sums = Sums(length: real, weightedTotal: real, cpuTime: real)

  /** An error for want of events, for a stop without a start, or for dividing by a length of zero; or a report. */
  datatype Outcome =
    | NoEvents
    | StopWithoutStart
    | NoLength(sums: Sums)
    | Report(sums: Sums, parallelism: real, perSecond: real)

  /** Log times are never negative. */
  ghost predicate NonNegative(ts: seq<Target>) {
    forall t | t in ts :: 0.0 <= t.start && 0.0 <= t.end
  }

  /** `lo` and `hi` are the earliest start and the latest end of `ts`. */
  ghost predicate Span(ts: seq<Target>, lo: real, hi: real) {
    && (forall t | t in ts :: lo <= t.start && t.end <= hi)
    && (exists t :: t in ts && t.start == lo)
    && (exists t :: t in ts && t.end == hi)
  }

  /** The times collected so far. */
  ghost predicate Collected(ts: seq<Target>, raw: seq<Event>, lo: real, hi: real, cpu: real) {
    raw == EventsOf(ts) && cpu == CpuTime(ts) && EarliestIs(ts, lo) && LatestIs(ts, hi)
  }

  /** The entries after the last one that starts at a negative time: each such entry starts the search anew. */
  ghost function Unbroken(ts: seq<Target>): seq<Target> {
    if ts == [] || ts[|ts| - 1].start < 0.0 then [] else Unbroken(ts[..|ts| - 1]) + [ts[|ts| - 1]]
  }

  /** The earliest start, as the report computes it: any negative time stands for "none yet". */
  ghost predicate EarliestIs(ts: seq<Target>, lo: real) {
    if ts == [] then lo == -1.0
    else if ts[|ts| - 1].start < 0.0 then lo == ts[|ts| - 1].start
    else lo >= 0.0 && (forall t | t in Unbroken(ts) :: lo <= t.start) && exists t :: t in Unbroken(ts) && t.start == lo
  }

  /** The latest end, as the report computes it: 0 stands for "none yet". */
  ghost predicate LatestIs(ts: seq<Target>, hi: real) {
    hi >= 0.0 && (forall t | t in ts :: t.end <= hi) && (hi == 0.0 || exists t :: t in ts && t.end == hi)
  }

  lemma EarliestNext(ts: seq<Target>, t: Target, lo: real)
    requires EarliestIs(ts, lo)
    ensures EarliestIs(ts + [t], if lo < 0.0 || t.start < lo then t.start else lo)
  {
    assert (ts + [t])[..|ts|] == ts;
    if t.start >= 0.0 {
      assert Unbroken(ts + [t]) == Unbroken(ts) + [t];
      assert t in Unbroken(ts) + [t];
      if lo >= 0.0 {
        var u :| u in Unbroken(ts) && u.start == lo;
        assert u in Unbroken(ts) + [t];
      }
    }
  }

  lemma LatestNext(ts: seq<Target>, t: Target, hi: real)
    requires LatestIs(ts, hi)
    ensures LatestIs(ts + [t], if t.end > hi then t.end else hi)
  {
    assert t in ts + [t];
    if hi != 0.0 {
      var u :| u in ts && u.end == hi;
      assert u in ts + [t];
    }
  }

  method Collect(entries: seq<Target>) returns (raw: seq<Event>, lo: real, hi: real, cpu: real)
    ensures Collected(entries, raw, lo, hi, cpu)
  {
    assert Collected(entries[..0], [], -1.0, 0.0, 0.0) by { CollectNone(entries); }
    hide Collected;
    raw, lo, hi, cpu := [], -1.0, 0.0, 0.0;
    for i := 0 to |entries|
      invariant Collected(entries[..i], raw, lo, hi, cpu)
    {
      var t := entries[i];
      CollectNext(entries, i, raw, lo, hi, cpu);
      if lo < 0.0 || t.start < lo {
        lo := t.start;
      }
      if t.end > hi {
        hi := t.end;
      }
      cpu := cpu + t.Duration();
      raw := raw + [StartOf(t)] + [StopOf(t)];
    }
    assert entries[..|entries|] == entries;
  }

  lemma CollectNone(entries: seq<Target>)
    ensures Collected(entries[..0], [], -1.0, 0.0, 0.0)
  {}

  lemma CollectNext(entries: seq<Target>, i: nat, raw: seq<Event>, lo: real, hi: real, cpu: real)
    requires i < |entries| && Collected(entries[..i], raw, lo, hi, cpu)
    ensures var t := entries[i];
            Collected(entries[..i + 1], raw + [StartOf(t)] + [StopOf(t)],
                      if lo < 0.0 || t.start < lo then t.start else lo,
                      if t.end > hi then t.end else hi, cpu + t.Duration())
  {
    hide EarliestIs, LatestIs;
    var t := entries[i];
    var was := entries[..i];
    assert entries[..i + 1] == was + [t] && (was + [t])[..i] == was;
    EarliestNext(was, t, lo);
    LatestNext(was, t, hi);
  }

  lemma {:induction false} UnbrokenIn(ts: seq<Target>)
    ensures forall t | t in Unbroken(ts) :: t in ts && t.start >= 0.0
    ensures (forall t | t in ts :: t.start >= 0.0) ==> Unbroken(ts) == ts
  {
    if ts != [] {
      assert ts == ts[..|ts| - 1] + [ts[|ts| - 1]];
      UnbrokenIn(ts[..|ts| - 1]);
    }
  }

  /** The length of the build, as the report computes it. */
  ghost predicate LengthIs(ts: seq<Target>, length: real) {
    exists lo, hi :: EarliestIs(ts, lo) && LatestIs(ts, hi) && length == hi - lo
  }

  /** When that is the time from the earliest start `lo` to the latest end `hi`: if no time is negative, or if the
      last entry of the log happens to make up for it. */
  ghost predicate LengthRight(ts: seq<Target>, lo: real, hi: real)
    requires ts != []
  {
    var last := ts[|ts| - 1].start;
    if hi >= 0.0 then lo >= 0.0 || last == lo else last == lo - hi
  }

  lemma LatestOfSpan(ts: seq<Target>, lo: real, hi: real, latest: real)
    requires Span(ts, lo, hi) && LatestIs(ts, latest)
    ensures latest == if hi >= 0.0 then hi else 0.0
  {
    var u :| u in ts && u.end == hi;
  }

  lemma EarliestOfSpan(ts: seq<Target>, lo: real, hi: real, earliest: real)
    requires ts != [] && Span(ts, lo, hi) && EarliestIs(ts, earliest)
    ensures if lo >= 0.0 then earliest == lo else (ts[|ts| - 1].start < 0.0 ==> earliest == ts[|ts| - 1].start)
    ensures ts[|ts| - 1].start >= 0.0 ==> earliest >= 0.0
  {
    UnbrokenIn(ts);
    var t :| t in ts && t.start == lo;
    assert ts[|ts| - 1] in ts;
  }

  /** The computed length is the span of the log exactly then. */
  lemma LengthIff(ts: seq<Target>, lo: real, hi: real, length: real)
    requires ts != [] && Proper(ts) && Span(ts, lo, hi) && LengthIs(ts, length)
    ensures length == hi - lo <==> LengthRight(ts, lo, hi)
  {
    hide EarliestIs, LatestIs;
    var earliest, latest :| EarliestIs(ts, earliest) && LatestIs(ts, latest) && length == latest - earliest;
    LatestOfSpan(ts, lo, hi, latest);
    EarliestOfSpan(ts, lo, hi, earliest);
    assert ts[|ts| - 1] in ts;
  }

  /** A log in which it is not: the first step starts at -5 and the second at 0, so the search begins anew at 0. */
  lemma StartForgotten(a: Target, b: Target)
    requires a.start == -5.0 && a.end == 1.0 && b.start == 0.0 && b.end == 1.0
    ensures Span([a, b], -5.0, 1.0) && LengthIs([a, b], 1.0)
  {
    assert [a, b][..1] == [a];
    assert Unbroken([a, b]) == [b];
    assert EarliestIs([a, b], 0.0) by { assert b in Unbroken([a, b]); }
    assert a in [a, b] && b in [a, b];
    assert LatestIs([a, b], 1.0);
  }

  lemma SpanOfTimeline(es: seq<Event>, entries: seq<Target>)
    requires Timeline(es, entries) && Proper(entries) && es != [] && entries != []
    ensures Span(entries, es[0].time, es[|es| - 1].time)
  {
    hide Sorted;
    Extremes(es, entries);
  }

  lemma SameElements(a: seq<Target>, b: seq<Target>)
    requires forall t | t in a :: t in b
    requires forall t | t in b :: multiset(a)[t] == multiset(b)[t]
    ensures multiset(a) == multiset(b)
  {}

  /** Every entry was stopped exactly once, so the total is the sum over the entries. */
  lemma TotalIsBusy(es: seq<Event>, entries: seq<Target>)
    requires Timeline(es, entries) && Proper(entries) && Distinct(entries) && es != []
    ensures forall t | t in Stopped(es, |es|) :: t in entries
    ensures Growth(es, Stopped(es, |es|)) == TotalShare(es, entries, entries, |es| - 1) == BusyTime(es, entries, |es| - 1)
  {
    hide Sorted, Share, Growth, TotalShare, BusyTime, Stopped;
    var ts := Stopped(es, |es|);
    StoppedIn(es, entries, |es|);
    forall t | t in entries ensures multiset(ts)[t] == 1 == multiset(entries)[t] {
      CountOnce(entries, t);
      StoppedOk(es, entries, |es|, t);
      StopAfterStart(es, entries, t);
      assert t in multiset(entries);
    }
    SameElements(ts, entries);
    GrowthIsShare(es, entries, ts);
    TotalPermuted(es, entries, ts, entries, |es| - 1);
    Conservation(es, entries, |es| - 1);
  }

  lemma SomeEvents(entries: seq<Target>)
    ensures SortEvents(EventsOf(entries)) == [] <==> entries == []
  {
    SortEventsSorts(EventsOf(entries));
    assert |multiset(EventsOf(entries))| == |EventsOf(entries)|;
    assert |multiset(SortEvents(EventsOf(entries)))| == |SortEvents(EventsOf(entries))|;
  }

  /** Every task got its share, between nothing and its duration; the shares add up to the time during which
      something ran, and the elapsed times to each moment counted once for every task running; the former is the span of the log exactly when something ran all the time; and the length reported is
      that span exactly when `LengthRight` says so, as it does if no time is negative. */
  ghost predicate Attributed(entries: seq<Target>, r: Sums)
    requires entries != []
    reads entries
  {
    SomeEvents(entries);
    var es := SortEvents(EventsOf(entries));
    && (forall t | t in entries :: t.weighted == Share(es, entries, t, |es| - 1) && 0.0 <= t.weighted <= t.Duration())
    && r.weightedTotal == TotalShare(es, entries, entries, |es| - 1) == BusyTime(es, entries, |es| - 1)
    && r.cpuTime == Load(es, entries, |es| - 1)
    && var (lo, hi) := (es[0].time, es[|es| - 1].time);
       && Span(entries, lo, hi)
       && (r.weightedTotal == hi - lo <==> NeverIdle(entries, lo, hi))
       && LengthIs(entries, r.length)
       && (r.length == hi - lo <==> LengthRight(entries, lo, hi))
       && (NonNegative(entries) ==> LengthRight(entries, lo, hi))
  }

  lemma RecordedShares(es: seq<Event>, entries: seq<Target>)
    requires Timeline(es, entries) && Proper(entries) && es != [] && Recorded(es, entries, |es|)
    ensures forall t | t in entries :: t.weighted == Share(es, entries, t, |es| - 1) && 0.0 <= t.weighted <= t.Duration()
  {
    hide Sorted, Share, Acc;
    forall t | t in entries ensures t.weighted == Share(es, entries, t, |es| - 1) && 0.0 <= t.weighted <= t.Duration() {
      StopAfterStart(es, entries, t);
      ShareIsGrowth(es, entries, t, |es| - 1);
      ShareBounds(es, entries, t);
    }
  }

  /** No task ends after any of the starts that count: the report's length is zero. */
  ghost predicate NoTime(ts: seq<Target>)
    reads ts
  {
    ts != [] && ts[|ts| - 1].start >= 0.0 && forall t, u | t in Unbroken(ts) && u in ts :: u.end <= t.start
  }

  /** All tasks start and end at one and the same time. */
  ghost predicate OneInstant(ts: seq<Target>)
    reads ts
  {
    forall t, u | t in ts && u in ts :: t.start == u.end
  }

  lemma NoLengthIff(ts: seq<Target>, lo: real, hi: real)
    requires ts != [] && Proper(ts) && EarliestIs(ts, lo) && LatestIs(ts, hi)
    ensures hi - lo == 0.0 <==> NoTime(ts)
  {
    UnbrokenIn(ts);
    if ts[|ts| - 1].start >= 0.0 {
      var t :| t in Unbroken(ts) && t.start == lo;
      assert lo <= t.end <= hi;
    }
  }

  /** For times that are not negative, that is a log in which everything happens at one instant. */
  lemma NoTimeIff(ts: seq<Target>)
    requires ts != [] && Proper(ts) && NonNegative(ts)
    ensures NoTime(ts) <==> OneInstant(ts)
  {
    UnbrokenIn(ts);
    assert ts[|ts| - 1] in ts;
  }

  /** Attribute the build's time to its steps.  It fails for an empty log, if some task ends before it starts, and if
      the build takes no time at all; in the last case every task has its share already. */
  method SummarizeEntries(entries: seq<Target>) returns (r: Outcome)
    requires Distinct(entries)
    modifies entries
    ensures r.NoEvents? <==> entries == []
    ensures r.StopWithoutStart? <==> entries != [] && !Proper(entries)
    ensures r.Report? || r.NoLength? ==> entries != [] && Attributed(entries, r.sums)
    ensures r.NoLength? <==> entries != [] && Proper(entries) && NoTime(entries)
    ensures entries != [] && Proper(entries) && NonNegative(entries) ==> (r.NoLength? <==> OneInstant(entries))
    ensures r.NoLength? ==> r.sums.length == 0.0
    ensures r.Report? ==> r.sums.length != 0.0 && Product(r.parallelism, r.sums.length) == r.sums.cpuTime
                          && Product(r.perSecond, r.sums.length) == |entries| as real
  {
    hide Sorted, SortEvents, EventsOf, Share, TotalShare, BusyTime, Collected, NeverIdle, Span, Growth, Recorded, Timeline, OneInstant, NoTime, NonNegative,
         EarliestIs, LatestIs, LengthRight, Product, Load, CpuTime;
    var raw, lo, hi, cpu := Collect(entries);
    CollectedEvents(entries, raw, lo, hi, cpu);
    var es := SortEvents(raw);
    SomeEvents(entries);
    SortedTimeline(entries);
    if |es| == 0 {
      return NoEvents;
    }
    var ok, total := Sweep(es, entries);
    if !ok {
      return StopWithoutStart;
    }
    RecordedShares(es, entries);
    TotalIsBusy(es, entries);
    CpuTimeIsLoad(es, entries);
    SpanIffNeverIdle(es, entries);
    SpanOfTimeline(es, entries);
    LengthIff(entries, es[0].time, es[|es| - 1].time, hi - lo);
    NoLengthIff(entries, lo, hi);
    if NonNegative(entries) {
      NoTimeIff(entries);
      RightIfNonNegative(entries, es[0].time, es[|es| - 1].time);
    }
    r := Conclude(Sums(hi - lo, total, cpu), |entries|);
  }

  /** Divides by the length of the build, if it has any. */
  method Conclude(sums: Sums, steps: nat) returns (r: Outcome)
    ensures (r.NoLength? || r.Report?) && r.sums == sums && (r.NoLength? <==> sums.length == 0.0)
    ensures r.Report? ==> Product(r.parallelism, sums.length) == sums.cpuTime && Product(r.perSecond, sums.length) == steps as real
  {
    if sums.length == 0.0 { return NoLength(sums); }
    Divided(sums.cpuTime, sums.length);
    Divided(steps as real, sums.length);
    return Report(sums, sums.cpuTime / sums.length, steps as real / sums.length);
  }

  function Product(x: real, y: real): real { x * y }

  lemma Divided(x: real, y: real)
    requires y != 0.0
    ensures x / y * y == x
  {}

  lemma CollectedEvents(ts: seq<Target>, raw: seq<Event>, lo: real, hi: real, cpu: real)
    requires Collected(ts, raw, lo, hi, cpu)
    ensures raw == EventsOf(ts) && cpu == CpuTime(ts) && EarliestIs(ts, lo) && LatestIs(ts, hi)
  {}

  lemma RightIfNonNegative(ts: seq<Target>, lo: real, hi: real)
    requires ts != [] && NonNegative(ts) && Span(ts, lo, hi)
    ensures LengthRight(ts, lo, hi)
  {}
}
