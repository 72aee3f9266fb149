/**
 * The build-time report's sweep over start and stop events.  One running accumulator grows by elapsed time
 * divided by the number of running tasks; a task's weighted duration is the accumulator's growth while it ran.
 */
module NinjaSweep {

  /** A build step. */
  class Target {
    const start: real
    const end: real
    var weighted: real

    constructor (start: real, end: real)
      ensures this.start == start && this.end == end && weighted == 0.0
    {
      this.start, this.end, weighted := start, end, 0.0;
    }

    function Duration(): real { end - start }

    method SetWeightedDuration(w: real)
      modifies this
      ensures weighted == w
    {
      weighted := w;
    }
  }

  datatype Event = Event(time: real, stop: bool, who: Target)

  function StartOf(t: Target): Event { Event(t.start, false, t) }
  function StopOf(t: Target): Event { Event(t.end, true, t) }

  /** The sort key: by time, starts before stops. */
  predicate Before(a: Event, b: Event) {
    a.time < b.time || (a.time == b.time && (!a.stop || b.stop))
  }

  ghost predicate Sorted(es: seq<Event>) {
    forall i, j | 0 <= i < j < |es| :: Before(es[i], es[j])
  }

  ghost predicate Distinct<T>(s: seq<T>) {
    forall i, j | 0 <= i < j < |s| :: s[i] != s[j]
  }

  /** The two events of every entry, each once, in sorted order. */
  ghost predicate Timeline(es: seq<Event>, entries: seq<Target>) {
    && Sorted(es) && Distinct(es)
    && (forall t | t in entries :: StartOf(t) in es && StopOf(t) in es)
    && (forall e | e in es :: e.who in entries && (e == StartOf(e.who) || e == StopOf(e.who)))
  }

  ghost function Pos(es: seq<Event>, e: Event): (i: nat)
    requires e in es
    ensures i < |es| && es[i] == e
  {
    var i :| 0 <= i < |es| && es[i] == e; i
  }

  lemma PosUnique(es: seq<Event>, i: nat)
    requires Distinct(es) && i < |es|
    ensures Pos(es, es[i]) == i
  {
    var j := Pos(es, es[i]);
  }

  // ----- What the sweep computes -----

  /** The tasks running after the first `k` events. */
  ghost function Live(es: seq<Event>, k: nat): set<Target>
    requires k <= |es|
  {
    if k == 0 then {}
    else if es[k - 1].stop then Live(es, k - 1) - {es[k - 1].who}
    else Live(es, k - 1) + {es[k - 1].who}
  }

  /** Elapsed time per running task between events `g` and `g + 1`. */
  ghost function Rate(es: seq<Event>, g: nat): real
    requires g + 1 < |es|
  {
    var n := |Live(es, g + 1)|;
    if n > 0 then (es[g + 1].time - es[g].time) / n as real else 0.0
  }

  /** The accumulator when event `k` is handled. */
  ghost function Acc(es: seq<Event>, k: nat): real
    requires k < |es|
  {
    if k == 0 then 0.0 else Acc(es, k - 1) + Rate(es, k - 1)
  }

  // ----- Positions and liveness -----

  ghost function Begin(es: seq<Event>, t: Target): nat
    requires StartOf(t) in es
  {
    Pos(es, StartOf(t))
  }

  ghost function Finish(es: seq<Event>, t: Target): nat
    requires StopOf(t) in es
  {
    Pos(es, StopOf(t))
  }

  /** A task's stop event comes after its start event exactly when its end is not before its start. */
  lemma StopAfterStart(es: seq<Event>, entries: seq<Target>, t: Target)
    requires Timeline(es, entries) && t in entries
    ensures Begin(es, t) < Finish(es, t) <==> t.start <= t.end
    ensures Begin(es, t) != Finish(es, t) && Begin(es, t) < |es| && Finish(es, t) < |es|
  {
    var (b, f) := (Begin(es, t), Finish(es, t));
    assert es[b] == StartOf(t) && es[f] == StopOf(t);
    if f < b {
      assert Before(es[f], es[b]);
    } else if b < f {
      assert Before(es[b], es[f]);
    }
  }

  ghost predicate Proper(entries: seq<Target>) {
    forall t | t in entries :: t.start <= t.end
  }

  /** Running means started and not yet stopped. */
  lemma {:induction false} LiveIff(es: seq<Event>, entries: seq<Target>, k: nat, t: Target)
    requires Timeline(es, entries) && Proper(entries) && k <= |es|
    ensures t in Live(es, k) ==> t in entries
    ensures t in entries ==> (t in Live(es, k) <==> Begin(es, t) < k <= Finish(es, t))
  {
    if k > 0 {
      LiveIff(es, entries, k - 1, t);
      if t in entries {
        StopAfterStart(es, entries, t);
        PosUnique(es, k - 1);
      }
    }
  }

  // ----- The reference: what each task's share ought to be -----

  /** A task runs throughout the time from `a` to `b`. */
  predicate Covers(t: Target, a: real, b: real) { t.start <= a && b <= t.end }

  ghost function Covering(entries: seq<Target>, a: real, b: real): set<Target> {
    set t | t in entries && Covers(t, a, b)
  }

  /** A task's share of the time between events `g` and `g + 1`: the elapsed time, if it ran then, divided by
      the number of tasks that ran then. */
  ghost function GapShare(es: seq<Event>, entries: seq<Target>, t: Target, g: nat): real
    requires t in entries && g + 1 < |es|
  {
    var (a, b) := (es[g].time, es[g + 1].time);
    if Covers(t, a, b) then
      assert t in Covering(entries, a, b);
      (b - a) / |Covering(entries, a, b)| as real
    else 0.0
  }

  /** A task's share of the first `n` gaps. */
  ghost function Share(es: seq<Event>, entries: seq<Target>, t: Target, n: nat): real
    requires t in entries && n < |es|
  {
    if n == 0 then 0.0 else Share(es, entries, t, n - 1) + GapShare(es, entries, t, n - 1)
  }

  /** Across a positive gap, the tasks the sweep counts are those that cover the gap. */
  lemma LiveIsCovering(es: seq<Event>, entries: seq<Target>, g: nat)
    requires Timeline(es, entries) && Proper(entries) && g + 1 < |es| && es[g].time < es[g + 1].time
    ensures Live(es, g + 1) == Covering(entries, es[g].time, es[g + 1].time)
  {
    hide Live;
    var (l, c) := (Live(es, g + 1), Covering(entries, es[g].time, es[g + 1].time));
    forall t | t in l ensures t in c {
      LiveIff(es, entries, g + 1, t);
      Crossing(es, entries, t, g);
    }
    forall t | t in c ensures t in l {
      LiveIff(es, entries, g + 1, t);
      Crossing(es, entries, t, g);
    }
  }

  /** Across a positive gap, positions of events and times agree. */
  lemma Crossing(es: seq<Event>, entries: seq<Target>, t: Target, g: nat)
    requires Timeline(es, entries) && t in entries && g + 1 < |es| && es[g].time < es[g + 1].time
    ensures Begin(es, t) <= g <==> t.start <= es[g].time
    ensures g < Finish(es, t) <==> es[g + 1].time <= t.end
  {
    var (b, f) := (Begin(es, t), Finish(es, t));
    assert es[b] == StartOf(t) && es[f] == StopOf(t);
    TimeMono(es, b, g);
    TimeMono(es, g + 1, b);
    TimeMono(es, f, g);
    TimeMono(es, g + 1, f);
  }

  lemma TimeMono(es: seq<Event>, i: nat, j: nat)
    requires Sorted(es) && i < |es| && j < |es|
    ensures i <= j ==> es[i].time <= es[j].time
  {
    if i < j {
      assert Before(es[i], es[j]);
    }
  }

  /** A task's share of a gap is the sweep's rate while it runs, and nothing before or after. */
  lemma GapShareIsRate(es: seq<Event>, entries: seq<Target>, t: Target, g: nat)
    requires Timeline(es, entries) && Proper(entries) && t in entries && g + 1 < |es|
    ensures GapShare(es, entries, t, g) == if Begin(es, t) <= g < Finish(es, t) then Rate(es, g) else 0.0
  {
    hide Live, Begin, Finish;
    var (a, b) := (es[g].time, es[g + 1].time);
    TimeMono(es, g, g + 1);
    LiveIff(es, entries, g + 1, t);
    if a < b {
      LiveIsCovering(es, entries, g);
      Crossing(es, entries, t, g);
    } else {
      assert t in entries && Covers(t, a, b) ==> t in Covering(entries, a, b);
    }
  }

  /** The sweep's answer is the reference share. */
  lemma {:induction false} ShareIsGrowth(es: seq<Event>, entries: seq<Target>, t: Target, k: nat)
    requires Timeline(es, entries) && Proper(entries) && t in entries && k < |es|
    ensures Begin(es, t) < Finish(es, t) < |es|
    ensures Share(es, entries, t, k) ==
            if k <= Begin(es, t) then 0.0
            else if k <= Finish(es, t) then Acc(es, k) - Acc(es, Begin(es, t))
            else Acc(es, Finish(es, t)) - Acc(es, Begin(es, t))
  {
    hide GapShare, Rate, Live;
    StopAfterStart(es, entries, t);
    if k > 0 {
      ShareIsGrowth(es, entries, t, k - 1);
      GapShareIsRate(es, entries, t, k - 1);
    }
  }

  lemma RateBounds(es: seq<Event>, g: nat)
    requires Sorted(es) && g + 1 < |es|
    ensures 0.0 <= Rate(es, g) <= es[g + 1].time - es[g].time
  {
    hide Live;
    TimeMono(es, g, g + 1);
    var (n, gap) := (|Live(es, g + 1)|, es[g + 1].time - es[g].time);
    if n > 0 {
      Fraction(gap, n as real);
    }
  }

  lemma Fraction(x: real, n: real)
    requires x >= 0.0 && n >= 1.0
    ensures 0.0 <= x / n <= x
  {
    var y := x / n;
    assert y * n == x;
    assert y >= 0.0;
  }

  lemma {:induction false} GrowthBounds(es: seq<Event>, i: nat, j: nat)
    requires Sorted(es) && i <= j < |es|
    ensures 0.0 <= Acc(es, j) - Acc(es, i) <= es[j].time - es[i].time
    decreases j - i
  {
    hide Rate;
    if i < j {
      GrowthBounds(es, i, j - 1);
      RateBounds(es, j - 1);
    }
  }

  /** A task's weighted duration is between nothing and its whole duration. */
  lemma ShareBounds(es: seq<Event>, entries: seq<Target>, t: Target)
    requires Timeline(es, entries) && Proper(entries) && t in entries
    ensures |es| > 0 && 0.0 <= Share(es, entries, t, |es| - 1) <= t.Duration()
  {
    hide Share, Acc;
    ShareIsGrowth(es, entries, t, |es| - 1);
    GrowthBounds(es, Begin(es, t), Finish(es, t));
  }

  // ----- Conservation -----

  /** The shares of the tasks `ts` of the first `n` gaps, together. */
  ghost function TotalShare(es: seq<Event>, entries: seq<Target>, ts: seq<Target>, n: nat): real
    requires n < |es| && forall t | t in ts :: t in entries
  {
    if ts == [] then 0.0
    else TotalShare(es, entries, ts[..|ts| - 1], n) + Share(es, entries, ts[|ts| - 1], n)
  }

  /** The tasks' shares of gap `g`, together. */
  ghost function GapTotal(es: seq<Event>, entries: seq<Target>, ts: seq<Target>, g: nat): real
    requires g + 1 < |es| && forall t | t in ts :: t in entries
  {
    if ts == [] then 0.0
    else GapTotal(es, entries, ts[..|ts| - 1], g) + GapShare(es, entries, ts[|ts| - 1], g)
  }

  /** Time during which at least one task runs, within the first `n` gaps. */
  ghost function BusyTime(es: seq<Event>, entries: seq<Target>, n: nat): real
    requires n < |es|
  {
    if n == 0 then 0.0
    else BusyTime(es, entries, n - 1) +
         if exists t :: t in entries && Covers(t, es[n - 1].time, es[n].time) then es[n].time - es[n - 1].time else 0.0
  }

  lemma {:induction false} TotalSplits(es: seq<Event>, entries: seq<Target>, ts: seq<Target>, n: nat)
    requires 0 < n < |es| && forall t | t in ts :: t in entries
    ensures TotalShare(es, entries, ts, n) == TotalShare(es, entries, ts, n - 1) + GapTotal(es, entries, ts, n - 1)
    decreases |ts|
  {
    hide GapShare;
    if ts != [] {
      TotalSplits(es, entries, ts[..|ts| - 1], n);
    }
  }

  /** Each covering task gets the same fraction of a gap. */
  lemma {:induction false} GapTotalCounts(es: seq<Event>, entries: seq<Target>, ts: seq<Target>, g: nat, part: real)
    requires g + 1 < |es| && Distinct(ts) && forall t | t in ts :: t in entries
    requires forall t | t in ts && Covers(t, es[g].time, es[g + 1].time) :: GapShare(es, entries, t, g) == part
    ensures GapTotal(es, entries, ts, g) == |Covering(ts, es[g].time, es[g + 1].time)| as real * part
    decreases |ts|
  {
    hide GapShare, Covering;
    var (a, b) := (es[g].time, es[g + 1].time);
    CoveringGrows(ts, a, b);
    if ts != [] {
      var (init, t) := (ts[..|ts| - 1], ts[|ts| - 1]);
      GapTotalCounts(es, entries, init, g, part);
      NoShare(es, entries, t, g);
      OneMore(|Covering(init, a, b)|, part);
    }
  }

  lemma OneMore(n: nat, x: real)
    ensures (n + 1) as real * x == n as real * x + x
  {}

  lemma NoShare(es: seq<Event>, entries: seq<Target>, t: Target, g: nat)
    requires t in entries && g + 1 < |es|
    ensures !Covers(t, es[g].time, es[g + 1].time) ==> GapShare(es, entries, t, g) == 0.0
  {}

  lemma CoveringGrows(ts: seq<Target>, a: real, b: real)
    requires Distinct(ts)
    ensures ts == [] ==> |Covering(ts, a, b)| == 0
    ensures ts != [] ==>
              |Covering(ts, a, b)| == |Covering(ts[..|ts| - 1], a, b)| + if Covers(ts[|ts| - 1], a, b) then 1 else 0
  {
    if ts != [] {
      var (init, t) := (ts[..|ts| - 1], ts[|ts| - 1]);
      assert ts == init + [t] && t !in init;
      assert Covering(ts, a, b) == Covering(init, a, b) + if Covers(t, a, b) then {t} else {};
    }
  }

  /** The shares of a gap add up to the gap if anything runs then, and to nothing otherwise. */
  lemma GapConserved(es: seq<Event>, entries: seq<Target>, g: nat)
    requires g + 1 < |es| && Distinct(entries)
    ensures GapTotal(es, entries, entries, g) ==
            if exists t :: t in entries && Covers(t, es[g].time, es[g + 1].time) then es[g + 1].time - es[g].time else 0.0
  {
    var (a, b) := (es[g].time, es[g + 1].time);
    var c := Covering(entries, a, b);
    if t :| t in entries && Covers(t, a, b) {
      assert t in c;
      var part := (b - a) / |c| as real;
      GapTotalCounts(es, entries, entries, g, part);
      assert |c| as real * part == b - a;
    } else {
      assert c == {};
      GapTotalCounts(es, entries, entries, g, 0.0);
    }
  }

  /** The weighted durations of all tasks add up to the time during which at least one task runs. */
  lemma {:induction false} Conservation(es: seq<Event>, entries: seq<Target>, n: nat)
    requires n < |es| && Distinct(entries)
    ensures TotalShare(es, entries, entries, n) == BusyTime(es, entries, n)
  {
    hide GapTotal, Covers;
    if n == 0 {
      NoShareYet(es, entries, entries);
    } else {
      Conservation(es, entries, n - 1);
      TotalSplits(es, entries, entries, n);
      GapConserved(es, entries, n - 1);
    }
  }

  lemma {:induction false} NoShareYet(es: seq<Event>, entries: seq<Target>, ts: seq<Target>)
    requires 0 < |es| && forall t | t in ts :: t in entries
    ensures TotalShare(es, entries, ts, 0) == 0.0
    decreases |ts|
  {
    if ts != [] {
      NoShareYet(es, entries, ts[..|ts| - 1]);
    }
  }

  // ----- No idle time -----

  ghost predicate GapCovered(es: seq<Event>, entries: seq<Target>, g: nat)
    requires g + 1 < |es|
  {
    exists t :: t in entries && Covers(t, es[g].time, es[g + 1].time)
  }

  ghost predicate AllCovered(es: seq<Event>, entries: seq<Target>, n: nat)
    requires n < |es|
  {
    forall g: nat | g < n && es[g].time < es[g + 1].time :: GapCovered(es, entries, g)
  }

  /** Some task is running at every moment from `lo` to `hi`. */
  ghost predicate NeverIdle(entries: seq<Target>, lo: real, hi: real) {
    forall x: real | lo <= x < hi :: BusyAt(entries, x)
  }

  /** Some task is running at `x`. */
  ghost predicate BusyAt(entries: seq<Target>, x: real) {
    exists t :: t in entries && t.start <= x < t.end
  }

  lemma {:induction false} BusyWhenCovered(es: seq<Event>, entries: seq<Target>, n: nat)
    requires Sorted(es) && n < |es|
    ensures BusyTime(es, entries, n) <= es[n].time - es[0].time
    ensures BusyTime(es, entries, n) == es[n].time - es[0].time <==> AllCovered(es, entries, n)
  {
    hide Covers;
    if n > 0 {
      BusyWhenCovered(es, entries, n - 1);
      TimeMono(es, n - 1, n);
      assert GapCovered(es, entries, n - 1) <==> exists t :: t in entries && Covers(t, es[n - 1].time, es[n].time);
      assert AllCovered(es, entries, n) <==>
             AllCovered(es, entries, n - 1) && (es[n - 1].time < es[n].time ==> GapCovered(es, entries, n - 1));
    }
  }

  /** The gap in which a moment falls. */
  lemma {:induction false} FindGap(es: seq<Event>, x: real, n: nat) returns (g: nat)
    requires n < |es| && es[0].time <= x < es[n].time
    ensures g < n && es[g].time <= x < es[g + 1].time
  {
    if es[n - 1].time <= x {
      g := n - 1;
    } else {
      g := FindGap(es, x, n - 1);
    }
  }

  lemma CoveredNeverIdle(es: seq<Event>, entries: seq<Target>)
    requires es != [] && AllCovered(es, entries, |es| - 1)
    ensures NeverIdle(entries, es[0].time, es[|es| - 1].time)
  {
    forall x: real | es[0].time <= x < es[|es| - 1].time ensures BusyAt(entries, x) {
      var g := FindGap(es, x, |es| - 1);
      assert GapCovered(es, entries, g);
      var t :| t in entries && Covers(t, es[g].time, es[g + 1].time);
    }
  }

  lemma NeverIdleCovered(es: seq<Event>, entries: seq<Target>)
    requires Timeline(es, entries) && es != [] && NeverIdle(entries, es[0].time, es[|es| - 1].time)
    ensures AllCovered(es, entries, |es| - 1)
  {
    forall g: nat | g < |es| - 1 && es[g].time < es[g + 1].time ensures GapCovered(es, entries, g) {
      TimeMono(es, 0, g);
      TimeMono(es, g + 1, |es| - 1);
      assert BusyAt(entries, es[g].time);
      var t :| t in entries && t.start <= es[g].time < t.end;
      Crossing(es, entries, t, g);
      TimeMono(es, Finish(es, t), g);
      assert Covers(t, es[g].time, es[g + 1].time);
    }
  }

  /** The first event is the earliest start and the last event the latest end. */
  lemma Extremes(es: seq<Event>, entries: seq<Target>)
    requires Timeline(es, entries) && Proper(entries) && es != []
    ensures forall t | t in entries :: es[0].time <= t.start && t.end <= es[|es| - 1].time
    ensures exists t :: t in entries && t.start == es[0].time
    ensures exists t :: t in entries && t.end == es[|es| - 1].time
  {
    var last := |es| - 1;
    forall t | t in entries ensures es[0].time <= t.start && t.end <= es[last].time {
      TimeMono(es, 0, Begin(es, t));
      TimeMono(es, Finish(es, t), last);
    }
    var (a, z) := (es[0].who, es[last].who);
    StopAfterStart(es, entries, a);
    StopAfterStart(es, entries, z);
    PosUnique(es, 0);
    PosUnique(es, last);
  }

  /** The weighted durations add up to the whole span exactly when some task is running all the time. */
  lemma SpanIffNeverIdle(es: seq<Event>, entries: seq<Target>)
    requires Timeline(es, entries) && Distinct(entries) && es != []
    ensures TotalShare(es, entries, entries, |es| - 1) == es[|es| - 1].time - es[0].time <==>
            NeverIdle(entries, es[0].time, es[|es| - 1].time)
  {
    hide TotalShare, BusyTime, AllCovered, NeverIdle;
    Conservation(es, entries, |es| - 1);
    BusyWhenCovered(es, entries, |es| - 1);
    if AllCovered(es, entries, |es| - 1) {
      CoveredNeverIdle(es, entries);
    }
    if NeverIdle(entries, es[0].time, es[|es| - 1].time) {
      NeverIdleCovered(es, entries);
    }
  }
}
