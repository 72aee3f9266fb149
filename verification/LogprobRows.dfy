/**
 * Log-probabilities of a request, one dictionary per position, kept flat: one long list of rows, and for
 * each position the range of its rows.
 */
module LogprobRows {
  import opened Options

  datatype Logprob = Logprob(logprob: real, rank: Option<int>, token: Option<string>)

  /** A row: one token's entry at one position. */
  datatype Row = Row(id: int, info: Logprob)

  type Dict = map<int, Logprob>

  /** The dictionary built by inserting rows in order: of equal ids, the last wins. */
  function DictOf(rows: seq<Row>): Dict {
    if rows == [] then map[] else DictOf(rows[..|rows| - 1])[rows[|rows| - 1].id := rows[|rows| - 1].info]
  }

  /** What a container holds: rows, and a range of rows for every position. */
  datatype Flat = Flat(starts: seq<int>, ends: seq<int>, rows: seq<Row>)

  const EMPTY := Flat([], [], [])

  /** Ranges are in order, apart, and inside the list of rows. */
  ghost predicate Valid(f: Flat) {
    && |f.starts| == |f.ends|
    && (forall i | 0 <= i < |f.starts| :: 0 <= f.starts[i] <= f.ends[i] <= |f.rows|)
    && (forall i, j | 0 <= i < j < |f.starts| :: f.ends[i] <= f.starts[j])
  }

  /** The list of dictionaries that a container stands for. */
  ghost function View(f: Flat): (v: seq<Dict>)
    requires Valid(f)
    ensures |v| == |f.starts|
  {
    seq(|f.starts|, i requires 0 <= i < |f.starts| => DictOf(f.rows[f.starts[i]..f.ends[i]]))
  }

  // ----- Reading, as Python reads -----

  /** `s[i]`: negative indices count from the end, others out of range raise an error. */
  function PyIndex<T>(s: seq<T>, i: int): Option<T> {
    if 0 <= i < |s| then Some(s[i]) else if -|s| <= i < 0 then Some(s[i + |s|]) else None
  }

  /** Each element has two indices, `i` and `i - |s|`, and nothing has any other. */
  lemma TwoIndices<T>(s: seq<T>, i: int)
    ensures 0 <= i < |s| ==> PyIndex(s, i) == PyIndex(s, i - |s|) == Some(s[i])
    ensures i >= |s| || i + |s| < 0 ==> PyIndex(s, i) == None
  {}

  /** The dictionary of the rows `a` to `b`, each read by index; None if one of the reads raises an error. */
  function ReadRange(rows: seq<Row>, a: int, b: int): Option<Dict>
    decreases b - a
  {
    if b <= a then Some(map[])
    else
      match (ReadRange(rows, a, b - 1), PyIndex(rows, b - 1))
      case (Some(d), Some(r)) => Some(d[r.id := r.info])
      case _ => None
  }

  function Get(f: Flat, i: int): Option<Dict> {
    match (PyIndex(f.starts, i), PyIndex(f.ends, i))
    case (Some(a), Some(b)) => ReadRange(f.rows, a, b)
    case _ => None
  }

  lemma {:induction false} ReadRangeInside(rows: seq<Row>, a: nat, b: nat)
    requires a <= b <= |rows|
    ensures ReadRange(rows, a, b) == Some(DictOf(rows[a..b]))
    decreases b
  {
    if a < b {
      ReadRangeInside(rows, a, b - 1);
      assert rows[a..b][..b - a - 1] == rows[a..b - 1];
    }
  }

  /** Reading a sound container is reading the list, for every index, in range or not. */
  lemma GetIsIndex(f: Flat, i: int)
    requires Valid(f)
    ensures Get(f, i) == PyIndex(View(f), i)
  {
    hide DictOf, ReadRange;
    var k := if i < 0 then i + |f.starts| else i;
    if 0 <= k < |f.starts| { ReadRangeInside(f.rows, f.starts[k], f.ends[k]); }
  }

  /** The container reads, position by position, like the list. */
  ghost predicate ReadsLike(f: Flat, v: seq<Dict>) {
    |f.starts| == |v| && forall i | 0 <= i < |v| :: Get(f, i) == Some(v[i])
  }

  // ----- Appending -----

  function Append(f: Flat, rows: seq<Row>): Flat {
    Flat(f.starts + [|f.rows|], f.ends + [|f.rows| + |rows|], f.rows + rows)
  }

  lemma AppendView(f: Flat, rows: seq<Row>)
    requires Valid(f)
    ensures Valid(Append(f, rows)) && View(Append(f, rows)) == View(f) + [DictOf(rows)]
  {
    hide DictOf;
    var t := Append(f, rows);
    forall i | 0 <= i < |f.starts| ensures View(t)[i] == View(f)[i] {
      assert t.rows[t.starts[i]..t.ends[i]] == f.rows[f.starts[i]..f.ends[i]];
    }
    assert t.rows[t.starts[|f.starts|]..t.ends[|f.starts|]] == rows;
  }

  // ----- Slicing -----

  /** `start:stop:step`, each possibly left out. */
  datatype Slice = Slice(start: Option<int>, stop: Option<int>, step: Option<int>) {
    function Step(): int { if step.None? then 1 else step.value }

    /** A bound as the language resolves it for a list of `n` elements. */
    function Bound(b: Option<int>, n: nat, byDefault: int): int {
      var (low, high) := if Step() < 0 then (-1, n - 1) else (0, n);
      if b.None? then byDefault
      else
        var x := if b.value < 0 then b.value + n else b.value;
        if x < low then low else if x > high then high else x
    }

    function First(n: nat): int { Bound(start, n, if Step() < 0 then n - 1 else 0) }

    function Last(n: nat): int { Bound(stop, n, if Step() < 0 then -1 else n) }
  }

  /** The indices `first`, `first + step`, ... before `last`. */
  function Indices(first: int, last: int, step: int): (r: seq<int>)
    requires step != 0
    ensures forall i | 0 <= i < |r| :: if step > 0 then first <= r[i] < last else last < r[i] <= first
    ensures forall i, j | 0 <= i < j < |r| :: if step > 0 then r[i] < r[j] else r[j] < r[i]
    decreases if step > 0 then last - first else first - last
  {
    if (if step > 0 then first >= last else first <= last) then []
    else [first] + Indices(first + step, last, step)
  }

  /** The positions that a slice picks from a list of `n` elements. */
  function Picks(s: Slice, n: nat): (r: seq<int>)
    requires s.Step() != 0
    ensures forall i | 0 <= i < |r| :: 0 <= r[i] < n
    ensures forall i, j | 0 <= i < j < |r| :: if s.Step() > 0 then r[i] < r[j] else r[j] < r[i]
  {
    Indices(s.First(n), s.Last(n), s.Step())
  }

  /** What a bound `b` of a slice means for a list of `n` elements: -1 is the last position, -2 the one before it; what
      is before the list is cut to `low`, what is behind it to `high`. */
  ghost predicate Means(b: int, n: nat, low: int, high: int, x: int) {
    && (0 <= b <= high ==> x == b)
    && (0 <= b && b > high ==> x == high)
    && (b < 0 <= n + b ==> x == n + b)
    && (n + b < 0 ==> x == low)
  }

  /** The slice goes from `first` to before `last`: by default over the whole list, in the direction of the step. */
  ghost predicate Goes(s: Slice, n: nat, first: int, last: int) {
    var (low: int, high: int) := (if s.Step() > 0 then 0 else -1, if s.Step() > 0 then n as int else n - 1);
    && (s.start.None? ==> first == if s.Step() > 0 then 0 else n as int - 1)
    && (s.start.Some? ==> Means(s.start.value, n, low, high, first))
    && (s.stop.None? ==> last == if s.Step() > 0 then n else -1)
    && (s.stop.Some? ==> Means(s.stop.value, n, low, high, last))
  }

  function Times(k: int, step: int): int { k * step }

  lemma TimesNext(k: int, step: int)
    ensures Times(k + 1, step) == Times(k, step) + step && Times(0, step) == 0
  {}

  lemma TimesGrow(j: int, k: int, step: int)
    requires j <= k
    ensures if step >= 0 then Times(j, step) <= Times(k, step) else Times(k, step) <= Times(j, step)
  {}

  /** The way from `first` is over, and not before, when no step is left before `last`. */
  ghost predicate Steps(r: seq<int>, first: int, last: int, step: int) {
    && (forall i | 0 <= i < |r| :: r[i] == first + Times(i, step))
    && if step > 0 then first + Times(|r|, step) >= last else first + Times(|r|, step) <= last
  }

  lemma StepsNext(r: seq<int>, first: int, last: int, step: int)
    requires Steps(r, first + step, last, step)
    ensures Steps([first] + r, first, last, step)
  {
    hide Times;
    TimesNext(0, step);
    TimesNext(|r|, step);
    forall i | 0 < i < |r| + 1 ensures ([first] + r)[i] == first + Times(i, step) { TimesNext(i - 1, step); }
  }

  lemma {:induction false} IndicesAre(first: int, last: int, step: int)
    requires step != 0
    ensures Steps(Indices(first, last, step), first, last, step)
    decreases if step > 0 then last - first else first - last
  {
    if (if step > 0 then first >= last else first <= last) {
      TimesNext(0, step);
    } else {
      IndicesAre(first + step, last, step);
      hide Steps;
      StepsNext(Indices(first + step, last, step), first, last, step);
    }
  }

  /** Which positions a slice picks: those it meets on its way, every `step`-th one, and no others. */
  lemma PicksAre(s: Slice, n: nat, first: int, last: int)
    requires s.Step() != 0 && Goes(s, n, first, last)
    ensures var r := Picks(s, n);
            && (forall i | 0 <= i < |r| :: r[i] == first + Times(i, s.Step()))
            && forall x :: x in r <==>
                 (if s.Step() > 0 then first <= x < last else last < x <= first) && exists k: nat :: x == first + Times(k, s.Step())
  {
    hide Times;
    var (r, step) := (Picks(s, n), s.Step());
    assert s.First(n) == first && s.Last(n) == last;
    IndicesAre(first, last, step);
    forall x, k: nat | (if step > 0 then first <= x < last else last < x <= first) && x == first + Times(k, step) ensures x in r {
      if k >= |r| { TimesGrow(|r|, k, step); }
      assert r[k] == x;
    }
    forall x | x in r
      ensures (if step > 0 then first <= x < last else last < x <= first) && exists k: nat :: x == first + Times(k, step)
    {
      var i: nat :| i < |r| && r[i] == x;
      assert x == first + Times(i, step);
    }
  }

  /** `count` numbers from `a` on, up or down. */
  function Up(a: int, count: nat): seq<int> { seq(count, i => a + i) }

  function Down(a: int, count: nat): seq<int> { seq(count, i => a - i) }

  /** `[:]` picks everything, `[a:b]` the positions from `a` to before `b`, and `[-k:]` the last `k`. */
  lemma PicksPlain(n: nat, a: nat, b: nat, k: nat)
    requires a <= b <= n && 0 < k <= n
    ensures Picks(Slice(None, None, None), n) == Up(0, n)
    ensures Picks(Slice(Some(a), Some(b), None), n) == Up(a, b - a)
    ensures Picks(Slice(Some(-(k as int)), None, None), n) == Up(n - k, k)
  {
    PicksRun(Slice(None, None, None), n, 0, n);
    PicksRun(Slice(Some(a), Some(b), None), n, a, b);
    PicksRun(Slice(Some(-(k as int)), None, None), n, n - k, n);
  }

  lemma PicksRun(s: Slice, n: nat, first: nat, last: nat)
    requires s.step.None? && Goes(s, n, first, last) && first <= last <= n
    ensures Picks(s, n) == Up(first, last - first)
  {
    var r := Picks(s, n);
    PicksAre(s, n, first, last);
    assert forall i | 0 <= i < |r| :: r[i] == first + i;
    if r != [] { assert r[|r| - 1] in r; }
    if first < last {
      assert last - 1 == first + Times(last - 1 - first, 1);
      assert last - 1 in r;
    }
  }

  /** `[::-1]` picks everything, the last position first. */
  lemma PicksBackward(n: nat)
    ensures Picks(Slice(None, None, Some(-1)), n) == Down(n - 1, n)
  {
    var r := Picks(Slice(None, None, Some(-1)), n);
    PicksAre(Slice(None, None, Some(-1)), n, n - 1, -1);
    assert forall i | 0 <= i < |r| :: r[i] == n - 1 - i;
    if r != [] { assert r[|r| - 1] in r; }
    if n > 0 {
      assert 0 == n - 1 + Times(n - 1, -1);
      assert 0 in r;
    }
  }

  /** Slicing a list. */
  function Select<T>(v: seq<T>, picks: seq<int>): (r: seq<T>)
    requires forall i | 0 <= i < |picks| :: 0 <= picks[i] < |v|
    ensures |r| == |picks| && forall i | 0 <= i < |picks| :: r[i] == v[picks[i]]
  {
    seq(|picks|, i requires 0 <= i < |picks| => v[picks[i]])
  }

  function Shift(s: seq<int>, base: int): (r: seq<int>) {
    seq(|s|, i requires 0 <= i < |s| => s[i] - base)
  }

  /** `s[a:b]` for bounds that are not negative. */
  function Cut<T>(s: seq<T>, a: nat, b: nat): seq<T> {
    var hi := if b < |s| then b else |s|;
    if a <= hi then s[a..hi] else []
  }

  lemma CutRange(rows: seq<Row>, base: nat, end: nat, a: nat, b: nat)
    requires base <= a <= b <= end <= |rows|
    ensures |Cut(rows, base, end)| == end - base
    ensures Cut(rows, base, end)[a - base..b - base] == rows[a..b]
  {}

  /** Slicing a container: the picked ranges, shifted so that the first one starts at 0, over the rows from there
      to the end of the last one. */
  function SliceFlat(f: Flat, s: Slice): Flat
    requires |f.starts| == |f.ends| && s.Step() != 0
    requires forall i | 0 <= i < |f.starts| :: 0 <= f.starts[i] && 0 <= f.ends[i]
  {
    var picks := Picks(s, |f.starts|);
    if picks == [] then EMPTY
    else
      var starts, ends := Select(f.starts, picks), Select(f.ends, picks);
      var base := starts[0];
      Flat(Shift(starts, base), Shift(ends, base), Cut(f.rows, base, ends[|ends| - 1]))
  }

  /** With a positive step, a picked position keeps its rows. */
  lemma ForwardPick(f: Flat, s: Slice, i: nat)
    requires Valid(f) && s.Step() > 0 && i < |Picks(s, |f.starts|)|
    ensures var (t, k) := (SliceFlat(f, s), Picks(s, |f.starts|)[i]);
            && |t.starts| == |t.ends| == |Picks(s, |f.starts|)|
            && 0 <= t.starts[i] <= t.ends[i] <= |t.rows|
            && t.rows[t.starts[i]..t.ends[i]] == f.rows[f.starts[k]..f.ends[k]]
  {
    hide DictOf, Indices, Cut;
    var picks := Picks(s, |f.starts|);
    var n := |picks|;
    assert i > 0 ==> picks[0] < picks[i];
    assert i < n - 1 ==> picks[i] < picks[n - 1];
    CutRange(f.rows, f.starts[picks[0]], f.ends[picks[n - 1]], f.starts[picks[i]], f.ends[picks[i]]);
  }

  lemma ForwardApart(f: Flat, s: Slice, i: nat, j: nat)
    requires Valid(f) && s.Step() > 0 && i < j < |Picks(s, |f.starts|)|
    ensures SliceFlat(f, s).ends[i] <= SliceFlat(f, s).starts[j]
  {
    hide Indices, Cut;
    assert Picks(s, |f.starts|)[i] < Picks(s, |f.starts|)[j];
  }

  /** With a positive step, slicing a sound container gives a sound container for the sliced list. */
  lemma ForwardSlice(f: Flat, s: Slice)
    requires Valid(f) && s.Step() > 0
    ensures Valid(SliceFlat(f, s))
    ensures View(SliceFlat(f, s)) == Select(View(f), Picks(s, |f.starts|))
  {
    hide DictOf, Indices, SliceFlat, Picks;
    var (picks, t) := (Picks(s, |f.starts|), SliceFlat(f, s));
    assert |t.starts| == |t.ends| == |picks| by { SliceLength(f, s); }
    forall i | 0 <= i < |picks|
      ensures 0 <= t.starts[i] <= t.ends[i] <= |t.rows|
      ensures t.rows[t.starts[i]..t.ends[i]] == f.rows[f.starts[picks[i]]..f.ends[picks[i]]]
    {
      ForwardPick(f, s, i);
    }
    forall i, j | 0 <= i < j < |picks| ensures t.ends[i] <= t.starts[j] { ForwardApart(f, s, i, j); }
  }

  lemma SliceLength(f: Flat, s: Slice)
    requires Valid(f) && s.Step() != 0
    ensures |SliceFlat(f, s).starts| == |SliceFlat(f, s).ends| == |Picks(s, |f.starts|)|
  {}

  // ----- Negative steps -----

  /** No rows at any of the picked positions. */
  ghost predicate NothingThere(f: Flat, picks: seq<int>)
    requires Valid(f) && forall i | 0 <= i < |picks| :: 0 <= picks[i] < |f.starts|
  {
    forall i | 0 <= i < |picks| :: f.starts[picks[i]] == f.ends[picks[i]]
  }

  /** With a negative step the first picked range is the last one stored, so that no rows are kept as soon as two
      positions are picked. */
  lemma BackwardRows(f: Flat, s: Slice)
    requires Valid(f) && s.Step() < 0
    ensures |Picks(s, |f.starts|)| > 1 ==> SliceFlat(f, s).rows == []
  {
    hide Indices;
    var picks := Picks(s, |f.starts|);
    if |picks| > 1 { assert picks[|picks| - 1] < picks[0]; }
  }

  lemma {:induction false} NoRows(a: int, b: int)
    ensures ReadRange([], a, b) == if b <= a then Some(map[]) else None
    decreases b - a
  {
    if a < b { NoRows(a, b - 1); }
  }

  /** Slicing with a negative step agrees with slicing the list exactly when at most one position is picked, or
      none of the picked positions has any entry. */
  lemma BackwardSliceIff(f: Flat, s: Slice)
    requires Valid(f) && s.Step() < 0
    ensures var picks := Picks(s, |f.starts|);
            ReadsLike(SliceFlat(f, s), Select(View(f), picks)) <==> |picks| <= 1 || NothingThere(f, picks)
  {
    hide DictOf, Indices, ReadRange;
    var (picks, t) := (Picks(s, |f.starts|), SliceFlat(f, s));
    if |picks| == 1 {
      var k := picks[0];
      assert t.rows == f.rows[f.starts[k]..f.ends[k]];
      ReadRangeInside(t.rows, 0, |t.rows|);
      assert t.rows[0..|t.rows|] == t.rows;
    } else if |picks| > 1 {
      BackwardRows(f, s);
      BackwardReads(f, s);
    }
  }

  lemma BackwardReads(f: Flat, s: Slice)
    requires Valid(f) && s.Step() < 0 && |Picks(s, |f.starts|)| > 1 && SliceFlat(f, s).rows == []
    ensures var picks := Picks(s, |f.starts|);
            ReadsLike(SliceFlat(f, s), Select(View(f), picks)) <==> NothingThere(f, picks)
  {
    hide Indices, ReadRange;
    var (picks, t) := (Picks(s, |f.starts|), SliceFlat(f, s));
    forall i | 0 <= i < |picks|
      ensures Get(t, i) == (if f.starts[picks[i]] == f.ends[picks[i]] then Some(map[]) else None)
      ensures f.starts[picks[i]] == f.ends[picks[i]] ==> Select(View(f), picks)[i] == map[]
    {
      NoRows(t.starts[i], t.ends[i]);
    }
    if ReadsLike(t, Select(View(f), picks)) {
      forall i | 0 <= i < |picks| ensures f.starts[picks[i]] == f.ends[picks[i]] {
        assert Get(t, i) == Some(Select(View(f), picks)[i]);
      }
    }
  }

  // ----- Any history -----

  /** What can happen to a container: a position is added, or it is replaced by one of its forward slices. */
  datatype Edit = Add(rows: seq<Row>) | Take(s: Slice)

  function FlatAfter(edits: seq<Edit>): (f: Flat)
    requires forall i | 0 <= i < |edits| && edits[i].Take? :: edits[i].s.Step() > 0
    ensures |f.starts| == |f.ends| && forall i | 0 <= i < |f.starts| :: 0 <= f.starts[i] && 0 <= f.ends[i]
    decreases |edits|, 0
  {
    if edits == [] then EMPTY
    else
      var f := FlatAfter(edits[..|edits| - 1]);
      match edits[|edits| - 1]
      case Add(rows) => Append(f, rows)
      case Take(s) =>
        assert Valid(f) by { HistoryView(edits[..|edits| - 1]); }
        assert Valid(SliceFlat(f, s)) by { ForwardSlice(f, s); }
        SliceFlat(f, s)
  }

  function ListAfter(edits: seq<Edit>): seq<Dict>
    requires forall i | 0 <= i < |edits| && edits[i].Take? :: edits[i].s.Step() > 0
  {
    if edits == [] then []
    else
      var v := ListAfter(edits[..|edits| - 1]);
      match edits[|edits| - 1]
      case Add(rows) => v + [DictOf(rows)]
      case Take(s) => Select(v, Picks(s, |v|))
  }

  /** After any sequence of appends and (nested) forward slices, the container stands for the list that the same
      operations make. */
  lemma {:induction false} HistoryView(edits: seq<Edit>)
    requires forall i | 0 <= i < |edits| && edits[i].Take? :: edits[i].s.Step() > 0
    ensures Valid(FlatAfter(edits)) && View(FlatAfter(edits)) == ListAfter(edits)
    decreases |edits|, 1
  {
    hide DictOf, Picks;
    if edits != [] {
      var before := edits[..|edits| - 1];
      HistoryView(before);
      match edits[|edits| - 1]
      case Add(rows) => AppendView(FlatAfter(before), rows);
      case Take(s) => ForwardSlice(FlatAfter(before), s);
    }
  }
}
