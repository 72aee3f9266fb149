/** The flat container with its six parallel lists, and the step that records the next position's entries. */
module FlatLogprobs {
  import opened Options
  import opened LogprobRows

  /** Of the rows with one id, the last one counts; ids that do not occur are not keys. */
  lemma {:induction false} LastWins(rows: seq<Row>, i: nat)
    requires i < |rows| && forall j | i < j < |rows| :: rows[j].id != rows[i].id
    ensures rows[i].id in DictOf(rows) && DictOf(rows)[rows[i].id] == rows[i].info
  {
    if i < |rows| - 1 { LastWins(rows[..|rows| - 1], i); }
  }

  lemma {:induction false} OnlyIds(rows: seq<Row>, id: int)
    ensures id in DictOf(rows) <==> exists i | 0 <= i < |rows| :: rows[i].id == id
  {
    if rows != [] {
      OnlyIds(rows[..|rows| - 1], id);
      assert forall i | 0 <= i < |rows| - 1 :: rows[..|rows| - 1][i] == rows[i];
    }
  }

  /** An iterable of decoded tokens, which may be endless. */
  datatype Tokens = Tokens(at: nat -> Option<string>, len: Option<nat>)

  function Shorter(a: nat, b: nat): nat { if a < b then a else b }

  /** How far zipping goes: to the end of the shortest. */
  function ZipLength(ids: nat, logprobs: nat, ranks: nat, tokens: Tokens): (n: nat)
    ensures n <= ids && n <= logprobs && n <= ranks && (tokens.len.Some? ==> n <= tokens.len.value)
    ensures n == ids || n == logprobs || n == ranks || tokens.len == Some(n)
  {
    var n := Shorter(Shorter(ids, logprobs), ranks);
    if tokens.len.Some? then Shorter(n, tokens.len.value) else n
  }

  function Zipped(ids: seq<int>, logprobs: seq<real>, ranks: seq<int>, tokens: Tokens): (rows: seq<Row>)
    ensures |rows| == ZipLength(|ids|, |logprobs|, |ranks|, tokens)
  {
    seq(ZipLength(|ids|, |logprobs|, |ranks|, tokens), i requires 0 <= i < ZipLength(|ids|, |logprobs|, |ranks|, tokens) =>
      Row(ids[i], Logprob(logprobs[i], Some(ranks[i]), tokens.at(i))))
  }

  /** The rows held by four columns of equal length. */
  function Rows(ids: seq<int>, logprobs: seq<real>, ranks: seq<Option<int>>, tokens: seq<Option<string>>): (r: seq<Row>)
    requires |ids| == |logprobs| == |ranks| == |tokens|
    ensures |r| == |ids|
  {
    seq(|ids|, i requires 0 <= i < |ids| => Row(ids[i], Logprob(logprobs[i], ranks[i], tokens[i])))
  }

  class Container {
    var starts: seq<int>
    var ends: seq<int>
    var ids: seq<int>
    var logprobs: seq<real>
    var ranks: seq<Option<int>>
    var tokens: seq<Option<string>>

    predicate Columns()
      reads this
    {
      |ids| == |logprobs| == |ranks| == |tokens|
    }

    ghost function Value(): Flat
      requires Columns()
      reads this
    {
      Flat(starts, ends, Rows(ids, logprobs, ranks, tokens))
    }

    ghost predicate Sound()
      reads this
    {
      Columns() && Valid(Value())
    }

    /** The list of dictionaries that this container stands for. */
    ghost function Dicts(): seq<Dict>
      requires Sound()
      reads this
    {
      View(Value())
    }

    constructor ()
      ensures Sound() && Value() == EMPTY && Dicts() == []
    {
      starts, ends, ids, logprobs, ranks, tokens := [], [], [], [], [], [];
    }

    constructor Of(starts: seq<int>, ends: seq<int>, ids: seq<int>, logprobs: seq<real>, ranks: seq<Option<int>>,
                   tokens: seq<Option<string>>)
      requires |ids| == |logprobs| == |ranks| == |tokens|
      ensures Columns() && Value() == Flat(starts, ends, Rows(ids, logprobs, ranks, tokens))
    {
      this.starts, this.ends, this.ids, this.logprobs, this.ranks, this.tokens := starts, ends, ids, logprobs, ranks, tokens;
    }

    method AddRow(row: Row)
      requires Columns()
      modifies `ids, `logprobs, `ranks, `tokens
      ensures Columns() && Value() == Flat(starts, ends, old(Value()).rows + [row])
    {
      ids, logprobs := ids + [row.id], logprobs + [row.info.logprob];
      ranks, tokens := ranks + [row.info.rank], tokens + [row.info.token];
    }

    /** One more position, from a dictionary's items in order, or from none. */
    method Append(items: Option<seq<Row>>)
      requires Sound()
      modifies this
      ensures Sound() && Dicts() == old(Dicts()) + [if items.None? then map[] else DictOf(items.value)]
    {
      hide DictOf, Rows;
      ghost var f := Value();
      var rows := if items.Some? then items.value else [];
      starts := starts + [|logprobs|];
      for i := 0 to |rows|
        invariant Columns() && Value() == Flat(f.starts + [|f.rows|], f.ends, f.rows + rows[..i])
      {
        AddRow(rows[i]);
        assert f.rows + rows[..i] + [rows[i]] == f.rows + rows[..i + 1];
      }
      assert f.rows + rows[..|rows|] == f.rows + rows;
      ends := ends + [|logprobs|];
      assert Value() == LogprobRows.Append(f, rows);
      AppendView(f, rows);
      EmptyDict();
    }

    /** One more position, from parallel lists, without building the dictionary. */
    method AppendFast(tokenIds: seq<int>, values: seq<real>, rankings: seq<int>, decoded: Tokens)
      requires Sound()
      modifies this
      ensures Sound() && Dicts() == old(Dicts()) + [DictOf(Zipped(tokenIds, values, rankings, decoded))]
    {
      hide DictOf, Rows;
      ghost var f := Value();
      ghost var rows := Zipped(tokenIds, values, rankings, decoded);
      starts := starts + [|logprobs|];
      var i := 0;
      while i < |tokenIds| && i < |values| && i < |rankings| && (decoded.len.None? || i < decoded.len.value)
        invariant 0 <= i <= |rows|
        invariant Columns() && Value() == Flat(f.starts + [|f.rows|], f.ends, f.rows + rows[..i])
      {
        AddRow(Row(tokenIds[i], Logprob(values[i], Some(rankings[i]), decoded.at(i))));
        assert f.rows + rows[..i] + [rows[i]] == f.rows + rows[..i + 1];
        i := i + 1;
      }
      assert i == |rows|;
      assert f.rows + rows[..|rows|] == f.rows + rows;
      ends := ends + [|logprobs|];
      assert Value() == LogprobRows.Append(f, rows);
      AppendView(f, rows);
    }

    /** Several more positions. */
    method Extend(positions: seq<Option<seq<Row>>>)
      requires Sound()
      modifies this
      ensures Sound() && Dicts() == old(Dicts()) + DictsOf(positions)
    {
      hide DictOf, Rows;
      for i := 0 to |positions|
        invariant Sound() && Dicts() == old(Dicts()) + DictsOf(positions)[..i]
      {
        Append(positions[i]);
        assert DictsOf(positions)[..i + 1] == DictsOf(positions)[..i] + [DictsOf(positions)[i]];
      }
      assert DictsOf(positions)[..|positions|] == DictsOf(positions);
    }

    method Length() returns (n: nat)
      requires Sound()
      ensures n == |Dicts()|
    {
      n := |starts|;
    }

    /** The entries at one position, or None for an index error; on any six lists it reads as `Get` does. */
    method GetItem(index: int) returns (d: Option<Dict>)
      requires Columns()
      ensures d == Get(Value(), index)
      ensures Sound() ==> d == PyIndex(Dicts(), index)
    {
      ghost var f := Value();
      if Sound() { GetIsIndex(f, index); }
      var (a, b) := (PyIndex(starts, index), PyIndex(ends, index));
      if a.None? || b.None? { return None; }
      d := Some(map[]);
      var i := a.value;
      while i < b.value
        invariant a.value <= i && (i <= b.value || i == a.value)
        invariant d.Some? && ReadRange(f.rows, a.value, i) == d
      {
        var id := PyIndex(ids, i);
        if id.None? {
          ErrorStays(f.rows, a.value, i + 1, b.value);
          return None;
        }
        var k := if i < 0 then i + |ids| else i;
        d := Some(d.value[id.value := Logprob(logprobs[k], ranks[k], tokens[k])]);
        i := i + 1;
      }
    }

    /** All positions in order. */
    method Iterate() returns (v: seq<Dict>)
      requires Sound()
      ensures v == Dicts()
    {
      hide DictOf, Rows;
      v := [];
      for i := 0 to |starts|
        invariant v == Dicts()[..i]
      {
        var d := GetItem(i);
        v := v + [d.value];
      }
    }

    /** A slice, as a new container; None for the error that a step of 0 raises.  With a positive step the new
        container stands for the sliced list, and so can be sliced and extended again. */
    method GetSlice(s: Slice) returns (r: Container?)
      requires Sound()
      ensures r == null <==> s.Step() == 0
      ensures r != null ==> fresh(r) && r.Columns() && r.Value() == SliceFlat(Value(), s)
      ensures r != null && s.Step() > 0 ==> r.Sound() && r.Dicts() == Select(Dicts(), Picks(s, |Dicts()|))
    {
      hide DictOf, Picks, View;
      if s.Step() == 0 { return null; }
      var picks := Picks(s, |starts|);
      if picks == [] {
        r := new Container();
      } else {
        var (low, high) := (Select(starts, picks)[0], Select(ends, picks)[|picks| - 1]);
        CutColumns(ids, logprobs, ranks, tokens, low, high);
        r := new Container.Of(
          Shift(Select(starts, picks), low), Shift(Select(ends, picks), low),
          Cut(ids, low, high), Cut(logprobs, low, high), Cut(ranks, low, high), Cut(tokens, low, high));
      }
      if s.Step() > 0 { ForwardSlice(Value(), s); }
    }
  }

  lemma CutColumns(ids: seq<int>, logprobs: seq<real>, ranks: seq<Option<int>>, tokens: seq<Option<string>>, a: nat, b: nat)
    requires |ids| == |logprobs| == |ranks| == |tokens|
    ensures |Cut(ids, a, b)| == |Cut(logprobs, a, b)| == |Cut(ranks, a, b)| == |Cut(tokens, a, b)|
    ensures Rows(Cut(ids, a, b), Cut(logprobs, a, b), Cut(ranks, a, b), Cut(tokens, a, b))
         == Cut(Rows(ids, logprobs, ranks, tokens), a, b)
  {}

  lemma EmptyDict()
    ensures DictOf([]) == map[]
  {}

  /** The list of dictionaries that a list of positions stands for; a missing one reads as empty. */
  function DictsOf(positions: seq<Option<seq<Row>>>): (r: seq<Dict>)
    ensures |r| == |positions|
  {
    seq(|positions|, i requires 0 <= i < |positions| => if positions[i].None? then map[] else DictOf(positions[i].value))
  }

  /** An error in a range stays an error however much longer the range is. */
  lemma {:induction false} ErrorStays(rows: seq<Row>, a: int, i: int, b: int)
    requires a <= i <= b && ReadRange(rows, a, i).None?
    ensures ReadRange(rows, a, b).None?
    decreases b - i
  {
    if i < b { ErrorStays(rows, a, i, b - 1); }
  }

  // ----- The next position -----

  /** The ranks of the next position: the sampled token's, then 1, 2, ... for the most likely ones. */
  function RanksFor(rank: int, logprobs: nat, requested: int): (r: seq<int>)
    ensures |r| == 1 + (if requested == -1 then logprobs else if requested > 0 then requested else 0)
    ensures r[0] == rank && forall i | 0 < i < |r| :: r[i] == i
  {
    var n := if requested == -1 then logprobs else if requested > 0 then requested else 0;
    [rank] + seq(n, i => i + 1)
  }

  /** What the next position's dictionary must be. */
  function NextEntry(ids: seq<int>, logprobs: seq<real>, tokens: Tokens, rank: int, requested: int): Dict {
    DictOf(Zipped(ids, logprobs, RanksFor(rank, |logprobs|, requested), tokens))
  }

  /** Recording the next position in a flat container and in a plain list has the same effect. */
  method AppendNextFlat(c: Container, ids: seq<int>, logprobs: seq<real>, tokens: Tokens, rank: int, requested: int)
    requires c.Sound()
    modifies c
    ensures c.Sound() && c.Dicts() == old(c.Dicts()) + [NextEntry(ids, logprobs, tokens, rank, requested)]
  {
    c.AppendFast(ids, logprobs, RanksFor(rank, |logprobs|, requested), tokens);
  }

  method AppendNextList(list: seq<Dict>, ids: seq<int>, logprobs: seq<real>, tokens: Tokens, rank: int, requested: int)
    returns (r: seq<Dict>)
    ensures r == list + [NextEntry(ids, logprobs, tokens, rank, requested)]
  {
    var ranks := RanksFor(rank, |logprobs|, requested);
    ghost var rows := Zipped(ids, logprobs, ranks, tokens);
    var d: Dict := map[];
    var i := 0;
    while i < |ids| && i < |logprobs| && i < |ranks| && (tokens.len.None? || i < tokens.len.value)
      invariant 0 <= i <= |rows|
      invariant d == DictOf(rows[..i])
    {
      d := d[ids[i] := Logprob(logprobs[i], Some(ranks[i]), tokens.at(i))];
      assert rows[..i + 1][..i] == rows[..i];
      i := i + 1;
    }
    assert rows[..i] == rows;
    r := list + [d];
  }
}
