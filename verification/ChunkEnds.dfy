/**
 * What the plan of a batch promises, in terms of the running totals it returns: a chunk ends on every checkpoint, on every
 * block boundary that a request crosses, and where the request ends; and no chunk spans two requests.
 */
module ChunkEnds {
  import opened Arithmetic
  import opened ChunkPlan
  import opened ScanCheckpoints

  /** The running totals of the whole plan, as the planner returns them. */
  ghost function Totals(b: Batch, cs: nat): (cu: seq<nat>)
    requires b.Valid() && cs > 0
    ensures |cu| == |b.AllLens(cs, |b.computed|)| + 1
  {
    var all := b.AllLens(cs, |b.computed|);
    Starts(0, all) + [Sum(all)]
  }

  lemma TotalIs(b: Batch, cs: nat, i: nat)
    requires b.Valid() && cs > 0 && i < |Totals(b, cs)|
    ensures Totals(b, cs)[i] == Sum(b.AllLens(cs, |b.computed|)[..i])
  {
    hide Sum, Starts;
    var all := b.AllLens(cs, |b.computed|);
    if i < |all| { StartsIndex(0, all, i); } else { assert all[..i] == all; }
  }

  /** Request `r` begins where the queries say. */
  lemma {:induction false} RequestBegins(b: Batch, cs: nat, r: nat)
    requires b.Valid() && cs > 0 && r <= |b.computed|
    ensures Sum(b.AllLens(cs, r)) + b.queryStart[0] == b.queryStart[r]
  {
    hide RequestLens, StretchLens, Starts, HeadLens, RestLens, Offset;
    if r > 0 {
      RequestBegins(b, cs, r - 1);
      RequestStarts(cs, b, r - 1);
    }
  }

  /** The total after `k` chunks of request `r`. */
  lemma TotalInRequest(b: Batch, cs: nat, r: nat, k: nat)
    requires b.Valid() && cs > 0 && r < |b.computed| && k <= |b.Lens(cs, r)|
    ensures var i := |b.AllLens(cs, r)| + k;
            && i <= |b.AllLens(cs, r + 1)| && i < |Totals(b, cs)|
            && Totals(b, cs)[i] + b.queryStart[0] == b.queryStart[r] + Sum(b.Lens(cs, r)[..k])
  {
    hide RequestLens, Sum, Totals;
    var (all, before, lens) := (b.AllLens(cs, |b.computed|), b.AllLens(cs, r), b.Lens(cs, r));
    var i := |before| + k;
    assert b.AllLens(cs, r + 1) == before + lens;
    AllLensGrow(b, cs, r + 1, |b.computed|);
    assert all[..i] == before + lens[..k];
    SumConcat(before, lens[..k]);
    RequestBegins(b, cs, r);
    TotalIs(b, cs, i);
  }

  /** Chunk `i` is one of request `r`'s, and ends `x` tokens into its query. */
  ghost predicate EndsOn(b: Batch, cs: nat, r: nat, i: int, x: nat)
    requires b.Valid() && cs > 0 && r < |b.computed|
  {
    && |b.AllLens(cs, r)| <= i < |b.AllLens(cs, r + 1)| && i + 1 < |Totals(b, cs)|
    && Totals(b, cs)[i + 1] == b.queryStart[r] - b.queryStart[0] + x
  }

  /** The checkpoint's chunk ends on the checkpoint. */
  lemma CheckpointEnds(b: Batch, cs: nat, r: nat)
    requires b.Valid() && cs > 0 && r < |b.computed|
    ensures if b.ckpts[r] > 0 then EndsOn(b, cs, r, b.CheckpointChunk(cs, r), b.ckpts[r]) else b.CheckpointChunk(cs, r) == -1
  {
    hide RequestLens, Sum, StretchLens, Offset, Totals;
    if b.ckpts[r] > 0 {
      var (head, rest) := (HeadLens(cs, b, r), RestLens(cs, b, r));
      HeadAndRest(cs, b, r);
      StretchTotal(cs, Offset(cs, b.computed[r]), b.ckpts[r]);
      assert b.Lens(cs, r)[..|head|] == head;
      TotalInRequest(b, cs, r, |head|);
    }
  }

  /** The last chunk of a request ends where the request ends. */
  lemma RequestEnds(b: Batch, cs: nat, r: nat)
    requires b.Valid() && cs > 0 && r < |b.computed| && b.Tokens(r) > 0
    ensures EndsOn(b, cs, r, b.LastChunk(cs, r), b.Tokens(r))
  {
    hide RequestLens, Sum, StretchLens, Totals, HeadLens, RestLens;
    var lens := b.Lens(cs, r);
    HeadAndRest(cs, b, r);
    SumConcat(HeadLens(cs, b, r), RestLens(cs, b, r));
    if lens == [] { EmptySum(lens); }
    assert lens[..|lens|] == lens;
    TotalInRequest(b, cs, r, |lens|);
  }

  lemma EmptySum(s: seq<nat>)
    ensures s == [] ==> Sum(s) == 0
  {}

  /** A state can be retrieved every `cs` tokens, whatever checkpoint there is: a chunk ends on each block boundary. */
  lemma BoundaryEnds(b: Batch, cs: nat, r: nat, q: nat) returns (i: nat)
    requires b.Valid() && cs > 0 && r < |b.computed|
    requires b.computed[r] < BlockStart(cs, q) <= b.computed[r] + b.Tokens(r)
    ensures EndsOn(b, cs, r, i, BlockStart(cs, q) - b.computed[r])
  {
    hide RequestLens, Sum, StretchLens, Totals, BlockStart, Offset, EndsOn;
    var (computed, ckpt, head, rest) := (b.computed[r], b.ckpts[r], HeadLens(cs, b, r), RestLens(cs, b, r));
    HeadAndRest(cs, b, r);
    var k: nat;
    if BlockStart(cs, q) <= computed + ckpt {
      EveryBoundary(cs, computed, ckpt, q);
      k := q - computed / cs;
      assert b.Lens(cs, r)[..k] == head[..k];
    } else {
      EveryBoundary(cs, computed + ckpt, b.Tokens(r) - ckpt, q);
      var j := q - (computed + ckpt) / cs;
      k := |head| + j;
      assert b.Lens(cs, r)[..k] == head + rest[..j];
      SumConcat(head, rest[..j]);
    }
    i := |b.AllLens(cs, r)| + k - 1;
    Ends(b, cs, r, k, BlockStart(cs, q) - computed);
  }

  lemma Ends(b: Batch, cs: nat, r: nat, k: nat, x: nat)
    requires b.Valid() && cs > 0 && r < |b.computed| && 0 < k <= |b.Lens(cs, r)| && Sum(b.Lens(cs, r)[..k]) == x
    ensures EndsOn(b, cs, r, |b.AllLens(cs, r)| + k - 1, x)
  {
    hide RequestLens, Sum, Totals;
    TotalInRequest(b, cs, r, k);
  }
}
