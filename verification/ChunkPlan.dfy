/**
 * How a batch of prefills is cut into chunks: every chunk belongs to one request, and each request is cut
 * wherever its position is a multiple of the chunk size (and once more at a requested checkpoint).
 */
module ChunkPlan {
  import opened Arithmetic

  /** How far into its block a position lies. */
  function Offset(cs: nat, x: nat): (m: nat)
    requires cs > 0
    ensures m < cs
  {
    x % cs
  }

  /** Chunks of a stretch that starts on a chunk boundary. */
  function AlignedLens(cs: nat, tokens: nat): (r: seq<nat>)
    requires cs > 0
  {
    if tokens == 0 then [] else [Min(cs, tokens)] + AlignedLens(cs, tokens - Min(cs, tokens))
  }

  /** The chunk lengths of a stretch of `tokens` tokens that starts `m` tokens into a block. */
  function StretchLens(cs: nat, m: nat, tokens: nat): (r: seq<nat>)
    requires m < cs
  {
    if m == 0 then AlignedLens(cs, tokens)
    else [Min(cs - m, tokens)] + AlignedLens(cs, tokens - Min(cs - m, tokens))
  }

  /** The chunk lengths of a request: a checkpoint inside it splits it into two stretches. */
  function RequestLens(cs: nat, computed: nat, tokens: nat, ckpt: nat): (r: seq<nat>)
    requires cs > 0 && ckpt <= tokens
  {
    (if ckpt > 0 then StretchLens(cs, Offset(cs, computed), ckpt) else []) + StretchLens(cs, Offset(cs, computed + ckpt), tokens - ckpt)
  }

  lemma SumPrefixOfConcat(x: nat, b: seq<nat>, i: nat)
    requires i <= |b|
    ensures Sum(([x] + b)[..i + 1]) == x + Sum(b[..i])
  {
    assert ([x] + b)[..i + 1] == [x] + b[..i];
    SumConcat([x], b[..i]);
    assert Sum([x]) == x by { assert [x][..0] == []; }
  }

  /** The position where block `q` starts. */
  function BlockStart(cs: nat, q: nat): nat {
    if q == 0 then 0 else BlockStart(cs, q - 1) + cs
  }

  lemma {:induction false} BlockStartIsProduct(cs: nat, q: nat)
    ensures BlockStart(cs, q) == q * cs
  {
    if q > 0 {
      BlockStartIsProduct(cs, q - 1);
      assert (q - 1) * cs + cs == q * cs;
    }
  }

  lemma {:induction false} BlockStartSum(cs: nat, p: nat, q: nat)
    ensures BlockStart(cs, p + q) == BlockStart(cs, p) + BlockStart(cs, q)
  {
    if q > 0 {
      BlockStartSum(cs, p, q - 1);
    }
  }

  lemma BlockHolding(cs: nat, x: nat)
    requires cs > 0
    ensures x == BlockStart(cs, x / cs) + x % cs
  {
    BlockStartIsProduct(cs, x / cs);
  }

  /** Chunks of an aligned stretch cover it. */
  lemma {:induction false} AlignedTotal(cs: nat, tokens: nat)
    requires cs > 0
    ensures Sum(AlignedLens(cs, tokens)) == tokens && (tokens > 0 <==> |AlignedLens(cs, tokens)| > 0)
    decreases tokens
  {
    if tokens > 0 {
      var h := Min(cs, tokens);
      var t := AlignedLens(cs, tokens - h);
      AlignedTotal(cs, tokens - h);
      SumConcat([h], t);
      assert Sum([h]) == h by { assert [h][..0] == []; }
    }
  }

  /** Chunk `i` of an aligned stretch is non-empty and starts `i` whole chunks in. */
  lemma {:induction false} AlignedChunk(cs: nat, tokens: nat, i: nat)
    requires cs > 0 && i < |AlignedLens(cs, tokens)|
    ensures 0 < AlignedLens(cs, tokens)[i] <= cs && Sum(AlignedLens(cs, tokens)[..i]) == BlockStart(cs, i)
    decreases tokens
  {
    if i > 0 {
      var h := Min(cs, tokens);
      var t := AlignedLens(cs, tokens - h);
      AlignedChunk(cs, tokens - h, i - 1);
      SumPrefixOfConcat(h, t, i - 1);
    }
  }

  lemma StretchTotal(cs: nat, m: nat, tokens: nat)
    requires m < cs && tokens > 0
    ensures Sum(StretchLens(cs, m, tokens)) == tokens && |StretchLens(cs, m, tokens)| > 0
  {
    var h := if m == 0 then 0 else Min(cs - m, tokens);
    AlignedTotal(cs, tokens - h);
    SumConcat([h], AlignedLens(cs, tokens - h));
    assert Sum([h]) == h by { assert [h][..0] == []; }
  }

  /** Chunk `i` of a stretch is non-empty and no longer than the chunk size, and all but the first start
      where a block starts. */
  lemma StretchChunk(cs: nat, m: nat, tokens: nat, i: nat)
    requires m < cs && tokens > 0 && i < |StretchLens(cs, m, tokens)|
    ensures 0 < StretchLens(cs, m, tokens)[i] <= cs
    ensures i > 0 ==> m + Sum(StretchLens(cs, m, tokens)[..i]) == BlockStart(cs, i)
  {
    hide AlignedLens, Sum;
    var r := StretchLens(cs, m, tokens);
    if m == 0 {
      AlignedChunk(cs, tokens, i);
    } else {
      var h := Min(cs - m, tokens);
      var t := AlignedLens(cs, tokens - h);
      assert r == [h] + t;
      if i > 0 {
        AlignedTotal(cs, tokens - h);
        AlignedChunk(cs, tokens - h, i - 1);
        SumPrefixOfConcat(h, t, i - 1);
        assert r[i] == t[i - 1];
      }
    }
  }

  // ----- The planner -----

  function CeilDiv(x: nat, d: nat): nat
    requires d > 0
  {
    (x + d - 1) / d
  }

  /** One more chunk takes one off the chunk count. */
  lemma CeilDivStep(x: nat, d: nat)
    requires d > 0
    ensures x == 0 ==> CeilDiv(x, d) == 0
    ensures x > 0 ==> CeilDiv(x, d) == CeilDiv(x - Min(d, x), d) + 1
  {
    Quotient(d, 0, d - 1);
    if x > d {
      var y := x - 1;
      assert x + d - 1 == (y / d + 1) * d + y % d;
      Quotient(d, y / d + 1, y % d);
    } else if x > 0 {
      Quotient(d, 1, x - 1);
    }
  }

  /** Where consecutive chunks of the given lengths start, the first one at `pos`. */
  function Starts(pos: nat, lens: seq<nat>): (r: seq<nat>)
    ensures |r| == |lens|
    decreases |lens|
  {
    if lens == [] then [] else [pos] + Starts(pos + lens[0], lens[1..])
  }

  /** Cut a stretch that starts on a chunk boundary, after the chunks already in `cu0`. */
  method PlanAligned(cs: nat, tokens: nat, req: nat, cu0: seq<nat>, seqIdx0: seq<nat>, pos0: nat)
    returns (cu: seq<nat>, seqIdx: seq<nat>, pos: nat)
    requires cs > 0
    ensures cu == cu0 + Starts(pos0, AlignedLens(cs, tokens))
    ensures |seqIdx| - |seqIdx0| == |cu| - |cu0| && seqIdx0 <= seqIdx && forall i | |seqIdx0| <= i < |seqIdx| :: seqIdx[i] == req
    ensures pos == pos0 + tokens
  {
    hide CeilDiv;
    cu, seqIdx, pos := cu0, seqIdx0, pos0;
    var left := tokens;
    var n := CeilDiv(left, cs);
    for chunk := 0 to n
      invariant n - chunk == CeilDiv(left, cs) && pos + left == pos0 + tokens
      invariant |seqIdx| - |seqIdx0| == |cu| - |cu0| && seqIdx0 <= seqIdx && forall i | |seqIdx0| <= i < |seqIdx| :: seqIdx[i] == req
      invariant cu + Starts(pos, AlignedLens(cs, left)) == cu0 + Starts(pos0, AlignedLens(cs, tokens))
    {
      CeilDivStep(left, cs);
      seqIdx := seqIdx + [req];
      var len := Min(cs, left);
      assert AlignedLens(cs, left)[1..] == AlignedLens(cs, left - len);
      assert cu + Starts(pos, AlignedLens(cs, left)) == (cu + [pos]) + Starts(pos + len, AlignedLens(cs, left - len));
      cu := cu + [pos];
      pos := pos + len;
      left := left - len;
    }
    CeilDivStep(left, cs);
  }

  /** Cut a stretch of one request into chunks, after the chunks already in `cu0`. */
  method PlanStretch(cs: nat, computed: nat, tokens: nat, req: nat, cu0: seq<nat>, seqIdx0: seq<nat>, pos0: nat)
    returns (cu: seq<nat>, seqIdx: seq<nat>, pos: nat)
    requires cs > 0
    ensures cu == cu0 + Starts(pos0, StretchLens(cs, Offset(cs, computed), tokens))
    ensures |seqIdx| - |seqIdx0| == |cu| - |cu0| && seqIdx0 <= seqIdx && forall i | |seqIdx0| <= i < |seqIdx| :: seqIdx[i] == req
    ensures pos == pos0 + tokens
  {
    cu, seqIdx, pos := cu0, seqIdx0, pos0;
    var left := tokens;
    if computed % cs != 0 {
      seqIdx := seqIdx + [req];
      cu := cu + [pos];
      RoundUp(cs, computed);
      hide AlignedLens;
      var len := CeilDiv(computed, cs) * cs - computed;
      len := Min(len, left);
      pos := pos + len;
      left := left - len;
      assert StretchLens(cs, Offset(cs, computed), tokens) == [len] + AlignedLens(cs, left);
      assert ([len] + AlignedLens(cs, left))[1..] == AlignedLens(cs, left);
    }
    cu, seqIdx, pos := PlanAligned(cs, left, req, cu, seqIdx, pos);
  }

  /** The prefills to plan: tokens already computed, query boundaries, and checkpoint offsets (0 for none). */
  datatype Batch = Batch(computed: seq<nat>, queryStart: seq<nat>, ckpts: seq<nat>) {
    predicate Valid() {
      && |queryStart| == |computed| + 1 && |ckpts| == |computed|
      && forall r | 0 <= r < |computed| :: queryStart[r] + ckpts[r] <= queryStart[r + 1]
    }

    function Tokens(r: nat): nat
      requires Valid() && r < |computed|
    {
      queryStart[r + 1] - queryStart[r]
    }

    function Lens(cs: nat, r: nat): seq<nat>
      requires Valid() && r < |computed| && cs > 0
    {
      RequestLens(cs, computed[r], Tokens(r), ckpts[r])
    }

    /** The chunk lengths of the first `n` requests. */
    function AllLens(cs: nat, n: nat): seq<nat>
      requires Valid() && n <= |computed| && cs > 0
    {
      if n == 0 then [] else AllLens(cs, n - 1) + Lens(cs, n - 1)
    }

    function LastChunk(cs: nat, r: nat): int
      requires Valid() && r < |computed| && cs > 0
    {
      |AllLens(cs, r + 1)| - 1
    }

    /** The chunk that ends on request `r`'s checkpoint, or -1. */
    function CheckpointChunk(cs: nat, r: nat): int
      requires Valid() && r < |computed| && cs > 0
    {
      if ckpts[r] == 0 then -1 else |AllLens(cs, r)| + |StretchLens(cs, Offset(cs, computed[r]), ckpts[r])| - 1
    }
  }

  lemma {:induction false} StartsConcat(pos: nat, a: seq<nat>, b: seq<nat>)
    ensures Starts(pos, a + b) == Starts(pos, a) + Starts(pos + Sum(a), b)
    decreases |a|
  {
    if a == [] {
      assert a + b == b;
    } else {
      StartsConcat(pos + a[0], a[1..], b);
      assert (a + b)[1..] == a[1..] + b;
      assert a == [a[0]] + a[1..];
      SumConcat([a[0]], a[1..]);
      assert Sum([a[0]]) == a[0] by { assert [a[0]][..0] == []; }
    }
  }

  /** Chunks carry the index of their request. */
  ghost predicate Labelled(b: Batch, cs: nat, seqIdx: seq<nat>, n: nat)
    requires b.Valid() && n <= |b.computed| && cs > 0
  {
    && |seqIdx| == |b.AllLens(cs, n)|
    && forall r, i | 0 <= r < n && |b.AllLens(cs, r)| <= i < |b.AllLens(cs, r + 1)| && i < |seqIdx| :: seqIdx[i] == r
  }

  lemma LabelledNext(b: Batch, cs: nat, seqIdx0: seq<nat>, seqIdx: seq<nat>, n: nat)
    requires b.Valid() && n < |b.computed| && cs > 0 && Labelled(b, cs, seqIdx0, n)
    requires seqIdx0 <= seqIdx && |seqIdx| == |b.AllLens(cs, n + 1)|
    requires forall i | |seqIdx0| <= i < |seqIdx| :: seqIdx[i] == n
    ensures Labelled(b, cs, seqIdx, n + 1)
  {
    hide RequestLens, Offset;
    forall r, i | 0 <= r < n + 1 && |b.AllLens(cs, r)| <= i < |b.AllLens(cs, r + 1)| && i < |seqIdx|
      ensures seqIdx[i] == r
    {
      if r < n {
        AllLensGrow(b, cs, r + 1, n);
        assert seqIdx[i] == seqIdx0[i];
      }
    }
  }

  lemma {:induction false} AllLensGrow(b: Batch, cs: nat, m: nat, n: nat)
    requires b.Valid() && m <= n <= |b.computed| && cs > 0
    ensures b.AllLens(cs, m) <= b.AllLens(cs, n)
  {
    hide RequestLens, Offset;
    if m < n {
      AllLensGrow(b, cs, m, n - 1);
    }
  }

  lemma StretchSum(cs: nat, m: nat, tokens: nat)
    requires m < cs
    ensures Sum(StretchLens(cs, m, tokens)) == tokens
  {
    if tokens > 0 {
      StretchTotal(cs, m, tokens);
    } else if m > 0 {
      assert StretchLens(cs, m, 0) == [0] && [0][..0] == [];
    }
  }

  /** The stretch of a request before its checkpoint, and the stretch after it. */
  function HeadLens(cs: nat, b: Batch, r: nat): seq<nat>
    requires cs > 0 && b.Valid() && r < |b.computed|
  {
    if b.ckpts[r] > 0 then StretchLens(cs, Offset(cs, b.computed[r]), b.ckpts[r]) else []
  }

  function RestLens(cs: nat, b: Batch, r: nat): seq<nat>
    requires cs > 0 && b.Valid() && r < |b.computed|
  {
    StretchLens(cs, Offset(cs, b.computed[r] + b.ckpts[r]), b.Tokens(r) - b.ckpts[r])
  }

  lemma Glue(all: seq<nat>, head: seq<nat>, rest: seq<nat>)
    ensures Sum(all + (head + rest)) == Sum(all) + Sum(head) + Sum(rest)
    ensures Starts(0, all + (head + rest)) == Starts(0, all) + (Starts(Sum(all), head) + Starts(Sum(all) + Sum(head), rest))
  {
    hide Sum, Starts;
    SumConcat(head, rest);
    SumConcat(all, head + rest);
    StartsConcat(Sum(all), head, rest);
    StartsConcat(0, all, head + rest);
  }

  lemma HeadAndRest(cs: nat, b: Batch, r: nat)
    requires cs > 0 && b.Valid() && r < |b.computed|
    ensures b.Lens(cs, r) == HeadLens(cs, b, r) + RestLens(cs, b, r)
    ensures Sum(HeadLens(cs, b, r)) == b.ckpts[r] && Sum(RestLens(cs, b, r)) == b.Tokens(r) - b.ckpts[r]
  {
    hide Offset, StretchLens;
    StretchSum(cs, Offset(cs, b.computed[r]), b.ckpts[r]);
    StretchSum(cs, Offset(cs, b.computed[r] + b.ckpts[r]), b.Tokens(r) - b.ckpts[r]);
  }

  lemma RequestStarts(cs: nat, b: Batch, r: nat)
    requires cs > 0 && b.Valid() && r < |b.computed|
    ensures b.AllLens(cs, r + 1) == b.AllLens(cs, r) + (HeadLens(cs, b, r) + RestLens(cs, b, r))
    ensures Sum(b.AllLens(cs, r + 1)) == Sum(b.AllLens(cs, r)) + b.Tokens(r)
    ensures var pos := Sum(b.AllLens(cs, r));
            Starts(0, b.AllLens(cs, r + 1)) ==
            Starts(0, b.AllLens(cs, r)) + (Starts(pos, HeadLens(cs, b, r)) + Starts(pos + b.ckpts[r], RestLens(cs, b, r)))
  {
    hide Sum, Starts, HeadLens, RestLens, RequestLens;
    HeadAndRest(cs, b, r);
    Glue(b.AllLens(cs, r), HeadLens(cs, b, r), RestLens(cs, b, r));
  }

  /** What a request adds to the plan, stretch by stretch. */
  lemma RequestParts(cs: nat, b: Batch, r: nat, seqIdx: seq<nat>)
    requires cs > 0 && b.Valid() && r < |b.computed| && Labelled(b, cs, seqIdx, r)
    ensures |seqIdx| == |b.AllLens(cs, r)|
    ensures |b.AllLens(cs, r + 1)| == |b.AllLens(cs, r)| + |HeadLens(cs, b, r)| + |RestLens(cs, b, r)|
    ensures b.ckpts[r] == 0 ==> forall pos: nat :: Starts(pos, HeadLens(cs, b, r)) == []
    ensures b.ckpts[r] > 0 ==> HeadLens(cs, b, r) == StretchLens(cs, Offset(cs, b.computed[r]), b.ckpts[r])
    ensures RestLens(cs, b, r) == StretchLens(cs, Offset(cs, b.computed[r] + b.ckpts[r]), b.Tokens(r) - b.ckpts[r])
  {
    hide RequestLens, Offset, Sum, StretchLens;
    RequestStarts(cs, b, r);
  }

  /** Plan one request: its checkpoint stretch, if any, then the rest. */
  method PlanRequest(cs: nat, b: Batch, r: nat, cu0: seq<nat>, seqIdx0: seq<nat>, pos0: nat)
    returns (cu: seq<nat>, seqIdx: seq<nat>, pos: nat, ckptIdx: int)
    requires cs > 0 && b.Valid() && r < |b.computed|
    requires cu0 == Starts(0, b.AllLens(cs, r)) && pos0 == Sum(b.AllLens(cs, r)) && Labelled(b, cs, seqIdx0, r)
    ensures cu == Starts(0, b.AllLens(cs, r + 1)) && pos == Sum(b.AllLens(cs, r + 1)) == pos0 + b.Tokens(r)
    ensures Labelled(b, cs, seqIdx, r + 1)
    ensures ckptIdx == b.CheckpointChunk(cs, r)
  {
    hide Offset, RequestLens, Sum, Labelled, StretchLens, Starts, HeadLens, RestLens;
    RequestStarts(cs, b, r);
    RequestParts(cs, b, r, seqIdx0);
    cu, seqIdx, pos, ckptIdx := cu0, seqIdx0, pos0, -1;
    if b.ckpts[r] > 0 {
      cu, seqIdx, pos := PlanStretch(cs, b.computed[r], b.ckpts[r], r, cu, seqIdx, pos);
      ckptIdx := |cu| - 1;
    }
    assert cu == cu0 + Starts(pos0, HeadLens(cs, b, r));
    cu, seqIdx, pos := PlanStretch(cs, b.computed[r] + b.ckpts[r], b.Tokens(r) - b.ckpts[r], r, cu, seqIdx, pos);
    LabelledNext(b, cs, seqIdx0, seqIdx, r);
  }

  /** Cut every request of the batch into chunks. */
  method PlanChunks(cs: nat, b: Batch) returns (cu: seq<nat>, seqIdx: seq<nat>, last: seq<int>, ckptIdx: seq<int>)
    requires cs > 0 && b.Valid()
    ensures var all := b.AllLens(cs, |b.computed|);
            cu == Starts(0, all) + [Sum(all)] && Sum(all) + b.queryStart[0] == b.queryStart[|b.computed|]
    ensures Labelled(b, cs, seqIdx, |b.computed|)
    ensures |last| == |ckptIdx| == |b.computed|
    ensures forall r | 0 <= r < |last| :: last[r] == b.LastChunk(cs, r) && ckptIdx[r] == b.CheckpointChunk(cs, r)
  {
    hide Offset, RequestLens, StretchLens;
    cu, seqIdx, last, ckptIdx := [], [], [], [];
    var pos := 0;
    for r := 0 to |b.computed|
      invariant cu == Starts(0, b.AllLens(cs, r)) && pos == Sum(b.AllLens(cs, r)) && pos + b.queryStart[0] == b.queryStart[r]
      invariant Labelled(b, cs, seqIdx, r)
      invariant |last| == |ckptIdx| == r
      invariant forall q | 0 <= q < r :: last[q] == b.LastChunk(cs, q) && ckptIdx[q] == b.CheckpointChunk(cs, q)
    {
      var ckpt;
      cu, seqIdx, pos, ckpt := PlanRequest(cs, b, r, cu, seqIdx, pos);
      ckptIdx := ckptIdx + [ckpt];
      last := last + [|cu| - 1];
    }
    cu := cu + [pos];
  }
}
