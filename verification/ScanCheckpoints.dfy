/**
 * What the chunk plan and the kernel achieve together: states land in the block-table column of the block
 * they complete, and a request that starts from such a state gets the outputs of a scan from scratch.
 */
module ScanCheckpoints {
  import opened Arithmetic
  import opened Options
  import opened ScanRecurrence
  import opened ScanChunks
  import opened SelectiveScan
  import opened ChunkPlan

  lemma PositionInBlock(cs: nat, q: nat, x: nat)
    requires BlockStart(cs, q) <= x < BlockStart(cs, q) + cs
    ensures x / cs == q
  {
    hide BlockStart;
    BlockStartIsProduct(cs, q);
    Quotient(cs, q, x - BlockStart(cs, q));
  }

  /** Where chunk `i` of a planned request lies: it starts inside block `q + i` (at its first token, unless it
      is the request's first chunk) and ends inside it (at its last token, unless it is the last chunk). */
  lemma ChunkInBlock(cs: nat, q: nat, m: nat, tokens: nat, i: nat)
    requires m < cs && tokens > 0 && i < |StretchLens(cs, m, tokens)|
    ensures var lens := StretchLens(cs, m, tokens);
            var computed := BlockStart(cs, q) + m;
            && 0 < lens[i] <= cs
            && BlockStart(cs, q + i) <= computed + Sum(lens[..i])
            && computed + Sum(lens[..i]) + lens[i] <= BlockStart(cs, q + i) + cs
            && (i < |lens| - 1 ==> computed + Sum(lens[..i]) + lens[i] == BlockStart(cs, q + i) + cs)
  {
    var lens := StretchLens(cs, m, tokens);
    StretchChunk(cs, m, tokens, i);
    BlockStartSum(cs, q, i);
    if i < |lens| - 1 {
      StretchChunk(cs, m, tokens, i + 1);
      SumNext(lens, i);
      BlockStartSum(cs, q, i + 1);
    } else if i == 0 {
      SingleChunk(cs, m, tokens);
    }
  }

  lemma SingleChunk(cs: nat, m: nat, tokens: nat)
    requires m < cs && tokens > 0 && |StretchLens(cs, m, tokens)| == 1
    ensures StretchLens(cs, m, tokens) == [tokens] && m + tokens <= cs
  {
    if m > 0 {
      AlignedTotal(cs, tokens - Min(cs - m, tokens));
    } else {
      AlignedTotal(cs, tokens - Min(cs, tokens));
    }
  }

  /** Block indices of a request, as its first and last scheduled tokens determine them. */
  ghost predicate BlocksOf(c: Cache, b: nat, computed: nat, tokens: nat)
    requires c.Prefix? && c.blockSize > 0
  {
    && b < |c.blockFirst| && b < |c.blockLast| && tokens > 0
    && c.blockFirst[b] == computed / c.blockSize
    && c.blockLast[b] == (computed + tokens - 1) / c.blockSize
  }

  /** With planned chunks, the kernel's inferred position is right whenever it is used. */
  lemma PlannedPosition(c: Cache, b: nat, computed: nat, tokens: nat)
    requires c.Prefix? && c.blockSize > 0 && BlocksOf(c, b, computed, tokens)
    requires |StretchLens(c.blockSize, Offset(c.blockSize, computed), tokens)| > 1
    ensures FirstPosition(c, b, StretchLens(c.blockSize, Offset(c.blockSize, computed), tokens)) == computed
  {
    hide StretchLens;
    var (cs, q, m) := (c.blockSize, computed / c.blockSize, Offset(c.blockSize, computed));
    BlockHolding(cs, computed);
    BlockStartIsProduct(cs, q);
    ChunkInBlock(cs, q, m, tokens, 0);
    assert StretchLens(cs, m, tokens)[..0] == [];
  }

  /** Chunk `i` of a planned request is saved in column `blockFirst + i`: no two chunks share a column, and
      each but the last is saved in the column of the block whose last token it ends with. */
  lemma PlannedColumn(c: Cache, b: nat, computed: nat, tokens: nat, i: nat)
    requires c.Prefix? && c.blockSize > 0 && BlocksOf(c, b, computed, tokens)
    requires i < |StretchLens(c.blockSize, Offset(c.blockSize, computed), tokens)|
    ensures var lens := StretchLens(c.blockSize, Offset(c.blockSize, computed), tokens);
            && lens[i] > 0
            && Column(c, b, lens, i) == c.blockFirst[b] + i
            && (i < |lens| - 1 ==> computed + Sum(lens[..i + 1]) == (c.blockFirst[b] + i + 1) * c.blockSize)
  {
    hide StretchLens, Sum;
    var (cs, q, m) := (c.blockSize, computed / c.blockSize, Offset(c.blockSize, computed));
    var lens := StretchLens(cs, m, tokens);
    BlockHolding(cs, computed);
    ChunkInBlock(cs, q, m, tokens, i);
    SumNext(lens, i);
    PositionInBlock(cs, q + i, computed + Sum(lens[..i]) + lens[i] - 1);
    if i < |lens| - 1 {
      PlannedPosition(c, b, computed, tokens);
      BlockStartIsProduct(cs, q + i + 1);
    } else {
      StretchTotal(cs, m, tokens);
      assert lens[..i + 1] == lens;
    }
  }

  lemma {:induction false} BlockStartMono(cs: nat, a: nat, b: nat)
    requires a < b
    ensures BlockStart(cs, a) + cs <= BlockStart(cs, b)
  {
    if a < b - 1 {
      BlockStartMono(cs, a, b - 1);
    }
  }

  lemma NotBefore(cs: nat, a: nat, b: nat)
    requires cs > 0
    ensures BlockStart(cs, a) < BlockStart(cs, b) ==> a < b
    ensures BlockStart(cs, a) <= BlockStart(cs, b) ==> a <= b
  {
    if b < a {
      BlockStartMono(cs, b, a);
    }
  }

  /** A boundary crossed by a request belongs to one of the blocks its chunks complete. */
  lemma BoundaryIndex(cs: nat, q: nat, m: nat, tokens: nat, k: nat)
    requires m < cs && tokens > 0 && BlockStart(cs, q) + m < BlockStart(cs, k) <= BlockStart(cs, q) + m + tokens
    ensures var n := |StretchLens(cs, m, tokens)|;
            q < k <= q + n && (k == q + n ==> BlockStart(cs, k) == BlockStart(cs, q) + m + tokens)
  {
    hide StretchLens, Sum;
    var lens := StretchLens(cs, m, tokens);
    StretchTotal(cs, m, tokens);
    var n := |lens|;
    ChunkInBlock(cs, q, m, tokens, n - 1);
    SumNext(lens, n - 1);
    assert lens[..n] == lens;
    NotBefore(cs, q, k);
    NotBefore(cs, k, q + n);
  }

  /** A state can be retrieved at every block boundary: a chunk ends on each one the request crosses, the first
      chunk on the first one, and so on. */
  lemma EveryBoundary(cs: nat, computed: nat, tokens: nat, k: nat)
    requires cs > 0 && computed < BlockStart(cs, k) <= computed + tokens
    ensures var (i, lens) := (k - computed / cs, StretchLens(cs, Offset(cs, computed), tokens));
            0 < i <= |lens| && computed + Sum(lens[..i]) == BlockStart(cs, k)
  {
    hide StretchLens, Sum;
    var (q, m) := (computed / cs, Offset(cs, computed));
    var lens := StretchLens(cs, m, tokens);
    BlockHolding(cs, computed);
    StretchTotal(cs, m, tokens);
    var n := |lens|;
    BoundaryIndex(cs, q, m, tokens, k);
    if k - q == n {
      assert lens[..n] == lens;
    } else {
      StretchChunk(cs, m, tokens, k - q);
      BlockStartSum(cs, q, k - q);
    }
    assert 0 < k - q <= n && computed + Sum(lens[..k - q]) == BlockStart(cs, k);
  }

  // ----- The plan is what the kernel expects -----

  lemma {:induction false} StartsIndex(pos: nat, lens: seq<nat>, i: nat)
    requires i < |lens|
    ensures Starts(pos, lens)[i] == pos + Sum(lens[..i])
    decreases i
  {
    if i > 0 {
      StartsIndex(pos + lens[0], lens[1..], i - 1);
      assert lens[..i] == [lens[0]] + lens[1..][..i - 1];
      SumPrefixOfConcat(lens[0], lens[1..], i - 1);
      assert ([lens[0]] + lens[1..])[..i] == lens[..i];
    }
  }

  /** The chunk boundaries of `c` are those planned for `b`, without checkpoints and with work for every request. */
  ghost predicate Follows(c: Cache, b: Batch)
    requires c.Prefix? && c.blockSize > 0 && b.Valid()
  {
    var all := b.AllLens(c.blockSize, |b.computed|);
    && c.cuChunk == Starts(0, all) + [Sum(all)]
    && |c.lastChunk| == |b.computed|
    && (forall r | 0 <= r < |b.computed| :: c.lastChunk[r] == b.LastChunk(c.blockSize, r))
    && (forall r | 0 <= r < |b.computed| :: b.ckpts[r] == 0 && b.Tokens(r) > 0)
  }

  lemma BoundaryOf(c: Cache, b: Batch, i: nat)
    requires c.Prefix? && c.blockSize > 0 && b.Valid() && Follows(c, b)
    requires i <= |b.AllLens(c.blockSize, |b.computed|)|
    ensures |c.cuChunk| == |b.AllLens(c.blockSize, |b.computed|)| + 1
    ensures c.cuChunk[i] == Sum(b.AllLens(c.blockSize, |b.computed|)[..i])
  {
    hide RequestLens, Sum;
    var all := b.AllLens(c.blockSize, |b.computed|);
    if i < |all| {
      StartsIndex(0, all, i);
    } else {
      assert all[..i] == all;
    }
  }

  lemma PlainLens(b: Batch, cs: nat, r: nat)
    requires cs > 0 && b.Valid() && r < |b.computed| && b.ckpts[r] == 0
    ensures b.Lens(cs, r) == StretchLens(cs, Offset(cs, b.computed[r]), b.Tokens(r))
  {
    hide StretchLens, Offset;
  }

  /** The kernel finds non-empty chunks of lengths `lens` for request `r`. */
  ghost predicate ReadsBack(c: Cache, r: nat, lens: seq<nat>)
    requires c.Prefix?
  {
    && r < |c.lastChunk| && |lens| > 0
    && FirstChunk(c, r) + |lens| == c.lastChunk[r] + 1 < |c.cuChunk|
    && forall i | 0 <= i < |lens| :: lens[i] > 0 && c.cuChunk[FirstChunk(c, r) + i + 1] == c.cuChunk[FirstChunk(c, r) + i] + lens[i]
  }

  /** The kernel reads back, for every request, exactly the chunks planned for it, and all of them hold tokens. */
  lemma PlanSuitsKernel(c: Cache, b: Batch, r: nat)
    requires c.Prefix? && c.blockSize > 0 && b.Valid() && Follows(c, b) && r < |b.computed|
    ensures ReadsBack(c, r, b.Lens(c.blockSize, r))
  {
    hide RequestLens, Sum, StretchLens, Offset;
    var cs := c.blockSize;
    var (all, lens) := (b.AllLens(cs, |b.computed|), b.Lens(cs, r));
    PlainLens(b, cs, r);
    StretchTotal(cs, Offset(cs, b.computed[r]), b.Tokens(r));
    AllLensGrow(b, cs, r + 1, |b.computed|);
    var first := |b.AllLens(cs, r)|;
    assert b.AllLens(cs, r + 1) == b.AllLens(cs, r) + lens;
    forall i | 0 <= i < |lens|
      ensures lens[i] > 0 && first + i + 1 < |c.cuChunk| && c.cuChunk[first + i + 1] == c.cuChunk[first + i] + lens[i]
    {
      StretchChunk(cs, Offset(cs, b.computed[r]), b.Tokens(r), i);
      BoundaryOf(c, b, first + i);
      BoundaryOf(c, b, first + i + 1);
      SumNext(all, first + i);
      assert all[first + i] == lens[i];
    }
    BoundaryOf(c, b, 0);
  }

  lemma ReadsBackChunks(c: Cache, r: nat, lens: seq<nat>)
    requires c.Prefix? && ReadsBack(c, r, lens) && ReadyPrefix(c, r)
    ensures ChunkLens(c, r) == lens
  {
    var got := ChunkLens(c, r);
    assert |got| == |lens|;
    assert forall i | 0 <= i < |got| :: got[i] == lens[i];
  }

  // ----- Checkpoints hold the states of the plain recurrence -----

  ghost predicate Distinct(slots: seq<int>) {
    forall a, b | 0 <= a < b < |slots| :: slots[a] != slots[b]
  }

  /** After the scan, the slot of chunk `i` holds the plain recurrence's state after that chunk's last token, unless
      a later chunk was saved there. */
  lemma {:induction false} CheckpointAt(f: Feed, init: seq<real>, deltas: seq<real>, lens: seq<nat>, slots: seq<int>, n: nat, i: nat)
    requires i < n <= |lens| == |slots| && Sum(lens) == |deltas| && |init| == |f.ch.A|
    requires forall x | i < x < n :: slots[x] != slots[i]
    ensures Sum(lens[..i + 1]) <= |deltas|
    ensures Latest(Saved(f, init, deltas, lens, slots, n), slots[i]) ==
            Some(StateAfter(f.ch, init, TokensOf(f, deltas)[..Sum(lens[..i + 1])]))
    decreases n
  {
    hide Sum, TokensOf, StateAfter;
    SumPrefixBound(lens, i + 1);
    SumPrefixBound(lens, n);
    var ws := Saved(f, init, deltas, lens, slots, n);
    if i < n - 1 {
      CheckpointAt(f, init, deltas, lens, slots, n - 1, i);
      assert ws[..n - 1] == Saved(f, init, deltas, lens, slots, n - 1);
      assert ws[n - 1].slot == slots[n - 1] != slots[i];
    }
  }

  /** The tokens that program (b, d) has scanned by the end of chunk `i`. */
  ghost function TokensUpTo(k: Launch, b: nat, d: nat, deltas: seq<real>, i: nat): (toks: seq<Token>)
    requires Ready(k, b) && i < |Lens(k, b)| && |deltas| == Sum(Lens(k, b))
    ensures Fits(ChannelOf(k, d), toks)
  {
    SumPrefixBound(Lens(k, b), i + 1);
    TokensOf(FeedOf(k, b, d), deltas)[..Sum(Lens(k, b)[..i + 1])]
  }

  lemma ProgramCheckpoint(k: Launch, b: nat, d: nat, j: Job, ssm: array3<real>, was: seq<seq<seq<real>>>, i: nat)
    requires Ready(k, b) && ColumnsExist(k, b) && |j.deltas| == Sum(Lens(k, b)) && |j.init| == k.dstate
    requires i < |Lens(k, b)| && Distinct(StoreSlots(k, b)) && d < ssm.Length1 && Shaped(was, ssm)
    requires 0 <= StoreSlots(k, b)[i] < ssm.Length0
    requires StatesAre(ssm, was, d, SavedBy(k, b, d, j))
    ensures Contents(ssm)[StoreSlots(k, b)[i]][d] == StateAfter(ChannelOf(k, d), j.init, TokensUpTo(k, b, d, j.deltas, i))
  {
    hide Sum, TokensOf, StateAfter, Lens, StoreSlots, FeedOf, Saved, Latest;
    CheckpointAt(FeedOf(k, b, d), j.init, j.deltas, Lens(k, b), StoreSlots(k, b), |Lens(k, b)|, i);
  }

  /** The tokens of a program whose row is `r`. */
  ghost function RowTokens(k: Launch, b: nat, d: nat, r: Row): (toks: seq<Token>)
    requires Ready(k, b) && RowOk(k, b, d, r)
    reads r.delta
    ensures Fits(ChannelOf(k, d), toks) && |toks| == Sum(Lens(k, b))
  {
    TokensOf(FeedOf(k, b, d), Cells(r.delta, r.base, Sum(Lens(k, b))))
  }

  /** The row of a finished program holds the outputs that a scan of `prefix` and the row's own tokens gives
      to the latter and, with a gate, those outputs gated by `zs`. */
  ghost predicate ServedAfter(r: Row, ch: Channel, init: seq<real>, prefix: seq<Token>, toks: seq<Token>, zs: seq<real>)
    requires r.Holds(|toks|) && |zs| == |toks| && |init| == |ch.A| && Fits(ch, prefix + toks)
    reads r.out, r.outZ
  {
    var ys := Outputs(ch, init, prefix + toks)[|prefix|..];
    && r.out[r.base..r.base + |toks|] == ys
    && (r.hasZ ==> r.outZ[r.zBase..r.zBase + |toks|] == GatedAll(ch.exp, ys, zs))
  }

  lemma ServedRow(f: Feed, r: Row, j: Job, init: seq<real>, prefix: seq<Token>)
    requires j.For(f) && j.Fits(r) && Scanned(r, j, |j.deltas|)
    requires |init| == |f.ch.A| && Fits(f.ch, prefix) && j.init == StateAfter(f.ch, init, prefix)
    ensures Fits(f.ch, prefix + TokensOf(f, j.deltas))
    ensures ServedAfter(r, f.ch, init, prefix, TokensOf(f, j.deltas), j.zs)
  {
    hide TokensOf, StateAfter, Outputs, GatedAll;
    ResumedOutputs(f.ch, init, prefix, TokensOf(f, j.deltas));
    assert r.out[r.base..r.base + |j.deltas|] == j.ys;
    assert r.hasZ ==> r.outZ[r.zBase..r.zBase + |j.deltas|] == j.gs;
  }

  /** The first program's buffers are not those of the second. */
  predicate Apart(r1: Row, r2: Row) {
    && r1.out != r2.delta && r1.out != r2.z && r1.out != r2.out && r1.out != r2.outZ
    && r1.outZ != r2.delta && r1.outZ != r2.z && r1.outZ != r2.out && r1.outZ != r2.outZ
  }

  /** The tokens of a row up to the end of its chunk `i`. */
  ghost function RowPrefix(k: Launch, b: nat, d: nat, r: Row, i: nat): (toks: seq<Token>)
    requires Ready(k, b) && RowOk(k, b, d, r) && i < |Lens(k, b)|
    reads r.delta
    ensures Fits(ChannelOf(k, d), toks)
  {
    TokensUpTo(k, b, d, Cells(r.delta, r.base, Sum(Lens(k, b))), i)
  }

  /** The gates of a program whose row is `r`. */
  ghost function RowGates(k: Launch, b: nat, d: nat, r: Row): (zs: seq<real>)
    requires Ready(k, b) && RowOk(k, b, d, r)
    reads r.z
    ensures |zs| == Sum(Lens(k, b))
  {
    var n := Sum(Lens(k, b));
    if r.hasZ then Cells(r.z, r.zBase, n) else Zeros(n)
  }

  /** The state that program (b, d) starts from. */
  ghost function FirstState(k: Launch, b: nat, d: nat, r: Row, ssm: array3<real>): seq<real>
    requires CanRun(k, b, d, r, ssm) && !Skipped(k, b)
    reads ssm
  {
    InitialState(k, b, d, Contents(ssm))
  }

  /** Program (b, d) left the outputs (gated by `zs`, if it has a gate), and saved the final state, of a scan of
      `prefix` and `toks` from `init`. */
  ghost predicate Continues(k: Launch, b: nat, d: nat, r: Row, ssm: array3<real>, init: seq<real>, prefix: seq<Token>,
                            toks: seq<Token>, zs: seq<real>)
    requires CanRun(k, b, d, r, ssm)
    reads r.out, r.outZ, ssm
  {
    && |toks| == |zs| == Sum(Lens(k, b)) && |init| == k.dstate && Fits(ChannelOf(k, d), prefix + toks)
    && ServedAfter(r, ChannelOf(k, d), init, prefix, toks, zs)
    && var slot := StoreSlots(k, b)[|Lens(k, b)| - 1];
       && 0 <= slot < ssm.Length0
       && Contents(ssm)[slot][d] == StateAfter(ChannelOf(k, d), init, prefix + toks)
  }

  /** A finished program that started from the state reached after `prefix`. */
  lemma ContinuesAfter(k: Launch, b: nat, d: nat, r: Row, j: Job, ssm: array3<real>, was: seq<seq<seq<real>>>,
                       init: seq<real>, prefix: seq<Token>)
    requires CanRun(k, b, d, r, ssm) && !Skipped(k, b) && Distinct(StoreSlots(k, b)) && Shaped(was, ssm)
    requires j.For(FeedOf(k, b, d)) && j.Fits(r) && |j.deltas| == Sum(Lens(k, b))
    requires |init| == k.dstate && Fits(ChannelOf(k, d), prefix) && j.init == StateAfter(ChannelOf(k, d), init, prefix)
    requires Scanned(r, j, |j.deltas|) && StatesAre(ssm, was, d, SavedBy(k, b, d, j))
    ensures Continues(k, b, d, r, ssm, init, prefix, TokensOf(FeedOf(k, b, d), j.deltas), j.zs)
  {
    hide Sum, TokensOf, StateAfter, Outputs, GatedAll, Scanned, StatesAre, SavedBy, Contents, FeedOf, Lens, StoreSlots, ServedAfter,
         Distinct, ChannelOf, ColumnsExist;
    ServedRow(FeedOf(k, b, d), r, j, init, prefix);
    LastSlot(k, b, d, r, ssm);
    FinalState(k, b, d, j, ssm, was, init, prefix);
  }

  lemma LastSlot(k: Launch, b: nat, d: nat, r: Row, ssm: array3<real>)
    requires CanRun(k, b, d, r, ssm) && !Skipped(k, b)
    ensures |Lens(k, b)| > 0 && |StoreSlots(k, b)| == |Lens(k, b)|
    ensures 0 <= StoreSlots(k, b)[|Lens(k, b)| - 1] < ssm.Length0
  {
    hide Sum, FeedOf, Lens, StoreSlots;
    assert StoreSlots(k, b)[|Lens(k, b)| - 1] in StoreSlots(k, b);
  }

  /** Its last save is the state after `prefix` and its own tokens. */
  lemma FinalState(k: Launch, b: nat, d: nat, j: Job, ssm: array3<real>, was: seq<seq<seq<real>>>,
                   init: seq<real>, prefix: seq<Token>)
    requires Ready(k, b) && ColumnsExist(k, b) && |j.deltas| == Sum(Lens(k, b)) && |j.init| == k.dstate
    requires Distinct(StoreSlots(k, b)) && d < ssm.Length1 && Shaped(was, ssm)
    requires |Lens(k, b)| > 0 && 0 <= StoreSlots(k, b)[|Lens(k, b)| - 1] < ssm.Length0
    requires StatesAre(ssm, was, d, SavedBy(k, b, d, j))
    requires |init| == k.dstate && Fits(ChannelOf(k, d), prefix) && j.init == StateAfter(ChannelOf(k, d), init, prefix)
    ensures var toks := TokensOf(FeedOf(k, b, d), j.deltas);
            && Fits(ChannelOf(k, d), prefix + toks)
            && Contents(ssm)[StoreSlots(k, b)[|Lens(k, b)| - 1]][d] == StateAfter(ChannelOf(k, d), init, prefix + toks)
  {
    hide Sum, TokensOf, StateAfter, Outputs, StatesAre, SavedBy, Contents, FeedOf, Lens, StoreSlots, Distinct;
    ProgramCheckpoint(k, b, d, j, ssm, was, |Lens(k, b)| - 1);
    WholeRow(k, b, d, j.deltas);
    StateAfterConcat(ChannelOf(k, d), init, prefix, TokensOf(FeedOf(k, b, d), j.deltas));
  }

  lemma WholeRow(k: Launch, b: nat, d: nat, deltas: seq<real>)
    requires Ready(k, b) && |deltas| == Sum(Lens(k, b))
    ensures TokensUpTo(k, b, d, deltas, |Lens(k, b)| - 1) == TokensOf(FeedOf(k, b, d), deltas)
  {
    hide FeedOf, Lens;
    assert Lens(k, b)[..|Lens(k, b)|] == Lens(k, b);
  }

  /**
   * One request is scanned and leaves a state behind at the end of its chunk `i`.  A second request, whose
   * prompt continues the tokens seen up to there, loads that state and scans only its own tokens.  It gets
   * the outputs, and reaches the state, of an uninterrupted scan of shared prefix and own tokens.
   */
  method ServeFromCache(k1: Launch, b1: nat, k2: Launch, b2: nat, d: nat, r1: Row, r2: Row, ssm: array3<real>, ghost i: nat)
    requires CanRun(k1, b1, d, r1, ssm) && CanRun(k2, b2, d, r2, ssm) && Apart(r1, r2)
    requires !Skipped(k1, b1) && !Skipped(k2, b2) && ChannelOf(k1, d) == ChannelOf(k2, d)
    requires i < |Lens(k1, b1)| && Distinct(StoreSlots(k1, b1)) && Distinct(StoreSlots(k2, b2))
    requires Resumes(k2, b2) && LoadSlot(k2, b2) == StoreSlots(k1, b1)[i]
    modifies r1.out, r1.outZ, r2.out, r2.outZ, ssm
    ensures Continues(k2, b2, d, r2, ssm, old(FirstState(k1, b1, d, r1, ssm)),
                      old(RowPrefix(k1, b1, d, r1, i)), old(RowTokens(k2, b2, d, r2)), old(RowGates(k2, b2, d, r2)))
  {
    hide Sum, TokensOf, StateAfter, Outputs, Scanned, StatesAre, SavedBy, Contents, FeedOf, Continues, TokensUpTo,
         Cells, JobOf, GatedAll, Lens, Distinct, ColumnsExist;
    ghost var was := Contents(ssm);
    ghost var j1 := JobOf(k1, b1, d, r1, was);
    ScanProgram(k1, b1, d, r1, ssm);
    ProgramCheckpoint(k1, b1, d, j1, ssm, was, i);
    ghost var mid := Contents(ssm);
    ghost var j2 := JobOf(k2, b2, d, r2, mid);
    ScanProgram(k2, b2, d, r2, ssm);
    ContinuesAfter(k2, b2, d, r2, j2, ssm, mid, j1.init, TokensUpTo(k1, b1, d, j1.deltas, i));
  }
}
