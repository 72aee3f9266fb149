/** Requests whose chunks were planned for the kernel's block size: a state at every block boundary, in its block. */
module ScanServing {
  import opened Arithmetic
  import opened ScanRecurrence
  import opened ScanChunks
  import opened SelectiveScan
  import opened ChunkPlan
  import opened ScanCheckpoints

  /** The launch's metadata describe sequence `b` as planned for `batch`. */
  ghost predicate Planned(k: Launch, batch: Batch, b: nat) {
    && k.cache.Prefix? && Ready(k, b) && batch.Valid() && Follows(k.cache, batch)
    && b < |batch.computed| && BlocksOf(k.cache, b, batch.computed[b], batch.Tokens(b))
  }

  /** Different blocks of the sequence have different slots. */
  ghost predicate OwnSlots(k: Launch, b: nat)
    requires k.cache.Prefix? && Ready(k, b)
  {
    var slots := k.cache.indices[b];
    forall x, y | k.cache.blockFirst[b] <= x < y <= k.cache.blockLast[b] && y < |slots| :: slots[x] != slots[y]
  }

  lemma SlotsDiffer(k: Launch, b: nat, x: nat, y: nat)
    requires k.cache.Prefix? && Ready(k, b) && OwnSlots(k, b)
    requires k.cache.blockFirst[b] <= x < y <= k.cache.blockLast[b] < |k.cache.indices[b]|
    ensures k.cache.indices[b][x] != k.cache.indices[b][y]
  {}

  ghost function PlannedLens(k: Launch, batch: Batch, b: nat): seq<nat>
    requires Planned(k, batch, b)
  {
    StretchLens(k.cache.blockSize, Offset(k.cache.blockSize, batch.computed[b]), batch.Tokens(b))
  }

  /** The kernel scans the planned chunks. */
  lemma ScansThePlan(k: Launch, batch: Batch, b: nat)
    requires Planned(k, batch, b)
    ensures Lens(k, b) == PlannedLens(k, batch, b)
  {
    hide StretchLens, RequestLens, Offset;
    PlanSuitsKernel(k.cache, batch, b);
    PlainLens(batch, k.cache.blockSize, b);
    ReadsBackChunks(k.cache, b, batch.Lens(k.cache.blockSize, b));
  }

  /** Chunk `i` goes to the slot of block `blockFirst + i`, and the last one to that of `blockLast`. */
  lemma PlannedSlot(k: Launch, batch: Batch, b: nat, i: nat)
    requires Planned(k, batch, b) && ColumnsExist(k, b) && i < |Lens(k, b)|
    ensures var c := k.cache;
            && c.blockFirst[b] + i <= c.blockLast[b] < |c.indices[b]|
            && StoreSlots(k, b)[i] == c.indices[b][c.blockFirst[b] + i]
            && c.blockFirst[b] + |Lens(k, b)| - 1 == c.blockLast[b]
  {
    hide StretchLens, Offset, Sum, RequestLens, Follows;
    var c := k.cache;
    var n := |Lens(k, b)|;
    ScansThePlan(k, batch, b);
    PlannedColumn(c, b, batch.computed[b], batch.Tokens(b), i);
    PlannedColumn(c, b, batch.computed[b], batch.Tokens(b), n - 1);
    assert Column(c, b, Lens(k, b), n - 1) == c.blockLast[b];
    assert Column(c, b, ChunkLens(c, b), n - 1) < |c.indices[b]|;
  }

  /** So no two chunks are saved in one slot. */
  lemma PlannedDistinct(k: Launch, batch: Batch, b: nat)
    requires Planned(k, batch, b) && ColumnsExist(k, b) && OwnSlots(k, b)
    ensures Distinct(StoreSlots(k, b))
  {
    hide Follows, BlocksOf, ColumnsExist, StoreSlots, Lens, OwnSlots;
    var slots := StoreSlots(k, b);
    forall x, y | 0 <= x < y < |slots| ensures slots[x] != slots[y] {
      PlannedSlot(k, batch, b, x);
      PlannedSlot(k, batch, b, y);
      SlotsDiffer(k, b, k.cache.blockFirst[b] + x, k.cache.blockFirst[b] + y);
    }
  }

  /** The boundary at block `q` is crossed by sequence `b`. */
  ghost predicate Crosses(k: Launch, batch: Batch, b: nat, q: nat)
    requires Planned(k, batch, b)
  {
    batch.computed[b] < BlockStart(k.cache.blockSize, q) <= batch.computed[b] + batch.Tokens(b)
  }

  /** How many of the sequence's tokens lie before that boundary. */
  ghost function Before(k: Launch, batch: Batch, b: nat, q: nat): nat
    requires Planned(k, batch, b) && Crosses(k, batch, b, q)
  {
    BlockStart(k.cache.blockSize, q) - batch.computed[b]
  }

  /** The chunk that ends on a boundary is the one saved in the slot of the block that the boundary completes. */
  lemma BoundaryChunk(k: Launch, batch: Batch, b: nat, q: nat) returns (i: nat)
    requires Planned(k, batch, b) && ColumnsExist(k, b) && Crosses(k, batch, b, q)
    ensures i < |Lens(k, b)| && Sum(Lens(k, b)[..i + 1]) == Before(k, batch, b, q) <= Sum(Lens(k, b))
    ensures 0 < q <= |k.cache.indices[b]| && StoreSlots(k, b)[i] == k.cache.indices[b][q - 1]
  {
    hide StretchLens, Offset, Sum, RequestLens, Follows, StoreSlots, Lens, BlockStart, ColumnsExist;
    var (cs, computed, tokens) := (k.cache.blockSize, batch.computed[b], batch.Tokens(b));
    ScansThePlan(k, batch, b);
    EveryBoundary(cs, computed, tokens, q);
    i := q - computed / cs - 1;
    PlannedSlot(k, batch, b, i);
    SumPrefixBound(Lens(k, b), i + 1);
  }

  /** The row's first `n` tokens. */
  ghost function FirstTokens(k: Launch, b: nat, d: nat, deltas: seq<real>, n: nat): (toks: seq<Token>)
    requires Ready(k, b) && n <= |deltas|
    ensures Fits(ChannelOf(k, d), toks)
  {
    TokensOf(FeedOf(k, b, d), deltas)[..n]
  }

  /** After the program, the slot of the block that a boundary completes holds the plain recurrence's state after
      exactly the tokens before the boundary: for every boundary that the sequence crosses. */
  lemma BoundaryState(k: Launch, batch: Batch, b: nat, d: nat, j: Job, ssm: array3<real>, was: seq<seq<seq<real>>>, q: nat)
    requires Planned(k, batch, b) && ColumnsExist(k, b) && OwnSlots(k, b) && Crosses(k, batch, b, q)
    requires |j.deltas| == Sum(Lens(k, b)) && |j.init| == k.dstate && d < ssm.Length1 && Shaped(was, ssm) && SlotsExist(k, b, ssm)
    requires !Skipped(k, b) && StatesAre(ssm, was, d, SavedBy(k, b, d, j))
    ensures 0 < q <= |k.cache.indices[b]| && 0 <= k.cache.indices[b][q - 1] < ssm.Length0 && Before(k, batch, b, q) <= |j.deltas|
    ensures Contents(ssm)[k.cache.indices[b][q - 1]][d]
         == StateAfter(ChannelOf(k, d), j.init, FirstTokens(k, b, d, j.deltas, Before(k, batch, b, q)))
  {
    hide Follows, BlocksOf, StatesAre, SavedBy, Contents, Sum, Before, Crosses, StateAfter, TokensOf, FeedOf, Distinct, Lens, StoreSlots, OwnSlots, ColumnsExist;
    PlannedDistinct(k, batch, b);
    var i := BoundaryChunk(k, batch, b, q);
    assert StoreSlots(k, b)[i] in StoreSlots(k, b);
    ProgramCheckpoint(k, b, d, j, ssm, was, i);
  }

  /** The slot of the block that the boundary at block `q` completes. */
  function SlotBefore(k: Launch, b: nat, q: nat): int
    requires k.cache.Prefix? && Ready(k, b)
  {
    if 0 < q <= |k.cache.indices[b]| then k.cache.indices[b][q - 1] else k.nullBlock
  }

  function UpTo<T>(s: seq<T>, n: nat): seq<T> { if n <= |s| then s[..n] else s }

  /** A launch with one slot per sequence, or one whose chunks were planned, saves no two chunks in one slot. */
  ghost predicate Tidy(k: Launch, batch: Batch, b: nat) {
    Ready(k, b) && (k.cache.Prefix? ==> Planned(k, batch, b) && OwnSlots(k, b))
  }

  lemma TidyDistinct(k: Launch, batch: Batch, b: nat)
    requires Tidy(k, batch, b) && ColumnsExist(k, b)
    ensures Distinct(StoreSlots(k, b))
  {
    if k.cache.Prefix? { PlannedDistinct(k, batch, b); }
  }

  /**
   * Resuming is exact at every block boundary.  One request, planned for the kernel's block size, is scanned.  A
   * second request continues the tokens before any boundary that the first one crossed: it loads the state saved
   * for the block that the boundary completes and scans only its own tokens.  It gets the outputs, gated if it
   * has a gate, and reaches the state, of an uninterrupted scan.
   */
  method ServeAtBoundary(k1: Launch, batch1: Batch, b1: nat, k2: Launch, batch2: Batch, b2: nat, d: nat, r1: Row, r2: Row,
                         ssm: array3<real>, ghost q: nat)
    requires CanRun(k1, b1, d, r1, ssm) && CanRun(k2, b2, d, r2, ssm) && Apart(r1, r2)
    requires !Skipped(k1, b1) && !Skipped(k2, b2) && ChannelOf(k1, d) == ChannelOf(k2, d)
    requires Planned(k1, batch1, b1) && OwnSlots(k1, b1) && Tidy(k2, batch2, b2)
    requires Crosses(k1, batch1, b1, q) && Resumes(k2, b2) && LoadSlot(k2, b2) == SlotBefore(k1, b1, q)
    modifies r1.out, r1.outZ, r2.out, r2.outZ, ssm
    ensures Continues(k2, b2, d, r2, ssm, old(FirstState(k1, b1, d, r1, ssm)),
                      old(UpTo(RowTokens(k1, b1, d, r1), Before(k1, batch1, b1, q))),
                      old(RowTokens(k2, b2, d, r2)), old(RowGates(k2, b2, d, r2)))
  {
    hide Follows, BlocksOf, OwnSlots, Tidy, Before, Crosses, Sum, TokensOf, StateAfter, Outputs, Contents, FeedOf, Continues, Distinct,
         Lens, StoreSlots, ColumnsExist, RowTokens, RowGates, FirstState;
    ghost var i := BoundaryChunk(k1, batch1, b1, q);
    PlannedDistinct(k1, batch1, b1);
    TidyDistinct(k2, batch2, b2);
    PrefixIs(k1, b1, d, r1, i, Before(k1, batch1, b1, q));
    ServeFromCache(k1, b1, k2, b2, d, r1, r2, ssm, i);
  }

  lemma PrefixIs(k: Launch, b: nat, d: nat, r: Row, i: nat, n: nat)
    requires Ready(k, b) && RowOk(k, b, d, r) && i < |Lens(k, b)| && n == Sum(Lens(k, b)[..i + 1]) <= Sum(Lens(k, b))
    ensures RowPrefix(k, b, d, r, i) == RowTokens(k, b, d, r)[..n]
  {
    hide TokensOf, FeedOf, Lens, Sum;
  }
}
