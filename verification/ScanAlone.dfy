/**
 * The interleaved launch and the program by itself agree: what a program of the grid has to do, read off the shared cells, is
 * what the sequential program does with its buffers.
 */
module ScanAlone {
  import opened Arithmetic
  import opened ScanRecurrence
  import opened ScanChunks
  import opened SelectiveScan
  import opened ScanGrid
  import opened ScanLaunch

  /** The cells hold the contents of the two token buffers and of the state tensor. */
  ghost predicate Shows(m: Memory, out: seq<real>, outZ: seq<real>, was: seq<seq<seq<real>>>) {
    && (forall a: nat | Cell(a) in m :: a < |out| && m[Cell(a)] == out[a])
    && (forall a: nat | GateCell(a) in m :: a < |outZ| && m[GateCell(a)] == outZ[a])
    && (forall s, j: nat, n: nat | StateCell(s, j, n) in m ::
          0 <= s < |was| && j < |was[s]| && n < |was[s][j]| && m[StateCell(s, j, n)] == was[s][j][n])
  }

  ghost predicate InTensor(k: Launch, b: nat, d: nat, was: seq<seq<seq<real>>>)
    requires Ready(k, b)
  {
    Resumes(k, b) ==> 0 <= LoadSlot(k, b) < |was| && d < |was[LoadSlot(k, b)]| && |was[LoadSlot(k, b)][d]| == k.dstate
  }

  /** It starts from the same state, */
  lemma SameStart(k: Launch, hasZ: bool, b: nat, d: nat, m: Memory, out: seq<real>, outZ: seq<real>, was: seq<seq<seq<real>>>)
    requires Ready(k, b) && ColumnsExist(k, b) && ViewOf(k, hasZ, Prog(b, d)).Backed(m) && Shows(m, out, outZ, was) && InTensor(k, b, d, was)
    ensures StartState(ViewOf(k, hasZ, Prog(b, d)), m) == InitialState(k, b, d, was)
  {
    hide Lens, StoreSlots, FeedOf, Base, Sum;
    var v := ViewOf(k, hasZ, Prog(b, d));
    forall n | 0 <= n < k.dstate ensures StartState(v, m)[n] == InitialState(k, b, d, was)[n] {
      if Resumes(k, b) { assert v.Touches(StateCell(LoadSlot(k, b), d, n)); }
    }
  }

  /** and scans the same step sizes and gates. */
  lemma SameRow(k: Launch, hasZ: bool, b: nat, d: nat, m: Memory, out: seq<real>, outZ: seq<real>, was: seq<seq<seq<real>>>, q: nat)
    requires Ready(k, b) && ColumnsExist(k, b) && ViewOf(k, hasZ, Prog(b, d)).Backed(m) && Shows(m, out, outZ, was)
    requires q < Sum(Lens(k, b))
    ensures var v := ViewOf(k, hasZ, Prog(b, d));
            && Base(k, b, d, k.deltaStrides) + q < |out| && Deltas(v, m)[q] == out[Base(k, b, d, k.deltaStrides) + q]
            && (hasZ ==> Base(k, b, d, k.zStrides) + q < |outZ| && Gates(v, m)[q] == outZ[Base(k, b, d, k.zStrides) + q])
  {
    hide Lens, StoreSlots, FeedOf, Base, Sum;
    var v := ViewOf(k, hasZ, Prog(b, d));
    assert v.Touches(Cell(v.base + q));
    if hasZ { assert v.Touches(GateCell(v.zBase + q)); }
  }

  /** So it has the outputs, gated outputs and saved states of the program that runs alone on these buffers, in place. */
  lemma AsAlone(k: Launch, b: nat, d: nat, r: Row, m: Memory, was: seq<seq<seq<real>>>)
    requires Ready(k, b) && ColumnsExist(k, b) && RowOk(k, b, d, r) && r.delta == r.out && r.z == r.outZ
    requires ViewOf(k, r.hasZ, Prog(b, d)).Backed(m) && Shows(m, r.out[..], r.outZ[..], was) && InTensor(k, b, d, was)
    ensures var (alone, shared) := (JobOf(k, b, d, r, was), JobIn(ViewOf(k, r.hasZ, Prog(b, d)), m));
            && shared.ys == alone.ys && shared.gs == alone.gs
            && SavedBy(k, b, d, alone) == SavedBy(k, b, d, shared)
  {
    hide Lens, StoreSlots, FeedOf, Base, Sum, Outputs, GatedAll, TokensOf, StartState, Deltas, InitialState;
    var v := ViewOf(k, r.hasZ, Prog(b, d));
    var (alone, shared) := (JobOf(k, b, d, r, was), JobIn(v, m));
    SameStart(k, r.hasZ, b, d, m, r.out[..], r.outZ[..], was);
    forall q | 0 <= q < Sum(Lens(k, b)) ensures alone.deltas[q] == shared.deltas[q] && alone.zs[q] == shared.zs[q] {
      SameRow(k, r.hasZ, b, d, m, r.out[..], r.outZ[..], was, q);
    }
    assert alone.deltas == shared.deltas && alone.zs == shared.zs;
  }
}
