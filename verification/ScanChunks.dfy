/**
 * The inner loops of the selective-scan kernel: one channel of one sequence, a run of positions at
 * a time, on lanes padded to a power of two, writing outputs over the inputs it has consumed.
 * Token tensors are flat, as the kernel addresses them: a program finds position `p` at `base + p`.
 */
module ScanChunks {
  import opened ScanRecurrence

  /** What one program reads and never writes: its channel's constants, and u, B and C by position. */
  datatype Feed = Feed(ch: Channel, u: nat -> real, B: (nat, nat) -> real, C: (nat, nat) -> real)

  function LoadB(f: Feed, p: nat): (r: seq<real>)
    ensures |r| == |f.ch.A|
  {
    seq(|f.ch.A|, n requires 0 <= n < |f.ch.A| => f.B(n, p))
  }

  function LoadC(f: Feed, p: nat): (r: seq<real>)
    ensures |r| == |f.ch.A|
  {
    seq(|f.ch.A|, n requires 0 <= n < |f.ch.A| => f.C(n, p))
  }

  /** The token at a position, given the value found there in the step-size tensor. */
  function TokenAt(f: Feed, p: nat, delta: real): (t: Token)
    ensures |t.B| == |f.ch.A| && |t.C| == |f.ch.A| && t.delta == delta
  {
    Token(f.u(p), delta, LoadB(f, p), LoadC(f, p))
  }

  /** The tokens of a program, given its row of the step-size tensor. */
  function TokensOf(f: Feed, deltas: seq<real>): (toks: seq<Token>)
    ensures |toks| == |deltas| && Fits(f.ch, toks)
  {
    seq(|deltas|, p requires 0 <= p < |deltas| => TokenAt(f, p, deltas[p]))
  }

  /** One position on padded lanes: the step on the plain lanes, padded, and its readout. */
  method TokenStep(f: Feed, lanes: nat, aVals: seq<real>, state: seq<real>, p: nat, delta: real, ghost was: seq<real>)
    returns (next: seq<real>, y: real)
    requires |was| == |f.ch.A| <= lanes
    requires aVals == Pad(f.ch.A, lanes) && state == Pad(was, lanes)
    ensures next == Pad(Advance(f.ch, was, TokenAt(f, p, delta)), lanes)
    ensures y == Readout(f.ch, Advance(f.ch, was, TokenAt(f, p, delta)), TokenAt(f, p, delta))
  {
    var uVal := f.u(p);
    var step := StepSize(f.ch, delta);
    var drive := Scaled(step, uVal);
    var (bVals, cVals) := (LoadB(f, p), LoadC(f, p));
    PaddingInvisible(f.ch.exp, step, drive, f.ch.A, was, bVals, cVals, lanes);
    next := Lanes(f.ch.exp, step, drive, aVals, state, Pad(bVals, lanes));
    y := Dot(next, Pad(cVals, lanes));
    if f.ch.D.Some? {
      y := y + Scaled(f.ch.D.value, uVal);
    }
  }

  /** The padded state before position `p` of the scan. */
  ghost function PaddedState(f: Feed, lanes: nat, init: seq<real>, deltas: seq<real>, p: nat): (r: seq<real>)
    requires |init| == |f.ch.A| <= lanes && p <= |deltas|
    ensures |r| == lanes
  {
    Pad(StateAfter(f.ch, init, TokensOf(f, deltas)[..p]), lanes)
  }

  /** Position `p` of the scan: from the state before it to the state after it and its output. */
  method PositionStep(f: Feed, lanes: nat, aVals: seq<real>, state: seq<real>, p: nat, delta: real,
                      ghost init: seq<real>, ghost deltas: seq<real>)
    returns (next: seq<real>, y: real)
    requires |init| == |f.ch.A| <= lanes && p < |deltas| && delta == deltas[p]
    requires aVals == Pad(f.ch.A, lanes) && state == PaddedState(f, lanes, init, deltas, p)
    ensures next == PaddedState(f, lanes, init, deltas, p + 1)
    ensures y == Outputs(f.ch, init, TokensOf(f, deltas))[p]
  {
    ghost var toks := TokensOf(f, deltas);
    next, y := TokenStep(f, lanes, aVals, state, p, delta, StateAfter(f.ch, init, toks[..p]));
    ScanNext(f.ch, init, toks, p);
  }

  /** Where a program finds its row in the token tensors.  The launcher passes the step-size tensor as
      `out` and the gate tensor as `outZ`; without a gate, `z` and `outZ` are never touched. */
  datatype Row = Row(delta: array<real>, out: array<real>, base: nat, hasZ: bool, z: array<real>, outZ: array<real>, zBase: nat) {
    predicate Holds(count: nat) {
      && base + count <= delta.Length && base + count <= out.Length
      && (hasZ ==> zBase + count <= z.Length && zBase + count <= outZ.Length && z != out && outZ != out && outZ != delta)
    }
  }

  /** What a program finds in memory before it starts (step sizes, gates, and the two buffers it writes)
      and what it has to leave there: the outputs `ys` and the gated outputs `gs`. */
  datatype Job = Job(init: seq<real>, deltas: seq<real>, zs: seq<real>, ys: seq<real>, gs: seq<real>,
                     outWas: seq<real>, outZWas: seq<real>)
  {
    ghost predicate Fits(r: Row) {
      && |zs| == |ys| == |gs| == |deltas| && r.Holds(|deltas|)
      && |outWas| == r.out.Length && |outZWas| == r.outZ.Length
    }

    /** The outputs are those of the plain scan. */
    ghost predicate For(f: Feed) {
      && |init| == |f.ch.A| && |zs| == |deltas|
      && ys == Outputs(f.ch, init, TokensOf(f, deltas)) && gs == GatedAll(f.ch.exp, ys, zs)
    }
  }

  /** The job of scanning `deltas`, gated by `zs`, from `init`. */
  ghost function MakeJob(f: Feed, init: seq<real>, deltas: seq<real>, zs: seq<real>, outWas: seq<real>, outZWas: seq<real>): (j: Job)
    requires |init| == |f.ch.A| && |zs| == |deltas|
    ensures j.For(f) && j.init == init && j.deltas == deltas && j.zs == zs && j.outWas == outWas && j.outZWas == outZWas
    ensures |j.ys| == |j.gs| == |deltas|
  {
    var ys := Outputs(f.ch, init, TokensOf(f, deltas));
    Job(init, deltas, zs, ys, GatedAll(f.ch.exp, ys, zs), outWas, outZWas)
  }

  /** `t` holds `was`, except that the first `n` cells from `base` on hold those of `v`. */
  ghost predicate Patched(t: array<real>, was: seq<real>, base: nat, v: seq<real>, n: nat)
    requires n <= |v| && base + |v| <= t.Length == |was|
    reads t
  {
    && (forall q | 0 <= q < n :: t[base + q] == v[q])
    && (forall a | 0 <= a < t.Length && !(base <= a < base + n) :: t[a] == was[a])
  }

  /** From position `p` on, the row holds `v`. */
  ghost predicate Ahead(t: array<real>, base: nat, v: seq<real>, p: nat)
    requires base + |v| <= t.Length
    reads t
  {
    forall q | p <= q < |v| :: t[base + q] == v[q]
  }

  /** The program has scanned its first `p` positions: they hold their outputs, the later ones still hold
      their inputs, and nothing else in the buffers has changed. */
  ghost predicate Scanned(r: Row, j: Job, p: nat)
    requires j.Fits(r) && p <= |j.deltas|
    reads r.delta, r.out, r.z, r.outZ
  {
    && Ahead(r.delta, r.base, j.deltas, p) && Patched(r.out, j.outWas, r.base, j.ys, p)
    && (r.hasZ ==> Ahead(r.z, r.zBase, j.zs, p) && Patched(r.outZ, j.outZWas, r.zBase, j.gs, p))
    && (!r.hasZ && r.outZ != r.out ==> r.outZ[..] == j.outZWas)
  }

  /** Store the outputs of position `p`. */
  method Emit(r: Row, exp: ExpFn, p: nat, y: real, ghost j: Job)
    requires j.Fits(r) && p < |j.deltas|
    requires y == j.ys[p] && j.gs[p] == Gated(exp, j.ys[p], j.zs[p])
    requires Scanned(r, j, p)
    modifies r.out, r.outZ
    ensures Scanned(r, j, p + 1)
  {
    r.out[r.base + p] := y;
    if r.hasZ {
      r.outZ[r.zBase + p] := Gated(exp, y, r.z[r.zBase + p]);
    }
  }

  /** Scan position `p`. */
  method ScanPosition(f: Feed, lanes: nat, aVals: seq<real>, r: Row, p: nat, state: seq<real>, ghost j: Job)
    returns (next: seq<real>)
    requires j.For(f) && j.Fits(r) && p < |j.deltas|
    requires |f.ch.A| <= lanes && aVals == Pad(f.ch.A, lanes)
    requires state == PaddedState(f, lanes, j.init, j.deltas, p) && Scanned(r, j, p)
    modifies r.out, r.outZ
    ensures next == PaddedState(f, lanes, j.init, j.deltas, p + 1) && Scanned(r, j, p + 1)
  {
    var y;
    next, y := PositionStep(f, lanes, aVals, state, p, r.delta[r.base + p], j.init, j.deltas);
    Emit(r, f.ch.exp, p, y, j);
  }

  /** Scan positions first .. first + count. */
  method ScanChunk(f: Feed, lanes: nat, aVals: seq<real>, r: Row, first: nat, count: nat, state0: seq<real>, ghost j: Job)
    returns (state: seq<real>)
    requires j.For(f) && j.Fits(r) && first + count <= |j.deltas|
    requires |f.ch.A| <= lanes && aVals == Pad(f.ch.A, lanes)
    requires state0 == PaddedState(f, lanes, j.init, j.deltas, first) && Scanned(r, j, first)
    modifies r.out, r.outZ
    ensures state == PaddedState(f, lanes, j.init, j.deltas, first + count) && Scanned(r, j, first + count)
  {
    hide PaddedState, Scanned, Pad;
    state := state0;
    var p := first;
    while p < first + count
      invariant first <= p <= first + count
      invariant state == PaddedState(f, lanes, j.init, j.deltas, p) && Scanned(r, j, p)
    {
      state := ScanPosition(f, lanes, aVals, r, p, state, j);
      p := p + 1;
    }
  }
}
