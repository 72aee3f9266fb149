/**
 * The scan written out in closed form: every state and every output as a sum over all tokens seen so far, each
 * decayed by the steps after it.
 */
module ScanUnrolled {
  import opened Options
  import opened ScanRecurrence
  import opened ScanChunks
  import opened SelectiveScan

  /** `ds` are the step sizes of the tokens: the raw value, plus the bias if there is one; with softplus,
      log(exp(x) + 1) for x up to 20, and x itself above. */
  ghost predicate StepSizes(ch: Channel, toks: seq<Token>, ds: seq<real>) {
    |ds| == |toks| && forall i | 0 <= i < |toks| :: IsStepSize(ch, toks[i].delta, ds[i])
  }

  ghost predicate IsStepSize(ch: Channel, raw: real, d: real) {
    var x := if ch.bias.None? then raw else raw + ch.bias.value;
    if ch.softplus && x <= 20.0 then d == ch.log(ch.exp(x) + 1.0) else d == x
  }

  function Times(x: real, y: real): real { x * y }

  /** What is left, after the steps from `i` on up to `m`, of something that decays at rate `a`: the product of
      exp(d * a) over these steps. */
  ghost function Decay(exp: ExpFn, a: real, ds: seq<real>, i: nat, m: nat): real
    requires m <= |ds|
  {
    if i >= m then 1.0 else Times(exp(Times(ds[m - 1], a)), Decay(exp, a, ds, i, m - 1))
  }

  /** What token `i` feeds to lane `n`: step size times input times gain. */
  ghost function Feeds(ch: Channel, toks: seq<Token>, ds: seq<real>, n: nat, i: nat): real
    requires i < |ds| == |toks| && Fits(ch, toks) && n < |ch.A|
  {
    Times(Times(ds[i], toks[i].u), toks[i].B[n])
  }

  /** What is left, when `m` tokens have been seen, of what the first `j` of them have fed to lane `n`: each decayed
      by the steps after its own. */
  ghost function Driven(ch: Channel, toks: seq<Token>, ds: seq<real>, n: nat, j: nat, m: nat): real
    requires j <= m <= |ds| == |toks| && Fits(ch, toks) && n < |ch.A|
  {
    if j == 0 then 0.0
    else Driven(ch, toks, ds, n, j - 1, m) + Times(Decay(ch.exp, ch.A[n], ds, j, m), Feeds(ch, toks, ds, n, j - 1))
  }

  /** Lane `n` after `m` tokens. */
  ghost function Unrolled(ch: Channel, init: seq<real>, toks: seq<Token>, ds: seq<real>, n: nat, m: nat): real
    requires m <= |ds| == |toks| && Fits(ch, toks) && n < |ch.A| == |init|
  {
    Times(Decay(ch.exp, ch.A[n], ds, 0, m), init[n]) + Driven(ch, toks, ds, n, m, m)
  }

  lemma Spread(e: real, x: real, y: real)
    ensures Times(e, x + y) == Times(e, x) + Times(e, y)
  {}

  lemma Regroup(e: real, c: real, y: real)
    ensures Times(e, Times(c, y)) == Times(Times(e, c), y)
  {}

  lemma Ones(x: real)
    ensures Times(1.0, x) == x && Times(x, 0.0) == 0.0
  {}

  /** One more step decays everything fed before it. */
  lemma {:induction false} DrivenNext(ch: Channel, toks: seq<Token>, ds: seq<real>, n: nat, j: nat, m: nat)
    requires j <= m < |ds| == |toks| && Fits(ch, toks) && n < |ch.A|
    ensures Driven(ch, toks, ds, n, j, m + 1) == Times(ch.exp(Times(ds[m], ch.A[n])), Driven(ch, toks, ds, n, j, m))
  {
    hide Times, Feeds;
    var e := ch.exp(Times(ds[m], ch.A[n]));
    if j == 0 {
      Ones(e);
    } else {
      var (was, left, fed) := (Driven(ch, toks, ds, n, j - 1, m), Decay(ch.exp, ch.A[n], ds, j, m), Feeds(ch, toks, ds, n, j - 1));
      DrivenNext(ch, toks, ds, n, j - 1, m);
      Spread(e, was, Times(left, fed));
      Regroup(e, left, fed);
    }
  }

  lemma DrivenLast(ch: Channel, toks: seq<Token>, ds: seq<real>, n: nat, m: nat)
    requires m < |ds| == |toks| && Fits(ch, toks) && n < |ch.A|
    ensures Driven(ch, toks, ds, n, m + 1, m + 1)
         == Times(ch.exp(Times(ds[m], ch.A[n])), Driven(ch, toks, ds, n, m, m)) + Feeds(ch, toks, ds, n, m)
  {
    hide Times, Feeds;
    DrivenNext(ch, toks, ds, n, m, m);
    Ones(Feeds(ch, toks, ds, n, m));
  }

  /** One step of the scan on one lane. */
  lemma LaneStep(ch: Channel, state: seq<real>, t: Token, d: real, n: nat)
    requires |state| == |ch.A| == |t.B| && n < |ch.A| && IsStepSize(ch, t.delta, d)
    ensures Advance(ch, state, t)[n] == Times(ch.exp(Times(d, ch.A[n])), state[n]) + Times(Times(d, t.u), t.B[n])
  {
    hide Lane, Scaled, Times;
    assert d == StepSize(ch, t.delta);
    LaneIs(ch.exp, d, t.u, ch.A[n], state[n], t.B[n]);
  }

  lemma LaneIs(exp: ExpFn, d: real, u: real, a: real, h: real, b: real)
    ensures Lane(exp, d, Scaled(d, u), a, h, b) == Times(exp(Times(d, a)), h) + Times(Times(d, u), b)
  {}

  /** A state of the scan, written out: what is left of the initial state, and of everything fed to it. */
  lemma {:induction false} StateUnrolled(ch: Channel, init: seq<real>, toks: seq<Token>, ds: seq<real>, n: nat, m: nat)
    requires Fits(ch, toks) && n < |ch.A| == |init| && StepSizes(ch, toks, ds) && m <= |toks|
    ensures StateAfter(ch, init, toks[..m])[n] == Unrolled(ch, init, toks, ds, n, m)
  {
    hide Advance, Driven, IsStepSize, Times;
    if m == 0 {
      NothingDriven(ch, toks, ds, n);
      Ones(init[n]);
    } else {
      var (k, e) := (m - 1, ch.exp(Times(ds[m - 1], ch.A[n])));
      var left := Decay(ch.exp, ch.A[n], ds, 0, k);
      StateUnrolled(ch, init, toks, ds, n, k);
      assert toks[..m][..k] == toks[..k];
      LaneStep(ch, StateAfter(ch, init, toks[..k]), toks[k], ds[k], n);
      DrivenLast(ch, toks, ds, n, k);
      Spread(e, Times(left, init[n]), Driven(ch, toks, ds, n, k, k));
      Regroup(e, left, init[n]);
    }
  }

  lemma NothingDriven(ch: Channel, toks: seq<Token>, ds: seq<real>, n: nat)
    requires |ds| == |toks| && Fits(ch, toks) && n < |ch.A|
    ensures Driven(ch, toks, ds, n, 0, 0) == 0.0
  {}

  /** The first `n` terms of the inner product of an output: each lane, written out, times its readout gain. */
  ghost function Readings(ch: Channel, init: seq<real>, toks: seq<Token>, ds: seq<real>, p: nat, n: nat): real
    requires p < |ds| == |toks| && Fits(ch, toks) && n <= |ch.A| == |init|
  {
    if n == 0 then 0.0
    else Readings(ch, init, toks, ds, p, n - 1) + Times(toks[p].C[n - 1], Unrolled(ch, init, toks, ds, n - 1, p + 1))
  }

  lemma {:induction false} DotUnrolled(ch: Channel, init: seq<real>, toks: seq<Token>, ds: seq<real>, p: nat, state: seq<real>, n: nat)
    requires p < |toks| && Fits(ch, toks) && n <= |ch.A| == |init| == |state| && StepSizes(ch, toks, ds)
    requires forall i | 0 <= i < |state| :: state[i] == Unrolled(ch, init, toks, ds, i, p + 1)
    ensures Dot(state[..n], toks[p].C[..n]) == Readings(ch, init, toks, ds, p, n)
  {
    hide Unrolled;
    if n > 0 {
      DotUnrolled(ch, init, toks, ds, p, state, n - 1);
      assert state[..n][..n - 1] == state[..n - 1] && toks[p].C[..n][..n - 1] == toks[p].C[..n - 1];
    }
  }

  /** An output of the scan, written out: the readout of all lanes, plus the input times D if there is one. */
  lemma OutputUnrolled(ch: Channel, init: seq<real>, toks: seq<Token>, ds: seq<real>, p: nat)
    requires p < |toks| && Fits(ch, toks) && |ch.A| == |init| && StepSizes(ch, toks, ds)
    ensures Outputs(ch, init, toks)[p] ==
            Readings(ch, init, toks, ds, p, |ch.A|) + if ch.D.Some? then ch.D.value * toks[p].u else 0.0
  {
    hide Unrolled, StateAfter, Dot, Readings;
    var state := StateAfter(ch, init, toks[..p + 1]);
    forall i | 0 <= i < |state| ensures state[i] == Unrolled(ch, init, toks, ds, i, p + 1) {
      StateUnrolled(ch, init, toks, ds, i, p + 1);
    }
    DotUnrolled(ch, init, toks, ds, p, state, |ch.A|);
    assert state[..|ch.A|] == state && toks[p].C[..|ch.A|] == toks[p].C;
    OutputsIndex(ch, init, toks, p);
  }

  /** Every scan has step sizes. */
  lemma StepSizesExist(ch: Channel, toks: seq<Token>) returns (ds: seq<real>)
    ensures StepSizes(ch, toks, ds)
  {
    ds := seq(|toks|, i requires 0 <= i < |toks| => StepSize(ch, toks[i].delta));
  }

  /** The gate multiplies an output by z and divides it by 1 + exp(-z). */
  lemma GateUnrolled(exp: ExpFn, y: real, z: real)
    ensures Gated(exp, y, z) * (1.0 + exp(-z)) == y * z
  {
    assert Positive(exp);
    Undivided(y * z, 1.0 + exp(-z));
  }

  lemma Undivided(x: real, y: real)
    requires y != 0.0
    ensures x / y * y == x
  {}

  // ----- Which numbers a program scans -----

  /** The tensors of a launch as the caller sees them: u by sequence, channel and position, B and C by sequence, group,
      lane and position, A by channel and lane. */
  datatype Tensors = Tensors(u: (nat, nat, nat) -> real, B: (nat, nat, nat, nat) -> real, C: (nat, nat, nat, nat) -> real,
                             A: (nat, nat) -> real)

  /** Where sequence `b` begins along the first axis: at its first token in a packed batch, else at its own entry. */
  ghost function Origin(k: Launch, b: nat): nat
    requires Ready(k, b)
  {
    match k.queryStart
    case Some(starts) => starts[b]
    case None => b
  }

  /** The cell of a flat tensor at entry `x`, channel or group `c`, lane `n` and position `p`. */
  function Address(s: Strides, x: nat, c: nat, n: nat, p: nat): nat {
    x * s.batch + c * s.channel + n * s.lane + p
  }

  /** The launch's flat tensors hold these, laid out by their strides. */
  ghost predicate Laid(k: Launch, t: Tensors, b: nat)
    requires Ready(k, b)
  {
    && (forall d: nat, p: nat :: k.u(Address(k.uStrides, Origin(k, b), d, 0, p)) == t.u(b, d, p))
    && (forall g: nat, n: nat, p: nat :: k.B(Address(k.bStrides, Origin(k, b), g, n, p)) == t.B(b, g, n, p))
    && (forall g: nat, n: nat, p: nat :: k.C(Address(k.cStrides, Origin(k, b), g, n, p)) == t.C(b, g, n, p))
    && (forall d: nat, n: nat :: k.A(Address(k.aStrides, 0, d, n, 0)) == t.A(d, n))
  }

  lemma AddressIs(k: Launch, b: nat, s: Strides, c: nat, n: nat, p: nat)
    requires Ready(k, b)
    ensures Address(s, Origin(k, b), c, n, p) == Base(k, b, c, s) + n * s.lane + p
    ensures Address(s, 0, c, n, 0) == c * s.channel + n * s.lane
  {}

  /** Program (b, d) scans its own row of u and of the step sizes, */
  lemma ScansItsRow(k: Launch, t: Tensors, b: nat, d: nat, deltas: seq<real>, p: nat)
    requires Ready(k, b) && Laid(k, t, b) && p < |deltas|
    ensures TokensOf(FeedOf(k, b, d), deltas)[p].u == t.u(b, d, p) && TokensOf(FeedOf(k, b, d), deltas)[p].delta == deltas[p]
  {
    hide Address, Origin, Base, LoadB, LoadC;
    AddressIs(k, b, k.uStrides, d, 0, p);
  }

  /** Channels share their gains in groups of `ratio`. */
  function GroupOf(k: Launch, d: nat): nat
    requires k.ratio > 0
  {
    d / k.ratio
  }

  lemma LoadsItsGains(k: Launch, t: Tensors, b: nat, d: nat, p: nat, n: nat)
    requires Ready(k, b) && Laid(k, t, b) && n < k.dstate
    ensures var (f, g) := (FeedOf(k, b, d), GroupOf(k, d));
            n < |f.ch.A| && LoadB(f, p)[n] == t.B(b, g, n, p) && LoadC(f, p)[n] == t.C(b, g, n, p)
  {
    hide Address, Origin, Base;
    var g := GroupOf(k, d);
    AddressIs(k, b, k.bStrides, g, n, p);
    AddressIs(k, b, k.cStrides, g, n, p);
  }

  lemma TokenHasGains(f: Feed, deltas: seq<real>, p: nat)
    requires p < |deltas|
    ensures TokensOf(f, deltas)[p].B == LoadB(f, p) && TokensOf(f, deltas)[p].C == LoadC(f, p)
  {}

  /** Lane `n` of the gains of a token are those of sequence `b`, group `g` and position `p`. */
  ghost predicate HasGains(tok: Token, t: Tensors, b: nat, g: nat, p: nat, n: nat) {
    n < |tok.B| && n < |tok.C| && tok.B[n] == t.B(b, g, n, p) && tok.C[n] == t.C(b, g, n, p)
  }

  /** with the gains of its channel's group, */
  lemma ScansItsGains(k: Launch, t: Tensors, b: nat, d: nat, deltas: seq<real>, p: nat, n: nat)
    requires Ready(k, b) && Laid(k, t, b) && p < |deltas| && n < k.dstate
    ensures HasGains(TokensOf(FeedOf(k, b, d), deltas)[p], t, b, GroupOf(k, d), p, n)
  {
    hide Laid, TokensOf, LoadB, LoadC, FeedOf;
    LoadsItsGains(k, t, b, d, p, n);
    TokenHasGains(FeedOf(k, b, d), deltas, p);
  }

  /** and with the rates and constants of its channel. */
  lemma ScansItsChannel(k: Launch, t: Tensors, b: nat, d: nat, n: nat)
    requires Ready(k, b) && Laid(k, t, b) && n < k.dstate
    ensures var ch := FeedOf(k, b, d).ch;
            && |ch.A| == k.dstate && ch.A[n] == t.A(d, n)
            && ch.D == (if k.D.Some? then Some(k.D.value(d)) else None)
            && ch.bias == (if k.bias.Some? then Some(k.bias.value(d)) else None)
            && ch.softplus == k.softplus && ch.exp == k.exp && ch.log == k.log
  {
    hide Address, Origin, Base, LoadB, LoadC;
    AddressIs(k, b, k.aStrides, d, n, 0);
  }

  /** The slot that the launch's metadata give to sequence `b`: by its block table and the index of its initial state, by its
      own index, or the sequence's number. */
  ghost predicate SlotIs(k: Launch, b: nat, slot: int)
    requires Ready(k, b)
  {
    && (k.cache.Prefix? ==> slot == k.cache.indices[b][k.cache.initialIdx[b]])
    && (k.cache.Indexed? ==> slot == k.cache.slots[b])
    && (k.cache.Direct? ==> slot == b)
  }

  /** A program returns at once exactly if its slot is the null block, unless slots are sequence numbers. */
  lemma SkipsNull(k: Launch, b: nat, slot: int)
    requires Ready(k, b) && SlotIs(k, b, slot)
    ensures Skipped(k, b) <==> (k.cache.Prefix? || k.cache.Indexed?) && slot == k.nullBlock
  {}

  /** A program starts from the state in that slot if its sequence is flagged to have one, and from zeros otherwise. */
  lemma StartsFrom(k: Launch, b: nat, d: nat, slot: int, was: seq<seq<seq<real>>>, n: nat)
    requires Ready(k, b) && SlotIs(k, b, slot) && n < k.dstate
    requires 0 <= slot < |was| && d < |was[slot]| && |was[slot][d]| == k.dstate
    ensures InitialState(k, b, d, was)[n] == if k.hasInit.Some? && k.hasInit.value[b] then was[slot][d][n] else 0.0
  {}
}
