/** Shared option type. */
module Options {
  datatype Option<+T> = None | Some(value: T)
}

/**
 * The state-space recurrence that the selective-scan kernel evaluates for one
 * (sequence, channel) pair, stated plainly: no chunks, no cache, no lane padding,
 * no buffer reuse.  Numbers are exact reals; `exp` and `log` are parameters.
 */
module ScanRecurrence {
  import opened Options

  /** The only property of the exponential that the kernel relies on is its sign. */
  ghost predicate Positive(f: real -> real) { forall x :: f(x) > 0.0 }
  type ExpFn = f: real -> real | Positive(f) ghost witness (x: real) => 1.0

  /** What is constant along a channel's scan. */
  datatype Channel = Channel(A: seq<real>, D: Option<real>, bias: Option<real>, softplus: bool,
                             exp: ExpFn, log: real -> real)

  /** What one position feeds to the scan. */
  datatype Token = Token(u: real, delta: real, B: seq<real>, C: seq<real>)

  ghost predicate Fits(ch: Channel, toks: seq<Token>) {
    forall i | 0 <= i < |toks| :: |toks[i].B| == |ch.A| && |toks[i].C| == |ch.A|
  }

  function Softplus(ch: Channel, x: real): real {
    if x <= 20.0 then ch.log(ch.exp(x) + 1.0) else x
  }

  /** The step size after the optional bias and the optional softplus. */
  function StepSize(ch: Channel, delta: real): real {
    var d := if ch.bias.Some? then delta + ch.bias.value else delta;
    if ch.softplus then Softplus(ch, d) else d
  }

  /** One recurrence step on one lane: step size `d`, drive `du`, decay rate `a`, state `h`, input gain `b`. */
  function Lane(exp: ExpFn, d: real, du: real, a: real, h: real, b: real): real {
    exp(d * a) * h + du * b
  }

  lemma IdleLane(exp: ExpFn, d: real, du: real, a: real)
    ensures Lane(exp, d, du, a, 0.0, 0.0) == 0.0
  {}

  /** One recurrence step on every lane. */
  function Lanes(exp: ExpFn, d: real, du: real, A: seq<real>, state: seq<real>, B: seq<real>): (r: seq<real>)
    requires |A| == |state| == |B|
    ensures |r| == |state|
  {
    seq(|state|, i requires 0 <= i < |state| => Lane(exp, d, du, A[i], state[i], B[i]))
  }

  /** The product of a gain and an input. */
  function Scaled(gain: real, u: real): real { gain * u }

  function Advance(ch: Channel, state: seq<real>, t: Token): (r: seq<real>)
    requires |state| == |ch.A| == |t.B|
  {
    var d := StepSize(ch, t.delta);
    Lanes(ch.exp, d, Scaled(d, t.u), ch.A, state, t.B)
  }

  function Dot(x: seq<real>, y: seq<real>): real
    requires |x| == |y|
  {
    if |x| == 0 then 0.0 else Dot(x[..|x| - 1], y[..|x| - 1]) + x[|x| - 1] * y[|x| - 1]
  }

  function Readout(ch: Channel, state: seq<real>, t: Token): real
    requires |state| == |t.C|
  {
    Dot(state, t.C) + (if ch.D.Some? then Scaled(ch.D.value, t.u) else 0.0)
  }

  /** The gated output `y * z * sigmoid(z)`. */
  function Gated(exp: ExpFn, y: real, z: real): real {
    assert exp(-z) > 0.0 by { assert Positive(exp); }
    y * z / (1.0 + exp(-z))
  }

  /** The state after scanning all of `toks` from `init`. */
  ghost function StateAfter(ch: Channel, init: seq<real>, toks: seq<Token>): (r: seq<real>)
    requires Fits(ch, toks) && |init| == |ch.A|
    ensures |r| == |ch.A|
  {
    if |toks| == 0 then init
    else Advance(ch, StateAfter(ch, init, toks[..|toks| - 1]), toks[|toks| - 1])
  }

  /** The output at position `p` of a scan of `toks` from `init`. */
  ghost function OutputAt(ch: Channel, init: seq<real>, toks: seq<Token>, p: nat): real
    requires Fits(ch, toks) && |init| == |ch.A| && p < |toks|
  {
    Readout(ch, StateAfter(ch, init, toks[..p + 1]), toks[p])
  }

  /** All outputs of the scan. */
  ghost function Outputs(ch: Channel, init: seq<real>, toks: seq<Token>): (ys: seq<real>)
    requires Fits(ch, toks) && |init| == |ch.A|
    ensures |ys| == |toks|
  {
    if |toks| == 0 then []
    else Outputs(ch, init, toks[..|toks| - 1]) + [OutputAt(ch, init, toks, |toks| - 1)]
  }

  lemma {:induction false} OutputsIndex(ch: Channel, init: seq<real>, toks: seq<Token>, p: nat)
    requires Fits(ch, toks) && |init| == |ch.A| && p < |toks|
    ensures Outputs(ch, init, toks)[p] == OutputAt(ch, init, toks, p)
  {
    if p < |toks| - 1 {
      OutputsIndex(ch, init, toks[..|toks| - 1], p);
      assert toks[..|toks| - 1][..p + 1] == toks[..p + 1];
    }
  }

  /** The outputs `ys` gated by `zs`. */
  ghost function GatedAll(exp: ExpFn, ys: seq<real>, zs: seq<real>): (gs: seq<real>)
    requires |ys| == |zs|
    ensures |gs| == |ys|
  {
    seq(|ys|, p requires 0 <= p < |ys| => Gated(exp, ys[p], zs[p]))
  }

  /** The state and the output at position `p`, by one step from the state before it. */
  lemma ScanNext(ch: Channel, init: seq<real>, toks: seq<Token>, p: nat)
    requires Fits(ch, toks) && |init| == |ch.A| && p < |toks|
    ensures StateAfter(ch, init, toks[..p + 1]) == Advance(ch, StateAfter(ch, init, toks[..p]), toks[p])
    ensures Outputs(ch, init, toks)[p] == Readout(ch, Advance(ch, StateAfter(ch, init, toks[..p]), toks[p]), toks[p])
  {
    assert toks[..p + 1][..p] == toks[..p];
    OutputsIndex(ch, init, toks, p);
  }

  /** Scanning `a` and then `b` from the state reached is scanning `a + b`. */
  lemma {:induction false} StateAfterConcat(ch: Channel, init: seq<real>, a: seq<Token>, b: seq<Token>)
    requires Fits(ch, a) && Fits(ch, b) && |init| == |ch.A|
    ensures Fits(ch, a + b)
    ensures StateAfter(ch, init, a + b) == StateAfter(ch, StateAfter(ch, init, a), b)
    decreases |b|
  {
    if b == [] {
      assert a + b == a;
    } else {
      var b' := b[..|b| - 1];
      StateAfterConcat(ch, init, a, b');
      assert (a + b)[..|a + b| - 1] == a + b';
    }
  }

  /** A resumed scan is exact: from the state after `a`, position `p` of `b` gets the output
      that an uninterrupted scan of `a + b` gives to position `|a| + p`. */
  lemma ResumedOutput(ch: Channel, init: seq<real>, a: seq<Token>, b: seq<Token>, p: nat)
    requires Fits(ch, a) && Fits(ch, b) && |init| == |ch.A| && p < |b|
    ensures Fits(ch, a + b)
    ensures OutputAt(ch, StateAfter(ch, init, a), b, p) == OutputAt(ch, init, a + b, |a| + p)
  {
    StateAfterConcat(ch, init, a, b[..p + 1]);
    assert (a + b)[..|a| + p + 1] == a + b[..p + 1];
  }

  /** All outputs of a resumed scan are the tail of the outputs of the uninterrupted one. */
  lemma ResumedOutputs(ch: Channel, init: seq<real>, a: seq<Token>, b: seq<Token>)
    requires Fits(ch, a) && Fits(ch, b) && |init| == |ch.A|
    ensures Fits(ch, a + b)
    ensures Outputs(ch, StateAfter(ch, init, a), b) == Outputs(ch, init, a + b)[|a|..]
  {
    hide Outputs, StateAfter, OutputAt;
    var (l, r) := (Outputs(ch, StateAfter(ch, init, a), b), Outputs(ch, init, a + b)[|a|..]);
    forall p | 0 <= p < |b| ensures l[p] == r[p] {
      OutputsIndex(ch, StateAfter(ch, init, a), b, p);
      OutputsIndex(ch, init, a + b, |a| + p);
      ResumedOutput(ch, init, a, b, p);
    }
  }

  // ----- Lane padding -----

  /** The kernel keeps a power-of-two number of lanes; a masked load fills the extra ones with 0. */
  function Pad(s: seq<real>, lanes: nat): (r: seq<real>)
    requires |s| <= lanes
    ensures |r| == lanes && r[..|s|] == s
  {
    s + seq(lanes - |s|, i => 0.0)
  }

  lemma {:induction false} DotOfPadded(x: seq<real>, y: seq<real>, lanes: nat)
    requires |x| == |y| <= lanes
    ensures Dot(Pad(x, lanes), Pad(y, lanes)) == Dot(x, y)
    decreases lanes
  {
    if |x| == lanes {
      assert Pad(x, lanes) == x && Pad(y, lanes) == y;
    } else {
      DotOfPadded(x, y, lanes - 1);
      assert Pad(x, lanes)[..lanes - 1] == Pad(x, lanes - 1);
      assert Pad(y, lanes)[..lanes - 1] == Pad(y, lanes - 1);
    }
  }

  /** Padding is invisible: a step on padded lanes yields the padded result of the step, and the
      padded inner product is the inner product. */
  lemma PaddingInvisible(exp: ExpFn, d: real, du: real, A: seq<real>, state: seq<real>, B: seq<real>, C: seq<real>,
                         lanes: nat)
    requires |A| == |state| == |B| == |C| <= lanes
    ensures Lanes(exp, d, du, Pad(A, lanes), Pad(state, lanes), Pad(B, lanes)) == Pad(Lanes(exp, d, du, A, state, B), lanes)
    ensures Dot(Pad(Lanes(exp, d, du, A, state, B), lanes), Pad(C, lanes)) == Dot(Lanes(exp, d, du, A, state, B), C)
  {
    var l := Lanes(exp, d, du, Pad(A, lanes), Pad(state, lanes), Pad(B, lanes));
    var r := Pad(Lanes(exp, d, du, A, state, B), lanes);
    forall i | 0 <= i < lanes ensures l[i] == r[i] {
      if |state| <= i {
        IdleLane(exp, d, du, Pad(A, lanes)[i]);
      }
    }
    DotOfPadded(Lanes(exp, d, du, A, state, B), C, lanes);
  }

  function NextPowerOf2(n: nat, p: nat): (r: nat)
    requires p > 0
    ensures n <= r && p <= r
    decreases n - p
  {
    if n <= p then p else NextPowerOf2(n, 2 * p)
  }
}
