/**
 * All programs of a launch at once.  The grid gives no order: any program may take its next step at any
 * time, and the programs share the token buffers (which are inputs and outputs at once) and the state
 * tensor.  A step reads or writes one cell.
 */
module ScanGrid {
  import opened Arithmetic
  import opened Options
  import opened ScanRecurrence
  import opened ScanChunks
  import opened SelectiveScan

  /** A cell of the step-size/output buffer, of the gate buffer, or of the state tensor. */
  datatype Loc = Cell(addr: nat) | GateCell(addr: nat) | StateCell(slot: int, channel: nat, lane: nat)

  type Memory = map<Loc, real>

  /** What one program works on. */
  datatype View = View(f: Feed, d: nat, base: nat, hasZ: bool, zBase: nat, lens: seq<nat>, slots: seq<int>, loads: Option<int>)
  {
    predicate Valid() { |lens| == |slots| >= 1 }

    function Count(): nat { Sum(lens) }
    function Dstate(): nat { |f.ch.A| }

    /** The cells the program may write. */
    predicate Writes(x: Loc) {
      match x
      case Cell(a) => base <= a < base + Count()
      case GateCell(a) => hasZ && zBase <= a < zBase + Count()
      case StateCell(s, j, n) => j == d && n < Dstate() && s in slots
    }

    /** The cells the program may read or write. */
    predicate Touches(x: Loc) {
      Writes(x) || (x.StateCell? && x.channel == d && x.lane < Dstate() && loads == Some(x.slot))
    }

    ghost predicate Backed(m: Memory) { forall x | Touches(x) :: x in m }
  }

  /** Where a program is: about to load the next lane of its state, about to read position `pos`, about to store
      the output `y` computed there, about to load its gate, about to store the gated output `g`, about to save lane
      `lane` after chunk `chunk`, or finished. */
  datatype Local =
    | Loading(got: seq<real>)
    | Reading(chunk: nat, pos: nat, state: seq<real>)
    | Storing(chunk: nat, pos: nat, state: seq<real>, y: real)
    | Gating(chunk: nat, pos: nat, state: seq<real>, y: real)
    | Emitting(chunk: nat, pos: nat, state: seq<real>, g: real)
    | Saving(chunk: nat, pos: nat, state: seq<real>, lane: nat)
    | Done

  /** Counters in range. */
  ghost predicate Sane(v: View, l: Local)
    requires v.Valid()
  {
    match l
    case Loading(got) => |got| <= v.Dstate()
    case Done => true
    case Reading(c, pos, state) => c < |v.lens| && pos <= Sum(v.lens[..c + 1]) <= v.Count() && |state| == v.Dstate()
    case Storing(c, pos, state, _) => c < |v.lens| && pos < Sum(v.lens[..c + 1]) <= v.Count() && |state| == v.Dstate()
    case Gating(c, pos, state, _) => v.hasZ && c < |v.lens| && pos < Sum(v.lens[..c + 1]) <= v.Count() && |state| == v.Dstate()
    case Emitting(c, pos, state, _) => v.hasZ && c < |v.lens| && pos < Sum(v.lens[..c + 1]) <= v.Count() && |state| == v.Dstate()
    case Saving(c, pos, state, n) => c < |v.lens| && pos == Sum(v.lens[..c + 1]) <= v.Count() && |state| == v.Dstate() && n <= v.Dstate()
  }

  /** One step of a program. */
  ghost function Step(v: View, l: Local, m: Memory): (r: (Local, Memory))
    requires v.Valid() && v.Backed(m) && Sane(v, l)
  {
    match l
    case Loading(got) =>
      if v.loads.None? then (Reading(0, 0, Zeros(v.Dstate())), m)
      else if |got| < v.Dstate() then (Loading(got + [m[StateCell(v.loads.value, v.d, |got|)]]), m)
      else (Reading(0, 0, got), m)
    case Reading(c, pos, state) =>
      if pos < Sum(v.lens[..c + 1]) then
        var t := TokenAt(v.f, pos, m[Cell(v.base + pos)]);
        var next := Advance(v.f.ch, state, t);
        (Storing(c, pos, next, Readout(v.f.ch, next, t)), m)
      else (Saving(c, pos, state, 0), m)
    case Storing(c, pos, state, y) =>
      (if v.hasZ then Gating(c, pos, state, y) else Reading(c, pos + 1, state), m[Cell(v.base + pos) := y])
    case Gating(c, pos, state, y) =>
      (Emitting(c, pos, state, Gated(v.f.ch.exp, y, m[GateCell(v.zBase + pos)])), m)
    case Emitting(c, pos, state, g) => (Reading(c, pos + 1, state), m[GateCell(v.zBase + pos) := g])
    case Saving(c, pos, state, n) =>
      if n < v.Dstate() then (Saving(c, pos, state, n + 1), m[StateCell(v.slots[c], v.d, n) := state[n]])
      else (if c + 1 < |v.lens| then Reading(c + 1, pos, state) else Done, m)
    case Done => (Done, m)
  }

  /** The state a program starts from. */
  ghost function StartState(v: View, m: Memory): (r: seq<real>)
    requires v.Backed(m)
    ensures |r| == v.Dstate()
  {
    if v.loads.Some? then seq(v.Dstate(), n requires 0 <= n < v.Dstate() => m[StateCell(v.loads.value, v.d, n)])
    else Zeros(v.Dstate())
  }

  ghost function Deltas(v: View, m: Memory): (r: seq<real>)
    requires v.Backed(m)
    ensures |r| == v.Count()
  {
    seq(v.Count(), q requires 0 <= q < v.Count() => m[Cell(v.base + q)])
  }

  ghost function Gates(v: View, m: Memory): (r: seq<real>)
    requires v.Backed(m)
    ensures |r| == v.Count()
  {
    seq(v.Count(), q requires 0 <= q < v.Count() => if v.hasZ then m[GateCell(v.zBase + q)] else 0.0)
  }

  /** What the program has to do, read off the memory in which the launch starts. */
  ghost function JobIn(v: View, m: Memory): (j: Job)
    requires v.Backed(m)
    ensures j.For(v.f) && |j.ys| == |j.gs| == |j.deltas| == |j.zs| == v.Count()
    ensures j.init == StartState(v, m) && j.deltas == Deltas(v, m) && j.zs == Gates(v, m)
  {
    MakeJob(v.f, StartState(v, m), Deltas(v, m), Gates(v, m), [], [])
  }

  // ----- What a program has done so far, in terms of the plain scan -----

  ghost predicate OutIs(v: View, j: Job, m: Memory, w: nat)
    requires v.Backed(m) && |j.ys| == |j.deltas| == v.Count()
  {
    forall q | 0 <= q < v.Count() :: m[Cell(v.base + q)] == if q < w then j.ys[q] else j.deltas[q]
  }

  ghost predicate GateIs(v: View, j: Job, m: Memory, w: nat)
    requires v.Backed(m) && |j.gs| == |j.zs| == v.Count()
  {
    v.hasZ ==> forall q | 0 <= q < v.Count() :: m[GateCell(v.zBase + q)] == if q < w then j.gs[q] else j.zs[q]
  }

  /** What a lane of a slot holds after the writes `ws`. */
  ghost function LaneAfter(ws: seq<Write>, s: int, n: nat, was: real): real {
    var r := Latest(ws, s);
    if r.Some? && n < |r.value| then r.value[n] else was
  }

  /** The slots hold the states saved after the first `c` chunks, and the first `lane` lanes of the next one. */
  ghost predicate SlotsAre(v: View, j: Job, m0: Memory, m: Memory, c: nat, lane: nat, state: seq<real>)
    requires v.Valid() && v.Backed(m0) && v.Backed(m) && c <= |v.lens| && |j.deltas| == v.Count() && |j.init| == v.Dstate()
    requires lane > 0 ==> c < |v.lens| && lane <= |state|
  {
    forall x: Loc | x.StateCell? && v.Touches(x) ::
      m[x] == if x.lane < lane && x.slot == v.slots[c] then state[x.lane]
              else LaneAfter(Saved(v.f, j.init, j.deltas, v.lens, v.slots, c), x.slot, x.lane, m0[x])
  }

  /** How far a program has got: outputs, gated outputs, whole states and lanes of the next state stored. */
  datatype Mark = Mark(outs: nat, gates: nat, chunks: nat, lanes: nat, state: seq<real>) {
    predicate Fits(v: View) { chunks <= |v.lens| && (lanes > 0 ==> chunks < |v.lens| && lanes <= |state|) }
  }

  function MarkOf(v: View, l: Local): Mark {
    match l
    case Loading(_) => Mark(0, 0, 0, 0, [])
    case Reading(c, pos, _) => Mark(pos, pos, c, 0, [])
    case Storing(c, pos, _, _) => Mark(pos, pos, c, 0, [])
    case Gating(c, pos, _, _) => Mark(pos + 1, pos, c, 0, [])
    case Emitting(c, pos, _, _) => Mark(pos + 1, pos, c, 0, [])
    case Saving(c, pos, state, lane) => Mark(pos, pos, c, lane, state)
    case Done => Mark(v.Count(), v.Count(), |v.lens|, 0, [])
  }

  ghost predicate MemIs(v: View, j: Job, m0: Memory, m: Memory, k: Mark)
    requires v.Valid() && v.Backed(m0) && v.Backed(m) && k.Fits(v)
    requires |j.ys| == |j.gs| == |j.zs| == |j.deltas| == v.Count() && |j.init| == v.Dstate()
  {
    OutIs(v, j, m, k.outs) && GateIs(v, j, m, k.gates) && SlotsAre(v, j, m0, m, k.chunks, k.lanes, k.state)
  }

  /** What a program holds in registers is what the plain scan has there. */
  ghost predicate RegistersAre(v: View, j: Job, l: Local)
    requires v.Valid() && Sane(v, l) && |j.ys| == |j.gs| == |j.deltas| == v.Count() && |j.init| == v.Dstate()
  {
    match l
    case Loading(got) => v.loads.Some? ==> got == j.init[..|got|]
    case Reading(_, pos, state) => state == ScanState(v, j, pos)
    case Storing(_, pos, state, y) => state == ScanState(v, j, pos + 1) && y == j.ys[pos]
    case Gating(_, pos, state, y) => state == ScanState(v, j, pos + 1) && y == j.ys[pos]
    case Emitting(_, pos, state, g) => state == ScanState(v, j, pos + 1) && g == j.gs[pos]
    case Saving(_, pos, state, _) => state == ScanState(v, j, pos)
    case Done => true
  }

  ghost function ScanState(v: View, j: Job, p: nat): (r: seq<real>)
    requires |j.init| == v.Dstate() && p <= |j.deltas|
    ensures |r| == v.Dstate()
  {
    StateAfter(v.f.ch, j.init, TokensOf(v.f, j.deltas)[..p])
  }

  lemma MarkFits(v: View, l: Local)
    requires v.Valid() && Sane(v, l)
    ensures MarkOf(v, l).Fits(v)
  {}

  /** The program has done exactly its part of the plain scan. */
  ghost predicate OnTrack(v: View, m0: Memory, l: Local, m: Memory)
    requires v.Valid() && v.Backed(m0) && v.Backed(m)
  {
    && Sane(v, l)
    && MemIs(v, JobIn(v, m0), m0, m, MarkOf(v, l))
    && RegistersAre(v, JobIn(v, m0), l)
  }

  lemma StartsOnTrack(v: View, m: Memory)
    requires v.Valid() && v.Backed(m)
    ensures OnTrack(v, m, Loading([]), m)
  {
    hide StateAfter, Outputs, GatedAll, TokensOf;
  }

  /** A step changes only cells the program may write. */
  lemma StepFrame(v: View, l: Local, m: Memory)
    requires v.Valid() && v.Backed(m) && Sane(v, l)
    ensures var m' := Step(v, l, m).1;
            m'.Keys == m.Keys && forall x | x in m && !v.Writes(x) :: m'[x] == m[x]
  {
    hide Sum;
    if l.Saving? && l.lane < v.Dstate() {
      assert v.slots[l.chunk] in v.slots;
      assert v.Touches(StateCell(v.slots[l.chunk], v.d, l.lane));
    } else if l.Storing? {
      assert v.Touches(Cell(v.base + l.pos));
    } else if l.Emitting? {
      assert v.Touches(GateCell(v.zBase + l.pos));
    }
  }

  /** Two memories agree on everything the program touches. */
  ghost predicate SameFor(v: View, m: Memory, m': Memory)
    requires v.Backed(m) && v.Backed(m')
  {
    forall x | v.Touches(x) :: m'[x] == m[x]
  }

  lemma OutUnaffected(v: View, j: Job, m: Memory, m': Memory, w: nat)
    requires v.Backed(m) && v.Backed(m') && |j.ys| == |j.deltas| == v.Count() && OutIs(v, j, m, w)
    requires forall x: Loc | x.Cell? && v.Touches(x) :: m'[x] == m[x]
    ensures OutIs(v, j, m', w)
  {
    hide Sum;
    forall q | 0 <= q < v.Count() ensures m'[Cell(v.base + q)] == if q < w then j.ys[q] else j.deltas[q] {
      assert v.Touches(Cell(v.base + q));
    }
  }

  lemma GateUnaffected(v: View, j: Job, m: Memory, m': Memory, w: nat)
    requires v.Backed(m) && v.Backed(m') && |j.gs| == |j.zs| == v.Count() && GateIs(v, j, m, w)
    requires forall x: Loc | x.GateCell? && v.Touches(x) :: m'[x] == m[x]
    ensures GateIs(v, j, m', w)
  {
    hide Sum;
    if v.hasZ {
      forall q | 0 <= q < v.Count() ensures m'[GateCell(v.zBase + q)] == if q < w then j.gs[q] else j.zs[q] {
        assert v.Touches(GateCell(v.zBase + q));
      }
    }
  }

  lemma SlotsUnaffected(v: View, j: Job, m0: Memory, m: Memory, m': Memory, c: nat, lane: nat, state: seq<real>)
    requires v.Valid() && v.Backed(m0) && v.Backed(m) && v.Backed(m') && c <= |v.lens|
    requires |j.deltas| == v.Count() && |j.init| == v.Dstate() && (lane > 0 ==> c < |v.lens| && lane <= |state|)
    requires SlotsAre(v, j, m0, m, c, lane, state)
    requires forall x: Loc | x.StateCell? && v.Touches(x) :: m'[x] == m[x]
    ensures SlotsAre(v, j, m0, m', c, lane, state)
  {
    hide Sum, Saved, LaneAfter;
  }

  lemma MemUnaffected(v: View, j: Job, m0: Memory, m: Memory, m': Memory, k: Mark)
    requires v.Valid() && v.Backed(m0) && v.Backed(m) && v.Backed(m') && k.Fits(v)
    requires |j.ys| == |j.gs| == |j.zs| == |j.deltas| == v.Count() && |j.init| == v.Dstate()
    requires MemIs(v, j, m0, m, k) && SameFor(v, m, m')
    ensures MemIs(v, j, m0, m', k)
  {
    hide Sum, OutIs, GateIs, SlotsAre;
    OutUnaffected(v, j, m, m', k.outs);
    GateUnaffected(v, j, m, m', k.gates);
    SlotsUnaffected(v, j, m0, m, m', k.chunks, k.lanes, k.state);
  }

  /** What a program has done is not affected by changes to cells it does not touch. */
  lemma Unaffected(v: View, m0: Memory, l: Local, m: Memory, m': Memory)
    requires v.Valid() && v.Backed(m0) && v.Backed(m) && v.Backed(m') && OnTrack(v, m0, l, m)
    requires SameFor(v, m, m')
    ensures OnTrack(v, m0, l, m')
  {
    hide Sum, JobIn, RegistersAre, MemIs, SameFor, Sane, MarkOf;
    MarkFits(v, l);
    MemUnaffected(v, JobIn(v, m0), m0, m, m', MarkOf(v, l));
  }

  // ----- A program's own steps -----

  /** A lane of the slot that is loaded is as it was at the start until the program saves something. */
  lemma LaneAsItWas(v: View, m0: Memory, m: Memory, got: seq<real>, n: nat)
    requires v.Valid() && v.Backed(m0) && v.Backed(m) && OnTrack(v, m0, Loading(got), m) && v.loads.Some? && n < v.Dstate()
    ensures StateCell(v.loads.value, v.d, n) in m && m[StateCell(v.loads.value, v.d, n)] == JobIn(v, m0).init[n]
  {
    hide Outputs, GatedAll, Sum, Saved, LaneAfter, TokensOf, OutIs, GateIs;
    assert v.Touches(StateCell(v.loads.value, v.d, n));
    NothingSaved(v, JobIn(v, m0), v.loads.value, n, m0[StateCell(v.loads.value, v.d, n)]);
  }

  lemma LoadStep(v: View, m0: Memory, got: seq<real>, m: Memory)
    requires v.Valid() && v.Backed(m0) && v.Backed(m) && OnTrack(v, m0, Loading(got), m)
    ensures OnTrack(v, m0, Step(v, Loading(got), m).0, m)
  {
    hide Outputs, GatedAll, Sum, Saved, LaneAfter, TokensOf, OutIs, GateIs, SlotsAre;
    var j := JobIn(v, m0);
    SumPrefixBound(v.lens, 1);
    EmptySum(v.lens);
    if v.loads.Some? && |got| < v.Dstate() { LaneAsItWas(v, m0, m, got, |got|); }
    assert TokensOf(v.f, j.deltas)[..0] == [];
  }

  lemma EmptySum(s: seq<nat>)
    ensures Sum(s[..0]) == 0
  {}

  lemma NothingSaved(v: View, j: Job, s: int, n: nat, was: real)
    requires v.Valid() && |j.deltas| == v.Count() && |j.init| == v.Dstate()
    ensures LaneAfter(Saved(v.f, j.init, j.deltas, v.lens, v.slots, 0), s, n, was) == was
  {}

  /** Reading a position computes the next state and output of the plain scan. */
  lemma ReadStep(v: View, m0: Memory, c: nat, pos: nat, state: seq<real>, m: Memory)
    requires v.Valid() && v.Backed(m0) && v.Backed(m) && OnTrack(v, m0, Reading(c, pos, state), m)
    ensures OnTrack(v, m0, Step(v, Reading(c, pos, state), m).0, m)
  {
    hide Outputs, GatedAll, Sum, Saved, LaneAfter, SlotsAre, GateIs, StateAfter, Advance, Readout, TokenAt;
    var j := JobIn(v, m0);
    if pos < Sum(v.lens[..c + 1]) {
      var toks := TokensOf(v.f, j.deltas);
      assert m[Cell(v.base + pos)] == j.deltas[pos];
      assert toks[pos] == TokenAt(v.f, pos, j.deltas[pos]);
      ScanNext(v.f.ch, j.init, toks, pos);
    } else {
      NoLaneYet(v, j, m0, m, c, state);
    }
  }

  lemma NoLaneYet(v: View, j: Job, m0: Memory, m: Memory, c: nat, state: seq<real>)
    requires v.Valid() && v.Backed(m0) && v.Backed(m) && c <= |v.lens| && |j.deltas| == v.Count() && |j.init| == v.Dstate()
    requires SlotsAre(v, j, m0, m, c, 0, [])
    ensures SlotsAre(v, j, m0, m, c, 0, state)
  {
    hide Saved, LaneAfter;
  }

  lemma StoreStep(v: View, m0: Memory, c: nat, pos: nat, state: seq<real>, y: real, m: Memory)
    requires v.Valid() && v.Backed(m0) && v.Backed(m) && OnTrack(v, m0, Storing(c, pos, state, y), m)
    ensures v.Backed(Step(v, Storing(c, pos, state, y), m).1)
    ensures OnTrack(v, m0, Step(v, Storing(c, pos, state, y), m).0, Step(v, Storing(c, pos, state, y), m).1)
  {
    hide Outputs, GatedAll, Sum, Saved, LaneAfter, SlotsAre, GateIs, ScanState, JobIn;
    var (j, m') := (JobIn(v, m0), Step(v, Storing(c, pos, state, y), m).1);
    GateUnaffected(v, j, m, m', pos);
    SlotsUnaffected(v, j, m0, m, m', c, 0, []);
    assert OutIs(v, j, m', pos + 1);
    if !v.hasZ { NoGates(v, j, m', pos); }
  }

  lemma NoGates(v: View, j: Job, m: Memory, w: nat)
    requires v.Backed(m) && |j.gs| == |j.zs| == v.Count() && !v.hasZ
    ensures GateIs(v, j, m, w + 1)
  {}

  lemma GateStep(v: View, m0: Memory, c: nat, pos: nat, state: seq<real>, y: real, m: Memory)
    requires v.Valid() && v.Backed(m0) && v.Backed(m) && OnTrack(v, m0, Gating(c, pos, state, y), m)
    ensures OnTrack(v, m0, Step(v, Gating(c, pos, state, y), m).0, m)
  {
    hide Outputs, Sum, Saved, LaneAfter, SlotsAre, OutIs, ScanState, JobIn, Gated;
    assert v.Touches(GateCell(v.zBase + pos));
  }

  lemma EmitStep(v: View, m0: Memory, c: nat, pos: nat, state: seq<real>, g: real, m: Memory)
    requires v.Valid() && v.Backed(m0) && v.Backed(m) && OnTrack(v, m0, Emitting(c, pos, state, g), m)
    ensures v.Backed(Step(v, Emitting(c, pos, state, g), m).1)
    ensures OnTrack(v, m0, Step(v, Emitting(c, pos, state, g), m).0, Step(v, Emitting(c, pos, state, g), m).1)
  {
    hide Outputs, Sum, Saved, LaneAfter, SlotsAre, OutIs, ScanState, JobIn, Gated, GatedAll;
    var (j, m') := (JobIn(v, m0), Step(v, Emitting(c, pos, state, g), m).1);
    OutUnaffected(v, j, m, m', pos + 1);
    SlotsUnaffected(v, j, m0, m, m', c, 0, []);
    assert GateIs(v, j, m', pos + 1);
  }

  /** Saving a lane. */
  lemma LaneStep(v: View, m0: Memory, c: nat, pos: nat, state: seq<real>, lane: nat, m: Memory)
    requires v.Valid() && v.Backed(m0) && v.Backed(m) && OnTrack(v, m0, Saving(c, pos, state, lane), m) && lane < v.Dstate()
    ensures v.Backed(Step(v, Saving(c, pos, state, lane), m).1)
    ensures OnTrack(v, m0, Step(v, Saving(c, pos, state, lane), m).0, Step(v, Saving(c, pos, state, lane), m).1)
  {
    hide Outputs, GatedAll, Sum, Saved, LaneAfter, GateIs, OutIs, ScanState, JobIn;
    var (j, m') := (JobIn(v, m0), Step(v, Saving(c, pos, state, lane), m).1);
    OutUnaffected(v, j, m, m', pos);
    GateUnaffected(v, j, m, m', pos);
    assert SlotsAre(v, j, m0, m', c, lane + 1, state);
  }

  /** Once all lanes are saved, the chunk's state counts as saved. */
  lemma ChunkDone(v: View, j: Job, m0: Memory, m: Memory, c: nat, state: seq<real>)
    requires v.Valid() && v.Backed(m0) && v.Backed(m) && c < |v.lens| && |j.deltas| == v.Count() && |j.init| == v.Dstate()
    requires |state| == v.Dstate() && Sum(v.lens[..c + 1]) <= |j.deltas| && state == ScanState(v, j, Sum(v.lens[..c + 1]))
    requires SlotsAre(v, j, m0, m, c, v.Dstate(), state)
    ensures SlotsAre(v, j, m0, m, c + 1, 0, [])
  {
    hide Sum, StateAfter, TokensOf;
    var ws := Saved(v.f, j.init, j.deltas, v.lens, v.slots, c);
    var ws' := Saved(v.f, j.init, j.deltas, v.lens, v.slots, c + 1);
    assert ws' == ws + [Write(v.slots[c], state)];
    assert ws'[..|ws|] == ws;
    forall x: Loc | x.StateCell? && v.Touches(x) ensures m[x] == LaneAfter(ws', x.slot, x.lane, m0[x]) {
      if x.slot != v.slots[c] {
        assert Latest(ws', x.slot) == Latest(ws, x.slot);
      }
    }
  }

  lemma SaveStep(v: View, m0: Memory, c: nat, pos: nat, state: seq<real>, lane: nat, m: Memory)
    requires v.Valid() && v.Backed(m0) && v.Backed(m) && OnTrack(v, m0, Saving(c, pos, state, lane), m)
    ensures v.Backed(Step(v, Saving(c, pos, state, lane), m).1)
    ensures OnTrack(v, m0, Step(v, Saving(c, pos, state, lane), m).0, Step(v, Saving(c, pos, state, lane), m).1)
  {
    hide Outputs, GatedAll, Sum, Saved, LaneAfter, GateIs, OutIs, SlotsAre, ScanState, JobIn;
    if lane < v.Dstate() {
      LaneStep(v, m0, c, pos, state, lane, m);
    } else {
      ChunkDone(v, JobIn(v, m0), m0, m, c, state);
      if c + 1 < |v.lens| {
        SumNext(v.lens, c + 1);
        SumPrefixBound(v.lens, c + 2);
      } else {
        assert v.lens[..c + 1] == v.lens;
      }
    }
  }

  /** Every step of a program keeps it on track. */
  lemma OwnStep(v: View, m0: Memory, l: Local, m: Memory)
    requires v.Valid() && v.Backed(m0) && v.Backed(m) && OnTrack(v, m0, l, m)
    ensures v.Backed(Step(v, l, m).1) && OnTrack(v, m0, Step(v, l, m).0, Step(v, l, m).1)
  {
    hide Sum, JobIn, ScanState, MemIs;
    match l
    case Loading(got) => LoadStep(v, m0, got, m);
    case Reading(c, pos, state) => ReadStep(v, m0, c, pos, state, m);
    case Storing(c, pos, state, y) => StoreStep(v, m0, c, pos, state, y, m);
    case Gating(c, pos, state, y) => GateStep(v, m0, c, pos, state, y, m);
    case Emitting(c, pos, state, g) => EmitStep(v, m0, c, pos, state, g, m);
    case Saving(c, pos, state, lane) => SaveStep(v, m0, c, pos, state, lane, m);
    case Done =>
  }

  // ----- Any interleaving -----

  datatype Prog = Prog(b: nat, d: nat)

  datatype System = System(locals: map<Prog, Local>, mem: Memory)

  /** No program writes what another reads or writes. */
  ghost predicate Independent(vs: map<Prog, View>) {
    && (forall p | p in vs :: vs[p].Valid())
    && (forall p, q, x | p in vs && q in vs && p != q && vs[p].Writes(x) :: !vs[q].Touches(x))
  }

  ghost predicate Complete(vs: map<Prog, View>, m: Memory) {
    forall p | p in vs :: vs[p].Backed(m)
  }

  ghost function Start(vs: map<Prog, View>, m: Memory): System {
    System(map p | p in vs :: Loading([]), m)
  }

  /** Every program is on track, and cells that no program writes are as they were. */
  ghost predicate Sound(vs: map<Prog, View>, m0: Memory, s: System)
    requires Independent(vs) && Complete(vs, m0)
  {
    && s.locals.Keys == vs.Keys && s.mem.Keys == m0.Keys
    && (forall p | p in vs :: vs[p].Backed(s.mem) && OnTrack(vs[p], m0, s.locals[p], s.mem))
    && (forall x | x in m0 && (forall p | p in vs :: !vs[p].Writes(x)) :: s.mem[x] == m0[x])
  }

  /** Program `p` takes a step; programs that the launch does not have take none. */
  ghost function Next(vs: map<Prog, View>, m0: Memory, s: System, p: Prog): System
    requires Independent(vs) && Complete(vs, m0) && Sound(vs, m0, s)
  {
    if p !in vs then s
    else
      var r := Step(vs[p], s.locals[p], s.mem);
      System(s.locals[p := r.0], r.1)
  }

  lemma StartSound(vs: map<Prog, View>, m: Memory)
    requires Independent(vs) && Complete(vs, m)
    ensures Sound(vs, m, Start(vs, m))
  {
    hide OnTrack, Sum;
    forall p | p in vs ensures OnTrack(vs[p], m, Loading([]), m) {
      StartsOnTrack(vs[p], m);
    }
  }

  lemma NextSound(vs: map<Prog, View>, m0: Memory, s: System, p: Prog)
    requires Independent(vs) && Complete(vs, m0) && Sound(vs, m0, s)
    ensures Sound(vs, m0, Next(vs, m0, s, p))
  {
    hide OnTrack, Step, Sum;
    if p in vs {
      var s' := Next(vs, m0, s, p);
      StepOk(vs[p], m0, s.locals[p], s.mem);
      OwnStep(vs[p], m0, s.locals[p], s.mem);
      forall q | q in vs ensures vs[q].Backed(s'.mem) && OnTrack(vs[q], m0, s'.locals[q], s'.mem) {
        if q != p {
          assert SameFor(vs[q], s.mem, s'.mem) by {
            assert forall x | vs[q].Touches(x) :: !vs[p].Writes(x);
          }
          Unaffected(vs[q], m0, s.locals[q], s.mem, s'.mem);
        }
      }
    }
  }

  lemma StepOk(v: View, m0: Memory, l: Local, m: Memory)
    requires v.Valid() && v.Backed(m0) && v.Backed(m) && OnTrack(v, m0, l, m)
    ensures Sane(v, l)
    ensures var m' := Step(v, l, m).1;
            m'.Keys == m.Keys && forall x | x in m && !v.Writes(x) :: m'[x] == m[x]
  {
    hide Step;
    StepFrame(v, l, m);
  }

  /** The launch after the programs have taken steps in the given order. */
  ghost function Run(vs: map<Prog, View>, m0: Memory, schedule: seq<Prog>): (s: System)
    requires Independent(vs) && Complete(vs, m0)
    ensures Sound(vs, m0, s)
  {
    if schedule == [] then
      StartSound(vs, m0);
      Start(vs, m0)
    else
      var last := |schedule| - 1;
      var s := Run(vs, m0, schedule[..last]);
      NextSound(vs, m0, s, schedule[last]);
      Next(vs, m0, s, schedule[last])
  }

  /** What a finished program leaves in a cell it writes: the plain scan's output, gated output or saved state. */
  ghost function Result(v: View, m0: Memory, x: Loc): real
    requires v.Valid() && v.Backed(m0) && v.Writes(x)
  {
    var j := JobIn(v, m0);
    match x
    case Cell(a) => j.ys[a - v.base]
    case GateCell(a) => j.gs[a - v.zBase]
    case StateCell(s, _, n) => LaneAfter(Saved(v.f, j.init, j.deltas, v.lens, v.slots, |v.lens|), s, n, m0[x])
  }

  lemma OutCell(v: View, j: Job, m: Memory, q: nat)
    requires v.Backed(m) && |j.ys| == |j.deltas| == v.Count() && OutIs(v, j, m, v.Count()) && q < v.Count()
    ensures Cell(v.base + q) in m && m[Cell(v.base + q)] == j.ys[q]
  {
    hide Sum;
    assert v.Touches(Cell(v.base + q));
  }

  lemma GateOutCell(v: View, j: Job, m: Memory, q: nat)
    requires v.Backed(m) && |j.gs| == |j.zs| == v.Count() && GateIs(v, j, m, v.Count()) && q < v.Count() && v.hasZ
    ensures GateCell(v.zBase + q) in m && m[GateCell(v.zBase + q)] == j.gs[q]
  {
    hide Sum;
    assert v.Touches(GateCell(v.zBase + q));
  }

  lemma DoneResult(v: View, m0: Memory, m: Memory, x: Loc)
    requires v.Valid() && v.Backed(m0) && v.Backed(m) && OnTrack(v, m0, Done, m) && v.Writes(x)
    ensures m[x] == Result(v, m0, x)
  {
    hide Sum, JobIn, Saved, LaneAfter, OutIs, GateIs, SlotsAre, RegistersAre;
    match x
    case Cell(a) => DoneCell(v, m0, m, a);
    case GateCell(a) => DoneGate(v, m0, m, a);
    case StateCell(_, _, _) => SavedCell(v, JobIn(v, m0), m0, m, x);
  }

  lemma DoneCell(v: View, m0: Memory, m: Memory, a: nat)
    requires v.Valid() && v.Backed(m0) && v.Backed(m) && OnTrack(v, m0, Done, m) && v.Writes(Cell(a))
    ensures m[Cell(a)] == Result(v, m0, Cell(a))
  {
    hide Sum, JobIn, Saved, LaneAfter, OutIs, GateIs, SlotsAre, RegistersAre;
    OutCell(v, JobIn(v, m0), m, a - v.base);
  }

  lemma DoneGate(v: View, m0: Memory, m: Memory, a: nat)
    requires v.Valid() && v.Backed(m0) && v.Backed(m) && OnTrack(v, m0, Done, m) && v.Writes(GateCell(a))
    ensures m[GateCell(a)] == Result(v, m0, GateCell(a))
  {
    hide Sum, JobIn, Saved, LaneAfter, OutIs, GateIs, SlotsAre, RegistersAre;
    GateOutCell(v, JobIn(v, m0), m, a - v.zBase);
  }

  lemma SavedCell(v: View, j: Job, m0: Memory, m: Memory, x: Loc)
    requires v.Valid() && v.Backed(m0) && v.Backed(m) && |j.deltas| == v.Count() && |j.init| == v.Dstate()
    requires SlotsAre(v, j, m0, m, |v.lens|, 0, []) && v.Writes(x) && x.StateCell?
    ensures m[x] == LaneAfter(Saved(v.f, j.init, j.deltas, v.lens, v.slots, |v.lens|), x.slot, x.lane, m0[x])
  {
    hide Sum, Saved, LaneAfter;
    assert v.Touches(x);
  }

  ghost predicate Finished(vs: map<Prog, View>, m0: Memory, schedule: seq<Prog>)
    requires Independent(vs) && Complete(vs, m0)
  {
    forall p | p in vs :: Run(vs, m0, schedule).locals[p].Done?
  }

  /** However the steps are interleaved, once all programs have finished each cell holds what its writer's
      plain scan of the launch's initial memory puts there, and all other cells are untouched. */
  lemma FinalMemory(vs: map<Prog, View>, m0: Memory, schedule: seq<Prog>, x: Loc)
    requires Independent(vs) && Complete(vs, m0) && Finished(vs, m0, schedule) && x in m0
    ensures x in Run(vs, m0, schedule).mem
    ensures forall p | p in vs && vs[p].Writes(x) :: Run(vs, m0, schedule).mem[x] == Result(vs[p], m0, x)
    ensures (forall p | p in vs :: !vs[p].Writes(x)) ==> Run(vs, m0, schedule).mem[x] == m0[x]
  {
    hide OnTrack, Run, Result, Sum;
    var s := Run(vs, m0, schedule);
    forall p | p in vs && vs[p].Writes(x) ensures s.mem[x] == Result(vs[p], m0, x) {
      DoneResult(vs[p], m0, s.mem, x);
    }
  }

  /** Any two complete interleavings of the launch end in the same memory. */
  lemma OneOutcome(vs: map<Prog, View>, m0: Memory, schedule1: seq<Prog>, schedule2: seq<Prog>)
    requires Independent(vs) && Complete(vs, m0) && Finished(vs, m0, schedule1) && Finished(vs, m0, schedule2)
    ensures Run(vs, m0, schedule1).mem == Run(vs, m0, schedule2).mem
  {
    hide OnTrack, Run, Result, Sum, Finished;
    var (a, b) := (Run(vs, m0, schedule1).mem, Run(vs, m0, schedule2).mem);
    forall x | x in m0 ensures x in a && x in b && a[x] == b[x] {
      FinalMemory(vs, m0, schedule1, x);
      FinalMemory(vs, m0, schedule2, x);
    }
  }

  // ----- Every program finishes -----

  /** Steps a program needs for chunks `c` and later. */
  ghost function ChunkSteps(v: View, c: nat): nat
    decreases |v.lens| - c
  {
    if c >= |v.lens| then 0
    else PerToken(v) * v.lens[c] + v.Dstate() + 2 + ChunkSteps(v, c + 1)
  }

  ghost function PerToken(v: View): nat { if v.hasZ then 4 else 2 }

  /** Steps left until the program has finished. */
  ghost function Left(v: View, l: Local): nat
    requires v.Valid() && Sane(v, l)
  {
    match l
    case Loading(got) => (if v.loads.Some? then v.Dstate() - |got| else 0) + 1 + ChunkSteps(v, 0)
    case Reading(c, pos, _) => PerToken(v) * (Sum(v.lens[..c + 1]) - pos) + v.Dstate() + 2 + ChunkSteps(v, c + 1)
    case Storing(c, pos, _, _) => PerToken(v) * (Sum(v.lens[..c + 1]) - pos) - 1 + v.Dstate() + 2 + ChunkSteps(v, c + 1)
    case Gating(c, pos, _, _) => 4 * (Sum(v.lens[..c + 1]) - pos) - 2 + v.Dstate() + 2 + ChunkSteps(v, c + 1)
    case Emitting(c, pos, _, _) => 4 * (Sum(v.lens[..c + 1]) - pos) - 3 + v.Dstate() + 2 + ChunkSteps(v, c + 1)
    case Saving(c, _, _, n) => v.Dstate() - n + 1 + ChunkSteps(v, c + 1)
    case Done => 0
  }

  lemma StepSane(v: View, m0: Memory, l: Local, m: Memory)
    requires v.Valid() && v.Backed(m0) && v.Backed(m) && OnTrack(v, m0, l, m)
    ensures Sane(v, l) && Sane(v, Step(v, l, m).0)
  {
    hide MemIs, RegistersAre, JobIn, Step, Sane;
    OwnStep(v, m0, l, m);
  }

  /** Every step but the idle one of a finished program brings it closer to the end. */
  lemma StepCloser(v: View, m0: Memory, l: Local, m: Memory)
    requires v.Valid() && v.Backed(m0) && v.Backed(m) && OnTrack(v, m0, l, m)
    ensures Sane(v, l) && Sane(v, Step(v, l, m).0)
    ensures l.Done? <==> Left(v, l) == 0
    ensures !l.Done? ==> Left(v, Step(v, l, m).0) == Left(v, l) - 1
  {
    hide OnTrack, Advance, Readout, TokenAt, StartState, Gated, Sum;
    StepSane(v, m0, l, m);
    match l
    case Loading(_) =>
      SumNext(v.lens, 0);
      EmptySum(v.lens);
    case Reading(_, _, _) =>
    case Storing(_, _, _, _) =>
    case Gating(_, _, _, _) =>
    case Emitting(_, _, _, _) =>
    case Saving(c, pos, _, n) =>
      if n == v.Dstate() && c + 1 < |v.lens| {
        SumNext(v.lens, c + 1);
      }
    case Done =>
  }

  lemma {:induction false} LeftAfter(vs: map<Prog, View>, m0: Memory, schedule: seq<Prog>, p: Prog)
    requires Independent(vs) && Complete(vs, m0) && p in vs
    ensures Sane(vs[p], Run(vs, m0, schedule).locals[p])
    ensures var (turns, need) := (multiset(schedule)[p], Left(vs[p], Loading([])));
            Left(vs[p], Run(vs, m0, schedule).locals[p]) == if turns < need then need - turns else 0
    decreases |schedule|
  {
    hide OnTrack, Step, Sum, ChunkSteps, Left, Sane;
    var s := Run(vs, m0, schedule);
    if schedule == [] {
      FirstLeft(vs[p]);
    } else {
      var last := |schedule| - 1;
      var was := Run(vs, m0, schedule[..last]);
      LeftAfter(vs, m0, schedule[..last], p);
      assert schedule == schedule[..last] + [schedule[last]];
      StepCloser(vs[p], m0, was.locals[p], was.mem);
      if schedule[last] == p && was.locals[p].Done? {
        DoneStays(vs[p], was.mem);
      }
    }
  }

  lemma FirstLeft(v: View)
    requires v.Valid()
    ensures Sane(v, Loading([])) && Left(v, Loading([])) > 0
  {}

  lemma DoneStays(v: View, m: Memory)
    requires v.Valid() && v.Backed(m)
    ensures Sane(v, Done) && Step(v, Done, m) == (Done, m) && Left(v, Done) == 0
  {}

  /** A launch in which every program gets enough turns finishes, in whatever order the turns come. */
  lemma EnoughTurns(vs: map<Prog, View>, m0: Memory, schedule: seq<Prog>)
    requires Independent(vs) && Complete(vs, m0)
    requires forall p | p in vs :: multiset(schedule)[p] >= Left(vs[p], Loading([]))
    ensures Finished(vs, m0, schedule)
  {
    hide OnTrack, Run, Sum;
    forall p | p in vs ensures Run(vs, m0, schedule).locals[p].Done? {
      var s := Run(vs, m0, schedule);
      LeftAfter(vs, m0, schedule, p);
      StepCloser(vs[p], m0, s.locals[p], s.mem);
    }
  }
}
