/**
 * A request that is served by several launches, one after another.  In each launch all programs run at once, in any
 * order.  Each later launch loads the state that the one before saved: at the end of its tokens, or at any block
 * boundary that it crossed (a cached prefix).  Between launches the token buffers are filled anew.
 */
module ScanResume {
  import opened Arithmetic
  import opened Options
  import opened ScanRecurrence
  import opened ScanChunks
  import opened SelectiveScan
  import opened ChunkPlan
  import opened ScanCheckpoints
  import opened ScanServing
  import opened ScanGrid
  import ScanLaunch

  /** One launch: its parameters, the memory it starts in, the order in which its programs take their steps, the
      sequence that belongs to the request, and where the next launch resumes (at a block boundary, or at the end). */
  datatype Leg = Leg(k: Launch, hasZ: bool, batch: nat, dim: nat, mem: Memory, schedule: seq<Prog>,
                     plan: Batch, b: nat, boundary: Option<nat>)

  ghost function ViewsOf(l: Leg): map<Prog, View>
    requires ScanLaunch.AllReady(l.k, l.batch)
  {
    ScanLaunch.Views(l.k, l.hasZ, l.batch, l.dim)
  }

  /** The launch has run to its end, and channel `d` of the request's sequence is one of its programs. */
  ghost predicate Ran(l: Leg, d: nat) {
    && ScanLaunch.AllReady(l.k, l.batch)
    && Independent(ViewsOf(l)) && ScanGrid.Complete(ViewsOf(l), l.mem) && Finished(ViewsOf(l), l.mem, l.schedule)
    && Prog(l.b, d) in ViewsOf(l)
  }

  ghost function ViewIn(l: Leg, d: nat): (v: View)
    requires Ran(l, d)
    ensures v.Valid() && v.Backed(l.mem) && v.Dstate() == l.k.dstate && v.f.ch == ChannelOf(l.k, d)
  {
    ViewsOf(l)[Prog(l.b, d)]
  }

  /** The memory that the launch leaves. */
  ghost function After(l: Leg, d: nat): Memory
    requires Ran(l, d)
  {
    ScanGrid.Run(ViewsOf(l), l.mem, l.schedule).mem
  }

  ghost function JobFor(l: Leg, d: nat): (j: Job)
    requires Ran(l, d)
    ensures j.For(ViewIn(l, d).f) && |j.init| == l.k.dstate && |j.deltas| == |j.ys| == |j.gs| == |j.zs| == ViewIn(l, d).Count()
  {
    JobIn(ViewIn(l, d), l.mem)
  }

  /** The tokens that the launch scans. */
  ghost function TokensIn(l: Leg, d: nat): (toks: seq<Token>)
    requires Ran(l, d)
    ensures Fits(ChannelOf(l.k, d), toks) && |toks| == ViewIn(l, d).Count()
  {
    TokensOf(ViewIn(l, d).f, JobFor(l, d).deltas)
  }

  // ----- What one launch leaves for the next -----

  /** The next launch resumes at the end, or at a boundary that the planned sequence crosses. */
  ghost predicate Cuts(l: Leg) {
    l.boundary.Some? ==>
      Planned(l.k, l.plan, l.b) && OwnSlots(l.k, l.b) && Crosses(l.k, l.plan, l.b, l.boundary.value)
  }

  /** How many of the launch's tokens come before that point, */
  ghost function Taken(l: Leg, d: nat): nat
    requires Ran(l, d) && Cuts(l)
  {
    if l.boundary.Some? then Before(l.k, l.plan, l.b, l.boundary.value) else ViewIn(l, d).Count()
  }

  /** the slot in which the state at that point is to be found, */
  ghost function CutSlot(l: Leg, d: nat): int
    requires Ran(l, d) && Cuts(l)
  {
    if l.boundary.Some? then SlotBefore(l.k, l.b, l.boundary.value)
    else
      var slots := ViewIn(l, d).slots;
      slots[|slots| - 1]
  }

  /** The first `n` tokens, or all of them. */
  ghost function Front(ch: Channel, toks: seq<Token>, n: nat): (r: seq<Token>)
    requires Fits(ch, toks)
    ensures Fits(ch, r)
  {
    UpTo(toks, n)
  }

  /** the tokens before that point, */
  ghost function PartOf(l: Leg, d: nat): (toks: seq<Token>)
    requires Ran(l, d) && Cuts(l)
    ensures Fits(ChannelOf(l.k, d), toks)
  {
    Front(ChannelOf(l.k, d), TokensIn(l, d), Taken(l, d))
  }

  /** and the state that the plain recurrence reaches with them. */
  ghost function Reached(l: Leg, d: nat): (s: seq<real>)
    requires Ran(l, d) && Cuts(l)
    ensures |s| == l.k.dstate
  {
    StateAfter(ChannelOf(l.k, d), JobFor(l, d).init, PartOf(l, d))
  }

  /** The slot holds the state `s` for channel `d`. */
  ghost predicate Holds(m: Memory, slot: int, d: nat, s: seq<real>) {
    forall n | 0 <= n < |s| :: StateCell(slot, d, n) in m && m[StateCell(slot, d, n)] == s[n]
  }

  /** It is the slot of a chunk that ends at that point, and no later chunk is saved there. */
  lemma CutChunk(l: Leg, d: nat) returns (i: nat)
    requires Ran(l, d) && Cuts(l)
    ensures var v := ViewIn(l, d);
            && i < |v.lens| && CutSlot(l, d) == v.slots[i] && Taken(l, d) == Sum(v.lens[..i + 1]) <= v.Count()
            && forall x | i < x < |v.lens| :: v.slots[x] != v.slots[i]
  {
    hide Planned, OwnSlots, Crosses, Before, Sum, Lens, StoreSlots, Independent, Finished, ScanGrid.Complete, ColumnsExist;
    if l.boundary.Some? {
      PlannedDistinct(l.k, l.plan, l.b);
      i := BoundaryChunk(l.k, l.plan, l.b, l.boundary.value);
    } else {
      i := |Lens(l.k, l.b)| - 1;
      assert Lens(l.k, l.b)[..i + 1] == Lens(l.k, l.b);
    }
  }

  /** The last state that the program saves in the slot. */
  ghost function LastSaved(v: View, j: Job, slot: int): Option<seq<real>>
    requires v.Valid() && |j.deltas| == v.Count() && |j.init| == v.Dstate()
  {
    Latest(Saved(v.f, j.init, j.deltas, v.lens, v.slots, |v.lens|), slot)
  }

  lemma DoneSlot(v: View, m0: Memory, m: Memory, slot: int, s: seq<real>)
    requires v.Valid() && v.Backed(m0) && v.Backed(m) && OnTrack(v, m0, Done, m) && slot in v.slots
    requires LastSaved(v, JobIn(v, m0), slot) == Some(s) && |s| == v.Dstate()
    ensures Holds(m, slot, v.d, s)
  {
    hide Sum, JobIn, Saved, OutIs, GateIs, SlotsAre, RegistersAre;
    forall n | 0 <= n < |s| ensures StateCell(slot, v.d, n) in m && m[StateCell(slot, v.d, n)] == s[n] {
      assert v.Touches(StateCell(slot, v.d, n));
      SavedCell(v, JobIn(v, m0), m0, m, StateCell(slot, v.d, n));
    }
  }

  /** What a finished launch leaves in a slot in which one of its programs saved states. */
  lemma FinalSlot(vs: map<Prog, View>, m0: Memory, schedule: seq<Prog>, p: Prog, slot: int, s: seq<real>)
    requires Independent(vs) && ScanGrid.Complete(vs, m0) && Finished(vs, m0, schedule) && p in vs && slot in vs[p].slots
    requires LastSaved(vs[p], JobIn(vs[p], m0), slot) == Some(s) && |s| == vs[p].Dstate()
    ensures Holds(ScanGrid.Run(vs, m0, schedule).mem, slot, vs[p].d, s)
  {
    hide Sum, LastSaved, JobIn, OnTrack, Holds, ScanGrid.Run;
    DoneSlot(vs[p], m0, ScanGrid.Run(vs, m0, schedule).mem, slot, s);
  }

  /** However its programs are interleaved, the launch leaves that state in that slot. */
  lemma StateKept(l: Leg, d: nat)
    requires Ran(l, d) && Cuts(l)
    ensures Holds(After(l, d), CutSlot(l, d), d, Reached(l, d))
  {
    hide Cuts, Sum, Saved, StateAfter, TokensOf, JobIn, Independent, Finished, ScanGrid.Complete, CutSlot, Taken, ScanGrid.Run;
    var (v, j) := (ViewIn(l, d), JobFor(l, d));
    var i := CutChunk(l, d);
    CheckpointAt(v.f, j.init, j.deltas, v.lens, v.slots, |v.lens|, i);
    FinalSlot(ViewsOf(l), l.mem, l.schedule, Prog(l.b, d), v.slots[i], Reached(l, d));
  }

  /** The launch is complete and says where the next one resumes. */
  ghost predicate Served(l: Leg, d: nat) { Ran(l, d) && Cuts(l) }

  /** The second launch runs the same channel and loads that slot, which is as the first one left it. */
  ghost predicate Continued(l: Leg, m: Leg, d: nat)
    requires Served(l, d) && Ran(m, d)
  {
    && ChannelOf(l.k, d) == ChannelOf(m.k, d) && ViewIn(m, d).loads == Some(CutSlot(l, d))
    && Unchanged(After(l, d), m.mem, CutSlot(l, d), d)
  }

  /** The slot's cells are the same in both memories. */
  ghost predicate Unchanged(m: Memory, m': Memory, slot: int, d: nat) {
    forall n | StateCell(slot, d, n) in m && StateCell(slot, d, n) in m' :: m[StateCell(slot, d, n)] == m'[StateCell(slot, d, n)]
  }

  /** So it starts from that state. */
  lemma StartsThere(l: Leg, m: Leg, d: nat)
    requires Served(l, d) && Ran(m, d) && Continued(l, m, d)
    ensures JobFor(m, d).init == Reached(l, d)
  {
    hide Cuts, StateAfter, TokensOf, Independent, Finished, ScanGrid.Complete, CutSlot, Taken, After, Reached;
    StateKept(l, d);
    var v := ViewIn(m, d);
    forall n | 0 <= n < l.k.dstate ensures JobFor(m, d).init[n] == Reached(l, d)[n] {
      assert v.Touches(StateCell(CutSlot(l, d), d, n));
    }
  }

  // ----- Any number of launches -----

  /** A part of a request: the state it is scanned from, and its tokens. */
  datatype Part = Part(init: seq<real>, toks: seq<Token>)

  ghost predicate PartOk(ch: Channel, p: Part) { |p.init| == |ch.A| && Fits(ch, p.toks) }

  /** The second part starts from the state that the first one reaches. */
  ghost predicate Joins(ch: Channel, p: Part, q: Part) { PartOk(ch, p) && q.init == StateAfter(ch, p.init, p.toks) }

  ghost predicate Joined(ch: Channel, parts: seq<Part>) {
    && (forall i | 0 <= i < |parts| :: PartOk(ch, parts[i]))
    && (forall i | 0 < i < |parts| :: Joins(ch, parts[i - 1], parts[i]))
  }

  ghost function AllTokens(parts: seq<Part>): seq<Token> {
    if parts == [] then [] else AllTokens(parts[..|parts| - 1]) + parts[|parts| - 1].toks
  }

  /** If each part joins the one before, the last one starts from the state that a scan of all tokens before it reaches. */
  lemma {:induction false} JoinedState(ch: Channel, parts: seq<Part>)
    requires Joined(ch, parts) && parts != []
    ensures var before := AllTokens(parts[..|parts| - 1]);
            Fits(ch, before) && parts[|parts| - 1].init == StateAfter(ch, parts[0].init, before)
    decreases |parts|
  {
    hide StateAfter;
    var n := |parts| - 1;
    if n == 0 {
      NothingYet(ch, parts[0].init);
    } else {
      JoinedState(ch, parts[..n]);
      assert parts[..n][..n - 1] == parts[..n - 1];
      StateAfterConcat(ch, parts[0].init, AllTokens(parts[..n - 1]), parts[n - 1].toks);
    }
  }

  lemma NothingYet(ch: Channel, init: seq<real>)
    requires |init| == |ch.A|
    ensures StateAfter(ch, init, []) == init
  {}

  /** The part of the request that a launch scans, up to where the next one resumes. */
  ghost function PartIn(l: Leg, d: nat): Part {
    if Served(l, d) then Part(JobFor(l, d).init, PartOf(l, d)) else Part([], [])
  }

  ghost function Parts(legs: seq<Leg>, d: nat): seq<Part> { seq(|legs|, i requires 0 <= i < |legs| => PartIn(legs[i], d)) }

  /** The second launch is complete and continues the first. */
  ghost predicate Next(l: Leg, m: Leg, d: nat) { Served(l, d) && Served(m, d) && Continued(l, m, d) }

  /** The launches serve one request: each of them but the first continues the one before. */
  ghost predicate Chain(legs: seq<Leg>, d: nat) {
    && (forall i | 0 <= i < |legs| :: Served(legs[i], d))
    && (forall i | 0 < i < |legs| :: Next(legs[i - 1], legs[i], d))
  }

  lemma LegPart(l: Leg, d: nat)
    requires Served(l, d)
    ensures PartOk(ChannelOf(l.k, d), PartIn(l, d))
  {
    hide Ran, Cuts;
  }

  lemma NextJoins(l: Leg, m: Leg, d: nat)
    requires Next(l, m, d)
    ensures ChannelOf(l.k, d) == ChannelOf(m.k, d) && Joins(ChannelOf(l.k, d), PartIn(l, d), PartIn(m, d))
  {
    hide Ran, Cuts, PartOf, JobFor, StateAfter;
    LegPart(l, d);
    StartsThere(l, m, d);
  }

  lemma {:induction false} OneChannel(legs: seq<Leg>, d: nat, i: nat)
    requires Chain(legs, d) && i < |legs|
    ensures ChannelOf(legs[i].k, d) == ChannelOf(legs[0].k, d)
  {
    hide Served, ChannelOf, Next, Joins, PartIn;
    if i > 0 {
      OneChannel(legs, d, i - 1);
      NextJoins(legs[i - 1], legs[i], d);
    }
  }

  lemma ChainJoins(legs: seq<Leg>, d: nat)
    requires Chain(legs, d) && legs != []
    ensures Joined(ChannelOf(legs[0].k, d), Parts(legs, d))
  {
    hide Served, ChannelOf, PartIn, PartOk, Next, Joins;
    var (ch, parts) := (ChannelOf(legs[0].k, d), Parts(legs, d));
    forall i | 0 <= i < |legs| ensures PartOk(ch, parts[i]) {
      OneChannel(legs, d, i);
      LegPart(legs[i], d);
    }
    forall i | 0 < i < |legs| ensures Joins(ch, parts[i - 1], parts[i]) {
      NextJoins(legs[i - 1], legs[i], d);
      OneChannel(legs, d, i - 1);
    }
  }

  /** The row of a program holds `ys`, and with a gate its gate row holds `gs`. */
  ghost predicate RowIs(m: Memory, v: View, ys: seq<real>, gs: seq<real>) {
    && |ys| == |gs|
    && (forall p | 0 <= p < |ys| :: Cell(v.base + p) in m && m[Cell(v.base + p)] == ys[p])
    && (v.hasZ ==> forall p | 0 <= p < |gs| :: GateCell(v.zBase + p) in m && m[GateCell(v.zBase + p)] == gs[p])
  }

  /** The row of a program holds the outputs, and with a gate the gated outputs, that a scan of `prefix` and `toks`
      from `init` gives to `toks`. */
  ghost predicate RowHolds(m: Memory, v: View, ch: Channel, init: seq<real>, prefix: seq<Token>, toks: seq<Token>, zs: seq<real>)
    requires |init| == |ch.A| && Fits(ch, prefix + toks) && |toks| == |zs|
  {
    var ys := Outputs(ch, init, prefix + toks)[|prefix|..];
    RowIs(m, v, ys, GatedAll(ch.exp, ys, zs))
  }

  lemma RowOut(v: View, j: Job, m: Memory)
    requires v.Backed(m) && |j.ys| == |j.deltas| == |j.gs| == |j.zs| == v.Count()
    requires OutIs(v, j, m, v.Count()) && GateIs(v, j, m, v.Count())
    ensures RowIs(m, v, j.ys, j.gs)
  {
    hide Sum, OutIs, GateIs;
    forall p | 0 <= p < |j.ys| ensures Cell(v.base + p) in m && m[Cell(v.base + p)] == j.ys[p] { OutCell(v, j, m, p); }
    if v.hasZ {
      forall p | 0 <= p < |j.gs| ensures GateCell(v.zBase + p) in m && m[GateCell(v.zBase + p)] == j.gs[p] {
        GateOutCell(v, j, m, p);
      }
    }
  }

  lemma DoneRow(v: View, m0: Memory, m: Memory)
    requires v.Valid() && v.Backed(m0) && v.Backed(m) && OnTrack(v, m0, Done, m)
    ensures RowIs(m, v, JobIn(v, m0).ys, JobIn(v, m0).gs)
  {
    hide Sum, JobIn, OutIs, GateIs, SlotsAre, RegistersAre, RowIs;
    RowOut(v, JobIn(v, m0), m);
  }

  /** What a finished launch leaves in the rows of its programs. */
  lemma FinalRow(vs: map<Prog, View>, m0: Memory, schedule: seq<Prog>, p: Prog)
    requires Independent(vs) && ScanGrid.Complete(vs, m0) && Finished(vs, m0, schedule) && p in vs
    ensures RowIs(ScanGrid.Run(vs, m0, schedule).mem, vs[p], JobIn(vs[p], m0).ys, JobIn(vs[p], m0).gs)
  {
    hide Sum, JobIn, OnTrack, RowIs, ScanGrid.Run;
    DoneRow(vs[p], m0, ScanGrid.Run(vs, m0, schedule).mem);
  }

  /** The outputs of a scan that started from the state after `prefix` are those of the whole scan. */
  lemma RowContinues(m: Memory, v: View, f: Feed, j: Job, init: seq<real>, prefix: seq<Token>)
    requires j.For(f) && RowIs(m, v, j.ys, j.gs) && |j.ys| == |j.zs|
    requires |init| == |f.ch.A| && Fits(f.ch, prefix) && j.init == StateAfter(f.ch, init, prefix)
    ensures Fits(f.ch, prefix + TokensOf(f, j.deltas))
    ensures RowHolds(m, v, f.ch, init, prefix, TokensOf(f, j.deltas), j.zs)
  {
    hide StateAfter, Outputs, GatedAll, TokensOf, RowIs;
    ResumedOutputs(f.ch, init, prefix, TokensOf(f, j.deltas));
  }

  /** The launch `l` served its part of the request as if everything from `init` on had been scanned at once. */
  ghost predicate AsOne(l: Leg, d: nat, init: seq<real>, prefix: seq<Token>)
    requires Served(l, d)
  {
    var ch := ChannelOf(l.k, d);
    && |init| == |ch.A| && Fits(ch, prefix) && Fits(ch, prefix + TokensIn(l, d)) && Fits(ch, prefix + PartOf(l, d))
    && RowHolds(After(l, d), ViewIn(l, d), ch, init, prefix, TokensIn(l, d), JobFor(l, d).zs)
    && Holds(After(l, d), CutSlot(l, d), d, StateAfter(ch, init, prefix + PartOf(l, d)))
  }

  lemma LegAsOne(l: Leg, d: nat, init: seq<real>, prefix: seq<Token>)
    requires Served(l, d) && |init| == l.k.dstate && Fits(ChannelOf(l.k, d), prefix)
    requires JobFor(l, d).init == StateAfter(ChannelOf(l.k, d), init, prefix)
    ensures AsOne(l, d, init, prefix)
  {
    hide Cuts, StateAfter, Outputs, CutSlot, TokensOf, Taken, PartOf, JobIn, Independent, Finished, ScanGrid.Complete, ScanGrid.Run;
    StateAfterConcat(ChannelOf(l.k, d), init, prefix, PartOf(l, d));
    StateKept(l, d);
    FinalRow(ViewsOf(l), l.mem, l.schedule, Prog(l.b, d));
    RowContinues(After(l, d), ViewIn(l, d), ViewIn(l, d).f, JobFor(l, d), init, prefix);
  }

  /** A request served by any number of launches, each in any interleaving, gets in every one of them the outputs,
      gated outputs and states of one uninterrupted scan of its tokens from the state that the first launch started from. */
  lemma RequestAsOne(legs: seq<Leg>, d: nat, i: nat)
    requires Chain(legs, d) && i < |legs|
    ensures Served(legs[i], d) && Served(legs[0], d)
    ensures AsOne(legs[i], d, JobFor(legs[0], d).init, AllTokens(Parts(legs[..i], d)))
  {
    hide Served, Next, ChannelOf, AsOne, JobFor, PartIn, Joins, StateAfter;
    var (some, parts) := (legs[..i + 1], Parts(legs[..i + 1], d));
    ChainJoins(some, d);
    JoinedState(ChannelOf(legs[0].k, d), parts);
    assert parts[..i] == Parts(legs[..i], d);
    OneChannel(legs, d, i);
    InitOf(legs[0], d);
    InitOf(legs[i], d);
    LegAsOne(legs[i], d, JobFor(legs[0], d).init, AllTokens(Parts(legs[..i], d)));
  }

  lemma InitOf(l: Leg, d: nat)
    requires Served(l, d)
    ensures Ran(l, d) && PartIn(l, d).init == JobFor(l, d).init
  {}
}
