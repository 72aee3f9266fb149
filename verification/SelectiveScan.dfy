/**
 * The selective-scan kernel: one program per (sequence, channel) pair.  A program walks its sequence
 * chunk by chunk, overwrites its inputs with its outputs, and leaves recurrent states in cache slots
 * so that a later program can start where this one stopped.  The state tensor is indexed
 * [slot, channel, lane]; every other tensor is flat and addressed through its strides.
 */
module SelectiveScan {
  import opened Arithmetic
  import opened Options
  import opened ScanRecurrence
  import opened ScanChunks

  /** Where states are loaded from and saved to. */
  datatype Cache =
    | Prefix(indices: seq<seq<int>>, initialIdx: seq<nat>, blockFirst: seq<nat>, blockLast: seq<nat>,
             cuChunk: seq<nat>, lastChunk: seq<nat>, blockSize: nat)
    | Indexed(slots: seq<int>)
    | Direct

  /** Distances between neighbouring batch entries (or tokens, in a packed batch), channels or groups, and lanes. */
  datatype Strides = Strides(batch: nat, channel: nat, lane: nat)

  /** The arguments of a launch that no program writes. */
  datatype Launch = Launch(u: nat -> real, A: nat -> real, B: nat -> real, C: nat -> real,
                           D: Option<nat -> real>, bias: Option<nat -> real>, softplus: bool,
                           exp: ExpFn, log: real -> real, dstate: nat, ratio: nat,
                           uStrides: Strides, deltaStrides: Strides, aStrides: Strides, bStrides: Strides,
                           cStrides: Strides, zStrides: Strides,
                           queryStart: Option<seq<nat>>, seqlen: nat, hasInit: Option<seq<bool>>,
                           cache: Cache, nullBlock: int)

  // ----- Where a program works -----

  function FirstChunk(c: Cache, b: nat): nat
    requires c.Prefix? && b < |c.lastChunk|
  {
    if b == 0 then 0 else c.lastChunk[b - 1] + 1
  }

  /** The metadata of a prefix-cached launch describes sequence `b`, whose chunks are non-empty. */
  predicate ReadyPrefix(c: Cache, b: nat)
    requires c.Prefix?
  {
    && b < |c.indices| && b < |c.initialIdx| && b < |c.blockFirst| && b < |c.blockLast| && b < |c.lastChunk|
    && c.blockSize > 0
    && c.initialIdx[b] < |c.indices[b]|
    && FirstChunk(c, b) <= c.lastChunk[b] && c.lastChunk[b] + 1 < |c.cuChunk|
    && (forall i | FirstChunk(c, b) <= i <= c.lastChunk[b] :: c.cuChunk[i] < c.cuChunk[i + 1])
  }

  predicate Ready(k: Launch, b: nat) {
    && k.ratio > 0
    && (k.queryStart.Some? ==> b + 1 < |k.queryStart.value| && k.queryStart.value[b] <= k.queryStart.value[b + 1])
    && (k.hasInit.Some? ==> b < |k.hasInit.value|)
    && (k.cache.Prefix? ==> ReadyPrefix(k.cache, b))
    && (k.cache.Indexed? ==> b < |k.cache.slots|)
  }

  /** The address of position 0 of sequence `b` in a token tensor. */
  function Base(k: Launch, b: nat, channel: nat, s: Strides): nat
    requires Ready(k, b)
  {
    if k.queryStart.Some? then channel * s.channel + k.queryStart.value[b] * s.batch
    else b * s.batch + channel * s.channel
  }

  /** The token counts of the chunks of sequence `b` in a prefix-cached launch. */
  function ChunkLens(c: Cache, b: nat): (r: seq<nat>)
    requires c.Prefix? && ReadyPrefix(c, b)
    ensures |r| == c.lastChunk[b] - FirstChunk(c, b) + 1
    ensures forall i | 0 <= i < |r| :: r[i] == c.cuChunk[FirstChunk(c, b) + i + 1] - c.cuChunk[FirstChunk(c, b) + i] > 0
  {
    var first := FirstChunk(c, b);
    seq(c.lastChunk[b] - first + 1, i requires 0 <= i <= c.lastChunk[b] - first => c.cuChunk[first + i + 1] - c.cuChunk[first + i])
  }

  /** The chunks a program scans: one covering the sequence unless the launch is prefix-cached. */
  function Lens(k: Launch, b: nat): (r: seq<nat>)
    requires Ready(k, b)
    ensures |r| >= 1
  {
    if k.cache.Prefix? then ChunkLens(k.cache, b)
    else [if k.queryStart.Some? then k.queryStart.value[b + 1] - k.queryStart.value[b] else k.seqlen]
  }

  function LoadSlot(k: Launch, b: nat): int
    requires Ready(k, b)
  {
    match k.cache
    case Prefix(indices, initialIdx, _, _, _, _, _) => indices[b][initialIdx[b]]
    case Indexed(slots) => slots[b]
    case Direct => b
  }

  /** A program whose slot is the null block returns at once. */
  predicate Skipped(k: Launch, b: nat)
    requires Ready(k, b)
  {
    !k.cache.Direct? && LoadSlot(k, b) == k.nullBlock
  }

  predicate Resumes(k: Launch, b: nat)
    requires Ready(k, b)
  {
    k.hasInit.Some? && k.hasInit.value[b]
  }

  // ----- Which column of the block table receives which chunk's state -----

  /** The request position of the first scheduled token, as the kernel infers it from the index of
      its block and the length of the first chunk. */
  function FirstPosition(c: Cache, b: nat, lens: seq<nat>): nat
    requires c.Prefix? && b < |c.blockFirst| && |lens| >= 1
  {
    c.blockFirst[b] * c.blockSize + if |lens| > 1 && lens[0] < c.blockSize then c.blockSize - lens[0] else 0
  }

  function Column(c: Cache, b: nat, lens: seq<nat>, i: nat): nat
    requires c.Prefix? && b < |c.blockFirst| && b < |c.blockLast| && c.blockSize > 0 && i < |lens| && lens[i] > 0
  {
    if i == |lens| - 1 then c.blockLast[b]
    else (FirstPosition(c, b, lens) + Sum(lens[..i]) + lens[i] - 1) / c.blockSize
  }

  /** Every chunk's column exists in the block table. */
  predicate ColumnsExist(k: Launch, b: nat)
    requires Ready(k, b)
  {
    k.cache.Prefix? ==>
      var lens := ChunkLens(k.cache, b);
      forall i | 0 <= i < |lens| :: Column(k.cache, b, lens, i) < |k.cache.indices[b]|
  }

  /** The slots that receive the states reached after each chunk. */
  function StoreSlots(k: Launch, b: nat): (r: seq<int>)
    requires Ready(k, b) && ColumnsExist(k, b)
    ensures |r| == |Lens(k, b)|
    ensures k.cache.Prefix? ==> forall i | 0 <= i < |r| :: r[i] == k.cache.indices[b][Column(k.cache, b, Lens(k, b), i)]
  {
    if k.cache.Prefix? then
      var lens := ChunkLens(k.cache, b);
      seq(|lens|, i requires 0 <= i < |lens| => k.cache.indices[b][Column(k.cache, b, lens, i)])
    else [LoadSlot(k, b)]
  }

  // ----- What a program must compute -----

  function ChannelOf(k: Launch, d: nat): (ch: Channel)
    ensures |ch.A| == k.dstate
  {
    Channel(seq(k.dstate, n requires 0 <= n < k.dstate => k.A(d * k.aStrides.channel + n * k.aStrides.lane)),
            if k.D.Some? then Some(k.D.value(d)) else None,
            if k.bias.Some? then Some(k.bias.value(d)) else None,
            k.softplus, k.exp, k.log)
  }

  function FeedOf(k: Launch, b: nat, d: nat): (f: Feed)
    requires Ready(k, b)
    ensures f.ch == ChannelOf(k, d)
  {
    var uBase := Base(k, b, d, k.uStrides);
    var bBase := Base(k, b, d / k.ratio, k.bStrides);
    var cBase := Base(k, b, d / k.ratio, k.cStrides);
    Feed(ChannelOf(k, d), (p: nat) => k.u(uBase + p),
         (n: nat, p: nat) => k.B(bBase + n * k.bStrides.lane + p),
         (n: nat, p: nat) => k.C(cBase + n * k.cStrides.lane + p))
  }

  datatype Write = Write(slot: int, state: seq<real>)

  /** The states saved after each of the first `n` chunks, in saving order. */
  ghost function Saved(f: Feed, init: seq<real>, deltas: seq<real>, lens: seq<nat>, slots: seq<int>, n: nat): (ws: seq<Write>)
    requires n <= |lens| == |slots| && Sum(lens) == |deltas| && |init| == |f.ch.A|
    ensures |ws| == n && forall i | 0 <= i < n :: |ws[i].state| == |f.ch.A| && ws[i].slot == slots[i]
  {
    if n == 0 then []
    else
      SumPrefixBound(lens, n);
      Saved(f, init, deltas, lens, slots, n - 1)
      + [Write(slots[n - 1], StateAfter(f.ch, init, TokensOf(f, deltas)[..Sum(lens[..n])]))]
  }

  /** What a slot holds after the writes `ws`, if any of them went there. */
  ghost function Latest(ws: seq<Write>, slot: int): (r: Option<seq<real>>) {
    if |ws| == 0 then None
    else if ws[|ws| - 1].slot == slot then Some(ws[|ws| - 1].state)
    else Latest(ws[..|ws| - 1], slot)
  }

  ghost predicate Shaped(v: seq<seq<seq<real>>>, ssm: array3<real>) {
    && |v| == ssm.Length0
    && (forall s | 0 <= s < |v| :: |v[s]| == ssm.Length1)
    && (forall s, j | 0 <= s < |v| && 0 <= j < |v[s]| :: |v[s][j]| == ssm.Length2)
  }

  /** The contents of the state tensor: slot, then channel, then lane. */
  ghost function Contents(ssm: array3<real>): (v: seq<seq<seq<real>>>)
    reads ssm
    ensures Shaped(v, ssm)
    ensures forall s, j, n | 0 <= s < ssm.Length0 && 0 <= j < ssm.Length1 && 0 <= n < ssm.Length2 ::
              v[s][j][n] == ssm[s, j, n]
  {
    seq(ssm.Length0, s requires 0 <= s < ssm.Length0 reads ssm =>
      seq(ssm.Length1, j requires 0 <= j < ssm.Length1 reads ssm =>
        seq(ssm.Length2, n requires 0 <= n < ssm.Length2 reads ssm => ssm[s, j, n])))
  }

  /** What slot `s` of channel `j` holds after a program of channel `d` made the writes `ws`. */
  ghost function SlotAfter(ws: seq<Write>, d: nat, s: int, j: int, was: seq<real>): seq<real> {
    if j == d && Latest(ws, s).Some? then Latest(ws, s).value else was
  }

  /** The state tensor holds `was` overwritten, in channel `d`, by the writes `ws`. */
  ghost predicate StatesAre(ssm: array3<real>, was: seq<seq<seq<real>>>, d: nat, ws: seq<Write>)
    requires Shaped(was, ssm)
    reads ssm
  {
    forall s, j | 0 <= s < ssm.Length0 && 0 <= j < ssm.Length1 ::
      Contents(ssm)[s][j] == SlotAfter(ws, d, s, j, was[s][j])
  }

  /** Store the first lanes of a padded state into a slot. */
  method SaveState(ssm: array3<real>, slot: int, d: nat, padded: seq<real>,
                   ghost was: seq<seq<seq<real>>>, ghost ws: seq<Write>, ghost state: seq<real>)
    requires 0 <= slot < ssm.Length0 && d < ssm.Length1 && Shaped(was, ssm)
    requires |state| == ssm.Length2 <= |padded| && padded[..|state|] == state
    requires StatesAre(ssm, was, d, ws)
    modifies ssm
    ensures StatesAre(ssm, was, d, ws + [Write(slot, state)])
  {
    forall n | 0 <= n < ssm.Length2 {
      ssm[slot, d, n] := padded[n];
    }
    ghost var ws' := ws + [Write(slot, state)];
    assert ws'[..|ws|] == ws;
    forall s, j | 0 <= s < ssm.Length0 && 0 <= j < ssm.Length1
      ensures Contents(ssm)[s][j] == SlotAfter(ws', d, s, j, was[s][j])
    {
      assert old(Contents(ssm))[s][j] == SlotAfter(ws, d, s, j, was[s][j]);
      if s == slot && j == d {
        assert Contents(ssm)[s][j] == state;
      } else {
        assert Contents(ssm)[s][j] == old(Contents(ssm))[s][j];
      }
    }
  }

  /** The state saved after chunk `n` is the unpadded part of the scan state at its end. */
  lemma SavedNext(f: Feed, lanes: nat, init: seq<real>, deltas: seq<real>, lens: seq<nat>, slots: seq<int>, n: nat)
    returns (state: seq<real>)
    requires n < |lens| == |slots| && Sum(lens) == |deltas| && |init| == |f.ch.A| <= lanes
    ensures Sum(lens[..n + 1]) == Sum(lens[..n]) + lens[n] <= |deltas|
    ensures |state| == |f.ch.A| && PaddedState(f, lanes, init, deltas, Sum(lens[..n + 1]))[..|state|] == state
    ensures Saved(f, init, deltas, lens, slots, n + 1) == Saved(f, init, deltas, lens, slots, n) + [Write(slots[n], state)]
  {
    SumNext(lens, n);
    SumPrefixBound(lens, n + 1);
    state := StateAfter(f.ch, init, TokensOf(f, deltas)[..Sum(lens[..n + 1])]);
  }

  /** The slots a program loads from and stores to are slots of the state tensor. */
  predicate SlotsExist(k: Launch, b: nat, ssm: array3<real>)
    requires Ready(k, b) && ColumnsExist(k, b)
  {
    && (Skipped(k, b) || 0 <= LoadSlot(k, b) < ssm.Length0)
    && forall s | s in StoreSlots(k, b) :: Skipped(k, b) || 0 <= s < ssm.Length0
  }

  /** Where the scan of the first chunk starts, counted from the start of the request. */
  method StartPosition(k: Launch, b: nat) returns (n: nat, position: nat)
    requires Ready(k, b) && k.cache.Prefix?
    ensures n == |Lens(k, b)| && position == FirstPosition(k.cache, b, Lens(k, b))
  {
    var c := k.cache;
    var first := FirstChunk(c, b);
    n := c.lastChunk[b] - first + 1;
    var firstTokens := c.cuChunk[first + 1] - c.cuChunk[first];
    var offset := 0;
    if n > 1 && firstTokens < c.blockSize {
      offset := c.blockSize - firstTokens;
    }
    position := c.blockFirst[b] * c.blockSize + offset;
  }

  /** The length of a chunk and the slot for the state reached at its end. */
  method ChunkTarget(k: Launch, b: nat, n: nat, chunk: nat, position: nat) returns (tokens: nat, slot: int)
    requires Ready(k, b) && k.cache.Prefix? && ColumnsExist(k, b) && chunk < n == |Lens(k, b)|
    requires position == FirstPosition(k.cache, b, Lens(k, b)) + Sum(Lens(k, b)[..chunk])
    ensures tokens == Lens(k, b)[chunk] && slot == StoreSlots(k, b)[chunk]
  {
    var c := k.cache;
    var first := FirstChunk(c, b);
    tokens := c.cuChunk[first + chunk + 1] - c.cuChunk[first + chunk];
    assert Column(c, b, Lens(k, b), chunk) < |c.indices[b]|;
    if chunk == n - 1 {
      slot := c.indices[b][c.blockLast[b]];
    } else {
      slot := c.indices[b][(position + tokens - 1) / c.blockSize];
    }
  }

  /** The program has scanned its first `n` chunks and saved the states reached after them. */
  ghost predicate Progress(f: Feed, lanes: nat, r: Row, ssm: array3<real>, d: nat, n: nat, state: seq<real>,
                           j: Job, was: seq<seq<seq<real>>>, lens: seq<nat>, slots: seq<int>)
    requires n <= |lens| == |slots| && |j.deltas| == Sum(lens) && |j.init| == |f.ch.A| <= lanes
    requires j.Fits(r) && Shaped(was, ssm)
    reads r.out, r.outZ, r.delta, r.z, ssm
  {
    SumPrefixBound(lens, n);
    var p := Sum(lens[..n]);
    && state == PaddedState(f, lanes, j.init, j.deltas, p) && Scanned(r, j, p)
    && StatesAre(ssm, was, d, Saved(f, j.init, j.deltas, lens, slots, n))
  }

  /** Scan chunk number `chunk` and save the state reached after it. */
  method RunChunk(f: Feed, lanes: nat, aVals: seq<real>, r: Row, ssm: array3<real>, d: nat,
                  ghost chunk: nat, processed: nat, tokens: nat, slot: int, state: seq<real>,
                  ghost j: Job, ghost was: seq<seq<seq<real>>>, ghost lens: seq<nat>, ghost slots: seq<int>)
    returns (next: seq<real>)
    requires chunk < |lens| == |slots| && tokens == lens[chunk] && slot == slots[chunk] && 0 <= slot < ssm.Length0
    requires processed == Sum(lens[..chunk]) && |j.deltas| == Sum(lens) && j.For(f) && j.Fits(r)
    requires d < ssm.Length1 && |f.ch.A| == ssm.Length2 <= lanes && aVals == Pad(f.ch.A, lanes) && Shaped(was, ssm)
    requires Progress(f, lanes, r, ssm, d, chunk, state, j, was, lens, slots)
    modifies r.out, r.outZ, ssm
    ensures Sum(lens[..chunk + 1]) == processed + tokens
    ensures Progress(f, lanes, r, ssm, d, chunk + 1, next, j, was, lens, slots)
  {
    hide PaddedState, Outputs, GatedAll, StatesAre, Scanned, Saved, Shaped, Pad, Sum;
    ghost var reached := SavedNext(f, lanes, j.init, j.deltas, lens, slots, chunk);
    next := ScanChunk(f, lanes, aVals, r, processed, tokens, state, j);
    SaveState(ssm, slot, d, next, was, Saved(f, j.init, j.deltas, lens, slots, chunk), reached);
  }

  /** Scan one chunk after another, saving the state reached after each. */
  method RunChunks(k: Launch, b: nat, d: nat, f: Feed, lanes: nat, aVals: seq<real>, r: Row, ssm: array3<real>,
                   state0: seq<real>, ghost j: Job, ghost was: seq<seq<seq<real>>>, ghost lens: seq<nat>, ghost slots: seq<int>)
    requires Ready(k, b) && k.cache.Prefix? && ColumnsExist(k, b)
    requires lens == Lens(k, b) && slots == StoreSlots(k, b) && forall s | s in slots :: 0 <= s < ssm.Length0
    requires |j.deltas| == Sum(lens) && j.For(f) && j.Fits(r)
    requires d < ssm.Length1 && |f.ch.A| == ssm.Length2 <= lanes && aVals == Pad(f.ch.A, lanes) && Shaped(was, ssm)
    requires Progress(f, lanes, r, ssm, d, 0, state0, j, was, lens, slots)
    modifies r.out, r.outZ, ssm
    ensures Scanned(r, j, |j.deltas|) && StatesAre(ssm, was, d, Saved(f, j.init, j.deltas, lens, slots, |lens|))
  {
    hide Outputs, GatedAll, StatesAre, Scanned, Shaped, PaddedState, Saved, Progress, Pad;
    var n, position := StartPosition(k, b);
    var processed := 0;
    var state := state0;
    for chunk := 0 to n
      invariant processed == Sum(lens[..chunk]) && position == FirstPosition(k.cache, b, lens) + processed
      invariant Progress(f, lanes, r, ssm, d, chunk, state, j, was, lens, slots)
    {
      var tokens, slot := ChunkTarget(k, b, n, chunk, position);
      assert slot in slots;
      state := RunChunk(f, lanes, aVals, r, ssm, d, chunk, processed, tokens, slot, state, j, was, lens, slots);
      processed := processed + tokens;
      position := position + tokens;
    }
    assert lens[..n] == lens;
    ProgressDone(f, lanes, r, ssm, d, state, j, was, lens, slots);
  }

  lemma ProgressDone(f: Feed, lanes: nat, r: Row, ssm: array3<real>, d: nat, state: seq<real>,
                     j: Job, was: seq<seq<seq<real>>>, lens: seq<nat>, slots: seq<int>)
    requires |lens| == |slots| && |j.deltas| == Sum(lens) && |j.init| == |f.ch.A| <= lanes && j.Fits(r) && Shaped(was, ssm)
    requires Progress(f, lanes, r, ssm, d, |lens|, state, j, was, lens, slots)
    ensures Scanned(r, j, |j.deltas|) && StatesAre(ssm, was, d, Saved(f, j.init, j.deltas, lens, slots, |lens|))
  {
    hide Scanned, StatesAre, Saved, PaddedState;
    assert lens[..|lens|] == lens;
  }

  /** Scan everything: chunk by chunk with a prefix cache, otherwise as one piece. */
  method RunAll(k: Launch, b: nat, d: nat, f: Feed, lanes: nat, aVals: seq<real>, r: Row, ssm: array3<real>,
                state0: seq<real>, ghost j: Job, ghost was: seq<seq<seq<real>>>, ghost lens: seq<nat>, ghost slots: seq<int>)
    requires Ready(k, b) && ColumnsExist(k, b)
    requires lens == Lens(k, b) && slots == StoreSlots(k, b) && forall s | s in slots :: 0 <= s < ssm.Length0
    requires |j.deltas| == Sum(lens) && j.For(f) && j.Fits(r)
    requires d < ssm.Length1 && |f.ch.A| == ssm.Length2 <= lanes && aVals == Pad(f.ch.A, lanes) && Shaped(was, ssm)
    requires Progress(f, lanes, r, ssm, d, 0, state0, j, was, lens, slots)
    modifies r.out, r.outZ, ssm
    ensures Scanned(r, j, |j.deltas|) && StatesAre(ssm, was, d, Saved(f, j.init, j.deltas, lens, slots, |lens|))
  {
    hide Scanned, StatesAre, Saved, PaddedState, Outputs, GatedAll, Shaped, Pad;
    if k.cache.Prefix? {
      RunChunks(k, b, d, f, lanes, aVals, r, ssm, state0, j, was, lens, slots);
    } else {
      var tokens := if k.queryStart.Some? then k.queryStart.value[b + 1] - k.queryStart.value[b] else k.seqlen;
      assert lens[..0] == [] && lens[..1] == lens == [tokens] && slots[0] in slots;
      var state := RunChunk(f, lanes, aVals, r, ssm, d, 0, 0, tokens, LoadSlot(k, b), state0, j, was, lens, slots);
    }
  }

  function Zeros(n: nat): (r: seq<real>)
    ensures |r| == n
  {
    seq(n, i => 0.0)
  }

  /** The state a program starts from. */
  ghost function InitialState(k: Launch, b: nat, d: nat, was: seq<seq<seq<real>>>): (r: seq<real>)
    requires Ready(k, b)
    requires Resumes(k, b) ==> 0 <= LoadSlot(k, b) < |was| && d < |was[LoadSlot(k, b)]| && |was[LoadSlot(k, b)][d]| == k.dstate
    ensures |r| == k.dstate
  {
    if Resumes(k, b) then was[LoadSlot(k, b)][d] else Zeros(k.dstate)
  }

  /** The row of program (b, d), whichever buffers it is given. */
  predicate RowOk(k: Launch, b: nat, d: nat, r: Row)
    requires Ready(k, b)
  {
    && r.base == Base(k, b, d, k.deltaStrides) && r.zBase == Base(k, b, d, k.zStrides)
    && r.Holds(Sum(Lens(k, b)))
  }

  /** The launch describes program (b, d), and its buffers and slots exist. */
  predicate CanRun(k: Launch, b: nat, d: nat, r: Row, ssm: array3<real>) {
    && Ready(k, b) && ColumnsExist(k, b) && SlotsExist(k, b, ssm) && RowOk(k, b, d, r)
    && d < ssm.Length1 && ssm.Length2 == k.dstate
  }

  /** The `n` cells of a buffer from `base` on. */
  function Cells(a: array<real>, base: nat, n: nat): (r: seq<real>)
    requires base + n <= a.Length
    reads a
    ensures |r| == n
  {
    a[base..base + n]
  }

  /** What program (b, d) has to do, read off the memory it starts in. */
  ghost function JobOf(k: Launch, b: nat, d: nat, r: Row, was: seq<seq<seq<real>>>): (j: Job)
    requires Ready(k, b) && RowOk(k, b, d, r)
    requires Resumes(k, b) ==> 0 <= LoadSlot(k, b) < |was| && d < |was[LoadSlot(k, b)]| && |was[LoadSlot(k, b)][d]| == k.dstate
    reads r.delta, r.z, r.out, r.outZ
    ensures j.For(FeedOf(k, b, d)) && j.Fits(r) && |j.deltas| == Sum(Lens(k, b)) && j.init == InitialState(k, b, d, was)
    ensures j.deltas == Cells(r.delta, r.base, Sum(Lens(k, b))) && j.outWas == r.out[..] && j.outZWas == r.outZ[..]
    ensures j.zs == if r.hasZ then Cells(r.z, r.zBase, Sum(Lens(k, b))) else Zeros(Sum(Lens(k, b)))
  {
    var n := Sum(Lens(k, b));
    var zs := if r.hasZ then Cells(r.z, r.zBase, n) else Zeros(n);
    MakeJob(FeedOf(k, b, d), InitialState(k, b, d, was), Cells(r.delta, r.base, n), zs, r.out[..], r.outZ[..])
  }

  /** The states program (b, d) saves, in saving order. */
  ghost function SavedBy(k: Launch, b: nat, d: nat, j: Job): seq<Write>
    requires Ready(k, b) && ColumnsExist(k, b) && |j.deltas| == Sum(Lens(k, b)) && |j.init| == k.dstate
  {
    Saved(FeedOf(k, b, d), j.init, j.deltas, Lens(k, b), StoreSlots(k, b), |Lens(k, b)|)
  }

  /** Load the initial state onto padded lanes. */
  method LoadState(k: Launch, b: nat, d: nat, ssm: array3<real>, lanes: nat) returns (state: seq<real>)
    requires Ready(k, b) && d < ssm.Length1 && ssm.Length2 == k.dstate <= lanes && 0 <= LoadSlot(k, b) < ssm.Length0
    ensures state == Pad(InitialState(k, b, d, Contents(ssm)), lanes)
  {
    state := Zeros(lanes);
    if Resumes(k, b) {
      var slot := LoadSlot(k, b);
      state := seq(lanes, n requires 0 <= n < lanes reads ssm => if n < k.dstate then ssm[slot, d, n] else 0.0);
    }
    ghost var padded := Pad(InitialState(k, b, d, Contents(ssm)), lanes);
    assert forall n | 0 <= n < lanes :: state[n] == padded[n];
  }

  /**
   * Program (b, d) of the grid.  Whether `r` names separate buffers or reuses the inputs, the row ends up
   * holding the outputs of the plain scan of its original contents, and each saved state is the plain
   * recurrence's state at the end of its chunk.
   */
  method ScanProgram(k: Launch, b: nat, d: nat, r: Row, ssm: array3<real>)
    requires CanRun(k, b, d, r, ssm)
    modifies r.out, r.outZ, ssm
    ensures Skipped(k, b) ==> unchanged(r.out) && unchanged(r.outZ) && unchanged(ssm)
    ensures !Skipped(k, b) ==>
              var j := old(JobOf(k, b, d, r, Contents(ssm)));
              Scanned(r, j, |j.deltas|) && StatesAre(ssm, old(Contents(ssm)), d, SavedBy(k, b, d, j))
  {
    hide Scanned, StatesAre, Saved, PaddedState, Outputs, GatedAll, Progress, Lens, StoreSlots, JobOf, Base, Column, Sum;
    if Skipped(k, b) {
      return;
    }
    var f := FeedOf(k, b, d);
    var lanes := NextPowerOf2(k.dstate, 1);
    var aVals := Pad(f.ch.A, lanes);
    ghost var was, lens, slots := Contents(ssm), Lens(k, b), StoreSlots(k, b);
    ghost var j := JobOf(k, b, d, r, was);
    var state := LoadState(k, b, d, ssm, lanes);
    StartOfProgress(f, lanes, r, ssm, d, state, j, was, lens, slots);
    RunAll(k, b, d, f, lanes, aVals, r, ssm, state, j, was, lens, slots);
  }

  lemma StartOfProgress(f: Feed, lanes: nat, r: Row, ssm: array3<real>, d: nat, state: seq<real>,
                        j: Job, was: seq<seq<seq<real>>>, lens: seq<nat>, slots: seq<int>)
    requires |lens| == |slots| && |j.deltas| == Sum(lens) && |j.init| == |f.ch.A| <= lanes
    requires j.Fits(r) && was == Contents(ssm) && state == Pad(j.init, lanes)
    requires j.deltas == r.delta[r.base..r.base + |j.deltas|] && j.outWas == r.out[..] && j.outZWas == r.outZ[..]
    requires r.hasZ ==> j.zs == r.z[r.zBase..r.zBase + |j.deltas|]
    ensures Progress(f, lanes, r, ssm, d, 0, state, j, was, lens, slots)
  {
    assert TokensOf(f, j.deltas)[..0] == [];
    assert Scanned(r, j, 0);
  }
}
