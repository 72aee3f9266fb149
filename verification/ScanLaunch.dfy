/**
 * When the programs of a real launch are independent: their rows do not overlap in the token buffers, and no
 * sequence saves a state in a slot that another one uses.
 */
module ScanLaunch {
  import opened Arithmetic
  import opened Options
  import opened SelectiveScan
  import opened ScanGrid

  /** The view that program (b, d) has of the launch. */
  ghost function ViewOf(k: Launch, hasZ: bool, p: Prog): (v: View)
    requires Ready(k, p.b) && ColumnsExist(k, p.b)
    ensures v.Valid() && v.Dstate() == k.dstate
  {
    View(FeedOf(k, p.b, p.d), p.d, Base(k, p.b, p.d, k.deltaStrides), hasZ, Base(k, p.b, p.d, k.zStrides),
         Lens(k, p.b), StoreSlots(k, p.b), if Resumes(k, p.b) then Some(LoadSlot(k, p.b)) else None)
  }

  ghost predicate AllReady(k: Launch, batch: nat) {
    forall b: nat | b < batch :: Ready(k, b) && ColumnsExist(k, b)
  }

  /** The programs of the grid that do not return at once. */
  ghost function Programs(k: Launch, batch: nat, dim: nat): set<Prog>
    requires AllReady(k, batch)
  {
    set b, d | 0 <= b < batch && 0 <= d < dim && !Skipped(k, b) :: Prog(b, d)
  }

  ghost function Views(k: Launch, hasZ: bool, batch: nat, dim: nat): (vs: map<Prog, View>)
    requires AllReady(k, batch)
    ensures vs.Keys == Programs(k, batch, dim)
    ensures forall p | p in vs :: p.b < batch && p.d < dim && vs[p] == ViewOf(k, hasZ, p)
  {
    map p | p in Programs(k, batch, dim) :: ViewOf(k, hasZ, p)
  }

  /** There is one program for every channel of every sequence that does not return at once, and no other. */
  lemma EveryProgram(k: Launch, hasZ: bool, batch: nat, dim: nat, p: Prog)
    requires AllReady(k, batch)
    ensures p in Views(k, hasZ, batch, dim) <==> p.b < batch && p.d < dim && !Skipped(k, p.b)
  {
    hide Skipped;
    assert p == Prog(p.b, p.d);
  }

  /** A packed batch: sequences lie one after another in each channel's row, and rows do not overlap. */
  ghost predicate Packed(k: Launch, batch: nat, s: Strides)
    requires AllReady(k, batch)
  {
    && k.queryStart.Some? && |k.queryStart.value| == batch + 1
    && (forall b: nat | b < batch :: Sum(Lens(k, b)) == k.queryStart.value[b + 1] - k.queryStart.value[b])
    && s.batch == 1 && s.channel >= k.queryStart.value[batch]
  }

  /** A padded batch: [sequence, channel, token], contiguous or with larger strides. */
  ghost predicate Dense(k: Launch, batch: nat, dim: nat, s: Strides)
    requires AllReady(k, batch)
  {
    && k.queryStart.None?
    && (forall b: nat | b < batch :: Sum(Lens(k, b)) <= s.channel)
    && s.batch >= dim * s.channel
  }

  lemma {:induction false} QueryMono(k: Launch, batch: nat, b: nat, c: nat)
    requires AllReady(k, batch) && k.queryStart.Some? && |k.queryStart.value| == batch + 1 && b <= c <= batch
    ensures k.queryStart.value[b] <= k.queryStart.value[c]
    decreases c - b
  {
    if b < c {
      assert Ready(k, b);
      QueryMono(k, batch, b + 1, c);
    }
  }

  function Times(a: nat, b: nat): nat { a * b }

  lemma TimesMono(a: nat, b: nat, s: nat)
    requires a < b
    ensures Times(a, s) + s <= Times(b, s)
  {
    assert (a + 1) * s <= b * s;
  }

  lemma PackedBase(k: Launch, b: nat, d: nat, s: Strides)
    requires Ready(k, b) && k.queryStart.Some? && s.batch == 1
    ensures Base(k, b, d, s) == Times(d, s.channel) + k.queryStart.value[b]
  {}

  lemma DenseBase(k: Launch, b: nat, d: nat, s: Strides)
    requires Ready(k, b) && k.queryStart.None?
    ensures Base(k, b, d, s) == Times(b, s.batch) + Times(d, s.channel)
  {}

  /** Row `p` ends before row `q` starts. */
  ghost predicate Before(k: Launch, s: Strides, p: Prog, q: Prog)
    requires Ready(k, p.b) && Ready(k, q.b)
  {
    Base(k, p.b, p.d, s) + Sum(Lens(k, p.b)) <= Base(k, q.b, q.d, s)
  }

  lemma PackedBefore(k: Launch, batch: nat, s: Strides, p: Prog, q: Prog)
    requires AllReady(k, batch) && Packed(k, batch, s) && p.b < batch && q.b < batch
    requires p.d < q.d || (p.d == q.d && p.b < q.b)
    ensures Before(k, s, p, q)
  {
    hide Lens, Sum, Times, Base;
    PackedBase(k, p.b, p.d, s);
    PackedBase(k, q.b, q.d, s);
    if p.d < q.d {
      QueryMono(k, batch, p.b + 1, batch);
      TimesMono(p.d, q.d, s.channel);
    } else {
      QueryMono(k, batch, p.b + 1, q.b);
    }
  }

  lemma DenseBefore(k: Launch, batch: nat, dim: nat, s: Strides, p: Prog, q: Prog)
    requires AllReady(k, batch) && Dense(k, batch, dim, s) && p.b < batch && q.b < batch && p.d < dim && q.d < dim
    requires p.b < q.b || (p.b == q.b && p.d < q.d)
    ensures Before(k, s, p, q)
  {
    assert s.batch >= Times(dim, s.channel);
    hide Lens, Sum, Times, Base;
    DenseBase(k, p.b, p.d, s);
    DenseBase(k, q.b, q.d, s);
    if p.b < q.b {
      TimesMono(p.b, q.b, s.batch);
      TimesMono(p.d, dim, s.channel);
    } else {
      TimesMono(p.d, q.d, s.channel);
    }
  }

  /** Rows of different programs do not overlap. */
  lemma RowsApart(k: Launch, batch: nat, dim: nat, s: Strides, p: Prog, q: Prog)
    requires AllReady(k, batch) && (Packed(k, batch, s) || Dense(k, batch, dim, s))
    requires p.b < batch && q.b < batch && p.d < dim && q.d < dim && p != q
    ensures Before(k, s, p, q) || Before(k, s, q, p)
  {
    hide Lens, Sum, Base, Packed, Dense, Before;
    if Packed(k, batch, s) {
      if p.d < q.d || (p.d == q.d && p.b < q.b) { PackedBefore(k, batch, s, p, q); } else { PackedBefore(k, batch, s, q, p); }
    } else {
      if p.b < q.b || (p.b == q.b && p.d < q.d) { DenseBefore(k, batch, dim, s, p, q); } else { DenseBefore(k, batch, dim, s, q, p); }
    }
  }

  /** No sequence saves a state where another one loads or saves. */
  ghost predicate SlotsApart(k: Launch, batch: nat)
    requires AllReady(k, batch)
  {
    forall b: nat, c: nat, s | b < batch && c < batch && b != c && !Skipped(k, b) && !Skipped(k, c) && s in StoreSlots(k, b) ::
      s !in StoreSlots(k, c) && (Resumes(k, c) ==> s != LoadSlot(k, c))
  }

  /** Such a launch satisfies the conditions under which every interleaving has the same outcome. */
  lemma LaunchIndependent(k: Launch, hasZ: bool, batch: nat, dim: nat)
    requires AllReady(k, batch) && SlotsApart(k, batch)
    requires Packed(k, batch, k.deltaStrides) || Dense(k, batch, dim, k.deltaStrides)
    requires hasZ ==> Packed(k, batch, k.zStrides) || Dense(k, batch, dim, k.zStrides)
    ensures Independent(Views(k, hasZ, batch, dim))
  {
    hide Lens, Sum, StoreSlots, Base, FeedOf, Packed, Dense;
    var vs := Views(k, hasZ, batch, dim);
    forall p, q, x | p in vs && q in vs && p != q && vs[p].Writes(x) ensures !vs[q].Touches(x) {
      RowsApart(k, batch, dim, k.deltaStrides, p, q);
      if hasZ { RowsApart(k, batch, dim, k.zStrides, p, q); }
    }
  }
}
