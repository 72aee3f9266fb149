/** Whose everything is: what a device held before the allocator came, and what its sound allocations hold. */
module SleepAccount {
  import opened DeviceMemory
  import opened SleepFleet

  ghost predicate Awake(reg: Registry, broken: set<Addr>, p: Addr) { p in reg && p !in broken && !reg[p].asleep }

  /** The mapping at `a` is a chunk of an awake allocation. */
  ghost predicate ChunkOfSome(reg: Registry, broken: set<Addr>, a: Addr) {
    exists p :: Awake(reg, broken, p) && a in Starts(p, reg[p].sizes, |reg[p].sizes|)
  }

  ghost predicate HandleOfSome(reg: Registry, broken: set<Addr>, h: Handle) {
    exists p :: Awake(reg, broken, p) && h in Named(reg[p].hs, |reg[p].hs|)
  }

  /** Nothing has leaked: every reservation, mapping and handle was there in `b` or belongs to an allocation, and
      mappings and handles to one that is awake. */
  ghost predicate Accounted(b: Dev, d: Dev, reg: Registry, broken: set<Addr>) {
    && (forall r | r in d.res :: r in b.res || (r in reg && r !in broken))
    && (forall a | a in d.maps :: a in b.maps || ChunkOfSome(reg, broken, a))
    && (forall h | h in d.live :: h in b.live || HandleOfSome(reg, broken, h))
  }

  /** The sound entries of one registry are in the other, the awake ones unchanged. */
  ghost predicate Carried(reg: Registry, broken: set<Addr>, reg': Registry, broken': set<Addr>) {
    forall p | p in reg && p !in broken ::
      p in reg' && p !in broken' && (!reg[p].asleep ==> reg'[p] == reg[p])
  }

  lemma ChunkCarried(reg: Registry, broken: set<Addr>, reg': Registry, broken': set<Addr>, a: Addr)
    requires Carried(reg, broken, reg', broken') && ChunkOfSome(reg, broken, a)
    ensures ChunkOfSome(reg', broken', a)
  {
    var p :| Awake(reg, broken, p) && a in Starts(p, reg[p].sizes, |reg[p].sizes|);
    assert Awake(reg', broken', p);
  }

  lemma HandleCarried(reg: Registry, broken: set<Addr>, reg': Registry, broken': set<Addr>, h: Handle)
    requires Carried(reg, broken, reg', broken') && HandleOfSome(reg, broken, h)
    ensures HandleOfSome(reg', broken', h)
  {
    var p :| Awake(reg, broken, p) && h in Named(reg[p].hs, |reg[p].hs|);
    assert Awake(reg', broken', p);
  }

  /** Nothing leaks while the device stays as it is. */
  lemma AccountSame(b: Dev, d: Dev, reg: Registry, broken: set<Addr>, reg': Registry, broken': set<Addr>)
    requires Accounted(b, d, reg, broken) && Carried(reg, broken, reg', broken')
    ensures Accounted(b, d, reg', broken')
  {
    hide ChunkOfSome, HandleOfSome;
    forall a | a in d.maps ensures a in b.maps || ChunkOfSome(reg', broken', a) {
      if a !in b.maps { ChunkCarried(reg, broken, reg', broken', a); }
    }
    forall h | h in d.live ensures h in b.live || HandleOfSome(reg', broken', h) {
      if h !in b.live { HandleCarried(reg, broken, reg', broken', h); }
    }
  }

  /** Nothing leaks when an allocation is backed. */
  lemma AccountBack(b: Dev, d0: Dev, reg: Registry, broken: set<Addr>, reg': Registry, broken': set<Addr>, p: Addr)
    requires Awake(reg', broken', p) && |reg'[p].sizes| == |reg'[p].hs| && Positive(reg'[p].sizes) && Distinct(reg'[p].hs)
    requires Accounted(b, d0.(res := d0.res - {p}), reg, broken) && Carried(reg, broken, reg', broken')
    ensures Accounted(b, Mapped(d0, p, reg'[p].sizes, reg'[p].hs), reg', broken')
  {
    hide ChunkOfSome, HandleOfSome, At, Placed, Owned, Starts, Named, Carried;
    var e := reg'[p];
    var d := Mapped(d0, p, e.sizes, e.hs);
    AccountSame(b, d0.(res := d0.res - {p}), reg, broken, reg', broken');
    PlacedKeys(p, e.sizes, e.hs, |e.hs|);
    OwnedKeys(e.sizes, e.hs, |e.hs|);
    forall a | a in d.maps ensures a in b.maps || ChunkOfSome(reg', broken', a) {
      if a in Starts(p, e.sizes, |e.sizes|) { OwnChunk(reg', broken', p, a); }
    }
    forall h | h in d.live ensures h in b.live || HandleOfSome(reg', broken', h) {
      if h in Named(e.hs, |e.hs|) { OwnHandle(reg', broken', p, h); }
    }
  }

  lemma OwnChunk(reg: Registry, broken: set<Addr>, p: Addr, a: Addr)
    requires Awake(reg, broken, p) && a in Starts(p, reg[p].sizes, |reg[p].sizes|)
    ensures ChunkOfSome(reg, broken, a)
  {}

  lemma OwnHandle(reg: Registry, broken: set<Addr>, p: Addr, h: Handle)
    requires Awake(reg, broken, p) && h in Named(reg[p].hs, |reg[p].hs|)
    ensures HandleOfSome(reg, broken, h)
  {}

  /** Nothing leaks when an allocation is taken apart and nothing of it is left. */
  lemma AccountApart(b: Dev, d0: Dev, d: Dev, reg: Registry, broken: set<Addr>, reg': Registry, broken': set<Addr>, p: Addr)
    requires Accounted(b, d0, reg, broken) && p in reg
    requires forall r | r in d.res :: r in d0.res && (r in reg' || r != p)
    requires forall a | a in d.maps :: a in d0.maps
    requires forall h | h in d.live :: h in d0.live
    requires !reg[p].asleep ==> Gone(d, p, reg[p].sizes, reg[p].hs)
    requires forall q | q in reg && q !in broken && q != p :: q in reg' && q !in broken' && reg'[q] == reg[q]
    requires p in reg' ==> p !in broken'
    ensures Accounted(b, d, reg', broken')
  {
    hide Starts, Named;
    forall a | a in d.maps ensures a in b.maps || ChunkOfSome(reg', broken', a) {
      if a !in b.maps {
        var q :| Awake(reg, broken, q) && a in Starts(q, reg[q].sizes, |reg[q].sizes|);
        assert q != p;
        OwnChunk(reg', broken', q, a);
      }
    }
    forall h | h in d.live ensures h in b.live || HandleOfSome(reg', broken', h) {
      if h !in b.live {
        var q :| Awake(reg, broken, q) && h in Named(reg[q].hs, |reg[q].hs|);
        assert q != p;
        OwnHandle(reg', broken', q, h);
      }
    }
  }

  /** A new allocation was not among the sound ones before. */
  lemma CarriedStale(reg: Registry, broken: set<Addr>, reg': Registry, broken': set<Addr>, a: Addr)
    requires (a in reg ==> a in broken) && forall q | q in broken' :: q == a || q in broken
    requires forall q | q in reg && q != a :: q in reg' && reg'[q] == reg[q]
    ensures Carried(reg, broken, reg', broken')
  {}

  lemma AccountNew(b: Dev, d0: Dev, reg: Registry, broken: set<Addr>, reg': Registry, broken': set<Addr>, a: Addr, n: nat)
    requires Accounted(b, d0, reg, broken) && (a in reg ==> a in broken) && a !in d0.res && broken' == broken - {a}
    requires forall q | q in reg && q != a :: q in reg' && reg'[q] == reg[q]
    requires a in reg' && !reg'[a].asleep && |reg'[a].sizes| == |reg'[a].hs| && Positive(reg'[a].sizes) && Distinct(reg'[a].hs)
    ensures Accounted(b, Mapped(d0.(res := d0.res[a := n]), a, reg'[a].sizes, reg'[a].hs), reg', broken')
  {
    hide Accounted, Carried, Mapped;
    CarriedStale(reg, broken, reg', broken', a);
    assert d0.res[a := n] - {a} == d0.res;
    AccountBack(b, d0.(res := d0.res[a := n]), reg, broken, reg', broken', a);
  }

  lemma CarriedWake(reg: Registry, broken: set<Addr>, reg': Registry, p: Addr)
    requires p in reg && reg[p].asleep && p in reg' && forall q | q in reg && q != p :: q in reg' && reg'[q] == reg[q]
    ensures Carried(reg, broken, reg', broken)
  {}

  lemma AccountAgain(b: Dev, d0: Dev, reg: Registry, broken: set<Addr>, reg': Registry, p: Addr)
    requires Accounted(b, d0, reg, broken) && Carried(reg, broken, reg', broken) && p in reg && p !in broken
    requires Awake(reg', broken, p) && |reg'[p].sizes| == |reg'[p].hs| && Positive(reg'[p].sizes) && Distinct(reg'[p].hs)
    ensures Accounted(b, Mapped(d0, p, reg'[p].sizes, reg'[p].hs), reg', broken)
  {
    hide Carried, Mapped;
    AccountBack(b, d0, reg, broken, reg', broken, p);
  }
}
