/**
 * The allocations an allocator has handed out, and what it means for each of them to be sound: at its own
 * address, either awake (its reservation fully backed by live handles) or asleep (reserved, nothing mapped).
 */
module SleepFleet {
  import opened Arithmetic
  import opened MemoryChunks
  import opened DeviceMemory

  /** A registered allocation: its chunk sizes, the handles of its chunks, and whether it sleeps. */
  datatype Entry = Entry(sizes: seq<nat>, hs: seq<Handle>, asleep: bool) {
    function Size(): nat { Sum(sizes) }
  }

  type Registry = map<Addr, Entry>

  /** Nothing is mapped at an address in the range. */
  ghost predicate Clear(d: Dev, p: Addr, n: nat) { forall b | b in d.maps :: !(p <= b < p + n) }

  /** Every chunk is mapped, in its place, by its own live handle, and nothing else is mapped in the range. */
  ghost predicate Backed(d: Dev, p: Addr, e: Entry) {
    && |e.hs| == |e.sizes| && Distinct(e.hs)
    && (forall k | 0 <= k < |e.hs| :: e.hs[k] in d.live && d.live[e.hs[k]] == e.sizes[k])
    && (forall k | 0 <= k < |e.sizes| :: At(p, e.sizes, k) in d.maps && d.maps[At(p, e.sizes, k)] == (e.sizes[k], e.hs[k]))
    && (forall b | b in d.maps && p <= b < p + e.Size() :: b in Starts(p, e.sizes, |e.sizes|))
  }

  ghost predicate Reserved(d: Dev, p: Addr, e: Entry) {
    p in d.res && d.res[p] == e.Size() && Positive(e.sizes)
  }

  ghost predicate Healthy(d: Dev, p: Addr, e: Entry) {
    Reserved(d, p, e) && if e.asleep then Clear(d, p, e.Size()) else Backed(d, p, e)
  }

  /** All allocations are healthy, except those in `broken`, and no two share a handle. */
  ghost predicate Fleet(d: Dev, reg: Registry, broken: set<Addr>) {
    && Sane(d)
    && (forall p | p in reg && p !in broken :: Healthy(d, p, reg[p]))
    && (forall p, q | p in reg && q in reg && p !in broken && q !in broken && p != q :: HandlesApart(reg[p], reg[q]))
  }

  ghost predicate HandlesApart(e: Entry, f: Entry) {
    !e.asleep && !f.asleep ==> Named(e.hs, |e.hs|) !! Named(f.hs, |f.hs|)
  }

  /** As far as an allocation can tell, nothing has changed. */
  ghost predicate Unaffected(d0: Dev, d: Dev, p: Addr, e: Entry) {
    && (p in d0.res ==> p in d.res && d.res[p] == d0.res[p])
    && (forall b | b in d0.maps && p <= b < p + e.Size() :: b in d.maps && d.maps[b] == d0.maps[b])
    && (forall b | b in d.maps && p <= b < p + e.Size() :: b in d0.maps)
    && (!e.asleep ==> forall k | 0 <= k < |e.hs| :: e.hs[k] in d0.live ==> e.hs[k] in d.live && d.live[e.hs[k]] == d0.live[e.hs[k]])
  }

  lemma StaysHealthy(d0: Dev, d: Dev, p: Addr, e: Entry)
    requires Healthy(d0, p, e) && Unaffected(d0, d, p, e)
    ensures Healthy(d, p, e)
  {
    hide At, Sum, Starts;
    if !e.asleep {
      forall k | 0 <= k < |e.sizes|
        ensures At(p, e.sizes, k) in d.maps && d.maps[At(p, e.sizes, k)] == (e.sizes[k], e.hs[k])
      {
        ChunkInRange(p, e.sizes, k);
      }
    }
  }

  /** The ranges of two reservations are apart. */
  lemma RangesApart(d: Dev, p: Addr, q: Addr)
    requires Sane(d) && p in d.res && q in d.res && p != q
    ensures p + d.res[p] <= q || q + d.res[q] <= p
  {
    assert !Overlap(p, d.res[p], q, d.res[q]);
  }

  /** A reserved range without mappings inside is vacant: no mapping reaches into it. */
  lemma ClearIsVacant(d: Dev, p: Addr)
    requires Sane(d) && p in d.res && Clear(d, p, d.res[p])
    ensures Vacant(d, p, d.res[p])
  {
    forall b | b in d.maps ensures p + d.res[p] <= b || (b < p && b + d.maps[b].0 <= p) {
      var r :| r in d.res && r <= b && b + d.maps[b].0 <= r + d.res[r];
      if r != p { assert !Overlap(p, d.res[p], r, d.res[r]); }
    }
  }

  // ----- Backing one allocation -----

  /** What is added inside one range does not concern an allocation whose range is apart from it. */
  lemma AddsUnaffected(d0: Dev, d: Dev, p: Addr, n: nat, first: Handle, q: Addr, e: Entry)
    requires Adds(d0, d, p, n, first) && (p + n <= q || q + e.Size() <= p)
    ensures Unaffected(d0, d, q, e)
  {
    hide Sum;
  }

  /** A range that is fully mapped has no room for anything else. */
  lemma NothingElse(d: Dev, p: Addr, sizes: seq<nat>, b: Addr)
    requires Sane(d) && Positive(sizes) && b in d.maps && p <= b < p + Sum(sizes)
    requires forall k | 0 <= k < |sizes| :: At(p, sizes, k) in d.maps && d.maps[At(p, sizes, k)].0 == sizes[k]
    ensures b in Starts(p, sizes, |sizes|)
  {
    hide Inside;
    EveryByteOnce(sizes, b - p);
    var i :| 0 <= i < |sizes| && Start(sizes, i) <= b - p < Start(sizes, i) + sizes[i];
    assert Overlap(b, d.maps[b].0, At(p, sizes, i), d.maps[At(p, sizes, i)].0);
  }

  /** Nor does it concern an allocation that is awake, wherever it is. */
  lemma AwakeUnaffected(d0: Dev, d: Dev, p: Addr, n: nat, first: Handle, q: Addr, e: Entry)
    requires Sane(d) && Adds(d0, d, p, n, first) && Healthy(d0, q, e) && !e.asleep
    ensures Unaffected(d0, d, q, e)
  {
    hide Sum, At, Sane;
    forall b | b in d.maps && q <= b < q + e.Size() ensures b in d0.maps { NothingElse(d, q, e.sizes, b); }
  }

  /** A freshly mapped allocation is awake. */
  lemma MappedIsBacked(d0: Dev, p: Addr, sizes: seq<nat>, hs: seq<Handle>)
    requires |sizes| == |hs| && Positive(sizes) && NewNames(d0, hs) && Sane(Mapped(d0, p, sizes, hs))
    requires p in d0.res && d0.res[p] == Sum(sizes)
    ensures Healthy(Mapped(d0, p, sizes, hs), p, Entry(sizes, hs, false))
  {
    hide At, Sum, Placed, Owned, Starts, Named, Sane;
    var d := Mapped(d0, p, sizes, hs);
    PlacedKeys(p, sizes, hs, |hs|);
    OwnedKeys(sizes, hs, |hs|);
    forall b | b in d.maps && p <= b < p + Sum(sizes) ensures b in Starts(p, sizes, |sizes|) { NothingElse(d, p, sizes, b); }
  }

  // ----- Taking one allocation apart -----

  lemma SaneApart(d0: Dev, d: Dev, p: Addr, e: Entry)
    requires Sane(d0) && TakenApart(d0, d, p, e.sizes, e.hs)
    ensures Sane(d)
  {
    hide Starts, Named, Inside;
    SaneFewer(d0, d);
  }

  lemma ApartUnaffected(d0: Dev, d: Dev, p: Addr, e: Entry, q: Addr, f: Entry)
    requires Sane(d0) && Healthy(d0, p, e) && !e.asleep && TakenApart(d0, d, p, e.sizes, e.hs)
    requires q != p && Healthy(d0, q, f) && HandlesApart(e, f)
    ensures Unaffected(d0, d, q, f)
  {
    hide Sum, At, Starts, Named;
    RangesApart(d0, p, q);
    StartsInRange(p, e.sizes);
    if !f.asleep { NamesOf(f.hs); }
  }

  lemma StartsInRange(p: Addr, sizes: seq<nat>)
    requires Positive(sizes)
    ensures forall b | b in Starts(p, sizes, |sizes|) :: p <= b < p + Sum(sizes)
  {
    hide Sum, At;
    forall k | 0 <= k < |sizes| ensures p <= At(p, sizes, k) < p + Sum(sizes) { ChunkInRange(p, sizes, k); }
  }

  lemma NamesOf(hs: seq<Handle>)
    ensures forall k | 0 <= k < |hs| :: hs[k] in Named(hs, |hs|)
  {}

  /** Once all its chunks are unmapped, nothing is left in the range. */
  lemma ApartIsClear(d0: Dev, d: Dev, p: Addr, e: Entry)
    requires Healthy(d0, p, e) && !e.asleep && TakenApart(d0, d, p, e.sizes, e.hs)
    requires Gone(d, p, e.sizes, e.hs)
    ensures Clear(d, p, e.Size())
  {
    hide Sum, At, Starts;
  }

  // ----- The whole fleet -----

  /** The sleeping allocations, other than the one at `p`, whose range meets `p` to `p + n`. */
  function Exposed(reg: Registry, p: Addr, n: nat): set<Addr> {
    set q | q in reg && q != p && reg[q].asleep && Overlap(q, reg[q].Size(), p, n)
  }

  /** Whatever is added inside a range, only sleeping allocations whose range it meets can suffer. */
  lemma FleetAdds(d0: Dev, d: Dev, reg: Registry, broken: set<Addr>, p: Addr, n: nat, first: Handle)
    requires Fleet(d0, reg, broken) && Adds(d0, d, p, n, first) && Sane(d)
    ensures Fleet(d, reg, broken + {p} + Exposed(reg, p, n))
  {
    hide Adds, Healthy, Sane, Unaffected, HandlesApart, Sum;
    forall q | q in reg && q !in broken + {p} + Exposed(reg, p, n) ensures Healthy(d, q, reg[q]) {
      if reg[q].asleep {
        if n > 0 && reg[q].Size() > 0 { assert !Overlap(q, reg[q].Size(), p, n); }
        RangeNotEmpty(d0, q, reg[q]);
        if n == 0 { AddsNothing(d0, d, p, first, q, reg[q]); } else { AddsUnaffected(d0, d, p, n, first, q, reg[q]); }
      } else {
        AwakeUnaffected(d0, d, p, n, first, q, reg[q]);
      }
      StaysHealthy(d0, d, q, reg[q]);
    }
  }

  lemma RangeNotEmpty(d: Dev, q: Addr, e: Entry)
    requires Sane(d) && Healthy(d, q, e)
    ensures e.Size() > 0
  {}

  lemma AddsNothing(d0: Dev, d: Dev, p: Addr, first: Handle, q: Addr, e: Entry)
    requires Adds(d0, d, p, 0, first)
    ensures Unaffected(d0, d, q, e)
  {}

  /** Inside the allocation's own reservation there is no other allocation to suffer. */
  lemma OwnRange(d0: Dev, d: Dev, reg: Registry, broken: set<Addr>, p: Addr, n: nat)
    requires Fleet(d0, reg, broken) && p in d0.res && d0.res[p] == n
    requires Fleet(d, reg, broken + {p} + Exposed(reg, p, n)) && d.res == d0.res
    ensures forall q | q in Exposed(reg, p, n) :: q in broken
  {
    hide HandlesApart, Sum, At, Starts, Inside;
    forall q | q in reg && q !in broken && q != p ensures !Overlap(q, reg[q].Size(), p, n) {
      assert Healthy(d0, q, reg[q]);
      assert !Overlap(q, d0.res[q], p, d0.res[p]);
    }
  }

  lemma FleetOwnRange(d0: Dev, d: Dev, reg: Registry, broken: set<Addr>, p: Addr, n: nat, first: Handle)
    requires Fleet(d0, reg, broken) && Adds(d0, d, p, n, first) && Sane(d) && p in d0.res && d0.res[p] == n
    ensures Fleet(d, reg, broken + {p})
  {
    hide Fleet, Sane, Sum;
    FleetAdds(d0, d, reg, broken, p, n, first);
    OwnRange(d0, d, reg, broken, p, n);
    assert broken + {p} + Exposed(reg, p, n) == broken + {p};
  }

  /** However far the unmapping and release of one allocation got, the others stay healthy. */
  lemma FleetApart(d0: Dev, d: Dev, reg: Registry, broken: set<Addr>, p: Addr)
    requires Fleet(d0, reg, broken) && p in reg && p !in broken && !reg[p].asleep && TakenApart(d0, d, p, reg[p].sizes, reg[p].hs)
    ensures Fleet(d, reg, broken + {p})
  {
    hide TakenApart, Healthy, Sane, Unaffected, HandlesApart;
    SaneApart(d0, d, p, reg[p]);
    forall q | q in reg && q !in broken + {p} ensures Healthy(d, q, reg[q]) {
      ApartUnaffected(d0, d, p, reg[p], q, reg[q]);
      StaysHealthy(d0, d, q, reg[q]);
    }
  }

  /** More reservations do not matter to the fleet. */
  lemma FleetReserve(d0: Dev, d: Dev, reg: Registry, broken: set<Addr>)
    requires Fleet(d0, reg, broken) && Sane(d) && d.maps == d0.maps && d.live == d0.live && Extends(d0.res, d.res)
    ensures Fleet(d, reg, broken)
  {
    hide Sane, HandlesApart;
    forall q | q in reg && q !in broken ensures Healthy(d, q, reg[q]) { StaysHealthy(d0, d, q, reg[q]); }
  }

  lemma SaneFree(d: Dev, p: Addr)
    requires Sane(d) && p in d.res && Vacant(d, p, d.res[p])
    ensures Sane(d.(res := d.res - {p}))
  {
    hide Overlap;
    var t := d.(res := d.res - {p});
    forall b | b in d.maps ensures Inside(t, b, d.maps[b].0) {
      var r :| r in d.res && r <= b && b + d.maps[b].0 <= r + d.res[r];
      assert r in t.res;
    }
  }

  /** Neither does giving up a reservation of something that is no healthy allocation. */
  lemma FleetFree(d: Dev, reg: Registry, broken: set<Addr>, p: Addr)
    requires Fleet(d, reg, broken) && p in d.res && Vacant(d, p, d.res[p]) && (p in reg ==> p in broken)
    ensures Fleet(d.(res := d.res - {p}), reg, broken)
  {
    hide Sane, HandlesApart, Vacant;
    SaneFree(d, p);
    var t := d.(res := d.res - {p});
    forall q | q in reg && q !in broken ensures Healthy(t, q, reg[q]) { StaysHealthy(d, t, q, reg[q]); }
  }

  /** An allocation that has become healthy joins the fleet. */
  lemma FleetJoin(d: Dev, reg: Registry, broken: set<Addr>, p: Addr, e: Entry)
    requires Fleet(d, reg, broken + {p}) && Healthy(d, p, e)
    requires forall q | q in reg && q !in broken + {p} :: HandlesApart(e, reg[q])
    ensures Fleet(d, reg[p := e], broken - {p})
  {
    hide Sane, Healthy;
  }

  /** One that has left, or is no longer vouched for, does not matter. */
  lemma FleetWithout(d: Dev, reg: Registry, broken: set<Addr>, p: Addr, e: Entry)
    requires Fleet(d, reg, broken + {p})
    ensures Fleet(d, reg[p := e], broken + {p}) && Fleet(d, reg - {p}, broken - {p})
  {
    hide Sane, Healthy, HandlesApart;
  }

  /** Handles that are new are not those of another allocation. */
  lemma NewHandlesApart(d: Dev, reg: Registry, broken: set<Addr>, sizes: seq<nat>, hs: seq<Handle>)
    requires Fleet(d, reg, broken) && NewNames(d, hs)
    ensures forall q | q in reg && q !in broken :: HandlesApart(Entry(sizes, hs, false), reg[q])
  {
    hide Sane, At, Sum;
  }

  lemma AsleepApart(reg: Registry, broken: set<Addr>, e: Entry)
    requires e.asleep
    ensures forall q | q in reg && q !in broken :: HandlesApart(e, reg[q])
  {}

  /** An asleep allocation can be mapped again, and an awake one taken apart. */
  lemma CanWake(d: Dev, reg: Registry, broken: set<Addr>, p: Addr)
    requires Fleet(d, reg, broken) && p in reg && p !in broken && reg[p].asleep
    ensures Open(d, p, reg[p].sizes)
  {
    ClearIsVacant(d, p);
  }

  lemma CanTakeApart(d: Dev, reg: Registry, broken: set<Addr>, p: Addr)
    requires Fleet(d, reg, broken) && p in reg && p !in broken && !reg[p].asleep
    ensures var e := reg[p];
            && |e.sizes| == |e.hs| && Positive(e.sizes) && Distinct(e.hs)
            && (forall k | 0 <= k < |e.sizes| :: CanUnmap(d, At(p, e.sizes, k), e.sizes[k]))
            && (forall k | 0 <= k < |e.hs| :: e.hs[k] in d.live)
  {
    hide Sane, At, Sum, HandlesApart, Starts;
  }

  lemma FleetSane(d: Dev, reg: Registry, broken: set<Addr>)
    requires Fleet(d, reg, broken)
    ensures Sane(d)
  {}

  lemma OpenReserved(d: Dev, p: Addr, sizes: seq<nat>)
    requires Open(d, p, sizes)
    ensures p in d.res && d.res[p] == Sum(sizes) && Vacant(d, p, Sum(sizes)) && Positive(sizes)
  {}

  lemma AddsRes(d0: Dev, d: Dev, p: Addr, n: nat, first: Handle)
    requires Adds(d0, d, p, n, first)
    ensures d.res == d0.res
  {}

  /** A range that met no reservation is not that of a healthy allocation. */
  lemma NotRegistered(d: Dev, reg: Registry, broken: set<Addr>, a: Addr, n: nat)
    requires Fleet(d, reg, broken) && n > 0 && Unreserved(d, a, n)
    ensures a in reg ==> a in broken
  {
    hide Sum;
    forall q | q in reg && q !in broken ensures q in d.res && Overlap(q, n, q, d.res[q]) {
      assert Healthy(d, q, reg[q]) && d.res[q] > 0;
    }
  }

  /** Once an allocation is unmapped, its range can be given back. */
  lemma ApartCanFree(d0: Dev, d: Dev, reg: Registry, broken: set<Addr>, p: Addr)
    requires Fleet(d0, reg, broken) && p in reg && p !in broken && !reg[p].asleep && TakenApart(d0, d, p, reg[p].sizes, reg[p].hs)
    requires Gone(d, p, reg[p].sizes, reg[p].hs)
    ensures CanFree(d, p, reg[p].Size()) && reg[p].Size() > 0
  {
    hide Sane, At, Starts, Sum, HandlesApart;
    SaneApart(d0, d, p, reg[p]);
    ApartIsClear(d0, d, p, reg[p]);
    ClearIsVacant(d, p);
    assert d0.res[p] > 0 by { SanePositive(d0, p); }
  }

  lemma AsleepCanFree(d: Dev, reg: Registry, broken: set<Addr>, p: Addr)
    requires Fleet(d, reg, broken) && p in reg && p !in broken && reg[p].asleep
    ensures CanFree(d, p, reg[p].Size())
  {
    hide Fleet, Open, Vacant;
    CanWake(d, reg, broken, p);
    OpenReserved(d, p, reg[p].sizes);
  }

  lemma SanePositive(d: Dev, p: Addr)
    requires Sane(d) && p in d.res
    ensures d.res[p] > 0
  {}

  /** With its range reserved again it is asleep. */
  lemma NowAsleep(d0: Dev, d1: Dev, d: Dev, reg: Registry, broken: set<Addr>, p: Addr)
    requires Fleet(d0, reg, broken) && p in reg && p !in broken && !reg[p].asleep
    requires TakenApart(d0, d1, p, reg[p].sizes, reg[p].hs) && Gone(d1, p, reg[p].sizes, reg[p].hs)
    requires d.maps == d1.maps && p in d.res && d.res[p] == reg[p].Size()
    ensures Healthy(d, p, reg[p].(asleep := true))
  {
    hide Sane, At, Starts, Named, Sum, HandlesApart, TakenApart, Gone;
    ApartIsClear(d0, d1, p, reg[p]);
  }

  lemma StillAsleep(d: Dev, reg: Registry, broken: set<Addr>, p: Addr, hs: seq<Handle>)
    requires Fleet(d, reg, broken) && p in reg && p !in broken && reg[p].asleep
    ensures Healthy(d, p, Entry(reg[p].sizes, hs, true))
  {}

  lemma ReservedHere(d: Dev, reg: Registry, broken: set<Addr>, p: Addr)
    requires Fleet(d, reg, broken) && p in reg && p !in broken
    ensures p in d.res && d.res[p] == reg[p].Size()
  {}

  lemma FleetFewer(d: Dev, reg: Registry, broken: set<Addr>, p: Addr)
    requires Fleet(d, reg, broken)
    ensures Fleet(d, reg, broken + {p})
  {
    hide Sane, Healthy, HandlesApart;
  }

  lemma FreedRange(d1: Dev, d: Dev, p: Addr, n: nat, e: Entry)
    requires Vacant(d1, p, n) && d.maps == d1.maps && d.live == d1.live
    ensures Clear(d, p, n)
    ensures Gone(d1, p, e.sizes, e.hs) ==> Gone(d, p, e.sizes, e.hs)
  {}

  lemma MakeOpen(d: Dev, a: Addr, sizes: seq<nat>)
    requires a in d.res && d.res[a] == Sum(sizes) && Vacant(d, a, Sum(sizes)) && Positive(sizes)
    ensures Open(d, a, sizes)
  {}

  lemma SumOfNone(sizes: seq<nat>)
    ensures sizes == [] ==> Sum(sizes) == 0
  {}

  lemma NamesDistinct(d: Dev, hs: seq<Handle>)
    requires NewNames(d, hs)
    ensures Distinct(hs)
  {}

  lemma SizeHere(d: Dev, reg: Registry, broken: set<Addr>, p: Addr)
    requires Fleet(d, reg, broken) && p in reg && p !in broken
    ensures Positive(reg[p].sizes) && reg[p].Size() > 0 && reg[p].sizes != []
  {
    SumOfNone(reg[p].sizes);
  }

  lemma ApartFewer(d0: Dev, d: Dev, p: Addr, sizes: seq<nat>, hs: seq<Handle>)
    requires TakenApart(d0, d, p, sizes, hs)
    ensures forall a | a in d.maps :: a in d0.maps
    ensures forall h | h in d.live :: h in d0.live
  {}

  lemma GoneStays(d1: Dev, d: Dev, p: Addr, sizes: seq<nat>, hs: seq<Handle>)
    requires Gone(d1, p, sizes, hs) && d.maps == d1.maps && d.live == d1.live
    ensures Gone(d, p, sizes, hs)
  {}

  /** Exposed allocations that were sound are asleep and not empty. */
  lemma ExposedAsleep(d: Dev, reg: Registry, broken: set<Addr>, p: Addr, n: nat)
    requires Fleet(d, reg, broken)
    ensures forall q | q in Exposed(reg, p, n) ::
              q in reg && q != p && reg[q].asleep && (q !in broken ==> Positive(reg[q].sizes) && reg[q].Size() > 0)
  {
    hide Sum, HandlesApart, Inside;
    forall q | q in reg && q !in broken ensures Positive(reg[q].sizes) && reg[q].Size() > 0 { assert Healthy(d, q, reg[q]); }
  }

  /** A freshly mapped allocation joins the fleet. */
  lemma JoinMapped(d0: Dev, d: Dev, reg: Registry, broken: set<Addr>, p: Addr, sizes: seq<nat>, hs: seq<Handle>)
    requires Fleet(d0, reg, broken) && Fleet(d, reg, broken + {p}) && |sizes| == |hs| && Positive(sizes) && NewNames(d0, hs)
    requires d == Mapped(d0, p, sizes, hs) && p in d0.res && d0.res[p] == Sum(sizes)
    ensures Fleet(d, reg[p := Entry(sizes, hs, false)], broken - {p}) && Distinct(hs)
  {
    hide Fleet, Sane, Mapped, NewNames, Sum;
    FleetSane(d, reg, broken + {p});
    NewHandlesApart(d0, reg, broken, sizes, hs);
    MappedIsBacked(d0, p, sizes, hs);
    NamesDistinct(d0, hs);
    FleetJoin(d, reg, broken, p, Entry(sizes, hs, false));
  }

  /** When a sleeping allocation is mapped outside its reservation, the exposed ones are no longer vouched for. */
  lemma FleetExposed(d0: Dev, d: Dev, reg: Registry, broken: set<Addr>, p: Addr, n: nat, first: Handle, e: Entry)
    requires Fleet(d0, reg, broken) && Adds(d0, d, p, n, first) && Sane(d) && p in broken
    ensures Fleet(d, reg[p := e], broken + Exposed(reg, p, n))
  {
    hide Fleet, Adds, Sane;
    FleetAdds(d0, d, reg, broken, p, n, first);
    var all := broken + Exposed(reg, p, n);
    assert broken + {p} + Exposed(reg, p, n) == all + {p} == all;
    FleetWithout(d, reg, all, p, e);
  }

  /** The driver lets any handle be mapped into the range of a sleeping allocation, which is then asleep no more:
      nothing but its own address keeps an allocation that lost its reservation out of another's. */
  lemma StrayMapping(d: Dev, q: Addr, e: Entry, a: Addr, n: nat, h: Handle)
    requires Sane(d) && Healthy(d, q, e) && e.asleep && q <= a < a + n <= q + e.Size() && h in d.live && d.live[h] == n
    ensures CanMap(d, a, n, h) && !Healthy(d.(maps := d.maps[a := (n, h)]), q, e)
  {
    hide Sum;
    ClearIsVacant(d, q);
    assert q in d.res;
    assert a in d.maps[a := (n, h)];
  }

  // ----- What survives -----

  /** All allocations sound in the first registry, but for `except`, are at their address and sound in the second. */
  ghost predicate AllKept(reg: Registry, broken: set<Addr>, reg': Registry, broken': set<Addr>, except: set<Addr>) {
    forall p | p in reg && p !in broken && p !in except ::
      p in reg' && p !in broken' && reg'[p].sizes == reg[p].sizes
  }

  /** If every sound entry is still there, unchanged and sound, all are kept. */
  lemma SoundKept(reg: Registry, broken: set<Addr>, reg': Registry, broken': set<Addr>)
    requires forall q | q in reg && q !in broken :: q in reg' && q !in broken' && reg'[q] == reg[q]
    ensures AllKept(reg, broken, reg', broken', {})
  {}

  /** An operation on `p` that breaks at most `harmed` keeps all others. */
  lemma OthersKept(reg: Registry, broken: set<Addr>, reg': Registry, broken': set<Addr>, p: Addr, harmed: set<Addr>)
    requires forall q | q in reg && q != p :: q in reg' && reg'[q] == reg[q]
    requires broken' <= broken + harmed
    ensures AllKept(reg, broken, reg', broken', harmed + {p})
    ensures p in reg' && p in reg && reg'[p].sizes == reg[p].sizes ==> AllKept(reg, broken, reg', broken', harmed)
  {}

  lemma KeptMore(reg: Registry, broken: set<Addr>, reg': Registry, broken': set<Addr>, a: set<Addr>, b: set<Addr>)
    requires AllKept(reg, broken, reg', broken', a) && a <= b
    ensures AllKept(reg, broken, reg', broken', b)
  {}

  /** What survives one thing and then another survives both. */
  lemma KeptTwice(reg: Registry, broken: set<Addr>, reg': Registry, broken': set<Addr>, reg'': Registry, broken'': set<Addr>,
                  a: set<Addr>, b: set<Addr>, c: set<Addr>)
    requires AllKept(reg, broken, reg', broken', a) && AllKept(reg', broken', reg'', broken'', b) && a <= c && b <= c
    ensures AllKept(reg, broken, reg'', broken'', c)
  {}
}
