/** The pluggable allocator: allocate, free, put an allocation to sleep, wake it. */
module SleepAllocator {
  import opened Arithmetic
  import opened MemoryChunks
  import opened DeviceMemory
  import opened DeviceDriver
  import opened SleepFleet
  import opened SleepAccount
  import opened SleepRuns
  import opened Options

  class Allocator {
    const dev: Device
    const g: nat
    const setting: Setting
    /** The device as the allocator found it. */
    ghost const base: Dev
    var registry: Registry
    /** Entries that are no allocation: one that could not be backed, or was mapped outside its reservation. */
    var lost: set<Addr>
    /** Sleeping allocations whose sleep raised, whose wake left something behind, or whose range was used. */
    var hurt: set<Addr>

    function Broken(): set<Addr>
      reads this
    {
      lost + hurt
    }

    ghost predicate Valid()
      reads this, dev
    {
      && 0 < g < ULL && (setting.Megabytes? ==> setting.value < ULL)
      && Fleet(dev.d, registry, Broken())
      && lost !! hurt
      && (forall p | p in registry && p in hurt :: registry[p].asleep && Positive(registry[p].sizes) && registry[p].Size() > 0)
      && forall h | h in dev.d.live :: h < dev.next
    }

    /** Nothing has leaked. */
    ghost predicate NoLeak()
      reads this, dev
    {
      Accounted(base, dev.d, registry, Broken())
    }

    constructor (dev: Device, g: nat, setting: Setting)
      requires 0 < g < ULL && (setting.Megabytes? ==> setting.value < ULL)
      requires Sane(dev.d) && forall h | h in dev.d.live :: h < dev.next
      ensures Valid() && NoLeak() && this.dev == dev && this.g == g && this.setting == setting
      ensures registry == map[] && lost == {} && hurt == {}
    {
      this.dev, this.g, this.setting, base := dev, g, setting, dev.d;
      registry, lost, hurt := map[], {}, {};
    }

    // ----- Allocating -----

    /** The aligned size, the chunk size and the chunks of a request; a chunk size of 0 is a division by zero. */
    method ChunkSizes(size: nat) returns (aligned: nat, chunk: nat, sizes: seq<nat>)
      requires 0 < size < ULL && 0 < g < ULL && (setting.Megabytes? ==> setting.value < ULL)
      ensures aligned == AlignUp(size, g) && (aligned == 0 <==> size + g - 1 >= ULL)
      ensures chunk == 0 <==> BaseChunk(setting) + g - 1 >= ULL
      ensures Positive(sizes) && (sizes != [] ==> Sum(sizes) == aligned)
      ensures sizes != [] <==> NoWrap(size, setting, g)
      ensures sizes != [] ==> aligned > 0 && chunk > 0 && size <= Sum(sizes) < size + g && Tiles(sizes, aligned, chunk, g)
    {
      hide Sum;
      aligned, chunk, sizes := AlignUp(size, g), AlignUp(BaseChunk(setting), g), [];
      AlignUpIff(size, g);
      AlignUpIff(BaseChunk(setting), g);
      if aligned > 0 && chunk > 0 {
        RemainderIffMultiple(aligned, g);
        RemainderIffMultiple(chunk, g);
        sizes := SplitChunks(aligned, chunk, g);
      }
    }

    /** Reserve, register, back with memory.  On success the new allocation is awake at the returned address, which
        happens only if no 64-bit sum wraps, and then unless a call is refused.  If backing it fails, the reservation is given back but the entry
        stays registered: `stale` is then registered although no longer reserved, and the error code stays set.
        A chunk size that wraps to 0 crashes. */
    method Malloc(size: nat) returns (p: Option<Addr>, crashed: bool, ghost stale: set<Addr>)
      requires Valid() && dev.error == 0 && 0 < size < ULL
      modifies this, dev
      ensures Valid() && dev.slips >= old(dev.slips)
      ensures p.Some? <==> dev.error == 0 && !crashed
      ensures p.Some? ==> NoWrap(size, setting, g) && dev.slips == old(dev.slips)
      ensures crashed ==> BaseChunk(setting) + g - 1 >= ULL && registry == old(registry) && stale == {}
      ensures dev.refused >= old(dev.refused) && dev.astray == old(dev.astray)
      ensures NoWrap(size, setting, g) && dev.refused == old(dev.refused) ==> p.Some?
      ensures NoWrap(size, setting, g) && dev.slips == old(dev.slips) ==> dev.bad == old(dev.bad)
      ensures p.None? && !crashed && dev.slips == old(dev.slips) ==> dev.d == old(dev.d)
      ensures p.Some? ==> registry.Keys == old(registry).Keys + {p.value} && Broken() == old(Broken()) - {p.value}
                          && (p.value in old(registry) ==> p.value in old(Broken()))
                          && !registry[p.value].asleep && size <= registry[p.value].Size() < size + g && stale == {}
                          && registry[p.value].Size() == AlignUp(size, g)
      ensures p.None? ==> |stale| <= 1 && registry.Keys == old(registry).Keys + stale && Broken() == old(Broken()) + stale
                          && stale !! old(dev.d).res.Keys
      ensures forall q | q in old(registry) && q !in old(Broken()) ::
                q in registry && q !in Broken() && q !in stale && registry[q] == old(registry)[q]
      ensures hurt <= old(hurt)
      ensures old(NoLeak()) && !crashed && dev.slips == old(dev.slips) ==> NoLeak()
    {
      hide Fleet, Sum, Tiles, Vacant, AlignUp, NoWrap, Accounted;
      p, crashed, stale := None, false, {};
      var status := dev.EnsureContext();
      if status != 0 {
        dev.error := status;
      } else {
        var aligned, chunk, sizes := ChunkSizes(size);
        ghost var d0 := dev.d;
        var reserved, a := NewRange(aligned);
        if reserved {
          if chunk == 0 {
            crashed := true;
          } else {
            var ok := Enter(a, aligned, sizes, d0);
            if ok { p := Some(a); } else { stale := {a}; }
          }
        }
      }
    }

    /** Reserves a range of `n` bytes; nothing can be reserved for none. */
    method NewRange(n: nat) returns (ok: bool, a: Addr)
      requires Valid() && dev.error == 0
      modifies dev
      ensures Valid() && dev.slips >= old(dev.slips) && (n > 0 ==> dev.bad == old(dev.bad)) && (ok <==> dev.error == 0)
      ensures ok ==> n > 0 && dev.slips == old(dev.slips) && dev.d == old(dev.d).(res := old(dev.d).res[a := n])
                     && a !in old(dev.d).res && Vacant(dev.d, a, n) && (a in registry ==> a in Broken())
      ensures !ok && dev.slips == old(dev.slips) ==> dev.d == old(dev.d)
      ensures dev.refused >= old(dev.refused) && dev.astray == old(dev.astray) && (n > 0 && dev.refused == old(dev.refused) ==> ok)
    {
      hide Fleet, Sane, Vacant, Unreserved, Extends;
      ghost var d0 := dev.d;
      FleetSane(d0, registry, Broken());
      var status;
      status, a := dev.ReserveAligned(n, g, None);
      ok := status == 0;
      if ok {
        NotRegistered(d0, registry, Broken(), a, n);
        SaneReserve(d0, a, n);
      } else {
        dev.error := status;
      }
      if n > 0 { FleetReserve(d0, dev.d, registry, Broken()); }
    }

    /** Registers and backs a range just reserved in state `d0`, and keeps the books. */
    method Enter(a: Addr, n: nat, sizes: seq<nat>, ghost d0: Dev) returns (ok: bool)
      requires Valid() && dev.error == 0 && (a in registry ==> a in Broken())
      requires a !in d0.res && dev.d == d0.(res := d0.res[a := n]) && n > 0 && Vacant(dev.d, a, n) && Positive(sizes)
      requires sizes != [] ==> Sum(sizes) == n
      modifies this, dev
      ensures Valid() && dev.slips >= old(dev.slips)
      ensures sizes != [] && dev.slips == old(dev.slips) ==> dev.bad == old(dev.bad)
      ensures (ok <==> dev.error == 0) && (ok ==> sizes != [])
      ensures dev.refused >= old(dev.refused) && dev.astray == old(dev.astray)
      ensures sizes != [] ==> (ok <==> dev.refused == old(dev.refused))
      ensures ok ==> dev.slips == old(dev.slips)
      ensures !ok && dev.slips == old(dev.slips) ==> dev.d == d0
      ensures registry.Keys == old(registry).Keys + {a} && registry[a].sizes == sizes && !registry[a].asleep
      ensures forall q | q in old(registry) && q != a :: registry[q] == old(registry)[q]
      ensures Broken() == if ok then old(Broken()) - {a} else old(Broken()) + {a}
      ensures hurt <= old(hurt)
      ensures Accounted(base, d0, old(registry), old(Broken())) && dev.slips == old(dev.slips) ==> NoLeak()
    {
      hide Fleet, Mapped, Sum, Vacant, Accounted, Carried, Fresh, NewNames, Positive, Distinct, HandlesApart;
      ghost var (reg, was) := (registry, Broken());
      FleetFewer(dev.d, reg, was, a);
      FleetWithout(dev.d, reg, was, a, Entry(sizes, [], false));
      registry := registry[a := Entry(sizes, [], false)];
      lost, hurt := lost + {a}, hurt - {a};
      assert Broken() == was + {a};
      ok := Back(a, n, sizes);
      assert Broken() == if ok then was - {a} else was + {a};
      if ok {
        if Accounted(base, d0, reg, was) { AccountNew(base, d0, reg, was, registry, Broken(), a, n); }
      } else {
        assert d0.res[a := n] - {a} == d0.res;
        CarriedStale(reg, was, registry, Broken(), a);
        if Accounted(base, d0, reg, was) { AccountSame(base, d0, reg, was, registry, Broken()); }
      }
    }

    /** Backs a range that is registered and reserved but not backed yet. */
    method Back(a: Addr, n: nat, sizes: seq<nat>) returns (ok: bool)
      requires Valid() && dev.error == 0 && a in registry && a in lost && registry[a] == Entry(sizes, [], false)
      requires a in dev.d.res && dev.d.res[a] == n > 0 && Vacant(dev.d, a, n) && Positive(sizes)
      requires sizes != [] ==> Sum(sizes) == n
      modifies this, dev
      ensures Valid() && dev.slips >= old(dev.slips)
      ensures sizes != [] && dev.slips == old(dev.slips) ==> dev.bad == old(dev.bad)
      ensures (ok <==> dev.error == 0) && (ok ==> sizes != [])
      ensures dev.refused >= old(dev.refused) && dev.astray == old(dev.astray)
      ensures sizes != [] ==> (ok <==> dev.refused == old(dev.refused))
      ensures ok ==> dev.slips == old(dev.slips)
      ensures !ok && dev.slips == old(dev.slips) ==> dev.d == old(dev.d).(res := old(dev.d).res - {a})
      ensures registry.Keys == old(registry).Keys && registry[a].sizes == sizes && !registry[a].asleep
      ensures forall q | q in old(registry) && q != a :: registry[q] == old(registry)[q]
      ensures lost == (if ok then old(lost) - {a} else old(lost)) && hurt == old(hurt)
      ensures ok ==> |registry[a].hs| == |sizes| && Distinct(registry[a].hs) && dev.d == Mapped(old(dev.d), a, sizes, registry[a].hs)
    {
      hide Fleet, Open, Mapped, Sum, Adds, NewNames, Vacant, Sane, Fresh, Positive, Distinct;
      ghost var (d0, reg, was) := (dev.d, registry, Broken());
      FleetSane(d0, reg, was);
      if sizes != [] { MakeOpen(d0, a, sizes); }
      var hs, outcome := dev.CreateAndMap(a, n, sizes);
      registry := registry[a := Entry(sizes, hs, false)];
      SumOfNone(sizes);
      AddsMore(d0, dev.d, a, Sum(sizes), n, old(dev.next));
      FleetOwnRange(d0, dev.d, reg, was, a, n, old(dev.next));
      ok := dev.error == 0;
      if ok {
        JoinMapped(d0, dev.d, reg, was, a, sizes, hs);
        lost := lost - {a};
        assert Broken() == was - {a};
      } else {
        FleetWithout(dev.d, reg, was, a, Entry(sizes, hs, false));
        assert Broken() == was + {a};
        AddsRes(d0, dev.d, a, n, old(dev.next));
        GiveUp(a, n);
      }
    }

    /** Gives back the reservation of an allocation that could not be backed. */
    method GiveUp(a: Addr, n: nat)
      requires Valid() && dev.error != 0 && a in lost && a in dev.d.res && dev.d.res[a] == n
      modifies dev
      ensures Valid() && dev.error != 0 && dev.slips >= old(dev.slips)
      ensures dev.refused >= old(dev.refused) && dev.astray == old(dev.astray)
      ensures Vacant(old(dev.d), a, n) ==> dev.bad == old(dev.bad)
      ensures dev.slips == old(dev.slips) ==> dev.d == old(dev.d).(res := old(dev.d).res - {a})
    {
      hide Fleet, Sane, Vacant;
      ghost var d0 := dev.d;
      var status := dev.AddressFree(a, n);
      if status != 0 { dev.error, dev.slips := status, dev.slips + 1; } else { FleetFree(d0, registry, Broken(), a); }
    }

    // ----- Sleeping and waking -----

    /** Puts an awake allocation to sleep: unmap, release, and hold the address with an empty reservation.  If it
        succeeds no mapping and no handle of the allocation is left.  Whether or not it raises, the entry is
        marked asleep; if it raises, only this allocation suffers.  It raises if and only if a call is refused or the
        range is granted at another address. */
    method Sleep(p: Addr) returns (raised: bool)
      requires Valid() && dev.error == 0 && p in registry && p !in lost && !registry[p].asleep
      modifies this, dev
      ensures Valid() && dev.error == 0 && dev.bad == old(dev.bad) && dev.slips >= old(dev.slips)
      ensures registry == old(registry)[p := old(registry)[p].(asleep := true)]
      ensures lost == old(lost) && hurt == if raised then old(hurt) + {p} else old(hurt)
      ensures AllKept(old(registry), old(Broken()), registry, Broken(), if raised then {p} else {})
      ensures !raised ==> Gone(dev.d, p, old(registry)[p].sizes, old(registry)[p].hs) && dev.d.res == old(dev.d).res
      ensures dev.refused >= old(dev.refused) && dev.astray >= old(dev.astray)
      ensures raised <==> dev.refused > old(dev.refused) || dev.astray > old(dev.astray)
      ensures !raised ==> dev.slips == old(dev.slips)
      ensures old(NoLeak()) && !raised ==> NoLeak()
    {
      hide Fleet, TakenApart, Gone, Sum, Sane, Clear, HandlesApart, CanFree, CanUnmap, At, Accounted, LeftOver, Starts, Named;
      ghost var (d0, reg, was) := (dev.d, registry, Broken());
      var e := registry[p];
      var n := e.Size();
      CanTakeApart(d0, reg, was, p);
      ReservedHere(d0, reg, was, p);
      dev.UnmapAndRelease(p, e.sizes, e.hs);
      ghost var d1 := dev.d;
      FleetApart(d0, d1, reg, was, p);
      FleetWithout(d1, reg, was, p, e.(asleep := true));
      registry := registry[p := e.(asleep := true)];
      hurt := hurt + {p};
      assert Broken() == was + {p};
      SizeHere(d0, reg, was, p);
      if dev.error == 0 {
        ApartCanFree(d0, d1, reg, was, p);
        Hold(p, n);
      }
      raised := dev.error != 0;
      dev.error := 0;
      if !raised {
        NowAsleep(d0, d1, dev.d, reg, was, p);
        AsleepApart(registry, Broken(), registry[p]);
        FleetJoin(dev.d, registry, Broken(), p, registry[p]);
        assert registry[p := registry[p]] == registry;
        hurt := hurt - {p};
        assert Broken() == was && was + {p} - {p} == was && hurt == old(hurt);
        ApartFewer(d0, d1, p, e.sizes, e.hs);
        GoneStays(d1, dev.d, p, e.sizes, e.hs);
        if Accounted(base, d0, reg, was) { AccountApart(base, d0, dev.d, reg, was, registry, Broken(), p); }
      }
      OthersKept(reg, was, registry, Broken(), p, if raised then {p} else {});
    }

    /** Gives up the address range of a sleeping allocation and reserves the same range again. */
    method Hold(p: Addr, n: nat)
      requires Valid() && dev.error == 0 && p in registry && p in hurt && CanFree(dev.d, p, n) && n > 0
      modifies dev
      ensures Valid() && dev.bad == old(dev.bad) && dev.d.maps == old(dev.d).maps && dev.d.live == old(dev.d).live
      ensures dev.error == 0 ==> dev.d.res == old(dev.d).res
      ensures dev.refused >= old(dev.refused) && dev.astray >= old(dev.astray)
      ensures dev.error == 0 <==> dev.refused == old(dev.refused) && dev.astray == old(dev.astray)
      ensures dev.error == 0 ==> dev.slips == old(dev.slips)
      ensures dev.slips >= old(dev.slips)
    {
      hide Fleet, Sane, Vacant, Extends, Unreserved;
      ghost var d0 := dev.d;
      var status := dev.AddressFree(p, n);
      if status != 0 { dev.error := status; return; }
      FleetFree(d0, registry, Broken(), p);
      ghost var d1 := dev.d;
      FleetSane(d1, registry, Broken());
      var got;
      status, got := dev.ReserveAligned(n, 0, Some(p));
      if status != 0 {
        dev.error := status;
        FleetReserve(d1, dev.d, registry, Broken());
        return;
      }
      SaneReserve(d1, got, n);
      FleetReserve(d1, dev.d, registry, Broken());
      if got != p {
        NotRegistered(d1, registry, Broken(), got, n);
        ghost var d2 := dev.d;
        var freed := dev.AddressFree(got, n);
        if freed == 0 { FleetFree(d2, registry, Broken(), got); } else { dev.slips := dev.slips + 1; }
        dev.error := 1;
      } else {
        assert dev.d.res == d0.res;
      }
    }

    /** Wakes a sleeping allocation at its old address.  A sound one is awake there afterwards, or goes on sleeping
        as before if waking fails without leaving anything behind; nothing else is touched. */
    method WakeSound(p: Addr) returns (raised: bool)
      requires Valid() && dev.error == 0 && p in registry && p !in Broken() && registry[p].asleep
      modifies this, dev
      ensures Valid() && dev.error == 0 && dev.bad == old(dev.bad) && dev.slips >= old(dev.slips)
      ensures registry.Keys == old(registry).Keys && registry[p].sizes == old(registry)[p].sizes && registry[p].asleep == raised
      ensures forall q | q in old(registry) && q != p :: registry[q] == old(registry)[q]
      ensures lost == old(lost) && hurt == if dev.slips == old(dev.slips) then old(hurt) else old(hurt) + {p}
      ensures dev.refused >= old(dev.refused) && dev.astray == old(dev.astray) && (raised <==> dev.refused > old(dev.refused))
      ensures dev.slips > old(dev.slips) ==> raised
      ensures raised && dev.slips == old(dev.slips) ==> dev.d == old(dev.d)
      ensures old(NoLeak()) && dev.slips == old(dev.slips) ==> NoLeak()
    {
      hide Fleet, Open, Mapped, Sum, Adds, NewNames, Sane, Fresh, Accounted, Carried;
      ghost var (d0, reg, was) := (dev.d, registry, Broken());
      var e := registry[p];
      CanWake(d0, reg, was, p);
      FleetSane(d0, reg, was);
      OpenReserved(d0, p, e.sizes);
      SizeHere(d0, reg, was, p);
      var slips := dev.slips;
      var hs, outcome := dev.CreateAndMap(p, e.Size(), e.sizes);
      raised := dev.error != 0;
      dev.error := 0;
      registry := registry[p := Entry(e.sizes, hs, raised)];
      assert registry == reg[p := Entry(e.sizes, hs, raised)];
      FleetOwnRange(d0, dev.d, reg, was, p, e.Size(), old(dev.next));
      if dev.slips > slips {
        FleetWithout(dev.d, reg, was, p, Entry(e.sizes, hs, raised));
        hurt := hurt + {p};
        assert Broken() == was + {p};
        return;
      }
      assert was - {p} == was;
      CarriedWake(reg, was, registry, p);
      if raised {
        StillAsleep(d0, reg, was, p, hs);
        AsleepApart(reg, was, Entry(e.sizes, hs, true));
        FleetJoin(dev.d, reg, was, p, Entry(e.sizes, hs, true));
        if Accounted(base, d0, reg, was) { AccountSame(base, d0, reg, was, registry, was); }
      } else {
        JoinMapped(d0, dev.d, reg, was, p, e.sizes, hs);
        if Accounted(base, d0, reg, was) { AccountAgain(base, d0, reg, was, registry, p); }
      }
    }

    /** Wakes an allocation that is not sound.  If its address is still reserved for it, nothing else suffers, and
        success makes it sound again.  Otherwise sleeping allocations whose ranges meet its own may suffer, and
        only they. */
    method WakeHurt(p: Addr) returns (raised: bool, ghost harmed: set<Addr>)
      requires Valid() && dev.error == 0 && p in registry && p in hurt
      modifies this, dev
      ensures Valid() && dev.error == 0 && dev.slips >= old(dev.slips)
      ensures registry.Keys == old(registry).Keys && registry[p].sizes == old(registry)[p].sizes && registry[p].asleep == raised
      ensures forall q | q in old(registry) && q != p :: registry[q] == old(registry)[q]
      ensures harmed <= Exposed(old(registry), p, old(registry)[p].Size())
      ensures Reserved(old(dev.d), p, old(registry)[p]) ==> harmed == {}
      ensures Broken() <= old(Broken()) + harmed && hurt <= old(hurt) + harmed
      ensures Reserved(old(dev.d), p, old(registry)[p]) && !raised ==> p !in Broken()
      ensures dev.refused >= old(dev.refused) && dev.astray == old(dev.astray) && dev.bad >= old(dev.bad)
      ensures raised <==> dev.refused > old(dev.refused) || dev.bad > old(dev.bad)
    {
      hide Fleet, Mapped, Sum, Adds, NewNames, Sane, Fresh, Exposed, Open, Vacant, Distinct, Starts, Named;
      ghost var (d0, reg, was) := (dev.d, registry, Broken());
      var e := registry[p];
      FleetSane(d0, reg, was);
      var exposed := Exposed(registry, p, e.Size()) - lost;
      var hs, outcome := dev.CreateAndMap(p, e.Size(), e.sizes);
      raised := dev.error != 0;
      dev.error := 0;
      registry := registry[p := Entry(e.sizes, hs, raised)];
      assert registry == reg[p := Entry(e.sizes, hs, raised)];
      AddsRes(d0, dev.d, p, Sum(e.sizes), old(dev.next));
      if p in dev.d.res && dev.d.res[p] == e.Size() {
        harmed := {};
        FleetOwnRange(d0, dev.d, reg, was, p, e.Size(), old(dev.next));
        if raised {
          FleetWithout(dev.d, reg, was, p, Entry(e.sizes, hs, true));
          assert was + {p} == was;
        } else {
          JoinMapped(d0, dev.d, reg, was, p, e.sizes, hs);
          hurt := hurt - {p};
          assert Broken() == was - {p};
        }
      } else {
        harmed := exposed;
        FleetExposed(d0, dev.d, reg, was, p, e.Size(), old(dev.next), Entry(e.sizes, hs, raised));
        ExposedAsleep(d0, reg, was, p, e.Size());
        hurt := hurt + exposed;
        if !raised { lost, hurt := lost + {p}, hurt - {p}; }
        assert Broken() == was + Exposed(reg, p, e.Size());
      }
    }

    /** Wakes any sleeping allocation; the two cases above differ in what is promised, not in what is done. */
    method Wake(p: Addr) returns (raised: bool, ghost harmed: set<Addr>)
      requires Valid() && dev.error == 0 && p in registry && p !in lost && registry[p].asleep
      modifies this, dev
      ensures Valid() && dev.error == 0 && dev.slips >= old(dev.slips)
      ensures registry.Keys == old(registry).Keys && registry[p].sizes == old(registry)[p].sizes && registry[p].asleep == raised
      ensures forall q | q in old(registry) && q != p :: registry[q] == old(registry)[q]
      ensures Broken() <= old(Broken()) + harmed && hurt <= old(hurt) + harmed
      ensures AllKept(old(registry), old(Broken()), registry, Broken(), harmed)
      ensures dev.refused >= old(dev.refused) && dev.astray == old(dev.astray) && dev.bad >= old(dev.bad)
      ensures raised <==> dev.refused > old(dev.refused) || dev.bad > old(dev.bad)
      ensures p !in old(hurt) ==> harmed == (if dev.slips == old(dev.slips) then {} else {p}) && dev.bad == old(dev.bad)
      ensures p !in old(hurt) && !raised ==> dev.slips == old(dev.slips)
      ensures p !in old(hurt) && dev.slips == old(dev.slips) ==>
                p !in Broken() && (raised ==> dev.d == old(dev.d)) && (old(NoLeak()) ==> NoLeak())
      ensures p in old(hurt) ==> harmed <= Exposed(old(registry), p, old(registry)[p].Size())
      ensures Reserved(old(dev.d), p, old(registry)[p]) && p in old(hurt) ==> harmed == {} && (!raised ==> p !in Broken())
    {
      hide Fleet, Sum, Exposed, Accounted, Positive, Reserved;
      ghost var (reg, was) := (registry, Broken());
      if p in hurt {
        raised, harmed := WakeHurt(p);
      } else {
        var slips := dev.slips;
        raised := WakeSound(p);
        harmed := if dev.slips == slips then {} else {p};
      }
      OthersKept(reg, was, registry, Broken(), p, harmed);
    }

    // ----- Freeing -----

    /** Unmaps and releases an awake allocation; of a sleeping one nothing is left to unmap. */
    method Dismantle(p: Addr)
      requires Valid() && dev.error == 0 && p in registry && p !in lost
      modifies dev
      ensures Fleet(dev.d, registry, Broken() + {p}) && dev.bad == old(dev.bad) && dev.d.res == old(dev.d).res
      ensures (forall h | h in dev.d.live :: h in old(dev.d).live && h < dev.next) && forall a | a in dev.d.maps :: a in old(dev.d).maps
      ensures dev.slips >= old(dev.slips) && (dev.slips == old(dev.slips) <==> dev.error == 0)
      ensures dev.refused >= old(dev.refused) && dev.astray == old(dev.astray) && (dev.error == 0 <==> dev.refused == old(dev.refused))
      ensures !registry[p].asleep && dev.error == 0 ==> Gone(dev.d, p, registry[p].sizes, registry[p].hs)
      ensures p !in hurt && dev.error == 0 ==> CanFree(dev.d, p, registry[p].Size())
    {
      hide Fleet, TakenApart, Gone, CanUnmap, At, Positive, Distinct, LeftOver, Starts, Named, CanFree;
      ghost var d0 := dev.d;
      var e := registry[p];
      if !e.asleep {
        CanTakeApart(d0, registry, Broken(), p);
        dev.UnmapAndRelease(p, e.sizes, e.hs);
        FleetApart(d0, dev.d, registry, Broken(), p);
        ApartFewer(d0, dev.d, p, e.sizes, e.hs);
        if dev.error != 0 { dev.slips := dev.slips + 1; } else { ApartCanFree(d0, dev.d, registry, Broken(), p); }
      } else {
        FleetFewer(d0, registry, Broken(), p);
        if p !in hurt { AsleepCanFree(d0, registry, Broken(), p); }
      }
    }

    /** Frees an allocation that is registered. */
    method FreeKnown(p: Addr, size: nat)
      requires Valid() && dev.error == 0 && p in registry && p !in lost
      modifies this, dev
      ensures Valid() && registry == old(registry) - {p}
      ensures AllKept(old(registry), old(Broken()), registry, Broken(), {p})
      ensures lost == old(lost) && hurt == old(hurt) - {p}
      ensures dev.slips >= old(dev.slips) && (dev.slips == old(dev.slips) <==> dev.error == 0)
      ensures dev.error == 0 ==> dev.bad == old(dev.bad)
      ensures dev.error == 0 ==> dev.d.res == old(dev.d).res - {p} && Clear(dev.d, p, size)
      ensures p !in old(hurt) && dev.error == 0 ==>
                && size == old(registry)[p].Size()
                && (!old(registry)[p].asleep ==> Gone(dev.d, p, old(registry)[p].sizes, old(registry)[p].hs))
      ensures p !in old(hurt) && size != old(registry)[p].Size() ==> dev.error != 0 && p in dev.d.res
      ensures dev.refused >= old(dev.refused) && dev.astray == old(dev.astray)
      ensures p !in old(hurt) && size == old(registry)[p].Size() ==>
                (dev.error == 0 <==> dev.refused == old(dev.refused))
      ensures old(NoLeak()) && p !in old(hurt) && dev.error == 0 ==> NoLeak()
    {
      hide Fleet, TakenApart, Gone, Sum, Sane, Clear, Vacant, CanUnmap, At, Accounted, Positive, Distinct, CanFree, AllKept, HandlesApart;
      ghost var (d0, reg, was) := (dev.d, registry, Broken());
      var e := registry[p];
      if p !in hurt { ReservedHere(d0, reg, was, p); }
      Dismantle(p);
      FleetWithout(dev.d, reg, was, p, e);
      registry, hurt := registry - {p}, hurt - {p};
      assert Broken() == was - {p};
      OnlyOne(p);
      OthersKept(reg, was, registry, Broken(), p, {});
      ghost var d1 := dev.d;
      var status := dev.AddressFree(p, size);
      if status != 0 {
        dev.error, dev.slips := status, dev.slips + 1;
      } else {
        FleetFree(d1, registry, Broken(), p);
        FreedRange(d1, dev.d, p, size, e);
        if Accounted(base, d0, reg, was) && dev.error == 0 { AccountApart(base, d0, dev.d, reg, was, registry, Broken(), p); }
      }
    }

    /** Frees an allocation, awake or asleep.  `size` is what the caller says: the range is given back only if that
        is the aligned size, and then, unless a call fails, nothing of a sound allocation is left. */
    method Free(p: Addr, size: nat)
      requires Valid() && dev.error == 0 && p !in lost
      modifies this, dev
      ensures Valid() && registry == old(registry) - {p}
      ensures AllKept(old(registry), old(Broken()), registry, Broken(), {p})
      ensures lost == old(lost) && hurt == (if p in old(registry) then old(hurt) - {p} else old(hurt))
      ensures p !in old(registry) ==> dev.d == old(dev.d) && dev.error == 0 && dev.bad == old(dev.bad)
      ensures dev.slips >= old(dev.slips) && (dev.slips == old(dev.slips) <==> dev.error == 0)
      ensures dev.error == 0 ==> dev.bad == old(dev.bad)
      ensures p in old(registry) && dev.error == 0 ==> dev.d.res == old(dev.d).res - {p} && Clear(dev.d, p, size)
      ensures p in old(registry) && p !in old(hurt) && dev.error == 0 ==>
                && size == old(registry)[p].Size()
                && (!old(registry)[p].asleep ==> Gone(dev.d, p, old(registry)[p].sizes, old(registry)[p].hs))
      ensures p in old(registry) && p !in old(hurt) && size != old(registry)[p].Size() ==> dev.error != 0 && p in dev.d.res
      ensures dev.refused >= old(dev.refused) && dev.astray == old(dev.astray)
      ensures p in old(registry) && p !in old(hurt) && size == old(registry)[p].Size() ==>
                (dev.error == 0 <==> dev.refused == old(dev.refused))
      ensures old(NoLeak()) && p !in old(hurt) && dev.error == 0 ==> NoLeak()
    {
      hide Fleet, Gone, Sum, Clear, Accounted, AllKept;
      if p in registry {
        FreeKnown(p, size);
      } else {
        OnlyOne(p);
        OthersKept(registry, Broken(), registry, Broken(), p, {});
        assert registry - {p} == registry;
      }
    }

    // ----- Any sequence of operations -----

    ghost function Snap(): Snapshot
      reads this, dev
    {
      Snapshot(registry, lost, hurt, dev.d, dev.bad, dev.slips, dev.refused, dev.astray)
    }

    ghost function Conf(): Config { Config(setting, g, base) }

    /** One operation on a registered allocation, or a new one; sleeping ones are not put to sleep, nor awake ones
        woken.  Everything about it is in `StepOk`. */
    method Step(op: Op) returns (made: Addr, crashed: bool, ghost r: Report)
      requires Valid() && dev.error == 0 && (op.Malloc? ==> 0 < op.size < ULL)
      modifies this, dev
      ensures Valid() && (crashed <==> r.crashed) && (dev.error != 0 <==> r.failed)
      ensures StepOk(Conf(), old(Snap()), Snap(), op, made, r)
    {
      hide Fleet, NoWrap, Sum, Clear, Gone, Exposed, Accounted, Reserved, Positive, AllKept, AlignUp, BaseChunk, StepOk;
      ghost var (c, s) := (Conf(), Snap());
      made, crashed, r := 0, false, NOTHING;
      match op {
        case Malloc(size) =>
          var p;
          ghost var stale;
          p, crashed, stale := Malloc(size);
          if p.Some? { made := p.value; }
          r := Report(0, crashed, dev.error != 0, {}, stale, false);
          MallocOk(c, s, Snap(), size, p, made, r);
        case Sleep(p) =>
          if p in registry && p !in lost && !registry[p].asleep {
            var raised := Sleep(p);
            r := Report(if raised then 1 else 0, false, false, if raised then {p} else {}, {}, false);
            SleepOk(c, s, Snap(), p, made, r);
          } else {
            IdleOk(c, s, op, made);
          }
        case Wake(p) =>
          if p in registry && p !in lost && registry[p].asleep {
            var again;
            ghost var harmed;
            again, harmed := Wake(p);
            r := Report(0, false, false, harmed, {}, p in s.hurt);
            WakeOk(c, s, Snap(), p, made, again, r);
          } else {
            IdleOk(c, s, op, made);
          }
        case Free(p, given) =>
          if p in registry && p !in lost {
            Free(p, given);
            r := Report(0, false, dev.error != 0, {}, {}, p in s.hurt);
            FreeOk(c, s, Snap(), p, given, made, r);
          } else {
            IdleOk(c, s, op, made);
          }
      }
    }

    /** Any sequence of operations, until one crashes or an allocation or a free reports an error.  Everything about it is in
        `RunOk`.  Every allocation that was sound, or was made on the way, and is not freed, keeps its address and is awake
        or asleep there, except those harmed; reservations never overlap.  At most one allocation is harmed by each sleep
        that raises and by each failure that leaves something behind, and it is the one that was put to sleep or woken;
        more only after an operation on an allocation that was harmed already.  As long as every sleep succeeds and nothing
        is left behind (a wake may fail at any handle or mapping) none is harmed, nothing leaks, and no call breaks the
        driver's rules: no handle is released twice, nothing is unmapped that is not mapped, no reservation is freed in use.
        And if no call is refused, no range is granted elsewhere and the caller does its part, all operations are performed
        and each does what it is for. */
    method Perform(ops: seq<Op>) returns (made: seq<Addr>, crashed: bool, ghost r: Report)
      requires Valid() && dev.error == 0
      requires forall i | 0 <= i < |ops| && ops[i].Malloc? :: 0 < ops[i].size < ULL
      modifies this, dev
      ensures Valid() && (crashed <==> r.crashed) && (dev.error != 0 <==> r.failed)
      ensures |made| <= |ops| && (dev.error == 0 && !crashed ==> |made| == |ops|)
      ensures RunOk(Conf(), old(Snap()), Snap(), ops[..|made|], made, r)
    {
      assert Conf().Ok();
      hide Valid, RunOk, StepOk, Fleet;
      ghost var (c, s) := (Conf(), Snap());
      made, crashed, r := [], false, NOTHING;
      NothingYet(c, s);
      Front(ops, 0);
      var i := 0;
      while i < |ops| && dev.error == 0 && !crashed
        invariant Valid() && (crashed <==> r.crashed) && (dev.error != 0 <==> r.failed)
        invariant |made| == i <= |ops| && RunOk(c, s, Snap(), ops[..i], made, r)
      {
        ghost var (t, q) := (Snap(), NOTHING);
        var a;
        a, crashed, q := Step(ops[i]);
        RunNext(c, s, t, Snap(), ops[..i], made, ops[i], a, r, q);
        Front(ops, i);
        made, r := made + [a], Then(r, q);
        i := i + 1;
      }
    }
  }

  lemma OnlyOne(p: Addr)
    ensures {} + {p} == {p}
  {}

  lemma Front(ops: seq<Op>, i: nat)
    requires i <= |ops|
    ensures ops[..0] == [] && (i < |ops| ==> ops[..i] + [ops[i]] == ops[..i + 1])
  {}
}
