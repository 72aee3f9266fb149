/** The driver calls, the two chunk loops built on them, and the mapping and unmapping of an allocation. */
module DeviceDriver {
  import opened Arithmetic
  import opened DeviceMemory
  import opened Options

  /** Where a mapping attempt ended. */
  datatype Outcome = Done | CreateFailed | MapFailed | AccessFailed

  /** The driver, and the error code that the allocator keeps beside it. */
  class Device {
    var d: Dev
    var next: Handle
    var error: int
    /** Calls that broke the driver's rules. */
    var bad: nat
    /** Failures after which something stays behind that should be gone. */
    var slips: nat
    /** Calls within the rules that the driver refused. */
    var refused: nat
    /** Reservations granted at another address than the one wished for. */
    var astray: nat
    /** The addresses of all reservations ever granted. */
    ghost var granted: seq<Addr>

    constructor (d: Dev, next: Handle)
      requires forall h | h in d.live :: h < next
      ensures this.d == d && this.next == next && error == 0 && bad == 0 && slips == 0 && refused == 0 && astray == 0 && granted == []
    {
      this.d, this.next, error, bad, slips, refused, astray, granted := d, next, 0, 0, 0, 0, 0, [];
    }

    /** Makes sure that there is a context. */
    method EnsureContext() returns (status: int)
      modifies `refused
      ensures refused == old(refused) + if status == 0 then 0 else 1
    {
      if * { refused := refused + 1; return 1; }
      status := 0;
    }

    /** A new physical handle; names are never used twice. */
    method MemCreate(size: nat) returns (status: int, h: Handle)
      modifies `d, `next, `refused
      ensures refused == old(refused) + if status == 0 then 0 else 1
      ensures status != 0 ==> d == old(d) && next == old(next)
      ensures status == 0 ==> h == old(next) && next == h + 1 && d == old(d).(live := old(d).live[h := size])
    {
      h := next;
      if * { refused := refused + 1; return 1, h; }
      d, next := d.(live := d.live[h := size]), next + 1;
      status := 0;
    }

    method MemMap(a: Addr, n: nat, h: Handle) returns (status: int)
      modifies `d, `bad, `refused
      ensures bad == old(bad) + if CanMap(old(d), a, n, h) then 0 else 1
      ensures refused == old(refused) + if status != 0 && CanMap(old(d), a, n, h) then 1 else 0
      ensures status != 0 ==> d == old(d)
      ensures status == 0 ==> CanMap(old(d), a, n, h) && d == old(d).(maps := old(d).maps[a := (n, h)])
    {
      if !CanMap(d, a, n, h) { bad := bad + 1; return 1; }
      if * { refused := refused + 1; return 1; }
      d := d.(maps := d.maps[a := (n, h)]);
      status := 0;
    }

    method MemUnmap(a: Addr, n: nat) returns (status: int)
      modifies `d, `bad, `refused
      ensures bad == old(bad) + if CanUnmap(old(d), a, n) then 0 else 1
      ensures refused == old(refused) + if status != 0 && CanUnmap(old(d), a, n) then 1 else 0
      ensures status != 0 ==> d == old(d)
      ensures status == 0 ==> CanUnmap(old(d), a, n) && d == old(d).(maps := old(d).maps - {a})
    {
      if !CanUnmap(d, a, n) { bad := bad + 1; return 1; }
      if * { refused := refused + 1; return 1; }
      d := d.(maps := d.maps - {a});
      status := 0;
    }

    method MemRelease(h: Handle) returns (status: int)
      modifies `d, `bad, `refused
      ensures bad == old(bad) + if h in old(d).live then 0 else 1
      ensures refused == old(refused) + if status != 0 && h in old(d).live then 1 else 0
      ensures status != 0 ==> d == old(d)
      ensures status == 0 ==> h in old(d).live && d == old(d).(live := old(d).live - {h})
    {
      if h !in d.live { bad := bad + 1; return 1; }
      if * { refused := refused + 1; return 1; }
      d := d.(live := d.live - {h});
      status := 0;
    }

    /** A new reservation, anywhere that is free; an address that is wished for need not be granted. */
    method AddressReserve(n: nat, alignment: nat, wish: Option<Addr>) returns (status: int, a: Addr)
      modifies `d, `bad, `refused, `astray, `granted
      ensures bad == old(bad) + if n > 0 then 0 else 1
      ensures refused == old(refused) + if status != 0 && n > 0 then 1 else 0
      ensures granted == old(granted) + if status == 0 then [a] else []
      ensures astray == old(astray) + if status == 0 && wish.Some? && a != wish.value then 1 else 0
      ensures status != 0 ==> d == old(d)
      ensures status == 0 ==> n > 0 && (alignment > 0 ==> a % alignment == 0)
                              && Unreserved(old(d), a, n)
                              && d == old(d).(res := old(d).res[a := n])
    {
      a := 0;
      if n == 0 { bad := bad + 1; return 1, a; }
      var got: Addr := *;
      var willing: bool := *;
      if !willing || (alignment > 0 && got % alignment != 0) || !Unreserved(d, got, n) { refused := refused + 1; return 1, a; }
      a, granted := got, granted + [got];
      if wish.Some? && a != wish.value { astray := astray + 1; }
      d := d.(res := d.res[a := n]);
      status := 0;
    }

    method AddressFree(a: Addr, n: nat) returns (status: int)
      modifies `d, `bad, `refused
      ensures bad == old(bad) + if CanFree(old(d), a, n) then 0 else 1
      ensures refused == old(refused) + if status != 0 && CanFree(old(d), a, n) then 1 else 0
      ensures status != 0 ==> d == old(d)
      ensures status == 0 ==> CanFree(old(d), a, n) && d == old(d).(res := old(d).res - {a})
    {
      if !CanFree(d, a, n) { bad := bad + 1; return 1; }
      if * { refused := refused + 1; return 1; }
      d := d.(res := d.res - {a});
      status := 0;
    }

    // ----- Loops over the chunks of one allocation -----

    /** Unmaps the first `n` chunks; a failure does not stop the loop, and the first one is reported. */
    method UnmapAll(base: Addr, sizes: seq<nat>, n: nat) returns (first: int)
      requires n <= |sizes| && Positive(sizes)
      requires forall k | 0 <= k < n :: CanUnmap(d, At(base, sizes, k), sizes[k])
      modifies `d, `bad, `refused
      ensures bad == old(bad) && d.res == old(d).res && d.live == old(d).live
      ensures Removed(old(d).maps, d.maps, Starts(base, sizes, n), first == 0)
      ensures refused == old(refused) + LeftOver(Starts(base, sizes, n), d.maps) && (first == 0 <==> refused == old(refused))
    {
      hide At, LeftOver;
      NoneLeftOver(d.maps);
      NoStarts(base, sizes);
      first := 0;
      var at := base;
      assert at == At(base, sizes, 0) by { FirstAt(base, sizes); }
      ghost var m := d.maps;
      for i := 0 to n
        invariant at == At(base, sizes, i)
        invariant bad == old(bad) && d.res == old(d).res && d.live == old(d).live
        invariant Removed(m, d.maps, Starts(base, sizes, i), first == 0)
        invariant refused == old(refused) + LeftOver(Starts(base, sizes, i), d.maps) && (first == 0 <==> refused == old(refused))
      {
        StartsNext(base, sizes, i);
        ghost var before := d.maps;
        var status := MemUnmap(at, sizes[i]);
        OneLeft(Starts(base, sizes, i), at, before, d.maps, status != 0);
        if status != 0 && first == 0 { first := status; }
        at := at + sizes[i];
      }
    }

    /** Releases the handles; a failure does not stop the loop, and the first one is reported. */
    method ReleaseAll(hs: seq<Handle>) returns (first: int)
      requires Distinct(hs) && forall k | 0 <= k < |hs| :: hs[k] in d.live
      modifies `d, `bad, `refused
      ensures bad == old(bad) && d.res == old(d).res && d.maps == old(d).maps
      ensures Removed(old(d).live, d.live, Named(hs, |hs|), first == 0)
      ensures refused == old(refused) + LeftOver(Named(hs, |hs|), d.live) && (first == 0 <==> refused == old(refused))
    {
      hide LeftOver;
      NoneLeftOver(d.live);
      assert Named(hs, 0) == {};
      first := 0;
      ghost var l := d.live;
      for i := 0 to |hs|
        invariant bad == old(bad) && d.res == old(d).res && d.maps == old(d).maps
        invariant Removed(l, d.live, Named(hs, i), first == 0)
        invariant refused == old(refused) + LeftOver(Named(hs, i), d.live) && (first == 0 <==> refused == old(refused))
      {
        assert hs[i] !in Named(hs, i);
        assert Named(hs, i + 1) == Named(hs, i) + {hs[i]};
        ghost var before := d.live;
        var status := MemRelease(hs[i]);
        OneLeft(Named(hs, i), hs[i], before, d.live, status != 0);
        if status != 0 && first == 0 { first := status; }
      }
    }

    /** Creates one handle per chunk.  If one cannot be created, those created before it are released; the
        attempt then leaves no trace exactly when every release succeeds. */
    method CreateAll(sizes: seq<nat>) returns (hs: seq<Handle>, ok: bool)
      requires error == 0 && forall h | h in d.live :: h < next
      modifies `d, `next, `error, `bad, `slips, `refused
      ensures bad == old(bad) && old(next) <= next && forall h | h in d.live :: h < next
      ensures refused >= old(refused) && (ok <==> refused == old(refused))
      ensures ok ==> error == 0 && slips == old(slips) && |hs| == |sizes| && NewNames(old(d), hs)
                     && (forall k | 0 <= k < |hs| :: old(next) <= hs[k])
                     && d == old(d).(live := old(d).live + Owned(sizes, hs, |hs|))
      ensures sizes == [] ==> ok
      ensures d.res == old(d).res && d.maps == old(d).maps
      ensures !ok ==> error != 0 && slips >= old(slips) && (d == old(d) <==> slips == old(slips))
                      && Adds(old(d), d, 0, 0, old(next))
    {
      hide Owned, NewNames, Adds;
      hs, ok := [], true;
      ghost var d0 := d;
      NoNames(d0, sizes);
      for i := 0 to |sizes|
        invariant bad == old(bad) && error == 0 && slips == old(slips) && refused == old(refused) && old(next) <= next
        invariant |hs| == i && NewNames(d0, hs)
        invariant forall k | 0 <= k < i :: old(next) <= hs[k] < next
        invariant forall h | h in d.live :: h < next
        invariant d == d0.(live := d0.live + Owned(sizes, hs, i))
      {
        var status, h := MemCreate(sizes[i]);
        if status != 0 {
          error := status;
          CreateRollback(hs, sizes, d0, old(next));
          return hs, false;
        }
        OneMoreHandle(d0, sizes, hs, h, i);
        hs := hs + [h];
      }
    }

    /** Releases the handles created so far. */
    method CreateRollback(hs: seq<Handle>, ghost sizes: seq<nat>, ghost d0: Dev, ghost first: Handle)
      requires |hs| <= |sizes| && NewNames(d0, hs) && forall k | 0 <= k < |hs| :: first <= hs[k]
      requires d == d0.(live := d0.live + Owned(sizes, hs, |hs|))
      modifies `d, `bad, `slips, `refused
      ensures refused >= old(refused) && (slips == old(slips) <==> refused == old(refused))
      ensures bad == old(bad) && slips >= old(slips) && (d == d0 <==> slips == old(slips))
      ensures d.res == d0.res && d.maps == d0.maps && Adds(d0, d, 0, 0, first) && d.live.Keys <= old(d).live.Keys
    {
      hide Owned, Removed, LeftOver;
      OwnedKeys(sizes, hs, |hs|);
      assert old(d).live.Keys == d0.live.Keys + Named(hs, |hs|);
      ghost var l := d.live;
      var released := ReleaseAll(hs);
      RemovedBack(d0.live, Owned(sizes, hs, |hs|), d.live, released == 0);
      if released != 0 { slips := slips + 1; }
    }

    /** Maps every chunk after the ones before it.  If one cannot be mapped, those mapped before it are unmapped
        and all handles are released; the attempt then leaves no trace exactly when all of that succeeds.
        `d0` is the state before the handles were created. */
    method MapAll(base: Addr, sizes: seq<nat>, hs: seq<Handle>, ghost d0: Dev, ghost first: Handle) returns (ok: bool)
      requires error == 0 && |hs| == |sizes| && Positive(sizes) && Sane(d) && NewNames(d0, hs)
      requires forall k | 0 <= k < |hs| :: first <= hs[k]
      requires d == Partly(d0, base, sizes, hs, 0)
      modifies `d, `error, `bad, `slips, `refused
      ensures refused >= old(refused) && (ok <==> refused == old(refused) && bad == old(bad))
      ensures Sane(d) && Adds(d0, d, base, Sum(sizes), first) && d.live.Keys <= old(d).live.Keys
      ensures bad >= old(bad) && (Open(d0, base, sizes) ==> bad == old(bad))
      ensures ok ==> error == 0 && slips == old(slips) && bad == old(bad) && d == Partly(d0, base, sizes, hs, |hs|)
                     && Fresh(d0, base, sizes, |sizes|)
      ensures sizes == [] ==> ok
      ensures !ok ==> error != 0 && slips >= old(slips) && (d == d0 <==> slips == old(slips))
    {
      hide At, Partly, Placed, Owned, Open, NewNames, CanMap, Sum, Adds, Sane, Fresh;
      ok := true;
      var at := base;
      assert at == At(base, sizes, 0) by { FirstAt(base, sizes); }
      NoneTaken(d0, base, sizes);
      for i := 0 to |sizes|
        invariant at == At(base, sizes, i)
        invariant error == 0 && bad == old(bad) && slips == old(slips) && refused == old(refused) && d.live == old(d).live
        invariant d == Partly(d0, base, sizes, hs, i) && Sane(d) && Fresh(d0, base, sizes, i)
      {
        if Open(d0, base, sizes) { NextFits(d0, base, sizes, hs, i); }
        PartlyNext(d0, base, sizes, hs, i);
        ghost var before := d;
        var status := MemMap(at, sizes[i], hs[i]);
        if status != 0 {
          error := status;
          MapRollback(base, sizes, hs, i, d0, first);
          return false;
        }
        SaneMap(before, at, sizes[i], hs[i]);
        FreshNext(d0, base, sizes, hs, i);
        assert At(base, sizes, i + 1) == at + sizes[i] by { StartsNext(base, sizes, i); }
        at := at + sizes[i];
      }
      PartlyAdds(d0, base, sizes, hs, |hs|, first);
    }

    /** Undoes the first `i` mappings and all the handles. */
    method MapRollback(base: Addr, sizes: seq<nat>, hs: seq<Handle>, i: nat, ghost d0: Dev, ghost first: Handle)
      requires i <= |sizes| == |hs| && Fresh(d0, base, sizes, i) && NewNames(d0, hs)
      requires forall k | 0 <= k < |hs| :: first <= hs[k]
      requires d == Partly(d0, base, sizes, hs, i) && Sane(d)
      modifies `d, `bad, `slips, `refused
      ensures refused >= old(refused) && (slips == old(slips) <==> refused == old(refused))
      ensures bad == old(bad) && slips >= old(slips) && (d == d0 <==> slips == old(slips))
      ensures Sane(d) && Adds(d0, d, base, Sum(sizes), first) && d.live.Keys <= old(d).live.Keys
    {
      hide At, Placed, Owned, Sum, Removed, Fresh, Adds, Starts, Named, Partly, CanUnmap, Sane, LeftOver;
      FreshPositive(d0, base, sizes, i);
      PartlyRemovable(d0, base, sizes, hs, i);
      ghost var before := d;
      var unmapped := UnmapAll(base, sizes, i);
      if unmapped != 0 { slips := slips + 1; }
      RemovedFewer(before.maps, d.maps, Starts(base, sizes, i), unmapped == 0);
      var released := ReleaseAll(hs);
      if released != 0 { slips := slips + 1; }
      SaneFewer(before, d);
      PartlyRes(d0, base, sizes, hs, i);
      RolledBack(d0, base, sizes, hs, i, first, d, unmapped == 0, released == 0);
    }

    /** Gives the device access to a mapped range; a range with nothing mapped is refused. */
    method SetAccess(a: Addr, n: nat) returns (status: int)
      modifies `bad, `refused
      ensures bad == old(bad) + if Vacant(d, a, n) then 1 else 0
      ensures refused == old(refused) + if status != 0 && !Vacant(d, a, n) then 1 else 0
      ensures status == 0 ==> !Vacant(d, a, n)
    {
      if Vacant(d, a, n) { bad := bad + 1; return 1; }
      if * { refused := refused + 1; return 1; }
      return 0;
    }

    /** Backs a range of length `n` with physical chunks.  On success every chunk is mapped.  When a handle cannot
        be created or mapped, nothing changes if and only if the clean-up calls, whose results are ignored, all
        succeed; when only the access call fails, everything stays mapped.  It succeeds if and only if no call is refused
        or breaks the driver's rules.  Whatever the state of the range, new
        mappings stay inside it; and if it is reserved and empty, no call breaks the driver's rules. */
    method CreateAndMap(base: Addr, n: nat, sizes: seq<nat>) returns (hs: seq<Handle>, outcome: Outcome)
      requires error == 0 && Sane(d) && Positive(sizes) && n > 0 && forall h | h in d.live :: h < next
      modifies `d, `next, `error, `bad, `slips, `refused
      ensures refused >= old(refused) && (outcome.Done? <==> refused == old(refused) && bad == old(bad))
      ensures bad >= old(bad) && old(next) <= next && (forall h | h in d.live :: h < next)
      ensures sizes != [] && Open(old(d), base, sizes) ==> bad == old(bad)
      ensures error == 0 <==> outcome == Done
      ensures outcome.Done? || outcome.AccessFailed? ==>
                |hs| == |sizes| && NewNames(old(d), hs) && Fresh(old(d), base, sizes, |sizes|) && d == Mapped(old(d), base, sizes, hs)
      ensures outcome.Done? ==> slips == old(slips)
      ensures outcome.AccessFailed? ==> slips == old(slips) + if sizes == [] then 0 else 1
      ensures outcome.CreateFailed? || outcome.MapFailed? ==>
                slips >= old(slips) && (d == old(d) <==> slips == old(slips))
      ensures sizes == [] && Vacant(old(d), base, n) ==> outcome.AccessFailed? && d == old(d)
      ensures Sane(d) && Adds(old(d), d, base, Sum(sizes), old(next))
    {
      hide At, Placed, Owned, Sum, Open, NewNames, Vacant, Sane, Fresh;
      ghost var d0 := d;
      ghost var first := next;
      var ok;
      hs, ok := CreateAll(sizes);
      SaneFewer(d0, d);
      if !ok {
        AddsWider(d0, d, base, Sum(sizes), first);
        return hs, CreateFailed;
      }
      PartlyNone(d0, base, sizes, hs);
      ghost var top := next;
      assert forall h | h in d.live :: h < top;
      ok := MapAll(base, sizes, hs, d0, first);
      if !ok { return hs, MapFailed; }
      if sizes != [] { MappedNotVacant(d0, base, sizes, hs, n); } else { NoChunks(d0, base, sizes, hs); }
      var status := SetAccess(base, n);
      if status != 0 {
        error := status;
        if sizes != [] { slips := slips + 1; }
        return hs, AccessFailed;
      }
      return hs, Done;
    }

    /** Unmaps all chunks, then releases all handles, whatever fails on the way.  No error is reported if and
        only if every mapping and every handle of the allocation is gone. */
    method UnmapAndRelease(base: Addr, sizes: seq<nat>, hs: seq<Handle>)
      requires error == 0 && |sizes| == |hs| && Positive(sizes) && Distinct(hs)
      requires forall k | 0 <= k < |sizes| :: CanUnmap(d, At(base, sizes, k), sizes[k])
      requires forall k | 0 <= k < |hs| :: hs[k] in d.live
      modifies `d, `error, `bad, `refused
      ensures error == 0 <==> refused == old(refused)
      ensures refused == old(refused) + LeftOver(Starts(base, sizes, |sizes|), d.maps) + LeftOver(Named(hs, |hs|), d.live)
      ensures bad == old(bad) && d.res == old(d).res && d.live.Keys <= old(d).live.Keys
      ensures TakenApart(old(d), d, base, sizes, hs)
      ensures error == 0 <==> Gone(d, base, sizes, hs)
    {
      hide At, Starts, Named, LeftOver;
      var unmapped := UnmapAll(base, sizes, |sizes|);
      var released := ReleaseAll(hs);
      if unmapped != 0 { error := unmapped; } else if released != 0 { error := released; }
    }

    /** Reserves an aligned range, if need be by accepting any range that happens to be aligned; a range that is
        not is given back.  It fails only if both calls are refused, or the range granted by the second is not aligned. */
    method ReserveAligned(n: nat, alignment: nat, wish: Option<Addr>) returns (status: int, a: Addr)
      requires Sane(d)
      modifies `d, `bad, `slips, `refused, `astray, `granted
      ensures (n > 0 ==> bad == old(bad)) && (n == 0 ==> status != 0 && d == old(d))
      ensures refused >= old(refused) && (n > 0 && refused == old(refused) ==> status == 0)
      ensures n > 0 && alignment > 0 && status != 0 ==>
                refused > old(refused) + 1 || exists odd :: granted == old(granted) + [odd] && odd % alignment != 0
      ensures astray >= old(astray) && (wish.None? ==> astray == old(astray))
      ensures alignment == 0 ==> astray == old(astray) + if status == 0 && wish.Some? && a != wish.value then 1 else 0
      ensures alignment == 0 && n > 0 ==> (status == 0 <==> refused == old(refused))
      ensures bad >= old(bad) && slips >= old(slips) && d.maps == old(d).maps && d.live == old(d).live && Sane(d)
      ensures status == 0 ==> slips == old(slips) && d == old(d).(res := old(d).res[a := n])
                              && (alignment > 0 ==> a % alignment == 0) && Unreserved(old(d), a, n)
      ensures status != 0 ==> (d == old(d) <==> slips == old(slips)) && Extends(old(d).res, d.res)
    {
      ghost var d0 := d;
      status, a := AddressReserve(n, alignment, wish);
      if status == 0 { SaneReserve(d0, a, n); }
      if status == 0 || alignment == 0 { return; }
      status, a := AddressReserve(n, 0, wish);
      if status != 0 { return; }
      SaneReserve(d0, a, n);
      if a % alignment == 0 { return; }
      var freed := AddressFree(a, n);
      if freed != 0 { slips := slips + 1; } else { assert d.res == d0.res; }
      status := NOT_SUPPORTED;
    }
  }

  const NOT_SUPPORTED := 801
}
