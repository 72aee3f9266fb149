/**
 * A device's virtual memory: reserved address ranges, physical handles, and mappings of handles into
 * ranges.  Any call may fail, and a call that fails changes nothing; a call that breaks the driver's rules
 * always fails and is counted in `bad`.
 */
module DeviceMemory {
  import opened Arithmetic
  import opened MemoryChunks

  type Addr = nat
  type Handle = nat

  /** Reservations (start to length), mappings (start to length and handle), unreleased handles (to length). */
  datatype Dev = Dev(res: map<Addr, nat>, maps: map<Addr, (nat, Handle)>, live: map<Handle, nat>)

  predicate Overlap(a: Addr, m: nat, b: Addr, n: nat) { a < b + n && b < a + m }

  /** The range lies inside one reservation. */
  predicate Inside(d: Dev, a: Addr, n: nat) {
    exists r | r in d.res :: r <= a && a + n <= r + d.res[r]
  }

  /** Nothing is mapped into the range. */
  predicate Vacant(d: Dev, a: Addr, n: nat) {
    forall b | b in d.maps :: a + n <= b || (b < a && b + d.maps[b].0 <= a)
  }

  /** The range meets no reservation. */
  predicate Unreserved(d: Dev, a: Addr, n: nat) {
    forall r | r in d.res :: !Overlap(a, n, r, d.res[r])
  }

  predicate CanMap(d: Dev, a: Addr, n: nat, h: Handle) {
    n > 0 && h in d.live && d.live[h] == n && Inside(d, a, n) && Vacant(d, a, n)
  }

  predicate CanUnmap(d: Dev, a: Addr, n: nat) { a in d.maps && d.maps[a].0 == n }

  predicate CanFree(d: Dev, a: Addr, n: nat) { a in d.res && d.res[a] == n && Vacant(d, a, n) }

  // ----- What a chunked mapping adds -----

  /** Where chunk `k` is mapped: after the chunks before it. */
  function At(base: Addr, sizes: seq<nat>, k: nat): Addr
    requires k <= |sizes|
  {
    base + Start(sizes, k)
  }

  /** The first `n` chunks of a chunked mapping at `base`. */
  function Placed(base: Addr, sizes: seq<nat>, hs: seq<Handle>, n: nat): map<Addr, (nat, Handle)>
    requires n <= |sizes| && n <= |hs|
  {
    if n == 0 then map[]
    else Placed(base, sizes, hs, n - 1)[At(base, sizes, n - 1) := (sizes[n - 1], hs[n - 1])]
  }

  function Owned(sizes: seq<nat>, hs: seq<Handle>, n: nat): map<Handle, nat>
    requires n <= |sizes| && n <= |hs|
  {
    if n == 0 then map[] else Owned(sizes, hs, n - 1)[hs[n - 1] := sizes[n - 1]]
  }

  function Mapped(d: Dev, base: Addr, sizes: seq<nat>, hs: seq<Handle>): Dev
    requires |sizes| == |hs|
  {
    Dev(d.res, d.maps + Placed(base, sizes, hs, |hs|), d.live + Owned(sizes, hs, |hs|))
  }

  /** The addresses of the first `n` chunks. */
  function Starts(base: Addr, sizes: seq<nat>, n: nat): (r: set<Addr>)
    requires n <= |sizes|
    ensures forall k | 0 <= k < n :: At(base, sizes, k) in r
  {
    set k | 0 <= k < n :: At(base, sizes, k)
  }

  function Named(hs: seq<Handle>, n: nat): (r: set<Handle>)
    requires n <= |hs|
  {
    set k | 0 <= k < n :: hs[k]
  }

  ghost predicate Positive(sizes: seq<nat>) { forall i | 0 <= i < |sizes| :: sizes[i] > 0 }

  ghost predicate Distinct(hs: seq<Handle>) { forall i, j | 0 <= i < j < |hs| :: hs[i] != hs[j] }

  lemma FirstAt(base: Addr, sizes: seq<nat>)
    ensures At(base, sizes, 0) == base
  {}

  /** Chunks do not overlap. */
  lemma ChunksApart(base: Addr, sizes: seq<nat>, i: nat, j: nat)
    requires Positive(sizes) && i < j <= |sizes|
    ensures At(base, sizes, i) < At(base, sizes, i) + sizes[i] <= At(base, sizes, j)
  {
    SumNext(sizes, i);
    StartsGrow(sizes, i + 1, j);
  }

  /** Chunk `i` is not among the chunks before it. */
  lemma StartsNext(base: Addr, sizes: seq<nat>, i: nat)
    requires Positive(sizes) && i < |sizes|
    ensures At(base, sizes, i) !in Starts(base, sizes, i)
    ensures Starts(base, sizes, i + 1) == Starts(base, sizes, i) + {At(base, sizes, i)}
    ensures At(base, sizes, i + 1) == At(base, sizes, i) + sizes[i]
  {
    assert At(base, sizes, i + 1) == At(base, sizes, i) + sizes[i] by { SumNext(sizes, i); }
    hide At;
    forall k | 0 <= k < i ensures At(base, sizes, k) != At(base, sizes, i) { ChunksApart(base, sizes, k, i); }
  }

  lemma {:induction false} PlacedKeys(base: Addr, sizes: seq<nat>, hs: seq<Handle>, n: nat)
    requires n <= |sizes| && n <= |hs| && Positive(sizes)
    ensures Placed(base, sizes, hs, n).Keys == Starts(base, sizes, n)
    ensures forall k | 0 <= k < n :: At(base, sizes, k) in Placed(base, sizes, hs, n)
              && Placed(base, sizes, hs, n)[At(base, sizes, k)] == (sizes[k], hs[k])
  {
    hide At;
    if n > 0 {
      PlacedKeys(base, sizes, hs, n - 1);
      StartsNext(base, sizes, n - 1);
    }
  }

  lemma {:induction false} OwnedKeys(sizes: seq<nat>, hs: seq<Handle>, n: nat)
    requires n <= |sizes| && n <= |hs| && Distinct(hs)
    ensures Owned(sizes, hs, n).Keys == Named(hs, n)
    ensures forall k | 0 <= k < n :: hs[k] in Owned(sizes, hs, n) && Owned(sizes, hs, n)[hs[k]] == sizes[k]
  {
    if n > 0 {
      OwnedKeys(sizes, hs, n - 1);
      assert Named(hs, n) == Named(hs, n - 1) + {hs[n - 1]};
    }
  }

  lemma {:induction false} OwnedPrefix(sizes: seq<nat>, hs: seq<Handle>, h: Handle, n: nat)
    requires n <= |sizes| && n <= |hs|
    ensures Owned(sizes, hs + [h], n) == Owned(sizes, hs, n)
  {
    if n > 0 { OwnedPrefix(sizes, hs, h, n - 1); }
  }

  lemma NoNames(d0: Dev, sizes: seq<nat>)
    ensures NewNames(d0, []) && d0.live + Owned(sizes, [], 0) == d0.live
  {}

  /** One more handle. */
  lemma OneMoreHandle(d0: Dev, sizes: seq<nat>, hs: seq<Handle>, h: Handle, i: nat)
    requires i == |hs| < |sizes| && NewNames(d0, hs) && h !in d0.live && h !in hs
    ensures NewNames(d0, hs + [h])
    ensures d0.live + Owned(sizes, hs + [h], i + 1) == (d0.live + Owned(sizes, hs, i))[h := sizes[i]]
  {
    OwnedPrefix(sizes, hs, h, i);
  }

  /** `d` is `d0` with, at most, new handles (named from `first` on) and new mappings inside the range. */
  ghost predicate Adds(d0: Dev, d: Dev, base: Addr, n: nat, first: Handle) {
    && d.res == d0.res
    && (forall h | h in d0.live :: h in d.live && d.live[h] == d0.live[h])
    && (forall h | h in d.live :: h in d0.live || first <= h)
    && (forall a | a in d0.maps :: a in d.maps && d.maps[a] == d0.maps[a])
    && (forall a | a in d.maps :: a in d0.maps || (base <= a < a + d.maps[a].0 <= base + n))
  }

  ghost predicate NewNames(d: Dev, hs: seq<Handle>) {
    Distinct(hs) && forall k | 0 <= k < |hs| :: hs[k] !in d.live
  }

  /** `m` is `m0` after an attempt to remove the keys `gone`, all of which went if `clean`. */
  ghost predicate Removed<K, V>(m0: map<K, V>, m: map<K, V>, gone: set<K>, clean: bool) {
    && (forall k | k in m :: k in m0 && m[k] == m0[k])
    && (forall k | k in m0 && k !in gone :: k in m)
    && (clean <==> m.Keys !! gone)
  }

  /** How many of the keys that should be gone are left. */
  ghost function LeftOver<K, V>(gone: set<K>, m: map<K, V>): nat { |gone * m.Keys| }

  lemma NoneLeftOver<K, V>(m: map<K, V>)
    ensures LeftOver({}, m) == 0
  {
    assert {} * m.Keys == {};
  }

  lemma NoStarts(base: Addr, sizes: seq<nat>)
    ensures Starts(base, sizes, 0) == {}
  {}

  /** One more key that should be gone: it stays, or goes. */
  lemma OneLeft<K, V>(gone: set<K>, k: K, before: map<K, V>, after: map<K, V>, stays: bool)
    requires k !in gone && k in before && after == if stays then before else before - {k}
    ensures LeftOver(gone + {k}, after) == LeftOver(gone, before) + if stays then 1 else 0
  {
    assert (gone + {k}) * after.Keys == if stays then gone * before.Keys + {k} else gone * before.Keys;
  }

  /** `d` is `d0` after an attempt to unmap and release the allocation at `p`. */
  ghost predicate TakenApart(d0: Dev, d: Dev, p: Addr, sizes: seq<nat>, hs: seq<Handle>) {
    && d.res == d0.res
    && Removed(d0.maps, d.maps, Starts(p, sizes, |sizes|), d.maps.Keys !! Starts(p, sizes, |sizes|))
    && Removed(d0.live, d.live, Named(hs, |hs|), d.live.Keys !! Named(hs, |hs|))
  }

  /** No mapping and no handle of the allocation is left. */
  ghost predicate Gone(d: Dev, p: Addr, sizes: seq<nat>, hs: seq<Handle>) {
    d.maps.Keys !! Starts(p, sizes, |sizes|) && d.live.Keys !! Named(hs, |hs|)
  }

  /** Removing just what was added gives back the map before it, if and only if everything went. */
  lemma RemovedBack<K, V>(m0: map<K, V>, add: map<K, V>, m: map<K, V>, clean: bool)
    requires add.Keys !! m0.Keys && Removed(m0 + add, m, add.Keys, clean)
    ensures m == m0 <==> clean
    ensures forall k | k in m0 :: k in m && m[k] == m0[k]
    ensures forall k | k in m :: k in m0 || (k in m0 + add && m[k] == (m0 + add)[k])
  {
    if m.Keys !! add.Keys {
      assert forall k | k in m :: k in m0;
      assert m == m0;
    } else {
      var k :| k in m && k in add;
    }
  }

  /** The range of an allocation is reserved and nothing is mapped into it. */
  ghost predicate Open(d: Dev, base: Addr, sizes: seq<nat>) {
    base in d.res && d.res[base] == Sum(sizes) && Positive(sizes) && Vacant(d, base, Sum(sizes))
  }

  lemma ChunkInRange(base: Addr, sizes: seq<nat>, i: nat)
    requires i < |sizes|
    ensures base <= At(base, sizes, i) && At(base, sizes, i) + sizes[i] <= base + Sum(sizes)
  {
    SumNext(sizes, i);
    SumPrefixBound(sizes, i + 1);
  }

  /** The addresses of the first `i` chunks are not taken. */
  ghost predicate Fresh(d: Dev, base: Addr, sizes: seq<nat>, i: nat) {
    i <= |sizes| && Positive(sizes) && Starts(base, sizes, i) !! d.maps.Keys
  }

  lemma NoneTaken(d: Dev, base: Addr, sizes: seq<nat>)
    requires Positive(sizes)
    ensures Fresh(d, base, sizes, 0)
  {}

  lemma FreshPositive(d: Dev, base: Addr, sizes: seq<nat>, i: nat)
    requires Fresh(d, base, sizes, i)
    ensures Positive(sizes)
  {}

  /** The state while chunks are being mapped: all handles exist, the first `i` chunks are in place. */
  function Partly(d0: Dev, base: Addr, sizes: seq<nat>, hs: seq<Handle>, i: nat): Dev
    requires i <= |sizes| == |hs|
  {
    Dev(d0.res, d0.maps + Placed(base, sizes, hs, i), d0.live + Owned(sizes, hs, |hs|))
  }

  lemma PartlyRes(d0: Dev, base: Addr, sizes: seq<nat>, hs: seq<Handle>, i: nat)
    requires i <= |sizes| == |hs|
    ensures Partly(d0, base, sizes, hs, i).res == d0.res
  {}

  /** The next chunk can be mapped. */
  lemma NextFits(d0: Dev, base: Addr, sizes: seq<nat>, hs: seq<Handle>, i: nat)
    requires i < |sizes| == |hs| && Open(d0, base, sizes) && NewNames(d0, hs)
    ensures CanMap(Partly(d0, base, sizes, hs, i), At(base, sizes, i), sizes[i], hs[i])
  {
    hide At, Sum;
    var d := Partly(d0, base, sizes, hs, i);
    ChunkInRange(base, sizes, i);
    OwnedKeys(sizes, hs, |hs|);
    PlacedKeys(base, sizes, hs, i);
    forall b | b in d.maps ensures At(base, sizes, i) + sizes[i] <= b || (b < At(base, sizes, i) && b + d.maps[b].0 <= At(base, sizes, i)) {
      if b in Placed(base, sizes, hs, i) {
        var k :| 0 <= k < i && b == At(base, sizes, k);
        ChunksApart(base, sizes, k, i);
      }
    }
    assert base in d.res;
  }

  /** A chunk that can be mapped has an address that is not taken. */
  lemma FreshNext(d0: Dev, base: Addr, sizes: seq<nat>, hs: seq<Handle>, i: nat)
    requires i < |sizes| == |hs| && Fresh(d0, base, sizes, i)
    requires CanMap(Partly(d0, base, sizes, hs, i), At(base, sizes, i), sizes[i], hs[i])
    ensures Fresh(d0, base, sizes, i + 1)
  {
    hide At, Placed, Owned, Inside;
    StartsNext(base, sizes, i);
  }

  lemma PartlyNext(d0: Dev, base: Addr, sizes: seq<nat>, hs: seq<Handle>, i: nat)
    requires i < |sizes| == |hs|
    ensures Partly(d0, base, sizes, hs, i + 1)
         == Partly(d0, base, sizes, hs, i).(maps := Partly(d0, base, sizes, hs, i).maps[At(base, sizes, i) := (sizes[i], hs[i])])
  {}

  /** A partly or fully mapped range adds to the state before it, within the range. */
  lemma PartlyAdds(d0: Dev, base: Addr, sizes: seq<nat>, hs: seq<Handle>, i: nat, first: Handle)
    requires i <= |sizes| == |hs| && Fresh(d0, base, sizes, i) && NewNames(d0, hs)
    requires forall k | 0 <= k < |hs| :: first <= hs[k]
    ensures Adds(d0, Partly(d0, base, sizes, hs, i), base, Sum(sizes), first)
  {
    hide At, Sum, Placed, Owned;
    var d := Partly(d0, base, sizes, hs, i);
    OwnedKeys(sizes, hs, |hs|);
    PlacedKeys(base, sizes, hs, i);
    forall a | a in d.maps ensures a in d0.maps || (base <= a < a + d.maps[a].0 <= base + Sum(sizes)) {
      if a in Placed(base, sizes, hs, i) {
        var k :| 0 <= k < i && a == At(base, sizes, k);
        ChunkInRange(base, sizes, k);
      }
    }
  }

  /** A rollback that unmapped and released what it could leaves no trace exactly when all of it went. */
  lemma RolledBack(d0: Dev, base: Addr, sizes: seq<nat>, hs: seq<Handle>, i: nat, first: Handle, d: Dev,
                   unmapped: bool, released: bool)
    requires i <= |sizes| == |hs| && Fresh(d0, base, sizes, i) && NewNames(d0, hs)
    requires forall k | 0 <= k < |hs| :: first <= hs[k]
    requires d.res == d0.res
    requires Removed(Partly(d0, base, sizes, hs, i).maps, d.maps, Starts(base, sizes, i), unmapped)
    requires Removed(Partly(d0, base, sizes, hs, i).live, d.live, Named(hs, |hs|), released)
    ensures d == d0 <==> unmapped && released
    ensures Adds(d0, d, base, Sum(sizes), first)
    ensures d.live.Keys <= Partly(d0, base, sizes, hs, i).live.Keys
  {
    hide At, Sum, Placed, Owned, Removed, Starts, Named, Adds, Fresh, NewNames;
    PartlyAdds(d0, base, sizes, hs, i, first);
    PlacedFresh(d0, base, sizes, hs, i);
    OwnedFresh(d0, sizes, hs);
    RemovedBack(d0.maps, Placed(base, sizes, hs, i), d.maps, unmapped);
    RemovedBack(d0.live, Owned(sizes, hs, |hs|), d.live, released);
    AddsFewer(d0, Partly(d0, base, sizes, hs, i), d, base, Sum(sizes), first);
  }

  lemma PlacedFresh(d0: Dev, base: Addr, sizes: seq<nat>, hs: seq<Handle>, i: nat)
    requires i <= |sizes| == |hs| && Fresh(d0, base, sizes, i)
    ensures Placed(base, sizes, hs, i).Keys == Starts(base, sizes, i) && Starts(base, sizes, i) !! d0.maps.Keys
  {
    hide At, Placed;
    PlacedKeys(base, sizes, hs, i);
  }

  lemma OwnedFresh(d0: Dev, sizes: seq<nat>, hs: seq<Handle>)
    requires |hs| <= |sizes| && NewNames(d0, hs)
    ensures Owned(sizes, hs, |hs|).Keys == Named(hs, |hs|) && Named(hs, |hs|) !! d0.live.Keys
  {
    hide Owned;
    OwnedKeys(sizes, hs, |hs|);
  }

  /** A state between two others adds no more than the larger. */
  lemma AddsFewer(d0: Dev, d1: Dev, d: Dev, base: Addr, n: nat, first: Handle)
    requires Adds(d0, d1, base, n, first) && d.res == d0.res
    requires forall a | a in d0.maps :: a in d.maps && d.maps[a] == d0.maps[a]
    requires forall h | h in d0.live :: h in d.live && d.live[h] == d0.live[h]
    requires forall a | a in d.maps :: a in d0.maps || (a in d1.maps && d.maps[a] == d1.maps[a])
    requires forall h | h in d.live :: h in d0.live || h in d1.live
    ensures Adds(d0, d, base, n, first)
  {}

  /** A partly mapped range can be taken apart. */
  lemma PartlyRemovable(d0: Dev, base: Addr, sizes: seq<nat>, hs: seq<Handle>, i: nat)
    requires i <= |sizes| == |hs| && Positive(sizes) && Distinct(hs)
    ensures forall k | 0 <= k < i :: CanUnmap(Partly(d0, base, sizes, hs, i), At(base, sizes, k), sizes[k])
    ensures forall k | 0 <= k < |hs| :: hs[k] in Partly(d0, base, sizes, hs, i).live
  {
    hide At, Placed, Owned;
    PlacedKeys(base, sizes, hs, i);
    OwnedKeys(sizes, hs, |hs|);
  }

  lemma PartlyNone(d0: Dev, base: Addr, sizes: seq<nat>, hs: seq<Handle>)
    requires |sizes| == |hs|
    ensures d0.(live := d0.live + Owned(sizes, hs, |hs|)) == Partly(d0, base, sizes, hs, 0)
  {
    assert d0.maps + map[] == d0.maps;
  }

  lemma AddsWider(d0: Dev, d: Dev, base: Addr, n: nat, first: Handle)
    requires Adds(d0, d, 0, 0, first) && d.maps == d0.maps
    ensures Adds(d0, d, base, n, first)
  {}

  /** Mapping an allocation's chunks and then unmapping and releasing them restores the state exactly, if and
      only if none of the calls that take it apart fails. */
  lemma RoundTrip(d0: Dev, base: Addr, sizes: seq<nat>, hs: seq<Handle>, d: Dev)
    requires |sizes| == |hs| && Fresh(d0, base, sizes, |sizes|) && NewNames(d0, hs)
    requires TakenApart(Mapped(d0, base, sizes, hs), d, base, sizes, hs)
    ensures d == d0 <==> Gone(d, base, sizes, hs)
  {
    hide At, Placed, Owned, Sum, Fresh, NewNames, Removed, Starts, Named;
    RolledBack(d0, base, sizes, hs, |hs|, 0, d, d.maps.Keys !! Starts(base, sizes, |sizes|), d.live.Keys !! Named(hs, |hs|));
  }

  // ----- Sane driver states -----

  /** Reservations are not empty and do not overlap, every mapping lies inside one, and mappings do not overlap. */
  ghost predicate Sane(d: Dev) {
    && (forall r | r in d.res :: d.res[r] > 0)
    && (forall r, q | r in d.res && q in d.res && r != q :: !Overlap(r, d.res[r], q, d.res[q]))
    && (forall b | b in d.maps :: d.maps[b].0 > 0 && Inside(d, b, d.maps[b].0))
    && (forall b, c | b in d.maps && c in d.maps && b != c :: !Overlap(b, d.maps[b].0, c, d.maps[c].0))
  }

  lemma SameInside(d: Dev, t: Dev, b: Addr, n: nat)
    requires Inside(d, b, n) && t.res == d.res
    ensures Inside(t, b, n)
  {
    var r :| r in d.res && r <= b && b + n <= r + d.res[r];
    assert r in t.res;
  }

  /** A permitted mapping keeps the state sane. */
  lemma SaneMap(d: Dev, a: Addr, n: nat, h: Handle)
    requires Sane(d) && CanMap(d, a, n, h)
    ensures Sane(d.(maps := d.maps[a := (n, h)]))
  {
    hide Inside;
    var t := d.(maps := d.maps[a := (n, h)]);
    forall b | b in t.maps ensures t.maps[b].0 > 0 && Inside(t, b, t.maps[b].0) { SameInside(d, t, b, t.maps[b].0); }
    forall b, c | b in t.maps && c in t.maps && b != c ensures !Overlap(b, t.maps[b].0, c, t.maps[c].0) {
      if b != a && c != a { assert !Overlap(b, d.maps[b].0, c, d.maps[c].0); }
    }
  }

  /** So does any removal of mappings. */
  lemma SaneFewer(d1: Dev, d: Dev)
    requires Sane(d1) && d.res == d1.res && forall b | b in d.maps :: b in d1.maps && d.maps[b] == d1.maps[b]
    ensures Sane(d)
  {
    hide Inside;
    forall b | b in d.maps ensures Inside(d, b, d.maps[b].0) { SameInside(d1, d, b, d.maps[b].0); }
  }

  /** What is left after a removal is a part of what was there. */
  lemma RemovedFewer<K, V>(m0: map<K, V>, m: map<K, V>, gone: set<K>, clean: bool)
    requires Removed(m0, m, gone, clean)
    ensures forall k | k in m :: k in m0 && m[k] == m0[k]
  {}

  /** A mapped range is not vacant. */
  lemma MappedNotVacant(d0: Dev, base: Addr, sizes: seq<nat>, hs: seq<Handle>, n: nat)
    requires |sizes| == |hs| && sizes != [] && n > 0 && Positive(sizes)
    ensures !Vacant(Mapped(d0, base, sizes, hs), base, n)
  {
    hide Placed, Owned;
    PlacedKeys(base, sizes, hs, |hs|);
    FirstAt(base, sizes);
    assert base in Mapped(d0, base, sizes, hs).maps;
  }

  lemma NoChunks(d0: Dev, base: Addr, sizes: seq<nat>, hs: seq<Handle>)
    requires sizes == [] && hs == []
    ensures Mapped(d0, base, sizes, hs) == d0
  {
    assert d0.maps + map[] == d0.maps && d0.live + map[] == d0.live;
  }

  lemma AddsMore(d0: Dev, d: Dev, base: Addr, m: nat, n: nat, first: Handle)
    requires Adds(d0, d, base, m, first) && m <= n
    ensures Adds(d0, d, base, n, first)
  {}

  ghost predicate Extends(m0: map<Addr, nat>, m: map<Addr, nat>) {
    forall a | a in m0 :: a in m && m[a] == m0[a]
  }

  /** A new reservation keeps the state sane, and the new range is vacant. */
  lemma SaneReserve(d: Dev, a: Addr, n: nat)
    requires Sane(d) && n > 0 && Unreserved(d, a, n)
    ensures a !in d.res && Sane(d.(res := d.res[a := n])) && Vacant(d.(res := d.res[a := n]), a, n)
    ensures Extends(d.res, d.res[a := n])
  {
    assert a in d.res ==> Overlap(a, n, a, d.res[a]);
    forall b | b in d.maps
      ensures Inside(d.(res := d.res[a := n]), b, d.maps[b].0) && (a + n <= b || (b < a && b + d.maps[b].0 <= a))
    {
      StaysInside(d, a, n, b);
    }
  }

  lemma StaysInside(d: Dev, a: Addr, n: nat, b: Addr)
    requires Sane(d) && n > 0 && Unreserved(d, a, n) && b in d.maps
    ensures Inside(d.(res := d.res[a := n]), b, d.maps[b].0) && (a + n <= b || (b < a && b + d.maps[b].0 <= a))
  {
    var r :| r in d.res && r <= b && b + d.maps[b].0 <= r + d.res[r];
    assert r in d.res[a := n] && !Overlap(a, n, r, d.res[r]);
  }
}
