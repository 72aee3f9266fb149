/** How an allocation is cut into physical chunks: 64-bit unsigned arithmetic, wrap-around included. */
module MemoryChunks {
  import opened Arithmetic

  const ULL := 0x1_0000_0000_0000_0000
  const MB := 1024 * 1024
  const DEFAULT_CHUNK := 256 * MB

  /** The environment variable that overrides the chunk size: missing, not a number, or a number of megabytes. */
  datatype Setting = Unset | Unparsable | Megabytes(value: nat)

  function BaseChunk(e: Setting): (r: nat)
    requires e.Megabytes? ==> e.value < ULL
    ensures 0 < r < ULL && r % MB == 0
    ensures e.Megabytes? && 0 < e.value && e.value * MB < ULL <==> e.Megabytes? && r == e.value * MB
    ensures r != 268435456 ==> e.Megabytes?
    ensures MB == 1048576
  {
    match e
    case Unset => DEFAULT_CHUNK
    case Unparsable => DEFAULT_CHUNK
    case Megabytes(v) => if v == 0 || v > (ULL - 1) / MB then DEFAULT_CHUNK else v * MB
  }

  /** Rounding up to a multiple of `g`, as the machine does it. */
  function AlignUp(x: nat, g: nat): nat
    requires g > 0
  {
    var units: nat := (x + g - 1) % ULL / g;
    units * g
  }

  /** It rounds up exactly when the sum does not wrap, and to nothing when it does. */
  lemma AlignUpIff(x: nat, g: nat)
    requires 0 < x < ULL && 0 < g < ULL
    ensures AlignUp(x, g) % g == 0
    ensures x <= AlignUp(x, g) <==> x + g - 1 < ULL
    ensures if x + g - 1 < ULL then 0 < AlignUp(x, g) < x + g else AlignUp(x, g) == 0
  {
    var s := (x + g - 1) % ULL;
    Quotient(g, s / g, 0);
    if x + g - 1 < ULL {
      Quotient(ULL, 0, x + g - 1);
    } else {
      Quotient(ULL, 1, x + g - 1 - ULL);
      Quotient(g, 0, x + g - 1 - ULL);
    }
  }

  /** The number of chunks, as the machine computes it. */
  function ChunkCount(aligned: nat, chunk: nat): nat
    requires chunk > 0
  {
    (aligned + chunk - 1) % ULL / chunk
  }

  /** Without wrap-around the count is the least that covers `aligned`; with it the count is zero. */
  lemma CountIff(aligned: nat, chunk: nat)
    requires 0 < aligned < ULL && 0 < chunk < ULL
    ensures var n := ChunkCount(aligned, chunk);
            if aligned + chunk - 1 < ULL then n > 0 && (n - 1) * chunk < aligned <= n * chunk else n == 0
  {
    var n := ChunkCount(aligned, chunk);
    if aligned + chunk - 1 < ULL {
      Quotient(ULL, 0, aligned + chunk - 1);
      assert (n - 1) * chunk == n * chunk - chunk;
      assert n * chunk <= aligned + chunk - 1 < n * chunk + chunk;
    } else {
      Quotient(ULL, 1, aligned + chunk - 1 - ULL);
      Quotient(chunk, 0, aligned + chunk - 1 - ULL);
    }
  }

  /** The shape of a division into chunks: all are positive multiples of the granularity, all but the last are
      full, and together they make up the whole. */
  ghost predicate Tiles(sizes: seq<nat>, aligned: nat, chunk: nat, g: nat) {
    && |sizes| > 0
    && Sum(sizes) == aligned
    && (forall i | 0 <= i < |sizes| - 1 :: sizes[i] == chunk)
    && (forall i | 0 <= i < |sizes| :: 0 < sizes[i] <= chunk && Multiple(sizes[i], g))
  }

  ghost predicate Multiple(x: nat, g: nat) { exists k: nat :: x == k * g }

  lemma NegativeProduct(z: int, g: nat)
    requires z < 0 < g
    ensures z * g < 0
  {}

  lemma MultipleDifference(x: nat, i: nat, y: nat, g: nat)
    requires Multiple(x, g) && Multiple(y, g) && i * y <= x && g > 0
    ensures Multiple(x - i * y, g)
  {
    var a: nat :| x == a * g;
    var b: nat :| y == b * g;
    assert x - i * y == (a - i * b) * g;
    if a - i * b < 0 { NegativeProduct(a - i * b, g); }
  }

  lemma RemainderIffMultiple(x: nat, g: nat)
    requires g > 0
    ensures Multiple(x, g) <==> x % g == 0
  {
    if x % g == 0 { assert x == x / g * g; }
    if Multiple(x, g) {
      var k: nat :| x == k * g;
      Quotient(g, k, 0);
    }
  }

  /** The chunk sizes of an aligned allocation.  They tile it exactly when the count does not wrap; otherwise
      there are none. */
  method SplitChunks(aligned: nat, chunk: nat, ghost g: nat) returns (sizes: seq<nat>)
    requires 0 < aligned < ULL && 0 < chunk < ULL && g > 0 && Multiple(aligned, g) && Multiple(chunk, g)
    ensures if aligned + chunk - 1 < ULL then Tiles(sizes, aligned, chunk, g) else sizes == []
    ensures Sum(sizes) == aligned <==> aligned + chunk - 1 < ULL
  {
    CountIff(aligned, chunk);
    var n := ChunkCount(aligned, chunk);
    sizes := [];
    for i := 0 to n
      invariant |sizes| == i
      invariant i < n ==> Sum(sizes) == i * chunk < aligned
      invariant i == n > 0 ==> Sum(sizes) == aligned
      invariant forall k | 0 <= k < i && k < n - 1 :: sizes[k] == chunk
      invariant forall k | 0 <= k < i :: 0 < sizes[k] <= chunk && Multiple(sizes[k], g)
    {
      NextChunk(aligned, chunk, g, i, n);
      var size := Min(aligned - i * chunk, chunk);
      assert (sizes + [size])[..i] == sizes;
      sizes := sizes + [size];
    }
  }

  lemma NextChunk(aligned: nat, chunk: nat, g: nat, i: nat, n: nat)
    requires 0 < chunk && g > 0 && Multiple(aligned, g) && Multiple(chunk, g)
    requires i < n && (n - 1) * chunk < aligned <= n * chunk
    ensures i * chunk < aligned
    ensures Multiple(aligned - i * chunk, g)
    ensures i < n - 1 ==> chunk <= aligned - i * chunk && (i + 1) * chunk == i * chunk + chunk < aligned
    ensures i == n - 1 ==> aligned - i * chunk <= chunk
  {
    assert i * chunk <= (n - 1) * chunk by { Scale(i, n - 1, chunk); }
    if i < n - 1 { Scale(i + 1, n - 1, chunk); }
    assert (i + 1) * chunk == i * chunk + chunk;
    MultipleDifference(aligned, i, chunk, g);
  }

  lemma Scale(a: nat, b: nat, c: nat)
    requires a <= b
    ensures a * c <= b * c
  {}

  // ----- Mapping at prefix sums -----

  /** Where chunk `i` starts. */
  function Start(sizes: seq<nat>, i: nat): nat
    requires i <= |sizes|
  {
    Sum(sizes[..i])
  }

  lemma {:induction false} StartsGrow(sizes: seq<nat>, i: nat, j: nat)
    requires i <= j <= |sizes|
    ensures Start(sizes, i) <= Start(sizes, j)
    decreases j - i
  {
    if i < j {
      SumNext(sizes, i);
      StartsGrow(sizes, i + 1, j);
    }
  }

  /** Chunks mapped at their prefix sums leave no gap and no overlap: every byte of the allocation lies in
      exactly one of them. */
  lemma {:induction false} EveryByteOnce(sizes: seq<nat>, x: nat)
    requires x < Sum(sizes)
    ensures exists i | 0 <= i < |sizes| :: Start(sizes, i) <= x < Start(sizes, i) + sizes[i]
    ensures forall i, j | 0 <= i < |sizes| && 0 <= j < |sizes|
              && Start(sizes, i) <= x < Start(sizes, i) + sizes[i]
              && Start(sizes, j) <= x < Start(sizes, j) + sizes[j] :: i == j
  {
    assert sizes[..|sizes|] == sizes;
    ByteFound(sizes, x, |sizes|);
    forall i, j | 0 <= i < j < |sizes| && x < Start(sizes, i) + sizes[i] ensures x < Start(sizes, j) {
      SumNext(sizes, i);
      StartsGrow(sizes, i + 1, j);
    }
  }

  lemma {:induction false} ByteFound(sizes: seq<nat>, x: nat, n: nat)
    requires n <= |sizes| && x < Start(sizes, n)
    ensures exists i | 0 <= i < |sizes| :: Start(sizes, i) <= x < Start(sizes, i) + sizes[i]
  {
    SumNext(sizes, n - 1);
    if x < Start(sizes, n - 1) { ByteFound(sizes, x, n - 1); }
  }
}
