/** Copying the context of each request out of a paged cache into one contiguous buffer. */
module PagedGather {
  /** What does not change during the copy: the pages, each request's table of pages, where each request's context
      starts, and the running totals of the lengths. */
  datatype Gather<T> = Gather(pages: seq<seq<T>>, page: nat, table: seq<seq<nat>>, starts: seq<int>, cu: seq<int>)

  function Requests<T>(g: Gather<T>): nat {
    var lens := if g.cu == [] then 0 else |g.cu| - 1;
    if |g.starts| < lens then |g.starts| else lens
  }

  function Len<T>(g: Gather<T>, r: nat): int
    requires r < Requests(g)
  {
    g.cu[r + 1] - g.cu[r]
  }

  /** Every token that has to be copied lies on a page that exists. */
  ghost predicate Ready<T>(g: Gather<T>) {
    && g.page > 0
    && (forall b | 0 <= b < |g.pages| :: |g.pages[b]| == g.page)
    && Requests(g) <= |g.table|
    && (forall r | 0 <= r < Requests(g) && Len(g, r) > 0 :: g.starts[r] >= 0)
    && (forall r, p | 0 <= r < Requests(g) && Len(g, r) > 0 && g.starts[r] <= p < g.starts[r] + Len(g, r) :: OnPage(g, r, p))
  }

  ghost predicate OnPage<T>(g: Gather<T>, r: nat, p: int)
    requires r < |g.table| && g.page > 0
  {
    0 <= p / g.page < |g.table[r]| && g.table[r][p / g.page] < |g.pages|
  }

  /** Token `p` of request `r`, through the request's page table. */
  function Token<T>(g: Gather<T>, r: nat, p: nat): T
    requires g.page > 0 && r < |g.table| && OnPage(g, r, p)
    requires forall b | 0 <= b < |g.pages| :: |g.pages[b]| == g.page
  {
    g.pages[g.table[r][p / g.page]][p % g.page]
  }

  /** Where request `r`'s rows begin: after the rows of the requests before it, empty ones counting nothing. */
  function Row<T>(g: Gather<T>, r: nat): nat
    requires r <= Requests(g)
  {
    if r == 0 then 0 else Row(g, r - 1) + if Len(g, r - 1) > 0 then Len(g, r - 1) else 0
  }

  lemma {:induction false} RowsGrow<T>(g: Gather<T>, r: nat, q: nat)
    requires r <= q <= Requests(g)
    ensures Row(g, r) <= Row(g, q)
  {
    if r < q { RowsGrow(g, r, q - 1); }
  }

  /** No row is written twice: a row belongs to one request and one token of it. */
  lemma OneOwner<T>(g: Gather<T>, r: nat, j: nat, q: nat, k: nat)
    requires r < Requests(g) && q < Requests(g) && j < Len(g, r) && k < Len(g, q)
    requires Row(g, r) + j == Row(g, q) + k
    ensures r == q && j == k
  {
    if r < q { RowsGrow(g, r + 1, q); }
    if q < r { RowsGrow(g, q + 1, r); }
  }

  /** Every row up to the end belongs to a token. */
  lemma {:induction false} EveryRow<T>(g: Gather<T>, n: nat, x: nat)
    requires n <= Requests(g) && x < Row(g, n)
    ensures exists r | 0 <= r < n :: Row(g, r) <= x < Row(g, r) + Len(g, r)
  {
    if x < Row(g, n - 1) { EveryRow(g, n - 1, x); }
  }

  ghost predicate NonDecreasing<T>(g: Gather<T>) {
    forall r | 0 <= r < Requests(g) :: Len(g, r) >= 0
  }

  /** The rows are where the running totals say exactly when the totals never fall. */
  lemma RowsAreTotals<T>(g: Gather<T>)
    ensures (forall r | 0 < r <= Requests(g) :: Row(g, r) == g.cu[r] - g.cu[0]) <==> NonDecreasing(g)
  {
    if NonDecreasing(g) {
      forall r | 0 < r <= Requests(g) ensures Row(g, r) == g.cu[r] - g.cu[0] { TotalOf(g, r); }
    } else {
      var r :| 0 <= r < Requests(g) && Len(g, r) < 0;
      assert Row(g, r + 1) == Row(g, r);
      if r == 0 { assert Row(g, 1) != g.cu[1] - g.cu[0]; }
      else { assert Row(g, r) != g.cu[r] - g.cu[0] || Row(g, r + 1) != g.cu[r + 1] - g.cu[0]; }
    }
  }

  lemma {:induction false} TotalOf<T>(g: Gather<T>, r: nat)
    requires NonDecreasing(g) && 0 < r <= Requests(g)
    ensures Row(g, r) == g.cu[r] - g.cu[0]
  {
    if r > 1 { TotalOf(g, r - 1); }
  }

  // ----- The flat view of the pages -----

  function Flatten<T>(pages: seq<seq<T>>): seq<T> {
    if pages == [] then [] else Flatten(pages[..|pages| - 1]) + pages[|pages| - 1]
  }

  /** Slot `b * page + o` of the flat view is place `o` of page `b`. */
  lemma {:induction false} FlatSlot<T>(pages: seq<seq<T>>, page: nat, b: nat, o: nat)
    requires (forall i | 0 <= i < |pages| :: |pages[i]| == page) && b < |pages| && o < page
    ensures |Flatten(pages)| == |pages| * page
    ensures b * page + o < |Flatten(pages)| && Flatten(pages)[b * page + o] == pages[b][o]
  {
    var n := |pages| - 1;
    FlatLength(pages[..n], page);
    assert |pages| * page == n * page + page;
    if b < n {
      FlatSlot(pages[..n], page, b, o);
    }
  }

  lemma {:induction false} FlatLength<T>(pages: seq<seq<T>>, page: nat)
    requires forall i | 0 <= i < |pages| :: |pages[i]| == page
    ensures |Flatten(pages)| == |pages| * page
  {
    if pages != [] {
      FlatLength(pages[..|pages| - 1], page);
      assert |pages| * page == (|pages| - 1) * page + page;
    }
  }

  /** Row `x` is token `x - Row(r)` of the context of request `r`. */
  ghost predicate Holds<T>(g: Gather<T>, dst: seq<T>, r: nat, j: nat)
    requires Ready(g) && r < Requests(g) && j < Len(g, r)
  {
    && Row(g, r) + j < |dst|
    && OnPage(g, r, g.starts[r] + j)
    && dst[Row(g, r) + j] == Token(g, r, g.starts[r] + j)
  }

  /** All tokens of request `r` are in their rows. */
  ghost predicate Arrived<T>(g: Gather<T>, dst: seq<T>, r: nat)
    requires Ready(g) && r + 1 < |g.cu| && r < |g.starts|
  {
    forall j | 0 <= j < g.cu[r + 1] - g.cu[r] :: Holds(g, dst, r, j)
  }

  /** Copies one request's rows. */
  method CopyRequest<T>(g: Gather<T>, flat: seq<T>, dst: array<T>, r: nat, at: nat)
    requires Ready(g) && flat == Flatten(g.pages) && r < Requests(g) && Len(g, r) > 0
    requires at == Row(g, r) && at + Len(g, r) <= dst.Length
    modifies dst
    ensures forall j | 0 <= j < Len(g, r) :: Holds(g, dst[..], r, j)
    ensures forall x | 0 <= x < dst.Length && !(at <= x < at + Len(g, r)) :: dst[x] == old(dst[x])
  {
    for j := 0 to Len(g, r)
      invariant forall k | 0 <= k < j :: Holds(g, dst[..], r, k)
      invariant forall x | 0 <= x < dst.Length && !(at <= x < at + j) :: dst[x] == old(dst[x])
    {
      var p := g.starts[r] + j;
      assert OnPage(g, r, p);
      var b := g.table[r][p / g.page];
      FlatSlot(g.pages, g.page, b, p % g.page);
      ghost var before := dst[..];
      dst[at + j] := flat[b * g.page + p % g.page];
      assert forall k | 0 <= k < j :: Holds(g, before, r, k) ==> Holds(g, dst[..], r, k);
    }
  }

  /** The whole copy: every token of every request, that is, of every place that has both a start and a length, lands in its
      row, and no other row changes. */
  method GatherAll<T>(g: Gather<T>, dst: array<T>)
    requires Ready(g) && Row(g, Requests(g)) <= dst.Length
    modifies dst
    ensures forall r: nat | r + 1 < |g.cu| && r < |g.starts| :: Arrived(g, dst[..], r)
    ensures forall x | Row(g, Requests(g)) <= x < dst.Length :: dst[x] == old(dst[x])
  {
    var flat := Flatten(g.pages);
    var at := 0;
    for r := 0 to Requests(g)
      invariant at == Row(g, r)
      invariant forall q, j | 0 <= q < r && 0 <= j < Len(g, q) :: Holds(g, dst[..], q, j)
      invariant forall x | Row(g, r) <= x < dst.Length :: dst[x] == old(dst[x])
    {
      RowsGrow(g, r + 1, Requests(g));
      if Len(g, r) > 0 {
        ghost var before := dst[..];
        CopyRequest(g, flat, dst, r, at);
        forall q, j | 0 <= q < r && 0 <= j < Len(g, q) ensures Holds(g, dst[..], q, j) {
          assert Holds(g, before, q, j);
          RowsGrow(g, q + 1, r);
          assert dst[Row(g, q) + j] == before[Row(g, q) + j];
        }
        at := at + Len(g, r);
      }
    }
  }
}
