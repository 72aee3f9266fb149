/** Sums of lengths, and rounding to multiples. */
module Arithmetic {
  function Min(a: nat, b: nat): nat { if a < b then a else b }

  function Sum(s: seq<nat>): nat {
    if |s| == 0 then 0 else Sum(s[..|s| - 1]) + s[|s| - 1]
  }

  lemma SumNext(s: seq<nat>, i: nat)
    requires i < |s|
    ensures Sum(s[..i + 1]) == Sum(s[..i]) + s[i]
  {
    assert s[..i + 1][..i] == s[..i];
  }

  lemma {:induction false} SumPrefixBound(s: seq<nat>, i: nat)
    requires i <= |s|
    ensures Sum(s[..i]) <= Sum(s)
    decreases |s| - i
  {
    if i == |s| {
      assert s[..i] == s;
    } else {
      SumNext(s, i);
      SumPrefixBound(s, i + 1);
    }
  }

  lemma {:induction false} SumConcat(a: seq<nat>, b: seq<nat>)
    ensures Sum(a + b) == Sum(a) + Sum(b)
    decreases |b|
  {
    if b == [] {
      assert a + b == a;
    } else {
      SumConcat(a, b[..|b| - 1]);
      assert (a + b)[..|a + b| - 1] == a + b[..|b| - 1];
    }
  }

  lemma Quotient(d: nat, q: nat, m: nat)
    requires m < d
    ensures (q * d + m) / d == q && (q * d + m) % d == m
  {
    var (q', m') := ((q * d + m) / d, (q * d + m) % d);
    assert (q' - q) * d == m - m';
    assert q' - q >= 1 ==> (q' - q) * d >= d;
    assert q - q' >= 1 ==> (q - q') * d >= d;
  }

  lemma RoundUp(cs: nat, x: nat)
    requires cs > 0 && x % cs != 0
    ensures (x + cs - 1) / cs * cs == x - x % cs + cs
  {
    var (q, m) := (x / cs, x % cs);
    assert x + cs - 1 == (q + 1) * cs + (m - 1);
    Quotient(cs, q + 1, m - 1);
  }
}
