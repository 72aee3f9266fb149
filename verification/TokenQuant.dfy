/** Quantising each row of a tensor to few bits, with a scale and a zero point of its own, over exact reals. */
module TokenQuant {
  function Pow2(n: nat): (r: nat)
    ensures r >= 1
  {
    if n == 0 then 1 else 2 * Pow2(n - 1)
  }

  lemma {:induction false} Pow2Grows(m: nat, n: nat)
    requires m <= n
    ensures Pow2(m) <= Pow2(n)
  {
    if m < n { Pow2Grows(m, n - 1); }
  }

  /** Rounding to the nearest integer, halves to the even one. */
  function Round(x: real): (r: int) {
    var f := x.Floor;
    var rest := x - f as real;
    if rest < 0.5 then f else if rest > 0.5 then f + 1 else if f % 2 == 0 then f else f + 1
  }

  lemma RoundIsNear(x: real)
    ensures -0.5 <= Round(x) as real - x <= 0.5
    ensures x - x.Floor as real == 0.5 ==> Round(x) % 2 == 0
  {}

  function Min(row: seq<real>): (r: real)
    requires row != []
    ensures r in row && forall i | 0 <= i < |row| :: r <= row[i]
  {
    if |row| == 1 then row[0]
    else
      var m := Min(row[..|row| - 1]);
      assert forall i | 0 <= i < |row| - 1 :: row[..|row| - 1][i] == row[i];
      if row[|row| - 1] < m then row[|row| - 1] else m
  }

  function Max(row: seq<real>): (r: real)
    requires row != []
    ensures r in row && forall i | 0 <= i < |row| :: row[i] <= r
  {
    if |row| == 1 then row[0]
    else
      var m := Max(row[..|row| - 1]);
      assert forall i | 0 <= i < |row| - 1 :: row[..|row| - 1][i] == row[i];
      if row[|row| - 1] > m then row[|row| - 1] else m
  }

  function Abs(x: real): real { if x < 0.0 then -x else x }

  function AtLeast(x: real): (r: real)
    ensures r >= x && r > 0.0
  {
    if x < 0.00001 then 0.00001 else x
  }

  /** Symmetric rows use signed numbers and no zero point, others unsigned ones. */
  function Low(symmetric: bool, bits: nat): int
    requires bits > 0
  {
    if symmetric then -(Pow2(bits - 1) as int) else 0
  }

  function High(symmetric: bool, bits: nat): int
    requires bits > 0
  {
    if symmetric then Pow2(bits - 1) - 1 else Pow2(bits) - 1
  }

  lemma HighIsPositive(symmetric: bool, bits: nat)
    requires bits >= 2
    ensures High(symmetric, bits) >= 1 && Low(symmetric, bits) <= 0
  {
    assert Pow2(1) == 2;
    Pow2Grows(1, bits - 1);
    Pow2Grows(1, bits);
  }

  /** All numbers of the width are levels: as many below zero as not, or none. */
  lemma AllLevels(symmetric: bool, bits: nat)
    requires bits >= 2
    ensures High(symmetric, bits) - Low(symmetric, bits) + 1 == Pow2(bits)
    ensures if symmetric then -Low(symmetric, bits) == High(symmetric, bits) + 1 else Low(symmetric, bits) == 0
  {}

  function Scale(row: seq<real>, symmetric: bool, bits: nat): (s: real)
    requires row != [] && bits >= 2
    ensures s > 0.0
  {
    HighIsPositive(symmetric, bits);
    var high := High(symmetric, bits) as real;
    if symmetric then
      AtLeast((if Abs(Min(row)) > Abs(Max(row)) then Abs(Min(row)) else Abs(Max(row))) / high)
    else AtLeast((Max(row) - Min(row)) / high)
  }

  const I32 := 0x8000_0000

  /** Conversions to the 32-bit integer and to the 8-bit one: exact for what fits, something that fits for the rest. */
  datatype Casts = Casts(toInt: int -> int, toByte: int -> int) {
    ghost predicate Valid(symmetric: bool) {
      && (forall z | -I32 <= z < I32 :: toInt(z) == z)
      && (forall z :: -I32 <= toInt(z) < I32)
      && (forall q | ByteLow(symmetric) <= q <= ByteHigh(symmetric) :: toByte(q) == q)
      && (forall q :: ByteLow(symmetric) <= toByte(q) <= ByteHigh(symmetric))
    }
  }

  function ByteLow(symmetric: bool): int { if symmetric then -128 else 0 }

  function ByteHigh(symmetric: bool): int { if symmetric then 127 else 255 }

  /** The smallest value in units of the scale, rounded. */
  function Base(row: seq<real>, symmetric: bool, bits: nat): int
    requires row != [] && bits >= 2
  {
    Round(Min(row) / Scale(row, symmetric, bits))
  }

  /** Multiplication by -1 in 32 bits: the least integer is its own negative. */
  function Negated(z: int): int { if z == -I32 then -I32 else -z }

  /** The zero point as the code stores it. */
  function ZeroPoint(c: Casts, row: seq<real>, symmetric: bool, bits: nat): int
    requires row != [] && bits >= 2
  {
    if symmetric then 0 else Negated(c.toInt(Base(row, symmetric, bits)))
  }

  /** The zero point over unbounded integers. */
  function ExactZero(row: seq<real>, symmetric: bool, bits: nat): int
    requires row != [] && bits >= 2
  {
    if symmetric then 0 else -Base(row, symmetric, bits)
  }

  function Clamp(x: int, low: int, high: int): int { if x < low then low else if x > high then high else x }

  /** Where `x` lies on the scale of levels, for a given zero point. */
  function Place(row: seq<real>, symmetric: bool, bits: nat, zero: int, x: real): real
    requires row != [] && bits >= 2
  {
    x / Scale(row, symmetric, bits) + zero as real
  }

  /** The quantised value before it is stored. */
  function Level(row: seq<real>, symmetric: bool, bits: nat, zero: int, x: real): int
    requires row != [] && bits >= 2
  {
    Clamp(Round(Place(row, symmetric, bits, zero, x)), Low(symmetric, bits), High(symmetric, bits))
  }

  /** Dequantising level `q` gives `x` back within half the scale. */
  predicate Near(row: seq<real>, symmetric: bool, bits: nat, zero: int, x: real, q: int)
    requires row != [] && bits >= 2
  {
    var s := Scale(row, symmetric, bits);
    -s / 2.0 <= Times((q - zero) as real, s) - x <= s / 2.0
  }

  function Times(a: real, b: real): real { a * b }

  // ----- How far the levels are from the values -----

  lemma Quotients(x: real, s: real, q: real)
    requires s > 0.0
    ensures x / s * s == x
    ensures x <= q * s ==> x / s <= q
    ensures q * s <= x ==> q <= x / s
  {}

  /** `High` steps of the scale reach as far as the row does. */
  lemma ScaleReaches(row: seq<real>, symmetric: bool, bits: nat)
    requires row != [] && bits >= 2
    ensures var reach := High(symmetric, bits) as real * Scale(row, symmetric, bits);
            if symmetric then Abs(Min(row)) <= reach && Abs(Max(row)) <= reach else Max(row) - Min(row) <= reach
  {
    hide Pow2, Min, Max, Abs;
    HighIsPositive(symmetric, bits);
    var (s, high) := (Scale(row, symmetric, bits), High(symmetric, bits) as real);
    if symmetric {
      Spread(if Abs(Min(row)) > Abs(Max(row)) then Abs(Min(row)) else Abs(Max(row)), high, s);
    } else {
      Spread(Max(row) - Min(row), high, s);
    }
  }

  /** `High` steps of the scale `s` reach as far as the row does: to every element, or from any element to any other. */
  ghost predicate Reaches(row: seq<real>, symmetric: bool, bits: nat, s: real)
    requires bits >= 2
  {
    var reach := Times(High(symmetric, bits) as real, s);
    if symmetric then forall x | x in row :: -reach <= x <= reach
    else forall x, y | x in row && y in row :: x - y <= reach
  }

  /** How far the row goes: its largest absolute value, or from its smallest to its largest value. */
  ghost function Extent(row: seq<real>, symmetric: bool): real
    requires row != []
  {
    if symmetric then if Abs(Min(row)) > Abs(Max(row)) then Abs(Min(row)) else Abs(Max(row)) else Max(row) - Min(row)
  }

  lemma ReachesIff(row: seq<real>, symmetric: bool, bits: nat, s: real)
    requires row != [] && bits >= 2
    ensures Reaches(row, symmetric, bits, s) <==> Extent(row, symmetric) <= Times(High(symmetric, bits) as real, s)
  {
    hide Pow2, High, Times;
    assert Min(row) in row && Max(row) in row;
  }

  lemma ScaleIs(row: seq<real>, symmetric: bool, bits: nat)
    requires row != [] && bits >= 2
    ensures High(symmetric, bits) >= 1 && Scale(row, symmetric, bits) == AtLeast(Extent(row, symmetric) / High(symmetric, bits) as real)
  {
    hide Pow2, High, Min, Max, AtLeast;
    HighIsPositive(symmetric, bits);
  }

  lemma Short(m: real, high: real, t: real)
    requires high >= 1.0
    ensures m <= Times(high, t) <==> m / high <= t
  {
    assert m / high * high == m;
    if t < m / high { assert t * high < m / high * high; } else { assert t * high >= m / high * high; }
  }

  /** The scale is the least one that does, if it is not the least one allowed. */
  lemma ScaleIsLeast(row: seq<real>, symmetric: bool, bits: nat)
    requires row != [] && bits >= 2
    ensures var s := Scale(row, symmetric, bits);
            && s >= 0.00001 && Reaches(row, symmetric, bits, s)
            && forall t | 0.00001 <= t < s :: !Reaches(row, symmetric, bits, t)
  {
    hide Pow2, High, Scale, Extent, Times, Reaches;
    ScaleIs(row, symmetric, bits);
    var (s, high, m) := (Scale(row, symmetric, bits), High(symmetric, bits) as real, Extent(row, symmetric));
    ReachesIff(row, symmetric, bits, s);
    Short(m, high, s);
    forall t | 0.00001 <= t < s ensures !Reaches(row, symmetric, bits, t) {
      ReachesIff(row, symmetric, bits, t);
      Short(m, high, t);
    }
  }

  /** The scale spans the row: from the smallest value to the largest it is at most `High` steps. */
  lemma ScaleSpans(row: seq<real>, symmetric: bool, bits: nat, x: real)
    requires row != [] && bits >= 2 && x in row
    ensures var (s, high) := (Scale(row, symmetric, bits), High(symmetric, bits) as real);
            if symmetric then -high <= x / s <= high else Min(row) / s <= x / s <= Min(row) / s + high
  {
    hide Pow2, Scale, High, Min, Max;
    var (s, high) := (Scale(row, symmetric, bits), High(symmetric, bits) as real);
    ScaleReaches(row, symmetric, bits);
    if symmetric {
      InSteps(x, s, high);
    } else {
      Difference(x, Min(row), s, high);
    }
  }

  lemma InSteps(x: real, s: real, q: real)
    requires s > 0.0 && -(q * s) <= x <= q * s
    ensures -q <= x / s <= q
  {
    assert -q * s == -(q * s);
    Quotients(x, s, q);
    Quotients(x, s, -q);
  }

  lemma Spread(m: real, high: real, s: real)
    requires high >= 1.0 && s >= m / high
    ensures m <= high * s
  {
    assert m / high * high == m;
  }

  lemma Difference(x: real, y: real, s: real, q: real)
    requires s > 0.0 && 0.0 <= x - y <= q * s
    ensures y / s <= x / s <= y / s + q
  {
    Quotients(x - y, s, q);
    Quotients(x - y, s, 0.0);
    assert (x - y) / s == x / s - y / s;
  }

  // ----- Which rows come back -----

  lemma Stretch(d: real, t: real, s: real)
    requires s > 0.0
    ensures -s / 2.0 <= Times(d, s) - Times(t, s) <= s / 2.0 <==> -0.5 <= d - t <= 0.5
  {
    hide Times;
    Distribute(d, t, s);
    StretchHalf(d - t, s);
  }

  lemma Distribute(d: real, t: real, s: real)
    ensures Times(d, s) - Times(t, s) == Times(d - t, s)
  {}

  lemma StretchHalf(e: real, s: real)
    requires s > 0.0
    ensures -s / 2.0 <= Times(e, s) <= s / 2.0 <==> -0.5 <= e <= 0.5
  {
    if e <= 0.5 { assert e * s <= 0.5 * s; } else { assert e * s > 0.5 * s; }
    if e >= -0.5 { assert e * s >= -0.5 * s; } else { assert e * s < -0.5 * s; }
  }

  /** A level gives `x` back within half the scale exactly when it is within one half of the place of `x`. */
  lemma NearIff(row: seq<real>, symmetric: bool, bits: nat, zero: int, x: real, q: int)
    requires row != [] && bits >= 2
    ensures Near(row, symmetric, bits, zero, x, q) <==> -0.5 <= q as real - Place(row, symmetric, bits, zero, x) <= 0.5
  {
    hide Scale;
    var s := Scale(row, symmetric, bits);
    Quotients(x, s, 0.0);
    BackToReal(q, zero, x / s, x, s);
  }

  lemma BackToReal(q: int, zero: int, t: real, x: real, s: real)
    requires s > 0.0 && Times(t, s) == x
    ensures -s / 2.0 <= Times((q - zero) as real, s) - x <= s / 2.0 <==> -0.5 <= q as real - (t + zero as real) <= 0.5
  {
    hide Times;
    Stretch((q - zero) as real, t, s);
  }

  lemma ClampNearIff(t: real, low: int, high: int)
    requires low <= high
    ensures -0.5 <= Clamp(Round(t), low, high) as real - t <= 0.5 <==> low as real - 0.5 <= t <= high as real + 0.5
  {
    RoundIsNear(t);
  }

  /** An element comes back, before storing, exactly when its place is on the scale, give or take one half: even where
      the clamp takes effect. */
  lemma LevelNearIff(row: seq<real>, symmetric: bool, bits: nat, zero: int, x: real)
    requires row != [] && bits >= 2
    ensures Near(row, symmetric, bits, zero, x, Level(row, symmetric, bits, zero, x)) <==>
            Low(symmetric, bits) as real - 0.5 <= Place(row, symmetric, bits, zero, x) <= High(symmetric, bits) as real + 0.5
  {
    hide Scale, Place, Low, High, Near;
    HighIsPositive(symmetric, bits);
    NearIff(row, symmetric, bits, zero, x, Level(row, symmetric, bits, zero, x));
    ClampNearIff(Place(row, symmetric, bits, zero, x), Low(symmetric, bits), High(symmetric, bits));
  }

  /** Smallest and largest value are on the scale, give or take one half. */
  predicate InReach(row: seq<real>, symmetric: bool, bits: nat, zero: int)
    requires row != [] && bits >= 2
  {
    && Low(symmetric, bits) as real - 0.5 <= Place(row, symmetric, bits, zero, Min(row))
    && Place(row, symmetric, bits, zero, Max(row)) <= High(symmetric, bits) as real + 0.5
  }

  lemma PlaceGrows(row: seq<real>, symmetric: bool, bits: nat, zero: int, x: real, y: real)
    requires row != [] && bits >= 2 && x <= y
    ensures Place(row, symmetric, bits, zero, x) <= Place(row, symmetric, bits, zero, y)
  {
    hide Scale;
    var s := Scale(row, symmetric, bits);
    Quotients(y, s, x / s);
    Quotients(x, s, 0.0);
  }

  /** Every element of a row comes back, before storing, exactly when the row is in reach: for every row, width and
      zero point. */
  lemma RowIff(row: seq<real>, symmetric: bool, bits: nat, zero: int)
    requires row != [] && bits >= 2
    ensures (forall x | x in row :: Near(row, symmetric, bits, zero, x, Level(row, symmetric, bits, zero, x)))
       <==> InReach(row, symmetric, bits, zero)
  {
    hide Near, Level, Place, Low, High, Min, Max;
    if InReach(row, symmetric, bits, zero) {
      forall x | x in row ensures Near(row, symmetric, bits, zero, x, Level(row, symmetric, bits, zero, x)) {
        PlaceGrows(row, symmetric, bits, zero, Min(row), x);
        PlaceGrows(row, symmetric, bits, zero, x, Max(row));
        LevelNearIff(row, symmetric, bits, zero, x);
      }
    } else {
      PlaceGrows(row, symmetric, bits, zero, Min(row), Max(row));
      LevelNearIff(row, symmetric, bits, zero, Min(row));
      LevelNearIff(row, symmetric, bits, zero, Max(row));
    }
  }

  /** With the exact zero point every row is in reach. */
  lemma ExactReaches(row: seq<real>, symmetric: bool, bits: nat)
    requires row != [] && bits >= 2
    ensures InReach(row, symmetric, bits, ExactZero(row, symmetric, bits))
  {
    hide Scale, High, Pow2, Min, Max;
    HighIsPositive(symmetric, bits);
    ScaleSpans(row, symmetric, bits, Min(row));
    ScaleSpans(row, symmetric, bits, Max(row));
    RoundIsNear(Min(row) / Scale(row, symmetric, bits));
    LowBelow(symmetric, bits);
  }

  lemma LowBelow(symmetric: bool, bits: nat)
    requires bits >= 2
    ensures Low(symmetric, bits) as real <= if symmetric then -(High(symmetric, bits) as real) else 0.0
  {}

  /** The zero point and its negation fit the 32-bit integer. */
  predicate ZeroFits(row: seq<real>, symmetric: bool, bits: nat)
    requires row != [] && bits >= 2
  {
    symmetric || -I32 < Base(row, symmetric, bits) < I32
  }

  lemma StoredIsExact(c: Casts, row: seq<real>, symmetric: bool, bits: nat)
    requires row != [] && bits >= 2 && c.Valid(symmetric) && ZeroFits(row, symmetric, bits)
    ensures ZeroPoint(c, row, symmetric, bits) == ExactZero(row, symmetric, bits)
  {}

  /** So every element comes back, before the 8-bit store, for every width from 2 up, whenever the zero point fits. */
  lemma LevelRoundTrip(c: Casts, row: seq<real>, symmetric: bool, bits: nat, x: real)
    requires row != [] && bits >= 2 && x in row && c.Valid(symmetric) && ZeroFits(row, symmetric, bits)
    ensures var zero := ZeroPoint(c, row, symmetric, bits);
            Near(row, symmetric, bits, zero, x, Level(row, symmetric, bits, zero, x))
  {
    hide Near, Level, InReach, Base;
    StoredIsExact(c, row, symmetric, bits);
    ExactReaches(row, symmetric, bits);
    RowIff(row, symmetric, bits, ExactZero(row, symmetric, bits));
  }

  // ----- Storing in eight bits -----

  /** What the code stores for `x` gives `x` back within half the scale. */
  ghost predicate ComesBack(c: Casts, row: seq<real>, symmetric: bool, bits: nat, x: real)
    requires row != [] && bits >= 2
  {
    var zero := ZeroPoint(c, row, symmetric, bits);
    Near(row, symmetric, bits, zero, x, c.toByte(Level(row, symmetric, bits, zero, x)))
  }

  lemma Pow2Eight()
    ensures Pow2(7) == 128 && Pow2(8) == 256
  {
    assert Pow2(2) == 4 && Pow2(4) == 16 && Pow2(6) == 64;
  }

  lemma LevelsFit(symmetric: bool, bits: nat)
    requires 2 <= bits <= 8
    ensures ByteLow(symmetric) <= Low(symmetric, bits) <= High(symmetric, bits) <= ByteHigh(symmetric)
  {
    HighIsPositive(symmetric, bits);
    Pow2Eight();
    Pow2Grows(bits - 1, 7);
    Pow2Grows(bits, 8);
  }

  /** For widths up to 8, a row comes back from storage exactly when it is in reach of the zero point as stored. */
  lemma StoredRowIff(c: Casts, row: seq<real>, symmetric: bool, bits: nat)
    requires row != [] && 2 <= bits <= 8 && c.Valid(symmetric)
    ensures (forall x | x in row :: ComesBack(c, row, symmetric, bits, x))
       <==> InReach(row, symmetric, bits, ZeroPoint(c, row, symmetric, bits))
  {
    hide Near, InReach, ZeroPoint, Place, Low, High, ByteLow, ByteHigh;
    var zero := ZeroPoint(c, row, symmetric, bits);
    LevelsFit(symmetric, bits);
    forall x ensures c.toByte(Level(row, symmetric, bits, zero, x)) == Level(row, symmetric, bits, zero, x) {}
    RowIff(row, symmetric, bits, zero);
  }

  /** All of the row lies within `m` of zero, or within `m` of each other. */
  ghost predicate Within(row: seq<real>, symmetric: bool, m: real) {
    if symmetric then forall x | x in row :: -m <= x <= m else forall x, y | x in row && y in row :: x - y <= m
  }

  lemma ScaleBound(row: seq<real>, symmetric: bool, bits: nat, m: real)
    requires row != [] && bits >= 2 && Within(row, symmetric, m)
    ensures High(symmetric, bits) >= 1 && Scale(row, symmetric, bits) <= AtLeast(m / High(symmetric, bits) as real)
  {
    hide Pow2, High, Scale;
    HighIsPositive(symmetric, bits);
    var high := High(symmetric, bits) as real;
    var t := AtLeast(m / high);
    ScaleIsLeast(row, symmetric, bits);
    Spread(m, high, t);
    assert Reaches(row, symmetric, bits, t);
  }

  /** The error in terms of the row itself: what comes back from storage is off by at most half a step, where `High`
      steps make up the extent of the row (or by half the least scale), as long as the zero point fits. */
  lemma StoredError(c: Casts, row: seq<real>, symmetric: bool, bits: nat, x: real, m: real)
    requires row != [] && 2 <= bits <= 8 && x in row && c.Valid(symmetric) && ZeroFits(row, symmetric, bits)
    requires Within(row, symmetric, m)
    ensures High(symmetric, bits) >= 1
    ensures var zero := ZeroPoint(c, row, symmetric, bits);
            var stored := c.toByte(Level(row, symmetric, bits, zero, x));
            var most := AtLeast(m / High(symmetric, bits) as real) / 2.0;
            -most <= Times((stored - zero) as real, Scale(row, symmetric, bits)) - x <= most
  {
    hide Pow2, High, Scale, Level, Base, Low, ByteLow, ByteHigh, Within, AtLeast, Times, InReach;
    ScaleBound(row, symmetric, bits, m);
    StoredIsExact(c, row, symmetric, bits);
    ExactReaches(row, symmetric, bits);
    StoredRowIff(c, row, symmetric, bits);
    assert ComesBack(c, row, symmetric, bits, x);
  }

  /** The row that uses the highest level: it is quantised with scale 1 and zero point 0. */
  function Widest(symmetric: bool, bits: nat): (row: seq<real>)
    requires bits >= 2
    ensures row != []
  {
    if symmetric then [High(symmetric, bits) as real] else [0.0, High(symmetric, bits) as real]
  }

  lemma WidestScale(symmetric: bool, bits: nat)
    requires bits >= 2
    ensures var row := Widest(symmetric, bits);
            Scale(row, symmetric, bits) == 1.0 && (!symmetric ==> Min(row) == 0.0)
  {
    hide Pow2, High;
    HighIsPositive(symmetric, bits);
    var (row, x) := (Widest(symmetric, bits), High(symmetric, bits) as real);
    assert Max(row) == x;
    assert symmetric ==> Min(row) == x;
    assert !symmetric ==> Min(row) == 0.0 && row[0] == 0.0 && row[1] == x;
    assert x / x == 1.0;
  }

  lemma WidestLevel(c: Casts, symmetric: bool, bits: nat)
    requires bits >= 2 && c.Valid(symmetric)
    ensures var (row, x) := (Widest(symmetric, bits), High(symmetric, bits) as real);
            && x in row && Scale(row, symmetric, bits) == 1.0 && ZeroPoint(c, row, symmetric, bits) == 0
            && Level(row, symmetric, bits, 0, x) == High(symmetric, bits)
  {
    hide Pow2, High, Low, Scale, Min, Max;
    HighIsPositive(symmetric, bits);
    WidestScale(symmetric, bits);
    var (row, x) := (Widest(symmetric, bits), High(symmetric, bits) as real);
    assert symmetric ==> row[0] == x;
    assert !symmetric ==> row[1] == x;
    assert Round(0.0) == 0 && Round(x) == High(symmetric, bits);
    assert Place(row, symmetric, bits, 0, x) == x;
  }

  /** For a width above 8 the largest element of that row does not come back. */
  lemma TooWide(c: Casts, symmetric: bool, bits: nat)
    requires bits > 8 && c.Valid(symmetric)
    ensures !ComesBack(c, Widest(symmetric, bits), symmetric, bits, High(symmetric, bits) as real)
  {
    hide Scale, Place, Level;
    WidestLevel(c, symmetric, bits);
    Pow2Eight();
    Pow2Grows(8, bits - 1);
    Pow2Grows(9, bits);
    assert Pow2(9) == 512;
    var q := c.toByte(High(symmetric, bits));
    assert q <= ByteHigh(symmetric) < High(symmetric, bits);
  }

  /** A row of one value has the least scale. */
  lemma OneValue(x: real, bits: nat)
    requires bits >= 2
    ensures Scale([x], false, bits) == 0.00001 && Min([x]) == x && Max([x]) == x
  {
    HighIsPositive(false, bits);
    assert [x][0] == x;
    assert 0.0 / (High(false, bits) as real) == 0.0;
  }

  /** The asymmetric row [30000.0]: its zero point is beyond 32 bits, so that it does not come back at any width up
      to 8. */
  lemma TooFar(c: Casts, bits: nat)
    requires 2 <= bits <= 8 && c.Valid(false)
    ensures !ComesBack(c, [30000.0], false, bits, 30000.0)
  {
    FarRow(c, 30000.0, 3000000000, bits);
  }

  /** So does [-21474.83648]: there the rounded quotient fits 32 bits but its negative does not. */
  lemma AtTheEdge(c: Casts, bits: nat)
    requires 2 <= bits <= 8 && c.Valid(false)
    ensures Base([-21474.83648], false, bits) == -I32 && !ComesBack(c, [-21474.83648], false, bits, -21474.83648)
  {
    FarRow(c, -21474.83648, -2147483648, bits);
  }

  /** A single value `n` least scales away from zero does not come back if `n` is at least 1000 beyond 32 bits, or the
      least 32-bit integer. */
  lemma FarRow(c: Casts, x: real, n: int, bits: nat)
    requires 2 <= bits <= 8 && c.Valid(false) && x == n as real * 0.00001 && (n >= I32 + 1000 || n == -I32)
    ensures Base([x], false, bits) == n && !ComesBack(c, [x], false, bits, x)
  {
    hide Pow2, High, Low, Scale, Near, Level, Min, Max;
    OneValue(x, bits);
    assert x / 0.00001 == n as real;
    assert Round(n as real) == n;
    LevelsFit(false, bits);
    StoredRowIff(c, [x], false, bits);
    assert !InReach([x], false, bits, ZeroPoint(c, [x], false, bits));
    assert [x][0] == x;
    assert forall y | y in [x] :: y == x;
  }

  /** Every element of every row comes back from storage exactly in the symmetric mode with a width of at most 8. */
  lemma RoundTripIff(c: Casts, symmetric: bool, bits: nat)
    requires bits >= 2 && c.Valid(symmetric)
    ensures (forall row: seq<real>, x: real | row != [] && x in row :: ComesBack(c, row, symmetric, bits, x))
       <==> symmetric && bits <= 8
  {
    hide ComesBack, InReach;
    if bits > 8 {
      TooWide(c, symmetric, bits);
      WidestLevel(c, symmetric, bits);
    } else if !symmetric {
      TooFar(c, bits);
      assert [30000.0][0] == 30000.0;
    } else {
      forall row: seq<real>, x: real | row != [] && x in row ensures ComesBack(c, row, symmetric, bits, x) {
        StoredRowIff(c, row, symmetric, bits);
        ExactReaches(row, symmetric, bits);
      }
    }
  }
}
