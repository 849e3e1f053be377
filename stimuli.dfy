/**
 * The stimulus generator of the TCLS test: two SIZE x SIZE matrices of random
 * operands, stored row-major, their product computed by the triple loop, and
 * the three written out as C array initialisers of a header.
 *
 * The random draws are a parameter (the generator draws `a` then `b` for every
 * element); file output is modelled as the string written.
 */
module Stimuli {
  import Bits

  const SIZE: nat := 24
  /** `int(2**15/SIZE)` */
  const RANGE: int := 1365

  /** The truncated quotient the generator computes. */
  lemma RangeIsQuotient()
    ensures RANGE == 32768 / SIZE && RANGE * SIZE <= 32768 < (RANGE + 1) * SIZE
  {
  }

  /** A value `random.randint(-RANGE, RANGE - 1)` can return. */
  predicate Operand(x: int) {
    -RANGE <= x <= RANGE - 1
  }

  /** A flattened operand matrix: SIZE * SIZE operands. */
  predicate Stimulus(m: seq<int>) {
    |m| == SIZE * SIZE && forall t :: 0 <= t < |m| ==> Operand(m[t])
  }

  /** The C `int` range. */
  predicate IsInt32(x: int) {
    -0x8000_0000 <= x <= 0x7fff_ffff
  }

  /**
   * The first loop: for every (i, j) in row-major order draw `a`, then `b`,
   * and append them to `m_a` and `m_b`.
   */
  method GenOperands(draws: seq<int>) returns (ma: seq<int>, mb: seq<int>)
    requires |draws| == 2 * SIZE * SIZE && forall t :: 0 <= t < |draws| ==> Operand(draws[t])
    ensures Stimulus(ma) && Stimulus(mb)
    ensures forall t :: 0 <= t < SIZE * SIZE ==> ma[t] == draws[2 * t] && mb[t] == draws[2 * t + 1]
  {
    ma, mb := [], [];
    var i := 0;
    while i < SIZE
      invariant 0 <= i <= SIZE
      invariant |ma| == i * SIZE && |mb| == i * SIZE
      invariant forall t :: 0 <= t < |ma| ==> ma[t] == draws[2 * t] && mb[t] == draws[2 * t + 1]
    {
      var j := 0;
      while j < SIZE
        invariant 0 <= j <= SIZE
        invariant |ma| == i * SIZE + j && |mb| == i * SIZE + j
        invariant forall t :: 0 <= t < |ma| ==> ma[t] == draws[2 * t] && mb[t] == draws[2 * t + 1]
      {
        var a := draws[2 * (i * SIZE + j)];
        var b := draws[2 * (i * SIZE + j) + 1];
        ma := ma + [a];
        mb := mb + [b];
        j := j + 1;
      }
      i := i + 1;
    }
  }

  /** `sum(m_a[i*SIZE + t] * m_b[t*SIZE + j] for t < k)`, accumulated left to right. */
  function Dot(ma: seq<int>, mb: seq<int>, i: nat, j: nat, k: nat): int
    requires |ma| == SIZE * SIZE && |mb| == SIZE * SIZE && i < SIZE && j < SIZE && k <= SIZE
  {
    if k == 0 then 0 else Dot(ma, mb, i, j, k - 1) + ma[i * SIZE + k - 1] * mb[(k - 1) * SIZE + j]
  }

  /** Element (i, j) of a flattened row-major matrix. */
  function At(m: seq<int>, i: nat, j: nat): int
    requires |m| == SIZE * SIZE && i < SIZE && j < SIZE
  {
    m[i * SIZE + j]
  }

  /**
   * The second loop: for every (i, j) in row-major order accumulate the dot
   * product of row i of `m_a` and column j of `m_b` in `r` and append it.
   */
  method GenExpected(ma: seq<int>, mb: seq<int>) returns (mexp: seq<int>)
    requires |ma| == SIZE * SIZE && |mb| == SIZE * SIZE
    ensures |mexp| == SIZE * SIZE
    ensures forall i, j :: 0 <= i < SIZE && 0 <= j < SIZE ==> At(mexp, i, j) == Dot(ma, mb, i, j, SIZE)
  {
    mexp := [];
    var i := 0;
    while i < SIZE
      invariant 0 <= i <= SIZE
      invariant |mexp| == i * SIZE
      invariant forall i', j' :: 0 <= i' < i && 0 <= j' < SIZE ==> mexp[i' * SIZE + j'] == Dot(ma, mb, i', j', SIZE)
    {
      var j := 0;
      while j < SIZE
        invariant 0 <= j <= SIZE
        invariant |mexp| == i * SIZE + j
        invariant forall i', j' :: 0 <= i' < i && 0 <= j' < SIZE ==> mexp[i' * SIZE + j'] == Dot(ma, mb, i', j', SIZE)
        invariant forall j' :: 0 <= j' < j ==> mexp[i * SIZE + j'] == Dot(ma, mb, i, j', SIZE)
      {
        var r := 0;
        var k := 0;
        while k < SIZE
          invariant 0 <= k <= SIZE
          invariant r == Dot(ma, mb, i, j, k)
        {
          r := r + ma[i * SIZE + k] * mb[k * SIZE + j];
          k := k + 1;
        }
        mexp := mexp + [r];
        j := j + 1;
      }
      i := i + 1;
    }
  }

  /** The product of two operands is at most RANGE * RANGE in magnitude. */
  lemma ProductBound(a: int, b: int)
    requires Operand(a) && Operand(b)
    ensures -RANGE * RANGE <= a * b <= RANGE * RANGE
  {
    var x := if a < 0 then -a else a;
    var y := if b < 0 then -b else b;
    MagnitudeBound(x, y);
    if a < 0 && b < 0 {
      assert a * b == x * y;
    } else if a < 0 {
      assert a * b == -(x * y);
    } else if b < 0 {
      assert a * b == -(x * y);
    } else {
      assert a * b == x * y;
    }
  }

  lemma MagnitudeBound(x: int, y: int)
    requires 0 <= x <= RANGE && 0 <= y <= RANGE
    ensures 0 <= x * y <= RANGE * RANGE
  {
    Bits.NonNegativeProduct(x, y);
    Bits.NonNegativeProduct(RANGE - x, y);
    Bits.NonNegativeProduct(RANGE, RANGE - y);
    assert (RANGE - x) * y == RANGE * y - x * y;
    assert RANGE * (RANGE - y) == RANGE * RANGE - RANGE * y;
  }

  /** A partial dot product of k terms is at most k * RANGE * RANGE in magnitude. */
  lemma {:induction false} DotBound(ma: seq<int>, mb: seq<int>, i: nat, j: nat, k: nat)
    requires Stimulus(ma) && Stimulus(mb) && i < SIZE && j < SIZE && k <= SIZE
    ensures -(k * (RANGE * RANGE)) <= Dot(ma, mb, i, j, k) <= k * (RANGE * RANGE)
  {
    if k > 0 {
      DotBound(ma, mb, i, j, k - 1);
      ProductBound(ma[i * SIZE + k - 1], mb[(k - 1) * SIZE + j]);
    }
  }

  /**
   * Every partial sum of the expected product, and every single product, fits
   * in a C `int`: SIZE * RANGE * RANGE = 44717400 < 2^31, so the accumulation
   * in the test program cannot overflow.
   */
  lemma PartialSumsFitInt32(ma: seq<int>, mb: seq<int>, i: nat, j: nat, k: nat)
    requires Stimulus(ma) && Stimulus(mb) && i < SIZE && j < SIZE && k <= SIZE
    ensures IsInt32(Dot(ma, mb, i, j, k))
    ensures k < SIZE ==> IsInt32(ma[i * SIZE + k] * mb[k * SIZE + j])
    ensures k < SIZE ==> IsInt32(Dot(ma, mb, i, j, k) + ma[i * SIZE + k] * mb[k * SIZE + j])
  {
    DotBound(ma, mb, i, j, k);
    assert SIZE * (RANGE * RANGE) == 44717400;
    if k < SIZE {
      ProductBound(ma[i * SIZE + k], mb[k * SIZE + j]);
      DotBound(ma, mb, i, j, k + 1);
    }
  }

  // ---------------------------------------------------------------------------
  // write_arr: the header text
  // ---------------------------------------------------------------------------

  function DigitChar(d: nat): char
    requires d < 10
  {
    "0123456789"[d]
  }

  /** The decimal digits of a natural number, most significant first. */
  function Digits(n: nat): (s: string)
    ensures |s| >= 1
  {
    if n < 10 then [DigitChar(n)] else Digits(n / 10) + [DigitChar(n % 10)]
  }

  /** `'%d' % v`. */
  function Decimal(v: int): (s: string)
    ensures |s| >= 1
    decreases if v < 0 then 1 else 0
  {
    if v < 0 then "-" + Decimal(-v) else Digits(v)
  }

  /** The number a string of decimal digits denotes. */
  function DigitsValue(s: string): int {
    if |s| == 0 then 0 else DigitsValue(s[..|s| - 1]) * 10 + (s[|s| - 1] as int - '0' as int)
  }

  /** Reading a decimal number back: an optional minus sign, then digits. */
  function ParseDecimal(s: string): int {
    if |s| > 0 && s[0] == '-' then -DigitsValue(s[1..]) else DigitsValue(s)
  }

  /** Digits are decimal digit characters and denote the number. */
  lemma {:induction false} DigitsRoundTrip(n: nat)
    ensures DigitsValue(Digits(n)) == n
    ensures forall k :: 0 <= k < |Digits(n)| ==> '0' <= Digits(n)[k] <= '9'
  {
    if n >= 10 {
      DigitsRoundTrip(n / 10);
      var s := Digits(n);
      assert s[..|s| - 1] == Digits(n / 10);
    }
  }

  /** The text written for a value reads back as that value, and holds only digits and a sign. */
  lemma DecimalRoundTrip(v: int)
    ensures ParseDecimal(Decimal(v)) == v
    ensures forall k :: 0 <= k < |Decimal(v)| ==> Decimal(v)[k] == '-' || '0' <= Decimal(v)[k] <= '9'
  {
    if v < 0 {
      DigitsRoundTrip(-v);
      assert Decimal(v)[1..] == Digits(-v);
    } else {
      DigitsRoundTrip(v);
    }
  }

  /** The text written for element i: a line break before each row, then the value and a comma. */
  function Element(i: nat, v: int): string {
    (if i % SIZE == 0 then "\n\t" else "") + Decimal(v) + ","
  }

  /** The text written for the first n elements. */
  function Elements(arr: seq<int>, n: nat): string
    requires n <= |arr|
  {
    if n == 0 then "" else Elements(arr, n - 1) + Element(n - 1, arr[n - 1])
  }

  /** How many times `c` occurs in `s`. */
  function Count(s: string, c: char): nat {
    if |s| == 0 then 0 else Count(s[..|s| - 1], c) + (if s[|s| - 1] == c then 1 else 0)
  }

  lemma {:induction false} CountAppend(s: string, t: string, c: char)
    ensures Count(s + t, c) == Count(s, c) + Count(t, c)
    decreases |t|
  {
    if |t| > 0 {
      assert (s + t)[..|s + t| - 1] == s + t[..|t| - 1];
      CountAppend(s, t[..|t| - 1], c);
    } else {
      assert s + t == s;
    }
  }

  lemma {:induction false} CountAbsent(s: string, c: char)
    requires forall k :: 0 <= k < |s| ==> s[k] != c
    ensures Count(s, c) == 0
    decreases |s|
  {
    if |s| > 0 {
      assert s[..|s| - 1] + [s[|s| - 1]] == s;
      CountAbsent(s[..|s| - 1], c);
    }
  }

  /** Each element contributes one comma, and a tab exactly when it starts a row. */
  lemma ElementCounts(i: nat, v: int)
    ensures Count(Element(i, v), ',') == 1
    ensures Count(Element(i, v), '\t') == if i % SIZE == 0 then 1 else 0
  {
    var prefix := if i % SIZE == 0 then "\n\t" else "";
    assert Element(i, v) == prefix + Decimal(v) + ",";
    DecimalRoundTrip(v);
    CountAbsent(Decimal(v), ',');
    CountAbsent(Decimal(v), '\t');
    CountAppend(prefix, Decimal(v), ',');
    CountAppend(prefix + Decimal(v), ",", ',');
    CountAppend(prefix, Decimal(v), '\t');
    CountAppend(prefix + Decimal(v), ",", '\t');
    assert Count("\n\t", '\t') == 1 && Count("\n\t", ',') == 0 by {
      assert "\n\t"[..1] == "\n";
      assert "\n"[..0] == "";
    }
    assert Count(",", ',') == 1 && Count(",", '\t') == 0 by {
      assert ","[..0] == "";
    }
  }

  /** The number of row starts among the indices 0 .. n - 1. */
  function RowStarts(n: nat): nat {
    if n == 0 then 0 else RowStarts(n - 1) + (if (n - 1) % SIZE == 0 then 1 else 0)
  }

  /**
   * The element text holds one comma per value and one tab per row start: a
   * new line is begun before elements 0, SIZE, 2 * SIZE, ... and every value
   * is followed by a comma.
   */
  lemma {:induction false} ElementsCounts(arr: seq<int>, n: nat)
    requires n <= |arr|
    ensures Count(Elements(arr, n), ',') == n
    ensures Count(Elements(arr, n), '\t') == RowStarts(n)
  {
    if n > 0 {
      ElementsCounts(arr, n - 1);
      ElementCounts(n - 1, arr[n - 1]);
      CountAppend(Elements(arr, n - 1), Element(n - 1, arr[n - 1]), ',');
      CountAppend(Elements(arr, n - 1), Element(n - 1, arr[n - 1]), '\t');
    }
  }

  /** Inside row r only its first index starts a row. */
  lemma {:induction false} RowStartsInRow(r: nat, n: nat)
    requires r * SIZE < n <= r * SIZE + SIZE
    ensures RowStarts(n) == RowStarts(r * SIZE) + 1
  {
    if n - 1 == r * SIZE {
      assert (n - 1) % SIZE == 0;
    } else {
      assert (n - 1) % SIZE != 0;
      RowStartsInRow(r, n - 1);
    }
  }

  /** A matrix of `rows` full rows has `rows` row starts. */
  lemma {:induction false} RowStartsOfRows(rows: nat)
    ensures RowStarts(rows * SIZE) == rows
  {
    if rows > 0 {
      RowStartsOfRows(rows - 1);
      RowStartsInRow(rows - 1, rows * SIZE);
    }
  }

  /** `write_arr`: the declaration line, the elements, and the closing brace. */
  /** The text `write_arr` writes for one array: the declaration line, the elements, the closing brace. */
  function ArrText(name: string, arr: seq<int>): string {
    "const int " + name + "[] = {" + Elements(arr, |arr|) + "\n};\n\n"
  }

  method WriteArr(name: string, arr: seq<int>) returns (out: string)
    ensures out == ArrText(name, arr)
  {
    var start := "const int " + name + "[] = {";
    out := start;
    var i := 0;
    while i < |arr|
      invariant 0 <= i <= |arr|
      invariant out == start + Elements(arr, i)
    {
      var piece := Element(i, arr[i]);
      assert Elements(arr, i + 1) == Elements(arr, i) + piece;
      out := out + piece;
      i := i + 1;
    }
    out := out + "\n};\n\n";
  }

  /** The header's closing lines: the SIZE define and the four matrices of the test. */
  function Trailer(): string {
    "#define SIZE " + Decimal(SIZE) + "\n"
    + "__attribute__ ((section(\".heapsram\"))) int g_mA[SIZE][SIZE];\n"
    + "__attribute__ ((section(\".heapsram\"))) int g_mB[SIZE][SIZE];\n"
    + "__attribute__ ((section(\".heapsram\"))) int g_mC[SIZE][SIZE];\n"
    + "__attribute__ ((section(\".heapsram\"))) int g_mB_tmp[SIZE][SIZE];\n"
  }

  /** The define reads `#define SIZE 24`. */
  lemma TrailerDefinesSize()
    ensures Trailer()[..16] == "#define SIZE 24\n"
  {
    assert Decimal(SIZE) == "24" by {
      assert Digits(24) == Digits(2) + [DigitChar(4)];
    }
  }

  /**
   * The whole script: draw the operands, compute the product, and write the
   * three arrays and the trailer. The operands are in range, the product is
   * the row-major matrix product, the header is the three arrays' text
   * followed by the trailer, and the expected array's text has one comma per
   * element and SIZE row starts.
   */
  method GenStimuli(draws: seq<int>) returns (ma: seq<int>, mb: seq<int>, mexp: seq<int>, header: string)
    requires |draws| == 2 * SIZE * SIZE && forall t :: 0 <= t < |draws| ==> Operand(draws[t])
    ensures Stimulus(ma) && Stimulus(mb) && |mexp| == SIZE * SIZE
    ensures forall i, j :: 0 <= i < SIZE && 0 <= j < SIZE ==> At(mexp, i, j) == Dot(ma, mb, i, j, SIZE)
    ensures forall i, j :: 0 <= i < SIZE && 0 <= j < SIZE ==> IsInt32(At(mexp, i, j))
    ensures Count(Elements(mexp, |mexp|), ',') == SIZE * SIZE && Count(Elements(mexp, |mexp|), '\t') == SIZE
    ensures header == ArrText("m_a", ma) + ArrText("m_b", mb) + ArrText("m_exp", mexp) + Trailer()
  {
    ma, mb := GenOperands(draws);
    mexp := GenExpected(ma, mb);
    var a := WriteArr("m_a", ma);
    var b := WriteArr("m_b", mb);
    var e := WriteArr("m_exp", mexp);
    header := a + b + e + Trailer();
    assert a == ArrText("m_a", ma) && b == ArrText("m_b", mb) && e == ArrText("m_exp", mexp);
    forall i, j | 0 <= i < SIZE && 0 <= j < SIZE
      ensures IsInt32(At(mexp, i, j))
    {
      PartialSumsFitInt32(ma, mb, i, j, SIZE);
    }
    ElementsCounts(mexp, |mexp|);
    RowStartsOfRows(SIZE);
  }
}
