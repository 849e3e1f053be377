/**
 * The TCLS fault-injection test program: it configures the TCLS resynchronisation
 * interrupt on the CLIC, copies the generated operands into three global
 * SIZE x SIZE `int` matrices, multiplies them, counts the entries that differ
 * from the generated expected product, and adds one more error unless the
 * HMR unit reports exactly two core mismatches.
 *
 * The C `int` is the newtype `int32`: every store of an arithmetic result into
 * a matrix is a proof obligation that the result fits, which is how signed
 * overflow (undefined behaviour in C) is excluded. The mismatch counter read
 * from the HMR unit is a parameter.
 */
module Tcls {
  import opened Stimuli
  import opened Clic
  import ClicTests

  newtype int32 = x: int | -0x8000_0000 <= x < 0x8000_0000

  /** `TCLS_RESYNCH_IRQ` */
  const TCLS_RESYNCH_IRQ: nat := 21

  /** One of the global `int [SIZE][SIZE]` matrices. */
  predicate Square(g: array2<int32>) {
    g.Length0 == SIZE && g.Length1 == SIZE
  }

  /** A `const int` array of the stimulus header: SIZE * SIZE values that fit in a C `int`. */
  predicate CArray(m: seq<int>) {
    |m| == SIZE * SIZE && forall t :: 0 <= t < |m| ==> IsInt32(m[t])
  }

  /** `matrix_init`: A and B receive the operands row by row, C is cleared. */
  method MatrixInit(gA: array2<int32>, gB: array2<int32>, gC: array2<int32>, ma: seq<int>, mb: seq<int>)
    requires Square(gA) && Square(gB) && Square(gC) && gA != gB && gA != gC && gB != gC
    requires CArray(ma) && CArray(mb)
    modifies gA, gB, gC
    ensures forall i, j :: 0 <= i < SIZE && 0 <= j < SIZE ==> gA[i, j] as int == At(ma, i, j)
    ensures forall i, j :: 0 <= i < SIZE && 0 <= j < SIZE ==> gB[i, j] as int == At(mb, i, j)
    ensures forall i, j :: 0 <= i < SIZE && 0 <= j < SIZE ==> gC[i, j] == 0
  {
    var i := 0;
    while i < SIZE
      invariant 0 <= i <= SIZE
      invariant forall i', j' :: 0 <= i' < i && 0 <= j' < SIZE ==> gA[i', j'] as int == At(ma, i', j')
      invariant forall i', j' :: 0 <= i' < i && 0 <= j' < SIZE ==> gB[i', j'] as int == At(mb, i', j')
      invariant forall i', j' :: 0 <= i' < i && 0 <= j' < SIZE ==> gC[i', j'] == 0
    {
      var j := 0;
      while j < SIZE
        invariant 0 <= j <= SIZE
        invariant forall i', j' :: 0 <= i' < i && 0 <= j' < SIZE ==> gA[i', j'] as int == At(ma, i', j')
        invariant forall i', j' :: 0 <= i' < i && 0 <= j' < SIZE ==> gB[i', j'] as int == At(mb, i', j')
        invariant forall i', j' :: 0 <= i' < i && 0 <= j' < SIZE ==> gC[i', j'] == 0
        invariant forall j' :: 0 <= j' < j ==> gA[i, j'] as int == At(ma, i, j') && gB[i, j'] as int == At(mb, i, j')
        invariant forall j' :: 0 <= j' < j ==> gC[i, j'] == 0
      {
        gA[i, j] := ma[i * SIZE + j] as int32;
        gB[i, j] := mb[i * SIZE + j] as int32;
        gC[i, j] := 0;
        j := j + 1;
      }
      i := i + 1;
    }
  }

  /**
   * The multiplication loop of `main`: every C[i][j] is cleared and then
   * accumulates A[i][k] * B[k][j] for k = 0 .. SIZE - 1. With operands from
   * the generator no product and no partial sum leaves the C `int` range, and
   * C ends as the product the generator computed.
   */
  method Multiply(gA: array2<int32>, gB: array2<int32>, gC: array2<int32>, ghost ma: seq<int>, ghost mb: seq<int>)
    requires Square(gA) && Square(gB) && Square(gC) && gC != gA && gC != gB
    requires Stimulus(ma) && Stimulus(mb)
    requires forall i, j :: 0 <= i < SIZE && 0 <= j < SIZE ==> gA[i, j] as int == At(ma, i, j)
    requires forall i, j :: 0 <= i < SIZE && 0 <= j < SIZE ==> gB[i, j] as int == At(mb, i, j)
    modifies gC
    ensures forall i, j :: 0 <= i < SIZE && 0 <= j < SIZE ==> gC[i, j] as int == Dot(ma, mb, i, j, SIZE)
  {
    var i := 0;
    while i < SIZE
      invariant 0 <= i <= SIZE
      invariant forall i', j' :: 0 <= i' < i && 0 <= j' < SIZE ==> gC[i', j'] as int == Dot(ma, mb, i', j', SIZE)
    {
      var j := 0;
      while j < SIZE
        invariant 0 <= j <= SIZE
        invariant forall i', j' :: 0 <= i' < i && 0 <= j' < SIZE ==> gC[i', j'] as int == Dot(ma, mb, i', j', SIZE)
        invariant forall j' :: 0 <= j' < j ==> gC[i, j'] as int == Dot(ma, mb, i, j', SIZE)
      {
        gC[i, j] := 0;
        var k := 0;
        while k < SIZE
          invariant 0 <= k <= SIZE
          invariant forall i', j' :: 0 <= i' < i && 0 <= j' < SIZE ==> gC[i', j'] as int == Dot(ma, mb, i', j', SIZE)
          invariant forall j' :: 0 <= j' < j ==> gC[i, j'] as int == Dot(ma, mb, i, j', SIZE)
          invariant gC[i, j] as int == Dot(ma, mb, i, j, k)
        {
          PartialSumsFitInt32(ma, mb, i, j, k);
          assert gA[i, k] as int == At(ma, i, k) && gB[k, j] as int == At(mb, k, j);
          gC[i, j] := gC[i, j] + gA[i, k] * gB[k, j];
          k := k + 1;
        }
        j := j + 1;
      }
      i := i + 1;
    }
  }

  /** One more error when a check fails. */
  function Err(failed: bool): nat {
    if failed then 1 else 0
  }

  /** The mismatching entries among the first j of row i. */
  function RowMismatches(gC: array2<int32>, mexp: seq<int>, i: nat, j: nat): nat
    reads gC
    requires Square(gC) && |mexp| == SIZE * SIZE && i < SIZE && j <= SIZE
  {
    if j == 0 then 0 else RowMismatches(gC, mexp, i, j - 1) + Err(gC[i, j - 1] as int != At(mexp, i, j - 1))
  }

  /** The mismatching entries in the first i rows. */
  function Mismatches(gC: array2<int32>, mexp: seq<int>, i: nat): nat
    reads gC
    requires Square(gC) && |mexp| == SIZE * SIZE && i <= SIZE
  {
    if i == 0 then 0 else Mismatches(gC, mexp, i - 1) + RowMismatches(gC, mexp, i - 1, SIZE)
  }

  /** A row prefix has no more mismatches than entries, and none exactly when it agrees. */
  lemma {:induction false} RowMismatchesMeaning(gC: array2<int32>, mexp: seq<int>, i: nat, j: nat)
    requires Square(gC) && |mexp| == SIZE * SIZE && i < SIZE && j <= SIZE
    ensures RowMismatches(gC, mexp, i, j) <= j
    ensures RowMismatches(gC, mexp, i, j) == 0 <==> forall j' :: 0 <= j' < j ==> gC[i, j'] as int == At(mexp, i, j')
  {
    if j > 0 {
      RowMismatchesMeaning(gC, mexp, i, j - 1);
    }
  }

  /** The first i rows have at most i * SIZE mismatches, and none exactly when they agree. */
  lemma {:induction false} MismatchesMeaning(gC: array2<int32>, mexp: seq<int>, i: nat)
    requires Square(gC) && |mexp| == SIZE * SIZE && i <= SIZE
    ensures Mismatches(gC, mexp, i) <= i * SIZE
    ensures Mismatches(gC, mexp, i) == 0 <==>
      forall i', j' :: 0 <= i' < i && 0 <= j' < SIZE ==> gC[i', j'] as int == At(mexp, i', j')
  {
    if i > 0 {
      MismatchesMeaning(gC, mexp, i - 1);
      RowMismatchesMeaning(gC, mexp, i - 1, SIZE);
    }
  }

  /**
   * `matrix_check`: the number of entries of C that differ from the expected
   * product; at most SIZE * SIZE, and 0 exactly when C equals it.
   */
  method MatrixCheck(gC: array2<int32>, mexp: seq<int>) returns (errors: nat)
    requires Square(gC) && CArray(mexp)
    ensures errors == Mismatches(gC, mexp, SIZE)
    ensures errors <= SIZE * SIZE
    ensures errors == 0 <==> forall i, j :: 0 <= i < SIZE && 0 <= j < SIZE ==> gC[i, j] as int == At(mexp, i, j)
  {
    errors := 0;
    var i := 0;
    while i < SIZE
      invariant 0 <= i <= SIZE
      invariant errors == Mismatches(gC, mexp, i)
    {
      var j := 0;
      while j < SIZE
        invariant 0 <= j <= SIZE
        invariant errors == Mismatches(gC, mexp, i) + RowMismatches(gC, mexp, i, j)
      {
        if gC[i, j] as int != mexp[i * SIZE + j] {
          errors := errors + 1;
        }
        j := j + 1;
      }
      i := i + 1;
    }
    MismatchesMeaning(gC, mexp, SIZE);
  }

  /**
   * `main` after the CLIC setup: initialise, multiply, check, then compare the
   * HMR mismatch counter with 2. It returns the number of wrong entries plus
   * one for a wrong counter, so it returns 0 exactly when the header's
   * expected product is the product of its operands and the counter reads 2.
   */
  method TclsMatMul(ma: seq<int>, mb: seq<int>, mexp: seq<int>, mismatchCount: int)
    returns (errors: nat, gC: array2<int32>)
    requires Stimulus(ma) && Stimulus(mb) && CArray(mexp)
    ensures Square(gC)
    ensures forall i, j :: 0 <= i < SIZE && 0 <= j < SIZE ==> gC[i, j] as int == Dot(ma, mb, i, j, SIZE)
    ensures errors == Mismatches(gC, mexp, SIZE) + Err(mismatchCount != 2)
    ensures errors == 0 <==>
      (forall i, j :: 0 <= i < SIZE && 0 <= j < SIZE ==> At(mexp, i, j) == Dot(ma, mb, i, j, SIZE)) && mismatchCount == 2
  {
    var gA := new int32[SIZE, SIZE];
    var gB := new int32[SIZE, SIZE];
    gC := new int32[SIZE, SIZE];
    assert CArray(ma) && CArray(mb) by {
      forall t | 0 <= t < SIZE * SIZE
        ensures IsInt32(ma[t]) && IsInt32(mb[t])
      {
      }
    }
    MatrixInit(gA, gB, gC, ma, mb);
    Multiply(gA, gB, gC, ma, mb);
    errors := MatrixCheck(gC, mexp);
    errors := errors + Err(mismatchCount != 2);
  }

  /**
   * The whole `main`: the CLIC setup of the resynchronisation interrupt (line
   * 21, vectored, edge-triggered, control 0xaa, enabled, threshold 0), then
   * the matrix test.
   */
  method TclsMain(n: nat, ma: seq<int>, mb: seq<int>, mexp: seq<int>, mismatchCount: int)
    returns (errors: nat, c: Clic)
    requires 32 <= n <= 0x1000
    requires Stimulus(ma) && Stimulus(mb) && CArray(mexp)
    ensures ClicTests.Quiet(c, {TCLS_RESYNCH_IRQ}) && c.lines[TCLS_RESYNCH_IRQ] == 0xaa03_0100 && c.mintthresh == 0
    ensures errors == 0 <==>
      (forall i, j :: 0 <= i < SIZE && 0 <= j < SIZE ==> At(mexp, i, j) == Dot(ma, mb, i, j, SIZE)) && mismatchCount == 2
  {
    c := ClicTests.TclsClicSetup(n);
    var gC;
    errors, gC := TclsMatMul(ma, mb, mexp, mismatchCount);
  }

  /**
   * The generator and the test program together: with the header the
   * generator writes, the program returns 0 exactly when the HMR unit counts
   * two mismatches.
   */
  method GenerateAndRun(draws: seq<int>, mismatchCount: int) returns (errors: nat)
    requires |draws| == 2 * SIZE * SIZE && forall t :: 0 <= t < |draws| ==> Operand(draws[t])
    ensures errors == 0 <==> mismatchCount == 2
    ensures errors <= 1
  {
    var ma, mb, mexp, header := GenStimuli(draws);
    assert CArray(mexp) by {
      forall t | 0 <= t < SIZE * SIZE
        ensures IsInt32(mexp[t])
      {
        assert At(mexp, t / SIZE, t % SIZE) == mexp[t];
      }
    }
    var gC;
    errors, gC := TclsMatMul(ma, mb, mexp, mismatchCount);
    MismatchesMeaning(gC, mexp, SIZE);
  }
}
