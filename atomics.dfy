/**
 * One 32-bit memory word driven by the RISC-V "A" extension instructions that
 * runtime_atops exercises: LR.W/SC.W (section 8.2 of the RISC-V Unprivileged
 * ISA) and the AMOs (section 8.4), all single-hart.
 *
 * The word carries the hart's reservation. LR.W registers it; SC.W stores only
 * while it is held, answers 0 on success and a non-zero code on failure, and
 * releases it either way. The model also lets every other write to the word
 * (a plain store or an AMO) release it. That is a modelling choice: the test
 * never writes the word between its LR.W and its SC.W, so no result below
 * depends on it.
 */
module Atomics {

  /** The AMO operations the test uses; `__atomic_sub_fetch` is AMOADD of the negated operand. */
  datatype AmoOp = Swap | Add | And | Or | Xor | Maxu | Minu

  /** The value an AMO leaves in memory, from the old value and the operand (unsigned 32-bit). */
  function AmoResult(op: AmoOp, old_: bv32, operand: bv32): bv32 {
    match op
    case Swap => operand
    case Add => old_ + operand
    case And => old_ & operand
    case Or => old_ | operand
    case Xor => old_ ^ operand
    case Maxu => if old_ < operand then operand else old_
    case Minu => if operand < old_ then operand else old_
  }

  /** The mask `1 << 1` the test uses on bit 1. */
  const BIT1: bv32 := 2

  /** The larger of two words is no smaller than either. */
  lemma UpperBound(v: bv32, a: bv32, m: bv32)
    requires m == if v < a then a else v
    ensures v <= m && a <= m
  {
    if v < a { assert a > v; } else { }
  }

  /** The smaller of two words is no larger than either. */
  lemma LowerBound(v: bv32, a: bv32, m: bv32)
    requires m == if a < v then a else v
    ensures m <= v && m <= a
  {
    if a < v { assert a < v; } else { }
  }

  /** AMOMAXU stores one of its two values, the unsigned larger one. */
  lemma MaxuIsMaximum(v: bv32, a: bv32)
    ensures v <= AmoResult(Maxu, v, a) && a <= AmoResult(Maxu, v, a)
    ensures AmoResult(Maxu, v, a) == v || AmoResult(Maxu, v, a) == a
  {
    UpperBound(v, a, AmoResult(Maxu, v, a));
  }

  /** AMOMINU stores one of its two values, the unsigned smaller one. */
  lemma MinuIsMinimum(v: bv32, a: bv32)
    ensures AmoResult(Minu, v, a) <= v && AmoResult(Minu, v, a) <= a
    ensures AmoResult(Minu, v, a) == v || AmoResult(Minu, v, a) == a
  {
    LowerBound(v, a, AmoResult(Minu, v, a));
  }

  /** AMOMAXU with the successor stores the successor, unless the word is all ones. */
  lemma MaxuSuccessor(v: bv32)
    requires v != 0xffff_ffff
    ensures AmoResult(Maxu, v, v + 1) == v + 1
  {
    assert v < v + 1;
  }

  /** AMOMINU with the predecessor stores the predecessor, unless the word is zero. */
  lemma MinuPredecessor(v: bv32)
    requires v != 0
    ensures AmoResult(Minu, v, v - 1) == v - 1
  {
    assert v - 1 < v;
  }

  /** `__atomic_add_fetch` of a followed by `__atomic_sub_fetch` of a restores the word, wrap-around included. */
  lemma AddSubRestores(v: bv32, a: bv32)
    ensures AmoResult(Add, AmoResult(Add, v, a), -a) == v
  {
    assert AmoResult(Add, v, a) == v + a;
    assert AmoResult(Add, v + a, -a) == v + a + -a;
  }

  /** AMOAND with ~(1 << 1) clears bit 1 and keeps every other bit. */
  lemma AndClearsBit1(v: bv32)
    ensures AmoResult(And, v, !BIT1) & !BIT1 == v & !BIT1 && AmoResult(And, v, !BIT1) & BIT1 == 0
  {
    assert AmoResult(And, v, !BIT1) == v & !2;
  }

  /** AMOOR with 1 << 1 sets bit 1 and keeps every other bit. */
  lemma OrSetsBit1(v: bv32)
    ensures AmoResult(Or, v, BIT1) & !BIT1 == v & !BIT1 && AmoResult(Or, v, BIT1) & BIT1 == BIT1
  {
    assert AmoResult(Or, v, BIT1) == v | 2;
  }

  /** AMOXOR with 1 << 1 toggles bit 1 and keeps every other bit. */
  lemma XorTogglesBit1(v: bv32)
    ensures AmoResult(Xor, v, BIT1) & !BIT1 == v & !BIT1
    ensures AmoResult(Xor, v, BIT1) & BIT1 == (v & BIT1) ^ BIT1
  {
    assert AmoResult(Xor, v, BIT1) == v ^ 2;
  }

  class Cell {
    var word: bv32
    /** the hart holds a reservation on this word */
    var reserved: bool

    constructor (init: bv32)
      ensures word == init && !reserved
    {
      word, reserved := init, false;
    }

    /** A plain store `*addr = x`. */
    method Store(x: bv32)
      modifies this
      ensures word == x && !reserved
    {
      word, reserved := x, false;
    }

    /** LR.W: the current word, with a reservation registered on it. */
    method LoadReserved() returns (data: bv32)
      modifies this`reserved
      ensures data == word && reserved
    {
      data := word;
      reserved := true;
    }

    /**
     * SC.W: stores `data` and answers 0 exactly when the reservation is held;
     * otherwise answers 1 and leaves the word alone. The reservation is gone
     * afterwards in both cases.
     */
    method StoreConditional(data: bv32) returns (err: bv32)
      modifies this
      ensures (err == 0) == old(reserved)
      ensures word == (if old(reserved) then data else old(word))
      ensures !reserved
    {
      if reserved {
        word, err := data, 0;
      } else {
        err := 1;
      }
      reserved := false;
    }

    /** An AMO: answers the old word and stores the operation's result. */
    method Amo(op: AmoOp, operand: bv32) returns (prev: bv32)
      modifies this
      ensures prev == old(word) && word == AmoResult(op, old(word), operand) && !reserved
    {
      prev := word;
      word, reserved := AmoResult(op, word, operand), false;
    }
  }

  /** One more error when a check fails. */
  function Err(failed: bool): nat {
    if failed then 1 else 0
  }

  /** The values the word holds after each step of `test_atomics`. */
  const ExpectedTrace: seq<bv32> := [0, 42, 43, 42, 40, 42, 40, 41, 40, 42]

  /**
   * `test_atomics`: every step is checked against an independently computed
   * `expected_val`, and every mismatch adds one to the error count. On this
   * cell no check fails, the word passes through the values of
   * `ExpectedTrace`, and it ends holding 42.
   */
  method TestAtomics(c: Cell) returns (nerrors: nat, trace: seq<bv32>)
    modifies c
    ensures nerrors == 0 && trace == ExpectedTrace
    ensures c.word == 42 && !c.reserved
  {
    nerrors := 0;
    var dummy: bv32 := 42;
    c.Store(0);
    trace := [c.word];

    // SC without a reservation: fails, word unchanged
    var expected := c.word;
    var tmp := c.StoreConditional(dummy);
    nerrors := nerrors + Err(tmp == 0);
    nerrors := nerrors + Err(c.word != expected);

    // LR/SC
    expected := c.word;
    tmp := c.LoadReserved();
    nerrors := nerrors + Err(tmp != expected);
    expected := dummy;
    tmp := c.StoreConditional(dummy);
    nerrors := nerrors + Err(tmp != 0);
    nerrors := nerrors + Err(c.word != expected);
    trace := trace + [c.word];

    // AMOADD, AMOSUB
    expected := expected + 1;
    tmp := c.Amo(Add, 1);
    nerrors := nerrors + Err(c.word != expected);
    trace := trace + [c.word];
    expected := expected - 1;
    tmp := c.Amo(Add, -1);
    nerrors := nerrors + Err(c.word != expected);
    trace := trace + [c.word];

    // AMOAND, AMOOR, AMOXOR on bit 1
    expected := expected & !BIT1;
    tmp := c.Amo(And, !BIT1);
    nerrors := nerrors + Err(c.word != expected);
    trace := trace + [c.word];
    expected := expected | BIT1;
    tmp := c.Amo(Or, BIT1);
    nerrors := nerrors + Err(c.word != expected);
    trace := trace + [c.word];
    expected := expected ^ BIT1;
    tmp := c.Amo(Xor, BIT1);
    nerrors := nerrors + Err(c.word != expected);
    trace := trace + [c.word];

    // AMOMAXU with the successor, AMOMINU with the predecessor
    var operand := expected + 1;
    expected := if expected > operand then expected else operand;
    tmp := c.Amo(Maxu, operand);
    nerrors := nerrors + Err(c.word != expected);
    trace := trace + [c.word];
    operand := expected - 1;
    expected := if expected < operand then expected else operand;
    tmp := c.Amo(Minu, operand);
    nerrors := nerrors + Err(c.word != expected);
    trace := trace + [c.word];

    // AMOSWAP
    expected := dummy;
    tmp := c.Amo(Swap, dummy);
    nerrors := nerrors + Err(c.word != expected);
    trace := trace + [c.word];
  }

  /**
   * `main` as written: it passes `&local` and `&ext`, the addresses of the two
   * pointer variables, so the words tested are the variables' own storage
   * (`localVar`, `extVar`); the allocated words are never touched, both pointers
   * end up overwritten with 42, and `main` returns 0 whatever the error count.
   */
  method AtopsMain(localVar: Cell, extVar: Cell) returns (ret: int, nerrors: nat)
    modifies localVar, extVar
    ensures ret == 0 && nerrors == 0
    ensures localVar.word == 42 && extVar.word == 42
  {
    nerrors := 0;
    var e, t := TestAtomics(localVar);
    nerrors := nerrors + e;
    e, t := TestAtomics(extVar);
    nerrors := nerrors + e;
    ret := MainExitAsWritten(nerrors);
  }

  /** The exit code `main` returns as written: 0 whatever the error count. */
  function MainExitAsWritten(nerrors: nat): (r: int)
    ensures r == 0
  {
    0
  }

  /** The exit code the test evidently intends: non-zero exactly when an error was counted. */
  function MainExit(nerrors: nat): (r: int)
    ensures r == 0 <==> nerrors == 0
  {
    if nerrors == 0 then 0 else 1
  }

  /**
   * The exit code as written agrees with the intended one exactly on runs
   * without errors: any run with a failed check still exits 0.
   */
  lemma MainExitHidesErrors(nerrors: nat)
    ensures MainExitAsWritten(nerrors) == MainExit(nerrors) <==> nerrors == 0
    ensures nerrors > 0 ==> MainExitAsWritten(nerrors) == 0 && MainExit(nerrors) != 0
  {
  }

  /**
   * `main` as evidently intended: the allocated words themselves are tested and
   * the exit code reports the errors.
   */
  method AtopsMainIntended(local: Cell, ext: Cell) returns (ret: int, nerrors: nat)
    modifies local, ext
    ensures nerrors == 0 && ret == MainExit(nerrors) && ret == 0
    ensures ext.word == 42 && (local != ext ==> local.word == 42)
  {
    nerrors := 0;
    var e, t := TestAtomics(local);
    nerrors := nerrors + e;
    e, t := TestAtomics(ext);
    nerrors := nerrors + e;
    ret := MainExit(nerrors);
  }
}
