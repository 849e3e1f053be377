/**
 * 32-bit register words and the field operations the bring-up code performs
 * on them: extracting a field (`(x >> off) & mask`, the `FIELD_GET` idiom) and
 * the read-modify-write update `(v << off) | (x & ~(mask << off))`.
 *
 * Every field the model uses sits at a fixed position, so the facts about a
 * particular field are proved where its position is known; this module holds
 * the definitions and the plain bitwise algebra those proofs share.
 */
module Bits {

  /** A register field: a right-aligned `mask` of contiguous ones placed at bit `offset`. */
  datatype Field = Field(offset: bv32, mask: bv32)

  predicate InWord(f: Field) {
    f.offset < 32
  }

  /** The bits of the word that belong to `f`. */
  function Placed(f: Field): bv32
    requires InWord(f)
  {
    f.mask << f.offset
  }

  /** `v` fits in the field. */
  predicate Fits(f: Field, v: bv32) {
    v & !f.mask == 0
  }

  /** FIELD_GET: the value held in field `f` of `x`. */
  function Get(x: bv32, f: Field): bv32
    requires InWord(f)
  {
    (x & Placed(f)) >> f.offset
  }

  /** The read-modify-write update used throughout the tests: clear the field, OR in the new value. */
  function Put(x: bv32, f: Field, v: bv32): bv32
    requires InWord(f)
  {
    (v << f.offset) | (x & !Placed(f))
  }

  /** Whether bit `b` of `x` is set. */
  predicate Bit(x: bv32, b: bv32)
    requires b < 32
  {
    x & (1 << b) != 0
  }

  // The lemmas below are about placed values `w` and placed masks `p`, `q`:
  // shift-free, so they stay cheap for the solver wherever they are used.

  /** A placed value inside its placed mask is what the update leaves in that mask. */
  lemma KeepInside(w: bv32, x: bv32, p: bv32)
    requires w & !p == 0
    ensures (w | (x & !p)) & p == w
  {
  }

  /** The update leaves every bit outside its placed mask as it was. */
  lemma KeepOutside(w: bv32, x: bv32, p: bv32)
    requires w & !p == 0
    ensures (w | (x & !p)) & !p == x & !p
  {
  }

  /** The update of one mask leaves a disjoint mask as it was. */
  lemma KeepDisjoint(w: bv32, x: bv32, p: bv32, q: bv32)
    requires w & !p == 0 && p & q == 0
    ensures (w | (x & !p)) & q == x & q
  {
  }

  /** The C `int32_t` reading of a 32-bit pattern (two's complement). */
  function ToInt32(x: bv32): int
  {
    if x < 0x8000_0000 then x as int else x as int - 0x1_0000_0000
  }

  /**
   * The sign extension written out in the SCMI macros: take a 5-bit field as
   * an `int` and, when its bit 4 is set, OR in GENMASK(31, 5).
   */
  function SignExtend5(field: bv32): int
    requires field < 32
  {
    var bits := if field & 0x10 != 0 then field | 0xFFFF_FFE0 else field;
    ToInt32(bits)
  }

  /** The sign extension yields the field's two's-complement value, always in [-16, 15]. */
  lemma SignExtend5Value(field: bv32)
    requires field < 32
    ensures SignExtend5(field) == if field < 16 then field as int else field as int - 32
    ensures -16 <= SignExtend5(field) <= 15
  {
    if field & 0x10 != 0 {
      assert 16 <= field;
      assert (field | 0xFFFF_FFE0) as int == field as int + 0xFFFF_FFE0 by {
        assert field | 0xFFFF_FFE0 == field + 0xFFFF_FFE0;
      }
    } else {
      assert field < 16;
    }
  }

  /** A product of two non-negative numbers is non-negative: the nonlinear step the address and bound proofs share. */
  lemma NonNegativeProduct(x: int, y: int)
    requires 0 <= x && 0 <= y
    ensures 0 <= x * y
  {
  }
}
