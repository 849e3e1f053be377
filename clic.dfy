/**
 * The Core-Local Interrupt Controller (CLIC) as the bring-up tests drive it,
 * together with the CLIC-related CSRs of the hart.
 *
 * Memory-mapped side: one 32-bit `clicint[i]` word per interrupt line holding
 * the pending bit (IP), the enable bit (IE), the attribute fields SHV
 * (selective hardware vectoring) and TRIG (trigger type) and the 8-bit
 * control byte CTL; the global `mcliccfg` word with the number of level bits
 * `nlbits`; and the `clicmnxticonf` word that enables the mnxti extension.
 *
 * CSR side: `mintthresh` (only its low 8 bits are writable), `mintstatus`
 * (read-only, the current interrupt level `mil` in bits 31:24), `mcause` in
 * its CLIC layout, and `mstatus`, whose MPP and MPIE fields are the same
 * state as `mcause`'s MPP and MPIE fields.
 */
module Clic {
  import opened Bits

  // ---------------------------------------------------------------------------
  // Register layout.  Field positions follow the CLIC register map: the four
  // bytes of `clicint[i]` are clicintip, clicintie, clicintattr and clicintctl.
  // ---------------------------------------------------------------------------

  const IP: Field := Field(0, 1)
  const IE: Field := Field(8, 1)
  const SHV: Field := Field(16, 1)
  const TRIG: Field := Field(17, 3)
  const CTL: Field := Field(24, 0xff)

  /** The fields of a `clicint[i]` word that the tests write. */
  predicate LineField(f: Field) {
    f == IP || f == IE || f == SHV || f == TRIG || f == CTL
  }

  /** `mcliccfg.nlbits` */
  const NLBITS: Field := Field(0, 0xf)
  /** the enable bit of `clicmnxticonf` */
  const MNXTI_ENABLE: Field := Field(0, 1)

  /** TRIG bit 0 selects edge triggering (bit 1 is the polarity). */
  predicate EdgeTriggered(x: bv32) {
    Get(x, TRIG) & 1 == 1
  }

  // ---------------------------------------------------------------------------
  // Read-modify-write of one field of a line register.
  // ---------------------------------------------------------------------------

  lemma LineFieldsDisjoint(f: Field, g: Field)
    requires LineField(f) && LineField(g) && f != g
    ensures Placed(f) & Placed(g) == 0
  {
  }

  /** A value that fits a line field, shifted into place, stays inside the field and shifts back. */
  lemma PlacedValue(f: Field, v: bv32)
    requires LineField(f) && Fits(f, v)
    ensures (v << f.offset) & !Placed(f) == 0
    ensures (v << f.offset) >> f.offset == v
  {
    if f == IP {} else if f == IE {} else if f == SHV {} else if f == TRIG {} else {}
  }

  /**
   * `(v << off) | (x & ~(mask << off))` sets the field to `v` and leaves every
   * bit outside the field as it was.
   */
  lemma UpdateSetsField(x: bv32, f: Field, v: bv32)
    requires LineField(f) && Fits(f, v)
    ensures Get(Put(x, f, v), f) == v
    ensures Put(x, f, v) & !Placed(f) == x & !Placed(f)
  {
    assert Get(Put(x, f, v), f) == v by {
      if f == IP {} else if f == IE {} else if f == SHV {} else if f == TRIG {} else {}
    }
    PlacedValue(f, v);
    KeepOutside(v << f.offset, x, Placed(f));
  }

  /** Updating one field of a line register leaves every other field's value unchanged. */
  lemma UpdateKeepsOtherField(x: bv32, f: Field, v: bv32, g: Field)
    requires LineField(f) && LineField(g) && f != g && Fits(f, v)
    ensures Get(Put(x, f, v), g) == Get(x, g)
  {
    if f == IP {} else if f == IE {} else if f == SHV {} else if f == TRIG {} else {}
  }

  /** Repeating a field update changes nothing more. */
  lemma UpdateIdempotent(x: bv32, f: Field, v: bv32)
    requires LineField(f) && Fits(f, v)
    ensures Put(Put(x, f, v), f, v) == Put(x, f, v)
  {
    if f == IP {} else if f == IE {} else if f == SHV {} else if f == TRIG {} else {}
  }

  /** Writing a field with the value it already holds leaves the register as it was. */
  lemma UpdateWithCurrent(x: bv32, f: Field)
    requires LineField(f)
    ensures Put(x, f, Get(x, f)) == x
  {
    if f == IP {} else if f == IE {} else if f == SHV {} else if f == TRIG {} else {}
  }

  // ---------------------------------------------------------------------------
  // Interrupt levels.
  // ---------------------------------------------------------------------------

  /** The level bits of an 8-bit clicintctl value: its top `nlbits` bits (nlbits above 8 acts as 8). */
  function LevelMask(nlbits: bv32): bv32
  {
    var n := if nlbits > 8 then 8 else nlbits;
    (0xff00 >> n) & 0xff
  }

  /**
   * The interrupt level encoded by clicintctl: its top `nlbits` bits,
   * with the remaining low bits read as ones.
   */
  function Level(ctl: bv32, nlbits: bv32): bv32
  {
    (ctl & LevelMask(nlbits)) | (0xff & !LevelMask(nlbits))
  }

  /**
   * A level is a byte that agrees with the control byte on the level bits and
   * has every other bit set.
   */
  lemma LevelBits(ctl: bv32, nlbits: bv32)
    requires ctl <= 0xff
    ensures Level(ctl, nlbits) <= 0xff
    ensures Level(ctl, nlbits) & LevelMask(nlbits) == ctl & LevelMask(nlbits)
    ensures Level(ctl, nlbits) & !LevelMask(nlbits) & 0xff == 0xff & !LevelMask(nlbits)
  {
  }

  /** A higher control byte never encodes a lower level. */
  lemma LevelMonotone(c: bv32, d: bv32, nlbits: bv32)
    requires c <= d <= 0xff
    ensures Level(c, nlbits) <= Level(d, nlbits)
  {
  }

  /**
   * On every control byte and threshold the tests use, with nlbits = 4, comparing
   * the level against the threshold decides the same as comparing the raw byte.
   */
  lemma TestedLevelsMatchRawBytes(ctl: bv32, thresh: bv32)
    requires ctl in {0xaa, 0x88, 0x33, 0x11} && thresh in {0xff, 0x22, 0x0b, 0}
    ensures (Level(ctl, 4) > thresh) == (ctl > thresh)
  {
  }

  // ---------------------------------------------------------------------------
  // mcause (CLIC mode layout) and mstatus.
  // ---------------------------------------------------------------------------

  const MCAUSE_INTERRUPT: Field := Field(31, 1)
  const MCAUSE_MINHV: Field := Field(30, 1)
  const MCAUSE_MPP: Field := Field(28, 3)
  const MCAUSE_MPIE: Field := Field(27, 1)
  const MCAUSE_MPIL: Field := Field(16, 0xff)
  const MCAUSE_EXCODE: Field := Field(0, 0xfff)
  const MINTSTATUS_MIL: Field := Field(24, 0xff)

  const MSTATUS_MIE: bv32 := 1 << 3
  const MSTATUS_MPIE: bv32 := 1 << 7
  const MSTATUS_MPP: bv32 := 3 << 11
  /** The interrupt-enable stack MIE/MPIE that taking an interrupt and `mret` shift. */
  const MSTATUS_STACK: bv32 := MSTATUS_MIE | MSTATUS_MPIE
  const MSTATUS_MPP_FIELD: Field := Field(11, 3)

  /** MPP, hardwired to machine mode, reads 3 through the mstatus field. */
  lemma MppReadsMachine(x: bv32)
    requires x & MSTATUS_MPP == MSTATUS_MPP
    ensures Get(x, MSTATUS_MPP_FIELD) == PRV_M
  {
  }

  /** Taking an interrupt: MPIE receives MIE and MIE is cleared. */
  function TrapEnter(ms: bv32): bv32 {
    (ms & !MSTATUS_STACK) | (if ms & MSTATUS_MIE != 0 then MSTATUS_MPIE else 0)
  }

  /** `mret`: MIE receives MPIE and MPIE is set. */
  function TrapReturn(ms: bv32): bv32 {
    (ms & !MSTATUS_STACK) | MSTATUS_MPIE | (if ms & MSTATUS_MPIE != 0 then MSTATUS_MIE else 0)
  }

  /** mstatus with its MPIE bit set to `p`, as a write of mcause.MPIE leaves it. */
  function WithMpie(ms: bv32, p: bool): bv32 {
    (ms & !MSTATUS_MPIE) | (if p then MSTATUS_MPIE else 0)
  }

  /** Writing MPIE sets that bit and no other. */
  lemma WithMpieBits(ms: bv32, p: bool)
    ensures (WithMpie(ms, p) & MSTATUS_MPIE != 0) == p
    ensures WithMpie(ms, p) & !MSTATUS_MPIE == ms & !MSTATUS_MPIE
    ensures WithMpie(ms, p) & MSTATUS_MPP == ms & MSTATUS_MPP
  {
  }

  /** Taking an interrupt disables interrupts, remembers whether they were enabled, and touches nothing else. */
  lemma TrapEnterStack(ms: bv32)
    ensures TrapEnter(ms) & MSTATUS_MIE == 0
    ensures (TrapEnter(ms) & MSTATUS_MPIE != 0) == (ms & MSTATUS_MIE != 0)
    ensures TrapEnter(ms) & !MSTATUS_STACK == ms & !MSTATUS_STACK
  {
  }

  /** `mret` re-enables interrupts as they were before the trap, sets MPIE and touches nothing else. */
  lemma TrapReturnStack(ms: bv32)
    ensures (TrapReturn(ms) & MSTATUS_MIE != 0) == (ms & MSTATUS_MPIE != 0)
    ensures TrapReturn(ms) & MSTATUS_MPIE != 0
    ensures TrapReturn(ms) & !MSTATUS_STACK == ms & !MSTATUS_STACK
  {
  }

  /** A trap followed by `mret` restores the interrupt-enable bit. */
  lemma TrapRoundTrip(ms: bv32)
    ensures TrapReturn(TrapEnter(ms)) & MSTATUS_MIE == ms & MSTATUS_MIE
    ensures TrapReturn(TrapEnter(ms)) & !MSTATUS_STACK == ms & !MSTATUS_STACK
  {
  }

  /** The only privilege mode of the hart, machine mode. */
  const PRV_M: bv32 := 3

  datatype Mcause = Mcause(interrupt: bool, minhv: bool, mpp: bv32, mpie: bool, mpil: bv32, excode: bv32)

  predicate WellFormed(m: Mcause) {
    m.mpp <= 3 && m.mpil <= 0xff && m.excode <= 0xfff
  }

  function B(b: bool): bv32 {
    if b then 1 else 0
  }

  /** The mcause word the hart presents; each field is truncated to its width. */
  function EncodeMcause(m: Mcause): bv32
  {
    (B(m.interrupt) << 31) | (B(m.minhv) << 30) | ((m.mpp & 3) << 28) | (B(m.mpie) << 27)
    | ((m.mpil & 0xff) << 16) | (m.excode & 0xfff)
  }

  /** The decoding `print_clic_csr_state` performs on a raw mcause word. */
  function DecodeMcause(x: bv32): (m: Mcause)
    ensures WellFormed(m)
  {
    Mcause((x >> 31) & 1 == 1, (x >> 30) & 1 == 1, (x >> 28) & 3, (x >> 27) & 1 == 1, (x >> 16) & 0xff,
           x & 0xfff)
  }

  /** The mcause fields occupy pairwise disjoint bit ranges. */
  lemma McauseFieldsDisjoint()
    ensures Placed(MCAUSE_INTERRUPT) & Placed(MCAUSE_MINHV) == 0
    ensures (Placed(MCAUSE_INTERRUPT) | Placed(MCAUSE_MINHV)) & Placed(MCAUSE_MPP) == 0
    ensures (Placed(MCAUSE_INTERRUPT) | Placed(MCAUSE_MINHV) | Placed(MCAUSE_MPP)) & Placed(MCAUSE_MPIE) == 0
    ensures (Placed(MCAUSE_INTERRUPT) | Placed(MCAUSE_MINHV) | Placed(MCAUSE_MPP) | Placed(MCAUSE_MPIE))
            & Placed(MCAUSE_MPIL) == 0
    ensures (Placed(MCAUSE_INTERRUPT) | Placed(MCAUSE_MINHV) | Placed(MCAUSE_MPP) | Placed(MCAUSE_MPIE)
             | Placed(MCAUSE_MPIL)) & Placed(MCAUSE_EXCODE) == 0
  {
  }

  /** The low twelve bits of mcause are the exception code; nothing else reaches them. */
  lemma McauseExcode(m: Mcause)
    ensures EncodeMcause(m) & 0xfff == m.excode & 0xfff
  {
  }

  /** An exception code stored as a number reads back unchanged through the twelve-bit field. */
  lemma ExcodeNumber(e: bv32)
    requires e <= 0xfff
    ensures e as nat < 0x1000
  {
  }

  /** Decoding an encoded mcause returns its fields. */
  lemma McauseRoundTrip(m: Mcause)
    requires WellFormed(m)
    ensures DecodeMcause(EncodeMcause(m)) == m
  {
  }

  // ---------------------------------------------------------------------------
  // The controller and the hart's CLIC CSRs.
  // ---------------------------------------------------------------------------

  datatype Option<T> = None | Some(value: T)

  class Clic {
    /** clicint[i] for every line i */
    var lines: seq<bv32>
    var mcliccfg: bv32
    var mnxticonf: bv32

    var mintthresh: bv32
    /** mintstatus.mil: the level of the interrupt being handled, 0 in thread code */
    var mil: bv32
    /** mstatus; its MPIE bit is also mcause.MPIE and its MPP field reads 3 */
    var mstatus: bv32
    var interrupt: bool
    var minhv: bool
    var mpil: bv32
    /** mcause.excode: the number of the line being handled */
    var excode: nat

    predicate Valid()
      reads this
    {
      && mintthresh <= 0xff
      && mil <= 0xff
      && mpil <= 0xff
      && excode < 0x1000
      && |lines| <= 0x1000
      && mstatus & MSTATUS_MPP == MSTATUS_MPP
    }

    /**
     * Reset state: every register zero, in thread code at level 0, with machine
     * interrupts enabled by the runtime before `main` starts.
     */
    constructor (n: nat)
      requires n <= 0x1000
      ensures Valid()
      ensures |lines| == n && forall i :: 0 <= i < n ==> lines[i] == 0
      ensures mcliccfg == 0 && mnxticonf == 0 && mintthresh == 0 && mil == 0
      ensures mstatus == MSTATUS_MPP | MSTATUS_MIE
      ensures !interrupt && !minhv && mpil == 0 && excode == 0
    {
      lines := seq(n, _ => 0);
      mcliccfg, mnxticonf := 0, 0;
      mintthresh, mil := 0, 0;
      mstatus := MSTATUS_MPP | MSTATUS_MIE;
      interrupt, minhv, mpil, excode := false, false, 0, 0;
    }

    // ----- memory-mapped registers ------------------------------------------

    method ReadLine(i: nat) returns (x: bv32)
      requires i < |lines|
      ensures x == lines[i]
    {
      x := lines[i];
    }

    method WriteLine(i: nat, x: bv32)
      requires i < |lines|
      modifies this`lines
      ensures lines == old(lines)[i := x]
    {
      lines := lines[i := x];
    }

    /** `writew((v << off) | (readw(clicint[i]) & ~(mask << off)), clicint[i])` */
    method UpdateLineField(i: nat, f: Field, v: bv32)
      requires i < |lines| && LineField(f) && Fits(f, v)
      modifies this`lines
      ensures lines == old(lines)[i := Put(old(lines)[i], f, v)]
    {
      var x := ReadLine(i);
      WriteLine(i, Put(x, f, v));
    }

    /** A whole-register write of mcliccfg. */
    method WriteMcliccfg(x: bv32)
      modifies this`mcliccfg
      ensures mcliccfg == x
    {
      mcliccfg := x;
    }

    /** `writew(1 << CLICMNXTICONF_BIT, clicmnxticonf)`: only the enable bit ends up set. */
    method EnableMnxti()
      modifies this`mnxticonf
      ensures Get(mnxticonf, MNXTI_ENABLE) == 1
      ensures mnxticonf & !Placed(MNXTI_ENABLE) == 0
    {
      mnxticonf := 1 << MNXTI_ENABLE.offset;
    }

    // ----- CSRs -------------------------------------------------------------

    method WriteMintthresh(x: bv32)
      modifies this`mintthresh
      ensures mintthresh == x & 0xff
    {
      mintthresh := x & 0xff;
    }

    method ReadMintthresh() returns (x: bv32)
      ensures x == mintthresh
    {
      x := mintthresh;
    }

    function Mintstatus(): bv32
      reads this
    {
      mil << MINTSTATUS_MIL.offset
    }

    method ReadMintstatus() returns (x: bv32)
      requires Valid()
      ensures x == Mintstatus()
      ensures Get(x, MINTSTATUS_MIL) == mil
    {
      x := mil << 24;
    }

    /** mintstatus is read-only: a write is ignored. */
    method WriteMintstatus(x: bv32)
      ensures Mintstatus() == old(Mintstatus())
    {
    }

    function McauseFields(): Mcause
      reads this
    {
      Mcause(interrupt, minhv, Get(mstatus, MSTATUS_MPP_FIELD), Mpie(), mpil, (excode % 0x1000) as bv32)
    }

    method ReadMcause() returns (x: bv32)
      requires Valid()
      ensures x == EncodeMcause(McauseFields())
    {
      x := EncodeMcause(McauseFields());
    }

    /**
     * `csr_write(mcause, EncodeMcause(m))`; mcause is a read-write register
     * (priv_1_11.h:74). interrupt, minhv, mpil and excode take the fields of
     * `m`, its MPIE goes to mstatus, and MPP stays hardwired to machine mode.
     */
    method WriteMcause(m: Mcause)
      requires Valid() && WellFormed(m)
      modifies this`interrupt, this`minhv, this`mpil, this`excode, this`mstatus
      ensures Valid()
      ensures interrupt == m.interrupt && minhv == m.minhv && mpil == m.mpil && excode == m.excode as nat
      ensures mstatus == WithMpie(old(mstatus), m.mpie) && Mpie() == m.mpie
    {
      ExcodeNumber(m.excode);
      WithMpieBits(mstatus, m.mpie);
      interrupt, minhv, mpil, excode := m.interrupt, m.minhv, m.mpil, m.excode as nat;
      mstatus := WithMpie(mstatus, m.mpie);
    }

    /** mstatus.MIE */
    predicate Mie()
      reads this
    {
      mstatus & MSTATUS_MIE != 0
    }

    /** mstatus.MPIE, which mcause.MPIE reads as well */
    predicate Mpie()
      reads this
    {
      mstatus & MSTATUS_MPIE != 0
    }

    /** `csr_read_set(mstatus, bits)`; MPP already reads 3 and stays so. */
    method ReadSetMstatus(bits: bv32) returns (prev: bv32)
      requires Valid()
      modifies this`mstatus
      ensures Valid()
      ensures prev == old(mstatus) && mstatus == old(mstatus) | bits
    {
      prev := mstatus;
      mstatus := mstatus | bits;
    }

    /** `csr_read_clear(mstatus, bits)`; MPP is hardwired to machine mode and keeps reading 3. */
    method ReadClearMstatus(bits: bv32) returns (prev: bv32)
      requires Valid()
      modifies this`mstatus
      ensures Valid()
      ensures prev == old(mstatus) && mstatus == (old(mstatus) & !bits) | MSTATUS_MPP
    {
      prev := mstatus;
      mstatus := (mstatus & !bits) | MSTATUS_MPP;
    }

    // ----- interrupt dispatch ----------------------------------------------

    function LineLevel(i: nat): bv32
      requires i < |lines|
      reads this
    {
      Level(Get(lines[i], CTL), Get(mcliccfg, NLBITS))
    }

    /** Enabled, pending and above the threshold. */
    predicate Eligible(i: nat)
      requires i < |lines|
      reads this
    {
      Get(lines[i], IE) == 1 && Get(lines[i], IP) == 1 && LineLevel(i) > mintthresh
    }

    /** The hart takes an eligible line only when interrupts are enabled and its level exceeds mil. */
    predicate CanTake(i: nat)
      requires i < |lines|
      reads this
    {
      Mie() && Eligible(i) && LineLevel(i) > mil
    }

    /** The priority the controller arbitrates on: the level of a takeable line, -1 for the others. */
    function Rank(i: nat): (r: int)
      requires i < |lines|
      reads this
      ensures r >= 0 <==> CanTake(i)
    {
      if CanTake(i) then LineLevel(i) as int else -1
    }

    /** The line the controller presents to the hart: a takeable line of the highest level. */
    method Arbitrate() returns (r: Option<nat>)
      ensures r.Some? ==> r.value < |lines| && CanTake(r.value)
      ensures r.Some? ==> forall j :: 0 <= j < |lines| ==> Rank(j) <= Rank(r.value)
      ensures r.None? ==> forall j :: 0 <= j < |lines| ==> !CanTake(j)
    {
      r := None;
      var best := -1;
      var i := 0;
      while i < |lines|
        invariant 0 <= i <= |lines|
        invariant r.None? ==> best == -1
        invariant r.Some? ==> r.value < i && CanTake(r.value) && best == Rank(r.value)
        invariant forall j :: 0 <= j < i ==> Rank(j) <= best
      {
        var rank := Rank(i);
        if rank > best {
          r, best := Some(i), rank;
        }
        i := i + 1;
      }
      forall j | 0 <= j < |lines| && r.None?
        ensures !CanTake(j)
      {
        assert Rank(j) <= best;
      }
    }

    /**
     * The hart takes line `i`: the previous level goes to mcause.mpil and MIE to
     * MPIE, mil becomes the line's level, interrupts are disabled, mcause names
     * the line, and an edge-triggered line stops being pending.
     */
    method Take(i: nat)
      requires Valid() && i < |lines| && CanTake(i)
      modifies this
      ensures Valid()
      ensures lines == old(lines)[i := if EdgeTriggered(old(lines)[i]) then Put(old(lines)[i], IP, 0) else old(lines)[i]]
      ensures mcliccfg == old(mcliccfg) && mnxticonf == old(mnxticonf) && mintthresh == old(mintthresh)
      ensures mil == old(LineLevel(i)) && mpil == old(mil)
      ensures mstatus == TrapEnter(old(mstatus))
      ensures interrupt && !minhv && excode == i
    {
      var lvl := LineLevel(i);
      if EdgeTriggered(lines[i]) {
        lines := lines[i := Put(lines[i], IP, 0)];
      }
      mpil, mil := mil, lvl;
      TrapEnterStack(mstatus);
      mstatus := TrapEnter(mstatus);
      interrupt, minhv, excode := true, false, i;
    }

    /** `mret`: mil comes back from mpil and MIE from MPIE; MPIE becomes 1. */
    method Mret()
      requires Valid()
      modifies this`mil, this`mstatus
      ensures Valid()
      ensures mil == old(mpil) && mstatus == TrapReturn(old(mstatus))
    {
      mil := mpil;
      TrapReturnStack(mstatus);
      mstatus := TrapReturn(mstatus);
    }
  }
}
