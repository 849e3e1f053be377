/**
 * The Carfield address map as the shared runtime sees it: the L2 scratchpad
 * regions, the safety island window, the Carfield peripherals, the mailbox
 * registers and the PLL windows. Addresses are unbounded naturals; every one
 * of them is below 2^32.
 */
module CarMemoryMap {

  /** A half-open address range [base, end). */
  datatype Region = Region(base: nat, end: nat)

  predicate InRegion(r: Region, a: nat) {
    r.base <= a < r.end
  }

  // ---------------------------------------------------------------------------
  // L2 scratchpad
  // ---------------------------------------------------------------------------

  const L2_PORT0_INTERLEAVED: Region := Region(0x7800_0000, 0x7810_0000)
  const L2_PORT0_CONTIGUOUS: Region := Region(0x7810_0000, 0x7820_0000)
  const L2_PORT1_INTERLEAVED: Region := Region(0x7820_0000, 0x7830_0000)
  const L2_PORT1_CONTIGUOUS: Region := Region(0x7830_0000, 0x7840_0000)

  /** The four L2 regions in address order. */
  const L2_REGIONS: seq<Region> := [L2_PORT0_INTERLEAVED, L2_PORT0_CONTIGUOUS, L2_PORT1_INTERLEAVED, L2_PORT1_CONTIGUOUS]

  /** Non-empty regions, each one ending where the next begins. */
  predicate Tiles(rs: seq<Region>) {
    (forall i :: 0 <= i < |rs| ==> rs[i].base < rs[i].end) &&
    (forall i :: 0 <= i < |rs| - 1 ==> rs[i].end == rs[i + 1].base)
  }

  /** The L2 regions tile [0x7800_0000, 0x7840_0000): each region's end is the next region's base. */
  lemma L2RegionsTile()
    ensures Tiles(L2_REGIONS)
    ensures L2_REGIONS[0].base == 0x7800_0000 && L2_REGIONS[|L2_REGIONS| - 1].end == 0x7840_0000
  {
  }

  /** In a tiling, an earlier region ends no later than a later one begins, so no two regions overlap. */
  lemma {:induction false} TilingDisjoint(rs: seq<Region>, i: nat, j: nat)
    requires Tiles(rs) && i < j < |rs|
    ensures rs[i].end <= rs[j].base
    ensures forall a :: !(InRegion(rs[i], a) && InRegion(rs[j], a))
    decreases j - i
  {
    if j == i + 1 {
      assert rs[i].end == rs[i + 1].base;
    } else {
      TilingDisjoint(rs, i, j - 1);
      assert rs[j - 1].end == rs[j].base;
    }
  }

  /** No address lies in two L2 regions. */
  lemma L2RegionsDisjoint(i: nat, j: nat, a: nat)
    requires i < j < |L2_REGIONS|
    ensures !(InRegion(L2_REGIONS[i], a) && InRegion(L2_REGIONS[j], a))
  {
    L2RegionsTile();
    TilingDisjoint(L2_REGIONS, i, j);
  }

  // ---------------------------------------------------------------------------
  // Safety island
  // ---------------------------------------------------------------------------

  const SAFETY_ISLAND_SPM: Region := Region(0x6000_0000, 0x6002_0000)
  const SAFETY_ISLAND_PERIPHERALS_OFFSET: nat := 0x20_0000
  const SAFETY_ISLAND_SOC_CTRL_OFFSET: nat := 0
  const SAFETY_ISLAND_ENTRY_POINT: nat := SAFETY_ISLAND_SPM.base + 0x1_0080
  const SAFETY_ISLAND_SOC_CTRL_ADDR: nat := SAFETY_ISLAND_SPM.base + SAFETY_ISLAND_PERIPHERALS_OFFSET + SAFETY_ISLAND_SOC_CTRL_OFFSET
  const SAFETY_ISLAND_PERIPHS: Region := Region(0x6020_0000, 0x6030_0000)

  /**
   * The entry point lies in the island's scratchpad, word-aligned, and the
   * SoC control registers open the peripheral window, which lies above the
   * scratchpad.
   */
  lemma SafetyIslandLayout()
    ensures InRegion(SAFETY_ISLAND_SPM, SAFETY_ISLAND_ENTRY_POINT) && SAFETY_ISLAND_ENTRY_POINT % 4 == 0
    ensures SAFETY_ISLAND_SOC_CTRL_ADDR == SAFETY_ISLAND_PERIPHS.base
    ensures SAFETY_ISLAND_SPM.end <= SAFETY_ISLAND_PERIPHS.base
  {
  }

  // ---------------------------------------------------------------------------
  // Peripherals
  // ---------------------------------------------------------------------------

  /** `CAR_CLIC_CFG_BASE_ADDR(id)`: the same address whatever `id` is. */
  function ClicCfgBase(id: int): nat {
    0x0800_0000
  }

  lemma ClicCfgIgnoresId(id1: int, id2: int)
    ensures ClicCfgBase(id1) == ClicCfgBase(id2) == 0x0800_0000
  {
  }

  const PERIPHS_BASE: nat := 0x2000_0000

  /** Ethernet, CAN, system timer, advanced timer, watchdog, HyperBus config, pad config, SoC control. */
  const PERIPH_OFFSETS: seq<nat> := [0x0000, 0x1000, 0x4000, 0x5000, 0x7000, 0x9000, 0xa000, 0x1_0000]

  /** `CAR_*_BASE_ADDR`: the peripheral base plus the device's offset. */
  function PeriphBase(k: nat): nat
    requires k < |PERIPH_OFFSETS|
  {
    PERIPHS_BASE + PERIPH_OFFSETS[k]
  }

  /** The offsets increase by at least 4 KiB, so the derived bases are pairwise distinct and each device has a 4 KiB window. */
  lemma {:induction false} PeriphBasesDistinct(i: nat, j: nat)
    requires i < j < |PERIPH_OFFSETS|
    ensures PeriphBase(i) + 0x1000 <= PeriphBase(j)
    decreases j - i
  {
    if j > i + 1 {
      PeriphBasesDistinct(i, j - 1);
    }
  }

  // ---------------------------------------------------------------------------
  // Mailboxes
  // ---------------------------------------------------------------------------

  const NUM_MAILBOXES: nat := 25
  const MBOX_BASE: nat := 0x4000_0000
  const MBOX_SPACE: nat := 0x100

  /** Interrupt send stat/set/clr/en, receive stat/set/clr/en, letter 0 and letter 1. */
  const MBOX_OFFSETS: seq<nat> := [0x00, 0x04, 0x08, 0x0C, 0x40, 0x44, 0x48, 0x4C, 0x80, 0x84]

  predicate MboxRegister(off: nat) {
    off in MBOX_OFFSETS
  }

  /** `MBOX_CAR_*(id)` with `id` a single value: register `off` of mailbox `id`. */
  function MboxAddr(id: nat, off: nat): (a: nat)
    requires MboxRegister(off)
    ensures a >= MBOX_BASE && (a - MBOX_BASE) / MBOX_SPACE == id && (a - MBOX_BASE) % MBOX_SPACE == off
  {
    MBOX_BASE + off + id * MBOX_SPACE
  }

  /** Distinct (mailbox, register) pairs have distinct addresses, and the 25 mailboxes end at 0x4000_1900. */
  lemma MboxAddrInjective(id1: nat, off1: nat, id2: nat, off2: nat)
    requires MboxRegister(off1) && MboxRegister(off2)
    ensures MboxAddr(id1, off1) == MboxAddr(id2, off2) <==> id1 == id2 && off1 == off2
    ensures id1 < NUM_MAILBOXES ==> MboxAddr(id1, off1) < MBOX_BASE + NUM_MAILBOXES * MBOX_SPACE
  {
  }

  /**
   * `MBOX_CAR_*(id)` as written, applied to `a + b`: the macro body
   * `(id*0x100)` is not parenthesised, so it computes `a + b*0x100`.
   */
  function MboxAddrOfSumAsWritten(a: nat, b: nat, off: nat): nat
    requires MboxRegister(off)
  {
    MBOX_BASE + off + a + b * MBOX_SPACE
  }

  /** As written, `MBOX_CAR_LETTER0(1 + 1)` is 0x4000_0181, a byte inside mailbox 1, not mailbox 2's letter. */
  lemma MboxMacroMisparses()
    ensures MboxAddrOfSumAsWritten(1, 1, 0x80) == 0x4000_0181
    ensures MboxAddr(1 + 1, 0x80) == 0x4000_0280
  {
  }

  /** The as-written expansion agrees with the intended one only when `a` is 0. */
  lemma MboxAsWrittenAgreesOnlyForZero(a: nat, b: nat, off: nat)
    requires MboxRegister(off)
    ensures MboxAddrOfSumAsWritten(a, b, off) == MboxAddr(a + b, off) <==> a == 0
  {
  }

  // ---------------------------------------------------------------------------
  // PLL
  // ---------------------------------------------------------------------------

  const PLL_BASE: nat := 0x2002_0000
  const PLL_ADDR_SPACE: nat := 0x200

  /** `PLL_BASE_ADDRESS(id)`: window `id + 1` above the PLL base. */
  function PllBase(id: nat): (a: nat)
    ensures a >= PLL_BASE + PLL_ADDR_SPACE && (a - PLL_BASE) % PLL_ADDR_SPACE == 0
  {
    PLL_BASE + (id + 1) * PLL_ADDR_SPACE
  }

  /** Windows of distinct ids are whole multiples of 0x200 apart, so they do not overlap; none starts at the PLL base. */
  lemma PllWindowsDisjoint(i: nat, j: nat)
    requires i < j
    ensures PllBase(i) + PLL_ADDR_SPACE <= PllBase(j)
    ensures PllBase(j) - PllBase(i) == (j - i) * PLL_ADDR_SPACE
    ensures PllBase(i) != PLL_BASE
  {
  }
}

/**
 * The safety island's own view of its memory map: a base address picked at
 * build time (0x6000_0000 inside Carfield, 0 standalone), two private memory
 * banks, and the peripheral window above them.
 */
module IslandMemoryMap {
  import CarMemoryMap

  /** `ARCHI_SAFETY_ISLAND_BASE_ADDR`, with `carfield` standing for `#ifdef CARFIELD`. */
  function Base(carfield: bool): (b: nat)
    ensures carfield <==> b == 0x6000_0000
    ensures !carfield <==> b == 0
  {
    if carfield then 0x6000_0000 else 0
  }

  const PERIPH_OFFSET: nat := 0x20_0000
  const MEM_OFFSET: nat := 0
  const PRIV_SIZE: nat := 0x1_0000

  function LocalPriv0Addr(carfield: bool): nat {
    Base(carfield) + MEM_OFFSET
  }

  function LocalPriv1Addr(carfield: bool): nat {
    LocalPriv0Addr(carfield) + PRIV_SIZE
  }

  /** `ARCHI_L2_PRIV0_ADDR` and `ARCHI_L2_PRIV1_ADDR` alias the local banks. */
  function L2Priv0Addr(carfield: bool): nat {
    LocalPriv0Addr(carfield)
  }

  function L2Priv1Addr(carfield: bool): nat {
    LocalPriv1Addr(carfield)
  }

  const L2_SHARED_ADDR: nat := 0
  const L2_SHARED_SIZE: nat := 0

  function PeripheralsAddr(carfield: bool): nat {
    Base(carfield) + PERIPH_OFFSET
  }

  /** SoC control, boot ROM, global prepend, debug, CLIC, HMR, stdout. */
  const PERIPH_OFFSETS: seq<nat> := [0x0000, 0x1000, 0x2000, 0x3000, 0x1_0000, 0x5000, 0x6000]

  /** `ARCHI_*_ADDR`: the peripheral window plus the device's offset. */
  function PeriphAddr(carfield: bool, k: nat): nat
    requires k < |PERIPH_OFFSETS|
  {
    PeripheralsAddr(carfield) + PERIPH_OFFSETS[k]
  }

  /**
   * The two private banks are adjacent (bank 1 starts where bank 0 ends) and
   * so disjoint; the L2 aliases name the same banks; shared L2 is empty.
   */
  lemma BanksAdjacent(carfield: bool)
    ensures LocalPriv1Addr(carfield) == LocalPriv0Addr(carfield) + PRIV_SIZE
    ensures LocalPriv0Addr(carfield) + PRIV_SIZE <= LocalPriv1Addr(carfield)
    ensures L2Priv0Addr(carfield) == LocalPriv0Addr(carfield) && L2Priv1Addr(carfield) == LocalPriv1Addr(carfield)
    ensures L2_SHARED_ADDR == 0 && L2_SHARED_SIZE == 0
  {
  }

  /** The peripheral window starts above both banks, whatever the base. */
  lemma PeripheralsAboveBanks(carfield: bool)
    ensures LocalPriv1Addr(carfield) + PRIV_SIZE <= PeripheralsAddr(carfield)
  {
  }

  /** The device addresses are pairwise distinct and all lie in the first 128 KiB of the peripheral window. */
  lemma PeriphAddrsDistinct(carfield: bool, i: nat, j: nat)
    requires i < j < |PERIPH_OFFSETS|
    ensures PeriphAddr(carfield, i) != PeriphAddr(carfield, j)
    ensures PeripheralsAddr(carfield) <= PeriphAddr(carfield, i) < PeripheralsAddr(carfield) + 0x2_0000
  {
  }

  /**
   * Built for Carfield, the island's base, peripheral offset, end of the
   * banks, SoC control address and peripheral window agree with the Carfield
   * map's safety island constants, and the entry point lies in the second
   * private bank.
   */
  lemma AgreesWithCarfieldMap()
    ensures Base(true) == CarMemoryMap.SAFETY_ISLAND_SPM.base
    ensures PERIPH_OFFSET == CarMemoryMap.SAFETY_ISLAND_PERIPHERALS_OFFSET
    ensures LocalPriv1Addr(true) + PRIV_SIZE == CarMemoryMap.SAFETY_ISLAND_SPM.end
    ensures PeriphAddr(true, 0) == CarMemoryMap.SAFETY_ISLAND_SOC_CTRL_ADDR
    ensures PeripheralsAddr(true) == CarMemoryMap.SAFETY_ISLAND_PERIPHS.base
    ensures CarMemoryMap.InRegion(CarMemoryMap.SAFETY_ISLAND_SPM, CarMemoryMap.SAFETY_ISLAND_ENTRY_POINT)
    ensures LocalPriv1Addr(true) <= CarMemoryMap.SAFETY_ISLAND_ENTRY_POINT < LocalPriv1Addr(true) + PRIV_SIZE
  {
  }
}
