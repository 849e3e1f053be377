/**
 * The RISC-V control and status register numbers of version 1.11 of the
 * Privileged Architecture, as the runtime names them. Each register is a
 * constructor of `Csr`; `Number` is its 12-bit address, `HeaderTag` the
 * privilege level and access its definition is annotated with (URW, URO,
 * SRW, MRO, MRW, DRW), and `FromNumber` the address decoder. The
 * parameterised macros are functions of the counter or region index.
 */
module CsrNumbers {

  /** The registers that have a fixed number, in the order the header defines them. */
  datatype Csr =
      Ustatus | Uie | Utvec | Uscratch | Uepc | Ucause | Utval | Uip | Fflags | Frm | Fcsr | Cycle
    | Time | Instret | Cycleh | Timeh | Instreth | Sstatus | Sedeleg | Sideleg | Sie | Stvec
    | Scounteren | Sscratch | Sepc | Scause | Stval | Sip | Satp | Mvendorid | Marchid | Mimpid
    | Mhartid | Mstatus | Misa | Medeleg | Mideleg | Mie | Mtvec | Mcounteren | Mscratch | Mepc
    | Mcause | Mtval | Mip | Mcycle | Minstret | Mcycleh | Minstreth | Mcountinhibit | Tselect
    | Tdata1 | Tdata2 | Tdata3 | Dcsr | Dpc | Dscratch0 | Dscratch1

  /** The lowest privilege level that may access a register; `Debug` is debug mode. */
  datatype Level = User | Supervisor | Hypervisor | Machine | Debug

  datatype Access = ReadWrite | ReadOnly

  datatype Tag = Tag(level: Level, access: Access)

  /** The result of decoding a 12-bit number. */
  datatype Decoded = Known(csr: Csr) | Unknown

  /** `CSR_*`: the register's number. */
  function Number(c: Csr): nat {
    match c
    case Ustatus => 0x000
    case Uie => 0x004
    case Utvec => 0x005
    case Uscratch => 0x040
    case Uepc => 0x041
    case Ucause => 0x042
    case Utval => 0x043
    case Uip => 0x044
    case Fflags => 0x001
    case Frm => 0x002
    case Fcsr => 0x003
    case Cycle => 0xC00
    case Time => 0xC01
    case Instret => 0xC02
    case Cycleh => 0xC80
    case Timeh => 0xC81
    case Instreth => 0xC82
    case Sstatus => 0x100
    case Sedeleg => 0x102
    case Sideleg => 0x103
    case Sie => 0x104
    case Stvec => 0x105
    case Scounteren => 0x106
    case Sscratch => 0x140
    case Sepc => 0x141
    case Scause => 0x142
    case Stval => 0x143
    case Sip => 0x144
    case Satp => 0x180
    case Mvendorid => 0xF11
    case Marchid => 0xF12
    case Mimpid => 0xF13
    case Mhartid => 0xF14
    case Mstatus => 0x300
    case Misa => 0x301
    case Medeleg => 0x302
    case Mideleg => 0x303
    case Mie => 0x304
    case Mtvec => 0x305
    case Mcounteren => 0x306
    case Mscratch => 0x340
    case Mepc => 0x341
    case Mcause => 0x342
    case Mtval => 0x343
    case Mip => 0x344
    case Mcycle => 0xB00
    case Minstret => 0xB02
    case Mcycleh => 0xB80
    case Minstreth => 0xB82
    case Mcountinhibit => 0x320
    case Tselect => 0x7A0
    case Tdata1 => 0x7A1
    case Tdata2 => 0x7A2
    case Tdata3 => 0x7A3
    case Dcsr => 0x7B0
    case Dpc => 0x7B1
    case Dscratch0 => 0x7B2
    case Dscratch1 => 0x7B3
  }

  /** The privilege level and access each definition is annotated with. */
  function HeaderTag(c: Csr): Tag {
    match c
    case Ustatus => Tag(User, ReadWrite)
    case Uie => Tag(User, ReadWrite)
    case Utvec => Tag(User, ReadWrite)
    case Uscratch => Tag(User, ReadWrite)
    case Uepc => Tag(User, ReadWrite)
    case Ucause => Tag(User, ReadWrite)
    case Utval => Tag(User, ReadWrite)
    case Uip => Tag(User, ReadWrite)
    case Fflags => Tag(User, ReadWrite)
    case Frm => Tag(User, ReadWrite)
    case Fcsr => Tag(User, ReadWrite)
    case Cycle => Tag(User, ReadOnly)
    case Time => Tag(User, ReadOnly)
    case Instret => Tag(User, ReadOnly)
    case Cycleh => Tag(User, ReadOnly)
    case Timeh => Tag(User, ReadOnly)
    case Instreth => Tag(User, ReadOnly)
    case Sstatus => Tag(Supervisor, ReadWrite)
    case Sedeleg => Tag(Supervisor, ReadWrite)
    case Sideleg => Tag(Supervisor, ReadWrite)
    case Sie => Tag(Supervisor, ReadWrite)
    case Stvec => Tag(Supervisor, ReadWrite)
    case Scounteren => Tag(Supervisor, ReadWrite)
    case Sscratch => Tag(Supervisor, ReadWrite)
    case Sepc => Tag(Supervisor, ReadWrite)
    case Scause => Tag(Supervisor, ReadWrite)
    case Stval => Tag(Supervisor, ReadWrite)
    case Sip => Tag(Supervisor, ReadWrite)
    case Satp => Tag(Supervisor, ReadWrite)
    case Mvendorid => Tag(Machine, ReadOnly)
    case Marchid => Tag(Machine, ReadOnly)
    case Mimpid => Tag(Machine, ReadOnly)
    case Mhartid => Tag(Machine, ReadOnly)
    case Mstatus => Tag(Machine, ReadWrite)
    case Misa => Tag(Machine, ReadWrite)
    case Medeleg => Tag(Machine, ReadWrite)
    case Mideleg => Tag(Machine, ReadWrite)
    case Mie => Tag(Machine, ReadWrite)
    case Mtvec => Tag(Machine, ReadWrite)
    case Mcounteren => Tag(Machine, ReadWrite)
    case Mscratch => Tag(Machine, ReadWrite)
    case Mepc => Tag(Machine, ReadWrite)
    case Mcause => Tag(Machine, ReadWrite)
    case Mtval => Tag(Machine, ReadWrite)
    case Mip => Tag(Machine, ReadWrite)
    case Mcycle => Tag(Machine, ReadWrite)
    case Minstret => Tag(Machine, ReadWrite)
    case Mcycleh => Tag(Machine, ReadWrite)
    case Minstreth => Tag(Machine, ReadWrite)
    case Mcountinhibit => Tag(Machine, ReadWrite)
    case Tselect => Tag(Machine, ReadWrite)
    case Tdata1 => Tag(Machine, ReadWrite)
    case Tdata2 => Tag(Machine, ReadWrite)
    case Tdata3 => Tag(Machine, ReadWrite)
    case Dcsr => Tag(Debug, ReadWrite)
    case Dpc => Tag(Debug, ReadWrite)
    case Dscratch0 => Tag(Debug, ReadWrite)
    case Dscratch1 => Tag(Debug, ReadWrite)
  }

  /** The decoder: the register with number `n`, if any, looked up in the 256-number page `n` falls in. */
  function FromNumber(n: nat): Decoded {
    match n / 0x100
    case 0x0 => DecodeUser(n)
    case 0x1 => DecodeSupervisor(n)
    case 0x3 => DecodeMachine(n)
    case 0x7 => DecodeDebug(n)
    case 0xb => DecodeMachineCounter(n)
    case 0xc => DecodeUserCounter(n)
    case 0xf => DecodeMachineInfo(n)
    case _ => Unknown
  }

  function DecodeUser(n: nat): Decoded {
    match n
    case 0x000 => Known(Ustatus)
    case 0x004 => Known(Uie)
    case 0x005 => Known(Utvec)
    case 0x040 => Known(Uscratch)
    case 0x041 => Known(Uepc)
    case 0x042 => Known(Ucause)
    case 0x043 => Known(Utval)
    case 0x044 => Known(Uip)
    case 0x001 => Known(Fflags)
    case 0x002 => Known(Frm)
    case 0x003 => Known(Fcsr)
    case _ => Unknown
  }

  function DecodeSupervisor(n: nat): Decoded {
    match n
    case 0x100 => Known(Sstatus)
    case 0x102 => Known(Sedeleg)
    case 0x103 => Known(Sideleg)
    case 0x104 => Known(Sie)
    case 0x105 => Known(Stvec)
    case 0x106 => Known(Scounteren)
    case 0x140 => Known(Sscratch)
    case 0x141 => Known(Sepc)
    case 0x142 => Known(Scause)
    case 0x143 => Known(Stval)
    case 0x144 => Known(Sip)
    case 0x180 => Known(Satp)
    case _ => Unknown
  }

  function DecodeMachine(n: nat): Decoded {
    match n
    case 0x300 => Known(Mstatus)
    case 0x301 => Known(Misa)
    case 0x302 => Known(Medeleg)
    case 0x303 => Known(Mideleg)
    case 0x304 => Known(Mie)
    case 0x305 => Known(Mtvec)
    case 0x306 => Known(Mcounteren)
    case 0x340 => Known(Mscratch)
    case 0x341 => Known(Mepc)
    case 0x342 => Known(Mcause)
    case 0x343 => Known(Mtval)
    case 0x344 => Known(Mip)
    case 0x320 => Known(Mcountinhibit)
    case _ => Unknown
  }

  function DecodeDebug(n: nat): Decoded {
    match n
    case 0x7A0 => Known(Tselect)
    case 0x7A1 => Known(Tdata1)
    case 0x7A2 => Known(Tdata2)
    case 0x7A3 => Known(Tdata3)
    case 0x7B0 => Known(Dcsr)
    case 0x7B1 => Known(Dpc)
    case 0x7B2 => Known(Dscratch0)
    case 0x7B3 => Known(Dscratch1)
    case _ => Unknown
  }

  function DecodeMachineCounter(n: nat): Decoded {
    match n
    case 0xB00 => Known(Mcycle)
    case 0xB02 => Known(Minstret)
    case 0xB80 => Known(Mcycleh)
    case 0xB82 => Known(Minstreth)
    case _ => Unknown
  }

  function DecodeUserCounter(n: nat): Decoded {
    match n
    case 0xC00 => Known(Cycle)
    case 0xC01 => Known(Time)
    case 0xC02 => Known(Instret)
    case 0xC80 => Known(Cycleh)
    case 0xC81 => Known(Timeh)
    case 0xC82 => Known(Instreth)
    case _ => Unknown
  }

  function DecodeMachineInfo(n: nat): Decoded {
    match n
    case 0xF11 => Known(Mvendorid)
    case 0xF12 => Known(Marchid)
    case 0xF13 => Known(Mimpid)
    case 0xF14 => Known(Mhartid)
    case _ => Unknown
  }

  /**
   * The address convention of section 2.1 of the Privileged Architecture:
   * bits 11:10 are 0b11 exactly for read-only registers, bits 9:8 give the
   * lowest privilege level, and 0x7B0-0x7BF are accessible in debug mode only.
   */
  function Convention(n: nat): (t: Tag)
    requires n < 0x1000
    ensures t.access == ReadOnly <==> 0xC00 <= n
    ensures t.level == Debug <==> 0x7B0 <= n < 0x7C0
    ensures t.level == Machine ==> 0x300 <= n % 0x400 && !(0x7B0 <= n < 0x7C0)
    ensures t.level == User <==> n % 0x400 < 0x100
  {
    var access := if (n / 0x400) % 4 == 3 then ReadOnly else ReadWrite;
    var level :=
      if 0x7B0 <= n < 0x7C0 then Debug
      else match (n / 0x100) % 4
        case 0 => User
        case 1 => Supervisor
        case 2 => Hypervisor
        case _ => Machine;
    Tag(level, access)
  }

  /** Every number is a 12-bit CSR address and every annotation agrees with the address convention. */
  lemma TableFollowsConvention(c: Csr)
    ensures Number(c) < 0x1000
    ensures Convention(Number(c)) == HeaderTag(c)
  {
  }

  /** Decoding a register's number gives back the register. */
  lemma DecodeNumber(c: Csr)
    ensures FromNumber(Number(c)) == Known(c)
  {
  }

  /** A number decodes to a register only if it is that register's number. */
  lemma NumberOfDecoded(n: nat, c: Csr)
    requires FromNumber(n) == Known(c)
    ensures Number(c) == n
  {
    match n / 0x100
    case 0x0 => DecodeUserSound(n, c);
    case 0x1 => DecodeSupervisorSound(n, c);
    case 0x3 => DecodeMachineSound(n, c);
    case 0x7 => DecodeDebugSound(n, c);
    case 0xb => DecodeMachineCounterSound(n, c);
    case 0xc => DecodeUserCounterSound(n, c);
    case 0xf => DecodeMachineInfoSound(n, c);
    case _ =>
  }

  lemma DecodeUserSound(n: nat, c: Csr)
    requires DecodeUser(n) == Known(c)
    ensures Number(c) == n
  {
  }

  lemma DecodeSupervisorSound(n: nat, c: Csr)
    requires DecodeSupervisor(n) == Known(c)
    ensures Number(c) == n
  {
  }

  lemma DecodeMachineSound(n: nat, c: Csr)
    requires DecodeMachine(n) == Known(c)
    ensures Number(c) == n
  {
  }

  lemma DecodeDebugSound(n: nat, c: Csr)
    requires DecodeDebug(n) == Known(c)
    ensures Number(c) == n
  {
  }

  lemma DecodeMachineCounterSound(n: nat, c: Csr)
    requires DecodeMachineCounter(n) == Known(c)
    ensures Number(c) == n
  {
  }

  lemma DecodeUserCounterSound(n: nat, c: Csr)
    requires DecodeUserCounter(n) == Known(c)
    ensures Number(c) == n
  {
  }

  lemma DecodeMachineInfoSound(n: nat, c: Csr)
    requires DecodeMachineInfo(n) == Known(c)
    ensures Number(c) == n
  {
  }

  /** No two registers share a number. */
  lemma NumbersDistinct(c: Csr, d: Csr)
    requires c != d
    ensures Number(c) != Number(d)
  {
    DecodeNumber(c);
    DecodeNumber(d);
  }

  // ---------------------------------------------------------------------------
  // Parameterised numbers
  // ---------------------------------------------------------------------------

  /** `CSR_HPMCOUNTER(id)` and `CSR_HPMCOUNTERH(id)`: the user-level counter `id` and its upper half. */
  function HpmCounter(id: nat): nat { 0xC00 + id }
  function HpmCounterH(id: nat): nat { 0xC80 + id }

  /** `CSR_MHPMCOUNTER(id)` and `CSR_MHPMCOUNTERH(id)`: the machine-level counter `id` and its upper half. */
  function MhpmCounter(id: nat): nat { 0xB00 + id }
  function MhpmCounterH(id: nat): nat { 0xB80 + id }

  /** `CSR_MHPMEVENT(id)`: the event selector of counter `id`. */
  function MhpmEvent(id: nat): nat { 0x320 + id }

  /** `CSR_PMPCFG(id)` and `CSR_PMPADDR(id)`: physical memory protection configuration and address registers. */
  function PmpCfg(id: nat): nat { 0x3A0 + id }
  function PmpAddr(id: nat): nat { 0x3B0 + id }

  /**
   * Counters 0 and 2 of each family are the cycle and instructions-retired
   * registers the header also names (counter 1 of the user family is `time`),
   * and event selector 0 is `mcountinhibit`.
   */
  lemma CounterFamiliesStartAtFixedRegisters()
    ensures FromNumber(HpmCounter(0)) == Known(Cycle) && FromNumber(HpmCounter(1)) == Known(Time)
    ensures FromNumber(HpmCounter(2)) == Known(Instret)
    ensures FromNumber(HpmCounterH(0)) == Known(Cycleh) && FromNumber(HpmCounterH(1)) == Known(Timeh)
    ensures FromNumber(HpmCounterH(2)) == Known(Instreth)
    ensures FromNumber(MhpmCounter(0)) == Known(Mcycle) && FromNumber(MhpmCounter(2)) == Known(Minstret)
    ensures FromNumber(MhpmCounterH(0)) == Known(Mcycleh) && FromNumber(MhpmCounterH(2)) == Known(Minstreth)
    ensures FromNumber(MhpmEvent(0)) == Known(Mcountinhibit)
  {
  }

  /** The programmable counters 3 to 31 and their event selectors collide with no register that has a fixed number. */
  lemma ParameterisedNumbersFree(id: nat)
    requires 3 <= id < 32
    ensures FromNumber(HpmCounter(id)) == Unknown && FromNumber(HpmCounterH(id)) == Unknown
    ensures FromNumber(MhpmCounter(id)) == Unknown && FromNumber(MhpmCounterH(id)) == Unknown
    ensures FromNumber(MhpmEvent(id)) == Unknown
  {
  }

  /** Neither PMP family, 16 registers each, collides with a register that has a fixed number. */
  lemma PmpNumbersFree(id: nat)
    requires id < 16
    ensures FromNumber(PmpCfg(id)) == Unknown && FromNumber(PmpAddr(id)) == Unknown
  {
  }

  /**
   * The numbers of every family follow the address convention of section 2.1
   * for the annotation the header gives them: URO for the user counters, MRW
   * for the machine counters, event selectors and PMP registers.
   */
  lemma ParameterisedNumbersFollowConvention(id: nat)
    requires id < 32
    ensures Convention(HpmCounter(id)) == Tag(User, ReadOnly) && Convention(HpmCounterH(id)) == Tag(User, ReadOnly)
    ensures Convention(MhpmCounter(id)) == Tag(Machine, ReadWrite) && Convention(MhpmCounterH(id)) == Tag(Machine, ReadWrite)
    ensures Convention(MhpmEvent(id)) == Tag(Machine, ReadWrite)
    ensures id < 16 ==> Convention(PmpCfg(id)) == Tag(Machine, ReadWrite) && Convention(PmpAddr(id)) == Tag(Machine, ReadWrite)
  {
  }

  // ---------------------------------------------------------------------------
  // Backward-compatibility names
  // ---------------------------------------------------------------------------

  /** The registers that also have an `RV_CSR_*` name: mstatus, mepc, mcause, mtval, misa, mimpid, mhartid. */
  const RV_CSR_ALIASES: seq<Csr> := [Mstatus, Mepc, Mcause, Mtval, Misa, Mimpid, Mhartid]

  /** Every `RV_CSR_*` name denotes a machine-level register, and exactly `mimpid` and `mhartid` are read-only. */
  lemma RvAliasesAreMachineRegisters(i: nat)
    requires i < |RV_CSR_ALIASES|
    ensures HeaderTag(RV_CSR_ALIASES[i]).level == Machine
    ensures HeaderTag(RV_CSR_ALIASES[i]).access == ReadOnly <==> RV_CSR_ALIASES[i] in {Mimpid, Mhartid}
  {
  }
}
