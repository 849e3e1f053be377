/**
 * The boot ROM's `main`: one read of the SoC control BOOTMODE register picks
 * what the hart does next. No path returns: the hart either waits for a
 * debugger (a `wfi` loop), jumps to an entry point, or spins in the final busy
 * loop. The registers are inputs; a volatile register read twice is assumed
 * to read the same value both times.
 */
module Boot {

  const BOOT_MODE_DEFAULT: bv32 := 0
  const BOOT_MODE_JTAG_OPENOCD: bv32 := 1
  const BOOT_MODE_PRELOADED: bv32 := 2

  /** The SoC control registers the boot code could read. */
  datatype SocCtrl = SocCtrl(bootmode: bv32, bootaddr: bv32)

  /**
   * Where the hart ends up. `main` is `noreturn`, so there is no outcome in
   * which it returns.
   */
  datatype Outcome =
    | WaitForDebugger       // boot_jtag_openocd: `wfi` forever
    | Jump(target: bv32)    // a computed goto into preloaded code
    | Spin                  // the busy loop after the switch

  /**
   * `main` as written: mode 1 waits for OpenOCD, mode 2 runs
   * `boot_preloaded`, which reads BOOTMODE again and jumps to the value it
   * reads; mode 0 and every other value break out to the busy loop.
   */
  function MainAsWritten(r: SocCtrl): (o: Outcome)
    ensures o == WaitForDebugger <==> r.bootmode == BOOT_MODE_JTAG_OPENOCD
    ensures o.Jump? <==> r.bootmode == BOOT_MODE_PRELOADED
    ensures o == Spin <==> r.bootmode != BOOT_MODE_JTAG_OPENOCD && r.bootmode != BOOT_MODE_PRELOADED
    ensures o.Jump? ==> o.target == BOOT_MODE_PRELOADED
  {
    if r.bootmode == BOOT_MODE_JTAG_OPENOCD then WaitForDebugger
    else if r.bootmode == BOOT_MODE_PRELOADED then Jump(r.bootmode)
    else Spin
  }

  /**
   * `main` as its comments describe it: preloaded boot jumps to the entry
   * point written into the boot-address register.
   */
  function Main(r: SocCtrl): (o: Outcome)
    ensures o == WaitForDebugger <==> r.bootmode == BOOT_MODE_JTAG_OPENOCD
    ensures o == Jump(r.bootaddr) <==> r.bootmode == BOOT_MODE_PRELOADED
    ensures o == Spin <==> r.bootmode != BOOT_MODE_JTAG_OPENOCD && r.bootmode != BOOT_MODE_PRELOADED
  {
    if r.bootmode == BOOT_MODE_JTAG_OPENOCD then WaitForDebugger
    else if r.bootmode == BOOT_MODE_PRELOADED then Jump(r.bootaddr)
    else Spin
  }

  /** As written, the outcome depends on nothing but the BOOTMODE register. */
  lemma AsWrittenDependsOnlyOnBootmode(r1: SocCtrl, r2: SocCtrl)
    requires r1.bootmode == r2.bootmode
    ensures MainAsWritten(r1) == MainAsWritten(r2)
  {
  }

  /**
   * The two agree except in preloaded mode, where the code as written jumps
   * to address 2 instead of the entry point unless that happens to be 2.
   */
  lemma AsWrittenJumpsToModeNumber(r: SocCtrl)
    ensures r.bootmode != BOOT_MODE_PRELOADED ==> MainAsWritten(r) == Main(r)
    ensures r.bootmode == BOOT_MODE_PRELOADED ==> MainAsWritten(r) == Jump(2)
    ensures r.bootmode == BOOT_MODE_PRELOADED ==> (MainAsWritten(r) == Main(r) <==> r.bootaddr == 2)
  {
  }

  /** A preloaded image at the safety island entry point 0x6001_0080 is never reached by the code as written. */
  lemma PreloadedEntryMissed()
    ensures MainAsWritten(SocCtrl(BOOT_MODE_PRELOADED, 0x6001_0080)) == Jump(2)
    ensures Main(SocCtrl(BOOT_MODE_PRELOADED, 0x6001_0080)) == Jump(0x6001_0080)
  {
  }
}
