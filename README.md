# Safety Island software core, modelled in Dafny

This project models the bare-metal software that runs on the PULP Safety
Island: the RV32 core that sits next to a Cheshire host in the Carfield
system. The model covers:

- **CLIC tests.** The tests of the Core-Local Interrupt Controller:
  - basic delivery, and basic delivery through byte-wide registers;
  - CSR behaviour (`mintthresh`, `mintstatus`, the `mcause`/`mstatus`
    aliases);
  - entering and leaving a handler;
  - the nested-interrupt test as written, which takes its two lines one
    after the other, and the preemption its opening comment describes;
  - the `mnxti` ordering test.
  The CLIC is a Dafny class whose per-line registers and CSRs the tests
  read and write.
- **Atomics test.** LR/SC and the AMO instructions, on a `Cell` class
  holding one word and its reservation.
- **TCLS test.** The triple-core matrix test, on `array2` buffers. Its
  Python stimulus generator is modelled as well, including the exact text
  of the header it writes.
- **Boot ROM.** The mode switch of the boot ROM's `main`.
- **AXI probe.** The probe that writes and reads patterns through the AXI
  plug, on a byte-addressed `array<bv8>` memory.
- **Store counter.** The trace script that counts `sb`/`sh`/`sw` lines.
- **SCMI macros.** The SCMI bit-field macros and message header.
- **Memory maps.** The Carfield and Safety Island memory maps.
- **CSR numbers.** The RISC-V privileged 1.11 CSR number table.

Each test program is a method that executes the program's steps against
the modelled hardware. Its postcondition states the verdict the program
reaches: the exit code, the handled lines and their order, the error
count. Specification functions (`Dot`, `Tally`, `Stored`, `Run`,
`TrapEnter`, `Configured`) say what the steps compute. Lemmas state the
round trips, bounds and invariants the programs rely on.

`clic.h` and `clicint.h` are not part of this model. The register
positions follow the CLIC register map (for example, `clicint` holds IP in
bit 0, IE in bit 8, the attribute in bits 16-23 and the control byte in
bits 24-31).

The interrupt vector table setup (`clic_setup_mtvec`/`clic_setup_mtvt`)
is not part of this model either. Each test's handler-to-line mapping is
assumed as the test sets it up:

- `isr_1` on line 31 and `isr_0` on line 30 in the nested test;
- the mnxti test's `isr_1` … `isr_oic` on lines 31 … 26;
- `check_status_handler` on line 31 in the enter-leave test.

Module layout:

| module | file | source |
|---|---|---|
| `Bits` | bits.dfy | bit-field helpers (GENMASK/FIELD_GET, sign extension) |
| `Clic` | clic.dfy | the CLIC and the M-mode trap CSRs as the tests use them |
| `ClicTests` | clic_tests.dfy | clic-basic, clic-csr, clic-enter-leave, clic-nested, the CLIC part of runtime_tcls |
| `ClicMnxti` | clic_mnxti.dfy | clic-mnxti |
| `ClicSplit` | clic_split.dfy | the byte-register variant of clic-basic |
| `Atomics` | atomics.dfy | runtime_atops |
| `Stimuli` | stimuli.dfy | gen_stimuli.py |
| `Tcls` | tcls.dfy | runtime_tcls |
| `Boot` | boot.dfy | boot_code.c |
| `Axi` | axi.dfy | runtime_output_axi |
| `SwAnalysis` | sw_analysis.dfy | sw_analysis.py |
| `Scmi` | scmi.dfy | scmi_protocol.h |
| `CarMemoryMap`, `IslandMemoryMap` | memmap.dfy | car_memory_map.h, the Safety Island memory_map.h |
| `CsrNumbers` | csr_numbers.dfy | priv_1_11.h |

## Model

| member | source | states |
|---|---|---|
| Clic.LineFieldsDisjoint | sw/tests/runtime_clic_basic/clic-basic.c:119-159 | the IP, IE, SHV, TRIG and CTL fields of a `clicint` word occupy disjoint bits, so the test's read-modify-writes of one field cannot disturb another |
| Clic.PlacedValue | sw/tests/runtime_clic_basic/clic-basic.c:119-146 | a value shifted into a field that it fits lies inside the field's mask and shifts back out unchanged |
| Clic.UpdateSetsField | sw/tests/runtime_clic_basic/clic-basic.c:119-159 | the `(v << off) \| (readw(..) & ~(mask << off))` update reads back as `v` in its field and leaves every bit outside the field as before |
| Clic.UpdateKeepsOtherField | sw/tests/runtime_clic_basic/clic-basic.c:119-159 | updating one `clicint` field leaves any other field's value unchanged |
| Clic.UpdateIdempotent | sw/tests/runtime_clic_basic/clic-basic.c:119-121 | repeating the same field update changes nothing more |
| Clic.UpdateWithCurrent | sw/tests/runtime_clic_basic/clic-basic.c:119-121 | writing a field's current value back leaves the register as it was |
| Clic.Level | sw/tests/runtime_clic_nested/clic-nested.c:161-188 | specification of the level a control byte encodes with `nlbits` level bits; LevelBits and LevelMonotone state its properties |
| Clic.LevelBits | sw/tests/runtime_clic_nested/clic-nested.c:161-188 | the level derived from a control byte with `nlbits` level bits is a byte; it agrees with the control byte on the level bits and has every lower bit set to 1 |
| Clic.LevelMonotone | sw/tests/runtime_clic_nested/clic-nested.c:180-188 | a larger control byte never gives a lower level, so line 31 (0xaa) outranks line 30 (0x88) |
| Clic.TestedLevelsMatchRawBytes | sw/tests/runtime_clic_basic/clic-basic.c:140-167 | with 4 level bits, comparing a line's level against a threshold gives the same answer as comparing the raw control byte, as the tests' comments (`0xff > 0xaa`, `0 < 0xaa`) assume |
| Clic.MppReadsMachine | sw/tests/runtime_clic/clic-csr/clic-csr.c:68-72 | on an M-mode-only core the MPP field always reads back as machine mode (3) |
| Clic.TrapEnter | sw/tests/runtime_clic/clic-enter-leave/clic-enter-leave.c:62-72 | specification of the `mstatus` update on taking a trap; TrapEnterStack and TrapRoundTrip state its properties |
| Clic.TrapReturn | sw/tests/runtime_clic/clic-enter-leave/clic-enter-leave.c:152-163 | specification of the `mstatus` update of `mret`; TrapReturnStack and TrapRoundTrip state its properties |
| Clic.TrapEnterStack | sw/tests/runtime_clic/clic-enter-leave/clic-enter-leave.c:62-72 | taking a trap clears MIE, saves the old MIE in MPIE and leaves all other `mstatus` bits alone |
| Clic.TrapReturnStack | sw/tests/runtime_clic/clic-enter-leave/clic-enter-leave.c:152-163 | `mret` restores MIE from MPIE, sets MPIE and leaves all other bits alone |
| Clic.TrapRoundTrip | sw/tests/runtime_clic/clic-enter-leave/clic-enter-leave.c:143-163 | a trap followed by `mret` restores MIE and every bit outside the interrupt stack |
| Clic.WithMpie | boot/include/archi/riscv/priv_1_11.h:74 | specification of `mstatus` after a write of `mcause` whose MPIE field is `p`; WithMpieBits states its properties |
| Clic.WithMpieBits | boot/include/archi/riscv/priv_1_11.h:74 | a write of mcause.MPIE sets the MPIE bit of `mstatus` to the written value and leaves every other bit, MPP included, as it was |
| Clic.EncodeMcause | sw/tests/runtime_clic_basic/clic-basic.c:65-73 | specification of the `mcause` word built from its six fields; McauseExcode and McauseRoundTrip state its properties |
| Clic.DecodeMcause | sw/tests/runtime_clic_basic/clic-basic.c:65-73 | splitting `mcause` into interrupt, minhv, mpp, mpie, mpil and excode always yields fields within their widths |
| Clic.McauseFieldsDisjoint | sw/tests/runtime_clic/clic-mnxti/clic-mnxti.c:94-104 | the six `mcause` fields the tests print occupy pairwise disjoint bits |
| Clic.McauseExcode | sw/tests/runtime_clic/clic-enter-leave/clic-enter-leave.c:67 | the low bits of the encoded `mcause` are the exception code, so the handler's `mcause & 0x3ff` check sees the line number |
| Clic.McauseRoundTrip | sw/tests/runtime_clic_basic/clic-basic.c:65-73 | decoding an encoded well-formed `mcause` gives back every field |
| Clic.Clic.constructor | sw/tests/runtime_clic_basic/clic-basic.c:80-110 | after reset every line register is 0, `mcliccfg`, `mnxticonf`, `mintthresh` and the levels are 0, and `mstatus` holds MPP = M with MIE set |
| Clic.Clic.ReadLine | sw/tests/runtime_clic_basic/clic-basic.c:120 | `readw` of a `clicint` register returns that line's word |
| Clic.Clic.WriteLine | sw/tests/runtime_clic_basic/clic-basic.c:119-121 | `writew` replaces that line's word and no other register |
| Clic.Clic.UpdateLineField | sw/tests/runtime_clic_basic/clic-basic.c:119-159 | the read-modify-write idiom sets one field of one line and changes nothing else |
| Clic.Clic.WriteMcliccfg | sw/tests/runtime_clic_basic/clic-basic.c:140 | the `mcliccfg` write stores the configuration word |
| Clic.Clic.EnableMnxti | sw/tests/runtime_clic/clic-mnxti/clic-mnxti.c:185 | writing `mnxticonf` sets the enable bit and no other bit |
| Clic.Clic.WriteMintthresh | sw/tests/runtime_clic/clic-csr/clic-csr.c:45-50 | only the low 8 bits of `mintthresh` are writable |
| Clic.Clic.ReadMintthresh | sw/tests/runtime_clic/clic-csr/clic-csr.c:48 | reading `mintthresh` returns the stored threshold |
| Clic.Clic.ReadMintstatus | sw/tests/runtime_clic/clic-enter-leave/clic-enter-leave.c:143 | `mintstatus` reports the current interrupt level in its MIL field |
| Clic.Clic.WriteMintstatus | sw/tests/runtime_clic/clic-csr/clic-csr.c:53-56 | `mintstatus` is read-only: a write leaves its value unchanged |
| Clic.Clic.ReadMcause | sw/tests/runtime_clic/clic-csr/clic-csr.c:64 | `mcause` reads as the encoding of the current trap fields, MPP and MPIE shared with `mstatus` |
| Clic.Clic.WriteMcause | boot/include/archi/riscv/priv_1_11.h:74 | `mcause` is machine read-write: writing a well-formed value sets the trap fields to it and MPIE in `mstatus` (the shared bit) to its mpie, and changes nothing else |
| Clic.Clic.ReadSetMstatus | sw/tests/runtime_clic/clic-csr/clic-csr.c:59-66 | `csr_read_set` returns the old `mstatus` and ORs in the given bits |
| Clic.Clic.ReadClearMstatus | sw/tests/runtime_clic/clic-csr/clic-csr.c:68-72 | `csr_read_clear` returns the old value and clears the given bits, except that MPP stays at machine mode |
| Clic.Clic.Eligible | sw/tests/runtime_clic_basic/clic-basic.c:161-175 | specification of a line the controller forwards: enabled, pending and above the threshold; ResetLineIdle and ClicSplit.SplitClic.Pending use it |
| Clic.Clic.CanTake | sw/tests/runtime_clic_nested/clic-nested.c:208-222 | specification of a line the hart takes now: eligible, interrupts enabled and above the current level `mil`; Rank and Arbitrate are stated in terms of it |
| Clic.Clic.Rank | sw/tests/runtime_clic_nested/clic-nested.c:180-222 | a line has a non-negative rank exactly when it can be taken now: it is pending, enabled and above both the threshold and the current level, and interrupts are globally enabled |
| Clic.Clic.Arbitrate | sw/tests/runtime_clic_nested/clic-nested.c:208-222 | the CLIC presents a takeable line whose level is at least every other line's rank, or reports that no line can be taken |
| Clic.Clic.Take | sw/tests/runtime_clic/clic-enter-leave/clic-enter-leave.c:62-72 | taking line `i` clears its pending bit when it is edge-triggered, raises the level to the line's level and saves the old one, enters the trap (TrapEnter) and reports `i` as the interrupt's code; nothing else changes |
| Clic.Clic.Mret | sw/tests/runtime_clic/clic-enter-leave/clic-enter-leave.c:156-163 | `mret` restores the saved level and returns from the trap (TrapReturn) |
| ClicTests.ResetLineIdle | sw/tests/runtime_clic_basic/clic-basic.c:161-163 | a line left at its reset value is never eligible or takeable |
| ClicTests.OnlyTouchedTakeable | sw/tests/runtime_clic_nested/clic-nested.c:208-222 | when every other line is at reset, only lines the test configured can be taken |
| ClicTests.UpdateEach | sw/tests/runtime_clic/clic-mnxti/clic-mnxti.c:192-394 | each of the mnxti test's per-line write blocks sets one field on exactly its listed lines |
| ClicTests.ConfiguredFields | sw/tests/runtime_clic_nested/clic-nested.c:125-188 | after the setup writes, a line has the chosen SHV bit, is edge-triggered, is pending, has the chosen control byte and has its IE bit unchanged |
| ClicTests.ConfigureLines | sw/tests/runtime_clic_nested/clic-nested.c:125-188 | the setup sequence (SHV, TRIG, IP, nlbits = 4, CTL) configures the listed lines and no other |
| ClicTests.MintthreshReadBack | sw/tests/runtime_clic_basic/clic-basic.c:105-110 | writing 0xffaa reads back 0xaa and the test's comparison holds; the threshold is reset to 0 |
| ClicTests.ClicBasic | sw/tests/runtime_clic_basic/clic-basic.c:80-178 | no interrupt is taken at threshold 0xff; once the threshold is lowered, line 31 is taken and the `exit_success` hook ends the program with 0 |
| ClicTests.EnterLeaveSetup | sw/tests/runtime_clic/clic-enter-leave/clic-enter-leave.c:108-143 | the setup leaves line 31 at `0xaa03_0101` with threshold 0xb, every other line at reset, and `mintstatus` 0 |
| ClicTests.EnterLeaveDelay | sw/tests/runtime_clic/clic-enter-leave/clic-enter-leave.c:147-156 | enabling line 31 makes the handler run; it sees excode 31 and raises the threshold; after `mret` the level is 0 again |
| ClicTests.ClicEnterLeave | sw/tests/runtime_clic/clic-enter-leave/clic-enter-leave.c:74-166 | the handler runs and `mintstatus` after the interrupt equals `mintstatus` before it, so the test returns 0 |
| ClicTests.NestedSetup | sw/tests/runtime_clic_nested/clic-nested.c:125-205 | lines 31 (0xaa) and 30 (0x88) are configured and enabled under threshold 0xff, and no interrupt fires |
| ClicTests.NestedFirst | sw/tests/runtime_clic_nested/clic-nested.c:208-215 | lowering the threshold to 0 takes line 31 first, and its handler acknowledges it |
| ClicTests.NestedSecond | sw/tests/runtime_clic_nested/clic-nested.c:215-222 | after line 31 returns, line 30 is taken next |
| ClicTests.ClicNested | sw/tests/runtime_clic_nested/clic-nested.c:91-225 | the interrupts are handled in the order [31, 30], both taken from thread level 0 (neither preempts the other), and the test exits with 0 |
| ClicTests.Preempt | sw/tests/runtime_clic_nested/clic-nested.c:20-28 | a handler at level `mil` with interrupts enabled is preempted only by a line above `mil`; after the inner `mret` the hart is back at `mil` with interrupts enabled, and mcause.mpil holds `mil` |
| ClicTests.NestingSetup | sw/tests/runtime_clic_nested/clic-nested.c:125-215 | the nested test's lines with only the lower-level line 30 pending and the threshold at 0 |
| ClicTests.NestingOuter | sw/tests/runtime_clic_nested/clic-nested.c:23 | the thread takes line 30 first; the level rises to 0x8f and mcause records interrupt 30 taken from level 0 |
| ClicTests.NestingIsr0Entry | sw/tests/runtime_clic_nested/clic-nested.c:24 | `isr_0` reads mcause (interrupt 30, previous level 0), makes line 31 pending and re-enables interrupts |
| ClicTests.NestingInner | sw/tests/runtime_clic_nested/clic-nested.c:24-25 | line 31 (level 0xaf) preempts `isr_0` at level 0x8f; after `isr_1` returns, the level is 0x8f again |
| ClicTests.NestingReturn | sw/tests/runtime_clic_nested/clic-nested.c:26-27 | `isr_0` returns to thread level 0 only if it writes back the mcause it read; otherwise the hart stays at level 0x8f, since the inner trap overwrote the single saved level |
| ClicTests.ClicNestedAsDocumented | sw/tests/runtime_clic_nested/clic-nested.c:20-28 | the documented sequence handles [30, 31], the second taken at level 0x8f inside the first, and exits with 0; the level after the last `mret` is 0 only when `isr_0` restores mcause |
| ClicTests.ClicCsr | sw/tests/runtime_clic/clic-csr/clic-csr.c:40-75 | every assertion of the CSR test holds, so it returns 0 |
| ClicTests.MnxtiConfigure | sw/tests/runtime_clic/clic-mnxti/clic-mnxti.c:185-353 | the writes leave lines 31…26 with the test's SHV, trigger, pending and control values (0x11 on 31/30/29/26, 0x33 on 28/27) and `mnxticonf` enabled |
| ClicTests.MnxtiEnable | sw/tests/runtime_clic/clic-mnxti/clic-mnxti.c:358-394 | the threshold goes to 0xff, then lines 31…26 get IE set |
| ClicTests.MnxtiSetup | sw/tests/runtime_clic/clic-mnxti/clic-mnxti.c:157-398 | the whole setup, ending in a state where no interrupt has fired |
| ClicTests.MnxtiLowerThreshold | sw/tests/runtime_clic/clic-mnxti/clic-mnxti.c:409 | at threshold 0x22 exactly lines 27 and 28 (level 0x3f) are eligible |
| ClicTests.TclsClicSetup | sw/tests/runtime_tcls/runtime_tcls.c:83-115 | line 21 is edge-triggered with control 0xaa and enabled, every other line is at reset, and a pending TCLS resynch request would be above the threshold |
| ClicMnxti.Step | sw/tests/runtime_clic/clic-mnxti/clic-mnxti.c:106-155 | specification of one handler run on the flags: which flag it sets and which earlier flags its assert demands; ExpectedPasses, StepFails and OnlyExpectedPasses state its properties |
| ClicMnxti.Run | sw/tests/runtime_clic/clic-mnxti/clic-mnxti.c:106-155 | specification of a sequence of handler runs, one Step per delivered line |
| ClicMnxti.RunSnoc | sw/tests/runtime_clic/clic-mnxti/clic-mnxti.c:132-155 | delivering one more line extends a run by one handler step, which is how the monitor's loop follows Run |
| ClicMnxti.FailedStays | sw/tests/runtime_clic/clic-mnxti/clic-mnxti.c:132-155 | once a handler's check fails, later handlers cannot clear the failure |
| ClicMnxti.ExpectedPasses | sw/tests/runtime_clic/clic-mnxti/clic-mnxti.c:132-155 | delivering each line once in the order 27, 29, 28, 30, 31, 26 satisfies every handler's check and sets every flag |
| ClicMnxti.StepFails | sw/tests/runtime_clic/clic-mnxti/clic-mnxti.c:132-155 | a delivery whose handler's precondition is not met marks the run as failed for good |
| ClicMnxti.OnlyExpectedPasses | sw/tests/runtime_clic/clic-mnxti/clic-mnxti.c:132-155 | any delivery order that passes all handler checks and sets every flag is exactly that expected order |
| ClicMnxti.Monitor.constructor | sw/tests/runtime_clic/clic-mnxti/clic-mnxti.c:157-184 | the handlers' flags all start cleared |
| ClicMnxti.Monitor.Deliver | sw/tests/runtime_clic/clic-mnxti/clic-mnxti.c:132-155 | one handler run updates the flags as the specification `Step` says |
| ClicMnxti.Monitor.DeliverAll | sw/tests/runtime_clic/clic-mnxti/clic-mnxti.c:132-155 | a sequence of deliveries updates the flags as `Run` says |
| ClicMnxti.ClicMnxtiTest | sw/tests/runtime_clic/clic-mnxti/clic-mnxti.c:157-416 | the test exits with 0 exactly when the lines are delivered in the expected order |
| ClicSplit.Byte | sw/tests/runtime_clic/clic-basic/clic-basic.c:134-145 | a byte register keeps exactly the low 8 bits of a written value |
| ClicSplit.OrInTrig | sw/tests/runtime_clic/clic-basic/clic-basic.c:139-141 | OR-ing the trigger bit into the attribute keeps SHV and sets the edge bit of TRIG |
| ClicSplit.SplitClic.constructor | sw/tests/runtime_clic/clic-basic/clic-basic.c:92-123 | every byte register starts at 0 |
| ClicSplit.SplitClic.Write | sw/tests/runtime_clic/clic-basic/clic-basic.c:134-167 | `writeb`/`writew` to one of a line's four registers keeps the low byte in that register and changes no other |
| ClicSplit.SplitClic.ReadAttr | sw/tests/runtime_clic/clic-basic/clic-basic.c:140 | reading the attribute register returns its byte |
| ClicSplit.SplitClic.WriteCliccfg | sw/tests/runtime_clic/clic-basic/clic-basic.c:151-152 | `cliccfg` keeps the low byte of the written value |
| ClicSplit.SplitClic.WriteMintthresh | sw/tests/runtime_clic/clic-basic/clic-basic.c:118-123 | only the low 8 bits of `mintthresh` are stored |
| ClicSplit.SplitClic.ReadMintthresh | sw/tests/runtime_clic/clic-basic/clic-basic.c:118-123 | reading `mintthresh` returns the stored threshold |
| ClicSplit.SplitClic.Pending | sw/tests/runtime_clic/clic-basic/clic-basic.c:161-175 | reports an eligible line when there is one, and none only when no line is eligible |
| ClicSplit.OnlyLine31Pending | sw/tests/runtime_clic/clic-basic/clic-basic.c:161-175 | when every other line is at reset, only line 31 can be eligible |
| ClicSplit.SplitConfigureAttr | sw/tests/runtime_clic/clic-basic/clic-basic.c:134-141 | the SHV and trigger writes leave line 31's attribute at 3 and no other register changed |
| ClicSplit.SplitSetup | sw/tests/runtime_clic/clic-basic/clic-basic.c:118-156 | the threshold check passes, and line 31 ends with attribute 3, pending, control 0xaa and nlbits 4 |
| ClicSplit.SplitBasic | sw/tests/runtime_clic/clic-basic/clic-basic.c:92-186 | nothing fires at threshold 0xff; at threshold 0 line 31 is taken and the program exits with 0 |
| Atomics.AmoResult | sw/tests/runtime_atops/runtime_atops.c:114-185 | specification of the word each AMO leaves, unsigned and modulo 2^32; MaxuIsMaximum, MinuIsMinimum, AddSubRestores and the bit lemmas state its properties |
| Atomics.MaxuIsMaximum | sw/tests/runtime_atops/runtime_atops.c:46-54 | `amomaxu` stores the unsigned maximum: one of the operands, and no smaller than either |
| Atomics.MinuIsMinimum | sw/tests/runtime_atops/runtime_atops.c:56-64 | `amominu` stores the unsigned minimum: one of the operands, and no larger than either |
| Atomics.MaxuSuccessor | sw/tests/runtime_atops/runtime_atops.c:163-166 | `amomaxu` with the successor of a non-maximal value stores the successor |
| Atomics.MinuPredecessor | sw/tests/runtime_atops/runtime_atops.c:174-177 | `amominu` with the predecessor of a non-zero value stores the predecessor |
| Atomics.AddSubRestores | sw/tests/runtime_atops/runtime_atops.c:114-125 | `amoadd` of `a` then of `-a` restores the word, modulo 2^32 |
| Atomics.AndClearsBit1 | sw/tests/runtime_atops/runtime_atops.c:132-135 | `amoand` with `~2` clears bit 1 and keeps every other bit |
| Atomics.OrSetsBit1 | sw/tests/runtime_atops/runtime_atops.c:142-145 | `amoor` with 2 sets bit 1 and keeps every other bit |
| Atomics.XorTogglesBit1 | sw/tests/runtime_atops/runtime_atops.c:152-155 | `amoxor` with 2 flips bit 1 and keeps every other bit |
| Atomics.Cell.constructor | sw/tests/runtime_atops/runtime_atops.c:190-203 | a cell holds its initial value and no reservation |
| Atomics.Cell.Store | sw/tests/runtime_atops/runtime_atops.c:88-92 | a plain store writes the word and drops the reservation |
| Atomics.Cell.LoadReserved | sw/tests/runtime_atops/runtime_atops.c:28-35 | `lr.w` returns the word and takes a reservation |
| Atomics.Cell.StoreConditional | sw/tests/runtime_atops/runtime_atops.c:37-44 | `sc.w` succeeds (returns 0) exactly when a reservation is held; it stores the word only then and always drops the reservation |
| Atomics.Cell.Amo | sw/tests/runtime_atops/runtime_atops.c:114-185 | every AMO returns the old word and stores the operation's result, and drops the reservation |
| Atomics.TestAtomics | sw/tests/runtime_atops/runtime_atops.c:70-188 | on a cell that nothing else writes, every check passes (error count 0), the sequence of values observed is the expected one, and the cell ends at 42 |
| Atomics.AtopsMain | sw/tests/runtime_atops/runtime_atops.c:190-206 | `main` as written returns 0, and on distinct cells both tests find no errors and leave 42 |
| Atomics.MainExitAsWritten | sw/tests/runtime_atops/runtime_atops.c:190-206 | the exit code `main` returns as written, 0 whatever the error count; MainExitHidesErrors sets it against MainExit for every count |
| Atomics.MainExit | sw/tests/runtime_atops/runtime_atops.c:190-206 | the intended exit code is 0 exactly when there were no errors |
| Atomics.MainExitHidesErrors | sw/tests/runtime_atops/runtime_atops.c:197-205 | `main` as written agrees with the intended exit code exactly when there were no errors: for every non-zero error count it returns 0 where the intended exit is non-zero |
| Atomics.AtopsMainIntended | sw/tests/runtime_atops/runtime_atops.c:190-206 | the corrected `main` returns the error count's verdict, which is 0 here |
| Stimuli.RangeIsQuotient | sw/tests/runtime_tcls/gen_stimuli.py:20-21 | `RANGE = int(2**15 / SIZE)` is the floor of 32768 / 24 |
| Stimuli.GenOperands | sw/tests/runtime_tcls/gen_stimuli.py:27-33 | the operand matrices take the draws in the script's order and hold SIZE * SIZE values in [-RANGE, RANGE - 1] |
| Stimuli.Dot | sw/tests/runtime_tcls/gen_stimuli.py:35-42 | specification of the row-by-column sum, accumulated in the script's order; DotBound and PartialSumsFitInt32 bound it |
| Stimuli.GenExpected | sw/tests/runtime_tcls/gen_stimuli.py:35-42 | every expected element is the row-by-column dot product of the operands |
| Stimuli.ProductBound | sw/tests/runtime_tcls/gen_stimuli.py:27-42 | a product of two operands has magnitude at most RANGE² |
| Stimuli.MagnitudeBound | sw/tests/runtime_tcls/gen_stimuli.py:27-42 | the product of two magnitudes within RANGE is between 0 and RANGE² |
| Stimuli.DotBound | sw/tests/runtime_tcls/gen_stimuli.py:35-42 | a partial dot product of length k has magnitude at most k * RANGE² |
| Stimuli.PartialSumsFitInt32 | sw/tests/runtime_tcls/runtime_tcls.c:128-138 | every product and partial sum of the C multiplication fits a 32-bit `int`, so the C code cannot overflow |
| Stimuli.Digits | sw/tests/runtime_tcls/gen_stimuli.py:7-14 | the decimal text of a natural number is never empty |
| Stimuli.Decimal | sw/tests/runtime_tcls/gen_stimuli.py:7-14 | `str(v)` of an integer is never empty |
| Stimuli.DigitsRoundTrip | sw/tests/runtime_tcls/gen_stimuli.py:7-14 | parsing the decimal digits of n gives back n, and the text holds only digits |
| Stimuli.DecimalRoundTrip | sw/tests/runtime_tcls/gen_stimuli.py:7-14 | parsing `str(v)` gives back v, and the text holds only digits and a minus sign |
| Stimuli.Element | sw/tests/runtime_tcls/gen_stimuli.py:10-13 | specification of one element's text: a line break and tab before each row, the value, a comma |
| Stimuli.Elements | sw/tests/runtime_tcls/gen_stimuli.py:7-14 | specification of the text of the first n elements; ElementsCounts counts its commas and tabs |
| Stimuli.ElementCounts | sw/tests/runtime_tcls/gen_stimuli.py:10-13 | each element's text holds one comma, and a tab exactly when it starts a row |
| Stimuli.ElementsCounts | sw/tests/runtime_tcls/gen_stimuli.py:7-14 | the text of n elements holds n commas and one tab per row start |
| Stimuli.RowStartsInRow | sw/tests/runtime_tcls/gen_stimuli.py:10-11 | only the first index of a row starts a new line |
| Stimuli.RowStartsOfRows | sw/tests/runtime_tcls/gen_stimuli.py:7-14 | a matrix of r full rows has r row starts |
| Stimuli.ArrText | sw/tests/runtime_tcls/gen_stimuli.py:7-14 | specification of the text `write_arr` produces for one array; ElementsCounts counts its elements' commas and row starts |
| Stimuli.WriteArr | sw/tests/runtime_tcls/gen_stimuli.py:7-14 | `write_arr` writes exactly `ArrText`: the declaration line, the elements in order, and the closing brace |
| Stimuli.Trailer | sw/tests/runtime_tcls/gen_stimuli.py:49-55 | specification of the header's closing lines: the SIZE define and the four matrix declarations |
| Stimuli.TrailerDefinesSize | sw/tests/runtime_tcls/gen_stimuli.py:49-55 | the trailer starts with `#define SIZE 24` |
| Stimuli.GenStimuli | sw/tests/runtime_tcls/gen_stimuli.py:20-55 | the script's operands are in range; the expected matrix is their product and fits 32-bit integers; the header written is exactly the text of `m_a`, `m_b` and `m_exp` followed by the trailer; the expected array's text has SIZE² commas and SIZE row starts |
| Tcls.MatrixInit | sw/tests/runtime_tcls/runtime_tcls.c:34-44 | `matrix_init` copies the operands into A and B and zeroes C |
| Tcls.Multiply | sw/tests/runtime_tcls/runtime_tcls.c:128-138 | the triple loop leaves each C element equal to the dot product of the operands |
| Tcls.RowMismatches | sw/tests/runtime_tcls/runtime_tcls.c:46-60 | specification of the mismatch count in a row prefix; RowMismatchesMeaning states its meaning |
| Tcls.Mismatches | sw/tests/runtime_tcls/runtime_tcls.c:46-60 | specification of the mismatch count over the first rows; MismatchesMeaning states its meaning |
| Tcls.RowMismatchesMeaning | sw/tests/runtime_tcls/runtime_tcls.c:46-60 | a row's mismatch count is at most the number of columns checked, and is 0 exactly when all of them match |
| Tcls.MismatchesMeaning | sw/tests/runtime_tcls/runtime_tcls.c:46-60 | the mismatch count over i rows is at most i * SIZE, and is 0 exactly when every element matches |
| Tcls.MatrixCheck | sw/tests/runtime_tcls/runtime_tcls.c:46-60 | `matrix_check` returns the number of mismatching elements, which is 0 exactly when C equals the expected matrix |
| Tcls.TclsMatMul | sw/tests/runtime_tcls/runtime_tcls.c:119-179 | C ends as the product, and the error count is the mismatches plus one if the mismatch counter is not 2; 0 exactly when C matches and the counter is 2 |
| Tcls.TclsMain | sw/tests/runtime_tcls/runtime_tcls.c:62-180 | the CLIC setup and then the multiplication, with the same verdict |
| Tcls.GenerateAndRun | sw/tests/runtime_tcls/runtime_tcls.c:147-179 | on stimuli from the generator the product always matches, so the test passes exactly when the mismatch counter reads 2 |
| Boot.MainAsWritten | boot/boot_code.c:34-84 | as written: mode 1 waits for the debugger; mode 2 jumps to the value read from the BOOTMODE register, which is 2; any other mode spins |
| Boot.Main | boot/boot_code.c:51-84 | as intended: mode 1 waits for the debugger, mode 2 jumps to the BOOTADDR register's value, any other mode spins |
| Boot.AsWrittenDependsOnlyOnBootmode | boot/boot_code.c:34-39 | the written code's outcome ignores BOOTADDR entirely |
| Boot.AsWrittenJumpsToModeNumber | boot/boot_code.c:34-39 | the written and the intended behaviour agree except in preloaded mode, where they agree only if BOOTADDR happens to be 2 |
| Boot.PreloadedEntryMissed | boot/boot_code.c:37-38 | with BOOTADDR = 0x6001_0080 the written code jumps to 2 and the intended code jumps to the entry point |
| Axi.Wrap | sw/tests/runtime_output_axi/runtime_output_axi.c:113-125 | `uintptr_t` arithmetic wraps modulo 2^32 and leaves in-range addresses unchanged |
| Axi.WordOfBytes | sw/tests/runtime_output_axi/runtime_output_axi.c:119-122 | splitting a word into little-endian bytes and reassembling gives it back |
| Axi.BytesOfWord | sw/tests/runtime_output_axi/runtime_output_axi.c:119-122 | assembling four bytes and splitting the word gives the bytes back |
| Axi.Stored | sw/tests/runtime_output_axi/runtime_output_axi.c:119 | a 32-bit store keeps the memory a full 2^32-byte address space |
| Axi.Loaded | sw/tests/runtime_output_axi/runtime_output_axi.c:122 | specification of a 32-bit little-endian load, wrapping around the address space; LoadStore, LoadStoreOther and LoadedByte state its properties |
| Axi.LoadStore | sw/tests/runtime_output_axi/runtime_output_axi.c:119-124 | reading back a just-written word gives the written value |
| Axi.LoadStoreOther | sw/tests/runtime_output_axi/runtime_output_axi.c:97-102 | a store does not change a word at least 4 bytes away |
| Axi.StoredByte | sw/tests/runtime_output_axi/runtime_output_axi.c:119 | a store puts byte k of the value at address a + k, wrapping around |
| Axi.LoadedByte | sw/tests/runtime_output_axi/runtime_output_axi.c:122 | byte k of a loaded word is the byte at address a + k |
| Axi.OverlapClobbers | sw/tests/runtime_output_axi/runtime_output_axi.c:132-149 | two stores of the same pattern at overlapping, unequal addresses corrupt the first word when the pattern's bytes differ |
| Axi.WriteWord | sw/tests/runtime_output_axi/runtime_output_axi.c:119 | the array store changes memory exactly as `Stored` says |
| Axi.ReadWord | sw/tests/runtime_output_axi/runtime_output_axi.c:122 | the array load returns `Loaded` |
| Axi.PatternBytesDistinct | sw/tests/runtime_output_axi/runtime_output_axi.c:97-99 | the four bytes of 0xcafedead are pairwise different |
| Axi.FirstLastGeometry | sw/tests/runtime_output_axi/runtime_output_axi.c:92-104 | the last word `to - 1` coincides with `from` exactly when the range is one word, and is at least a word away exactly when the range is two words or more |
| Axi.ProbeFirstLast | sw/tests/runtime_output_axi/runtime_output_axi.c:92-104 | with a working assert, the probe passes exactly when `to > from` and the first and last words do not partly overlap; memory holds both stores, or is untouched when the range is empty |
| Axi.ProbeInRange | sw/tests/runtime_output_axi/runtime_output_axi.c:112-125 | every sampled address `from + i * incr` stays below `to` and needs no wrap-around |
| Axi.NextProbeAddr | sw/tests/runtime_output_axi/runtime_output_axi.c:125 | `addr += incr` moves to the next sample's address |
| Axi.ProbeStores | sw/tests/runtime_output_axi/runtime_output_axi.c:118-125 | the memory after the first n samples of the probe is still a full address space; Axi.ProbeRange states the memory in its terms |
| Axi.Probe | sw/tests/runtime_output_axi/runtime_output_axi.c:118-124 | one sample: the value written is read back and memory holds it |
| Axi.ProbeRange | sw/tests/runtime_output_axi/runtime_output_axi.c:107-129 | with a working assert, the probe passes exactly when `samples > 0` and `to > from`; memory then holds each sample value at its address in turn, and otherwise is untouched |
| Axi.BlockStores | sw/tests/runtime_output_axi/runtime_output_axi.c:138-139 | the memory after the first n words of a block is still a full address space; BlockReadBack states what it reads back |
| Axi.BlockWordsApart | sw/tests/runtime_output_axi/runtime_output_axi.c:138-139 | the words of one block do not overlap |
| Axi.BlockReadBack | sw/tests/runtime_output_axi/runtime_output_axi.c:142-146 | after a block is written, each of its words reads back as `0xcafecafe + i` |
| Axi.WordReadsBack | sw/tests/runtime_output_axi/runtime_output_axi.c:142-146 | specification of one check of the read loop: word i of the block holds `0xcafecafe + i` |
| Axi.ReadsBack | sw/tests/runtime_output_axi/runtime_output_axi.c:142-146 | specification of a block whose checks all pass |
| Axi.SmallBlockReadsBack | sw/tests/runtime_output_axi/runtime_output_axi.c:137-146 | a freshly written block of at most 2^30 words passes every check of the read loop |
| Axi.ScanStores | sw/tests/runtime_output_axi/runtime_output_axi.c:132-149 | the memory after the blocks from `block` up to `to` are written is still a full address space; ScanRange states the memory in its terms |
| Axi.BlocksOverlap | sw/tests/runtime_output_axi/runtime_output_axi.c:135-139 | blocks advance by `blocksize` bytes but span `4 * blocksize` bytes, so consecutive blocks overlap |
| Axi.ScanRange | sw/tests/runtime_output_axi/runtime_output_axi.c:132-149 | every block's read-back passes when blocks fit the address space, and memory holds the sequence of block writes |
| Axi.ScanBlock | sw/tests/runtime_output_axi/runtime_output_axi.c:137-147 | one block writes its words; the read-back passes exactly when every word of the freshly written block reads back, which it always does for blocks of at most 2^30 words; the remaining scan continues from the next block |
| Axi.WriteBlock | sw/tests/runtime_output_axi/runtime_output_axi.c:138-139 | the write loop stores the block's words as `BlockStores` says |
| Axi.ReadBlock | sw/tests/runtime_output_axi/runtime_output_axi.c:142-146 | the read loop passes exactly when every word of the block reads back its value |
| Axi.CNot | sw/tests/runtime_output_axi/runtime_output_axi.c:51-57 | specification of C's `!` on an integer: 1 for 0, 0 otherwise |
| Axi.EqFiresAsWritten | sw/tests/runtime_output_axi/runtime_output_axi.c:51-57 | specification of when `assert(a == b)` fires as the macro expands it, `!a == b`; EqAsWrittenFiresOnZero and AsWrittenMissesMismatch state its behaviour |
| Axi.GtFiresAsWritten | sw/tests/runtime_output_axi/runtime_output_axi.c:51-57 | specification of when `assert(a > b)` fires as the macro expands it, `!a > b`; GtAsWrittenOnAddresses and SamplesCheckAsWritten state its behaviour |
| Axi.EqAsWrittenFiresOnZero | sw/tests/runtime_output_axi/runtime_output_axi.c:51-57 | with the unparenthesised `!expression`, `assert(expected == read)` for a non-zero `expected` fires exactly when the read value is 0, not on a mismatch |
| Axi.AsWrittenMissesMismatch | sw/tests/runtime_output_axi/runtime_output_axi.c:118-124 | a sample that reads back a wrong, non-zero value passes the written assert |
| Axi.GtAsWrittenOnAddresses | sw/tests/runtime_output_axi/runtime_output_axi.c:110 | the written `assert(to > from)` fires only when both addresses are 0 |
| Axi.SamplesCheckAsWritten | sw/tests/runtime_output_axi/runtime_output_axi.c:109 | the written `assert(samples > 0)` fires only for `samples == 0`, and lets negative counts through |
| Axi.MainProbeGeometry | sw/tests/runtime_output_axi/runtime_output_axi.c:64-81 | `main`'s last word is at 0x3fff_fffb, which is not word-aligned and lies inside the range, and the probe step is 0x7f_ffff |
| Axi.AxiMain | sw/tests/runtime_output_axi/runtime_output_axi.c:64-89 | `main` returns 0, and memory holds the first/last probe followed by the sampled probe |
| SwAnalysis.Find | sw/tests/runtime_coremark/pulp/sw_analysis.py:15-20 | `str.find` returns -1 exactly when the pattern does not occur, and otherwise the first position where it does |
| SwAnalysis.FindStep | sw/tests/runtime_coremark/pulp/sw_analysis.py:15-20 | searching a string without its first character shifts the found position by one |
| SwAnalysis.Classify | sw/tests/runtime_coremark/pulp/sw_analysis.py:15-20 | specification of the `if`/`elif` chain: `sb` first, then `sh`, then `sw`; CountsOneLine states its effect on the counters |
| SwAnalysis.Tally | sw/tests/runtime_coremark/pulp/sw_analysis.py:9-20 | specification of the counters after a sequence of lines; TallyAppend, TallyMiddle and TallyOrderIndependent state its properties |
| SwAnalysis.CountsOneLine | sw/tests/runtime_coremark/pulp/sw_analysis.py:15-20 | one line raises at most one counter by one, `sb` taking precedence over `sh` over `sw` |
| SwAnalysis.TotalAtMostLines | sw/tests/runtime_coremark/pulp/sw_analysis.py:9-20 | the three counts together never exceed the number of lines |
| SwAnalysis.CountPlus | sw/tests/runtime_coremark/pulp/sw_analysis.py:15-20 | counting a line commutes with adding tallies |
| SwAnalysis.TallyAppend | sw/tests/runtime_coremark/pulp/sw_analysis.py:9-20 | the tally of two concatenated traces is the sum of their tallies |
| SwAnalysis.TallyMiddle | sw/tests/runtime_coremark/pulp/sw_analysis.py:9-20 | removing a line from the middle of a trace subtracts exactly its own count |
| SwAnalysis.TallyOrderIndependent | sw/tests/runtime_coremark/pulp/sw_analysis.py:9-20 | any reordering of the lines gives the same counts |
| SwAnalysis.LinesRead | sw/tests/runtime_coremark/pulp/sw_analysis.py:9-12 | the loop reads up to, not including, the first empty `readline()` result, or the whole file |
| SwAnalysis.Analyze | sw/tests/runtime_coremark/pulp/sw_analysis.py:3-24 | the counters are the tally of the lines read before end of file, and their total is at most that many lines |
| Scmi.PowerStateParam | sw/tests/runtime_shared/include/scmi_protocol.h:145-149 | the parameter holds bit 0 of the type at bit 30 and the low 28 bits of the id, and has bits 28, 29 and 31 clear |
| Scmi.GenericStates | sw/tests/runtime_shared/include/scmi_protocol.h:150-151 | GENERIC_ON is 0 and GENERIC_OFF is 0x4000_0000 |
| Scmi.PowerStateParamInjective | sw/tests/runtime_shared/include/scmi_protocol.h:145-149 | equal parameters come from the same type bit and the same 28-bit id |
| Scmi.IntervalSecs | sw/tests/runtime_shared/include/scmi_protocol.h:232 | the seconds field is bits 20..5, a 16-bit value |
| Scmi.IntervalExp | sw/tests/runtime_shared/include/scmi_protocol.h:233-240 | the exponent is bits 4..0 read as a 5-bit two's-complement number, in [-16, 15] |
| Scmi.UpdateSecs | sw/tests/runtime_shared/include/scmi_protocol.h:296-298 | the update seconds are bits 31..16 |
| Scmi.UpdateExp | sw/tests/runtime_shared/include/scmi_protocol.h:300-309 | the update exponent is bits 15..11 read as a signed 5-bit number, in [-16, 15] |
| Scmi.TstampEnabled | sw/tests/runtime_shared/include/scmi_protocol.h:316-320 | the timestamp flag is 1 exactly when bit 1 is set |
| Scmi.SensorEnabled | sw/tests/runtime_shared/include/scmi_protocol.h:322-326 | the enabled flag is 1 exactly when bit 0 is set |
| Scmi.ConfigFieldsDisjoint | sw/tests/runtime_shared/include/scmi_protocol.h:296-326 | the sensor configuration fields (secs, exp, round, timestamp, enabled) occupy disjoint bits |
| Scmi.ConfigSetReads | sw/tests/runtime_shared/include/scmi_protocol.h:296-326 | setting a configuration field then reading it gives the value set |
| Scmi.ConfigSetKeepsOthers | sw/tests/runtime_shared/include/scmi_protocol.h:296-326 | setting one configuration field leaves the others' values unchanged |
| Scmi.PackHeader | sw/tests/runtime_shared/include/scmi_protocol.h:436-442 | a packed header has its 4-bit `zero` field clear |
| Scmi.UnpackHeader | sw/tests/runtime_shared/include/scmi_protocol.h:436-442 | unpacked fields are within their bit-field widths (8, 2, 8, 10, 4) |
| Scmi.HeaderFieldsTile | sw/tests/runtime_shared/include/scmi_protocol.h:436-442 | the five bit fields cover all 32 bits without overlap |
| Scmi.UnpackPack | sw/tests/runtime_shared/include/scmi_protocol.h:436-442 | unpacking a packed header with a zero `zero` field gives it back |
| Scmi.PackUnpack | sw/tests/runtime_shared/include/scmi_protocol.h:436-442 | packing the unpacked fields of a word whose top 4 bits are clear gives the word back |
| CarMemoryMap.L2RegionsTile | sw/tests/runtime_shared/include/car_memory_map.h:24-33 | the L2 ports and their interleaved and non-interleaved halves tile 0x7800_0000 … 0x7840_0000 without gaps |
| CarMemoryMap.TilingDisjoint | sw/tests/runtime_shared/include/car_memory_map.h:24-33 | in a tiling, an earlier region ends before a later one begins, so no address lies in both |
| CarMemoryMap.L2RegionsDisjoint | sw/tests/runtime_shared/include/car_memory_map.h:24-33 | no address belongs to two different L2 regions |
| CarMemoryMap.SafetyIslandLayout | sw/tests/runtime_shared/include/car_memory_map.h:36-49 | the island's entry point is a word-aligned address in its scratchpad, its SoC control registers sit at the start of its peripherals, and the scratchpad ends before them |
| CarMemoryMap.ClicCfgBase | sw/tests/runtime_shared/include/car_memory_map.h:82 | specification of `CLIC_CFG_BASE_ADDR(id)`; ClicCfgIgnoresId states that it ignores the id |
| CarMemoryMap.ClicCfgIgnoresId | sw/tests/runtime_shared/include/car_memory_map.h:82 | `CLIC_CFG_BASE_ADDR(id)` is 0x0800_0000 whatever the id |
| CarMemoryMap.PeriphBase | sw/tests/runtime_shared/include/car_memory_map.h:85-103 | specification of the host peripherals' base addresses; PeriphBasesDistinct orders them |
| CarMemoryMap.PeriphBasesDistinct | sw/tests/runtime_shared/include/car_memory_map.h:85-103 | the host peripherals' bases are in increasing order, each at least 4 KiB after the previous one |
| CarMemoryMap.MboxAddr | sw/tests/runtime_shared/include/car_memory_map.h:106-129 | a mailbox register's address decodes back to its mailbox id and register offset |
| CarMemoryMap.MboxAddrInjective | sw/tests/runtime_shared/include/car_memory_map.h:106-129 | two mailbox registers share an address exactly when they are the same register of the same mailbox, and the 25 mailboxes stay in their window |
| CarMemoryMap.MboxAddrOfSumAsWritten | sw/tests/runtime_shared/include/car_memory_map.h:112-129 | the mailbox macro as written applied to `a + b`; MboxMacroMisparses and MboxAsWrittenAgreesOnlyForZero compare it with MboxAddr |
| CarMemoryMap.MboxMacroMisparses | sw/tests/runtime_shared/include/car_memory_map.h:112-129 | the unparenthesised `id*0x100` makes `MBOX_CAR_LETTER0(1 + 1)` 0x4000_0181 instead of 0x4000_0280 |
| CarMemoryMap.MboxAsWrittenAgreesOnlyForZero | sw/tests/runtime_shared/include/car_memory_map.h:112-129 | passing `a + b` to the macro gives the intended address exactly when `a` is 0 |
| CarMemoryMap.PllBase | sw/tests/runtime_shared/include/car_memory_map.h:133-135 | each PLL's window starts one or more whole windows above `PLL_BASE_ADDRESS` |
| CarMemoryMap.PllWindowsDisjoint | sw/tests/runtime_shared/include/car_memory_map.h:133-135 | distinct PLL ids get disjoint windows one address space apart, and no id maps to the bare base |
| IslandMemoryMap.Base | boot/include/archi/chips/safety-island/memory_map.h:21-25 | the island's base is 0x6000_0000 in Carfield and 0 otherwise |
| IslandMemoryMap.LocalPriv0Addr | boot/include/archi/chips/safety-island/memory_map.h:33 | specification of the first private bank's address; BanksAdjacent states the bank layout |
| IslandMemoryMap.LocalPriv1Addr | boot/include/archi/chips/safety-island/memory_map.h:36 | specification of the second private bank's address, right after the first |
| IslandMemoryMap.L2Priv0Addr | boot/include/archi/chips/safety-island/memory_map.h:40 | specification of the L2 alias of the first bank |
| IslandMemoryMap.L2Priv1Addr | boot/include/archi/chips/safety-island/memory_map.h:43 | specification of the L2 alias of the second bank |
| IslandMemoryMap.BanksAdjacent | boot/include/archi/chips/safety-island/memory_map.h:33-48 | the second private bank directly follows the first, the L2 names alias the local banks, and there is no shared L2 |
| IslandMemoryMap.PeripheralsAddr | boot/include/archi/chips/safety-island/memory_map.h:54 | specification of the peripheral window's address; PeripheralsAboveBanks places it above the banks |
| IslandMemoryMap.PeripheralsAboveBanks | boot/include/archi/chips/safety-island/memory_map.h:26-54 | the peripherals start above the end of the private banks |
| IslandMemoryMap.PeriphAddr | boot/include/archi/chips/safety-island/memory_map.h:56-70 | specification of the island's peripheral addresses; PeriphAddrsDistinct states they are distinct and inside the window |
| IslandMemoryMap.PeriphAddrsDistinct | boot/include/archi/chips/safety-island/memory_map.h:56-70 | the seven peripherals have distinct addresses inside the peripheral window |
| IslandMemoryMap.AgreesWithCarfieldMap | boot/include/archi/chips/safety-island/memory_map.h:21-70 | in Carfield, the island's own map agrees with the host's view: same base, peripheral offset, scratchpad end and SoC control address, and the entry point lies in bank 1 |
| CsrNumbers.Number | boot/include/archi/riscv/priv_1_11.h:20-99 | specification of each named CSR's number; DecodeNumber, NumberOfDecoded and NumbersDistinct state its properties |
| CsrNumbers.HeaderTag | boot/include/archi/riscv/priv_1_11.h:20-99 | specification of the level and access each definition's comment gives; TableFollowsConvention checks them against the number |
| CsrNumbers.FromNumber | boot/include/archi/riscv/priv_1_11.h:20-99 | specification of the lookup from a number to the named CSR; DecodeNumber and NumberOfDecoded make it the inverse of Number |
| CsrNumbers.Convention | boot/include/archi/riscv/priv_1_11.h:20-99 | bits 11..10 of a CSR number say read-only exactly when they are both set; bits 9..8 give the privilege level; 0x7B0…0x7BF is debug-only |
| CsrNumbers.TableFollowsConvention | boot/include/archi/riscv/priv_1_11.h:20-99 | every named CSR's number is 12 bits, and the access and level in its comment follow the numbering convention |
| CsrNumbers.DecodeNumber | boot/include/archi/riscv/priv_1_11.h:20-99 | looking up a named CSR's number finds that CSR |
| CsrNumbers.NumberOfDecoded | boot/include/archi/riscv/priv_1_11.h:20-99 | a number that decodes to a CSR is that CSR's number, so the table and its inverse agree |
| CsrNumbers.DecodeUserSound | boot/include/archi/riscv/priv_1_11.h:20-32 | the user page's decoder only returns CSRs with the given number |
| CsrNumbers.DecodeSupervisorSound | boot/include/archi/riscv/priv_1_11.h:44-57 | the supervisor page's decoder only returns CSRs with the given number |
| CsrNumbers.DecodeMachineSound | boot/include/archi/riscv/priv_1_11.h:64-88 | the machine page's decoder only returns CSRs with the given number |
| CsrNumbers.DecodeDebugSound | boot/include/archi/riscv/priv_1_11.h:91-99 | the trigger and debug page's decoder only returns CSRs with the given number |
| CsrNumbers.DecodeMachineCounterSound | boot/include/archi/riscv/priv_1_11.h:81-86 | the machine counter page's decoder only returns CSRs with the given number |
| CsrNumbers.DecodeUserCounterSound | boot/include/archi/riscv/priv_1_11.h:34-42 | the user counter page's decoder only returns CSRs with the given number |
| CsrNumbers.DecodeMachineInfoSound | boot/include/archi/riscv/priv_1_11.h:59-62 | the machine information page's decoder only returns CSRs with the given number |
| CsrNumbers.NumbersDistinct | boot/include/archi/riscv/priv_1_11.h:20-99 | no two named CSRs share a number |
| CsrNumbers.HpmCounter | boot/include/archi/riscv/priv_1_11.h:37 | specification of `CSR_HPMCOUNTER(id)`; the counter lemmas below state its properties |
| CsrNumbers.HpmCounterH | boot/include/archi/riscv/priv_1_11.h:42 | specification of `CSR_HPMCOUNTERH(id)` |
| CsrNumbers.MhpmCounter | boot/include/archi/riscv/priv_1_11.h:83 | specification of `CSR_MHPMCOUNTER(id)` |
| CsrNumbers.MhpmCounterH | boot/include/archi/riscv/priv_1_11.h:86 | specification of `CSR_MHPMCOUNTERH(id)` |
| CsrNumbers.MhpmEvent | boot/include/archi/riscv/priv_1_11.h:89 | specification of `CSR_MHPMEVENT(id)` |
| CsrNumbers.PmpCfg | boot/include/archi/riscv/priv_1_11.h:78 | specification of `CSR_PMPCFG(id)`; PmpNumbersFree states its properties |
| CsrNumbers.PmpAddr | boot/include/archi/riscv/priv_1_11.h:79 | specification of `CSR_PMPADDR(id)`; PmpNumbersFree states its properties |
| CsrNumbers.CounterFamiliesStartAtFixedRegisters | boot/include/archi/riscv/priv_1_11.h:34-89 | ids 0-2 of the counter macros name cycle, time and instret (and their high halves and machine versions), and `CSR_MHPMEVENT(0)` is `mcountinhibit` |
| CsrNumbers.ParameterisedNumbersFree | boot/include/archi/riscv/priv_1_11.h:37-89 | for ids 3…31 the counter and event macros give numbers that no named CSR uses |
| CsrNumbers.PmpNumbersFree | boot/include/archi/riscv/priv_1_11.h:78-79 | the PMP configuration and address macros give numbers that no named CSR uses |
| CsrNumbers.ParameterisedNumbersFollowConvention | boot/include/archi/riscv/priv_1_11.h:37-89 | the counter macros give user read-only numbers; the machine counter, event and PMP macros give machine read-write numbers |
| CsrNumbers.RvAliasesAreMachineRegisters | boot/include/archi/riscv/priv_1_11.h:102-108 | every `RV_CSR_*` alias names a machine-level CSR; exactly `mimpid` and `mhartid` among them are read-only |
| Bits.Get | sw/tests/runtime_shared/include/scmi_protocol.h:232 | specification of `FIELD_GET`: the field's bits shifted down; Clic.PlacedValue and Scmi.ConfigSetReads state its properties |
| Bits.Put | sw/tests/runtime_clic_basic/clic-basic.c:119-121 | specification of the clear-then-OR field update; Clic.UpdateSetsField and Clic.UpdateKeepsOtherField state its properties |
| Bits.SignExtend5 | sw/tests/runtime_shared/include/scmi_protocol.h:233-240 | specification of the sign extension the SCMI macros write out; SignExtend5Value gives its value |
| Bits.SignExtend5Value | sw/tests/runtime_shared/include/scmi_protocol.h:233-240 | OR-ing bits 31..5 into a 5-bit field whose bit 4 is set gives the field's two's-complement value |

## Left out

- Console output (`printf`, `puts`, `print_clic_csr_state`'s printing) is not modelled. Reading `mclicbase` and `mepc` only feeds that output.
- `clic.h` and `clicint.h` are not part of this model. Register offsets and bit positions follow the CLIC register map.
- The vector table setup (`clic_setup_mtvec`, `clic_setup_mtvt`) is not modelled. Which handler serves which line is assumed, as listed above.
- The busy-wait delay loops are not modelled. An interrupt that can be taken is taken during the delay, with no timing.
- Volatile re-reads are assumed to return the value last written: the memory behind the AXI plug is modelled as ideal, byte-addressed RAM.
- The TCLS test's HMR configuration writes and the `nop` padding are not modelled, because the lockstep hardware is not modelled. The TCLS mismatch counter read back at the end is a parameter.
- The fault injection the TCLS test is built for, and the resynchronisation interrupt on line 21 that recovery raises, are not modelled. The multiplication runs fault-free, and the interrupt line stays idle.
- `random.randint` draws in gen_stimuli.py are a parameter sequence. File writes are modelled as the produced text.
- The trace file read by sw_analysis.py is a sequence of lines, each ending in its newline. The three final `print` calls are not modelled.
- Boot: `jump_to_address`, the `goto` to an address and the `wfi` loop are modelled as outcomes (`Jump`, `WaitForDebugger`, `Spin`), not as control transfers.
- Axi.ScanRange: requires `0 < blocksize < 2^31` and `to + blocksize <= 2^32`, so the last block starts below the top of the address space. `main` never calls `scan_range`: the call is commented out at lines 84-85.
- Axi.ProbeFirstLast and Axi.ProbeRange model the assert the program evidently intends. The written macro is covered separately under Findings.
- Axi.ReadBlock, Axi.ScanBlock and Axi.ScanRange likewise check each word with the intended `expected == read`, not the written `!expected == read`; Axi.EqAsWrittenFiresOnZero covers what the written macro checks.
- Axi.ScanRange: states that every check passes only for blocks of at most 2^30 words. A larger block wraps onto itself, and whether its checks pass depends on the block's position; Axi.ScanBlock and Axi.ReadBlock state the outcome exactly for every block size.
- ClicMnxti.ClicMnxtiTest: takes the order in which the six lines are delivered as a parameter, and states the exit code for every order. The mnxti claim loop and the controller's choice of the next line are not modelled, so the model does not show that the hardware delivers them in the documented order.
- Scmi.PowerStateParamInjective states the injective direction only, on the masked type and id, since the macro discards the other bits.
- The ROUND field of the sensor configuration is covered by ConfigFieldsDisjoint and the field lemmas, but it has no reader macro in the source, so it has no own function.
- The fpu, timer, uart, bus-error, ECC and OpenMP tests are not modelled. They are outside the modelled core.
- The CSR comments' names and descriptions are not modelled, only the numbers and the level/access tags.
- Host peripheral constants of car_memory_map.h other than the ones listed in the table are not modelled: the integer and floating-point cluster, HyperRAM and error codes. They are plain constants with no relation the software depends on.

## Findings

| source | as written | input that shows it | evidently intended | confidence | as-written member | corrected member |
|---|---|---|---|---|---|---|
| sw/tests/runtime_atops/runtime_atops.c:190-206 | `main` ignores the error counts of both `test_atomics` calls and returns 0 | one failed check: error count 1, exit code 0 | exit non-zero when any check failed | high; not executed | Atomics.MainExitAsWritten, Atomics.MainExitHidesErrors, Atomics.AtopsMain | Atomics.MainExit, Atomics.AtopsMainIntended |
| boot/boot_code.c:34-39 | `boot_preloaded` reads the BOOTMODE register and jumps to its value | preloaded mode (2) with BOOTADDR = 0x6001_0080 jumps to address 2 | jump to the address held in the BOOTADDR register | high; not executed | Boot.MainAsWritten, Boot.PreloadedEntryMissed | Boot.Main |
| sw/tests/runtime_output_axi/runtime_output_axi.c:51-57 | the assert macro expands to `!expression` without parentheses, so `!a == b` negates only `a` | `expected = 0xcafedead + 0xab`, read value 1: no assertion fires | `if (!(expression))` | high; not executed | Axi.EqAsWrittenFiresOnZero, Axi.AsWrittenMissesMismatch, Axi.GtAsWrittenOnAddresses, Axi.SamplesCheckAsWritten | Axi.ProbeFirstLast, Axi.ProbeRange |
| sw/tests/runtime_shared/include/car_memory_map.h:112-129 | the mailbox macros use `id*0x100` with `id` unparenthesised | `MBOX_CAR_LETTER0(1 + 1)` gives 0x4000_0181 | `(id)*0x100`, giving 0x4000_0280 | medium (no caller in this repository passes an expression); not executed | CarMemoryMap.MboxAddrOfSumAsWritten, CarMemoryMap.MboxMacroMisparses | CarMemoryMap.MboxAddr, CarMemoryMap.MboxAddrInjective |
| sw/tests/runtime_clic_nested/clic-nested.c:20-222 | both lines are pending before the threshold drops, and `isr_0` neither makes line 31 pending nor sets MIE again, so line 31 is taken, returns, and line 30 is taken after it, each from thread level 0; nothing nests | the test's own configuration: line 31 at control 0xaa, line 30 at 0x88, both pending, threshold lowered from 0xff to 0 | the opening comment's sequence: line 30 taken first, `isr_0` raises line 31 and is preempted by it | medium (the comment at lines 162-175 explains part of the hardware's ordering); not executed | ClicTests.ClicNested | ClicTests.ClicNestedAsDocumented, ClicTests.Preempt |
