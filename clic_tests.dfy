/**
 * The CLIC bring-up tests, each `main` replayed against the controller model.
 *
 * A test configures lines with read-modify-writes, moves the threshold and
 * waits in a delay loop; during a delay the controller presents the
 * highest-level takeable line (`Arbitrate`), the hart takes it, runs the
 * handler the test installed and returns with `mret`. Every `assert` of a
 * test and every `exit` call becomes part of the exit code the method returns.
 */
module ClicTests {
  import opened Bits
  import opened Clic

  /** Every line except those named in `used` is still at its reset value. */
  predicate UntouchedExcept(c: Clic, used: set<nat>)
    reads c
  {
    forall j :: 0 <= j < |c.lines| && j !in used ==> c.lines[j] == 0
  }

  /** A line at its reset value is neither enabled nor pending. */
  lemma ResetLineIdle(c: Clic, j: nat)
    requires j < |c.lines| && c.lines[j] == 0
    ensures !c.Eligible(j) && !c.CanTake(j)
  {
    assert Get(0, IE) == 0;
  }

  /** Only a line the test has touched can be taken. */
  lemma OnlyTouchedTakeable(c: Clic, used: set<nat>)
    requires UntouchedExcept(c, used)
    ensures forall j :: 0 <= j < |c.lines| && c.CanTake(j) ==> j in used
  {
    forall j | 0 <= j < |c.lines| && j !in used
      ensures !c.CanTake(j)
    {
      ResetLineIdle(c, j);
    }
  }

  /** Distinct line numbers, all present in the controller. */
  predicate LineList(c: Clic, ids: seq<nat>)
    reads c
  {
    && (forall k :: 0 <= k < |ids| ==> ids[k] < |c.lines|)
    && (forall k, m :: 0 <= k < m < |ids| ==> ids[k] != ids[m])
  }

  /**
   * The same read-modify-write of field `f` applied line after line, as the
   * tests write it out once per line: each listed line gets its own value and
   * every other line is left as it was.
   */
  method UpdateEach(c: Clic, ids: seq<nat>, f: Field, vals: seq<bv32>)
    requires c.Valid() && LineList(c, ids) && LineField(f)
    requires |vals| == |ids| && forall k :: 0 <= k < |vals| ==> Fits(f, vals[k])
    modifies c`lines
    ensures c.Valid() && |c.lines| == |old(c.lines)|
    ensures forall k :: 0 <= k < |ids| ==> c.lines[ids[k]] == Put(old(c.lines)[ids[k]], f, vals[k])
    ensures forall j :: 0 <= j < |c.lines| && j !in ids ==> c.lines[j] == old(c.lines)[j]
  {
    var k := 0;
    while k < |ids|
      invariant 0 <= k <= |ids|
      invariant c.Valid() && |c.lines| == |old(c.lines)|
      invariant forall m :: 0 <= m < k ==> c.lines[ids[m]] == Put(old(c.lines)[ids[m]], f, vals[m])
      invariant forall j :: 0 <= j < |c.lines| && j !in ids[..k] ==> c.lines[j] == old(c.lines)[j]
    {
      c.UpdateLineField(ids[k], f, vals[k]);
      k := k + 1;
    }
  }

  /** The value a line register holds after the tests' SHV, TRIG, IP and CTL writes. */
  function Configured(x: bv32, shv: bv32, ctl: bv32): bv32 {
    Put(Put(Put(Put(x, SHV, shv), TRIG, 1), IP, 1), CTL, ctl)
  }

  /** A configured line holds the chosen SHV and CTL, is edge-triggered and pending, and keeps its enable bit. */
  lemma ConfiguredFields(x: bv32, shv: bv32, ctl: bv32)
    requires shv <= 1 && ctl <= 0xff
    ensures Get(Configured(x, shv, ctl), SHV) == shv
    ensures Get(Configured(x, shv, ctl), TRIG) == 1 && EdgeTriggered(Configured(x, shv, ctl))
    ensures Get(Configured(x, shv, ctl), IP) == 1
    ensures Get(Configured(x, shv, ctl), CTL) == ctl
    ensures Get(Configured(x, shv, ctl), IE) == Get(x, IE)
  {
    var a := Put(x, SHV, shv);
    var b := Put(a, TRIG, 1);
    var d := Put(b, IP, 1);
    UpdateSetsField(x, SHV, shv);
    UpdateKeepsOtherField(a, TRIG, 1, SHV);
    UpdateKeepsOtherField(b, IP, 1, SHV);
    UpdateKeepsOtherField(d, CTL, ctl, SHV);
    UpdateSetsField(a, TRIG, 1);
    UpdateKeepsOtherField(b, IP, 1, TRIG);
    UpdateKeepsOtherField(d, CTL, ctl, TRIG);
    UpdateSetsField(b, IP, 1);
    UpdateKeepsOtherField(d, CTL, ctl, IP);
    UpdateSetsField(d, CTL, ctl);
    UpdateKeepsOtherField(x, SHV, shv, IE);
    UpdateKeepsOtherField(a, TRIG, 1, IE);
    UpdateKeepsOtherField(b, IP, 1, IE);
    UpdateKeepsOtherField(d, CTL, ctl, IE);
  }

  /**
   * The configuration block shared by the CLIC tests: SHV on every listed line,
   * then edge triggering, then the pending bit, then nlbits = 4 as a
   * whole-register write of mcliccfg, then the control bytes.
   */
  method ConfigureLines(c: Clic, ids: seq<nat>, shvs: seq<bv32>, ctls: seq<bv32>)
    requires c.Valid() && LineList(c, ids) && |shvs| == |ids| && |ctls| == |ids|
    requires forall k :: 0 <= k < |ids| ==> shvs[k] <= 1 && ctls[k] <= 0xff
    modifies c`lines, c`mcliccfg
    ensures c.Valid() && |c.lines| == |old(c.lines)| && c.mcliccfg == 4
    ensures forall k :: 0 <= k < |ids| ==> c.lines[ids[k]] == Configured(old(c.lines)[ids[k]], shvs[k], ctls[k])
    ensures forall j :: 0 <= j < |c.lines| && j !in ids ==> c.lines[j] == old(c.lines)[j]
  {
    var ones := seq(|ids|, _ => 1);
    UpdateEach(c, ids, SHV, shvs);
    UpdateEach(c, ids, TRIG, ones);
    UpdateEach(c, ids, IP, ones);
    c.WriteMcliccfg(4 << NLBITS.offset);
    UpdateEach(c, ids, CTL, ctls);
  }

  // ---------------------------------------------------------------------------
  // runtime_clic_basic/clic-basic.c
  // ---------------------------------------------------------------------------

  /** The handler installed in `clic_isr_hook[0]`. */
  datatype Hook = ExitFail | ExitSuccess

  function HookExit(h: Hook): int {
    match h
    case ExitFail => 1
    case ExitSuccess => 0
  }

  /** `csr_write(mintthresh, 0xffaa)`, read back, reset to 0: only the low 8 bits were written. */
  method MintthreshReadBack(c: Clic) returns (ok: bool)
    modifies c`mintthresh
    ensures ok && c.mintthresh == 0
  {
    c.WriteMintthresh(0xffaa);
    var cmp := c.ReadMintthresh();
    c.WriteMintthresh(0);
    ok := cmp == 0xffaa & 0xff;
  }

  /**
   * The threshold test: 0xffaa reads back as 0xaa. Then line 31 is configured
   * and enabled under threshold 0xff (a dispatch would run `exit_fail`), and the
   * threshold is lowered to 0 (a dispatch runs `exit_success`). Without a
   * dispatch `main` returns 1.
   */
  method ClicBasic(n: nat) returns (exit: int, handled: Option<nat>)
    requires 32 <= n <= 0x1000
    ensures exit == 0 && handled == Some(31)
  {
    var c := new Clic(n);
    var csrOk := MintthreshReadBack(c);
    ConfigureLines(c, [31], [1], [0xaa]);
    assert Configured(0, 1, 0xaa) == 0xaa03_0001;
    assert c.lines[31] == 0xaa03_0001;

    c.WriteMintthresh(0xff);
    var hook := ExitFail;
    c.UpdateLineField(31, IE, 1);
    assert c.lines[31] == 0xaa03_0101 && UntouchedExcept(c, {31});
    OnlyTouchedTakeable(c, {31});
    var early := c.Arbitrate();
    assert !c.CanTake(31);
    var earlyHook := hook;

    hook := ExitSuccess;
    c.WriteMintthresh(0);
    OnlyTouchedTakeable(c, {31});
    handled := c.Arbitrate();
    assert c.CanTake(31);
    if handled.Some? {
      c.Take(handled.value);
    }
    exit := if !csrOk then 1
            else if early.Some? then HookExit(earlyHook)
            else if handled.Some? then HookExit(hook)
            else 1;
  }

  // ---------------------------------------------------------------------------
  // runtime_clic/clic-enter-leave.c
  // ---------------------------------------------------------------------------

  /**
   * The controller between interrupts in the single-hart tests: only the lines
   * in `used` were touched, nlbits is 4, the hart runs at level 0 with
   * interrupts enabled.
   */
  predicate Quiet(c: Clic, used: set<nat>)
    reads c
  {
    c.Valid() && 32 <= |c.lines| && UntouchedExcept(c, used) && c.mcliccfg == 4
    && c.mil == 0 && c.mpil == 0 && c.Mie()
  }

  /** Line 31 configured at control 0xaa under threshold 0x0b; mintstatus read; the line enabled. */
  method EnterLeaveSetup(n: nat) returns (c: Clic, before: bv32)
    requires 32 <= n <= 0x1000
    ensures fresh(c) && Quiet(c, {31}) && c.lines[31] == 0xaa03_0101 && c.mintthresh == 0x0b
    ensures before == 0
  {
    c := new Clic(n);
    ConfigureLines(c, [31], [1], [0xaa]);
    assert Configured(0, 1, 0xaa) == 0xaa03_0001;
    assert c.lines[31] == 0xaa03_0001;
    c.WriteMintthresh(0x0b);
    before := c.ReadMintstatus();
    c.UpdateLineField(31, IE, 1);
  }

  /**
   * The delay after enabling line 31: the line is taken, and the handler sets
   * `interrupt_happened`, checks that the low bits of mcause name line 31 and
   * raises the threshold to 0xff before `mret`.
   */
  method EnterLeaveDelay(c: Clic) returns (happened: bool, causeOk: bool)
    requires Quiet(c, {31}) && c.lines[31] == 0xaa03_0101 && c.mintthresh == 0x0b
    modifies c
    ensures c.Valid() && c.mil == 0
    ensures happened && causeOk
  {
    OnlyTouchedTakeable(c, {31});
    var r := c.Arbitrate();
    assert c.CanTake(31);
    happened, causeOk := false, true;
    if r.Some? {
      c.Take(r.value);
      happened := true;
      var cause := c.ReadMcause();
      McauseExcode(c.McauseFields());
      causeOk := cause & 0x3ff == 31;
      c.WriteMintthresh(0xff);
      c.Mret();
    }
  }

  /**
   * The enter-leave test: mintstatus read before the interrupt equals the one
   * read after its handler returned, and the handler ran and saw line 31.
   */
  method ClicEnterLeave(n: nat) returns (exit: int, before: bv32, after: bv32)
    requires 32 <= n <= 0x1000
    ensures exit == 0 && before == after
  {
    var c;
    c, before := EnterLeaveSetup(n);
    var happened, causeOk := EnterLeaveDelay(c);
    after := c.ReadMintstatus();
    exit := if !happened || !causeOk || before != after then 1 else 0;
  }

  // ---------------------------------------------------------------------------
  // runtime_clic_nested/clic-nested.c
  // ---------------------------------------------------------------------------

  /** The test's flags: `int0_ack`, `int1_ack`, and whether the assert in `isr_0` held. */
  datatype Acks = Acks(int0: bool, int1: bool, isr0Ok: bool)

  /** The handler run for a line: `isr_1` on line 31, `isr_0` (which checks `int1_ack`) on line 30. */
  function NestedIsr(line: nat, a: Acks): Acks {
    if line == 31 then a.(int1 := true)
    else if line == 30 then a.(int0 := true, isr0Ok := a.isr0Ok && a.int1)
    else a
  }

  /**
   * Lines 31 (control 0xaa) and 30 (control 0x88) configured, made pending and
   * enabled under threshold 0xff: nothing can be taken.
   */
  method NestedSetup(n: nat) returns (c: Clic, early: Option<nat>)
    requires 32 <= n <= 0x1000
    ensures fresh(c) && Quiet(c, {30, 31}) && c.mintthresh == 0xff
    ensures c.lines[31] == 0xaa03_0101 && c.lines[30] == 0x8803_0101
    ensures early.None?
  {
    c := new Clic(n);
    ConfigureLines(c, [31, 30], [1, 1], [0xaa, 0x88]);
    assert Configured(0, 1, 0xaa) == 0xaa03_0001 && Configured(0, 1, 0x88) == 0x8803_0001;
    assert [31, 30][0] == 31 && [31, 30][1] == 30;
    assert c.lines[31] == 0xaa03_0001 && c.lines[30] == 0x8803_0001;
    c.WriteMintthresh(0xff);
    UpdateEach(c, [31, 30], IE, [1, 1]);
    assert c.lines[31] == 0xaa03_0101 && c.lines[30] == 0x8803_0101;
    OnlyTouchedTakeable(c, {30, 31});
    early := c.Arbitrate();
    assert !c.CanTake(31) && !c.CanTake(30);
  }

  /** The first dispatch at threshold 0: line 31 outranks line 30 and runs `isr_1`. */
  method NestedFirst(c: Clic, a: Acks) returns (first: Option<nat>, a': Acks)
    requires Quiet(c, {30, 31}) && c.mintthresh == 0
    requires c.lines[31] == 0xaa03_0101 && c.lines[30] == 0x8803_0101
    modifies c
    ensures Quiet(c, {30, 31}) && c.mintthresh == 0
    ensures c.lines[31] == 0xaa03_0100 && c.lines[30] == 0x8803_0101
    ensures first == Some(31) && a' == NestedIsr(31, a)
  {
    OnlyTouchedTakeable(c, {30, 31});
    first := c.Arbitrate();
    assert c.CanTake(30) && c.Rank(30) < c.Rank(31);
    a' := a;
    if first.Some? {
      TrapRoundTrip(c.mstatus);
      c.Take(first.value);
      a' := NestedIsr(first.value, a);
      c.Mret();
    }
  }

  /** The second dispatch: line 31 is no longer pending, line 30 runs `isr_0`. */
  method NestedSecond(c: Clic, a: Acks) returns (second: Option<nat>, a': Acks)
    requires Quiet(c, {30, 31}) && c.mintthresh == 0
    requires c.lines[31] == 0xaa03_0100 && c.lines[30] == 0x8803_0101
    modifies c
    ensures Quiet(c, {30, 31}) && c.mintthresh == 0
    ensures c.lines[31] == 0xaa03_0100 && c.lines[30] == 0x8803_0100
    ensures second == Some(30) && a' == NestedIsr(30, a)
  {
    OnlyTouchedTakeable(c, {30, 31});
    second := c.Arbitrate();
    assert !c.CanTake(31) && c.CanTake(30);
    a' := a;
    if second.Some? {
      TrapRoundTrip(c.mstatus);
      c.Take(second.value);
      a' := NestedIsr(second.value, a);
      c.Mret();
    }
  }

  /**
   * The nested test: once the threshold drops to 0 both lines are takeable;
   * line 31 has the higher level (0xaf against 0x8f) and is taken first, its
   * handler `isr_1` sets `int1_ack`. After its `mret` line 30 is taken and
   * `isr_0` finds `int1_ack` set. A dispatch before the hooks are installed
   * would call through a null hook and is counted as a failure.
   */
  method ClicNested(n: nat) returns (exit: int, order: seq<nat>, takenFrom: seq<bv32>)
    requires 32 <= n <= 0x1000
    ensures exit == 0 && order == [31, 30]
    ensures takenFrom == [0, 0]
  {
    var c, early := NestedSetup(n);
    c.WriteMintthresh(0);
    var from1 := c.mil;
    var first, a := NestedFirst(c, Acks(false, false, true));
    var from2 := c.mil;
    var second;
    second, a := NestedSecond(c, a);
    order := [first.value, second.value];
    takenFrom := [from1, from2];
    exit := if early.Some? || !a.isr0Ok || !a.int1 then 1 else 0;
  }

  // ----- nesting as the comment at the head of clic-nested.c describes it ---

  /**
   * A handler running at level mil with interrupts enabled again is preempted
   * by line `j`, whose handler runs and returns. Only a line above mil can be
   * taken; the inner `mret` brings the hart back to the outer level with
   * interrupts enabled, and leaves that level in mcause.mpil, where the level
   * the outer handler interrupted used to be.
   */
  method Preempt(c: Clic, j: nat)
    requires c.Valid() && j < |c.lines| && c.CanTake(j)
    modifies c
    ensures c.Valid()
    ensures old(c.LineLevel(j)) > old(c.mil)
    ensures c.lines == old(c.lines)[j := if EdgeTriggered(old(c.lines)[j]) then Put(old(c.lines)[j], IP, 0)
                                         else old(c.lines)[j]]
    ensures c.mcliccfg == old(c.mcliccfg) && c.mintthresh == old(c.mintthresh)
    ensures c.mil == old(c.mil) && c.mpil == old(c.mil)
    ensures c.Mie() && c.Mpie()
  {
    TrapRoundTrip(c.mstatus);
    TrapReturnStack(TrapEnter(c.mstatus));
    c.Take(j);
    c.Mret();
  }

  /**
   * Step 1 of the documented sequence: the lines of the nested test, with only
   * the lower-level line 30 pending and the threshold at 0.
   */
  method NestingSetup(n: nat) returns (c: Clic)
    requires 32 <= n <= 0x1000
    ensures fresh(c) && Quiet(c, {30, 31}) && c.mintthresh == 0
    ensures c.lines[31] == 0xaa03_0100 && c.lines[30] == 0x8803_0101
  {
    var early;
    c, early := NestedSetup(n);
    c.UpdateLineField(31, IP, 0);
    assert Put(0xaa03_0101, IP, 0) == 0xaa03_0100;
    c.WriteMintthresh(0);
  }

  /** Step 2: line 30 is taken from thread code. */
  method NestingOuter(c: Clic) returns (first: Option<nat>)
    requires Quiet(c, {30, 31}) && c.mintthresh == 0
    requires c.lines[31] == 0xaa03_0100 && c.lines[30] == 0x8803_0101
    modifies c
    ensures c.Valid() && 32 <= |c.lines| && UntouchedExcept(c, {30, 31}) && c.mcliccfg == 4 && c.mintthresh == 0
    ensures c.lines[31] == 0xaa03_0100 && c.lines[30] == 0x8803_0100
    ensures c.mil == 0x8f && c.mpil == 0 && c.Mpie() && c.interrupt && !c.minhv && c.excode == 30
    ensures first == Some(30)
  {
    OnlyTouchedTakeable(c, {30, 31});
    first := c.Arbitrate();
    assert c.CanTake(30) && !c.CanTake(31);
    assert first == Some(30);
    TrapEnterStack(c.mstatus);
    c.Take(30);
  }

  /** `isr_0` starts: it reads mcause, makes line 31 pending and sets MIE again. */
  method NestingIsr0Entry(c: Clic) returns (saved: bv32)
    requires c.Valid() && 32 <= |c.lines| && c.lines[31] == 0xaa03_0100
    requires c.mpil == 0 && c.Mpie() && c.interrupt && !c.minhv && c.excode == 30
    modifies c`lines, c`mstatus
    ensures c.Valid() && |c.lines| == old(|c.lines|) && c.lines == old(c.lines)[31 := 0xaa03_0101]
    ensures c.Mie()
    ensures saved == EncodeMcause(Mcause(true, false, PRV_M, true, 0, 30))
  {
    MppReadsMachine(c.mstatus);
    saved := c.ReadMcause();
    c.UpdateLineField(31, IP, 1);
    assert Put(0xaa03_0100, IP, 1) == 0xaa03_0101;
    var _ := c.ReadSetMstatus(MSTATUS_MIE);
  }

  /**
   * Step 3: during the delay in `isr_0` line 31 preempts it, its level 0xaf
   * being above mil = 0x8f; `isr_1` sets `int1_ack` and returns to `isr_0`
   * at level 0x8f.
   */
  method NestingInner(c: Clic) returns (second: Option<nat>)
    requires c.Valid() && 32 <= |c.lines| && UntouchedExcept(c, {30, 31}) && c.mcliccfg == 4 && c.mintthresh == 0
    requires c.lines[31] == 0xaa03_0101 && c.lines[30] == 0x8803_0100
    requires c.mil == 0x8f && c.Mie()
    modifies c
    ensures c.Valid() && c.mil == 0x8f && c.mpil == 0x8f && c.Mpie()
    ensures second == Some(31)
  {
    OnlyTouchedTakeable(c, {30, 31});
    second := c.Arbitrate();
    assert c.CanTake(31) && !c.CanTake(30);
    assert second == Some(31);
    Preempt(c, 31);
  }

  /** Clearing MIE, as `csr_read_clear` leaves mstatus, keeps MPIE. */
  lemma ClearMieKeepsMpie(ms: bv32)
    ensures ((ms & !MSTATUS_MIE) | MSTATUS_MPP) & MSTATUS_MPIE == ms & MSTATUS_MPIE
  {
  }

  /**
   * Steps 4 and 5: `isr_0` clears MIE and, when `restore` holds, writes the
   * mcause it read back before its `mret`. Only with that write does the hart
   * return to thread level 0: mcause holds a single mpil, and the preempting
   * trap overwrote it with 0x8f.
   */
  method NestingReturn(c: Clic, saved: bv32, restore: bool)
    requires c.Valid() && c.mil == 0x8f && c.mpil == 0x8f && c.Mpie()
    requires DecodeMcause(saved) == Mcause(true, false, PRV_M, true, 0, 30)
    modifies c`mstatus, c`mil, c`interrupt, c`minhv, c`mpil, c`excode
    ensures c.Valid() && c.Mie()
    ensures c.mil == if restore then 0 else 0x8f
  {
    ClearMieKeepsMpie(c.mstatus);
    var _ := c.ReadClearMstatus(MSTATUS_MIE);
    if restore {
      c.WriteMcause(DecodeMcause(saved));
    }
    TrapReturnStack(c.mstatus);
    c.Mret();
  }

  /**
   * The sequence the comment at the head of clic-nested.c describes: the
   * thread takes the lower-level line 30; `isr_0` sets `int0_ack`, makes the
   * higher-level line 31 pending and re-enables interrupts; line 31 preempts
   * it and `isr_1` sets `int1_ack`; `isr_0` finds `int1_ack` set and returns.
   * The second trap is taken at level 0x8f, and the level after each `mret`
   * is recorded; the hart is back at level 0 only when `isr_0` restores the
   * mcause it read.
   */
  method ClicNestedAsDocumented(n: nat, restore: bool)
    returns (exit: int, order: seq<nat>, takenFrom: seq<bv32>, milAfter: seq<bv32>)
    requires 32 <= n <= 0x1000
    ensures exit == 0 && order == [30, 31]
    ensures takenFrom == [0, 0x8f]
    ensures milAfter == [0x8f, if restore then 0 else 0x8f]
  {
    var c := NestingSetup(n);
    var from1 := c.mil;
    var first := NestingOuter(c);
    var saved := NestingIsr0Entry(c);
    McauseRoundTrip(Mcause(true, false, PRV_M, true, 0, 30));
    var a := Acks(true, false, true);
    var from2 := c.mil;
    var second := NestingInner(c);
    a := NestedIsr(second.value, a);
    var inner := c.mil;
    a := a.(isr0Ok := a.isr0Ok && a.int1);
    NestingReturn(c, saved, restore);
    order := [first.value, second.value];
    takenFrom := [from1, from2];
    milAfter := [inner, c.mil];
    exit := if !a.isr0Ok || !a.int1 then 1 else 0;
  }

  // ---------------------------------------------------------------------------
  // runtime_clic/clic-csr.c
  // ---------------------------------------------------------------------------

  /**
   * The CSR test: the threshold keeps only its low byte; mintstatus ignores
   * writes; setting MPP and MPIE in mstatus shows through mcause as mpp = 3 and
   * mpie = 1, and clearing them leaves mpp = 3 (hardwired) and mpie = 0.
   */
  method ClicCsr(n: nat) returns (exit: int)
    requires n <= 0x1000
    ensures exit == 0
  {
    var c := new Clic(n);
    var threshOk := MintthreshReadBack(c);

    var status := c.ReadMintstatus();
    c.WriteMintstatus(0xffff_ffff);
    var status2 := c.ReadMintstatus();

    var prev := c.ReadSetMstatus((3 << 11) | (1 << 7));
    var cause := c.ReadMcause();
    var setOk := (cause >> 28) & 3 == 3 && (cause >> 27) & 1 == 1;

    prev := c.ReadClearMstatus((3 << 11) | (1 << 7));
    cause := c.ReadMcause();
    var clearOk := (cause >> 28) & 3 == 3 && (cause >> 27) & 1 == 0;

    exit := if threshOk && status == status2 && setOk && clearOk then 0 else 1;
  }

  // ---------------------------------------------------------------------------
  // runtime_clic/clic-mnxti/clic-mnxti.c
  // ---------------------------------------------------------------------------

  /** The lines the mnxti test configures, in the order it writes them. */
  const MNXTI_LINES: seq<nat> := [31, 30, 29, 28, 27, 26]

  /**
   * The mnxti test's configuration: mnxti enabled in the global register, SHV
   * on lines 31 and 27 only, all six lines edge-triggered and pending, control
   * 0x11 on 31, 30, 29 and 26 and 0x33 on 28 and 27.
   */
  method MnxtiConfigure(n: nat) returns (c: Clic)
    requires 32 <= n <= 0x1000
    ensures fresh(c) && Quiet(c, {26, 27, 28, 29, 30, 31}) && c.mintthresh == 0
    ensures c.mnxticonf == 1
    ensures c.lines[31] == 0x1103_0001 && c.lines[27] == 0x3303_0001
    ensures c.lines[30] == 0x1102_0001 && c.lines[29] == 0x1102_0001 && c.lines[26] == 0x1102_0001
    ensures c.lines[28] == 0x3302_0001
  {
    c := new Clic(n);
    c.EnableMnxti();
    ConfigureLines(c, MNXTI_LINES, [1, 0, 0, 0, 1, 0], [0x11, 0x11, 0x11, 0x33, 0x33, 0x11]);
    assert Configured(0, 1, 0x11) == 0x1103_0001 && Configured(0, 0, 0x11) == 0x1102_0001;
    assert Configured(0, 0, 0x33) == 0x3302_0001 && Configured(0, 1, 0x33) == 0x3303_0001;
    assert MNXTI_LINES[0] == 31 && MNXTI_LINES[1] == 30 && MNXTI_LINES[2] == 29;
    assert MNXTI_LINES[3] == 28 && MNXTI_LINES[4] == 27 && MNXTI_LINES[5] == 26;
  }

  /** Threshold 0xff, then all six lines enabled. */
  method MnxtiEnable(c: Clic)
    requires Quiet(c, {26, 27, 28, 29, 30, 31})
    requires c.lines[31] == 0x1103_0001 && c.lines[27] == 0x3303_0001
    requires c.lines[30] == 0x1102_0001 && c.lines[29] == 0x1102_0001 && c.lines[26] == 0x1102_0001
    requires c.lines[28] == 0x3302_0001
    modifies c`lines, c`mintthresh
    ensures Quiet(c, {26, 27, 28, 29, 30, 31}) && c.mintthresh == 0xff
    ensures c.lines[31] == 0x1103_0101 && c.lines[27] == 0x3303_0101
    ensures c.lines[30] == 0x1102_0101 && c.lines[29] == 0x1102_0101 && c.lines[26] == 0x1102_0101
    ensures c.lines[28] == 0x3302_0101
  {
    c.WriteMintthresh(0xff);
    UpdateEach(c, MNXTI_LINES, IE, [1, 1, 1, 1, 1, 1]);
    assert MNXTI_LINES[0] == 31 && MNXTI_LINES[1] == 30 && MNXTI_LINES[2] == 29;
    assert MNXTI_LINES[3] == 28 && MNXTI_LINES[4] == 27 && MNXTI_LINES[5] == 26;
  }

  /** The configuration and enables under threshold 0xff: no line can be taken during the delay. */
  method MnxtiSetup(n: nat) returns (c: Clic, early: Option<nat>)
    requires 32 <= n <= 0x1000
    ensures fresh(c) && Quiet(c, {26, 27, 28, 29, 30, 31}) && c.mintthresh == 0xff
    ensures c.mnxticonf == 1
    ensures c.lines[31] == 0x1103_0101 && c.lines[27] == 0x3303_0101
    ensures c.lines[30] == 0x1102_0101 && c.lines[29] == 0x1102_0101 && c.lines[26] == 0x1102_0101
    ensures c.lines[28] == 0x3302_0101
    ensures early.None?
  {
    c := MnxtiConfigure(n);
    MnxtiEnable(c);
    OnlyTouchedTakeable(c, {26, 27, 28, 29, 30, 31});
    early := c.Arbitrate();
    assert !c.CanTake(31) && !c.CanTake(30) && !c.CanTake(29);
    assert !c.CanTake(28) && !c.CanTake(27) && !c.CanTake(26);
  }

  /**
   * Lowering the threshold to 0x22: exactly lines 27 and 28 (level 0x3f) are
   * above it; the four lines at control 0x11 (level 0x1f) stay below it.
   */
  method MnxtiLowerThreshold(c: Clic)
    requires Quiet(c, {26, 27, 28, 29, 30, 31}) && c.mintthresh == 0xff
    requires c.lines[31] == 0x1103_0101 && c.lines[27] == 0x3303_0101
    requires c.lines[30] == 0x1102_0101 && c.lines[29] == 0x1102_0101 && c.lines[26] == 0x1102_0101
    requires c.lines[28] == 0x3302_0101
    modifies c`mintthresh
    ensures c.mintthresh == 0x22
    ensures forall j :: 0 <= j < |c.lines| ==> (c.Eligible(j) <==> j == 27 || j == 28)
  {
    c.WriteMintthresh(0x22);
    forall j | 0 <= j < |c.lines|
      ensures c.Eligible(j) <==> j == 27 || j == 28
    {
      if j !in {26, 27, 28, 29, 30, 31} {
        ResetLineIdle(c, j);
      }
    }
  }

  // ---------------------------------------------------------------------------
  // runtime_tcls/runtime_tcls.c
  // ---------------------------------------------------------------------------

  /**
   * The CLIC setup in the TCLS test: line 21 made SHV, edge-triggered, control
   * 0xaa and enabled, threshold 0. Its pending bit is never written, so the line
   * is not yet eligible, and raising it makes the line eligible.
   */
  method TclsClicSetup(n: nat) returns (c: Clic)
    requires 32 <= n <= 0x1000
    ensures fresh(c) && Quiet(c, {21}) && c.mintthresh == 0
    ensures c.lines[21] == 0xaa03_0100
    ensures !c.Eligible(21)
    ensures Level(Get(Put(c.lines[21], IP, 1), CTL), Get(c.mcliccfg, NLBITS)) > c.mintthresh
    ensures Get(Put(c.lines[21], IP, 1), IE) == 1
  {
    c := new Clic(n);
    c.UpdateLineField(21, SHV, 1);
    c.UpdateLineField(21, TRIG, 1);
    c.WriteMcliccfg(4 << NLBITS.offset);
    c.UpdateLineField(21, CTL, 0xaa);
    c.UpdateLineField(21, IE, 1);
    c.WriteMintthresh(0);
    assert c.lines[21] == 0xaa03_0100;
    assert Put(0xaa03_0100, IP, 1) == 0xaa03_0101;
  }
}
