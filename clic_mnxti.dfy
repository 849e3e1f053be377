/**
 * The handler-order monitor of the mnxti test. Six lines are delivered to the
 * hart; lines 31 and 27 are vectored (SHV) to `isr_shv` and `isr_oic`, the
 * other four go through the general handler, which runs `isr_1` (it checks
 * that the OIC handler already ran) and then `isr_2`, whose CSR dump sets an
 * ack flag chosen by the line number in mcause and checks the flags of the
 * lines that must come before. A failed `assert` calls `exit(1)`, which ends
 * the program: the monitor's `failed` state absorbs every later delivery.
 */
module ClicMnxti {
  import opened Clic
  import opened ClicTests

  /** The test's static flags and whether an `assert` has failed. */
  datatype Flags = Flags(int1: bool, int2: bool, int3: bool, int5: bool, intshv: bool, intoic: bool, failed: bool)

  const Init: Flags := Flags(false, false, false, false, false, false, false)

  /** The handler run for one delivered line, as a function of the flags before it. */
  function Step(f: Flags, line: nat): Flags {
    if f.failed then f
    else if line == 31 then
      // isr_shv
      var g := f.(intshv := true);
      g.(failed := !g.int3)
    else if line == 27 then
      // isr_oic
      var g := f.(intoic := true);
      g.(failed := g.int1 || g.int2 || g.int3)
    else if !f.intoic then
      // isr_1 of the general handler
      f.(failed := true)
    else if line == 30 then
      var g := f.(int3 := true);
      g.(failed := !g.int1)
    else if line == 29 then
      var g := f.(int2 := true);
      g.(failed := g.int1 || g.int3)
    else if line == 28 then
      var g := f.(int1 := true);
      g.(failed := !g.int2)
    else if line == 26 then
      var g := f.(int5 := true);
      g.(failed := !g.intshv)
    else f
  }

  /** The flags after delivering the lines of `order` one after another. */
  function Run(f: Flags, order: seq<nat>): Flags
    decreases |order|
  {
    if |order| == 0 then f else Run(Step(f, order[0]), order[1..])
  }

  /** `main` returns 0: no handler's assert failed and the final `assert(int5_ack)` holds. */
  predicate Passes(f: Flags) {
    !f.failed && f.int5
  }

  /** The flow the test documents: OIC, then II, I, III, then IV (SHV), then V. */
  const Expected: seq<nat> := [27, 29, 28, 30, 31, 26]

  /** Each of the six configured lines delivered exactly once. */
  predicate DeliveredOnce(order: seq<nat>) {
    && |order| == 6
    && (forall k :: 0 <= k < |order| ==> 26 <= order[k] <= 31)
    && (forall k, m :: 0 <= k < m < |order| ==> order[k] != order[m])
  }

  /** After a failed assert nothing the monitor does changes the outcome. */
  lemma {:induction false} FailedStays(f: Flags, order: seq<nat>)
    requires f.failed
    ensures Run(f, order) == f
    decreases |order|
  {
    if |order| > 0 {
      FailedStays(Step(f, order[0]), order[1..]);
    }
  }

  /** Delivering one more line extends the run by one step. */
  lemma {:induction false} RunSnoc(f: Flags, order: seq<nat>, line: nat)
    ensures Run(f, order + [line]) == Step(Run(f, order), line)
    decreases |order|
  {
    if |order| > 0 {
      assert (order + [line])[1..] == order[1..] + [line];
      RunSnoc(Step(f, order[0]), order[1..], line);
    }
  }

  /** The documented order passes. */
  lemma ExpectedPasses()
    ensures DeliveredOnce(Expected) && Passes(Run(Init, Expected))
  {
    var f1 := Step(Init, 27);
    var f2 := Step(f1, 29);
    var f3 := Step(f2, 28);
    var f4 := Step(f3, 30);
    var f5 := Step(f4, 31);
    var f6 := Step(f5, 26);
    assert Run(f6, []) == f6;
    assert Run(f5, [26]) == f6;
    assert Run(f4, [31, 26]) == f6;
    assert Run(f3, [30, 31, 26]) == f6;
    assert Run(f2, [28, 30, 31, 26]) == f6;
    assert Run(f1, [29, 28, 30, 31, 26]) == f6;
  }

  /** A first step that fails makes the whole run fail. */
  lemma StepFails(f: Flags, order: seq<nat>)
    requires |order| > 0 && Step(f, order[0]).failed
    ensures Run(f, order).failed
  {
    FailedStays(Step(f, order[0]), order[1..]);
  }

  /**
   * The asserts of the handlers admit exactly one delivery order: if each line
   * is delivered once and the test passes, the order is the documented one.
   */
  lemma OnlyExpectedPasses(order: seq<nat>)
    requires DeliveredOnce(order) && Passes(Run(Init, order))
    ensures order == Expected
  {
    var s := order;
    assert s[0] == 27 by {
      if s[0] != 27 { StepFails(Init, s); }
    }
    var f1 := Step(Init, 27);
    assert Run(f1, s[1..]) == Run(Init, s);
    assert s[1] == 29 by {
      if s[1] != 29 { StepFails(f1, s[1..]); }
    }
    var f2 := Step(f1, 29);
    assert Run(f2, s[2..]) == Run(Init, s) by {
      assert s[1..][1..] == s[2..];
    }
    assert s[2] == 28 by {
      if s[2] != 28 { StepFails(f2, s[2..]); }
    }
    var f3 := Step(f2, 28);
    assert Run(f3, s[3..]) == Run(Init, s) by {
      assert s[2..][1..] == s[3..];
    }
    assert s[3] == 30 by {
      if s[3] != 30 { StepFails(f3, s[3..]); }
    }
    var f4 := Step(f3, 30);
    assert Run(f4, s[4..]) == Run(Init, s) by {
      assert s[3..][1..] == s[4..];
    }
    assert s[4] == 31 by {
      if s[4] != 31 { StepFails(f4, s[4..]); }
    }
    assert s[5] == 26;
    assert s == [s[0], s[1], s[2], s[3], s[4], s[5]];
  }

  /** The flags as the test's static variables, set in place by the handlers. */
  class Monitor {
    var int1: bool
    var int2: bool
    var int3: bool
    var int5: bool
    var intshv: bool
    var intoic: bool
    /** an `assert` called `exit(1)` */
    var failed: bool

    function State(): Flags
      reads this
    {
      Flags(int1, int2, int3, int5, intshv, intoic, failed)
    }

    constructor ()
      ensures State() == Init
    {
      int1, int2, int3, int5, intshv, intoic, failed := false, false, false, false, false, false, false;
    }

    /** The handlers run for line `line`: the flags change as `Step` says. */
    method Deliver(line: nat)
      modifies this
      ensures State() == Step(old(State()), line)
    {
      if failed {
        return;
      }
      if line == 31 {
        intshv := true;
        failed := !int3;
      } else if line == 27 {
        intoic := true;
        failed := int1 || int2 || int3;
      } else if !intoic {
        failed := true;
      } else if line == 30 {
        int3 := true;
        failed := !int1;
      } else if line == 29 {
        int2 := true;
        failed := int1 || int3;
      } else if line == 28 {
        int1 := true;
        failed := !int2;
      } else if line == 26 {
        int5 := true;
        failed := !intshv;
      }
    }

    /** Every line of `order` delivered in turn. */
    method DeliverAll(order: seq<nat>)
      modifies this
      ensures State() == Run(old(State()), order)
    {
      var k := 0;
      while k < |order|
        invariant 0 <= k <= |order|
        invariant State() == Run(old(State()), order[..k])
      {
        RunSnoc(old(State()), order[..k], order[k]);
        assert order[..k + 1] == order[..k] + [order[k]];
        Deliver(order[k]);
        k := k + 1;
      }
      assert order[..k] == order;
    }
  }

  /**
   * The mnxti test with the lines delivered in `order` once the threshold is
   * 0x22: it returns 0 exactly when `order` is the documented flow.
   */
  method ClicMnxtiTest(n: nat, order: seq<nat>) returns (exit: int)
    requires 32 <= n <= 0x1000 && DeliveredOnce(order)
    ensures exit == 0 <==> order == Expected
  {
    var c, early := MnxtiSetup(n);
    MnxtiLowerThreshold(c);
    var m := new Monitor();
    m.DeliverAll(order);
    exit := if early.Some? || m.failed || !m.int5 then 1 else 0;
    if exit == 0 {
      OnlyExpectedPasses(order);
    } else if order == Expected {
      ExpectedPasses();
    }
  }
}
