/**
 * The older CLIC register map driven by runtime_clic/clic-basic: every line
 * has four separate 8-bit registers clicintip, clicintie, clicintattr and
 * clicintctl, and the global cliccfg register holds nlbits in bits 4:1.
 *
 * The test writes most registers whole (no read-modify-write); only the
 * trigger type is ORed into the attribute register read back from the
 * hardware. The first dispatch of the test exits the program, so only the
 * dispatch condition is modelled here, not the take and return of an
 * interrupt.
 */
module ClicSplit {
  import opened Bits
  import opened Clic
  import opened ClicTests

  /** clicintattr.shv, bit 0 */
  const ATTR_SHV: Field := Field(0, 1)
  /** clicintattr.trig, bits 2:1 */
  const ATTR_TRIG: Field := Field(1, 3)
  /** cliccfg.nlbits, bits 4:1 */
  const CLICCFG_NLBITS: Field := Field(1, 0xf)

  /** The four per-line registers. */
  datatype Reg = IpReg | IeReg | AttrReg | CtlReg

  /** A value stored into an 8-bit register keeps its low byte. */
  function Byte(x: bv32): (b: bv32)
    ensures b <= 0xff && b & 0xff == x & 0xff
  {
    x & 0xff
  }

  /** ORing the trigger value 1 into an attribute byte sets TRIG to at least 1 and keeps SHV. */
  lemma OrInTrig(attr: bv32)
    requires attr <= 0xff
    ensures Get(Byte((1 << ATTR_TRIG.offset) | attr), ATTR_SHV) == Get(attr, ATTR_SHV)
    ensures Get(Byte((1 << ATTR_TRIG.offset) | attr), ATTR_TRIG) & 1 == 1
    ensures Get(Byte((1 << ATTR_TRIG.offset) | attr), ATTR_TRIG) == Get(attr, ATTR_TRIG) | 1
  {
  }

  class SplitClic {
    var ip: seq<bv32>
    var ie: seq<bv32>
    var attr: seq<bv32>
    var ctl: seq<bv32>
    var cliccfg: bv32
    var mintthresh: bv32

    /** Four registers per line, each holding a byte. */
    predicate Valid()
      reads this
    {
      && |ie| == |ip| && |attr| == |ip| && |ctl| == |ip|
      && (forall i :: 0 <= i < |ip| ==> ip[i] <= 0xff && ie[i] <= 0xff)
      && (forall i :: 0 <= i < |ip| ==> attr[i] <= 0xff && ctl[i] <= 0xff)
      && cliccfg <= 0xff && mintthresh <= 0xff
    }

    /** Reset: every register zero. */
    constructor (n: nat)
      ensures Valid() && |ip| == n
      ensures forall i :: 0 <= i < n ==> ip[i] == 0 && ie[i] == 0 && attr[i] == 0 && ctl[i] == 0
      ensures cliccfg == 0 && mintthresh == 0
    {
      var zeros: seq<bv32> := seq(n, _ => 0);
      assert forall i :: 0 <= i < n ==> zeros[i] == 0;
      ip, ie, attr, ctl := zeros, zeros, zeros, zeros;
      cliccfg, mintthresh := 0, 0;
    }

    /** A whole-register write: the register takes the low byte of `x`, nothing else changes. */
    method Write(r: Reg, i: nat, x: bv32)
      requires Valid() && i < |ip|
      modifies this`ip, this`ie, this`attr, this`ctl
      ensures Valid()
      ensures ip == (if r == IpReg then old(ip)[i := Byte(x)] else old(ip))
      ensures ie == (if r == IeReg then old(ie)[i := Byte(x)] else old(ie))
      ensures attr == (if r == AttrReg then old(attr)[i := Byte(x)] else old(attr))
      ensures ctl == (if r == CtlReg then old(ctl)[i := Byte(x)] else old(ctl))
    {
      match r
      case IpReg => ip := ip[i := Byte(x)];
      case IeReg => ie := ie[i := Byte(x)];
      case AttrReg => attr := attr[i := Byte(x)];
      case CtlReg => ctl := ctl[i := Byte(x)];
    }

    method ReadAttr(i: nat) returns (x: bv32)
      requires i < |attr|
      ensures x == attr[i]
    {
      x := attr[i];
    }

    method WriteCliccfg(x: bv32)
      modifies this`cliccfg
      ensures cliccfg == Byte(x)
    {
      cliccfg := Byte(x);
    }

    method WriteMintthresh(x: bv32)
      modifies this`mintthresh
      ensures mintthresh == x & 0xff
    {
      mintthresh := x & 0xff;
    }

    method ReadMintthresh() returns (x: bv32)
      ensures x == mintthresh
    {
      x := mintthresh;
    }

    /** Enabled, pending and above the threshold at the level its control byte encodes. */
    predicate Eligible(i: nat)
      requires Valid() && i < |ip|
      reads this
    {
      ie[i] & 1 == 1 && ip[i] & 1 == 1 && Level(ctl[i], Get(cliccfg, CLICCFG_NLBITS)) > mintthresh
    }

    /** Whether the delay sees an interrupt: some eligible line, or none at all. */
    method Pending() returns (r: Option<nat>)
      requires Valid()
      ensures r.Some? ==> r.value < |ip| && Eligible(r.value)
      ensures r.None? ==> forall j :: 0 <= j < |ip| ==> !Eligible(j)
    {
      var i := 0;
      while i < |ip|
        invariant 0 <= i <= |ip|
        invariant forall j :: 0 <= j < i ==> !Eligible(j)
      {
        if Eligible(i) {
          return Some(i);
        }
        i := i + 1;
      }
      return None;
    }
  }

  /** Only line 31 has been written; the others are at reset. */
  predicate OnlyLine31(c: SplitClic)
    reads c
    requires c.Valid()
  {
    forall j :: 0 <= j < |c.ip| && j != 31 ==> c.ie[j] == 0
  }

  /** With only line 31 enabled, a line the delay sees is line 31. */
  lemma OnlyLine31Pending(c: SplitClic)
    requires c.Valid() && OnlyLine31(c)
    ensures forall j :: 0 <= j < |c.ip| && c.Eligible(j) ==> j == 31
  {
  }

  /** SHV written as a whole register, then TRIG ORed into the value read back. */
  method SplitConfigureAttr(c: SplitClic)
    requires c.Valid() && 32 <= |c.ip|
    modifies c`ip, c`ie, c`attr, c`ctl
    ensures c.Valid() && |c.ip| == old(|c.ip|)
    ensures c.attr == old(c.attr)[31 := 3]
    ensures Get(c.attr[31], ATTR_SHV) == 1 && Get(c.attr[31], ATTR_TRIG) == 1
    ensures c.ip == old(c.ip) && c.ie == old(c.ie) && c.ctl == old(c.ctl)
  {
    c.Write(AttrReg, 31, 1 << ATTR_SHV.offset);
    var a := c.ReadAttr(31);
    OrInTrig(a);
    c.Write(AttrReg, 31, (1 << ATTR_TRIG.offset) | a);
  }

  /**
   * The threshold read-back and the configuration of line 31: SHV and TRIG in
   * its attribute, pending 1, nlbits 4 and control 0xaa.
   */
  method SplitSetup(n: nat) returns (c: SplitClic, csrOk: bool)
    requires 32 <= n
    ensures fresh(c) && c.Valid() && |c.ip| == n && csrOk
    ensures c.attr[31] == 3 && c.ip[31] == 1 && c.ctl[31] == 0xaa
    ensures forall j :: 0 <= j < n ==> c.ie[j] == 0
    ensures Get(c.cliccfg, CLICCFG_NLBITS) == 4 && c.mintthresh == 0
  {
    c := new SplitClic(n);
    c.WriteMintthresh(0xffaa);
    var cmp := c.ReadMintthresh();
    c.WriteMintthresh(0);
    csrOk := cmp == 0xffaa & 0xff;

    SplitConfigureAttr(c);
    c.Write(IpReg, 31, 1);
    c.WriteCliccfg(4 << CLICCFG_NLBITS.offset);
    c.Write(CtlReg, 31, 0xaa);
  }

  /**
   * The basic test on the split register map: under threshold 0xff enabling
   * line 31 dispatches nothing (the hook would be `exit_fail`); at threshold 0
   * it is dispatched and the hook `exit_success` ends the program with 0.
   * Without a dispatch `main` returns 1.
   */
  method SplitBasic(n: nat) returns (exit: int, c: SplitClic)
    requires 32 <= n
    ensures exit == 0 && c.Valid() && |c.ip| == n
    ensures Get(c.attr[31], ATTR_SHV) == 1 && Get(c.attr[31], ATTR_TRIG) == 1
  {
    var csrOk;
    c, csrOk := SplitSetup(n);
    assert Level(0xaa, 4) == 0xaf;

    c.WriteMintthresh(0xff);
    var hook := ExitFail;
    c.Write(IeReg, 31, 1);
    OnlyLine31Pending(c);
    var early := c.Pending();
    var earlyHook := hook;

    hook := ExitSuccess;
    c.WriteMintthresh(0);
    var late := c.Pending();
    assert c.Eligible(31);
    exit := if !csrOk then 1
            else if early.Some? then HookExit(earlyHook)
            else if late.Some? then HookExit(hook)
            else 1;
  }
}
