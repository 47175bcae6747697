/** The power-management registers of an Intel PIIX4 and their interrupt (86box_full/src/acpi.c). */
module Acpi {
  import Arith
  import Numbers = Bits

  /** A register or a value as the numbers of the bits that are up. */
  type Bits = set<nat>

  /** The bits of a number below 2^32. */
  function Hex(v: nat): Bits {
    set b: nat | b < 32 && v / Numbers.Pow2(b) % 2 == 1
  }

  function Byte(v: Bits, n: nat): Bits {
    set b | b in v && 8 * n <= b < 8 * n + 8 :: b - 8 * n
  }

  function Up(v: Bits, n: nat): Bits {
    set b | b in v :: b + 8 * n
  }

  function Lane(n: nat): Bits {
    {8 * n, 8 * n + 1, 8 * n + 2, 8 * n + 3, 8 * n + 4, 8 * n + 5, 8 * n + 6, 8 * n + 7}
  }

  /** Status, enable and control of power management; general, global and device registers. */
  datatype Regs = Regs(pmsts: Bits, pmen: Bits, pmcntrl: Bits, gpsts: Bits, gpen: Bits, pcntrl: Bits,
                       glbsts: Bits, devsts: Bits, glben: Bits, glbctl: Bits, devctl: Bits, gporeg: seq<Bits>)

  const TMROF := 0
  const GBL := 5
  const PWRBTN := 8
  const RTC := 10
  const RSM := 15
  const SOURCES: Bits := {RTC, PWRBTN, GBL, TMROF}

  /** What a suspend type asks for. */
  datatype Suspend = Suspend(off: bool, suspend: bool, resetPci: bool)

  /** `suspend_types` as `acpi_init` fills it for Intel; types 5 to 7 stay 0. */
  function SuspendType(n: nat): Suspend {
    if n == 0 then Suspend(true, false, false)
    else if n == 1 then Suspend(false, true, true)
    else if n < 5 then Suspend(false, true, false)
    else Suspend(false, false, false)
  }

  /** Bits 2 to 4 of the high control byte. */
  function TypeField(val: Bits): nat {
    (if 2 in val then 1 else 0) + (if 3 in val then 2 else 0) + (if 4 in val then 4 else 0)
  }

  /** An enabled event is up and the system control interrupt is enabled. */
  predicate Level(r: Regs) {
    0 in r.pmcntrl && r.pmsts * r.pmen * SOURCES != {}
  }

  // ---- what a byte write does to the registers ----

  /** Byte `n` of a register replaced, then only the bits that exist kept. */
  function Put(r: Bits, n: nat, val: Bits, mask: Bits): (w: Bits)
    ensures w <= mask
  {
    ((r - Lane(n)) + Up(val, n)) * mask
  }

  /** Bits written as one are cleared, as far as `mask` allows. */
  function Clear(r: Bits, n: nat, val: Bits, mask: Bits): (w: Bits)
    ensures w <= r
  {
    r - Up(val, n) * mask
  }

  /** `acpi_reg_write_common_regs`; `reset` is what the registers are after a reset of the device. */
  function CommonWritten(r: Regs, addr: nat, val: Bits, reset: Regs): Regs {
    var n := addr % 2;
    if addr == 0x00 || addr == 0x01 then r.(pmsts := Clear(r.pmsts, n, val, Hex(0x8D31)))
    else if addr == 0x02 || addr == 0x03 then r.(pmen := Put(r.pmen, n, val, Hex(0x0521)))
    else if addr == 0x04 then r.(pmcntrl := Put(r.pmcntrl, n, val, Hex(0x3F07)))
    else if addr == 0x05 then
      var t := if 5 in val then SuspendType(TypeField(val)) else Suspend(false, false, false);
      var b := if t.suspend && t.resetPci then reset else r;
      if t.off then r else b.(pmcntrl := Put(b.pmcntrl, n, val, Hex(0x3F07)))
    else r
  }

  /** `acpi_reg_write_intel` */
  function IntelWritten(r: Regs, size: nat, addr: nat, val: Bits, reset: Regs): Regs
    requires |r.gporeg| == 4
  {
    var h, n := addr % 2, addr % 4;
    if addr == 0x0C || addr == 0x0D then r.(gpsts := Clear(r.gpsts, h, val, Hex(0x0F81)))
    else if addr == 0x0E || addr == 0x0F then r.(gpen := Put(r.gpen, h, val, Hex(0x0F01)))
    else if addr == 0x10 || addr == 0x11 || addr == 0x13 then r.(pcntrl := Put(r.pcntrl, n, val, Hex(0x0002_3E1E)))
    else if addr == 0x12 then r.(pcntrl := ((r.pcntrl - Up(Hex(0xFD), 2)) + Up(val, 2)) * Hex(0x0002_3E1E))
    else if addr == 0x18 || addr == 0x19 then r.(glbsts := Clear(r.glbsts, h, val, Hex(0x0D27)))
    else if 0x1C <= addr <= 0x1F then r.(devsts := Clear(r.devsts, n, val, Hex(0x3FFF_0FFF)))
    else if addr == 0x20 || addr == 0x21 then r.(glben := Put(r.glben, h, val, Hex(0x8D1F)))
    else if 0x28 <= addr <= 0x2B then Released(r.(glbctl := Put(r.glbctl, n, val, Hex(0x0701_FF07))))
    else if 0x2C <= addr <= 0x2F then r.(devctl := Put(r.devctl, n, val, Hex(0x0FFF_FFFF)))
    else if 0x34 <= addr <= 0x37 then if size == 1 then r.(gporeg := r.gporeg[n := val]) else r
    else PowerWritten(r, addr, val, reset)
  }

  /** Setting BIOS_RLS sets GBL_STS. */
  function Released(r: Regs): Regs {
    if 1 in r.glbctl then r.(pmsts := r.pmsts + {GBL}) else r
  }

  /** The power-management registers: clearing GBL_STS clears BIOS_RLS, setting GBL_RLS sets BIOS_STS. */
  function PowerWritten(r: Regs, addr: nat, val: Bits, reset: Regs): Regs {
    var c := CommonWritten(r, addr, val, reset);
    if addr == 0x00 && GBL !in c.pmsts then c.(glbctl := c.glbctl - {1})
    else if addr == 0x04 && 2 in c.pmcntrl then
      var d := c.(glbsts := c.glbsts + {0});
      if 1 in d.glben then SmiRaised(d) else d
    else c
  }

  /** An enabled management interrupt clears bit 16 of GLBCTL. */
  function SmiRaised(r: Regs): Regs {
    if 0 in r.glbctl then r.(glbctl := r.glbctl - {16}) else r
  }

  lemma RaisedIs(r: Regs, s: Regs)
    requires 16 in s.glbctl <==> 16 in r.glbctl && 0 !in r.glbctl
    requires s == r.(glbctl := s.glbctl) && s.glbctl - {16} == r.glbctl - {16}
    ensures s == SmiRaised(r)
  {
    forall b
      ensures b in s.glbctl <==> b in SmiRaised(r).glbctl
    {
      assert b != 16 ==> (b in s.glbctl <==> b in s.glbctl - {16}) && (b in r.glbctl <==> b in r.glbctl - {16});
    }
    assert s.glbctl == SmiRaised(r).glbctl;
  }

  /** The bits that each register can hold, and BIOS_RLS never set without GBL_STS. */
  ghost predicate Kept(r: Regs) {
    && |r.gporeg| == 4 && (1 in r.glbctl ==> GBL in r.pmsts)
    && r.pmsts <= {TMROF, GBL, PWRBTN, RSM} && r.pmen <= Hex(0x0521) && r.pmcntrl <= Hex(0x3F07)
    && r.gpen <= Hex(0x0F01) && r.pcntrl <= Hex(0x0002_3E1E)
    && r.glben <= Hex(0x8D1F) && r.glbctl <= Hex(0x0701_FF07) && r.devctl <= Hex(0x0FFF_FFFF)
  }

  lemma HighStatus(s: Bits, val: Bits)
    ensures GBL in Clear(s, 1, val, Hex(0x8D31)) <==> GBL in s
  {
    hide Hex;
  }

  lemma WriteKeeps(r: Regs, size: nat, addr: nat, val: Bits, reset: Regs)
    requires Kept(r) && Kept(reset)
    ensures |r.gporeg| == 4 && Kept(IntelWritten(r, size, addr, val, reset))
  {
    hide Hex, Put, Clear, Up, SuspendType, TypeField;
    HighStatus(r.pmsts, val);
  }

  // ---- writes of a word and of a long word ----

  predicate Wide(v: Bits, bytes: nat) {
    forall b :: b in v ==> b < 8 * bytes
  }

  lemma LaneOf(v: Bits, n: nat)
    ensures Up(Byte(v, n), n) == v * Lane(n)
  {
    forall b | b in v * Lane(n)
      ensures b in Up(Byte(v, n), n)
    {
      assert b - 8 * n in Byte(v, n);
      assert (b - 8 * n) + 8 * n == b;
    }
  }

  /** The bytes below `k` are those of `v`, the others still those of `r`. */
  ghost predicate Mixed(w: Bits, r: Bits, v: Bits, mask: Bits, k: nat) {
    forall b :: b in w <==> b in mask && (if b < 8 * k then b in v else b in r)
  }

  lemma PutNext(w: Bits, r: Bits, v: Bits, mask: Bits, k: nat)
    requires Mixed(w, r, v, mask, k)
    ensures Mixed(Put(w, k, Byte(v, k), mask), r, v, mask, k + 1)
  {
    hide Byte, Up;
    LaneOf(v, k);
  }

  /** A register set byte by byte holds what was written, as far as it has the bits. */
  lemma PutWord(r: Bits, v: Bits, mask: Bits)
    requires Wide(v, 2) && r <= mask && Wide(mask, 2)
    ensures Put(Put(r, 0, Byte(v, 0), mask), 1, Byte(v, 1), mask) == v * mask
  {
    hide Put, Byte;
    PutNext(r, r, v, mask, 0);
    PutNext(Put(r, 0, Byte(v, 0), mask), r, v, mask, 1);
  }

  lemma PutLong(r: Bits, v: Bits, mask: Bits)
    requires Wide(v, 4) && r <= mask && Wide(mask, 4)
    ensures Put(Put(Put(Put(r, 0, Byte(v, 0), mask), 1, Byte(v, 1), mask), 2, Byte(v, 2), mask), 3, Byte(v, 3),
      mask) == v * mask
  {
    hide Put, Byte;
    var one := Put(r, 0, Byte(v, 0), mask);
    var two := Put(one, 1, Byte(v, 1), mask);
    var three := Put(two, 2, Byte(v, 2), mask);
    PutNext(r, r, v, mask, 0);
    PutNext(one, r, v, mask, 1);
    PutNext(two, r, v, mask, 2);
    PutNext(three, r, v, mask, 3);
  }

  lemma ClearWord(r: Bits, v: Bits, mask: Bits)
    requires Wide(v, 2)
    ensures Clear(Clear(r, 0, Byte(v, 0), mask), 1, Byte(v, 1), mask) == r - v * mask
  {
    LaneOf(v, 0);
    LaneOf(v, 1);
  }

  lemma HexWide16()
    ensures Wide(Hex(0x8D31), 2) && Wide(Hex(0x0521), 2) && Wide(Hex(0x3F07), 2)
  {
    SmallHex(0x8D31);
    SmallHex(0x0521);
    SmallHex(0x3F07);
  }

  lemma SmallHex(v: nat)
    requires v < 0x1_0000
    ensures Wide(Hex(v), 2)
  {
    assert Numbers.Pow2(4) == 0x10;
    assert Numbers.Pow2(8) == 0x100;
    assert Numbers.Pow2(12) == 0x1000;
    assert Numbers.Pow2(16) == 0x1_0000;
    forall b: nat | b >= 16
      ensures b !in Hex(v)
    {
      Numbers.Pow2Mono(16, b);
      Arith.DivBound(v, Numbers.Pow2(b), 1);
    }
  }

  function Twice(r: Regs, addr: nat, v: Bits, reset: Regs): Regs
    requires |r.gporeg| == 4 && |reset.gporeg| == 4
  {
    IntelWritten(IntelWritten(r, 2, addr % 0x40, Byte(v, 0), reset), 2, (addr + 1) % 0x40, Byte(v, 1), reset)
  }

  /** Writing ones to PMSTS clears exactly those status bits; BIOS_RLS goes when GBL_STS does. */
  lemma StatusWord(r: Regs, v: Bits, reset: Regs)
    requires Kept(r) && |reset.gporeg| == 4 && Wide(v, 2)
    ensures Twice(r, 0x00, v, reset) ==
      r.(pmsts := r.pmsts - v * Hex(0x8D31), glbctl := if GBL in r.pmsts - v * Hex(0x8D31) then r.glbctl
        else r.glbctl - {1})
  {
    hide Hex, Clear, Byte, Put;
    ClearWord(r.pmsts, v, Hex(0x8D31));
    HighStatus(Clear(r.pmsts, 0, Byte(v, 0), Hex(0x8D31)), Byte(v, 1));
  }

  /** PMEN holds what was written to it. */
  lemma EnableWord(r: Regs, v: Bits, reset: Regs)
    requires Kept(r) && |reset.gporeg| == 4 && Wide(v, 2)
    ensures Twice(r, 0x02, v, reset) == r.(pmen := v * Hex(0x0521))
  {
    hide Hex, Put;
    HexWide16();
    PutWord(r.pmen, v, Hex(0x0521));
  }

  /** So does PMCNTRL unless the write puts the machine to sleep; GBL_RLS also sets BIOS_STS. */
  lemma ControlWord(r: Regs, v: Bits, reset: Regs)
    requires Kept(r) && |reset.gporeg| == 4 && Wide(v, 2) && 13 !in v
    ensures Twice(r, 0x04, v, reset).pmcntrl == v * Hex(0x3F07)
    ensures Twice(r, 0x04, v, reset).pmsts == r.pmsts && Twice(r, 0x04, v, reset).pmen == r.pmen
    ensures Twice(r, 0x04, v, reset).glbsts == if 2 in v then r.glbsts + {0} else r.glbsts
  {
    hide Hex, Put;
    HexWide16();
    PutWord(r.pmcntrl, v, Hex(0x3F07));
    assert 5 !in Byte(v, 1);
    LowControl(r.pmcntrl, v);
  }

  lemma LowControl(c: Bits, v: Bits)
    ensures 2 in Put(c, 0, Byte(v, 0), Hex(0x3F07)) <==> 2 in v
  {
    LaneOf(v, 0);
    assert Numbers.Pow2(2) == 4 && 0x3F07 / 4 % 2 == 1;
  }

  function FourTimes(r: Regs, addr: nat, v: Bits, reset: Regs): Regs
    requires |r.gporeg| == 4 && |reset.gporeg| == 4
  {
    var a := IntelWritten(r, 4, addr % 0x40, Byte(v, 0), reset);
    var b := IntelWritten(a, 4, (addr + 1) % 0x40, Byte(v, 1), reset);
    var c := IntelWritten(b, 4, (addr + 2) % 0x40, Byte(v, 2), reset);
    IntelWritten(c, 4, (addr + 3) % 0x40, Byte(v, 3), reset)
  }

  /** GLBCTL holds what was written to it; setting BIOS_RLS sets GBL_STS, and nothing else changes. */
  lemma GlobalLong(r: Regs, v: Bits, reset: Regs)
    requires Kept(r) && |reset.gporeg| == 4 && Wide(v, 4)
    ensures FourTimes(r, 0x28, v, reset) ==
      r.(glbctl := v * Hex(0x0701_FF07), pmsts := if 1 in v then r.pmsts + {GBL} else r.pmsts)
  {
    hide Hex, Put, Byte, CommonWritten, PowerWritten;
    var mask := Hex(0x0701_FF07);
    HexWide32(0x0701_FF07);
    PutLong(r.glbctl, v, mask);
    ReleaseStays(r.glbctl, v);
  }

  lemma HexWide32(v: nat)
    ensures Wide(Hex(v), 4)
  {
  }

  lemma ReleaseStays(g: Bits, v: Bits)
    ensures var mask := Hex(0x0701_FF07);
      var one := Put(g, 0, Byte(v, 0), mask);
      var two := Put(one, 1, Byte(v, 1), mask);
      var three := Put(two, 2, Byte(v, 2), mask);
      && (1 in one <==> 1 in v) && (1 in two <==> 1 in v) && (1 in three <==> 1 in v)
      && (1 in Put(three, 3, Byte(v, 3), mask) <==> 1 in v)
  {
    hide Hex;
    LaneOf(v, 0);
    assert 1 in Hex(0x0701_FF07) by { HasRelease(); }
  }

  lemma HasRelease()
    ensures 1 in Hex(0x0701_FF07)
  {
    assert Numbers.Pow2(1) == 2;
  }

  // ---- the device ----

  /** Registers as a reset leaves them are in order and ask for no interrupt. */
  lemma ResetQuiet(sts: Bits, glb: Bits, gporeg: seq<Bits>)
    requires (sts == {} || sts == {PWRBTN, RSM}) && (glb == {} || glb == {25}) && |gporeg| == 4
    ensures var r := Regs(sts, {}, {}, {}, {}, {}, {}, {}, {}, glb, {}, gporeg); Kept(r) && !Level(r)
  {
    hide Hex;
    HasLid();
  }

  class Device {
    const irqMode: int
    const tomahawk: bool
    const gporegDefault: seq<Bits>
    var regs: Regs
    var irqState: bool
    var rtcStatus: bool
    var powerOn: bool

    /** The invariant of every reachable state: the line is up exactly when an enabled event is. */
    ghost predicate Valid()
      reads this
    {
      |gporegDefault| == 4 && Kept(regs) && irqState == (irqMode != -1 && Level(regs))
    }

    /** What the registers are after a reset. */
    function ResetRegs(): Regs
      reads this`powerOn
    {
      Regs(if powerOn then {PWRBTN, RSM} else {}, {}, {}, {}, {}, {}, {}, {}, {}, if tomahawk then {25} else {}, {},
        gporegDefault)
    }

    constructor (irqMode: int, tomahawk: bool, gporegDefault: seq<Bits>)
      requires |gporegDefault| == 4
      ensures Valid() && !irqState && powerOn
      ensures this.irqMode == irqMode && this.tomahawk == tomahawk && this.gporegDefault == gporegDefault
    {
      this.irqMode, this.tomahawk, this.gporegDefault := irqMode, tomahawk, gporegDefault;
      regs := Regs({}, {}, {}, {}, {}, {}, {}, {}, {}, {}, {}, gporegDefault);
      irqState, rtcStatus, powerOn := false, false, false;
      new;
      Reset();
      powerOn := true;
    }

    /** `acpi_update_irq`; without an interrupt mode it leaves the line alone. */
    method UpdateIrq()
      requires irqMode == -1 ==> !irqState
      modifies this`irqState
      ensures irqState == (irqMode != -1 && Level(regs))
    {
      var sci := regs.pmsts * regs.pmen * SOURCES;
      if 0 in regs.pmcntrl && sci != {} {
        if irqMode != -1 {
          irqState := true;
        }
      } else {
        if irqMode != -1 {
          irqState := false;
        }
      }
    }

    /** `acpi_reset` */
    method Reset()
      requires |gporegDefault| == 4 && (irqMode == -1 ==> !irqState)
      modifies this
      ensures Valid() && !irqState && !rtcStatus && !powerOn && regs == old(ResetRegs())
    {
      hide Level, Kept, Hex;
      regs := Regs({}, {}, {}, {}, {}, {}, {}, {}, {}, {}, {}, gporegDefault);
      if powerOn {
        regs := regs.(pmsts := regs.pmsts + {PWRBTN, RSM});
        powerOn := false;
      }
      if tomahawk {
        regs := regs.(glbctl := regs.glbctl + {25});
      }
      rtcStatus := false;
      assert regs == old(ResetRegs());
      ResetQuiet(regs.pmsts, regs.glbctl, gporegDefault);
      UpdateIrq();
      irqState := false;
    }

    /** `acpi_reg_write_common_regs`: only these registers touch the line. */
    method WriteCommon(addr: nat, val: Bits)
      requires Valid()
      modifies this
      ensures |gporegDefault| == 4 && (irqMode == -1 ==> !irqState)
      ensures regs == old(CommonWritten(regs, addr, val, ResetRegs()))
      ensures |regs.gporeg| == 4 && (addr != 0x05 ==> powerOn == old(powerOn))
      ensures irqState == (irqMode != -1 && Level(regs))
    {
      hide Hex, Put, Clear;
      var n := addr % 2;
      if addr == 0x00 || addr == 0x01 {
        regs := regs.(pmsts := Clear(regs.pmsts, n, val, Hex(0x8D31)));
        if addr == 0x01 && 2 in val {
          rtcStatus := false;
        }
        UpdateIrq();
      } else if addr == 0x02 || addr == 0x03 {
        regs := regs.(pmen := Put(regs.pmen, n, val, Hex(0x0521)));
        UpdateIrq();
      } else if addr == 0x04 || addr == 0x05 {
        var was := regs.pmcntrl;
        if addr == 0x05 && 5 in val {
          var t := SuspendType(TypeField(val));
          if t.off {
            return;
          }
          if t.suspend && t.resetPci {
            Reset();
          }
        }
        ControlBit(regs.pmcntrl, n, val);
        regs := regs.(pmcntrl := Put(regs.pmcntrl, n, val, Hex(0x3F07)));
        if addr == 0x04 && (0 in was) != (0 in val) {
          UpdateIrq();
        }
      }
    }

    /** `acpi_reg_write_intel` */
    method WriteByte(size: nat, addr: nat, val: Bits)
      requires Valid() && addr < 0x40
      modifies this
      ensures Valid() && |old(ResetRegs()).gporeg| == 4 && (addr != 0x05 ==> powerOn == old(powerOn))
      ensures regs == old(IntelWritten(regs, size, addr, val, ResetRegs()))
    {
      hide Hex, Put, Clear, Kept, SuspendType, TypeField;
      ghost var r, reset := regs, ResetRegs();
      ResetKept(tomahawk, powerOn, gporegDefault);
      WriteKeeps(r, size, addr, val, reset);
      KeptSize(r);
      var h, n := addr % 2, addr % 4;
      if addr == 0x0C || addr == 0x0D {
        regs := regs.(gpsts := Clear(regs.gpsts, h, val, Hex(0x0F81)));
      } else if addr == 0x0E || addr == 0x0F {
        regs := regs.(gpen := Put(regs.gpen, h, val, Hex(0x0F01)));
      } else if addr == 0x10 || addr == 0x11 || addr == 0x13 {
        regs := regs.(pcntrl := Put(regs.pcntrl, n, val, Hex(0x0002_3E1E)));
      } else if addr == 0x12 {
        regs := regs.(pcntrl := ((regs.pcntrl - Up(Hex(0xFD), 2)) + Up(val, 2)) * Hex(0x0002_3E1E));
      } else if addr == 0x18 || addr == 0x19 {
        regs := regs.(glbsts := Clear(regs.glbsts, h, val, Hex(0x0D27)));
      } else if 0x1C <= addr <= 0x1F {
        regs := regs.(devsts := Clear(regs.devsts, n, val, Hex(0x3FFF_0FFF)));
      } else if addr == 0x20 || addr == 0x21 {
        regs := regs.(glben := Put(regs.glben, h, val, Hex(0x8D1F)));
      } else if 0x28 <= addr <= 0x2B {
        WriteGlobal(n, val);
      } else if 0x2C <= addr <= 0x2F {
        regs := regs.(devctl := Put(regs.devctl, n, val, Hex(0x0FFF_FFFF)));
      } else if 0x34 <= addr <= 0x37 {
        if size == 1 {
          regs := regs.(gporeg := regs.gporeg[n := val]);
        }
      } else {
        WritePower(addr, val);
      }
    }

    /** GLBCTL: setting BIOS_RLS sets GBL_STS, and the line follows if that event is enabled. */
    method WriteGlobal(n: nat, val: Bits)
      requires Valid() && n < 4
      modifies this`regs, this`irqState
      ensures regs == old(Released(regs.(glbctl := Put(regs.glbctl, n, val, Hex(0x0701_FF07)))))
      ensures irqState == (irqMode != -1 && Level(regs))
    {
      hide Hex, Put, Kept;
      regs := regs.(glbctl := Put(regs.glbctl, n, val, Hex(0x0701_FF07)));
      if 1 in regs.glbctl {
        regs := regs.(pmsts := regs.pmsts + {GBL});
        if GBL in regs.pmen {
          UpdateIrq();
        }
      }
    }

    method WritePower(addr: nat, val: Bits)
      requires Valid()
      modifies this
      ensures regs == old(PowerWritten(regs, addr, val, ResetRegs()))
      ensures addr != 0x05 ==> powerOn == old(powerOn)
      ensures irqState == (irqMode != -1 && Level(regs))
    {
      hide Hex, Put, Clear, SuspendType, TypeField;
      WriteCommon(addr, val);
      if addr == 0x00 && GBL !in regs.pmsts {
        regs := regs.(glbctl := regs.glbctl - {1});
      } else if addr == 0x04 && 2 in regs.pmcntrl {
        regs := regs.(glbsts := regs.glbsts + {0});
        if 1 in regs.glben {
          ghost var was := regs;
          RaiseSmi();
          RaisedIs(was, regs);
        }
      }
    }

    /** `acpi_raise_smi` */
    method RaiseSmi()
      modifies this`regs
      ensures 16 in regs.glbctl <==> 16 in old(regs).glbctl && 0 !in old(regs).glbctl
      ensures regs == old(regs).(glbctl := regs.glbctl) && regs.glbctl - {16} == old(regs).glbctl - {16}
    {
      if 0 in regs.glbctl {
        regs := regs.(glbctl := regs.glbctl - {16});
      }
    }

    method WriteWord(addr: nat, val: Bits)
      requires Valid()
      modifies this
      ensures Valid() && |old(ResetRegs()).gporeg| == 4 && regs == old(Twice(regs, addr, val, ResetRegs()))
    {
      hide Hex, Kept, IntelWritten;
      ghost var r, reset := regs, ResetRegs();
      KeptSize(r);
      WriteByte(2, addr % 0x40, Byte(val, 0));
      KeptSize(regs);
      SameReset(regs, 2, (addr + 1) % 0x40, Byte(val, 1), reset, ResetRegs());
      WriteByte(2, (addr + 1) % 0x40, Byte(val, 1));
    }

    method WriteLong(addr: nat, val: Bits)
      requires Valid()
      modifies this
      ensures Valid() && |old(ResetRegs()).gporeg| == 4 && regs == old(FourTimes(regs, addr, val, ResetRegs()))
    {
      hide Hex, Kept, IntelWritten;
      ghost var r, reset := regs, ResetRegs();
      KeptSize(r);
      WriteByte(4, addr % 0x40, Byte(val, 0));
      KeptSize(regs);
      SameReset(regs, 4, (addr + 1) % 0x40, Byte(val, 1), reset, ResetRegs());
      WriteByte(4, (addr + 1) % 0x40, Byte(val, 1));
      KeptSize(regs);
      SameReset(regs, 4, (addr + 2) % 0x40, Byte(val, 2), reset, ResetRegs());
      WriteByte(4, (addr + 2) % 0x40, Byte(val, 2));
      KeptSize(regs);
      SameReset(regs, 4, (addr + 3) % 0x40, Byte(val, 3), reset, ResetRegs());
      WriteByte(4, (addr + 3) % 0x40, Byte(val, 3));
    }

    method TimerOverflow()
      requires Valid()
      modifies this`regs, this`irqState
      ensures Valid() && regs == old(regs).(pmsts := old(regs).pmsts + {TMROF})
    {
      hide Hex;
      regs := regs.(pmsts := regs.pmsts + {TMROF});
      UpdateIrq();
    }

    method Resume()
      requires Valid()
      modifies this`regs
      ensures Valid() && regs == old(regs).(pmsts := old(regs).pmsts + {RSM})
    {
      hide Hex;
      regs := regs.(pmsts := regs.pmsts + {RSM});
    }

    /** The power button's timer, with the button pressed. */
    method PowerButton()
      requires Valid()
      modifies this`regs, this`irqState
      ensures Valid()
      ensures regs == if PWRBTN in old(regs).pmen then old(regs).(pmsts := old(regs).pmsts + {PWRBTN}) else old(regs)
    {
      hide Hex;
      if PWRBTN in regs.pmen {
        regs := regs.(pmsts := regs.pmsts + {PWRBTN});
        UpdateIrq();
      }
    }

    /** A command written to the APM port. */
    method ApmCommand()
      requires Valid()
      modifies this`regs
      ensures Valid() && regs == SmiRaised(old(regs).(glbsts := old(regs).glbsts + {5}))
    {
      hide Hex;
      regs := regs.(glbsts := regs.glbsts + {5});
      ghost var was := regs;
      RaiseSmi();
      RaisedIs(was, regs);
    }

    /** The clock's interrupt request seen by the interrupt controller. */
    method RtcRequest(up: bool)
      requires Valid()
      modifies this`rtcStatus
      ensures Valid() && rtcStatus == up
    {
      rtcStatus := up;
    }

    /** Any events, in any order. */
    method Run(events: seq<Event>)
      requires Valid()
      modifies this
      ensures Valid()
    {
      for i := 0 to |events|
        invariant Valid()
      {
        match events[i]
        case Write8(addr, val) => WriteByte(1, addr % 0x40, val);
        case Write16(addr, val) => WriteWord(addr, val);
        case Write32(addr, val) => WriteLong(addr, val);
        case Overflow => TimerOverflow();
        case Resumed => Resume();
        case Button => PowerButton();
        case Apm => ApmCommand();
        case Clock(up) => RtcRequest(up);
        case ResetDevice => Reset();
      }
    }

    /** PMSTS as it reads: the clock's request shows as RTC_STS though the register never holds it. */
    function ReadStatus(): Bits
      reads this
    {
      regs.pmsts + if rtcStatus then {RTC} else {}
    }

    /** The line agrees with the status a guest can read, as section 4.7.3.1 of ACPI 2.0 wants it, except exactly
        when an enabled RTC request is all there is: that one never raises it. */
    lemma SciAsRead()
      requires Valid() && irqMode != -1
      ensures irqState == (0 in regs.pmcntrl && ReadStatus() * regs.pmen * SOURCES != {}) <==>
              !(rtcStatus && RTC in regs.pmen && 0 in regs.pmcntrl && regs.pmsts * regs.pmen * SOURCES == {})
    {
      hide Hex;
      if rtcStatus && RTC in regs.pmen {
        assert RTC in ReadStatus() * regs.pmen * SOURCES;
      } else {
        assert ReadStatus() * regs.pmen * SOURCES == regs.pmsts * regs.pmen * SOURCES;
      }
    }
  }

  datatype Event = Write8(addr: nat, val: Bits) | Write16(addr: nat, val: Bits) | Write32(addr: nat, val: Bits)
                 | Overflow | Resumed | Button | Apm | Clock(up: bool) | ResetDevice

  /** Only the suspend register can reset the device. */
  lemma SameReset(r: Regs, size: nat, addr: nat, val: Bits, a: Regs, b: Regs)
    requires |r.gporeg| == 4 && (addr == 0x05 ==> a == b)
    ensures IntelWritten(r, size, addr, val, a) == IntelWritten(r, size, addr, val, b)
  {
    hide Hex, Put, Clear, Up;
  }

  lemma KeptSize(r: Regs)
    requires Kept(r)
    ensures |r.gporeg| == 4
  {
  }

  lemma ResetKept(tomahawk: bool, powerOn: bool, gporeg: seq<Bits>)
    requires |gporeg| == 4
    ensures Kept(Regs(if powerOn then {PWRBTN, RSM} else {}, {}, {}, {}, {}, {}, {}, {}, {}, if tomahawk then {25}
      else {}, {}, gporeg))
  {
    hide Hex;
    HasLid();
  }

  lemma HasLid()
    ensures 25 in Hex(0x0701_FF07)
  {
    assert Numbers.Pow2(5) == 32;
    assert Numbers.Pow2(10) == 1024;
    assert Numbers.Pow2(15) == 32768;
    assert Numbers.Pow2(20) == 0x10_0000;
    assert Numbers.Pow2(25) == 0x200_0000;
  }

  /** The enable bit of the high byte's register does not move; that of the low byte is the one written. */
  lemma ControlBit(c: Bits, n: nat, val: Bits)
    requires n < 2
    ensures n == 0 ==> (0 in Put(c, 0, val, Hex(0x3F07)) <==> 0 in val)
    ensures n == 1 && c <= Hex(0x3F07) ==> (0 in Put(c, 1, val, Hex(0x3F07)) <==> 0 in c)
  {
    assert Numbers.Pow2(0) == 1 && 0x3F07 % 2 == 1;
  }
}
