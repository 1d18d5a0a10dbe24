/** The register machine of mapper 4 (MMC3): eight bank registers written
    through a select/data pair, the PRG and CHR layouts they give, and the
    scanline IRQ counter clocked by rising edges of PPU address line A12. */
module Mmc3 {
  import opened Word

  /** The eight bank registers R0-R7. */
  type Bank8 = s: seq<bv8> | |s| == 8 witness [0, 0, 0, 0, 0, 0, 0, 0]

  /** The mapper's registers, in the order of the saved `MMC3State` record. */
  datatype Regs = Regs(
    targetRegister: bv8, prgBankMode: bool, chrInversion: bool, registers: Bank8,
    irqCounter: bv8, irqLatch: bv8, irqReload: bool, irqEnabled: bool, irqPending: bool,
    lastA12: bool, a12Delay: int, fourScreen: bool, mirroring: bv8)

  /** The registers of a fresh mapper, with the mirroring taken from the
      cartridge's mirroring code: bit 2 is four-screen, bit 0 the mirroring. */
  function PowerOn(cartMirror: bv8): (r: Regs)
    ensures r.fourScreen <==> cartMirror & 4 != 0
    ensures r.mirroring == cartMirror & 1
    ensures r.registers == [0, 0, 0, 0, 0, 0, 0, 0] && r.targetRegister == 0
    ensures !r.irqEnabled && !r.irqPending && !r.irqReload && r.irqCounter == 0 && r.a12Delay == 0
  {
    Regs(0, false, false, [0, 0, 0, 0, 0, 0, 0, 0], 0, 0, false, false, false, false, 0,
         cartMirror & 4 != 0, cartMirror & 1)
  }

  // ---------------------------------------------------------------------------
  // PRG banking (8 KB banks)

  /** `getPRGBank`: the 8 KB bank a CPU read at `addr` in $8000-$FFFF reaches.
      $E000 is the last bank; $A000 is R7; R6 and the second-to-last bank sit at
      $8000 and $C000, in the order the PRG mode says. The source reduces by
      the bank count, so it needs at least one bank. */
  function PrgBank(r: Regs, prgBanks: nat, addr: Addr): (b: int)
    requires addr >= 0x8000 && prgBanks > 0
    ensures addr >= 0xE000 ==> b == prgBanks - 1
    ensures 0xA000 <= addr < 0xC000 ==> b == r.registers[7] as int % prgBanks
    ensures prgBanks >= 2 ==> 0 <= b < prgBanks
  {
    var secondToLast := prgBanks - 2;
    var last := prgBanks - 1;
    if addr <= 0x9FFF then
      if r.prgBankMode then secondToLast else r.registers[6] as int % prgBanks
    else if addr <= 0xBFFF then
      r.registers[7] as int % prgBanks
    else if addr <= 0xDFFF then
      if r.prgBankMode then r.registers[6] as int % prgBanks else secondToLast
    else last
  }

  /** The PRG mode exchanges the banks at $8000 and $C000 and nothing else. */
  lemma PrgModeSwapsWindows(r: Regs, prgBanks: nat, k: nat)
    requires prgBanks > 0 && k < 0x2000
    ensures PrgBank(r.(prgBankMode := !r.prgBankMode), prgBanks, 0x8000 + k) == PrgBank(r, prgBanks, 0xC000 + k)
    ensures PrgBank(r.(prgBankMode := !r.prgBankMode), prgBanks, 0xC000 + k) == PrgBank(r, prgBanks, 0x8000 + k)
    ensures PrgBank(r.(prgBankMode := !r.prgBankMode), prgBanks, 0xA000 + k) == PrgBank(r, prgBanks, 0xA000 + k)
    ensures PrgBank(r.(prgBankMode := !r.prgBankMode), prgBanks, 0xE000 + k) == PrgBank(r, prgBanks, 0xE000 + k)
  {
  }

  /** The PRG-ROM index of a CPU read in $8000-$FFFF; with at least two banks it
      lies inside the PRG-ROM. */
  function PrgIndex(r: Regs, prgBanks: nat, addr: Addr): (i: int)
    requires addr >= 0x8000 && prgBanks > 0
    ensures prgBanks >= 2 ==> 0 <= i < prgBanks * 8192
    ensures i % 8192 == addr % 8192
  {
    var b := PrgBank(r, prgBanks, addr);
    assert prgBanks >= 2 ==> (b + 1) * 8192 <= prgBanks * 8192;
    b * 8192 + addr % 0x2000
  }

  // ---------------------------------------------------------------------------
  // CHR banking (1 KB banks)

  /** The bank register value serving 1 KB slot `slot` ($0000-$1FFF in eight
      1 KB slots) without inversion: R0 and R1 each cover two slots (even bank,
      then odd), R2-R5 one slot each. */
  function SlotBank(registers: Bank8, slot: nat): (v: bv8)
    requires slot < 8
  {
    match slot
    case 0 => registers[0] & 0xFE
    case 1 => (registers[0] & 0xFE) | 1
    case 2 => registers[1] & 0xFE
    case 3 => (registers[1] & 0xFE) | 1
    case 4 => registers[2]
    case 5 => registers[3]
    case 6 => registers[4]
    case _ => registers[5]
  }

  /** `getCHRBank`: the 1 KB CHR bank of a PPU access in pattern space. With
      inversion the two 4 KB halves exchange their registers. The source
      reduces by the bank count, so it needs at least one bank. */
  function ChrBank(r: Regs, chrBanks: nat, addr: Addr): (b: nat)
    requires addr <= 0x1FFF && chrBanks > 0
    ensures b < chrBanks
  {
    var slot := addr / 0x400;
    var served := if r.chrInversion then (slot + 4) % 8 else slot;
    SlotBank(r.registers, served) as int % chrBanks
  }

  /** Inversion exchanges the $0000 and $1000 halves. */
  lemma InversionSwapsHalves(r: Regs, chrBanks: nat, addr: Addr)
    requires addr <= 0x1FFF && chrBanks > 0
    ensures ChrBank(r.(chrInversion := !r.chrInversion), chrBanks, (addr + 0x1000) % 0x2000)
         == ChrBank(r, chrBanks, addr)
  {
    var slot := addr / 0x400;
    var other := (addr + 0x1000) % 0x2000;
    assert other / 0x400 == (slot + 4) % 8;
  }

  /** The CHR index of a PPU access, inside the CHR memory of `chrBanks` 1 KB banks. */
  function ChrIndex(r: Regs, chrBanks: nat, addr: Addr): (i: nat)
    requires addr <= 0x1FFF && chrBanks > 0
    ensures i < chrBanks * 1024
    ensures i % 1024 == addr % 1024
  {
    var b := ChrBank(r, chrBanks, addr);
    assert (b + 1) * 1024 <= chrBanks * 1024;
    b * 1024 + addr % 0x400
  }

  // ---------------------------------------------------------------------------
  // Register writes ($8000-$FFFF)

  /** The source indexes the registers with the selected target, which only a
      loaded state can put outside R0-R7. */
  predicate WriteDefined(r: Regs, addr: Addr) {
    0x8000 <= addr <= 0x9FFF && addr % 2 == 1 ==> r.targetRegister < 8
  }

  /** A CPU write to $8000-$FFFF. Even and odd addresses of each 8 KB window
      are different registers: bank select / bank data, mirroring / (ignored)
      RAM protect, IRQ latch / IRQ reload, IRQ disable / IRQ enable. */
  function CpuWrite(r: Regs, addr: Addr, data: bv8): (s: Regs)
    requires addr >= 0x8000 && WriteDefined(r, addr)
    ensures 0x8000 <= addr <= 0x9FFF && addr % 2 == 0 ==>
      s == r.(targetRegister := data & 7, prgBankMode := data & 0x40 != 0, chrInversion := data & 0x80 != 0)
    ensures 0x8000 <= addr <= 0x9FFF && addr % 2 == 1 ==>
      s == r.(registers := r.registers[r.targetRegister as int := data])
    ensures 0xA000 <= addr <= 0xBFFF ==> s == (if addr % 2 == 0 then r.(mirroring := data & 1) else r)
    ensures 0xC000 <= addr <= 0xDFFF ==> s == (if addr % 2 == 0 then r.(irqLatch := data) else r.(irqReload := true))
    ensures 0xE000 <= addr ==>
      s == (if addr % 2 == 0 then r.(irqEnabled := false, irqPending := false) else r.(irqEnabled := true))
  {
    var isEven := addr % 2 == 0;
    if addr <= 0x9FFF then
      if isEven then r.(targetRegister := data & 0x07, prgBankMode := data & 0x40 != 0, chrInversion := data & 0x80 != 0)
      else r.(registers := r.registers[r.targetRegister as int := data])
    else if addr <= 0xBFFF then
      if isEven then r.(mirroring := data & 1) else r
    else if addr <= 0xDFFF then
      if isEven then r.(irqLatch := data) else r.(irqReload := true)
    else
      if isEven then r.(irqEnabled := false, irqPending := false) else r.(irqEnabled := true)
  }

  /** Selecting a register and then writing data reaches exactly that register. */
  lemma SelectThenData(r: Regs, sel: Addr, dat: Addr, target: bv8, data: bv8)
    requires 0x8000 <= sel <= 0x9FFF && sel % 2 == 0
    requires 0x8000 <= dat <= 0x9FFF && dat % 2 == 1
    requires target < 8
    ensures var s := CpuWrite(CpuWrite(r, sel, target | (if r.prgBankMode then 0x40 else 0)), dat, data);
      && s.registers[target as int] == data
      && (forall j :: 0 <= j < 8 && j != target as int ==> s.registers[j] == r.registers[j])
      && s.prgBankMode == r.prgBankMode && !s.chrInversion
  {
    var v: bv8 := target | (if r.prgBankMode then 0x40 else 0);
    assert v & 7 == target && (v & 0x40 != 0) == r.prgBankMode && v & 0x80 == 0;
  }

  /** `GetMirroring`: four-screen overrides the register; register 0 is
      vertical and 1 horizontal. */
  function Mirroring(r: Regs): (m: bv8)
    ensures r.fourScreen ==> m == 4
    ensures !r.fourScreen ==> (m == 1 <==> r.mirroring == 0) && (m == 0 <==> r.mirroring != 0)
  {
    if r.fourScreen then 4 else if r.mirroring == 0 then 1 else 0
  }

  // ---------------------------------------------------------------------------
  // The scanline counter

  /** `clockIRQ`: a zero counter or a pending reload reloads the counter from
      the latch (clearing the reload); otherwise the counter counts down. The
      IRQ becomes pending when the counter is then 0 and IRQs are enabled. */
  function ClockIrq(r: Regs): (c: Regs)
    ensures c.irqCounter == (if r.irqCounter == 0 || r.irqReload then r.irqLatch else r.irqCounter - 1)
    ensures !c.irqReload
    ensures c.irqPending == (r.irqPending || (c.irqCounter == 0 && r.irqEnabled))
    ensures c == r.(irqCounter := c.irqCounter, irqReload := c.irqReload, irqPending := c.irqPending)
  {
    var r1 := if r.irqCounter == 0 || r.irqReload then r.(irqCounter := r.irqLatch, irqReload := false)
              else r.(irqCounter := r.irqCounter - 1);
    if r1.irqCounter == 0 && r1.irqEnabled then r1.(irqPending := true) else r1
  }

  /** `k` counter clocks in a row. */
  function ClockIrqTimes(r: Regs, k: nat): Regs
    decreases k
  {
    if k == 0 then r else ClockIrqTimes(ClockIrq(r), k - 1)
  }

  /** A counter at `n > 0` without a pending reload fires after exactly `n`
      clocks: earlier clocks leave the IRQ as it was. */
  lemma {:induction false} CounterFiresAfterN(r: Regs, k: nat)
    requires r.irqCounter > 0 && !r.irqReload && r.irqEnabled && !r.irqPending
    requires k <= r.irqCounter as int
    ensures ClockIrqTimes(r, k).irqCounter as int == r.irqCounter as int - k
    ensures ClockIrqTimes(r, k).irqPending <==> k == r.irqCounter as int
    decreases k
  {
    if k > 0 {
      var c := ClockIrq(r);
      assert c.irqCounter as int == r.irqCounter as int - 1;
      if c.irqCounter == 0 {
        assert k == 1;
      } else {
        CounterFiresAfterN(c, k - 1);
      }
    }
  }

  /** Whether A12 (address bit 12) is high for this PPU access. */
  predicate A12(addr: Addr) {
    (addr / 0x1000) % 2 == 1
  }

  /** `checkA12`: a rising edge of A12 after A12 was low for at least two CPU
      cycles clocks the counter; A12 high restarts the low-time count. */
  function CheckA12(r: Regs, addr: Addr): (c: Regs)
    ensures c.lastA12 == A12(addr)
    ensures A12(addr) ==> c.a12Delay == 0
    ensures !A12(addr) ==> c.a12Delay == r.a12Delay
    ensures var clocked := A12(addr) && !r.lastA12 && r.a12Delay >= 2;
      c == (if clocked then ClockIrq(r) else r).(lastA12 := c.lastA12, a12Delay := c.a12Delay)
  {
    var a12 := A12(addr);
    var r1 := if a12 && !r.lastA12 && r.a12Delay >= 2 then ClockIrq(r) else r;
    if a12 then r1.(lastA12 := true, a12Delay := 0) else r1.(lastA12 := false)
  }

  /** `Clock`, once per CPU cycle: counts the cycles A12 stays low. */
  function Clock(r: Regs): (c: Regs)
    ensures !r.lastA12 ==> c == r.(a12Delay := r.a12Delay + 1)
    ensures r.lastA12 ==> c == r
  {
    if !r.lastA12 then r.(a12Delay := r.a12Delay + 1) else r
  }

  /** The A12 filter: after an access with A12 low and two CPU cycles, an
      access with A12 high clocks the counter; with fewer than two cycles in
      between it does not. */
  lemma A12FilterNeedsTwoCycles(r: Regs, low: Addr, high: Addr)
    requires !A12(low) && A12(high)
    ensures var s := CheckA12(r, low).(a12Delay := 0);
      && CheckA12(Clock(Clock(s)), high) == ClockIrq(s).(lastA12 := true, a12Delay := 0)
      && CheckA12(Clock(s), high) == s.(lastA12 := true, a12Delay := 0)
  {
    var s := CheckA12(r, low).(a12Delay := 0);
    var c1 := s.(a12Delay := 1);
    var c2 := s.(a12Delay := 2);
    assert Clock(s) == c1 && Clock(c1) == c2;
    RisingEdge(c1, high);
    RisingEdge(c2, high);
    ClockIrqDelay(s, 2);
  }

  /** A rising edge of A12 clocks the counter exactly when A12 was low for
      two cycles or more. */
  lemma RisingEdge(r: Regs, high: Addr)
    requires A12(high) && !r.lastA12
    ensures CheckA12(r, high) == (if r.a12Delay >= 2 then ClockIrq(r) else r).(lastA12 := true, a12Delay := 0)
  {
  }

  /** The counter does not look at the low-time count. */
  lemma ClockIrqDelay(r: Regs, d: int)
    ensures ClockIrq(r.(a12Delay := d)) == ClockIrq(r).(a12Delay := d)
  {
  }

  /** An access with A12 high leaves the counter alone when A12 was already high. */
  lemma NoClockWithoutEdge(r: Regs, addr: Addr)
    requires r.lastA12
    ensures CheckA12(r, addr) == r.(lastA12 := A12(addr), a12Delay := if A12(addr) then 0 else r.a12Delay)
  {
  }
}
