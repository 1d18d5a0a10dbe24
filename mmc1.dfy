/** The register machine of mapper 1 (MMC1): a five-write serial port that
    loads one of four internal registers, the PRG and CHR bank layouts those
    registers select, and the delayed disabling of work RAM. */
module Mmc1 {
  import opened Word

  /** The mapper's registers, in the order of the saved `MMC1State` record. */
  datatype Regs = Regs(
    control: bv8, chrBank0: bv8, chrBank1: bv8, prgBank: bv8,
    shiftRegister: bv8, writeCount: bv8, wramDisableCounter: bv8, wramDisabled: bool)

  /** The registers of a fresh mapper: PRG mode 3, everything else zero. */
  const PowerOn: Regs := Regs(0x0C, 0, 0, 0, 0, 0, 0, false)

  // ---------------------------------------------------------------------------
  // Mirroring

  /** `GetMirroring`: the cartridge mirroring code selected by control bits 0-1
      (one-screen lower, one-screen upper, vertical, horizontal). */
  function Mirroring(control: bv8): (m: bv8)
    ensures control & 3 == 0 ==> m == 2
    ensures control & 3 == 1 ==> m == 3
    ensures control & 3 == 2 ==> m == 1
    ensures control & 3 == 3 ==> m == 0
  {
    match control & 3
    case 0 => 2
    case 1 => 3
    case 2 => 1
    case _ => 0
  }

  /** The four control settings give four different mirroring codes, and only
      control bits 0-1 matter. */
  lemma MirroringIsBijective(c1: bv8, c2: bv8)
    ensures Mirroring(c1) < 4
    ensures Mirroring(c1) == Mirroring(c2) <==> c1 & 3 == c2 & 3
  {
  }

  // ---------------------------------------------------------------------------
  // PRG banking

  /** PRG bank mode, control bits 2-3: 0 and 1 switch 32 KB, 2 fixes the first
      bank at $8000, 3 fixes the last bank at $C000. */
  function PrgMode(control: bv8): (mode: bv8)
    ensures mode < 4
  {
    (control >> 2) & 3
  }

  /** The source divides by the bank count (halved in 32 KB mode) and indexes
      the bank below the count, so it needs at least one 16 KB bank, two in
      32 KB mode. */
  predicate PrgReadable(control: bv8, numPrgBanks: nat) {
    if PrgMode(control) <= 1 then numPrgBanks >= 2 else numPrgBanks >= 1
  }

  /** The 16 KB PRG bank a CPU read at `addr` (in $8000-$FFFF) reaches. */
  function PrgBank16K(control: bv8, prgBank: bv8, numPrgBanks: nat, addr: Addr): (b: nat)
    requires addr >= 0x8000 && PrgReadable(control, numPrgBanks)
    ensures b < numPrgBanks
  {
    var mode := PrgMode(control);
    if mode <= 1 then
      var bank32 := ((prgBank & 0x0E) >> 1) as int % (numPrgBanks / 2);
      2 * bank32 + (if addr < 0xC000 then 0 else 1)
    else if mode == 2 then
      if addr < 0xC000 then 0 else (prgBank & 0x0F) as int % numPrgBanks
    else
      if addr < 0xC000 then (prgBank & 0x0F) as int % numPrgBanks else numPrgBanks - 1
  }

  /** The PRG-ROM index of a CPU read at `addr` in $8000-$FFFF: the offset in
      the 16 KB window inside the bank `PrgBank16K` chooses, so it lies inside
      the PRG-ROM. */
  function PrgIndex(control: bv8, prgBank: bv8, numPrgBanks: nat, addr: Addr): (i: nat)
    requires addr >= 0x8000 && PrgReadable(control, numPrgBanks)
    ensures i < numPrgBanks * 16384
    ensures i % 16384 == addr % 16384
    ensures i / 16384 == PrgBank16K(control, prgBank, numPrgBanks, addr)
  {
    var b := PrgBank16K(control, prgBank, numPrgBanks, addr);
    assert (b + 1) * 16384 <= numPrgBanks * 16384;
    b * 16384 + addr % 16384
  }

  /** Mode 3 fixes $C000-$FFFF to the last bank, whatever the PRG register holds. */
  lemma Mode3FixesLastBank(control: bv8, p1: bv8, p2: bv8, numPrgBanks: nat, addr: Addr)
    requires PrgMode(control) == 3 && numPrgBanks >= 1 && addr >= 0xC000
    ensures PrgBank16K(control, p1, numPrgBanks, addr) == numPrgBanks - 1
    ensures PrgIndex(control, p1, numPrgBanks, addr) == PrgIndex(control, p2, numPrgBanks, addr)
  {
  }

  /** Mode 2 fixes $8000-$BFFF to bank 0, whatever the PRG register holds. */
  lemma Mode2FixesFirstBank(control: bv8, p1: bv8, numPrgBanks: nat, addr: Addr)
    requires PrgMode(control) == 2 && numPrgBanks >= 1 && 0x8000 <= addr < 0xC000
    ensures PrgIndex(control, p1, numPrgBanks, addr) == addr - 0x8000
  {
  }

  /** In the 32 KB modes the whole $8000-$FFFF window is one contiguous 32 KB
      bank, and bit 0 of the PRG register is ignored. */
  lemma Mode32KContiguous(control: bv8, prgBank: bv8, numPrgBanks: nat, addr: Addr)
    requires PrgMode(control) <= 1 && numPrgBanks >= 2 && addr >= 0x8000
    ensures PrgIndex(control, prgBank, numPrgBanks, addr)
         == PrgIndex(control, prgBank, numPrgBanks, 0x8000) + (addr - 0x8000)
    ensures PrgIndex(control, prgBank, numPrgBanks, addr)
         == PrgIndex(control, prgBank ^ 1, numPrgBanks, addr)
  {
    assert (prgBank ^ 1) & 0x0E == prgBank & 0x0E;
  }

  // ---------------------------------------------------------------------------
  // CHR banking

  /** CHR bank mode, control bit 4: 0 switches 8 KB at a time, 1 two 4 KB banks. */
  predicate Chr8KMode(control: bv8) {
    (control >> 4) & 1 == 0
  }

  /** The source divides by the number of 4 KB CHR banks (halved in 8 KB mode). */
  predicate ChrReadable(control: bv8, numChrBanks: nat) {
    if Chr8KMode(control) then numChrBanks >= 2 else numChrBanks >= 1
  }

  /** The 4 KB CHR bank a PPU access at `addr` (in $0000-$1FFF) reaches. */
  function ChrBank4K(control: bv8, chrBank0: bv8, chrBank1: bv8, numChrBanks: nat, addr: Addr): (b: nat)
    requires addr <= 0x1FFF && ChrReadable(control, numChrBanks)
    ensures b < numChrBanks
  {
    if Chr8KMode(control) then
      2 * (((chrBank0 & 0x1E) >> 1) as int % (numChrBanks / 2)) + addr / 0x1000
    else
      (if addr < 0x1000 then chrBank0 else chrBank1) as int % numChrBanks
  }

  /** The CHR index of a PPU access: the offset in the 4 KB window inside the
      bank `ChrBank4K` chooses. */
  function ChrIndex(control: bv8, chrBank0: bv8, chrBank1: bv8, numChrBanks: nat, addr: Addr): (i: nat)
    requires addr <= 0x1FFF && ChrReadable(control, numChrBanks)
    ensures i < numChrBanks * 4096
    ensures i % 4096 == addr % 4096
    ensures i / 4096 == ChrBank4K(control, chrBank0, chrBank1, numChrBanks, addr)
  {
    var b := ChrBank4K(control, chrBank0, chrBank1, numChrBanks, addr);
    assert (b + 1) * 4096 <= numChrBanks * 4096;
    b * 4096 + addr % 4096
  }

  /** In 8 KB mode pattern space is one contiguous 8 KB bank chosen by CHR
      bank 0 without its bit 0; CHR bank 1 is ignored. */
  lemma Chr8KContiguous(control: bv8, c0: bv8, c1: bv8, c1b: bv8, numChrBanks: nat, addr: Addr)
    requires Chr8KMode(control) && numChrBanks >= 2 && addr <= 0x1FFF
    ensures ChrIndex(control, c0, c1, numChrBanks, addr)
         == ChrIndex(control, c0, c1, numChrBanks, 0) + addr
    ensures ChrIndex(control, c0, c1, numChrBanks, addr)
         == ChrIndex(control, c0 ^ 1, c1b, numChrBanks, addr)
  {
    assert (c0 ^ 1) & 0x1E == c0 & 0x1E;
  }

  /** In 4 KB mode CHR bank 0 alone decides $0000-$0FFF and CHR bank 1 alone
      decides $1000-$1FFF. */
  lemma Chr4KHalvesIndependent(control: bv8, c0: bv8, c1: bv8, c0b: bv8, c1b: bv8, numChrBanks: nat, addr: Addr)
    requires !Chr8KMode(control) && numChrBanks >= 1 && addr <= 0x1FFF
    ensures addr < 0x1000 ==> ChrIndex(control, c0, c1, numChrBanks, addr) == ChrIndex(control, c0, c1b, numChrBanks, addr)
    ensures addr >= 0x1000 ==> ChrIndex(control, c0, c1, numChrBanks, addr) == ChrIndex(control, c0b, c1, numChrBanks, addr)
  {
  }

  // ---------------------------------------------------------------------------
  // The serial port ($8000-$FFFF)

  /** The register a committing write loads, from address bits 13-14:
      0 control, 1 CHR bank 0, 2 CHR bank 1, 3 PRG bank. */
  function Target(addr: Addr): (t: nat)
    ensures t < 4
  {
    (addr / 0x2000) % 4
  }

  /** The value of register `target`. */
  function Register(r: Regs, target: nat): bv8
    requires target < 4
  {
    match target
    case 0 => r.control
    case 1 => r.chrBank0
    case 2 => r.chrBank1
    case _ => r.prgBank
  }

  /** Loading register `target` with `v`. Loading the PRG register with bit 4
      set arms the work-RAM disable counter; with bit 4 clear it re-enables
      work RAM at once. */
  function Commit(r: Regs, target: nat, v: bv8): (c: Regs)
    requires target < 4
    ensures Register(c, target) == v
    ensures forall t :: 0 <= t < 4 && t != target ==> Register(c, t) == Register(r, t)
    ensures c.shiftRegister == r.shiftRegister && c.writeCount == r.writeCount
    ensures target != 3 ==> c.wramDisableCounter == r.wramDisableCounter && c.wramDisabled == r.wramDisabled
    ensures target == 3 && (v >> 4) & 1 == 1 ==> c.wramDisableCounter == 2 && c.wramDisabled == r.wramDisabled
    ensures target == 3 && (v >> 4) & 1 == 0 ==> c.wramDisableCounter == r.wramDisableCounter && !c.wramDisabled
  {
    match target
    case 0 => r.(control := v)
    case 1 => r.(chrBank0 := v)
    case 2 => r.(chrBank1 := v)
    case _ =>
      if (v >> 4) & 1 == 1 then r.(prgBank := v, wramDisableCounter := 2)
      else r.(prgBank := v, wramDisabled := false)
  }

  /** The shift register after data bit 0 enters at bit 4. */
  function Push(sr: bv8, data: bv8): bv8 {
    (sr >> 1) | ((data & 1) << 4)
  }

  /** One ordinary serial write: data bit 0 enters the shift register at bit 4;
      the fifth write loads the target register with the five bits and clears
      the shift register and the count. */
  function Shift(r: Regs, addr: Addr, data: bv8): (s: Regs)
  {
    var sr := Push(r.shiftRegister, data);
    var wc := r.writeCount + 1;
    var pushed := r.(shiftRegister := sr, writeCount := wc);
    if wc == 5 then Commit(pushed, Target(addr), sr).(shiftRegister := 0, writeCount := 0)
    else pushed
  }

  /** The reset test of the source: `data&0x80 == 1`. */
  predicate ResetTestAsWritten(data: bv8) {
    data & 0x80 == 1
  }

  /** A masked bit is 0 or 0x80, never 1, so the reset branch is dead code. */
  lemma ResetTestAsWrittenNeverHolds(data: bv8)
    ensures !ResetTestAsWritten(data)
  {
  }

  /** The reset test as the MMC1 defines it: bit 7 of the data is set. */
  predicate IsReset(data: bv8) {
    data & 0x80 != 0
  }

  /** A serial write as the source is written: it never takes the reset branch. */
  function SerialWriteAsWritten(r: Regs, addr: Addr, data: bv8): (s: Regs)
    ensures s == Shift(r, addr, data)
  {
    if ResetTestAsWritten(data) then
      r.(shiftRegister := 0, writeCount := 0, control := r.control | 0x0C)
    else Shift(r, addr, data)
  }

  /** A serial write with the reset test corrected: a write with bit 7 set
      clears the shift register and the count and sets PRG mode 3. */
  function SerialWrite(r: Regs, addr: Addr, data: bv8): (s: Regs)
    ensures IsReset(data) ==> (s.shiftRegister == 0 && s.writeCount == 0
                               && PrgMode(s.control) == 3 && s.control & 0xF3 == r.control & 0xF3)
    ensures !IsReset(data) ==> s == Shift(r, addr, data)
  {
    if IsReset(data) then
      r.(shiftRegister := 0, writeCount := 0, control := r.control | 0x0C)
    else Shift(r, addr, data)
  }

  /** Two writes in the middle of a sequence: the source shifts the bit-7
      write in as data, where a reset abandons the sequence. */
  lemma ResetWriteDiffers()
    ensures SerialWriteAsWritten(PowerOn.(writeCount := 2, shiftRegister := 0x0C), 0x8000, 0x81).writeCount == 3
    ensures SerialWrite(PowerOn.(writeCount := 2, shiftRegister := 0x0C), 0x8000, 0x81).writeCount == 0
  {
  }

  /** Whether a serial write loads the control register, upon which the
      cartridge's mirroring is set from it. */
  predicate CommitsControl(r: Regs, addr: Addr, data: bv8) {
    !IsReset(data) && r.writeCount + 1 == 5 && Target(addr) == 0
  }

  /** Between serial writes fewer than five bits are pending, all in bits 0-4
      of the shift register. */
  ghost predicate Settled(r: Regs) {
    r.writeCount < 5 && r.shiftRegister < 32
  }

  lemma SerialWriteKeepsSettled(r: Regs, addr: Addr, data: bv8)
    requires Settled(r)
    ensures Settled(SerialWrite(r, addr, data))
  {
  }

  /** The five data bit-0s of a sequence, the first in bit 0. */
  function Assembled(d0: bv8, d1: bv8, d2: bv8, d3: bv8, d4: bv8): (v: bv8)
    ensures v < 32
  {
    (d0 & 1) | ((d1 & 1) << 1) | ((d2 & 1) << 2) | ((d3 & 1) << 3) | ((d4 & 1) << 4)
  }

  /** Five ordinary writes starting from an empty count load the register
      chosen by the fifth write's address with the five data bit-0s, least
      significant first, and leave the port empty; the other registers keep
      their values. */
  lemma FiveWritesLoadRegister(r: Regs, a0: Addr, a1: Addr, a2: Addr, a3: Addr, a4: Addr,
                               d0: bv8, d1: bv8, d2: bv8, d3: bv8, d4: bv8)
    requires r.writeCount == 0 && r.shiftRegister < 32
    requires !IsReset(d0) && !IsReset(d1) && !IsReset(d2) && !IsReset(d3) && !IsReset(d4)
    ensures var s := SerialWrite(SerialWrite(SerialWrite(SerialWrite(SerialWrite(r, a0, d0), a1, d1), a2, d2), a3, d3), a4, d4);
      && s.writeCount == 0 && s.shiftRegister == 0
      && Register(s, Target(a4)) == Assembled(d0, d1, d2, d3, d4)
      && forall t :: 0 <= t < 4 && t != Target(a4) ==> Register(s, t) == Register(r, t)
  {
    var sr := r.shiftRegister;
    var s1 := SerialWrite(r, a0, d0);
    assert s1 == r.(shiftRegister := Push(sr, d0), writeCount := 1);
    var s2 := SerialWrite(s1, a1, d1);
    assert s2 == r.(shiftRegister := Push(Push(sr, d0), d1), writeCount := 2);
    var s3 := SerialWrite(s2, a2, d2);
    assert s3 == r.(shiftRegister := Push(Push(Push(sr, d0), d1), d2), writeCount := 3);
    var s4 := SerialWrite(s3, a3, d3);
    assert s4 == r.(shiftRegister := Push(Push(Push(Push(sr, d0), d1), d2), d3), writeCount := 4);
    PushFive(sr, d0, d1, d2, d3, d4);
    var v := Push(s4.shiftRegister, d4);
    var c := Commit(s4.(shiftRegister := v, writeCount := 5), Target(a4), v);
    var s5 := SerialWrite(s4, a4, d4);
    assert s5 == c.(shiftRegister := 0, writeCount := 0);
    forall t | 0 <= t < 4
      ensures Register(s5, t) == Register(c, t) && Register(s4.(shiftRegister := v, writeCount := 5), t) == Register(r, t)
    {
    }
  }

  /** Five pushes leave exactly the five data bit-0s, the first in bit 0. */
  lemma PushFive(sr: bv8, d0: bv8, d1: bv8, d2: bv8, d3: bv8, d4: bv8)
    requires sr < 32
    ensures Push(Push(Push(Push(Push(sr, d0), d1), d2), d3), d4) == Assembled(d0, d1, d2, d3, d4)
  {
  }

  // ---------------------------------------------------------------------------
  // Work-RAM disable counter

  /** `Clock`: the armed counter runs down, and work RAM is disabled when it
      reaches 0. */
  function Clock(r: Regs): (c: Regs)
    ensures r.wramDisableCounter == 0 ==> c == r
    ensures r.wramDisableCounter > 0 ==> c == r.(wramDisableCounter := r.wramDisableCounter - 1,
                                                   wramDisabled := r.wramDisabled || r.wramDisableCounter == 1)
  {
    if r.wramDisableCounter > 0 then
      var n := r.wramDisableCounter - 1;
      if n == 0 then r.(wramDisableCounter := n, wramDisabled := true)
      else r.(wramDisableCounter := n)
    else r
  }

  /** Loading the PRG register with bit 4 set disables work RAM after exactly
      two clocks; with bit 4 clear it is enabled at once. */
  lemma WramDisableTakesTwoClocks(r: Regs, v: bv8)
    ensures (v >> 4) & 1 == 1 ==> (Clock(Commit(r, 3, v)).wramDisabled == r.wramDisabled
                                && Clock(Clock(Commit(r, 3, v))).wramDisabled)
    ensures (v >> 4) & 1 == 0 ==> !Commit(r, 3, v).wramDisabled
  {
  }
}
