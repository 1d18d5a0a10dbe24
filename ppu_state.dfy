/** The 2C02's registers and one PPU clock as values: the register protocol
    of $2000-$2007 (address latch, read buffer, address increment of 1 or 32),
    the dot counter over 262 scanlines of 341 cycles, the background fetch and
    shift pipeline, the scroll-address increments and copies, and the
    vertical-blank flag. The `Ppu.PPU` class is proved against these. */
module PpuState {
  import opened Word
  import PpuMemory
  import Loopy

  /** The PPU's registers apart from its memories and the background pipeline:
      PPUCTRL, PPUMASK, PPUSTATUS, OAMADDR, OAMDATA, OAMDMA, the NMI line,
      the current and temporary VRAM addresses (16-bit words, read by
      `Loopy` as scroll fields), the read buffer, the address latch, fine X, and the
      scanline and cycle counters. */
  datatype Regs = Regs(
    ctrl: bv8, mask: bv8, status: bv8, oamAddr: bv8, oamData: bv8, oamDma: bv8, nmi: bool,
    v: Addr, t: Addr, buffer: bv8, latch: bool, fineX: bv8, scanline: int, cycle: int)

  /** The next tile's bytes and the four 16-bit background shift registers. */
  datatype Background = Background(
    tileId: bv8, tileAttrib: bv8, tileLsb: bv8, tileMsb: bv8,
    patternL: bv16, patternH: bv16, attribL: bv16, attribH: bv16)

  // ---------------------------------------------------------------------------
  // The register protocol

  /** The address step after a $2007 write: 32 (one row down) when PPUCTRL
      bit 2 is set, otherwise 1. */
  function Increment(ctrl: bv8): (n: nat)
    ensures n == 1 || n == 32
    ensures n == 32 <==> ctrl & 0x04 != 0
  {
    if ctrl & 0x04 == 0 then 1 else 32
  }

  /** A read of $2002: the status as it was, after which bit 7 (vertical blank)
      and the address latch are cleared. */
  function ReadStatus(r: Regs): (Regs, bv8) {
    (r.(status := r.status & 0x7F, latch := false), r.status)
  }

  /** A read of $2007: the byte buffered by the previous read below $3F00
      (unmasked address), the byte just read from $3F00 up; the buffer takes
      the byte just read and the address advances by 1 (wrapping at 16 bits)
      whatever PPUCTRL says. */
  function ReadData(r: Regs, m: PpuMemory.Mem): (Regs, bv8)
    requires PpuMemory.Defined(m, r.v)
  {
    var byte := PpuMemory.Read(m, r.v);
    (r.(buffer := byte, v := (r.v + 1) % 0x10000), if r.v >= 0x3F00 then byte else r.buffer)
  }

  /** A write to $2005: the first of a pair sets fine X and coarse X, the
      second coarse Y and fine Y; the latch says which one this is. */
  function WriteScroll(r: Regs, data: bv8): Regs {
    if r.latch then r.(t := Loopy.ScrollSecond(r.t, data), latch := false)
    else r.(fineX := data & 0x07, t := Loopy.ScrollFirst(r.t, data), latch := true)
  }

  /** A write to $2006: the first of a pair sets the high six bits of the
      temporary address, the second its low byte and copies it into the
      current address. */
  function WriteAddress(r: Regs, data: bv8): Regs {
    if r.latch then
      var t := Loopy.AddrLow(r.t, data);
      r.(t := t, v := t, latch := false)
    else r.(t := Loopy.AddrHigh(r.t, data), latch := true)
  }

  /** A write to a register other than $2007: PPUCTRL, PPUMASK, OAMADDR,
      OAMDATA and OAMDMA take the byte, $2005 and $2006 follow their
      protocols, and the addresses the source ignores change nothing. */
  function WriteRegister(r: Regs, addr: Addr, data: bv8): (s: Regs)
    requires addr != 7
  {
    if addr == 0 then r.(ctrl := data)
    else if addr == 1 then r.(mask := data)
    else if addr == 3 then r.(oamAddr := data)
    else if addr == 4 then r.(oamData := data)
    else if addr == 5 then WriteScroll(r, data)
    else if addr == 6 then WriteAddress(r, data)
    else if addr == 0x4014 then r.(oamDma := data)
    else r
  }

  /** The addresses the source ignores change nothing; only the second
      write of a $2006 pair moves the current address; no register write
      touches the counters, the read buffer, the status or the NMI line. */
  lemma WriteRegisterFrame(r: Regs, addr: Addr, data: bv8)
    requires addr != 7
    ensures var s := WriteRegister(r, addr, data);
      && (addr !in {0, 1, 3, 4, 5, 6, 0x4014} ==> s == r)
      && (s.v != r.v ==> addr == 6 && r.latch)
      && s.scanline == r.scanline && s.cycle == r.cycle && s.buffer == r.buffer
      && s.status == r.status && s.nmi == r.nmi
  {
  }

  /** A write to $2007: the byte goes to the current address and the address
      advances by the PPUCTRL step. */
  function WriteData(r: Regs, m: PpuMemory.Mem, data: bv8): (res: (Regs, PpuMemory.Mem))
    requires PpuMemory.Defined(m, r.v)
    ensures res.0 == r.(v := (r.v + Increment(r.ctrl)) % 0x10000)
    ensures PpuMemory.Defined(res.1, r.v)
    ensures !PpuMemory.Decode(r.v).Pattern? ==> PpuMemory.Read(res.1, r.v) == data
  {
    PpuMemory.ReadAfterWrite(m, r.v, data);
    (r.(v := (r.v + Increment(r.ctrl)) % 0x10000), PpuMemory.Write(m, r.v, data))
  }

  /** The 14-bit address a $2006 pair `hi`, `lo` gives. */
  function PairAddress(hi: bv8, lo: bv8): Addr {
    ((hi as int) % 64) * 256 + lo as int
  }

  /** Two $2006 writes from a cleared latch point both addresses at the pair's
      14-bit address and clear the latch again; nothing else changes. */
  function SetAddress(r: Regs, hi: bv8, lo: bv8): (s: Regs)
    requires !r.latch
    ensures s == r.(t := PairAddress(hi, lo), v := PairAddress(hi, lo))
    ensures s.v < 0x4000
  {
    Loopy.AddrWritesSetAddress(r.t, hi, lo);
    WriteAddress(WriteAddress(r, hi), lo)
  }

  /** A $2002 read between the two halves of a $2006 pair restarts the pair:
      the next write is taken as a high byte again. */
  lemma StatusReadResetsLatch(r: Regs, hi: bv8, data: bv8)
    ensures var s := ReadStatus(WriteRegister(r.(latch := false), 6, hi)).0;
      !s.latch && WriteRegister(s, 6, data).latch
  {
  }

  /** A $2002 read returns the status from before it and clears only the
      vertical-blank bit and the latch. */
  lemma ReadStatusClearsVBlank(r: Regs)
    ensures var (s, d) := ReadStatus(r);
      d == r.status && s.status & 0x80 == 0 && s.status & 0x7F == r.status & 0x7F && !s.latch
      && s == r.(status := s.status, latch := false)
  {
  }

  /** Writing through $2007 with a write to $2006 pair before it stores the
      byte at the address the pair gave; reading it back takes two $2007
      reads below the palette (the first returns the stale buffer) and one in
      it. */
  lemma DataWriteThenRead(r: Regs, m: PpuMemory.Mem, hi: bv8, lo: bv8, data: bv8)
    requires !r.latch
    requires PpuMemory.Defined(m, PairAddress(hi, lo)) && !PpuMemory.Decode(PairAddress(hi, lo)).Pattern?
    ensures var a := SetAddress(r, hi, lo);
      var w := WriteData(a, m, data);
      var b := SetAddress(w.0, hi, lo);
      var first := ReadData(b, w.1);
      && (a.v < 0x3F00 ==> first.1 == b.buffer && first.0.buffer == data)
      && (a.v >= 0x3F00 ==> first.1 == data)
  {
  }

  // ---------------------------------------------------------------------------
  // The dot counter

  /** A position of the frame: scanlines -1 (pre-render) to 260, cycles 0 to 340. */
  predicate InFrame(scanline: int, cycle: int) {
    -1 <= scanline < 261 && 0 <= cycle < 341
  }

  /** The counters after a clock: cycle 340 wraps to 0 on the next scanline,
      and scanline 260 wraps to -1. */
  function Advance(scanline: int, cycle: int): (p: (int, int))
    ensures InFrame(scanline, cycle) ==> InFrame(p.0, p.1)
    ensures cycle + 1 < 341 ==> p == (scanline, cycle + 1)
    ensures cycle + 1 >= 341 && scanline + 1 < 261 ==> p == (scanline + 1, 0)
    ensures cycle + 1 >= 341 && scanline + 1 >= 261 ==> p == (-1, 0)
  {
    var c := cycle + 1;
    if c >= 341 then
      var s := scanline + 1;
      (if s >= 261 then -1 else s, 0)
    else (scanline, c)
  }

  /** The dot number of a position, counted from cycle 0 of the pre-render line. */
  function Dot(scanline: int, cycle: int): int {
    (scanline + 1) * 341 + cycle
  }

  /** The counters step through the 262 * 341 dots of a frame one at a time,
      in order, and start over. */
  lemma AdvanceCountsDots(scanline: int, cycle: int)
    requires InFrame(scanline, cycle)
    ensures 0 <= Dot(scanline, cycle) < 262 * 341
    ensures var p := Advance(scanline, cycle); Dot(p.0, p.1) == (Dot(scanline, cycle) + 1) % (262 * 341)
  {
  }

  // ---------------------------------------------------------------------------
  // Vertical blank

  /** Inside the rendering block (scanlines -1 to 239), as the source places
      the check: scanline 241 is never inside, so this never fires. */
  function VBlankAsWritten(r: Regs): Regs {
    if -1 <= r.scanline < 240 && r.scanline == 241 && r.cycle == 1 then
      r.(status := r.status | 0x80, nmi := r.nmi || r.ctrl & 0x80 != 0)
    else r
  }

  /** The start of vertical blank, checked outside the rendering block: at
      scanline 241, cycle 1 the flag is set and an NMI raised when PPUCTRL
      bit 7 asks for one. */
  function VBlank(r: Regs): (s: Regs)
    ensures r.scanline == 241 && r.cycle == 1 ==> s.status & 0x80 != 0 && (s.nmi <==> r.nmi || r.ctrl & 0x80 != 0)
    ensures !(r.scanline == 241 && r.cycle == 1) ==> s == r
    ensures s == r.(status := s.status, nmi := s.nmi)
  {
    if r.scanline == 241 && r.cycle == 1 then
      r.(status := r.status | 0x80, nmi := r.nmi || r.ctrl & 0x80 != 0)
    else r
  }

  /** As written the vertical-blank code is dead: no clock sets the flag or
      raises an NMI, where the intended check does at scanline 241, cycle 1. */
  lemma VBlankAsWrittenIsDead(r: Regs)
    ensures VBlankAsWritten(r) == r
    ensures r.scanline == 241 && r.cycle == 1 && r.ctrl & 0x80 != 0 && !r.nmi ==> VBlank(r).nmi && !VBlankAsWritten(r).nmi
  {
  }

  // ---------------------------------------------------------------------------
  // One clock

  /** PPUMASK bit 3: show the background. */
  predicate ShowBackground(mask: bv8) {
    mask & 0x08 != 0
  }

  /** PPUMASK bit 3 or 4: background or sprites shown. */
  predicate Rendering(mask: bv8) {
    mask & 0x18 != 0
  }

  /** Scanlines -1 to 239, where the source's rendering block runs. */
  predicate InRenderBlock(r: Regs) {
    -1 <= r.scanline < 240
  }

  /** The cycles at which the shifters move and a fetch phase runs. */
  predicate InFetchWindow(cycle: int) {
    (2 <= cycle < 258) || (322 <= cycle < 338)
  }

  function Bit(b: bool): bv8 { if b then 1 else 0 }

  /** The 4-bit palette index of the background pixel: bit `fineX` from the
      top of the two pattern shifters (low bits) and the two attribute
      shifters (high bits); 0 when the background is hidden. */
  function PixelIndex(mask: bv8, fineX: bv8, bg: Background): (idx: bv8)
    requires fineX < 8
    ensures idx < 16
    ensures !ShowBackground(mask) ==> idx == 0
  {
    if !ShowBackground(mask) then 0
    else
      PixelBits(Selected(bg.patternH, fineX), Selected(bg.patternL, fineX),
                Selected(bg.attribH, fineX), Selected(bg.attribL, fineX))
  }

  /** Whether the shifter bit `fineX` from the top is set. */
  predicate Selected(x: bv16, fineX: bv8)
    requires fineX < 8
  {
    x & (0x8000 >> (fineX as int)) > 0
  }

  /** Two pattern bits and two attribute bits form a 4-bit palette index. */
  function PixelBits(p1: bool, p0: bool, a1: bool, a0: bool): (idx: bv8)
    ensures idx < 16
  {
    ((Bit(p1) << 1) | Bit(p0)) | (((Bit(a1) << 1) | Bit(a0)) << 2)
  }

  /** The palette address the pixel's colour is looked up at. */
  function PixelAddr(mask: bv8, fineX: bv8, bg: Background): (a: Addr)
    requires fineX < 8
    ensures 0x3F00 <= a < 0x3F10
  {
    0x3F00 + PixelIndex(mask, fineX, bg) as int
  }

  /** Whether a clock at this position writes a pixel: visible scanlines,
      cycles 0 to 255. */
  predicate DrawsPixel(scanline: int, cycle: int) {
    0 <= scanline < 240 && 0 <= cycle < 256
  }

  /** The index into `pixels` of the pixel written at this position: one
      row of 256 per scanline. */
  function PixelOffset(scanline: int, cycle: int): (i: nat)
    requires DrawsPixel(scanline, cycle)
    ensures i < 256 * 240
    ensures i / 256 == scanline && i % 256 == cycle
  {
    scanline * 256 + cycle
  }

  /** The source writes `palette[ppuRead(addr) % 0x40]`: a 64-entry index into
      the 32-byte palette, defined only while the entry read is below 32. */
  predicate PixelDefined(r: Regs, bg: Background, m: PpuMemory.Mem) {
    r.fineX < 8 && |m.palette| == 32
      && (DrawsPixel(r.scanline, r.cycle) ==> PpuMemory.Read(m, PixelAddr(r.mask, r.fineX, bg)) % 0x40 < 32)
  }

  /** The byte written into `pixels`. */
  function PixelValue(mask: bv8, fineX: bv8, bg: Background, m: PpuMemory.Mem): bv8
    requires fineX < 8 && |m.palette| == 32
    requires PpuMemory.Read(m, PixelAddr(mask, fineX, bg)) % 0x40 < 32
  {
    m.palette[(PpuMemory.Read(m, PixelAddr(mask, fineX, bg)) % 0x40) as int]
  }

  /** With the background hidden every pixel is looked up through the
      backdrop entry $3F00, whatever the shifters hold. */
  lemma HiddenBackgroundDrawsBackdrop(mask: bv8, fineX: bv8, bg: Background, m: PpuMemory.Mem)
    requires !ShowBackground(mask) && fineX < 8 && |m.palette| == 32
    requires m.palette[0] % 0x40 < 32
    ensures PpuMemory.Read(m, PixelAddr(mask, fineX, bg)) % 0x40 < 32
    ensures PixelValue(mask, fineX, bg, m) == m.palette[(m.palette[0] % 0x40) as int]
  {
    assert PixelAddr(mask, fineX, bg) == 0x3F00;
    assert PpuMemory.Decode(0x3F00) == PpuMemory.Palette(0);
  }

  /** The nametable byte of the tile under the current address,
      `0x2000 | (v & 0x0FFF)`. */
  function NameAddr(v: Addr): Addr {
    0x2000 + v % 0x1000
  }

  /** The tile number comes from the nametables, at the low 12 bits of the
      current address: the nametable select and the coarse position. */
  lemma NameAddrInNametables(v: Addr)
    ensures 0x2000 <= NameAddr(v) <= 0x2FFF
    ensures PpuMemory.Decode(NameAddr(v)) == PpuMemory.Nametable(v % 0x1000)
    ensures v % 0x1000 == (Loopy.NametableY(v) * 2 + Loopy.NametableX(v)) * 0x400 + Loopy.CoarseY(v) * 32 + Loopy.CoarseX(v)
  {
    Loopy.FieldsOfAddress(v);
    var low := (Loopy.NametableY(v) * 2 + Loopy.NametableX(v)) * 0x400 + Loopy.CoarseY(v) * 32 + Loopy.CoarseX(v);
    Loopy.Split(v, 0x1000, Loopy.Top(v) * 8 + Loopy.FineY(v), low);
    PpuMemory.DecodeNametable(NameAddr(v));
  }

  /** The attribute byte covering the tile under the current address,
      `0x23C0 | (v & 0x0C00) | ((v >> 4) & 0x38) | ((v >> 2) & 0x07)`: the
      nametable select, the top three bits of coarse Y and the top three
      bits of coarse X, each put in a field of 0x23C0's zero bits. */
  function AttribAddr(v: Addr): Addr {
    0x23C0 + (Loopy.NametableY(v) * 2 + Loopy.NametableX(v)) * 0x400 + (Loopy.CoarseY(v) / 4) * 8 + Loopy.CoarseX(v) / 4
  }

  /** The attribute byte lies in the last 64 bytes of the same 1 KB nametable
      as the tile's nametable byte, at the byte of the 4x4-tile block
      holding the tile. */
  lemma AttribAddrInAttributeTable(v: Addr)
    ensures 0x23C0 <= AttribAddr(v) <= 0x2FFF
    ensures PpuMemory.Decode(AttribAddr(v)).Nametable?
    ensures var i := PpuMemory.Decode(AttribAddr(v)).index; var j := PpuMemory.Decode(NameAddr(v)).index;
      && i / 0x400 == j / 0x400
      && i % 0x400 == 0x3C0 + (Loopy.CoarseY(v) / 4) * 8 + Loopy.CoarseX(v) / 4
  {
    var nt := Loopy.NametableY(v) * 2 + Loopy.NametableX(v);
    var cell := Loopy.CoarseY(v) * 32 + Loopy.CoarseX(v);
    var attr := 0x3C0 + (Loopy.CoarseY(v) / 4) * 8 + Loopy.CoarseX(v) / 4;
    NameAddrInNametables(v);
    Loopy.Split(AttribAddr(v), 0x1000, 2, nt * 0x400 + attr);
    PpuMemory.DecodeNametable(AttribAddr(v));
    Loopy.Split(nt * 0x400 + attr, 0x400, nt, attr);
    Loopy.Split(v % 0x1000, 0x400, nt, cell);
  }

  /** The two attribute bits of the tile's quadrant as the source selects
      them: address bit 1 (`v & 0x02`, bit 1 of coarse X) picks the nibble,
      bit 6 (`v & 0x40`, bit 1 of coarse Y) the pair within it. */
  function AttribBitsAsWritten(b: bv8, v: Addr): (q: bv8)
    ensures q < 4
  {
    var b1 := if Loopy.CoarseX(v) / 2 % 2 != 0 then b >> 4 else b;
    var b2 := if Loopy.CoarseY(v) / 2 % 2 != 0 then b1 >> 2 else b1;
    b2 & 0x03
  }

  /** The two attribute bits of the tile's quadrant in the NES layout: bit 1
      of coarse Y (the bottom half of the 32x32-pixel area) picks the upper
      nibble, bit 1 of coarse X (the right half) the upper pair within it. */
  function AttribBits(b: bv8, v: Addr): (q: bv8)
    ensures q < 4
  {
    var b1 := if Loopy.CoarseY(v) / 2 % 2 != 0 then b >> 4 else b;
    var b2 := if Loopy.CoarseX(v) / 2 % 2 != 0 then b1 >> 2 else b1;
    b2 & 0x03
  }

  /** Each 16x16 quadrant of a 32x32-pixel area takes its own two bits of
      the attribute byte: top left bits 0-1, top right 2-3, bottom left 4-5,
      bottom right 6-7. */
  lemma AttribBitsQuadrant(b: bv8, v: Addr)
    ensures var right := Loopy.CoarseX(v) / 2 % 2 == 1; var bottom := Loopy.CoarseY(v) / 2 % 2 == 1;
      && (!right && !bottom ==> AttribBits(b, v) == b & 3)
      && (right && !bottom ==> AttribBits(b, v) == (b >> 2) & 3)
      && (!right && bottom ==> AttribBits(b, v) == (b >> 4) & 3)
      && (right && bottom ==> AttribBits(b, v) == (b >> 6) & 3)
  {
  }

  /** As written the top-right and bottom-left quadrants trade places: the
      top-right one reads bits 4-5 and the bottom-left one bits 2-3. An
      attribute byte of $0C (palette 3 for the top-right quadrant only) at
      coarse X 2, coarse Y 0 gives palette 0 as written and 3 as intended. */
  lemma AttribBitsAsWrittenSwapsQuadrants(b: bv8, v: Addr)
    ensures var right := Loopy.CoarseX(v) / 2 % 2 == 1; var bottom := Loopy.CoarseY(v) / 2 % 2 == 1;
      && (right == bottom ==> AttribBitsAsWritten(b, v) == AttribBits(b, v))
      && (right && !bottom ==> AttribBitsAsWritten(b, v) == (b >> 4) & 3)
      && (!right && bottom ==> AttribBitsAsWritten(b, v) == (b >> 2) & 3)
    ensures AttribBitsAsWritten(0x0C, 2) == 0 && AttribBits(0x0C, 2) == 3
  {
  }

  /** The pattern byte of row fine Y of tile `id`, in the table PPUCTRL bit 4
      selects, `(uint16(ctrl & 0x10) << 8) + uint16(id) << 4 + (v >> 12)`;
      `plane` 8 is the high bit plane. */
  function PatternAddr(ctrl: bv8, id: bv8, v: Addr, plane: nat): Addr
    requires plane == 0 || plane == 8
  {
    (if ctrl & 0x10 != 0 then 0x1000 else 0) + (id as int) * 16 + v / 0x1000 + plane
  }

  /** The 16-bit sum of the source cannot wrap: it stays below $2008, it is
      row fine Y of the tile's 16 bytes, and it lies inside the pattern tables
      while bit 15 of the current address is clear. */
  lemma PatternAddrInPatternTables(ctrl: bv8, id: bv8, v: Addr, plane: nat)
    requires plane == 0 || plane == 8
    ensures PatternAddr(ctrl, id, v, plane) < 0x2008
    ensures Loopy.Top(v) == 0 ==>
      PatternAddr(ctrl, id, v, plane) == (if ctrl & 0x10 != 0 then 0x1000 else 0) + (id as int) * 16 + plane + Loopy.FineY(v)
    ensures Loopy.Top(v) == 0 ==> PpuMemory.Decode(PatternAddr(ctrl, id, v, plane)).Pattern?
  {
    Loopy.FieldsOfAddress(v);
    var low := (Loopy.NametableY(v) * 2 + Loopy.NametableX(v)) * 0x400 + Loopy.CoarseY(v) * 32 + Loopy.CoarseX(v);
    Loopy.Split(v, 0x1000, Loopy.Top(v) * 8 + Loopy.FineY(v), low);
    if Loopy.Top(v) == 0 {
      PpuMemory.DecodePattern(PatternAddr(ctrl, id, v, plane));
    }
  }

  /** The fetch phase of a cycle in the fetch window. */
  function Phase(cycle: int): int
    requires cycle >= 1
  {
    (cycle - 1) % 8
  }

  /** The reads of this clock's fetch phase stay inside their memories. */
  predicate FetchDefined(r: Regs, bg: Background, m: PpuMemory.Mem) {
    InRenderBlock(r) && InFetchWindow(r.cycle) ==>
      match Phase(r.cycle)
      case 0 => PpuMemory.Defined(m, NameAddr(r.v))
      case 2 => PpuMemory.Defined(m, AttribAddr(r.v))
      case 4 => PpuMemory.Defined(m, PatternAddr(r.ctrl, bg.tileId, r.v, 0))
      case 6 => PpuMemory.Defined(m, PatternAddr(r.ctrl, bg.tileId, r.v, 8))
      case _ => true
  }

  /** Everything one clock reads is defined. */
  predicate TickDefined(r: Regs, bg: Background, m: PpuMemory.Mem) {
    PixelDefined(r, bg, m) && FetchDefined(r, bg, m)
  }

  /** The shifters move one bit when the background is shown. */
  function Shift(mask: bv8, bg: Background): Background {
    if ShowBackground(mask) then
      bg.(patternL := bg.patternL << 1, patternH := bg.patternH << 1,
          attribL := bg.attribL << 1, attribH := bg.attribH << 1)
    else bg
  }

  /** Phase 0 refills the low byte of each shifter from the fetched tile. */
  function Reload(bg: Background): Background {
    bg.(patternL := (bg.patternL & 0xFF00) | (bg.tileLsb as bv16),
        patternH := (bg.patternH & 0xFF00) | (bg.tileMsb as bv16),
        attribL := (bg.attribL & 0xFF00) | (((bg.tileAttrib as bv16) & 1) * 0xFF),
        attribH := (bg.attribH & 0xFF00) | (((bg.tileAttrib as bv16) >> 1) * 0xFF))
  }

  /** The reload puts the tile's pattern bytes in the low bytes, keeps the
      high bytes (the pixels still to be drawn), and fills the low byte of
      each attribute shifter with its attribute bit. */
  lemma ReloadFillsLowBytes(bg: Background)
    requires bg.tileAttrib < 4
    ensures var s := Reload(bg);
      && s.patternL & 0xFF == bg.tileLsb as bv16 && s.patternH & 0xFF == bg.tileMsb as bv16
      && s.patternL & 0xFF00 == bg.patternL & 0xFF00 && s.patternH & 0xFF00 == bg.patternH & 0xFF00
      && s.attribL & 0xFF == (if bg.tileAttrib & 1 != 0 then 0xFF else 0)
      && s.attribH & 0xFF == (if bg.tileAttrib & 2 != 0 then 0xFF else 0)
      && s.attribL & 0xFF00 == bg.attribL & 0xFF00 && s.attribH & 0xFF00 == bg.attribH & 0xFF00
  {
  }

  /** Shifting left by one moves bit `14 - f` of a shifter to bit `15 - f`. */
  lemma ShiftBit(x: bv16, f: bv8)
    requires f < 7
    ensures Selected(x << 1, f) == Selected(x, f + 1)
  {
    if f == 0 {
    } else if f == 1 {
    } else if f == 2 {
    } else if f == 3 {
    } else if f == 4 {
    } else if f == 5 {
    } else {
    }
  }

  /** Two pipelines whose selected shifter bits agree draw the same pixel. */
  lemma SameSelectionSamePixel(mask: bv8, a: Background, f: bv8, b: Background, g: bv8)
    requires f < 8 && g < 8
    requires Selected(a.patternH, f) == Selected(b.patternH, g)
    requires Selected(a.patternL, f) == Selected(b.patternL, g)
    requires Selected(a.attribH, f) == Selected(b.attribH, g)
    requires Selected(a.attribL, f) == Selected(b.attribL, g)
    ensures PixelIndex(mask, f, a) == PixelIndex(mask, g, b)
  {
  }

  /** A shift moves the next pixel under the fine X selector: after it, fine
      X `f` reads what fine X `f + 1` read before. A hidden background
      shifts nothing. */
  lemma ShiftMovesPixels(mask: bv8, bg: Background, f: bv8)
    requires f < 7
    ensures Shift(mask, bg).tileId == bg.tileId
    ensures ShowBackground(mask) ==> PixelIndex(mask, f, Shift(mask, bg)) == PixelIndex(mask, f + 1, bg)
    ensures !ShowBackground(mask) ==> Shift(mask, bg) == bg
  {
    if ShowBackground(mask) {
      ShiftedPipelineDraws(mask, Shift(mask, bg), bg, f);
    }
  }

  /** When every shifter of `s` is the one of `bg` shifted left by one,
      fine X `f` reads from `s` what fine X `f + 1` reads from `bg`. */
  lemma ShiftedPipelineDraws(mask: bv8, s: Background, bg: Background, f: bv8)
    requires f < 7
    requires s.patternH == bg.patternH << 1 && s.patternL == bg.patternL << 1
    requires s.attribH == bg.attribH << 1 && s.attribL == bg.attribL << 1
    ensures PixelIndex(mask, f, s) == PixelIndex(mask, f + 1, bg)
  {
    ShiftBits(bg.patternH, bg.patternL, bg.attribH, bg.attribL, f);
    SameSelectionSamePixel(mask, s, f, bg, f + 1);
  }

  /** `ShiftBit` for the four shifters at once. */
  lemma ShiftBits(a: bv16, b: bv16, c: bv16, d: bv16, f: bv8)
    requires f < 7
    ensures Selected(a << 1, f) == Selected(a, f + 1)
    ensures Selected(b << 1, f) == Selected(b, f + 1)
    ensures Selected(c << 1, f) == Selected(c, f + 1)
    ensures Selected(d << 1, f) == Selected(d, f + 1)
  {
    ShiftBit(a, f);
    ShiftBit(b, f);
    ShiftBit(c, f);
    ShiftBit(d, f);
  }

  /** The fetch of this cycle's phase on the shifted pipeline: the
      nametable fetches of phases 0-3, the pattern fetches of phases 4-6, or
      at phase 7 the horizontal increment. */
  function FetchPhase(r: Regs, b: Background, m: PpuMemory.Mem): (Regs, Background)
    requires InRenderBlock(r) && InFetchWindow(r.cycle) && FetchDefined(r, b, m)
  {
    if Phase(r.cycle) < 4 then (r, FetchTile(r, b, m))
    else if Phase(r.cycle) < 7 then (r, FetchPattern(r, b, m))
    else (StepX(r), b)
  }

  /** Phase 0: the tile number (after the reload); phase 2: its attribute
      bits; phases 1 and 3 fetch nothing. */
  function FetchTile(r: Regs, b: Background, m: PpuMemory.Mem): Background
    requires InRenderBlock(r) && InFetchWindow(r.cycle) && FetchDefined(r, b, m) && Phase(r.cycle) < 4
  {
    match Phase(r.cycle)
    case 0 => Reload(b).(tileId := PpuMemory.Read(m, NameAddr(r.v)))
    case 2 => b.(tileAttrib := AttribBits(PpuMemory.Read(m, AttribAddr(r.v)), r.v))
    case _ => b
  }

  /** Phase 4: the low pattern byte; phase 6: the high one; phase 5 fetches
      nothing. */
  function FetchPattern(r: Regs, b: Background, m: PpuMemory.Mem): Background
    requires InRenderBlock(r) && InFetchWindow(r.cycle) && FetchDefined(r, b, m) && 4 <= Phase(r.cycle) < 7
  {
    match Phase(r.cycle)
    case 4 => b.(tileLsb := PpuMemory.Read(m, PatternAddr(r.ctrl, b.tileId, r.v, 0)))
    case 6 => b.(tileMsb := PpuMemory.Read(m, PatternAddr(r.ctrl, b.tileId, r.v, 8)))
    case _ => b
  }

  /** Phase 7: the horizontal increment, when the background is shown. */
  function StepX(r: Regs): Regs {
    if ShowBackground(r.mask) then r.(v := Loopy.IncrementX(r.v)) else r
  }

  /** One step of the fetch window: shift, then the phase's fetch. */
  function Fetch(r: Regs, bg: Background, m: PpuMemory.Mem): (Regs, Background)
    requires InRenderBlock(r) && InFetchWindow(r.cycle) && FetchDefined(r, bg, m)
  {
    FetchPhase(r, Shift(r.mask, bg), m)
  }

  /** A step of the fetch window changes no register but the current
      address, and that one only at phase 7 with the background shown. */
  lemma FetchKeeps(r: Regs, bg: Background, m: PpuMemory.Mem)
    requires InRenderBlock(r) && InFetchWindow(r.cycle) && FetchDefined(r, bg, m)
    ensures var s := Fetch(r, bg, m).0;
      && s == r.(v := s.v)
      && (!(Phase(r.cycle) == 7 && ShowBackground(r.mask)) ==> s.v == r.v)
  {
  }

  /** The address updates after the fetch window: the vertical increment at
      cycle 256, the vertical copy during cycles 280-304 of the pre-render
      line, and the horizontal copy at cycle 257. */
  function ScrollUpdates(r: Regs): Regs {
    r.(v := ScrollAddr(r))
  }

  /** The current address after the scroll updates. */
  function ScrollAddr(r: Regs): Addr {
    var v1 := if r.cycle == 256 && ShowBackground(r.mask) then Loopy.IncrementY(r.v) else r.v;
    var v2 := if r.scanline == -1 && 280 <= r.cycle < 305 && Rendering(r.mask)
              then Loopy.TransferY(v1, r.t) else v1;
    if r.cycle == 257 && Rendering(r.mask) then Loopy.TransferX(v2, r.t) else v2
  }

  /** The scroll updates change only the current address, and leave it
      alone with background and sprites hidden. */
  lemma ScrollUpdatesKeep(r: Regs)
    ensures var s := ScrollUpdates(r);
      s == r.(v := s.v) && (!Rendering(r.mask) ==> s.v == r.v)
  {
    if !Rendering(r.mask) {
      assert ScrollUpdates(r) == r;
    }
  }

  /** Cycle 1 of the pre-render line clears the vertical-blank flag. */
  function ClearVBlank(r: Regs): Regs {
    if r.scanline == -1 && r.cycle == 1 then r.(status := r.status & 0x7F) else r
  }

  /** Clearing vertical blank touches bit 7 of the status only, at one dot. */
  lemma ClearVBlankStatus(r: Regs)
    ensures var s := ClearVBlank(r);
      && s == r.(status := s.status)
      && (r.scanline == -1 && r.cycle == 1 ==> s.status & 0x80 == 0 && s.status & 0x7F == r.status & 0x7F)
      && (!(r.scanline == -1 && r.cycle == 1) ==> s.status == r.status)
  {
    if r.scanline == -1 && r.cycle == 1 {
    } else {
    }
  }

  /** Clearing vertical blank keeps every read of the clock defined. */
  lemma ClearVBlankDefined(r: Regs, bg: Background, m: PpuMemory.Mem)
    requires TickDefined(r, bg, m)
    ensures TickDefined(ClearVBlank(r), bg, m)
    ensures ClearVBlank(r).scanline == r.scanline && ClearVBlank(r).cycle == r.cycle
    ensures ClearVBlank(r).mask == r.mask && ClearVBlank(r).fineX == r.fineX
  {
    ClearVBlankStatus(r);
  }

  /** The fetch window, then the scroll updates. */
  function FetchAndScroll(r: Regs, bg: Background, m: PpuMemory.Mem): (Regs, Background)
    requires InRenderBlock(r) && FetchDefined(r, bg, m)
  {
    var f := if InFetchWindow(r.cycle) then Fetch(r, bg, m) else (r, bg);
    (ScrollUpdates(f.0), f.1)
  }

  /** The rendering block of a clock (scanlines -1 to 239), apart from the
      pixel write: clear vertical blank at the pre-render line's cycle 1,
      run the fetch window, update the scroll address. */
  function RenderBlock(r: Regs, bg: Background, m: PpuMemory.Mem): (Regs, Background)
    requires InRenderBlock(r) && FetchDefined(r, bg, m)
  {
    FetchAndScroll(ClearVBlank(r), bg, m)
  }

  /** The rendering block changes the status only by `ClearVBlank`, the
      current address only while rendering is on, and nothing else. */
  lemma RenderBlockKeeps(r: Regs, bg: Background, m: PpuMemory.Mem)
    requires InRenderBlock(r) && FetchDefined(r, bg, m)
    ensures var s := RenderBlock(r, bg, m).0;
      && s == r.(status := ClearVBlank(r).status, v := s.v)
      && (!Rendering(r.mask) ==> s.v == r.v)
  {
    var c := ClearVBlank(r);
    ClearVBlankStatus(r);
    if InFetchWindow(c.cycle) {
      FetchKeeps(c, bg, m);
      ScrollUpdatesKeep(Fetch(c, bg, m).0);
    } else {
      ScrollUpdatesKeep(c);
    }
  }

  /** One PPU clock (the pixel it writes is `PixelValue`): the rendering
      block, the vertical-blank check, then the counters. */
  function Tick(r: Regs, bg: Background, m: PpuMemory.Mem): (Regs, Background)
    requires TickDefined(r, bg, m)
  {
    var b := if InRenderBlock(r) then RenderBlock(r, bg, m) else (r, bg);
    (EndOfDot(b.0), b.1)
  }

  /** The end of every clock: the vertical-blank check, then the counters. */
  function EndOfDot(r: Regs): Regs {
    var r2 := VBlank(r);
    var p := Advance(r2.scanline, r2.cycle);
    r2.(scanline := p.0, cycle := p.1)
  }

  /** The end of a clock moves the counters by `Advance` and otherwise does
      what `VBlank` does. */
  lemma EndOfDotKeeps(r: Regs)
    ensures var s := EndOfDot(r);
      && (s.scanline, s.cycle) == Advance(r.scanline, r.cycle)
      && s == VBlank(r).(scanline := s.scanline, cycle := s.cycle)
  {
  }

  /** A clock moves the counters by `Advance`, keeps the temporary address,
      the latch, the buffer and fine X, and touches nothing on the lines
      after the visible ones but the vertical-blank flag. */
  lemma TickCounters(r: Regs, bg: Background, m: PpuMemory.Mem)
    requires TickDefined(r, bg, m)
    ensures var s := Tick(r, bg, m).0;
      && (s.scanline, s.cycle) == Advance(r.scanline, r.cycle)
      && s == r.(status := s.status, nmi := s.nmi, v := s.v, scanline := s.scanline, cycle := s.cycle)
      && (InFrame(r.scanline, r.cycle) ==> InFrame(s.scanline, s.cycle))
      && (!InRenderBlock(r) ==> s.v == r.v && Tick(r, bg, m).1 == bg)
  {
    var b := if InRenderBlock(r) then RenderBlock(r, bg, m) else (r, bg);
    if InRenderBlock(r) {
      RenderBlockKeeps(r, bg, m);
    }
    EndOfDotKeeps(b.0);
  }

  /** The vertical-blank flag: set at scanline 241 cycle 1 (with an NMI when
      PPUCTRL bit 7 is set), cleared at cycle 1 of the pre-render line, left
      alone at every other dot. */
  lemma TickVBlank(r: Regs, bg: Background, m: PpuMemory.Mem)
    requires TickDefined(r, bg, m)
    ensures var s := Tick(r, bg, m).0;
      && (r.scanline == 241 && r.cycle == 1 ==> s.status & 0x80 != 0 && (s.nmi <==> r.nmi || r.ctrl & 0x80 != 0))
      && (r.scanline == -1 && r.cycle == 1 ==> s.status & 0x80 == 0 && s.nmi == r.nmi)
      && (!(r.scanline == 241 && r.cycle == 1) && !(r.scanline == -1 && r.cycle == 1) ==> s.status == r.status && s.nmi == r.nmi)
  {
    if InRenderBlock(r) {
      RenderBlockKeeps(r, bg, m);
      ClearVBlankStatus(r);
      var b := RenderBlock(r, bg, m).0;
      assert b.scanline == r.scanline && b.cycle == r.cycle && b.ctrl == r.ctrl && b.nmi == r.nmi;
      assert b.status == ClearVBlank(r).status;
      EndOfDotKeeps(b);
    } else {
      EndOfDotKeeps(r);
    }
  }

  /** Phase 7 of the fetch window, with the background shown, is the
      horizontal increment of the current address. */
  lemma FetchStepsX(r: Regs, bg: Background, m: PpuMemory.Mem)
    requires InRenderBlock(r) && InFetchWindow(r.cycle) && FetchDefined(r, bg, m)
    requires Phase(r.cycle) == 7 && ShowBackground(r.mask)
    ensures Fetch(r, bg, m).0.v == Loopy.IncrementX(r.v)
  {
  }

  /** Cycle 256 of a line with the background shown: the horizontal increment
      of fetch phase 7, then the vertical increment. */
  lemma TickScrollAt256(r: Regs, bg: Background, m: PpuMemory.Mem)
    requires TickDefined(r, bg, m) && InRenderBlock(r) && r.cycle == 256 && ShowBackground(r.mask)
    ensures Tick(r, bg, m).0.v == Loopy.IncrementY(Loopy.IncrementX(r.v))
  {
    assert Phase(256) == 7;
    assert ClearVBlank(r) == r;
    FetchStepsX(r, bg, m);
    FetchKeeps(r, bg, m);
    var f := Fetch(r, bg, m);
    assert ScrollUpdates(f.0).v == Loopy.IncrementY(f.0.v);
    EndOfDotKeeps(RenderBlock(r, bg, m).0);
  }

  /** Cycle 257 with rendering on: the horizontal copy from the temporary address. */
  lemma TickScrollAt257(r: Regs, bg: Background, m: PpuMemory.Mem)
    requires TickDefined(r, bg, m) && InRenderBlock(r) && r.cycle == 257 && Rendering(r.mask)
    ensures Tick(r, bg, m).0.v == Loopy.TransferX(r.v, r.t)
  {
    assert Phase(257) == 0;
    assert ClearVBlank(r) == r;
    FetchKeeps(r, bg, m);
    var f := Fetch(r, bg, m);
    assert f.0 == r;
    EndOfDotKeeps(RenderBlock(r, bg, m).0);
  }

  /** Cycles 280-304 of the pre-render line with rendering on: the vertical
      copy from the temporary address. */
  lemma TickScrollPreRender(r: Regs, bg: Background, m: PpuMemory.Mem)
    requires TickDefined(r, bg, m) && r.scanline == -1 && 280 <= r.cycle < 305 && Rendering(r.mask)
    ensures Tick(r, bg, m).0.v == Loopy.TransferY(r.v, r.t)
  {
    assert ClearVBlank(r) == r;
    EndOfDotKeeps(RenderBlock(r, bg, m).0);
  }

  /** With background and sprites hidden the current address never moves. */
  lemma TickScrollOff(r: Regs, bg: Background, m: PpuMemory.Mem)
    requires TickDefined(r, bg, m) && !Rendering(r.mask)
    ensures Tick(r, bg, m).0.v == r.v
  {
    if InRenderBlock(r) {
      RenderBlockKeeps(r, bg, m);
      EndOfDotKeeps(RenderBlock(r, bg, m).0);
    } else {
      EndOfDotKeeps(r);
    }
  }
}
