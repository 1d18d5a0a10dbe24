/** The PPU object: its VRAM, palette and frame buffer, the connected
    cartridge, its registers and background pipeline, and the operations
    `ppuRead`, `ppuWrite`, the CPU-facing `Read`/`Write` and `Clock`. The
    registers PPUCTRL ... cycle are the fields of the record `regs`, the
    pipeline's next-tile bytes and shifters the fields of the record `bg`;
    the methods update them field by field as the source does, and every
    state change is stated as the matching function of `PpuState` or
    `PpuMemory`. */
module Ppu {
  import opened Word
  import PpuMemory
  import PpuState
  import Loopy
  import Cartridge
  import PatternView

  class PPU {
    var cart: Cartridge.Cartridge?
    const vram: array<bv8>
    const palette: array<bv8>
    const pixels: array<bv8>

    /** PPUCTRL, PPUMASK, PPUSTATUS, OAMADDR, OAMDATA, OAMDMA, NMI,
        vramAddr, vramTmpAddr, dataBuffer, addrLatch, fineX, scanline, cycle. */
    var regs: PpuState.Regs
    /** bgNextTileID, bgNextTileAttrib, bgNextTileLSB, bgNextTileMSB and the
        four background shifters. */
    var bg: PpuState.Background

    /** The fixed-size memories (2 KB of VRAM, 32 palette bytes, a 256x240
        frame) are the PPU's own, apart from each other and from the
        cartridge's CHR memory; the counters stay in the frame and fine X in
        0..7. */
    ghost predicate Valid()
      reads this`cart, this`regs
    {
      vram.Length == 2048 && palette.Length == 32 && pixels.Length == 256 * 240
        && vram != palette && vram != pixels && palette != pixels
        && (cart != null ==> cart.CHRROM !in {vram, palette, pixels})
        && PpuState.InFrame(regs.scanline, regs.cycle) && regs.fineX < 8
    }

    /** The memories `ppuRead` and `ppuWrite` reach; with no cartridge the
        pattern space is empty (the source dereferences a nil cartridge). */
    function Mem(): PpuMemory.Mem
      reads this`cart, vram, palette, if cart != null then {cart.CHRROM} else {}
    {
      PpuMemory.Mem(if cart != null then cart.CHRROM[..] else [], vram[..], palette[..])
    }

    /** `New`: every register and memory zero, no cartridge. */
    constructor ()
      ensures Valid() && cart == null
      ensures regs == PpuState.Regs(0, 0, 0, 0, 0, 0, false, 0, 0, 0, false, 0, 0, 0)
      ensures bg == PpuState.Background(0, 0, 0, 0, 0, 0, 0, 0)
      ensures fresh(vram) && fresh(palette) && fresh(pixels)
      ensures vram[..] == seq(2048, _ => 0) && palette[..] == seq(32, _ => 0)
      ensures pixels[..] == seq(256 * 240, _ => 0)
    {
      cart := null;
      vram := new bv8[2048](_ => 0);
      palette := new bv8[32](_ => 0);
      pixels := new bv8[256 * 240](_ => 0);
      regs := PpuState.Regs(0, 0, 0, 0, 0, 0, false, 0, 0, 0, false, 0, 0, 0);
      bg := PpuState.Background(0, 0, 0, 0, 0, 0, 0, 0);
    }

    /** `ConnectCartridge`. The PPU's memories are arrays inside the PPU
        object in the source, so they are never the cartridge's. */
    method ConnectCartridge(c: Cartridge.Cartridge)
      requires Valid() && c.CHRROM !in {vram, palette, pixels}
      modifies this`cart
      ensures cart == c && Valid()
    {
      cart := c;
    }

    /** `ppuWrite`. */
    method PpuWrite(addr: Addr, data: bv8)
      requires Valid() && PpuMemory.Defined(Mem(), addr)
      modifies vram, palette
      ensures Mem() == PpuMemory.Write(old(Mem()), addr, data)
    {
      var a := addr % 0x4000;
      if a <= 0x1FFF {
      } else if a <= 0x3EFF {
        vram[a % 0x1000] := data;
      } else {
        var i := a % 0x20;
        if i == 0x10 { i := 0x00; }
        if i == 0x14 { i := 0x04; }
        if i == 0x18 { i := 0x08; }
        if i == 0x1C { i := 0x0C; }
        palette[i] := data;
      }
    }

    /** `ppuRead`: pattern space straight from the cartridge's CHR memory (not
        through the mapper), nametables from VRAM, the palette with its
        mirrors. */
    method PpuRead(addr: Addr) returns (data: bv8)
      requires Valid() && PpuMemory.Defined(Mem(), addr)
      ensures data == PpuMemory.Read(Mem(), addr)
    {
      var a := addr % 0x4000;
      if a <= 0x1FFF {
        data := cart.CHRROM[a];
      } else if a <= 0x3EFF {
        data := vram[a % 0x1000];
      } else {
        var i := a % 0x20;
        if i == 0x10 { i := 0x00; }
        if i == 0x14 { i := 0x04; }
        if i == 0x18 { i := 0x08; }
        if i == 0x1C { i := 0x0C; }
        data := palette[i];
      }
    }

    // -------------------------------------------------------------------------
    // The debugger's reads

    /** `PPUDebugRead` of `addr` indexes inside its memory: a pattern-space
        read needs a readable mapper (none is needed without a cartridge),
        a nametable read a mirrored index inside the VRAM. */
    ghost predicate DebugReadable(addr: Addr, mirror: Addr -> Addr)
      reads this, if cart != null then cart.PatternFootprint() else {}
    {
      match PpuMemory.DebugDecode(addr, mirror)
      case Pattern(a) => cart != null ==> cart.Valid() && cart.PatternReadable(a)
      case Nametable(i) => i < vram.Length
      case Palette(i) => i < palette.Length
    }

    /** The byte `PPUDebugRead` returns: the mapper's CHR byte (0 without a
        cartridge), the mirrored VRAM byte, or the palette entry. */
    ghost function DebugByte(addr: Addr, mirror: Addr -> Addr): bv8
      reads this, vram, palette, if cart != null then cart.PatternFootprint() else {}
      requires DebugReadable(addr, mirror)
    {
      match PpuMemory.DebugDecode(addr, mirror)
      case Pattern(a) => if cart == null then 0 else cart.PatternByte(a)
      case Nametable(i) => vram[i]
      case Palette(i) => palette[i]
    }

    /** `PPUDebugRead`: pattern space through the mapper, with MMC3's
        side-effect-free read instead of `PPUMapRead`; nametables through
        `mirror`; the palette with its mirrors, as `ppuRead`. Nothing changes. */
    method DebugRead(addr: Addr, mirror: Addr -> Addr) returns (data: bv8)
      requires Valid() && DebugReadable(addr, mirror)
      ensures data == DebugByte(addr, mirror)
      ensures forall a: Addr | old(DebugReadable(a, mirror)) ::
        DebugReadable(a, mirror) && DebugByte(a, mirror) == old(DebugByte(a, mirror))
    {
      data := 0;
      var ok: bool;
      var a := addr % 0x4000;
      if a <= 0x1FFF {
        if cart != null {
          match cart.Mapper {
            case NoMapper =>
              assert false;
            case NromMapper(n) =>
              data, ok := n.PPUMapRead(a);
            case UxromMapper(u) =>
              data, ok := u.PPUMapRead(a);
            case CnromMapper(c) =>
              data, ok := c.PPUMapRead(a);
            case Mmc1Mapper(m) =>
              data, ok := m.PPUMapRead(a);
            case Mmc3Mapper(m) =>
              data, ok := m.PPUDebugRead(a);
          }
        }
      } else if a <= 0x3EFF {
        a := a % 0x1000;
        data := vram[mirror(a)];
      } else {
        a := a % 0x20;
        if a == 0x10 { a := 0x00; }
        if a == 0x14 { a := 0x04; }
        if a == 0x18 { a := 0x08; }
        if a == 0x1C { a := 0x0C; }
        data := palette[a];
      }
    }

    /** The reads `GetPatternTable` makes index inside their memories: the
        4 KB of table `i` and the four entries of palette `paletteIdx`. */
    ghost predicate PatternTableReadable(i: int, paletteIdx: bv8, mirror: Addr -> Addr)
      reads this, if cart != null then cart.PatternFootprint() else {}
    {
      (forall k | 0 <= k < 0x1000 :: DebugReadable(PatternView.TableAddr(i, k), mirror))
        && forall p: bv8 | p < 4 :: DebugReadable(PatternView.EntryAddr(paletteIdx, p), mirror)
    }

    /** The 4 KB the debugger reads as pattern table `i`. */
    ghost function TableBytes(i: int, mirror: Addr -> Addr): (t: seq<bv8>)
      reads this, vram, palette, if cart != null then cart.PatternFootprint() else {}
      requires forall k | 0 <= k < 0x1000 :: DebugReadable(PatternView.TableAddr(i, k), mirror)
      ensures |t| == 0x1000
      ensures forall k | 0 <= k < 0x1000 :: t[k] == DebugByte(PatternView.TableAddr(i, k), mirror)
    {
      seq(0x1000, k requires 0 <= k < 0x1000 && DebugReadable(PatternView.TableAddr(i, k), mirror)
                    reads this, vram, palette, if cart != null then cart.PatternFootprint() else {} =>
        DebugByte(PatternView.TableAddr(i, k), mirror))
    }

    /** The four palette entries the debugger reads for palette `paletteIdx`. */
    ghost function EntryBytes(paletteIdx: bv8, mirror: Addr -> Addr): (e: seq<bv8>)
      reads this, vram, palette, if cart != null then cart.PatternFootprint() else {}
      requires forall p: bv8 | p < 4 :: DebugReadable(PatternView.EntryAddr(paletteIdx, p), mirror)
      ensures |e| == 4
      ensures forall p: bv8 | p < 4 :: e[p] == DebugByte(PatternView.EntryAddr(paletteIdx, p), mirror)
    {
      [DebugByte(PatternView.EntryAddr(paletteIdx, 0), mirror), DebugByte(PatternView.EntryAddr(paletteIdx, 1), mirror),
       DebugByte(PatternView.EntryAddr(paletteIdx, 2), mirror), DebugByte(PatternView.EntryAddr(paletteIdx, 3), mirror)]
    }

    /** The debugger reads `table` as pattern table `i`. */
    ghost predicate ShowsTable(i: int, mirror: Addr -> Addr, table: seq<bv8>)
      reads this, vram, palette, if cart != null then cart.PatternFootprint() else {}
    {
      |table| == 0x1000
        && forall k | 0 <= k < 0x1000 ::
          DebugReadable(PatternView.TableAddr(i, k), mirror) && DebugByte(PatternView.TableAddr(i, k), mirror) == table[k]
    }

    /** The debugger reads `entries` as the four entries of palette `paletteIdx`. */
    ghost predicate ShowsEntries(paletteIdx: bv8, mirror: Addr -> Addr, entries: seq<bv8>)
      reads this, vram, palette, if cart != null then cart.PatternFootprint() else {}
    {
      |entries| == 4
        && forall p: bv8 | p < 4 ::
          DebugReadable(PatternView.EntryAddr(paletteIdx, p), mirror)
            && DebugByte(PatternView.EntryAddr(paletteIdx, p), mirror) == entries[p]
    }

    /** `GetPatternTable`: pattern table `i` drawn as a 128x128 RGBA image in
        palette `paletteIdx`, with the system colours `colour`. Every pixel
        is the colour `PatternView.Pixel` gives it for the bytes the
        debugger reads; nothing but the first 65536 bytes of `dest` changes. */
    method GetPatternTable(i: int, paletteIdx: bv8, dest: array<bv8>, mirror: Addr -> Addr,
                           colour: bv8 -> PatternView.Rgba)
      requires Valid() && PatternTableReadable(i, paletteIdx, mirror)
      requires dest.Length >= 65536 && dest != vram && dest != palette
      requires cart != null ==> dest !in cart.PatternFootprint()
      modifies dest
      ensures forall x: nat, y: nat | x < 128 && y < 128 ::
        PatternView.RgbaAt(dest[..], x, y)
          == PatternView.Pixel(old(TableBytes(i, mirror)), old(EntryBytes(paletteIdx, mirror)), colour, x, y)
      ensures forall k | 65536 <= k < dest.Length :: dest[k] == old(dest[k])
    {
      ghost var table := TableBytes(i, mirror);
      ghost var entries := EntryBytes(paletteIdx, mirror);
      assert ShowsTable(i, mirror, table) && ShowsEntries(paletteIdx, mirror, entries);
      var tileY := 0;
      while tileY < 16
        invariant 0 <= tileY <= 16
        invariant ShowsTable(i, mirror, table) && ShowsEntries(paletteIdx, mirror, entries)
        invariant PatternView.Drawn(dest[..], table, entries, colour, tileY, 0, 0, 0)
        invariant forall k | 65536 <= k < dest.Length :: dest[k] == old(dest[k])
      {
        var tileX := 0;
        while tileX < 16
          invariant 0 <= tileX <= 16
          invariant ShowsTable(i, mirror, table) && ShowsEntries(paletteIdx, mirror, entries)
          invariant PatternView.Drawn(dest[..], table, entries, colour, tileY, tileX, 0, 0)
          invariant forall k | 65536 <= k < dest.Length :: dest[k] == old(dest[k])
        {
          var row := 0;
          while row < 8
            invariant 0 <= row <= 8
            invariant ShowsTable(i, mirror, table) && ShowsEntries(paletteIdx, mirror, entries)
            invariant PatternView.Drawn(dest[..], table, entries, colour, tileY, tileX, row, 0)
            invariant forall k | 65536 <= k < dest.Length :: dest[k] == old(dest[k])
          {
            DrawTileRow(i, paletteIdx, dest, mirror, colour, tileY, tileX, row, table, entries);
            PatternView.DrawnCarry(dest[..], table, entries, colour, tileY, tileX, row);
            row := row + 1;
          }
          PatternView.DrawnCarry(dest[..], table, entries, colour, tileY, tileX, row);
          tileX := tileX + 1;
        }
        PatternView.DrawnCarry(dest[..], table, entries, colour, tileY, tileX, 0);
        tileY := tileY + 1;
      }
      PatternView.DrawnCarry(dest[..], table, entries, colour, tileY, 0, 0);
    }

    /** The body of `GetPatternTable` for one row of one tile: its two plane
        bytes, then its eight pixels from the rightmost to the leftmost. */
    method DrawTileRow(i: int, paletteIdx: bv8, dest: array<bv8>, mirror: Addr -> Addr,
                       colour: bv8 -> PatternView.Rgba, tileY: nat, tileX: nat, row: nat,
                       ghost table: seq<bv8>, ghost entries: seq<bv8>)
      requires Valid() && dest.Length >= 65536 && dest != vram && dest != palette
      requires cart != null ==> dest !in cart.PatternFootprint()
      requires tileY < 16 && tileX < 16 && row < 8
      requires ShowsTable(i, mirror, table) && ShowsEntries(paletteIdx, mirror, entries)
      requires PatternView.Drawn(dest[..], table, entries, colour, tileY, tileX, row, 0)
      modifies dest
      ensures ShowsTable(i, mirror, table) && ShowsEntries(paletteIdx, mirror, entries)
      ensures PatternView.Drawn(dest[..], table, entries, colour, tileY, tileX, row, 8)
      ensures forall k | 65536 <= k < dest.Length :: dest[k] == old(dest[k])
    {
      var offset := tileY * 256 + tileX * 16;
      PatternView.PixelOfStep(table, entries, colour, tileY, tileX, row, 0);
      var lsb, msb := ReadPlanes(i, offset + row, paletteIdx, mirror, table, entries);
      ghost var lsb0, msb0 := lsb, msb;
      var col := 0;
      while col < 8
        invariant 0 <= col <= 8
        invariant lsb == PatternView.Plane(lsb0, col) && msb == PatternView.Plane(msb0, col)
        invariant ShowsTable(i, mirror, table) && ShowsEntries(paletteIdx, mirror, entries)
        invariant PatternView.Drawn(dest[..], table, entries, colour, tileY, tileX, row, col)
        invariant forall k | 65536 <= k < dest.Length :: dest[k] == old(dest[k])
      {
        lsb, msb := DrawColumn(i, paletteIdx, dest, mirror, colour, tileY, tileX, row, col, lsb, msb,
                               lsb0, msb0, table, entries);
        col := col + 1;
      }
    }

    /** The two plane bytes of the tile row at byte `k` of pattern table `i`,
        read through the debugger. */
    method ReadPlanes(i: int, k: nat, paletteIdx: bv8, mirror: Addr -> Addr,
                      ghost table: seq<bv8>, ghost entries: seq<bv8>)
      returns (lsb: bv8, msb: bv8)
      requires Valid() && k + 8 < 0x1000
      requires ShowsTable(i, mirror, table) && ShowsEntries(paletteIdx, mirror, entries)
      ensures lsb == table[k] && msb == table[k + 8]
      ensures ShowsTable(i, mirror, table) && ShowsEntries(paletteIdx, mirror, entries)
    {
      lsb := DebugRead(PatternView.TableAddr(i, k), mirror);
      msb := DebugRead(PatternView.TableAddr(i, k + 8), mirror);
    }

    /** One column of `DrawTileRow`: the value of pixel `7 - col` from the
        low bits of the two shifted plane bytes, that pixel drawn, and the
        plane bytes shifted one column further. */
    method DrawColumn(i: int, paletteIdx: bv8, dest: array<bv8>, mirror: Addr -> Addr,
                      colour: bv8 -> PatternView.Rgba, tileY: nat, tileX: nat, row: nat, col: nat,
                      lsb: bv8, msb: bv8, ghost lsb0: bv8, ghost msb0: bv8,
                      ghost table: seq<bv8>, ghost entries: seq<bv8>)
      returns (lsb': bv8, msb': bv8)
      requires Valid() && dest.Length >= 65536 && dest != vram && dest != palette
      requires cart != null ==> dest !in cart.PatternFootprint()
      requires tileY < 16 && tileX < 16 && row < 8 && col < 8
      requires ShowsTable(i, mirror, table) && ShowsEntries(paletteIdx, mirror, entries)
      requires var k := tileY * 256 + tileX * 16 + row;
        k + 8 < |table| && lsb0 == table[k] && msb0 == table[k + 8]
      requires lsb == PatternView.Plane(lsb0, col) && msb == PatternView.Plane(msb0, col)
      requires PatternView.Drawn(dest[..], table, entries, colour, tileY, tileX, row, col)
      modifies dest
      ensures lsb' == PatternView.Plane(lsb0, col + 1) && msb' == PatternView.Plane(msb0, col + 1)
      ensures ShowsTable(i, mirror, table) && ShowsEntries(paletteIdx, mirror, entries)
      ensures PatternView.Drawn(dest[..], table, entries, colour, tileY, tileX, row, col + 1)
      ensures forall k | 65536 <= k < dest.Length :: dest[k] == old(dest[k])
    {
      PatternView.ShiftPlanes(lsb0, msb0, col);
      var pixel := (lsb & 0x01) | ((msb & 0x01) << 1);
      lsb' := lsb >> 1;
      msb' := msb >> 1;
      DrawPixel(i, paletteIdx, dest, mirror, colour, tileY, tileX, row, col, pixel, table, entries);
    }

    /** The pixel of `DrawColumn` with value `pixel`: its palette entry read
        through the debugger, and its four bytes in `dest`. */
    method DrawPixel(i: int, paletteIdx: bv8, dest: array<bv8>, mirror: Addr -> Addr,
                     colour: bv8 -> PatternView.Rgba, tileY: nat, tileX: nat, row: nat, col: nat, pixel: bv8,
                     ghost table: seq<bv8>, ghost entries: seq<bv8>)
      requires Valid() && dest.Length >= 65536 && dest != vram && dest != palette
      requires cart != null ==> dest !in cart.PatternFootprint()
      requires tileY < 16 && tileX < 16 && row < 8 && col < 8
      requires ShowsTable(i, mirror, table) && ShowsEntries(paletteIdx, mirror, entries)
      requires var k := tileY * 256 + tileX * 16 + row;
        k + 8 < |table| && pixel == PatternView.TilePixel(table[k], table[k + 8], 7 - col)
      requires PatternView.Drawn(dest[..], table, entries, colour, tileY, tileX, row, col)
      modifies dest
      ensures ShowsTable(i, mirror, table) && ShowsEntries(paletteIdx, mirror, entries)
      ensures PatternView.Drawn(dest[..], table, entries, colour, tileY, tileX, row, col + 1)
      ensures forall k | 65536 <= k < dest.Length :: dest[k] == old(dest[k])
    {
      var x := tileX * 8 + (7 - col);
      var y := tileY * 8 + row;
      var colorIndex := DebugRead(PatternView.EntryAddr(paletteIdx, pixel), mirror);
      assert colorIndex == entries[pixel];
      var c := if pixel == 0 then PatternView.Rgba(0, 0, 0, 255) else colour(colorIndex);
      assert c.(a := 255) == PatternView.Shade(pixel, entries[pixel], colour);
      ghost var d0 := dest[..];
      PatternView.PixelOfStep(table, entries, colour, tileY, tileX, row, col);
      Plot(dest, x, y, c.(a := 255), mirror);
      PatternView.DrawnAfterPut(d0, dest[..], table, entries, colour, tileY, tileX, row, col);
    }

    /** `PatternView.PutPixel` into a buffer apart from everything the
        debugger reads, which therefore stays as it was. */
    method Plot(dest: array<bv8>, x: nat, y: nat, c: PatternView.Rgba, mirror: Addr -> Addr)
      requires Valid() && dest.Length >= 65536 && x < 128 && y < 128 && dest != vram && dest != palette
      requires cart != null ==> dest !in cart.PatternFootprint()
      modifies dest
      ensures PatternView.RgbaAt(dest[..], x, y) == c
      ensures forall x', y' | 0 <= x' < 128 && 0 <= y' < 128 && (x' != x || y' != y) ::
        PatternView.RgbaAt(dest[..], x', y') == PatternView.RgbaAt(old(dest[..]), x', y')
      ensures forall k | 65536 <= k < dest.Length :: dest[k] == old(dest[k])
      ensures forall a: Addr | old(DebugReadable(a, mirror)) ::
        DebugReadable(a, mirror) && DebugByte(a, mirror) == old(DebugByte(a, mirror))
    {
      PatternView.PutPixel(dest, x, y, c);
    }

    /** `Read` of a PPU register: $2002 and $2007 as `PpuState` states them,
        0 and no effect for the others. */
    method Read(addr: Addr) returns (data: bv8)
      requires Valid() && (addr == 7 ==> PpuMemory.Defined(Mem(), regs.v))
      modifies this`regs
      ensures addr == 2 ==> (regs, data) == PpuState.ReadStatus(old(regs))
      ensures addr == 7 ==> (regs, data) == PpuState.ReadData(old(regs), old(Mem()))
      ensures addr != 2 && addr != 7 ==> regs == old(regs) && data == 0
      ensures Valid()
    {
      if addr == 2 {
        var status := regs.status;
        regs := regs.(status := status & 0x7F, latch := false);
        data := status;
      } else if addr == 7 {
        data := regs.buffer;
        var buffer := PpuRead(regs.v);
        if regs.v >= 0x3F00 {
          data := buffer;
        }
        regs := regs.(buffer := buffer, v := (regs.v + 1) % 0x10000);
      } else {
        data := 0;
      }
    }

    /** `Write` of a PPU register, with the second $2005 write keeping the
        coarse X and nametable select of the first. */
    method Write(addr: Addr, data: bv8)
      requires Valid() && (addr == 7 ==> PpuMemory.Defined(Mem(), regs.v))
      modifies this`regs, vram, palette
      ensures addr != 7 ==> regs == PpuState.WriteRegister(old(regs), addr, data) && Mem() == old(Mem())
      ensures addr == 7 ==> regs == PpuState.WriteData(old(regs), old(Mem()), data).0
      ensures addr == 7 ==> Mem() == PpuState.WriteData(old(regs), old(Mem()), data).1
      ensures Valid()
    {
      if addr == 5 {
        WriteScroll(data);
      } else if addr == 6 {
        WriteAddress(data);
      } else if addr == 7 {
        WriteData(data);
      } else {
        var r := regs;
        if addr == 0 {
          r := r.(ctrl := data);
        } else if addr == 1 {
          r := r.(mask := data);
        } else if addr == 3 {
          r := r.(oamAddr := data);
        } else if addr == 4 {
          r := r.(oamData := data);
        } else if addr == 0x4014 {
          r := r.(oamDma := data);
        }
        regs := r;
      }
    }

    /** A write to $2007. */
    method WriteData(data: bv8)
      requires Valid() && PpuMemory.Defined(Mem(), regs.v)
      modifies this`regs, vram, palette
      ensures regs == PpuState.WriteData(old(regs), old(Mem()), data).0
      ensures Mem() == PpuState.WriteData(old(regs), old(Mem()), data).1
      ensures Valid()
    {
      PpuWrite(regs.v, data);
      if regs.ctrl & 0x04 == 0 {
        regs := regs.(v := (regs.v + 1) % 0x10000);
      } else {
        regs := regs.(v := (regs.v + 32) % 0x10000);
      }
    }

    /** A write to $2005. */
    method WriteScroll(data: bv8)
      requires Valid()
      modifies this`regs
      ensures regs == PpuState.WriteScroll(old(regs), data)
      ensures Valid()
    {
      if regs.latch {
        regs := regs.(t := Loopy.ScrollSecond(regs.t, data), latch := false);
      } else {
        regs := regs.(fineX := data & 0x07, t := Loopy.ScrollFirst(regs.t, data), latch := true);
      }
    }

    /** A write to $2006. */
    method WriteAddress(data: bv8)
      requires Valid()
      modifies this`regs
      ensures regs == PpuState.WriteAddress(old(regs), data)
      ensures Valid()
    {
      if regs.latch {
        var t := Loopy.AddrLow(regs.t, data);
        regs := regs.(t := t, v := t, latch := false);
      } else {
        regs := regs.(t := Loopy.AddrHigh(regs.t, data), latch := true);
      }
    }

    // -------------------------------------------------------------------------
    // Clock

    /** One PPU clock: `PpuState.Tick` for the registers and shifters, and at
        a visible dot the pixel `PpuState.PixelValue` at its offset; the
        memories are left alone. */
    method Clock()
      requires Valid() && PpuState.TickDefined(regs, bg, Mem())
      modifies this`regs, this`bg, pixels
      ensures (regs, bg) == PpuState.Tick(old(regs), old(bg), old(Mem()))
      ensures pixels[..] == if PpuState.DrawsPixel(old(regs.scanline), old(regs.cycle))
        then old(pixels[..])[PpuState.PixelOffset(old(regs.scanline), old(regs.cycle)) :=
               PpuState.PixelValue(old(regs.mask), old(regs.fineX), old(bg), old(Mem()))]
        else old(pixels[..])
      ensures Mem() == old(Mem()) && Valid()
    {
      if -1 <= regs.scanline < 240 {
        RenderBlock();
      }
      EndOfDotStep();
    }

    /** The vertical-blank check and the counters that end every clock. */
    method EndOfDotStep()
      requires Valid()
      modifies this`regs
      ensures regs == PpuState.EndOfDot(old(regs)) && Valid()
    {
      var r := VBlankCheck(regs);
      var scanline, cycle := Counters(r.scanline, r.cycle);
      PpuState.EndOfDotKeeps(regs);
      regs := r.(scanline := scanline, cycle := cycle);
    }

    /** At scanline 241, cycle 1: set the vertical-blank flag and raise an
        NMI when PPUCTRL bit 7 asks for one. */
    static method VBlankCheck(r: PpuState.Regs) returns (s: PpuState.Regs)
      ensures s == PpuState.VBlank(r)
    {
      s := r;
      if s.scanline == 241 && s.cycle == 1 {
        var nmi := s.nmi;
        if s.ctrl & 0x80 != 0 {
          nmi := true;
        }
        s := s.(status := s.status | 0x80, nmi := nmi);
      }
    }

    /** The next dot: cycles 0-340 on scanlines -1 to 260. */
    static method Counters(scanline0: int, cycle0: int) returns (scanline: int, cycle: int)
      ensures (scanline, cycle) == PpuState.Advance(scanline0, cycle0)
    {
      scanline, cycle := scanline0, cycle0 + 1;
      if cycle >= 341 {
        cycle := 0;
        scanline := scanline + 1;
        if scanline >= 261 {
          scanline := -1;
        }
      }
    }

    /** The part of `Clock` for scanlines -1 to 239. */
    method RenderBlock()
      requires Valid() && PpuState.InRenderBlock(regs) && PpuState.TickDefined(regs, bg, Mem())
      modifies this`regs, this`bg, pixels
      ensures (regs, bg) == PpuState.RenderBlock(old(regs), old(bg), old(Mem()))
      ensures pixels[..] == if PpuState.DrawsPixel(old(regs.scanline), old(regs.cycle))
        then old(pixels[..])[PpuState.PixelOffset(old(regs.scanline), old(regs.cycle)) :=
               PpuState.PixelValue(old(regs.mask), old(regs.fineX), old(bg), old(Mem()))]
        else old(pixels[..])
      ensures Mem() == old(Mem()) && Valid()
    {
      PpuState.ClearVBlankDefined(regs, bg, Mem());
      ClearVBlankStep();
      if regs.scanline >= 0 && regs.cycle < 256 {
        RenderPixel();
      }
      FetchAndScrollStep();
    }

    /** Cycle 1 of the pre-render line clears the vertical-blank flag. */
    method ClearVBlankStep()
      requires Valid()
      modifies this`regs
      ensures regs == PpuState.ClearVBlank(old(regs)) && Valid()
    {
      if regs.scanline == -1 && regs.cycle == 1 {
        regs := regs.(status := regs.status & 0x7F);
      }
    }

    /** The fetch window, then the scroll updates. */
    method FetchAndScrollStep()
      requires Valid() && PpuState.InRenderBlock(regs) && PpuState.FetchDefined(regs, bg, Mem())
      modifies this`regs, this`bg
      ensures (regs, bg) == PpuState.FetchAndScroll(old(regs), old(bg), old(Mem()))
      ensures Valid()
    {
      if (2 <= regs.cycle < 258) || (322 <= regs.cycle < 338) {
        FetchStep();
      }
      ScrollStep();
    }

    /** The background pixel of this dot into the frame buffer. */
    method RenderPixel()
      requires Valid() && PpuState.DrawsPixel(regs.scanline, regs.cycle) && PpuState.PixelDefined(regs, bg, Mem())
      modifies pixels
      ensures pixels[..] == old(pixels[..])[PpuState.PixelOffset(regs.scanline, regs.cycle) :=
                              PpuState.PixelValue(regs.mask, regs.fineX, bg, Mem())]
    {
      var colour := PixelColour();
      pixels[regs.scanline * 256 + regs.cycle] := colour;
    }

    /** The colour byte of this dot: the palette entry read through the
        background pixel's palette address, taken modulo 64 as an index into
        the palette. */
    method PixelColour() returns (colour: bv8)
      requires Valid() && PpuState.PixelDefined(regs, bg, Mem()) && PpuState.DrawsPixel(regs.scanline, regs.cycle)
      ensures colour == PpuState.PixelValue(regs.mask, regs.fineX, bg, Mem())
    {
      var paletteIdx := BackgroundPixel();
      PpuMemory.DecodePalette(0x3F00 + paletteIdx as int);
      var entry := PpuRead(0x3F00 + paletteIdx as int);
      colour := palette[(entry % 0x40) as int];
    }

    /** The 4-bit palette index of this dot's background pixel. */
    method BackgroundPixel() returns (paletteIdx: bv8)
      requires Valid()
      ensures paletteIdx == PpuState.PixelIndex(regs.mask, regs.fineX, bg)
    {
      paletteIdx := 0;
      if regs.mask & 0x08 != 0 {
        var mux: bv16 := 0x8000 >> (regs.fineX as int);
        var p1 := bg.patternH & mux > 0;
        var p0 := bg.patternL & mux > 0;
        paletteIdx := (PpuState.Bit(p1) << 1) | PpuState.Bit(p0);
        var a1 := bg.attribH & mux > 0;
        var a0 := bg.attribL & mux > 0;
        paletteIdx := paletteIdx | (((PpuState.Bit(a1) << 1) | PpuState.Bit(a0)) << 2);
      }
    }

    /** A cycle of the fetch window: the shift, then the fetch of this
        cycle's phase. */
    method FetchStep()
      requires Valid() && PpuState.InRenderBlock(regs) && PpuState.InFetchWindow(regs.cycle)
      requires PpuState.FetchDefined(regs, bg, Mem())
      modifies this`regs, this`bg
      ensures (regs, bg) == PpuState.Fetch(old(regs), old(bg), old(Mem()))
      ensures Valid()
    {
      bg := PpuState.Shift(regs.mask, bg);
      var phase := (regs.cycle - 1) % 8;
      if phase < 4 {
        FetchTileStep();
      } else if phase < 7 {
        FetchPatternStep();
      } else if regs.mask & 0x08 != 0 {
        regs := regs.(v := Loopy.IncrementX(regs.v));
      }
    }

    /** Phases 0-3 of the fetch window. */
    method FetchTileStep()
      requires Valid() && PpuState.InRenderBlock(regs) && PpuState.InFetchWindow(regs.cycle)
      requires PpuState.FetchDefined(regs, bg, Mem()) && PpuState.Phase(regs.cycle) < 4
      modifies this`bg
      ensures bg == PpuState.FetchTile(regs, old(bg), Mem())
    {
      var phase := (regs.cycle - 1) % 8;
      if phase == 0 {
        LoadTileId();
      } else if phase == 2 {
        LoadAttribute();
      }
    }

    /** Phases 4-6 of the fetch window. */
    method FetchPatternStep()
      requires Valid() && PpuState.InRenderBlock(regs) && PpuState.InFetchWindow(regs.cycle)
      requires PpuState.FetchDefined(regs, bg, Mem()) && 4 <= PpuState.Phase(regs.cycle) < 7
      modifies this`bg
      ensures bg == PpuState.FetchPattern(regs, old(bg), Mem())
    {
      var phase := (regs.cycle - 1) % 8;
      if phase == 4 {
        var lsb := PpuRead(PpuState.PatternAddr(regs.ctrl, bg.tileId, regs.v, 0));
        bg := bg.(tileLsb := lsb);
      } else if phase == 6 {
        var msb := PpuRead(PpuState.PatternAddr(regs.ctrl, bg.tileId, regs.v, 8));
        bg := bg.(tileMsb := msb);
      }
    }

    /** Phase 0: reload the shifters, then fetch the next tile's number from
        the nametable. */
    method LoadTileId()
      requires Valid() && PpuMemory.Defined(Mem(), PpuState.NameAddr(regs.v))
      modifies this`bg
      ensures bg == PpuState.Reload(old(bg)).(tileId := PpuMemory.Read(Mem(), PpuState.NameAddr(regs.v)))
    {
      var id := PpuRead(PpuState.NameAddr(regs.v));
      bg := PpuState.Reload(bg).(tileId := id);
    }

    /** Phase 2: fetch the attribute byte and keep the tile's two bits. */
    method LoadAttribute()
      requires Valid() && PpuMemory.Defined(Mem(), PpuState.AttribAddr(regs.v))
      modifies this`bg
      ensures bg == old(bg).(tileAttrib := PpuState.AttribBits(PpuMemory.Read(Mem(), PpuState.AttribAddr(regs.v)), regs.v))
    {
      var attrib := PpuRead(PpuState.AttribAddr(regs.v));
      attrib := SelectQuadrant(attrib, regs.v);
      bg := bg.(tileAttrib := attrib);
    }

    /** The two bits of the attribute byte for the tile at `v`. */
    static method SelectQuadrant(attrib: bv8, v: Addr) returns (bits: bv8)
      ensures bits == PpuState.AttribBits(attrib, v)
    {
      bits := attrib;
      if Loopy.CoarseY(v) / 2 % 2 != 0 {
        bits := bits >> 4;
      }
      if Loopy.CoarseX(v) / 2 % 2 != 0 {
        bits := bits >> 2;
      }
      bits := bits & 0x03;
    }

    /** The vertical increment at cycle 256 and the copies from the temporary
        address. */
    method ScrollStep()
      requires Valid()
      modifies this`regs
      ensures regs == PpuState.ScrollUpdates(old(regs))
      ensures Valid()
    {
      var v := ScrollAddress(regs);
      regs := regs.(v := v);
    }

    /** The current address after the vertical increment and the copies. */
    static method ScrollAddress(r: PpuState.Regs) returns (v: Addr)
      ensures v == PpuState.ScrollAddr(r)
    {
      v := r.v;
      if r.cycle == 256 && r.mask & 0x08 != 0 {
        v := Loopy.IncrementY(v);
      }
      if r.scanline == -1 && 280 <= r.cycle < 305 && (r.mask & 0x08 != 0 || r.mask & 0x10 != 0) {
        v := Loopy.TransferY(v, r.t);
      }
      if r.cycle == 257 && (r.mask & 0x08 != 0 || r.mask & 0x10 != 0) {
        v := Loopy.TransferX(v, r.t);
      }
    }
  }
}
