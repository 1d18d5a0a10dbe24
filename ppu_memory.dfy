/** The PPU's 14-bit address space as `ppuRead` and `ppuWrite` decode it:
    pattern tables at $0000-$1FFF (the cartridge's CHR memory), nametables at
    $2000-$3EFF (the PPU's 2 KB of VRAM, indexed by the low 12 bits) and the
    32-byte palette at $3F00-$3FFF, whose four backdrop entries of the sprite
    palettes alias those of the background palettes. */
module PpuMemory {
  import opened Word

  /** Where an access lands, with the index into that memory. */
  datatype Location =
    | Pattern(index: nat)
    | Nametable(index: nat)
    | Palette(index: nat)

  /** The palette entry of palette address `a` ($3F00 + `a`): $10, $14, $18
      and $1C are the same entries as $00, $04, $08 and $0C. */
  function PaletteIndex(a: nat): (i: nat)
    requires a < 32
    ensures i < 32
  {
    if a == 0x10 then 0x00
    else if a == 0x14 then 0x04
    else if a == 0x18 then 0x08
    else if a == 0x1C then 0x0C
    else a
  }

  /** The sprite palettes' backdrop slots map to the background palettes'
      ones; every other address is its own entry. */
  lemma PaletteIndexMirrors(a: nat)
    requires a < 32
    ensures a % 4 != 0 || a < 16 ==> PaletteIndex(a) == a
    ensures a % 4 == 0 ==> PaletteIndex(a) == a % 16
    ensures PaletteIndex(a) < 16 || PaletteIndex(a) % 4 != 0
  {
  }

  /** Two palette addresses reach the same entry exactly when they are equal
      or are the same backdrop slot of a background and a sprite palette. */
  lemma PaletteAliases(a: nat, b: nat)
    requires a < 32 && b < 32
    ensures PaletteIndex(a) == PaletteIndex(b) <==> a == b || (a % 4 == 0 && b % 4 == 0 && a % 16 == b % 16)
  {
  }

  /** The decoding shared by `ppuRead` and `ppuWrite`: the address is first
      reduced to 14 bits (`& 0x3FFF`, written `% 0x4000` on the number). */
  function Decode(addr: Addr): Location {
    var a := addr % 0x4000;
    if a <= 0x1FFF then Pattern(a)
    else if a <= 0x3EFF then Nametable(a % 0x1000)
    else Palette(PaletteIndex(a % 0x20))
  }

  /** The three regions of the 14-bit space, and the index each one uses. */
  lemma DecodeRegions(addr: Addr)
    ensures var l := Decode(addr);
      && (l.Pattern? <==> addr % 0x4000 <= 0x1FFF)
      && (l.Pattern? ==> l.index == addr % 0x4000)
      && (l.Nametable? <==> 0x2000 <= addr % 0x4000 <= 0x3EFF)
      && (l.Nametable? ==> l.index == addr % 0x1000)
      && (l.Palette? <==> addr % 0x4000 >= 0x3F00)
      && (l.Palette? ==> l.index == PaletteIndex(addr % 0x20))
  {
    var a := addr % 0x4000;
    if 0x2000 <= a <= 0x3EFF {
      assert a % 0x1000 == addr % 0x1000;
    } else if a >= 0x3F00 {
      assert a % 0x20 == addr % 0x20;
    }
  }

  /** Below $2000 an address is its own pattern-space index. */
  lemma DecodePattern(addr: Addr)
    requires addr < 0x2000
    ensures Decode(addr) == Pattern(addr)
  {
  }

  /** From $2000 to $3EFF an address reaches the VRAM at its low 12 bits. */
  lemma DecodeNametable(addr: Addr)
    requires 0x2000 <= addr < 0x3F00
    ensures Decode(addr) == Nametable(addr % 0x1000)
  {
  }

  /** From $3F00 up an address reaches the palette entry of its low 5 bits. */
  lemma DecodePalette(addr: Addr)
    requires 0x3F00 <= addr < 0x4000
    ensures Decode(addr) == Palette(PaletteIndex(addr % 0x20))
  {
  }

  /** The palette repeats every 32 bytes through $3F00-$3FFF. */
  lemma PaletteRepeats(addr: Addr)
    requires 0x3F00 <= addr <= 0x3FFF
    ensures Decode(addr) == Decode(0x3F00 + addr % 0x20)
  {
  }

  /** The whole space repeats every 16 KB. */
  lemma SpaceRepeats(addr: Addr, k: nat)
    requires addr + k * 0x4000 < 0x10000
    ensures Decode(addr + k * 0x4000) == Decode(addr)
  {
    assert (addr + k * 0x4000) % 0x4000 == addr % 0x4000;
    assert (addr + k * 0x4000) % 0x1000 == addr % 0x1000;
    assert (addr + k * 0x4000) % 0x20 == addr % 0x20;
  }

  /** The nametable index is the low 12 bits, which is outside the 2 KB of
      VRAM exactly when address bit 11 is set ($2800-$2FFF, $3800-$3EFF):
      those accesses index past the end of `vram`. */
  lemma NametableOutsideVram(addr: Addr)
    requires Decode(addr).Nametable?
    ensures Decode(addr).index < 2048 <==> (addr / 0x800) % 2 == 0
  {
  }

  /** The decoding of the debugger's side-effect-free read: as `Decode`, but
      a nametable index goes through the mirroring function `mirror` (the
      PPU's `getMirrorAddress`, which is not part of this model). */
  function DebugDecode(addr: Addr, mirror: Addr -> Addr): (l: Location)
    ensures l.Pattern? ==> l.index <= 0x1FFF
  {
    var a := addr % 0x4000;
    if a <= 0x1FFF then Pattern(a)
    else if a <= 0x3EFF then Nametable(mirror(a % 0x1000))
    else Palette(PaletteIndex(a % 0x20))
  }

  /** The debugger reads pattern space and the palette where `ppuRead` does;
      a nametable address reaches the same VRAM byte exactly when `mirror`
      keeps its 12-bit index. */
  lemma DebugDecodeAgrees(addr: Addr, mirror: Addr -> Addr)
    ensures DebugDecode(addr, mirror).Pattern? <==> Decode(addr).Pattern?
    ensures DebugDecode(addr, mirror).Palette? <==> Decode(addr).Palette?
    ensures DebugDecode(addr, mirror).Nametable? <==> Decode(addr).Nametable?
    ensures !Decode(addr).Nametable? ==> DebugDecode(addr, mirror) == Decode(addr)
    ensures Decode(addr).Nametable? ==>
      DebugDecode(addr, mirror) == Nametable(mirror(Decode(addr).index))
  {
    var a := addr % 0x4000;
    if 0x2000 <= a <= 0x3EFF {
      assert a % 0x1000 == addr % 0x1000;
    }
  }

  /** The memories an access reaches: the cartridge's CHR memory (empty when
      no cartridge is connected), the VRAM and the palette. */
  datatype Mem = Mem(chr: seq<bv8>, vram: seq<bv8>, palette: seq<bv8>)

  /** The location is inside its memory (otherwise the source panics). */
  predicate Inside(m: Mem, l: Location) {
    match l
    case Pattern(i) => i < |m.chr|
    case Nametable(i) => i < |m.vram|
    case Palette(i) => i < |m.palette|
  }

  function Get(m: Mem, l: Location): bv8
    requires Inside(m, l)
  {
    match l
    case Pattern(i) => m.chr[i]
    case Nametable(i) => m.vram[i]
    case Palette(i) => m.palette[i]
  }

  function Put(m: Mem, l: Location, data: bv8): (w: Mem)
    requires Inside(m, l)
    ensures w.chr == m.chr && |w.vram| == |m.vram| && |w.palette| == |m.palette|
    ensures l.Pattern? ==> w == m
    ensures l.Nametable? ==> w == m.(vram := m.vram[l.index := data])
    ensures l.Palette? ==> w == m.(palette := m.palette[l.index := data])
  {
    match l
    case Pattern(_) => m
    case Nametable(i) => m.(vram := m.vram[i := data])
    case Palette(i) => m.(palette := m.palette[i := data])
  }

  lemma PutThenGet(m: Mem, l: Location, data: bv8)
    requires Inside(m, l)
    ensures Inside(Put(m, l, data), l)
    ensures !l.Pattern? ==> Get(Put(m, l, data), l) == data
  {
  }

  lemma PutOther(m: Mem, l: Location, k: Location, data: bv8)
    requires Inside(m, l) && Inside(m, k) && k != l
    ensures Inside(Put(m, l, data), k)
    ensures Get(Put(m, l, data), k) == Get(m, k)
  {
  }

  /** The access indexes inside its memory (otherwise the source panics). */
  predicate Defined(m: Mem, addr: Addr) {
    Inside(m, Decode(addr))
  }

  /** `ppuRead`. */
  function Read(m: Mem, addr: Addr): (d: bv8)
    requires Defined(m, addr)
  {
    Get(m, Decode(addr))
  }

  /** `ppuWrite`: pattern space is left alone (CHR is treated as read-only);
      VRAM and palette store the byte. */
  function Write(m: Mem, addr: Addr, data: bv8): (w: Mem)
    requires Defined(m, addr)
    ensures w.chr == m.chr && |w.vram| == |m.vram| && |w.palette| == |m.palette|
    ensures Decode(addr).Pattern? ==> w == m
    ensures Decode(addr).Nametable? ==> w == m.(vram := m.vram[Decode(addr).index := data])
    ensures Decode(addr).Palette? ==> w == m.(palette := m.palette[Decode(addr).index := data])
  {
    Put(m, Decode(addr), data)
  }

  /** A write followed by a read of the same address returns the byte written,
      except in pattern space, where nothing is written. */
  lemma ReadAfterWrite(m: Mem, addr: Addr, data: bv8)
    requires Defined(m, addr)
    ensures Defined(Write(m, addr, data), addr)
    ensures !Decode(addr).Pattern? ==> Read(Write(m, addr, data), addr) == data
    ensures Decode(addr).Pattern? ==> Read(Write(m, addr, data), addr) == Read(m, addr)
  {
    PutThenGet(m, Decode(addr), data);
  }

  /** A write leaves every address that decodes elsewhere as it was: in
      particular the mirror of a palette entry reads the new byte, and an
      unrelated address the old one. */
  lemma WriteIsLocal(m: Mem, addr: Addr, other: Addr, data: bv8)
    requires Defined(m, addr) && Defined(m, other)
    ensures Defined(Write(m, addr, data), other)
    ensures Decode(other) == Decode(addr) && !Decode(addr).Pattern? ==> Read(Write(m, addr, data), other) == data
    ensures Decode(other) != Decode(addr) ==> Read(Write(m, addr, data), other) == Read(m, other)
  {
    if Decode(other) == Decode(addr) {
      PutThenGet(m, Decode(addr), data);
    } else {
      PutOther(m, Decode(addr), Decode(other), data);
    }
  }
}
