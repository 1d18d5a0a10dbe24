/** The cartridge: the ROM image split into PRG-ROM and CHR memory, its
    mirroring code, and the bank-switching mapper the CPU and PPU go through.
    The mappers keep references to the cartridge's CHR array (so their CHR-RAM
    writes are the cartridge's), and MMC1 to the cartridge itself (its control
    register sets the cartridge's mirroring). */
module Cartridge {
  import opened Wrappers
  import opened Word
  import Ines
  import Nrom
  import Uxrom
  import Cnrom
  import Mmc1
  import Mmc3
  import MapperState

  /** The mapper a cartridge holds (`nil` until `New` installs one). */
  datatype MapperRef =
    | NoMapper
    | NromMapper(nrom: NROM)
    | UxromMapper(uxrom: UxROM)
    | CnromMapper(cnrom: CNROM)
    | Mmc1Mapper(mmc1: MMC1)
    | Mmc3Mapper(mmc3: MMC3)

  /** A saved cartridge: CHR-RAM contents, PRG-RAM contents, mapper registers. */
  datatype State = State(CHRRAM: seq<bv8>, PRGRAM: seq<bv8>, MapperState: seq<bv8>)

  /** `copy(dst, src)`: the first min(|dst|, |src|) bytes come from `src`. */
  function Copied(dst: seq<bv8>, src: seq<bv8>): (r: seq<bv8>)
    ensures |r| == |dst|
    ensures forall i :: 0 <= i < |r| ==> r[i] == if i < |src| then src[i] else dst[i]
  {
    if |src| >= |dst| then src[..|dst|] else src + dst[|src|..]
  }

  /** `copy` into an array, as one parallel assignment. */
  method CopyInto(dst: array<bv8>, src: seq<bv8>)
    modifies dst
    ensures dst[..] == Copied(old(dst[..]), src)
  {
    forall i | 0 <= i < dst.Length && i < |src| {
      dst[i] := src[i];
    }
  }

  class Cartridge {
    const PRGROM: seq<bv8>
    const CHRROM: array<bv8>
    var Mirror: bv8
    const IsCHRRAM: bool
    var Mapper: MapperRef

    constructor (prg: seq<bv8>, chr: array<bv8>, mirror: bv8, isChrRam: bool)
      ensures PRGROM == prg && CHRROM == chr && Mirror == mirror && IsCHRRAM == isChrRam
      ensures Mapper == NoMapper
    {
      PRGROM := prg;
      CHRROM := chr;
      Mirror := mirror;
      IsCHRRAM := isChrRam;
      Mapper := NoMapper;
    }

    /** The mapper's registers and buffers that a state load may change. */
    function MapperFootprint(): set<object>
      reads this
    {
      match Mapper
      case NoMapper => {}
      case NromMapper(_) => {}
      case UxromMapper(u) => {u}
      case CnromMapper(c) => {c}
      case Mmc1Mapper(m) => {m, m.wram}
      case Mmc3Mapper(m) => {m, m.prgRAM}
    }

    /** The installed mapper shares this cartridge's ROM and CHR memory, and
        its own buffers are separate from the CHR memory. */
    ghost predicate Valid()
      reads this, MapperFootprint()
    {
      match Mapper
      case NoMapper => true
      case NromMapper(n) => n.prgROM == PRGROM && n.chrROM == CHRROM && n.Valid()
      case UxromMapper(u) => u.prgROM == PRGROM && u.chrROM == CHRROM && u.Valid()
      case CnromMapper(c) => c.prgROM == PRGROM && c.chrROM == CHRROM && c.Valid()
      case Mmc1Mapper(m) => m.prgROM == PRGROM && m.chrROM == CHRROM && m.cart == this && m.Valid()
      case Mmc3Mapper(m) => m.prgROM == PRGROM && m.chrROM == CHRROM && m.Valid()
    }

    /** Everything a pattern-space read through the mapper looks at. */
    function PatternFootprint(): set<object>
      reads this
    {
      {this, CHRROM} + MapperFootprint()
    }

    /** A pattern-space read through the installed mapper indexes inside the
        CHR memory (the mappers index it without a check). */
    ghost predicate PatternReadable(addr: Addr)
      reads this, MapperFootprint()
      requires addr <= 0x1FFF
    {
      match Mapper
      case NoMapper => false
      case NromMapper(n) => addr < n.chrROM.Length
      case UxromMapper(u) => addr < u.chrROM.Length
      case CnromMapper(c) => Cnrom.ChrIndex(c.chrBankSelect, addr) < c.chrROM.Length
      case Mmc1Mapper(m) => Mmc1.ChrReadable(m.control, m.chrROM.Length / 4096)
      case Mmc3Mapper(m) => m.chrBanks > 0
    }

    /** The byte a pattern-space read through the installed mapper returns,
        through its CHR banking. */
    ghost function PatternByte(addr: Addr): bv8
      reads this, MapperFootprint(), CHRROM
      requires addr <= 0x1FFF && Valid() && PatternReadable(addr)
    {
      match Mapper
      case NromMapper(n) => CHRROM[addr]
      case UxromMapper(u) => CHRROM[addr]
      case CnromMapper(c) => CHRROM[Cnrom.ChrIndex(c.chrBankSelect, addr)]
      case Mmc1Mapper(m) =>
        assert (CHRROM.Length / 4096) * 4096 <= CHRROM.Length;
        CHRROM[Mmc1.ChrIndex(m.control, m.chrBank0, m.chrBank1, CHRROM.Length / 4096, addr)]
      case Mmc3Mapper(m) =>
        assert m.chrBanks * 1024 <= CHRROM.Length;
        CHRROM[Mmc3.ChrIndex(m.Regs(), m.chrBanks, addr)]
    }

    /** `SaveState`: CHR memory only when it is CHR-RAM, PRG-RAM only for the
        mappers that have it (MMC1, MMC3), and the mapper's register record. */
    method SaveState() returns (s: State)
      requires Mapper != NoMapper && Valid()
      ensures s.CHRRAM == if IsCHRRAM then CHRROM[..] else []
      ensures s.PRGRAM == match Mapper
                          case Mmc1Mapper(m) => m.wram[..]
                          case Mmc3Mapper(m) => m.prgRAM[..]
                          case _ => []
      ensures s.MapperState == match Mapper
                          case NromMapper(n) => n.Save()
                          case UxromMapper(u) => u.Save()
                          case CnromMapper(c) => c.Save()
                          case Mmc1Mapper(m) => m.Save()
                          case Mmc3Mapper(m) => m.Save()
                          case NoMapper => []
    {
      var chr := [];
      if IsCHRRAM {
        chr := CHRROM[..];
      }
      var prg := [];
      match Mapper {
        case Mmc1Mapper(m) => prg := m.wram[..];
        case Mmc3Mapper(m) => prg := m.prgRAM[..];
        case _ =>
      }
      var ms := match Mapper
        case NromMapper(n) => n.Save()
        case UxromMapper(u) => u.Save()
        case CnromMapper(c) => c.Save()
        case Mmc1Mapper(m) => m.Save()
        case Mmc3Mapper(m) => m.Save()
        case NoMapper => [];
      s := State(chr, prg, ms);
    }

    /** `LoadState`: CHR-RAM and PRG-RAM are copied back only from non-empty
        saves, then the mapper loads its record. */
    method LoadState(s: State) returns (err: Option<string>)
      requires Mapper != NoMapper && Valid()
      modifies CHRROM, MapperFootprint()
      ensures Valid() && Mapper == old(Mapper)
      ensures CHRROM[..] == if IsCHRRAM && |s.CHRRAM| > 0 then Copied(old(CHRROM[..]), s.CHRRAM) else old(CHRROM[..])
      ensures Mapper.Mmc1Mapper? ==>
        Mapper.mmc1.wram[..] == if |s.PRGRAM| > 0 then Copied(old(Mapper.mmc1.wram[..]), s.PRGRAM) else old(Mapper.mmc1.wram[..])
      ensures Mapper.Mmc3Mapper? ==>
        Mapper.mmc3.prgRAM[..] == if |s.PRGRAM| > 0 then Copied(old(Mapper.mmc3.prgRAM[..]), s.PRGRAM) else old(Mapper.mmc3.prgRAM[..])
      ensures Mapper.NromMapper? ==> err.None?
      ensures Mapper.UxromMapper? ==>
        (err.None? && Mapper.uxrom.prgBankSelect ==
         if |s.MapperState| > 0 then s.MapperState[0] as int else old(Mapper.uxrom.prgBankSelect))
      ensures Mapper.CnromMapper? ==>
        (err.None? && Mapper.cnrom.chrBankSelect ==
         if |s.MapperState| > 0 then s.MapperState[0] as int else old(Mapper.cnrom.chrBankSelect))
      ensures Mapper.Mmc1Mapper? ==> Mapper.mmc1.Loaded(s.MapperState, old(Mapper.mmc1.Regs()), err)
      ensures Mapper.Mmc3Mapper? ==> Mapper.mmc3.Loaded(s.MapperState, old(Mapper.mmc3.Regs()), err)
    {
      if IsCHRRAM && |s.CHRRAM| > 0 {
        CopyInto(CHRROM, s.CHRRAM);
      }
      match Mapper {
        case NromMapper(n) =>
          err := n.Load(s.MapperState);
        case UxromMapper(u) =>
          err := u.Load(s.MapperState);
        case CnromMapper(c) =>
          err := c.Load(s.MapperState);
        case Mmc1Mapper(m) =>
          if |s.PRGRAM| > 0 {
            CopyInto(m.wram, s.PRGRAM);
          }
          err := m.Load(s.MapperState);
        case Mmc3Mapper(m) =>
          if |s.PRGRAM| > 0 {
            CopyInto(m.prgRAM, s.PRGRAM);
          }
          err := m.Load(s.MapperState);
      }
    }
  }

  /** `New`, after the file is read: the header fixes the PRG-ROM slice, the
      CHR-ROM slice or 8 KB of zeroed CHR-RAM, the mirroring code and the
      mapper; an unsupported mapper is an error and yields no cartridge. */
  method New(data: seq<bv8>) returns (r: Result<Cartridge, string>)
    requires Ines.Sliceable(data)
    ensures r.Success? <==> Ines.MapperKindOf(Ines.MapperId(data[6], data[7])).Success?
    ensures r.Failure? ==> r.error == Ines.MapperKindOf(Ines.MapperId(data[6], data[7])).error
    ensures r.Success? ==> fresh(r.value) && fresh(r.value.CHRROM)
    ensures r.Success? ==> var c := r.value;
      && c.PRGROM == Ines.PrgRom(data)
      && (Ines.ChrSize(data) > 0 ==> c.CHRROM[..] == Ines.ChrRom(data) && !c.IsCHRRAM)
      && (Ines.ChrSize(data) == 0 ==> c.CHRROM[..] == seq(8192, _ => 0) && c.IsCHRRAM)
      && c.Mirror == Ines.Mirror(data[6])
      && c.Valid()
      && (Ines.MapperId(data[6], data[7]) == 0 ==> c.Mapper.NromMapper?)
      && (Ines.MapperId(data[6], data[7]) == 1 ==> c.Mapper.Mmc1Mapper?)
  {
    var prgSize := Ines.PrgSize(data);
    var chrSize := Ines.ChrSize(data);
    var prg := Ines.PrgRom(data);
    var chr: array<bv8>;
    var isChrRam: bool;
    if chrSize > 0 {
      var rom := Ines.ChrRom(data);
      chr := new bv8[chrSize](i requires 0 <= i < chrSize => rom[i]);
      isChrRam := false;
      assert chr[..] == rom;
    } else {
      chr := new bv8[8192](_ => 0);
      isChrRam := true;
    }
    var mapperId := Ines.MapperId(data[6], data[7]);
    var c := new Cartridge(prg, chr, Ines.Mirror(data[6]), isChrRam);
    var m := NewMapper(c, mapperId);
    if m.Failure? {
      return Failure(m.error);
    }
    c.Mapper := m.value;
    r := Success(c);
  }

  /** `NewMapper`: NROM for mapper 0, MMC1 for mapper 1, an error otherwise.
      (UxROM, CNROM and MMC3 are implemented but not reachable from here.) */
  method NewMapper(cart: Cartridge, mapperId: bv8) returns (r: Result<MapperRef, string>)
    modifies {}
    ensures r.Success? <==> Ines.MapperKindOf(mapperId).Success?
    ensures r.Failure? ==> r.error == Ines.MapperKindOf(mapperId).error
    ensures r.Success? && mapperId == 0 ==>
      (r.value.NromMapper? && fresh(r.value.nrom)
       && r.value.nrom.prgROM == cart.PRGROM && r.value.nrom.chrROM == cart.CHRROM
       && r.value.nrom.mirror == cart.Mirror && r.value.nrom.Valid())
    ensures r.Success? && mapperId == 1 ==>
      (r.value.Mmc1Mapper? && fresh(r.value.mmc1) && fresh(r.value.mmc1.wram)
       && r.value.mmc1.prgROM == cart.PRGROM && r.value.mmc1.chrROM == cart.CHRROM
       && r.value.mmc1.cart == cart && r.value.mmc1.Valid() && r.value.mmc1.Regs() == Mmc1.PowerOn)
  {
    var kind := Ines.MapperKindOf(mapperId);
    if kind.Failure? {
      r := Failure(kind.error);
    } else if kind.value == Ines.NromKind {
      var n := new NROM(cart);
      r := Success(NromMapper(n));
    } else {
      var m := new MMC1(cart);
      r := Success(Mmc1Mapper(m));
    }
  }

  // ---------------------------------------------------------------------------
  // Mapper 0: NROM

  class NROM {
    const prgROM: seq<bv8>
    const chrROM: array<bv8>
    const mirror: bv8
    const prgBanks: int
    const chrBanks: int

    ghost predicate Valid() {
      prgBanks == |prgROM| / 16384 && chrBanks == chrROM.Length / 8192
    }

    /** `newNROM`: bank counts in 16 KB PRG and 8 KB CHR units. */
    constructor (cart: Cartridge)
      ensures prgROM == cart.PRGROM && chrROM == cart.CHRROM && mirror == cart.Mirror
      ensures Valid()
    {
      prgROM := cart.PRGROM;
      chrROM := cart.CHRROM;
      mirror := cart.Mirror;
      prgBanks := |cart.PRGROM| / 16384;
      chrBanks := cart.CHRROM.Length / 8192;
    }

    /** The source indexes PRG-ROM without a check, so a mapped read needs
        the index inside the ROM (always so for one or two banks). */
    method CPUMapRead(addr: Addr) returns (data: bv8, ok: bool)
      requires Valid()
      requires Nrom.CpuIndex(prgBanks, addr).Some? ==> Nrom.CpuIndex(prgBanks, addr).value < |prgROM|
      ensures ok <==> addr >= 0x8000
      ensures ok ==> data == prgROM[Nrom.CpuIndex(prgBanks, addr).value]
      ensures !ok ==> data == 0
    {
      match Nrom.CpuIndex(prgBanks, addr) {
        case None => data, ok := 0, false;
        case Some(i) => data, ok := prgROM[i], true;
      }
    }

    /** NROM has nothing for the CPU to write. */
    method CPUMapWrite(addr: Addr, data: bv8) returns (ok: bool)
      ensures !ok
    {
      ok := false;
    }

    method PPUMapRead(addr: Addr) returns (data: bv8, ok: bool)
      requires addr <= 0x1FFF ==> addr < chrROM.Length
      ensures ok <==> addr <= 0x1FFF
      ensures ok ==> data == chrROM[addr]
      ensures !ok ==> data == 0
    {
      if addr <= 0x1FFF {
        data, ok := chrROM[addr], true;
      } else {
        data, ok := 0, false;
      }
    }

    /** Only 8 KB of CHR memory, taken to be CHR-RAM, is writable. */
    method PPUMapWrite(addr: Addr, data: bv8) returns (ok: bool)
      modifies chrROM
      ensures ok <==> Nrom.PpuWritable(chrROM.Length, addr)
      ensures chrROM[..] == if ok then old(chrROM[..])[addr := data] else old(chrROM[..])
    {
      if addr <= 0x1FFF && chrROM.Length == 8192 {
        chrROM[addr] := data;
        return true;
      }
      return false;
    }

    function GetMirroring(): (m: bv8)
    {
      mirror
    }

    /** NROM has no registers to save. */
    function Save(): (s: seq<bv8>)
      ensures s == []
    {
      []
    }

    method Load(b: seq<bv8>) returns (err: Option<string>)
      ensures err.None?
    {
      err := None;
    }
  }

  // ---------------------------------------------------------------------------
  // Mapper 2: UxROM

  class UxROM {
    const prgROM: seq<bv8>
    const chrROM: array<bv8>
    const mirror: bv8
    const prgBanks: nat
    var prgBankSelect: nat

    /** Every write and every load sets the select from one byte. */
    ghost predicate Valid()
      reads this
    {
      prgBanks == |prgROM| / 16384 && prgBankSelect < 256
    }

    constructor (cart: Cartridge)
      ensures prgROM == cart.PRGROM && chrROM == cart.CHRROM && mirror == cart.Mirror
      ensures prgBankSelect == 0 && Valid()
    {
      prgROM := cart.PRGROM;
      chrROM := cart.CHRROM;
      mirror := cart.Mirror;
      prgBanks := |cart.PRGROM| / 16384;
      prgBankSelect := 0;
    }

    /** Both windows need a PRG bank to exist (division by the bank count,
        index of bank `prgBanks - 1`). */
    method CPUMapRead(addr: Addr) returns (data: bv8, ok: bool)
      requires Valid() && (addr >= 0x8000 ==> prgBanks > 0)
      ensures ok <==> addr >= 0x8000
      ensures ok ==> data == prgROM[Uxrom.CpuIndex(prgBanks, prgBankSelect, addr).value]
      ensures !ok ==> data == 0
    {
      if 0x8000 <= addr <= 0xBFFF {
        var bank := prgBankSelect % prgBanks;
        var mapped := bank * 16384 + (addr - 0x8000);
        assert mapped == Uxrom.CpuIndex(prgBanks, prgBankSelect, addr).value;
        return prgROM[mapped], true;
      } else if addr >= 0xC000 {
        var bank := prgBanks - 1;
        var mapped := bank * 16384 + (addr - 0xC000);
        assert mapped == Uxrom.CpuIndex(prgBanks, prgBankSelect, addr).value;
        return prgROM[mapped], true;
      }
      return 0, false;
    }

    /** Any write to $8000-$FFFF selects the switchable bank. */
    method CPUMapWrite(addr: Addr, data: bv8) returns (ok: bool)
      requires Valid()
      modifies this
      ensures ok <==> addr >= 0x8000
      ensures prgBankSelect == Uxrom.SelectAfterWrite(old(prgBankSelect), addr, data)
      ensures Valid()
    {
      if addr >= 0x8000 {
        prgBankSelect := data as int;
        return true;
      }
      return false;
    }

    method PPUMapRead(addr: Addr) returns (data: bv8, ok: bool)
      requires addr <= 0x1FFF ==> addr < chrROM.Length
      ensures ok <==> addr <= 0x1FFF
      ensures ok ==> data == chrROM[addr]
      ensures !ok ==> data == 0
    {
      if addr <= 0x1FFF {
        return chrROM[addr], true;
      }
      return 0, false;
    }

    method PPUMapWrite(addr: Addr, data: bv8) returns (ok: bool)
      modifies chrROM
      ensures ok <==> Nrom.PpuWritable(chrROM.Length, addr)
      ensures chrROM[..] == if ok then old(chrROM[..])[addr := data] else old(chrROM[..])
    {
      if addr <= 0x1FFF && chrROM.Length == 8192 {
        chrROM[addr] := data;
        return true;
      }
      return false;
    }

    function GetMirroring(): (m: bv8)
    {
      mirror
    }

    /** `Clock` does nothing. */
    method Clock()
    {
    }

    /** UxROM never raises an IRQ. */
    function IRQPending(): (p: bool)
      ensures !p
    {
      false
    }

    method ClearIRQ()
    {
    }

    /** The bank select as one byte (Go's `byte(int)` keeps the low 8 bits);
        as the select is below 256, loading the byte back restores it. */
    function Save(): (s: seq<bv8>)
      reads this
      ensures |s| == 1 && s[0] as int == prgBankSelect % 256
      ensures Valid() ==> s[0] as int == prgBankSelect
    {
      MapperState.ByteOfNat(prgBankSelect % 256);
      [(prgBankSelect % 256) as bv8]
    }

    method Load(b: seq<bv8>) returns (err: Option<string>)
      requires Valid()
      modifies this
      ensures err.None? && Valid()
      ensures prgBankSelect == if |b| > 0 then b[0] as int else old(prgBankSelect)
      ensures |b| > 0 ==> Save() == b[..1]
    {
      if |b| > 0 {
        prgBankSelect := b[0] as int;
      }
      err := None;
    }
  }

  // ---------------------------------------------------------------------------
  // Mapper 3: CNROM

  class CNROM {
    const prgROM: seq<bv8>
    const chrROM: array<bv8>
    const mirror: bv8
    const prgBanks: nat
    const chrBanks: nat
    var chrBankSelect: nat

    /** Every write and every load sets the select from one byte. */
    ghost predicate Valid()
      reads this
    {
      prgBanks == |prgROM| / 16384 && chrBanks == chrROM.Length / 8192 && chrBankSelect < 256
    }

    /** The select addresses an existing 8 KB bank; writes keep this, a state
        load of a larger byte breaks it. */
    ghost predicate SelectInRange()
      reads this
    {
      chrBankSelect < chrBanks || (chrBanks == 0 && chrBankSelect == 0)
    }

    constructor (cart: Cartridge)
      ensures prgROM == cart.PRGROM && chrROM == cart.CHRROM && mirror == cart.Mirror
      ensures chrBankSelect == 0 && Valid() && SelectInRange()
    {
      prgROM := cart.PRGROM;
      chrROM := cart.CHRROM;
      mirror := cart.Mirror;
      prgBanks := |cart.PRGROM| / 16384;
      chrBanks := cart.CHRROM.Length / 8192;
      chrBankSelect := 0;
    }

    /** PRG-ROM is laid out as in NROM. */
    method CPUMapRead(addr: Addr) returns (data: bv8, ok: bool)
      requires Valid()
      requires Nrom.CpuIndex(prgBanks, addr).Some? ==> Nrom.CpuIndex(prgBanks, addr).value < |prgROM|
      ensures ok <==> addr >= 0x8000
      ensures ok ==> data == prgROM[Nrom.CpuIndex(prgBanks, addr).value]
      ensures !ok ==> data == 0
    {
      match Nrom.CpuIndex(prgBanks, addr) {
        case None => data, ok := 0, false;
        case Some(i) => data, ok := prgROM[i], true;
      }
    }

    /** A write to $8000-$FFFF selects the CHR bank, reduced modulo the bank count. */
    method CPUMapWrite(addr: Addr, data: bv8) returns (ok: bool)
      requires Valid()
      modifies this
      ensures ok <==> addr >= 0x8000
      ensures chrBankSelect == if ok then Cnrom.SelectAfterWrite(chrBanks, old(chrBankSelect), data) else old(chrBankSelect)
      ensures ok && old(SelectInRange()) ==> SelectInRange()
      ensures ok && chrBanks > 0 ==> SelectInRange()
      ensures Valid()
    {
      if addr >= 0x8000 {
        if chrBanks > 0 {
          chrBankSelect := data as int % chrBanks;
        }
        return true;
      }
      return false;
    }

    method PPUMapRead(addr: Addr) returns (data: bv8, ok: bool)
      requires addr <= 0x1FFF ==> Cnrom.ChrIndex(chrBankSelect, addr) < chrROM.Length
      ensures ok <==> addr <= 0x1FFF
      ensures ok ==> data == chrROM[Cnrom.ChrIndex(chrBankSelect, addr)]
      ensures !ok ==> data == 0
    {
      if addr <= 0x1FFF {
        var mapped := chrBankSelect * 8192 + addr;
        return chrROM[mapped], true;
      }
      return 0, false;
    }

    /** With 8 KB of CHR memory the select is 0 while in range, so the write
        lands at the address itself. */
    method PPUMapWrite(addr: Addr, data: bv8) returns (ok: bool)
      requires Nrom.PpuWritable(chrROM.Length, addr) ==> Cnrom.ChrIndex(chrBankSelect, addr) < chrROM.Length
      modifies chrROM
      ensures ok <==> Nrom.PpuWritable(chrROM.Length, addr)
      ensures chrROM[..] == if ok then old(chrROM[..])[Cnrom.ChrIndex(chrBankSelect, addr) := data] else old(chrROM[..])
    {
      if addr <= 0x1FFF && chrROM.Length == 8192 {
        var mapped := chrBankSelect * 8192 + addr;
        chrROM[mapped] := data;
        return true;
      }
      return false;
    }

    function GetMirroring(): (m: bv8)
    {
      mirror
    }

    method Clock()
    {
    }

    /** As the select is below 256, loading the byte back restores it. */
    function Save(): (s: seq<bv8>)
      reads this
      ensures |s| == 1 && s[0] as int == chrBankSelect % 256
      ensures Valid() ==> s[0] as int == chrBankSelect
    {
      MapperState.ByteOfNat(chrBankSelect % 256);
      [(chrBankSelect % 256) as bv8]
    }

    /** Unlike a write, a load does not reduce the select modulo the bank count. */
    method Load(b: seq<bv8>) returns (err: Option<string>)
      requires Valid()
      modifies this
      ensures err.None? && Valid()
      ensures chrBankSelect == if |b| > 0 then b[0] as int else old(chrBankSelect)
      ensures |b| > 0 ==> Save() == b[..1]
    {
      if |b| > 0 {
        chrBankSelect := b[0] as int;
      }
      err := None;
    }
  }

  // ---------------------------------------------------------------------------
  // Mapper 1: MMC1

  class MMC1 {
    const prgROM: seq<bv8>
    const chrROM: array<bv8>
    const wram: array<bv8>
    const chrRAM: bool
    const cart: Cartridge
    var wramDisabled: bool
    var wramDisableCounter: bv8
    var control: bv8
    var chrBank0: bv8
    var chrBank1: bv8
    var prgBank: bv8
    var shiftRegister: bv8
    var writeCount: bv8

    /** 8 KB of work RAM, separate from the CHR memory. */
    ghost predicate Valid() {
      wram.Length == 8192 && wram != chrROM
    }

    /** The register record (`MMC1State`). */
    function Regs(): (r: Mmc1.Regs)
      reads this
    {
      Mmc1.Regs(control, chrBank0, chrBank1, prgBank, shiftRegister, writeCount,
                wramDisableCounter, wramDisabled)
    }

    /** `newMMC1`: zeroed work RAM and PRG mode 3. */
    constructor (c: Cartridge)
      ensures prgROM == c.PRGROM && chrROM == c.CHRROM && chrRAM == c.IsCHRRAM && cart == c
      ensures fresh(wram) && wram[..] == seq(8192, _ => 0)
      ensures Regs() == Mmc1.PowerOn && Valid()
    {
      prgROM := c.PRGROM;
      chrROM := c.CHRROM;
      wram := new bv8[8192](_ => 0);
      chrRAM := c.IsCHRRAM;
      cart := c;
      control := 0x0C;
      chrBank0, chrBank1, prgBank := 0, 0, 0;
      shiftRegister, writeCount := 0, 0;
      wramDisableCounter, wramDisabled := 0, false;
    }

    /** Work RAM at $6000-$7FFF unless disabled; PRG-ROM at $8000-$FFFF through
        the bank the PRG mode selects. */
    method CPUMapRead(addr: Addr) returns (data: bv8, ok: bool)
      requires Valid()
      requires addr >= 0x8000 ==> Mmc1.PrgReadable(control, |prgROM| / 16384)
      ensures 0x6000 <= addr <= 0x7FFF ==> ok == !wramDisabled && data == (if ok then wram[addr - 0x6000] else 0)
      ensures addr >= 0x8000 ==> ok && data == prgROM[Mmc1.PrgIndex(control, prgBank, |prgROM| / 16384, addr)]
      ensures addr < 0x6000 ==> !ok && data == 0
    {
      if 0x6000 <= addr <= 0x7FFF {
        if !wramDisabled {
          return wram[addr - 0x6000], true;
        }
        return 0, false;
      } else if addr >= 0x8000 {
        var i := Mmc1.PrgIndex(control, prgBank, |prgROM| / 16384, addr);
        assert (|prgROM| / 16384) * 16384 <= |prgROM|;
        return prgROM[i], true;
      }
      return 0, false;
    }

    /** Work-RAM writes unless disabled; at $8000-$FFFF one step of the serial
        port (the reset test corrected to bit 7), and a loaded control register
        sets the cartridge's mirroring. */
    method CPUMapWrite(addr: Addr, data: bv8) returns (ok: bool)
      requires Valid()
      modifies this, wram, cart`Mirror
      ensures 0x6000 <= addr <= 0x7FFF ==>
        (ok == !old(wramDisabled) && Regs() == old(Regs())
         && wram[..] == (if ok then old(wram[..])[addr - 0x6000 := data] else old(wram[..]))
         && cart.Mirror == old(cart.Mirror))
      ensures addr >= 0x8000 ==>
        (ok && Regs() == Mmc1.SerialWrite(old(Regs()), addr, data)
         && wram[..] == old(wram[..])
         && cart.Mirror == (if Mmc1.CommitsControl(old(Regs()), addr, data) then Mmc1.Mirroring(control) else old(cart.Mirror)))
      ensures addr < 0x6000 ==> !ok && Regs() == old(Regs()) && wram[..] == old(wram[..]) && cart.Mirror == old(cart.Mirror)
    {
      if 0x6000 <= addr <= 0x7FFF {
        ok := WramWrite(addr, data);
      } else if addr >= 0x8000 {
        SerialPort(addr, data);
        ok := true;
      } else {
        ok := false;
      }
    }

    /** A work-RAM write, dropped while the work RAM is disabled. */
    method WramWrite(addr: Addr, data: bv8) returns (ok: bool)
      requires Valid() && 0x6000 <= addr <= 0x7FFF
      modifies wram
      ensures ok == !wramDisabled
      ensures wram[..] == if ok then old(wram[..])[addr - 0x6000 := data] else old(wram[..])
    {
      if !wramDisabled {
        wram[addr - 0x6000] := data;
        return true;
      }
      return false;
    }

    /** One write to the serial port at $8000-$FFFF. */
    method SerialPort(addr: Addr, data: bv8)
      modifies this, cart`Mirror
      ensures Regs() == Mmc1.SerialWrite(old(Regs()), addr, data)
      ensures cart.Mirror == if Mmc1.CommitsControl(old(Regs()), addr, data) then Mmc1.Mirroring(control) else old(cart.Mirror)
    {
      if Mmc1.IsReset(data) {
        shiftRegister := 0;
        writeCount := 0;
        control := control | 0x0C;
        return;
      }
      shiftRegister := (shiftRegister >> 1) | ((data & 1) << 4);
      writeCount := writeCount + 1;
      if writeCount == 5 {
        CommitShift(addr);
      }
    }

    /** The fifth write: the shift register goes to the register the address
        selects, and the port starts over. */
    method CommitShift(addr: Addr)
      modifies this, cart`Mirror
      ensures Regs() == Mmc1.Commit(old(Regs()), Mmc1.Target(addr), old(shiftRegister)).(shiftRegister := 0, writeCount := 0)
      ensures cart.Mirror == if Mmc1.Target(addr) == 0 then Mmc1.Mirroring(control) else old(cart.Mirror)
    {
      var target := Mmc1.Target(addr);
      if target == 0 {
        control := shiftRegister;
        cart.Mirror := GetMirroring();
      } else if target == 1 {
        chrBank0 := shiftRegister;
      } else if target == 2 {
        chrBank1 := shiftRegister;
      } else {
        prgBank := shiftRegister;
        if (prgBank >> 4) & 1 == 1 {
          wramDisableCounter := 2;
        } else {
          wramDisabled := false;
        }
      }
      shiftRegister := 0;
      writeCount := 0;
    }

    /** Pattern space through the 8 KB or 4 KB CHR banks. */
    method PPUMapRead(addr: Addr) returns (data: bv8, ok: bool)
      requires addr <= 0x1FFF ==> Mmc1.ChrReadable(control, chrROM.Length / 4096)
      ensures ok <==> addr <= 0x1FFF
      ensures ok ==> data == chrROM[Mmc1.ChrIndex(control, chrBank0, chrBank1, chrROM.Length / 4096, addr)]
      ensures !ok ==> data == 0
    {
      if addr <= 0x1FFF {
        var i := Mmc1.ChrIndex(control, chrBank0, chrBank1, chrROM.Length / 4096, addr);
        assert (chrROM.Length / 4096) * 4096 <= chrROM.Length;
        return chrROM[i], true;
      }
      return 0, false;
    }

    /** Pattern-space writes land, through the same banks, only in CHR-RAM. */
    method PPUMapWrite(addr: Addr, data: bv8) returns (ok: bool)
      requires addr <= 0x1FFF && chrRAM ==> Mmc1.ChrReadable(control, chrROM.Length / 4096)
      modifies chrROM
      ensures ok <==> addr <= 0x1FFF && chrRAM
      ensures chrROM[..] == if ok then old(chrROM[..])[Mmc1.ChrIndex(control, chrBank0, chrBank1, chrROM.Length / 4096, addr) := data]
                            else old(chrROM[..])
    {
      if addr <= 0x1FFF && chrRAM {
        var i := Mmc1.ChrIndex(control, chrBank0, chrBank1, chrROM.Length / 4096, addr);
        assert (chrROM.Length / 4096) * 4096 <= chrROM.Length;
        chrROM[i] := data;
        return true;
      }
      return false;
    }

    function GetMirroring(): bv8
      reads this
    {
      Mmc1.Mirroring(control)
    }

    /** One step of the work-RAM disable counter. */
    method Clock()
      modifies this
      ensures Regs() == Mmc1.Clock(old(Regs()))
    {
      if wramDisableCounter > 0 {
        wramDisableCounter := wramDisableCounter - 1;
        if wramDisableCounter == 0 {
          wramDisabled := true;
        }
      }
    }

    /** The encoded register record; it decodes back to the registers. */
    function Save(): (s: seq<bv8>)
      reads this
      ensures MapperState.DecodeMmc1(s) == Success(Regs())
    {
      MapperState.DecodeEncodeMmc1(Regs());
      MapperState.EncodeMmc1(Regs())
    }

    /** What `Load(b)` leaves: an empty record or a record that does not decode
        leaves the registers as they were. */
    ghost predicate Loaded(b: seq<bv8>, before: Mmc1.Regs, err: Option<string>)
      reads this
    {
      if |b| == 0 then err.None? && Regs() == before
      else match MapperState.DecodeMmc1(b)
        case Failure(e) => err == Some(e) && Regs() == before
        case Success(v) => err.None? && Regs() == v
    }

    method Load(b: seq<bv8>) returns (err: Option<string>)
      modifies this
      ensures Loaded(b, old(Regs()), err)
    {
      if |b| == 0 {
        return None;
      }
      match MapperState.DecodeMmc1(b) {
        case Failure(e) =>
          return Some(e);
        case Success(s) =>
          control, chrBank0, chrBank1, prgBank := s.control, s.chrBank0, s.chrBank1, s.prgBank;
          shiftRegister, writeCount := s.shiftRegister, s.writeCount;
          wramDisableCounter, wramDisabled := s.wramDisableCounter, s.wramDisabled;
          return None;
      }
    }
  }

  // ---------------------------------------------------------------------------
  // Mapper 4: MMC3

  class MMC3 {
    const prgROM: seq<bv8>
    const chrROM: array<bv8>
    const prgRAM: array<bv8>
    const chrRAM: bool
    const prgBanks: nat
    const chrBanks: nat
    var targetRegister: bv8
    var prgBankMode: bool
    var chrInversion: bool
    var registers: Mmc3.Bank8
    var irqCounter: bv8
    var irqLatch: bv8
    var irqReload: bool
    var irqEnabled: bool
    var irqPending: bool
    var lastA12: bool
    var a12Delay: int
    var fourScreen: bool
    var mirroring: bv8

    /** 8 KB PRG banks, 1 KB CHR banks, 8 KB of PRG-RAM apart from CHR memory. */
    ghost predicate Valid() {
      prgBanks == |prgROM| / 8192 && chrBanks == chrROM.Length / 1024
        && prgRAM.Length == 8192 && prgRAM != chrROM
    }

    /** The register record (`MMC3State`). */
    function Regs(): (r: Mmc3.Regs)
      reads this
    {
      Mmc3.Regs(targetRegister, prgBankMode, chrInversion, registers, irqCounter, irqLatch,
                irqReload, irqEnabled, irqPending, lastA12, a12Delay, fourScreen, mirroring)
    }

    /** `newMMC3`: mirroring taken from the cartridge code, all else zero. */
    constructor (c: Cartridge)
      ensures prgROM == c.PRGROM && chrROM == c.CHRROM && chrRAM == c.IsCHRRAM
      ensures fresh(prgRAM) && prgRAM[..] == seq(8192, _ => 0)
      ensures Regs() == Mmc3.PowerOn(c.Mirror) && Valid()
    {
      prgROM := c.PRGROM;
      chrROM := c.CHRROM;
      prgRAM := new bv8[8192](_ => 0);
      chrRAM := c.IsCHRRAM;
      prgBanks := |c.PRGROM| / 8192;
      chrBanks := c.CHRROM.Length / 1024;
      targetRegister, prgBankMode, chrInversion := 0, false, false;
      registers := [0, 0, 0, 0, 0, 0, 0, 0];
      irqCounter, irqLatch := 0, 0;
      irqReload, irqEnabled, irqPending, lastA12 := false, false, false, false;
      a12Delay := 0;
      fourScreen := c.Mirror & 4 != 0;
      mirroring := c.Mirror & 1;
    }

    /** PRG-RAM at $6000-$7FFF, PRG-ROM at $8000-$FFFF through `getPRGBank`; the
        source needs a bank to reduce by and the index inside the ROM. */
    method CPUMapRead(addr: Addr) returns (data: bv8, ok: bool)
      requires Valid()
      requires addr >= 0x8000 ==> prgBanks > 0 && 0 <= Mmc3.PrgIndex(Regs(), prgBanks, addr) < |prgROM|
      ensures 0x6000 <= addr <= 0x7FFF ==> ok && data == prgRAM[addr - 0x6000]
      ensures addr >= 0x8000 ==> ok && data == prgROM[Mmc3.PrgIndex(Regs(), prgBanks, addr)]
      ensures addr < 0x6000 ==> !ok && data == 0
    {
      if 0x6000 <= addr <= 0x7FFF {
        return prgRAM[addr - 0x6000], true;
      } else if addr >= 0x8000 {
        var bank := Mmc3.PrgBank(Regs(), prgBanks, addr);
        var mapped := bank * 8192 + addr % 0x2000;
        return prgROM[mapped], true;
      }
      return 0, false;
    }

    /** PRG-RAM writes, and the register writes of `Mmc3.CpuWrite`. */
    method CPUMapWrite(addr: Addr, data: bv8) returns (ok: bool)
      requires Valid() && Mmc3.WriteDefined(Regs(), addr)
      modifies this, prgRAM
      ensures ok <==> addr >= 0x6000
      ensures 0x6000 <= addr <= 0x7FFF ==> prgRAM[..] == old(prgRAM[..])[addr - 0x6000 := data] && Regs() == old(Regs())
      ensures addr >= 0x8000 ==> Regs() == Mmc3.CpuWrite(old(Regs()), addr, data) && prgRAM[..] == old(prgRAM[..])
      ensures addr < 0x6000 ==> Regs() == old(Regs()) && prgRAM[..] == old(prgRAM[..])
    {
      if 0x6000 <= addr <= 0x7FFF {
        prgRAM[addr - 0x6000] := data;
        return true;
      }
      if addr >= 0x8000 {
        RegisterWrite(addr, data);
        return true;
      }
      return false;
    }

    /** `CPUMapWrite` at $8000-$FFFF. */
    method RegisterWrite(addr: Addr, data: bv8)
      requires addr >= 0x8000 && Mmc3.WriteDefined(Regs(), addr)
      modifies this
      ensures Regs() == Mmc3.CpuWrite(old(Regs()), addr, data)
    {
      if addr <= 0x9FFF {
        BankWrite(addr, data);
      } else if addr <= 0xBFFF {
        MirroringWrite(addr, data);
      } else if addr <= 0xDFFF {
        IrqLatchWrite(addr, data);
      } else {
        IrqEnableWrite(addr, data);
      }
    }

    /** $8000-$9FFF: bank select (even) or bank data (odd). */
    method BankWrite(addr: Addr, data: bv8)
      requires 0x8000 <= addr <= 0x9FFF && Mmc3.WriteDefined(Regs(), addr)
      modifies this
      ensures Regs() == Mmc3.CpuWrite(old(Regs()), addr, data)
    {
      if addr % 2 == 0 {
        targetRegister := data & 0x07;
        prgBankMode := data & 0x40 != 0;
        chrInversion := data & 0x80 != 0;
      } else {
        registers := registers[targetRegister as int := data];
      }
    }

    /** $A000-$BFFF: mirroring (even); the RAM protect (odd) is ignored. */
    method MirroringWrite(addr: Addr, data: bv8)
      requires 0xA000 <= addr <= 0xBFFF
      modifies this
      ensures Regs() == Mmc3.CpuWrite(old(Regs()), addr, data)
    {
      if addr % 2 == 0 {
        mirroring := data & 1;
      }
    }

    /** $C000-$DFFF: IRQ latch (even) or IRQ reload (odd). */
    method IrqLatchWrite(addr: Addr, data: bv8)
      requires 0xC000 <= addr <= 0xDFFF
      modifies this
      ensures Regs() == Mmc3.CpuWrite(old(Regs()), addr, data)
    {
      if addr % 2 == 0 {
        irqLatch := data;
      } else {
        irqReload := true;
      }
    }

    /** $E000-$FFFF: IRQ disable and acknowledge (even) or IRQ enable (odd). */
    method IrqEnableWrite(addr: Addr, data: bv8)
      requires 0xE000 <= addr
      modifies this
      ensures Regs() == Mmc3.CpuWrite(old(Regs()), addr, data)
    {
      if addr % 2 == 0 {
        irqEnabled := false;
        irqPending := false;
      } else {
        irqEnabled := true;
      }
    }

    /** `checkA12` and `clockIRQ` on the fields. */
    method CheckA12(addr: Addr)
      modifies this
      ensures Regs() == Mmc3.CheckA12(old(Regs()), addr)
    {
      var a12 := Mmc3.A12(addr);
      if a12 && !lastA12 && a12Delay >= 2 {
        ClockIRQ();
      }
      if a12 {
        lastA12 := true;
        a12Delay := 0;
      } else {
        lastA12 := false;
      }
    }

    method ClockIRQ()
      modifies this
      ensures Regs() == Mmc3.ClockIrq(old(Regs()))
    {
      if irqCounter == 0 || irqReload {
        irqCounter := irqLatch;
        irqReload := false;
      } else {
        irqCounter := irqCounter - 1;
      }
      if irqCounter == 0 && irqEnabled {
        irqPending := true;
      }
    }

    /** A pattern-space read watches A12 and then reads through `getCHRBank`. */
    method PPUMapRead(addr: Addr) returns (data: bv8, ok: bool)
      requires Valid() && (addr <= 0x1FFF ==> chrBanks > 0)
      modifies this
      ensures ok <==> addr <= 0x1FFF
      ensures ok ==>
        (Regs() == Mmc3.CheckA12(old(Regs()), addr)
         && data == chrROM[Mmc3.ChrIndex(old(Regs()), chrBanks, addr)])
      ensures !ok ==> Regs() == old(Regs()) && data == 0
    {
      if addr <= 0x1FFF {
        CheckA12(addr);
        var bank := Mmc3.ChrBank(Regs(), chrBanks, addr);
        var mapped := bank * 1024 + addr % 0x400;
        assert chrBanks * 1024 <= chrROM.Length;
        return chrROM[mapped], true;
      }
      return 0, false;
    }

    /** A pattern-space write watches A12 even when CHR is ROM, and lands only in CHR-RAM. */
    method PPUMapWrite(addr: Addr, data: bv8) returns (ok: bool)
      requires Valid() && (addr <= 0x1FFF && chrRAM ==> chrBanks > 0)
      modifies this, chrROM
      ensures ok <==> addr <= 0x1FFF && chrRAM
      ensures Regs() == if addr <= 0x1FFF then Mmc3.CheckA12(old(Regs()), addr) else old(Regs())
      ensures chrROM[..] == if ok then old(chrROM[..])[Mmc3.ChrIndex(old(Regs()), chrBanks, addr) := data]
                            else old(chrROM[..])
    {
      if addr <= 0x1FFF {
        CheckA12(addr);
        if chrRAM {
          var bank := Mmc3.ChrBank(Regs(), chrBanks, addr);
          var mapped := bank * 1024 + addr % 0x400;
          assert chrBanks * 1024 <= chrROM.Length;
          chrROM[mapped] := data;
          return true;
        }
      }
      return false;
    }

    /** The debugger's read: the byte `PPUMapRead` returns, with no A12 effect. */
    method PPUDebugRead(addr: Addr) returns (data: bv8, ok: bool)
      requires Valid() && (addr <= 0x1FFF ==> chrBanks > 0)
      ensures ok <==> addr <= 0x1FFF
      ensures ok ==> data == chrROM[Mmc3.ChrIndex(Regs(), chrBanks, addr)]
      ensures !ok ==> data == 0
    {
      if addr <= 0x1FFF {
        var bank := Mmc3.ChrBank(Regs(), chrBanks, addr);
        var mapped := bank * 1024 + addr % 0x400;
        assert chrBanks * 1024 <= chrROM.Length;
        return chrROM[mapped], true;
      }
      return 0, false;
    }

    function GetMirroring(): bv8
      reads this
    {
      Mmc3.Mirroring(Regs())
    }

    /** Once per CPU cycle. */
    method Clock()
      modifies this
      ensures Regs() == Mmc3.Clock(old(Regs()))
    {
      if !lastA12 {
        a12Delay := a12Delay + 1;
      }
    }

    function IRQPending(): (p: bool)
      reads this
      ensures p == Regs().irqPending
    {
      irqPending
    }

    method ClearIRQ()
      modifies this
      ensures Regs() == old(Regs()).(irqPending := false)
    {
      irqPending := false;
    }

    /** The encoded register record; it decodes back to the registers. */
    function Save(): (s: seq<bv8>)
      reads this
      ensures MapperState.DecodeMmc3(s) == Success(Regs())
    {
      MapperState.DecodeEncodeMmc3(Regs());
      MapperState.EncodeMmc3(Regs())
    }

    /** What `Load(b)` leaves, as for MMC1. */
    ghost predicate Loaded(b: seq<bv8>, before: Mmc3.Regs, err: Option<string>)
      reads this
    {
      if |b| == 0 then err.None? && Regs() == before
      else match MapperState.DecodeMmc3(b)
        case Failure(e) => err == Some(e) && Regs() == before
        case Success(v) => err.None? && Regs() == v
    }

    /** The field-by-field assignment of a decoded record. */
    method SetRegs(s: Mmc3.Regs)
      modifies this
      ensures Regs() == s
    {
      targetRegister, prgBankMode, chrInversion, registers := s.targetRegister, s.prgBankMode, s.chrInversion, s.registers;
      irqCounter, irqLatch, irqReload, irqEnabled := s.irqCounter, s.irqLatch, s.irqReload, s.irqEnabled;
      irqPending, lastA12, fourScreen, a12Delay, mirroring := s.irqPending, s.lastA12, s.fourScreen, s.a12Delay, s.mirroring;
    }

    method Load(b: seq<bv8>) returns (err: Option<string>)
      modifies this
      ensures Loaded(b, old(Regs()), err)
    {
      if |b| == 0 {
        return None;
      }
      var d := MapperState.DecodeMmc3(b);
      if d.Failure? {
        return Some(d.error);
      }
      SetRegs(d.value);
      return None;
    }
  }
}
