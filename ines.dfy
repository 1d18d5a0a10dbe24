/** Decoding of the 16-byte iNES header (bytes 4 to 7) that `cartridge.New`
    reads from a ROM image, and the mapper dispatch of `NewMapper`. */
module Ines {
  import opened Wrappers
  import GoStrings

  const HeaderSize: nat := 16
  const PrgBankSize: nat := 16384
  const ChrBankSize: nat := 8192

  /** The mirroring codes of the cartridge package. */
  const MirrorHorizontal: bv8 := 0
  const MirrorVertical: bv8 := 1
  const MirrorOneScreenLower: bv8 := 2
  const MirrorOneScreenUpper: bv8 := 3
  const MirrorFourScreen: bv8 := 4

  /** Bytes of PRG-ROM announced by header byte 4 (in 16 KB units). */
  function PrgSize(data: seq<bv8>): (n: nat)
    requires |data| > 4
    ensures n % PrgBankSize == 0 && n / PrgBankSize == data[4] as int
  {
    data[4] as int * PrgBankSize
  }

  /** Bytes of CHR-ROM announced by header byte 5 (in 8 KB units); 0 means CHR-RAM. */
  function ChrSize(data: seq<bv8>): (n: nat)
    requires |data| > 5
    ensures n % ChrBankSize == 0 && n / ChrBankSize == data[5] as int
  {
    data[5] as int * ChrBankSize
  }

  /** The image is long enough for every index and slice `New` takes. The
      magic bytes 0-3 are not checked, as in the source. */
  predicate Sliceable(data: seq<bv8>) {
    |data| >= 8 && |data| >= HeaderSize + PrgSize(data) + ChrSize(data)
  }

  /** The PRG-ROM slice: the `PrgSize` bytes right after the header. */
  function PrgRom(data: seq<bv8>): (prg: seq<bv8>)
    requires Sliceable(data)
    ensures |prg| == PrgSize(data)
    ensures forall i :: 0 <= i < |prg| ==> prg[i] == data[HeaderSize + i]
  {
    data[HeaderSize..HeaderSize + PrgSize(data)]
  }

  /** The CHR-ROM slice right after the PRG-ROM (empty when byte 5 is 0). */
  function ChrRom(data: seq<bv8>): (chr: seq<bv8>)
    requires Sliceable(data)
    ensures |chr| == ChrSize(data)
    ensures forall i :: 0 <= i < |chr| ==> chr[i] == data[HeaderSize + PrgSize(data) + i]
  {
    data[HeaderSize + PrgSize(data)..HeaderSize + PrgSize(data) + ChrSize(data)]
  }

  /** The mapper number: its low nibble is the high nibble of flags 6, its high
      nibble the high nibble of flags 7. */
  function MapperId(flags6: bv8, flags7: bv8): (id: bv8)
    ensures id & 0x0F == flags6 >> 4
    ensures id & 0xF0 == flags7 & 0xF0
  {
    (flags6 >> 4) | (flags7 & 0xF0)
  }

  /** The mirroring code as the source computes it: bit 0 of flags 6, OR'd with
      bit 4 of flags 6 moved to bit 1. */
  function MirrorAsWritten(flags6: bv8): (m: bv8)
    ensures m < 4
    ensures m & 1 == flags6 & 1
    ensures m & 2 == (flags6 >> 3) & 2
  {
    (flags6 & 1) | ((flags6 >> 3) & 2)
  }

  /** The four-screen flag (bit 3) never reaches the code as written, and the
      low bit of the mapper number (bit 4) does. */
  lemma MirrorAsWrittenMisreadsFlags()
    ensures MirrorAsWritten(0x08) == MirrorHorizontal
    ensures MirrorAsWritten(0x10) == MirrorOneScreenLower
    ensures MirrorAsWritten(0x11) == MirrorOneScreenUpper
  {
  }

  /** The mirroring code as in the iNES format: four-screen when bit 3 of
      flags 6 is set, otherwise vertical or horizontal from bit 0. */
  function Mirror(flags6: bv8): (m: bv8)
    ensures m == MirrorFourScreen <==> flags6 & 0x08 != 0
    ensures m != MirrorFourScreen ==> m == flags6 & 1
    ensures m == MirrorHorizontal || m == MirrorVertical || m == MirrorFourScreen
  {
    if flags6 & 0x08 != 0 then MirrorFourScreen else flags6 & 1
  }

  /** Unlike the code as written, the mapper-number nibble does not affect the mirroring. */
  lemma MirrorIgnoresMapperNibble(flags6: bv8)
    ensures Mirror(flags6) == Mirror(flags6 & 0x0F)
    ensures MirrorAsWritten(flags6) != MirrorAsWritten(flags6 & 0x0F) <==> flags6 & 0x10 != 0
  {
  }

  /** The mapper kinds `NewMapper` can build. */
  datatype MapperKind = NromKind | Mmc1Kind

  /** `NewMapper`'s switch: 0 is NROM, 1 is MMC1, anything else is an error
      naming the number. */
  function MapperKindOf(id: bv8): (r: Result<MapperKind, string>)
    ensures r.Success? <==> id == 0 || id == 1
    ensures r == Success(NromKind) <==> id == 0
    ensures r == Success(Mmc1Kind) <==> id == 1
    ensures r.Failure? ==> r.error == "unsupported mapper: " + GoStrings.Itoa(id as int)
  {
    if id == 0 then Success(NromKind)
    else if id == 1 then Success(Mmc1Kind)
    else Failure("unsupported mapper: " + GoStrings.Itoa(id as int))
  }
}
