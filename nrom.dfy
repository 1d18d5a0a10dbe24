/** Address arithmetic of mapper 0 (NROM): 16 or 32 KB of PRG-ROM at $8000 and
    8 KB of CHR at $0000, with no bank switching. */
module Nrom {
  import opened Wrappers
  import opened Word

  /** The PRG-ROM index a CPU read at `addr` maps to. Only $8000-$FFFF is
      mapped ($6000-$7FFF falls through to the bus); with a single 16 KB bank
      the upper half repeats the lower. */
  function CpuIndex(prgBanks: int, addr: Addr): (r: Option<nat>)
    ensures r.None? <==> addr < 0x8000
    ensures r.Some? ==> r.value < 0x8000
    ensures r.Some? && prgBanks == 1 ==> r.value < 0x4000
  {
    if addr < 0x8000 then None
    else if prgBanks == 1 then Some((addr - 0x8000) % 0x4000)
    else Some(addr - 0x8000)
  }

  /** With one 16 KB bank, $C000+k reads the same byte as $8000+k. */
  lemma OneBankMirrors(k: nat)
    requires k < 0x4000
    ensures CpuIndex(1, 0x8000 + k) == CpuIndex(1, 0xC000 + k) == Some(k)
  {
  }

  /** With two banks (or any count other than one) the index is the offset from $8000. */
  lemma TwoBanksLinear(prgBanks: int, addr: Addr)
    requires prgBanks != 1 && addr >= 0x8000
    ensures CpuIndex(prgBanks, addr) == Some(addr - 0x8000)
  {
  }

  /** A PRG-ROM of one or two 16 KB banks is large enough for every mapped read. */
  lemma CpuIndexInBounds(prgLen: nat, addr: Addr)
    requires prgLen == 0x4000 || prgLen == 0x8000
    requires addr >= 0x8000
    ensures CpuIndex(prgLen / 0x4000, addr).value < prgLen
  {
  }

  /** Whether a PPU write is accepted: the address is pattern space and the
      CHR memory is 8 KB, the size the cartridge allocates as CHR-RAM. */
  predicate PpuWritable(chrLen: nat, addr: Addr) {
    addr <= 0x1FFF && chrLen == 8192
  }
}
