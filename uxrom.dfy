/** Address arithmetic of mapper 2 (UxROM): a switchable 16 KB PRG bank at
    $8000-$BFFF and the last 16 KB bank fixed at $C000-$FFFF. */
module Uxrom {
  import opened Wrappers
  import opened Word

  /** The PRG-ROM index of a CPU read. The source reduces the selected bank
      modulo the bank count, which panics with no PRG-ROM, and indexes the
      fixed bank with `prgBanks - 1`, negative with no PRG-ROM. */
  function CpuIndex(prgBanks: nat, bankSelect: nat, addr: Addr): (r: Option<nat>)
    requires addr >= 0x8000 ==> prgBanks > 0
    ensures r.None? <==> addr < 0x8000
    ensures r.Some? ==> r.value < prgBanks * 16384
    ensures addr >= 0xC000 ==> r == Some((prgBanks - 1) * 16384 + (addr - 0xC000))
    ensures 0x8000 <= addr < 0xC000 ==> r == Some((bankSelect % prgBanks) * 16384 + (addr - 0x8000))
  {
    if 0x8000 <= addr <= 0xBFFF then
      Some((bankSelect % prgBanks) * 16384 + (addr - 0x8000))
    else if addr >= 0xC000 then
      Some((prgBanks - 1) * 16384 + (addr - 0xC000))
    else None
  }

  /** The fixed window at $C000 does not depend on the bank select. */
  lemma FixedBankIgnoresSelect(prgBanks: nat, s1: nat, s2: nat, addr: Addr)
    requires prgBanks > 0 && addr >= 0xC000
    ensures CpuIndex(prgBanks, s1, addr) == CpuIndex(prgBanks, s2, addr)
  {
  }

  /** The bank select after a CPU write: any write to $8000-$FFFF replaces it
      with the data byte; other writes are not the mapper's. */
  function SelectAfterWrite(bankSelect: nat, addr: Addr, data: bv8): (s: nat)
    ensures addr >= 0x8000 ==> s == data as int && s < 256
    ensures addr < 0x8000 ==> s == bankSelect
  {
    if addr >= 0x8000 then data as int else bankSelect
  }
}
