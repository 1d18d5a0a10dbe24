/** Address arithmetic of mapper 3 (CNROM): fixed PRG-ROM laid out as in NROM
    (`Nrom.CpuIndex`) and a switchable 8 KB CHR bank. */
module Cnrom {
  import opened Word
  import Arith

  /** The CHR bank select after a write of `data` to $8000-$FFFF: the data
      reduced modulo the bank count, or unchanged when there are no banks. */
  function SelectAfterWrite(chrBanks: nat, bankSelect: nat, data: bv8): (s: nat)
    ensures chrBanks > 0 ==> s < chrBanks && s == data as int % chrBanks
    ensures chrBanks == 0 ==> s == bankSelect
    ensures chrBanks > 0 ==> s < 256
  {
    if chrBanks > 0 then
      // A byte is below 256, and so is its remainder by any bank count.
      assert data as int < chrBanks ==> data as int % chrBanks == data as int by {
        if data as int < chrBanks {
          Arith.DivUnique(data as int, chrBanks, 0, data as int);
        }
      }
      data as int % chrBanks
    else bankSelect
  }

  /** The CHR index of a PPU access in pattern space. */
  function ChrIndex(bankSelect: nat, addr: Addr): (i: nat)
    requires addr <= 0x1FFF
    ensures bankSelect * 8192 <= i < (bankSelect + 1) * 8192
    ensures i - bankSelect * 8192 == addr
  {
    bankSelect * 8192 + addr
  }

  /** While the select is below the bank count, every CHR index lies inside a
      CHR-ROM of `chrBanks` 8 KB banks. */
  lemma ChrIndexInBounds(chrBanks: nat, bankSelect: nat, addr: Addr)
    requires bankSelect < chrBanks && addr <= 0x1FFF
    ensures ChrIndex(bankSelect, addr) < chrBanks * 8192
  {
    assert (bankSelect + 1) * 8192 <= chrBanks * 8192;
  }

  /** CHR-RAM is a single 8 KB bank, so a select kept below the bank count is 0
      there and a write lands at the address itself. */
  lemma RamSelectIsZero(chrLen: nat, bankSelect: nat, addr: Addr)
    requires chrLen == 8192 && bankSelect < chrLen / 8192 && addr <= 0x1FFF
    ensures bankSelect == 0 && ChrIndex(bankSelect, addr) == addr
  {
  }
}
