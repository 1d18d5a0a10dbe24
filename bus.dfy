/** The CPU bus as far as its 2 KB of internal RAM: $0000-$1FFF reach the
    RAM, which repeats every $800 bytes; nothing else is mapped here. */
module Bus {
  import opened Word

  const RamSize := 0x800

  /** The RAM cell an address in $0000-$1FFF reaches (`addr & 0x07FF`). */
  function RamIndex(addr: Addr): (i: nat)
    ensures i < RamSize
  {
    addr % 0x800
  }

  /** `Read`: the RAM cell for $0000-$1FFF, 0 above. */
  function Peek(ram: seq<bv8>, addr: Addr): bv8
    requires |ram| == RamSize
  {
    if addr <= 0x1FFF then ram[RamIndex(addr)] else 0
  }

  /** `Write`: stores into the RAM cell for $0000-$1FFF, ignores the rest. */
  function Poke(ram: seq<bv8>, addr: Addr, data: bv8): (r: seq<bv8>)
    requires |ram| == RamSize
    ensures |r| == RamSize
  {
    if addr <= 0x1FFF then ram[RamIndex(addr) := data] else ram
  }

  /** The RAM repeats every $800 bytes through $0000-$1FFF. */
  lemma Mirrors(ram: seq<bv8>, addr: Addr, k: nat)
    requires |ram| == RamSize && addr + k * 0x800 <= 0x1FFF
    ensures Peek(ram, addr + k * 0x800) == Peek(ram, addr)
    ensures Peek(ram, addr) == ram[addr % 0x800]
  {
    assert (addr + k * 0x800) % 0x800 == addr % 0x800;
  }

  /** Above $1FFF reads are 0 and writes change nothing. */
  lemma Unmapped(ram: seq<bv8>, addr: Addr, data: bv8)
    requires |ram| == RamSize && addr > 0x1FFF
    ensures Peek(ram, addr) == 0
    ensures Poke(ram, addr, data) == ram
  {
  }

  /** After a write every address with the same low 11 bits reads the byte
      written, and every other address reads what it read before. */
  lemma ReadAfterWrite(ram: seq<bv8>, a: Addr, b: Addr, data: bv8)
    requires |ram| == RamSize && a <= 0x1FFF
    ensures b <= 0x1FFF && b % 0x800 == a % 0x800 ==> Peek(Poke(ram, a, data), b) == data
    ensures b > 0x1FFF || b % 0x800 != a % 0x800 ==> Peek(Poke(ram, a, data), b) == Peek(ram, b)
  {
  }

  /** A write changes the one cell `a & 0x7FF` and no other. */
  lemma WriteIsLocal(ram: seq<bv8>, a: Addr, data: bv8)
    requires |ram| == RamSize && a <= 0x1FFF
    ensures Poke(ram, a, data)[a % 0x800] == data
    ensures forall i :: 0 <= i < RamSize && i != a % 0x800 ==> Poke(ram, a, data)[i] == ram[i]
  {
  }

  /** `Bus`, with its RAM (the CPU connection is not part of this model). */
  class Bus {
    const ram: array<bv8>

    /** `New`: the RAM starts zeroed. */
    constructor ()
      ensures fresh(ram) && ram.Length == RamSize
      ensures forall i :: 0 <= i < RamSize ==> ram[i] == 0
    {
      ram := new bv8[RamSize](_ => 0);
    }

    method Read(addr: Addr) returns (d: bv8)
      requires ram.Length == RamSize
      ensures d == Peek(ram[..], addr)
    {
      if addr <= 0x1FFF {
        return ram[addr % 0x800];
      }
      return 0;
    }

    method Write(addr: Addr, data: bv8)
      requires ram.Length == RamSize
      modifies ram
      ensures ram[..] == Poke(old(ram[..]), addr, data)
    {
      if addr <= 0x1FFF {
        ram[addr % 0x800] := data;
      }
    }
  }
}
