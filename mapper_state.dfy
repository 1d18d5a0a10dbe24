/** The byte encoding of the MMC1 and MMC3 save records (`MMC1State`,
    `MMC3State`). The source hands the records to an external record codec;
    here it is a fixed layout of its own: one byte per byte field, 0 or 1 for
    a flag, and the one `int` field (`A12Delay`) as a zig-zag base-128 varint,
    so that every record, however large its integer, has an encoding. */
module MapperState {
  import opened Wrappers
  import Mmc1
  import Mmc3

  // ---------------------------------------------------------------------------
  // Flags and varints

  function FlagByte(b: bool): (v: bv8)
    ensures v == 0 || v == 1
    ensures v == 1 <==> b
  {
    if b then 1 else 0
  }

  /** Zig-zag: 0, -1, 1, -2, 2, ... become 0, 1, 2, 3, 4, ... */
  function Zigzag(n: int): (z: nat)
    ensures (z % 2 == 0) == (n >= 0)
  {
    if n >= 0 then 2 * n else -2 * n - 1
  }

  function Unzigzag(z: nat): (n: int)
  {
    if z % 2 == 0 then z / 2 else -(z + 1) / 2
  }

  lemma UnzigzagZigzag(n: int)
    ensures Unzigzag(Zigzag(n)) == n
  {
  }

  /** Base-128, least significant group first, bit 7 marking a continuation. */
  function Varint(z: nat): (s: seq<bv8>)
    ensures |s| >= 1 && s[|s| - 1] < 128
    ensures forall i :: 0 <= i < |s| - 1 ==> s[i] >= 128
    decreases z
  {
    if z < 128 then [z as bv8]
    else [(z % 128 + 128) as bv8] + Varint(z / 128)
  }

  /** The value of a varint at the front of `s` and its length in bytes, or
      None when `s` ends inside it. */
  function ReadVarint(s: seq<bv8>): (r: Option<(nat, nat)>)
    ensures r.Some? ==> 1 <= r.value.1 <= |s|
    decreases |s|
  {
    if s == [] then None
    else if s[0] < 128 then Some((s[0] as int, 1))
    else
      match ReadVarint(s[1..])
      case None => None
      case Some((v, k)) => Some((s[0] as int - 128 + 128 * v, k + 1))
  }

  lemma {:induction false} ReadVarintOfVarint(z: nat, rest: seq<bv8>)
    ensures ReadVarint(Varint(z) + rest) == Some((z, |Varint(z)|))
    decreases z
  {
    var s := Varint(z) + rest;
    if z < 128 {
      ByteOfNat(z);
      assert s[0] == z as bv8;
    } else {
      var lo, hi := z % 128, z / 128;
      ByteOfNat(lo + 128);
      assert s == [(lo + 128) as bv8] + (Varint(hi) + rest);
      ReadVarintOfVarint(hi, rest);
      ReadVarintCons((lo + 128) as bv8, Varint(hi) + rest);
      assert z == lo + 128 * hi;
    }
  }

  /** A continuation byte adds its low seven bits below the rest. */
  lemma ReadVarintCons(b: bv8, t: seq<bv8>)
    requires b >= 128
    ensures ReadVarint([b] + t) ==
      match ReadVarint(t)
      case None => None
      case Some((v, k)) => Some((b as int - 128 + 128 * v, k + 1))
  {
    assert ([b] + t)[1..] == t;
  }

  lemma ByteOfNat(n: nat)
    requires n < 256
    ensures (n as bv8) as int == n
    ensures (n as bv8 < 128) <==> n < 128
  {
  }

  // ---------------------------------------------------------------------------
  // MMC1State

  function EncodeMmc1(r: Mmc1.Regs): (s: seq<bv8>)
    ensures |s| == 8
  {
    [r.control, r.chrBank0, r.chrBank1, r.prgBank, r.shiftRegister, r.writeCount,
     r.wramDisableCounter, FlagByte(r.wramDisabled)]
  }

  /** Decoding fails on a record of the wrong length or a flag other than 0 or 1. */
  function DecodeMmc1(s: seq<bv8>): (r: Result<Mmc1.Regs, string>)
    ensures r.Success? <==> |s| == 8 && s[7] <= 1
    ensures r.Success? ==> EncodeMmc1(r.value) == s
  {
    if |s| != 8 || s[7] > 1 then Failure("mmc1 state: malformed record")
    else Success(Mmc1.Regs(s[0], s[1], s[2], s[3], s[4], s[5], s[6], s[7] == 1))
  }

  /** Every record reads back as itself. */
  lemma DecodeEncodeMmc1(r: Mmc1.Regs)
    ensures DecodeMmc1(EncodeMmc1(r)) == Success(r)
  {
  }

  // ---------------------------------------------------------------------------
  // MMC3State

  /** The bytes before the varint: target, two mode flags, R0-R7, counter,
      latch and five IRQ/mirroring flags. */
  function Mmc3Prefix(r: Mmc3.Regs): (s: seq<bv8>)
    ensures |s| == 18
  {
    [r.targetRegister, FlagByte(r.prgBankMode), FlagByte(r.chrInversion)]
      + r.registers
      + [r.irqCounter, r.irqLatch, FlagByte(r.irqReload), FlagByte(r.irqEnabled),
         FlagByte(r.irqPending), FlagByte(r.lastA12), FlagByte(r.fourScreen)]
  }

  function EncodeMmc3(r: Mmc3.Regs): (s: seq<bv8>)
    ensures |s| >= 20
  {
    Mmc3Prefix(r) + Varint(Zigzag(r.a12Delay)) + [r.mirroring]
  }

  predicate FlagsValid(s: seq<bv8>) {
    |s| >= 18 && s[1] <= 1 && s[2] <= 1 && s[13] <= 1 && s[14] <= 1 && s[15] <= 1
      && s[16] <= 1 && s[17] <= 1
  }

  /** Decoding fails on a short record, a flag other than 0 or 1, an unfinished
      varint, or bytes after the mirroring byte. */
  function DecodeMmc3(s: seq<bv8>): (r: Result<Mmc3.Regs, string>)
    ensures r.Success? ==> FlagsValid(s)
  {
    if !FlagsValid(s) then Failure("mmc3 state: malformed record")
    else
      match ReadVarint(s[18..])
      case None => Failure("mmc3 state: unexpected end")
      case Some((z, k)) =>
        if |s| != 18 + k + 1 then Failure("mmc3 state: malformed record")
        else
          Success(Mmc3.Regs(s[0], s[1] == 1, s[2] == 1, s[3..11], s[11], s[12],
                            s[13] == 1, s[14] == 1, s[15] == 1, s[16] == 1,
                            Unzigzag(z), s[17] == 1, s[18 + k]))
  }

  /** Every record, whatever its `A12Delay`, reads back as itself. */
  lemma DecodeEncodeMmc3(r: Mmc3.Regs)
    ensures DecodeMmc3(EncodeMmc3(r)) == Success(r)
  {
    var p := Mmc3Prefix(r);
    var v := Varint(Zigzag(r.a12Delay));
    var s := EncodeMmc3(r);
    assert s[..18] == p;
    assert s[18..] == v + [r.mirroring];
    ReadVarintOfVarint(Zigzag(r.a12Delay), [r.mirroring]);
    UnzigzagZigzag(r.a12Delay);
    assert s[3..11] == r.registers;
    assert s[18 + |v|] == r.mirroring;
  }
}
