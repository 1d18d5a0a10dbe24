/** The PPU's current and temporary VRAM addresses (`vramAddr`,
    `vramTmpAddr`) as scroll registers: bits 0-4 coarse X, 5-9 coarse Y,
    10 and 11 the nametable select, 12-14 fine Y, and bit 15, which rendering
    never looks at. The writes to $2005 and $2006 build the temporary
    address; rendering increments the current one and copies parts of the
    temporary one into it. Each operation is stated on the fields: a mask
    `& m` of the source keeps the fields whose bits `m` covers, and `| x`
    puts `x` into fields that were cleared. The properties of each operation
    are lemmas, so that code using an operation does not carry them along. */
module Loopy {
  import opened Word

  // The fields, peeled off from the low end: each step divides by the width
  // of the field below.
  function CoarseX(v: Addr): nat { v % 32 }
  function CoarseY(v: Addr): nat { v / 32 % 32 }
  function NametableX(v: Addr): nat { v / 32 / 32 % 2 }
  function NametableY(v: Addr): nat { v / 32 / 32 / 2 % 2 }
  function FineY(v: Addr): nat { v / 32 / 32 / 2 / 2 % 8 }
  function Top(v: Addr): nat { v / 32 / 32 / 2 / 2 / 8 }

  /** The address with the given fields. */
  function Fields(top: nat, fineY: nat, ny: nat, nx: nat, coarseY: nat, coarseX: nat): (v: Addr)
    requires top < 2 && fineY < 8 && ny < 2 && nx < 2 && coarseY < 32 && coarseX < 32
    ensures v == top * 0x8000 + fineY * 0x1000 + ny * 0x800 + nx * 0x400 + coarseY * 32 + coarseX
  {
    (((((top * 8 + fineY) * 2 + ny) * 2 + nx) * 32 + coarseY) * 32) + coarseX
  }

  /** Division by a field's width or position is determined by quotient and
      remainder. */
  lemma Split(x: nat, w: nat, q: nat, r: nat)
    requires w in {2, 8, 32, 0x400, 0x1000}
    requires x == q * w + r && r < w
    ensures x / w == q && x % w == r
  {
    if w == 2 {
      assert x == 2 * q + r;
    } else if w == 8 {
      assert x == 8 * q + r;
    } else if w == 32 {
      assert x == 32 * q + r;
    } else if w == 0x400 {
      assert x == 0x400 * q + r;
    } else {
      assert x == 0x1000 * q + r;
    }
  }

  /** Every address is made of its fields. */
  lemma FieldsOfAddress(v: Addr)
    ensures Top(v) < 2
    ensures v == Fields(Top(v), FineY(v), NametableY(v), NametableX(v), CoarseY(v), CoarseX(v))
  {
    var q1 := v / 32;
    var q2 := q1 / 32;
    var q3 := q2 / 2;
    var q4 := q3 / 2;
    var q5 := q4 / 8;
    assert v == q1 * 32 + v % 32;
    assert q1 == q2 * 32 + q1 % 32;
    assert q2 == q3 * 2 + q2 % 2;
    assert q3 == q4 * 2 + q3 % 2;
    assert q4 == q5 * 8 + q4 % 8;
  }

  /** The fields of `Fields(...)` are the ones it was given. */
  lemma FieldsRoundTrip(top: nat, fineY: nat, ny: nat, nx: nat, coarseY: nat, coarseX: nat)
    requires top < 2 && fineY < 8 && ny < 2 && nx < 2 && coarseY < 32 && coarseX < 32
    ensures var v := Fields(top, fineY, ny, nx, coarseY, coarseX);
      Top(v) == top && FineY(v) == fineY && NametableY(v) == ny && NametableX(v) == nx
        && CoarseY(v) == coarseY && CoarseX(v) == coarseX
  {
    var q4 := top * 8 + fineY;
    var q3 := q4 * 2 + ny;
    var q2 := q3 * 2 + nx;
    var q1 := q2 * 32 + coarseY;
    var v := q1 * 32 + coarseX;
    Split(v, 32, q1, coarseX);
    Split(q1, 32, q2, coarseY);
    Split(q2, 2, q3, nx);
    Split(q3, 2, q4, ny);
    Split(q4, 8, top, fineY);
  }

  // ---------------------------------------------------------------------------
  // $2005 (PPUSCROLL)

  /** First write, `(t & 0xFFE0) | (data >> 3)`: coarse X from data bits 3-7
      (fine X, bits 0-2, goes to its own register); the other fields are kept. */
  function ScrollFirst(t: Addr, data: bv8): Addr {
    Fields(Top(t), FineY(t), NametableY(t), NametableX(t), CoarseY(t), (data as int) / 8)
  }

  lemma ScrollFirstSetsCoarseX(t: Addr, data: bv8)
    ensures var u := ScrollFirst(t, data);
      && CoarseX(u) == (data as int) / 8
      && CoarseY(u) == CoarseY(t) && NametableX(u) == NametableX(t) && NametableY(u) == NametableY(t)
      && FineY(u) == FineY(t) && Top(u) == Top(t)
  {
    FieldsOfAddress(t);
    FieldsRoundTrip(Top(t), FineY(t), NametableY(t), NametableX(t), CoarseY(t), (data as int) / 8);
  }

  /** The coarse Y half of the second write, `(t & 0x8C1F) | ((data & 0xF8) << 2)`:
      data bits 3-7 into coarse Y, with fine Y cleared. */
  function ScrollCoarseY(t: Addr, data: bv8): Addr {
    Fields(Top(t), 0, NametableY(t), NametableX(t), (data as int) / 8, CoarseX(t))
  }

  /** The second write as the source writes it: the fine Y step,
      `(t & 0xFBE0) | ((data & 0x07) << 12)`, clears coarse X and nametable
      X as well. */
  function ScrollSecondAsWritten(t: Addr, data: bv8): Addr {
    var t1 := ScrollCoarseY(t, data);
    Fields(Top(t1), (data as int) % 8, NametableY(t1), 0, CoarseY(t1), 0)
  }

  /** The second write as intended, fine Y with mask 0x8FFF: coarse Y from
      data bits 3-7 and fine Y from data bits 0-2; everything else kept. */
  function ScrollSecond(t: Addr, data: bv8): Addr {
    var t1 := ScrollCoarseY(t, data);
    Fields(Top(t1), (data as int) % 8, NametableY(t1), NametableX(t1), CoarseY(t1), CoarseX(t1))
  }

  lemma ScrollSecondSetsCoarseAndFineY(t: Addr, data: bv8)
    ensures var u := ScrollSecond(t, data);
      && CoarseY(u) == (data as int) / 8 && FineY(u) == (data as int) % 8
      && CoarseX(u) == CoarseX(t) && NametableX(u) == NametableX(t)
      && NametableY(u) == NametableY(t) && Top(u) == Top(t)
  {
    var t1 := ScrollCoarseY(t, data);
    FieldsRoundTrip(Top(t), 0, NametableY(t), NametableX(t), (data as int) / 8, CoarseX(t));
    FieldsRoundTrip(Top(t1), (data as int) % 8, NametableY(t1), NametableX(t1), CoarseY(t1), CoarseX(t1));
  }

  /** The two writes set the scroll position in full and keep the nametable
      select and bit 15. */
  lemma ScrollWritesSetScroll(t: Addr, d1: bv8, d2: bv8)
    ensures var u := ScrollSecond(ScrollFirst(t, d1), d2);
      && CoarseX(u) == (d1 as int) / 8 && CoarseY(u) == (d2 as int) / 8 && FineY(u) == (d2 as int) % 8
      && NametableX(u) == NametableX(t) && NametableY(u) == NametableY(t) && Top(u) == Top(t)
  {
    var u1 := ScrollFirst(t, d1);
    FieldsRoundTrip(Top(t), FineY(t), NametableY(t), NametableX(t), CoarseY(t), (d1 as int) / 8);
    ScrollSecondSetsCoarseAndFineY(u1, d2);
  }

  /** As written, the second write always leaves coarse X and nametable X at
      0, whatever the first write and the earlier nametable select asked for
      (a first write of $28 asks for coarse X 5); fine Y and coarse Y are as
      intended. */
  lemma ScrollSecondAsWrittenLosesFields(t: Addr, data: bv8)
    ensures var u := ScrollSecondAsWritten(t, data);
      && CoarseX(u) == 0 && NametableX(u) == 0
      && CoarseY(u) == (data as int) / 8 && FineY(u) == (data as int) % 8
      && NametableY(u) == NametableY(t) && Top(u) == Top(t)
  {
    var t1 := ScrollCoarseY(t, data);
    FieldsRoundTrip(Top(t), 0, NametableY(t), NametableX(t), (data as int) / 8, CoarseX(t));
    FieldsRoundTrip(Top(t1), (data as int) % 8, NametableY(t1), 0, CoarseY(t1), 0);
  }

  // ---------------------------------------------------------------------------
  // $2006 (PPUADDR)

  /** First write, `(t & 0x00FF) | ((data & 0x3F) << 8)`: bits 8-13 from data
      bits 0-5, bits 14-15 cleared, the low byte kept. */
  function AddrHigh(t: Addr, data: bv8): Addr {
    ((data as int) % 64) * 256 + t % 256
  }

  /** Second write, `(t & 0xFF00) | data`: the low byte. */
  function AddrLow(t: Addr, data: bv8): Addr {
    t / 256 * 256 + data as int
  }

  lemma AddrWritesSetBytes(t: Addr, data: bv8)
    ensures AddrHigh(t, data) / 256 == (data as int) % 64 && AddrHigh(t, data) % 256 == t % 256
    ensures AddrLow(t, data) % 256 == data as int && AddrLow(t, data) / 256 == t / 256
  {
  }

  /** The two writes give a 14-bit address whatever was there before. */
  lemma AddrWritesSetAddress(t: Addr, hi: bv8, lo: bv8)
    ensures AddrLow(AddrHigh(t, hi), lo) == ((hi as int) % 64) * 256 + lo as int
    ensures AddrLow(AddrHigh(t, hi), lo) < 0x4000
  {
  }

  // ---------------------------------------------------------------------------
  // Rendering

  /** The horizontal increment: at coarse X 31, `v &^= 0x001F; v ^= 0x0400`,
      otherwise `v++`. */
  function IncrementX(v: Addr): Addr {
    if CoarseX(v) == 31 then Fields(Top(v), FineY(v), NametableY(v), 1 - NametableX(v), CoarseY(v), 0)
    else v + 1
  }

  /** Coarse X 31 wraps to 0 and switches to the horizontally adjacent
      nametable; otherwise coarse X counts up; the vertical fields stay. */
  lemma IncrementXWraps(v: Addr)
    ensures CoarseX(v) == 31 ==> CoarseX(IncrementX(v)) == 0 && NametableX(IncrementX(v)) == 1 - NametableX(v)
    ensures CoarseX(v) < 31 ==> CoarseX(IncrementX(v)) == CoarseX(v) + 1 && NametableX(IncrementX(v)) == NametableX(v)
    ensures var u := IncrementX(v);
      CoarseY(u) == CoarseY(v) && NametableY(u) == NametableY(v) && FineY(u) == FineY(v) && Top(u) == Top(v)
  {
    if CoarseX(v) == 31 {
      FieldsRoundTrip(Top(v), FineY(v), NametableY(v), 1 - NametableX(v), CoarseY(v), 0);
    }
  }

  /** The vertical increment: below fine Y 7, `v += 0x1000`; at fine Y 7, fine
      Y is cleared and coarse Y steps, wrapping at 29 with `v ^= 0x0800` or
      at 31 without. */
  function IncrementY(v: Addr): Addr {
    if FineY(v) != 7 then v + 0x1000
    else
      var y := CoarseY(v);
      if y == 29 then Fields(Top(v), 0, 1 - NametableY(v), NametableX(v), 0, CoarseX(v))
      else if y == 31 then Fields(Top(v), 0, NametableY(v), NametableX(v), 0, CoarseX(v))
      else Fields(Top(v), 0, NametableY(v), NametableX(v), y + 1, CoarseX(v))
  }

  /** Below 7, fine Y counts up and nothing else changes. */
  lemma IncrementYFine(v: Addr)
    requires FineY(v) < 7
    ensures IncrementY(v) == Fields(Top(v), FineY(v) + 1, NametableY(v), NametableX(v), CoarseY(v), CoarseX(v))
  {
    FieldsOfAddress(v);
  }

  /** From fine Y 7, fine Y wraps to 0 and coarse Y counts up, wrapping at 29
      with a switch to the vertically adjacent nametable, or at 31 (rows 30
      and 31 are attribute memory) without one; the horizontal fields stay. */
  lemma IncrementYRow(v: Addr)
    requires FineY(v) == 7
    ensures FineY(IncrementY(v)) == 0
    ensures CoarseY(v) == 29 ==> CoarseY(IncrementY(v)) == 0 && NametableY(IncrementY(v)) == 1 - NametableY(v)
    ensures CoarseY(v) == 31 ==> CoarseY(IncrementY(v)) == 0 && NametableY(IncrementY(v)) == NametableY(v)
    ensures CoarseY(v) != 29 && CoarseY(v) != 31 ==>
      CoarseY(IncrementY(v)) == CoarseY(v) + 1 && NametableY(IncrementY(v)) == NametableY(v)
    ensures var u := IncrementY(v); CoarseX(u) == CoarseX(v) && NametableX(u) == NametableX(v) && Top(u) == Top(v)
  {
    var y := CoarseY(v);
    if y == 29 {
      FieldsRoundTrip(Top(v), 0, 1 - NametableY(v), NametableX(v), 0, CoarseX(v));
    } else if y == 31 {
      FieldsRoundTrip(Top(v), 0, NametableY(v), NametableX(v), 0, CoarseX(v));
    } else {
      FieldsRoundTrip(Top(v), 0, NametableY(v), NametableX(v), y + 1, CoarseX(v));
    }
  }

  /** At cycle 257, `(v & 0xFBE0) | (t & 0x041F)`: coarse X and nametable X
      come from the temporary address. */
  function TransferX(v: Addr, t: Addr): Addr {
    Fields(Top(v), FineY(v), NametableY(v), NametableX(t), CoarseY(v), CoarseX(t))
  }

  /** During the pre-render line, `(v & 0x841F) | (t & 0x7BE0)`: coarse Y,
      nametable Y and fine Y come from the temporary address. */
  function TransferY(v: Addr, t: Addr): Addr {
    Fields(Top(v), FineY(t), NametableY(t), NametableX(v), CoarseY(t), CoarseX(v))
  }

  /** The two copies together take bits 0-14 from the temporary address, in
      either order. */
  lemma TransfersRestoreScroll(v: Addr, t: Addr)
    ensures TransferX(TransferY(v, t), t) == TransferY(TransferX(v, t), t)
    ensures TransferX(TransferY(v, t), t)
      == Fields(Top(v), FineY(t), NametableY(t), NametableX(t), CoarseY(t), CoarseX(t))
  {
    FieldsRoundTrip(Top(v), FineY(t), NametableY(t), NametableX(v), CoarseY(t), CoarseX(v));
    FieldsRoundTrip(Top(v), FineY(v), NametableY(v), NametableX(t), CoarseY(v), CoarseX(t));
  }
}
