/** The standard controller: eight button states (A, B, Select, Start, Up,
    Down, Left, Right), latched by a strobe write to $4016 and shifted out
    one bit per read in that order. */
module Controller {

  /** A controller's state: the eight buttons, the index of the next bit and
      the strobe latch. The index (a byte in the source) never passes 8, so
      it is a number here. */
  datatype Pad = Pad(buttons: seq<bool>, index: nat, strobe: bv8)

  /** The source's `[8]bool` has eight entries; the strobe holds bit 0 of a
      write and the index stops at 8. */
  predicate PadValid(p: Pad) {
    |p.buttons| == 8 && p.index <= 8 && p.strobe <= 1
  }

  /** The bit a button state reads as. */
  function Bit(pressed: bool): bv8 {
    if pressed then 1 else 0
  }

  /** `SetButtons`: replaces the button states. */
  function WithButtons(p: Pad, buttons: seq<bool>): Pad {
    p.(buttons := buttons)
  }

  /** `Write`: the strobe latches bit 0, and a high strobe restarts the
      shift register at A. */
  function Strobe(p: Pad, data: bv8): Pad {
    var s := data & 1;
    if s == 1 then p.(strobe := s, index := 0) else p.(strobe := s)
  }

  /** The value `Read` returns: 1 past the eighth bit, otherwise the bit of
      the current button. */
  function ReadValue(p: Pad): (v: bv8)
    requires |p.buttons| == 8
  {
    if p.index >= 8 then 1 else Bit(p.buttons[p.index])
  }

  /** The state after `Read`: the index moves on only below 8 and only with a
      low strobe. */
  function Advance(p: Pad): Pad {
    if p.index >= 8 then p
    else if p.strobe == 0 then p.(index := p.index + 1)
    else p
  }

  /** The values of `n` reads in a row. */
  function Reads(p: Pad, n: nat): (vs: seq<bv8>)
    requires |p.buttons| == 8
    ensures |vs| == n
    decreases n
  {
    if n == 0 then [] else [ReadValue(p)] + Reads(Advance(p), n - 1)
  }

  /** A strobe write latches bit 0; only a set bit 0 resets the index, and
      the buttons are kept. */
  lemma StrobeWrite(p: Pad, data: bv8)
    ensures var r := Strobe(p, data);
      && r.strobe == data & 1 && r.buttons == p.buttons
      && (data & 1 == 1 ==> r.index == 0)
      && (data & 1 == 0 ==> r.index == p.index)
  {
  }

  /** Setting the buttons leaves the index and the strobe alone. */
  lemma SetButtonsKeeps(p: Pad, buttons: seq<bool>)
    ensures WithButtons(p, buttons).index == p.index
    ensures WithButtons(p, buttons).strobe == p.strobe
    ensures WithButtons(p, buttons).buttons == buttons
  {
  }

  /** Every operation keeps the index at most 8 and the strobe a bit. */
  lemma ValidKept(p: Pad, data: bv8, buttons: seq<bool>)
    requires PadValid(p)
    ensures PadValid(Strobe(p, data))
    ensures PadValid(Advance(p))
    ensures |buttons| == 8 ==> PadValid(WithButtons(p, buttons))
  {
  }

  /** A read returns 0 or 1; it is 1 past the eighth bit and otherwise the
      current button's state. */
  lemma ReadIsBit(p: Pad)
    requires PadValid(p)
    ensures ReadValue(p) == 0 || ReadValue(p) == 1
    ensures p.index >= 8 ==> ReadValue(p) == 1
    ensures p.index < 8 ==> (ReadValue(p) == 1 <==> p.buttons[p.index])
  {
  }

  /** With a low strobe, reads from index `i` return the buttons from `i` on,
      then 1s. */
  lemma {:induction false} ShiftOut(p: Pad, n: nat)
    requires PadValid(p) && p.strobe == 0
    ensures forall j :: 0 <= j < n ==>
      Reads(p, n)[j] == if p.index + j < 8 then Bit(p.buttons[p.index + j]) else 1
    decreases n
  {
    if n > 0 {
      var q := Advance(p);
      ShiftOut(q, n - 1);
      assert Reads(p, n) == [ReadValue(p)] + Reads(q, n - 1);
      forall j | 0 <= j < n
        ensures Reads(p, n)[j] == if p.index + j < 8 then Bit(p.buttons[p.index + j]) else 1
      {
        if j > 0 {
          assert Reads(p, n)[j] == Reads(q, n - 1)[j - 1];
          if p.index < 8 {
            assert q.index == p.index + 1;
          } else {
            assert q == p;
          }
        }
      }
    }
  }

  /** Strobe high then low, and the next eight reads are A, B, Select, Start,
      Up, Down, Left, Right, after which every read is 1. */
  lemma StrobeThenEightReads(p: Pad, hi: bv8, lo: bv8, n: nat)
    requires PadValid(p) && hi & 1 == 1 && lo & 1 == 0
    ensures var q := Strobe(Strobe(p, hi), lo);
      && q.index == 0
      && forall j :: 0 <= j < n ==> Reads(q, n)[j] == if j < 8 then Bit(p.buttons[j]) else 1
  {
    var q := Strobe(Strobe(p, hi), lo);
    assert q == p.(strobe := 0, index := 0);
    ShiftOut(q, n);
  }

  /** While the strobe is high the index stays 0, so every read is A. */
  lemma {:induction false} StrobeHighRepeats(p: Pad, n: nat)
    requires PadValid(p) && p.strobe == 1 && p.index == 0
    ensures Advance(p) == p
    ensures forall j :: 0 <= j < n ==> Reads(p, n)[j] == Bit(p.buttons[0])
    decreases n
  {
    if n > 0 {
      StrobeHighRepeats(p, n - 1);
      assert Reads(p, n) == [ReadValue(p)] + Reads(p, n - 1);
    }
  }

  /** `Controller`: the button states, the read index and the strobe. */
  class Controller {
    var buttons: seq<bool>
    var index: nat
    var strobe: bv8

    function State(): Pad
      reads this
    {
      Pad(buttons, index, strobe)
    }

    ghost predicate Valid()
      reads this
    {
      PadValid(State())
    }

    /** `New`: no button pressed, index and strobe 0. */
    constructor ()
      ensures State() == Pad([false, false, false, false, false, false, false, false], 0, 0)
      ensures Valid()
    {
      buttons := [false, false, false, false, false, false, false, false];
      index := 0;
      strobe := 0;
    }

    method SetButtons(buttons': seq<bool>)
      requires |buttons'| == 8
      modifies this
      ensures State() == WithButtons(old(State()), buttons')
    {
      buttons := buttons';
    }

    method Write(data: bv8)
      modifies this
      ensures State() == Strobe(old(State()), data)
    {
      strobe := data & 1;
      if strobe == 1 {
        index := 0;
      }
    }

    method Read() returns (value: bv8)
      requires Valid()
      modifies this
      ensures value == ReadValue(old(State()))
      ensures State() == Advance(old(State()))
      ensures Valid()
    {
      if index >= 8 {
        return 1;
      }
      value := 0;
      if buttons[index] {
        value := 1;
      }
      if strobe == 0 {
        index := index + 1;
      }
    }
  }
}
