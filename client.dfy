/** The replay client: it reads a recorded script line by line, skips blank
    lines, comments and malformed lines, and turns every other line
    "<frames> <buttons>" into a controller message for player 1 held for that
    many frames. Opening the file, the connection to the emulator, the
    message stream and the waiting are not part of this model; the client's
    output is the sequence of commands it would send. */
module Client {
  import opened Wrappers
  import opened Api
  import GoStrings
  import Display

  // ---------------------------------------------------------------------------
  // parseButtons

  /** The button an upper-cased token names, if any. */
  function NameIndex(u: string): (o: Option<nat>)
    ensures o.Some? ==> o.value < 8 && Display.ButtonNames[o.value] == u
    ensures o.None? ==> u !in Display.ButtonNames
  {
    if u == "A" then Some(0)
    else if u == "B" then Some(1)
    else if u == "SELECT" then Some(2)
    else if u == "START" then Some(3)
    else if u == "UP" then Some(4)
    else if u == "DOWN" then Some(5)
    else if u == "LEFT" then Some(6)
    else if u == "RIGHT" then Some(7)
    else None
  }

  /** Each button name is matched by exactly its own button. */
  lemma NameIndexOfName(i: nat)
    requires i < 8
    ensures NameIndex(Display.ButtonNames[i]) == Some(i)
  {
    var n := Display.ButtonNames;
    assert n[0] == "A" && n[1] == "B" && n[2] == "SELECT" && n[3] == "START";
    assert n[4] == "UP" && n[5] == "DOWN" && n[6] == "LEFT" && n[7] == "RIGHT";
  }

  /** The switch of `parseButtons` on an upper-cased token: a button name
      sets that button, anything else is ignored. */
  function Press(s: InputState, u: string): InputState {
    match NameIndex(u)
    case None => s
    case Some(i) => s.(buttons := s.buttons[i := true])
  }

  /** A token holds button `j` exactly when it is that button's name. */
  lemma PressBit(s: InputState, u: string, j: nat)
    requires j < 8
    ensures Press(s, u).buttons[j] == (s.buttons[j] || u == Display.ButtonNames[j])
    ensures Press(s, u).playerIndex == s.playerIndex
  {
    NameIndexOfName(j);
  }

  /** The message `parseButtons` starts from: player 1, nothing held. */
  const Released := InputState(1, NoButtons)

  /** The message the tokens leave, one `Press` per upper-cased token. */
  function MentionedIn(tokens: seq<string>): InputState
    decreases |tokens|
  {
    if tokens == [] then Released
    else Press(MentionedIn(tokens[..|tokens| - 1]), GoStrings.ToUpper(tokens[|tokens| - 1]))
  }

  /** Some token, upper-cased, is the name of button `i`. */
  predicate Names(tokens: seq<string>, i: nat)
    requires i < 8
  {
    exists k :: 0 <= k < |tokens| && GoStrings.ToUpper(tokens[k]) == Display.ButtonNames[i]
  }

  /** `parseButtons`: "NONE" holds nothing, anything else holds the buttons
      its "+"-separated tokens name. */
  function Parsed(buttonStr: string): InputState {
    if buttonStr == "NONE" then Released
    else MentionedIn(GoStrings.Split(buttonStr, '+'))
  }

  /** A button is held exactly when some token names it, whatever the case
      of the token, and the player is 1. */
  lemma {:induction false} MentionedInNames(tokens: seq<string>, i: nat)
    requires i < 8
    ensures MentionedIn(tokens).buttons[i] <==> Names(tokens, i)
    ensures MentionedIn(tokens).playerIndex == 1
    decreases |tokens|
  {
    if tokens != [] {
      var init := tokens[..|tokens| - 1];
      var t := tokens[|tokens| - 1];
      MentionedInNames(init, i);
      PressBit(MentionedIn(init), GoStrings.ToUpper(t), i);
      if Names(tokens, i) && !Names(init, i) {
        var k :| 0 <= k < |tokens| && GoStrings.ToUpper(tokens[k]) == Display.ButtonNames[i];
      }
      if Names(init, i) {
        var k :| 0 <= k < |init| && GoStrings.ToUpper(init[k]) == Display.ButtonNames[i];
        assert tokens[k] == init[k];
      }
    } else {
      assert !NoButtons[i];
    }
  }

  /** The buttons of a "+"-concatenation are the union of the parts'
      buttons. */
  lemma MentionedUnion(a: seq<string>, b: seq<string>, i: nat)
    requires i < 8
    ensures MentionedIn(a + b).buttons[i] == (MentionedIn(a).buttons[i] || MentionedIn(b).buttons[i])
  {
    MentionedInNames(a + b, i);
    MentionedInNames(a, i);
    MentionedInNames(b, i);
    if Names(a + b, i) {
      var k :| 0 <= k < |a + b| && GoStrings.ToUpper((a + b)[k]) == Display.ButtonNames[i];
      if k < |a| {
        assert GoStrings.ToUpper(a[k]) == Display.ButtonNames[i];
      } else {
        assert GoStrings.ToUpper(b[k - |a|]) == Display.ButtonNames[i];
      }
    }
    if Names(a, i) {
      var k :| 0 <= k < |a| && GoStrings.ToUpper(a[k]) == Display.ButtonNames[i];
      assert (a + b)[k] == a[k];
    }
    if Names(b, i) {
      var k :| 0 <= k < |b| && GoStrings.ToUpper(b[k]) == Display.ButtonNames[i];
      assert (a + b)[|a| + k] == b[k];
    }
  }

  /** The order and the repetition of the tokens do not matter: tokens with
      the same upper-cased set give the same message. */
  lemma MentionedSameSet(a: seq<string>, b: seq<string>)
    requires forall t :: t in a ==> exists k :: 0 <= k < |b| && GoStrings.ToUpper(b[k]) == GoStrings.ToUpper(t)
    requires forall t :: t in b ==> exists k :: 0 <= k < |a| && GoStrings.ToUpper(a[k]) == GoStrings.ToUpper(t)
    ensures MentionedIn(a) == MentionedIn(b)
  {
    forall i | 0 <= i < 8
      ensures MentionedIn(a).buttons[i] == MentionedIn(b).buttons[i]
    {
      MentionedInNames(a, i);
      MentionedInNames(b, i);
      if Names(a, i) {
        var k :| 0 <= k < |a| && GoStrings.ToUpper(a[k]) == Display.ButtonNames[i];
        assert a[k] in a;
        var m :| 0 <= m < |b| && GoStrings.ToUpper(b[m]) == GoStrings.ToUpper(a[k]);
      }
      if Names(b, i) {
        var k :| 0 <= k < |b| && GoStrings.ToUpper(b[k]) == Display.ButtonNames[i];
        assert b[k] in b;
        var m :| 0 <= m < |a| && GoStrings.ToUpper(a[m]) == GoStrings.ToUpper(b[k]);
      }
    }
    MentionedInNames(a, 0);
    MentionedInNames(b, 0);
    assert MentionedIn(a).buttons == MentionedIn(b).buttons;
  }

  /** What `parseButtons` returns: player 1; nothing held for "NONE"; and
      otherwise button `i` held exactly when a token names it. */
  lemma ParsedMeaning(buttonStr: string, i: nat)
    requires i < 8
    ensures Parsed(buttonStr).playerIndex == 1
    ensures buttonStr == "NONE" ==> Parsed(buttonStr) == InputState(1, NoButtons)
    ensures buttonStr != "NONE" ==>
      (Parsed(buttonStr).buttons[i] <==> Names(GoStrings.Split(buttonStr, '+'), i))
  {
    MentionedInNames(GoStrings.Split(buttonStr, '+'), i);
  }

  /** The switch of `parseButtons` on one upper-cased token. */
  method PressToken(state: InputState, u: string) returns (state': InputState)
    ensures state' == Press(state, u)
  {
    state' := state;
    if u == "A" {
      state' := state'.(buttons := state'.buttons[0 := true]);
    } else if u == "B" {
      state' := state'.(buttons := state'.buttons[1 := true]);
    } else if u == "SELECT" {
      state' := state'.(buttons := state'.buttons[2 := true]);
    } else if u == "START" {
      state' := state'.(buttons := state'.buttons[3 := true]);
    } else if u == "UP" {
      state' := state'.(buttons := state'.buttons[4 := true]);
    } else if u == "DOWN" {
      state' := state'.(buttons := state'.buttons[5 := true]);
    } else if u == "LEFT" {
      state' := state'.(buttons := state'.buttons[6 := true]);
    } else if u == "RIGHT" {
      state' := state'.(buttons := state'.buttons[7 := true]);
    }
  }

  /** `parseButtons`, matching each token in turn. */
  method ParseButtons(buttonStr: string) returns (state: InputState)
    ensures state == Parsed(buttonStr)
  {
    state := InputState(1, NoButtons);
    if buttonStr == "NONE" {
      return;
    }
    var buttons := GoStrings.Split(buttonStr, '+');
    var k := 0;
    while k < |buttons|
      invariant 0 <= k <= |buttons|
      invariant state == MentionedIn(buttons[..k])
    {
      assert buttons[..k + 1][..k] == buttons[..k];
      state := PressToken(state, GoStrings.ToUpper(buttons[k]));
      k := k + 1;
    }
    assert buttons[..k] == buttons;
  }

  // ---------------------------------------------------------------------------
  // The script loop of main

  /** A message and the number of frames it is held. */
  datatype Command = Command(frames: int, state: InputState)

  /** One script line: blank lines and "#" comments are skipped, and so are
      lines that do not split on " " into exactly two fields and lines whose
      first field is not a Go `int`. */
  function ParseLine(raw: string): Option<Command> {
    var line := GoStrings.TrimSpace(raw);
    if line == "" || GoStrings.HasPrefix(line, "#") then None
    else
      var parts := GoStrings.Split(line, ' ');
      if |parts| != 2 then None
      else
        match GoStrings.Atoi(parts[0])
        case Failure(_) => None
        case Success(frames) => Some(Command(frames, Parsed(parts[1])))
  }

  /** The command a line sends, if any. */
  function Sends(o: Option<Command>): seq<Command> {
    match o
    case None => []
    case Some(c) => [c]
  }

  /** The results of `parse` on the lines it accepts, in order. */
  function Accepted(parse: string -> Option<Command>, lines: seq<string>): seq<Command>
    decreases |lines|
  {
    if lines == [] then []
    else Accepted(parse, lines[..|lines| - 1]) + Sends(parse(lines[|lines| - 1]))
  }

  /** The commands a script's lines give, in order. */
  function Commands(lines: seq<string>): seq<Command> {
    Accepted(ParseLine, lines)
  }

  /** Lines are handled independently: the lines of two scripts one after
      the other give the two scripts' results. */
  lemma {:induction false} AcceptedAppend(parse: string -> Option<Command>, a: seq<string>, b: seq<string>)
    ensures Accepted(parse, a + b) == Accepted(parse, a) + Accepted(parse, b)
    decreases |b|
  {
    if b != [] {
      var n := |b| - 1;
      var ab := a + b;
      AcceptedAppend(parse, a, b[..n]);
      assert ab[..|ab| - 1] == a + b[..n];
      assert ab[|ab| - 1] == b[n];
      var last := Sends(parse(b[n]));
      calc {
        Accepted(parse, ab);
        Accepted(parse, a + b[..n]) + last;
        (Accepted(parse, a) + Accepted(parse, b[..n])) + last;
        Accepted(parse, a) + (Accepted(parse, b[..n]) + last);
        Accepted(parse, a) + Accepted(parse, b);
      }
    } else {
      assert a + b == a;
    }
  }

  /** When every line is accepted, the results are all of them, in order. */
  lemma {:induction false} AcceptedAll(parse: string -> Option<Command>, lines: seq<string>, cs: seq<Command>)
    requires |cs| == |lines|
    requires forall i :: 0 <= i < |lines| ==> parse(lines[i]) == Some(cs[i])
    ensures Accepted(parse, lines) == cs
    decreases |lines|
  {
    if lines != [] {
      var n := |lines| - 1;
      AcceptedAll(parse, lines[..n], cs[..n]);
      assert parse(lines[n]) == Some(cs[n]);
      assert cs == cs[..n] + [cs[n]];
    }
  }

  /** Lines no one accepts, such as blank lines and comments, give nothing. */
  lemma {:induction false} AcceptedNone(parse: string -> Option<Command>, lines: seq<string>)
    requires forall i :: 0 <= i < |lines| ==> parse(lines[i]).None?
    ensures Accepted(parse, lines) == []
    decreases |lines|
  {
    if lines != [] {
      AcceptedNone(parse, lines[..|lines| - 1]);
    }
  }

  /** The body of the script loop for one line: the command it sends, if
      any. */
  method HandleLine(raw: string) returns (c: Option<Command>)
    ensures c == ParseLine(raw)
  {
    var line := GoStrings.TrimSpace(raw);
    if line == "" || GoStrings.HasPrefix(line, "#") {
      return None;
    }
    var parts := GoStrings.Split(line, ' ');
    if |parts| != 2 {
      return None;
    }
    var r := GoStrings.Atoi(parts[0]);
    if r.Failure? {
      return None;
    }
    var state := ParseButtons(parts[1]);
    return Some(Command(r.value, state));
  }

  /** The script loop: every line the scanner yields, in order, with the
      commands it sends. */
  method Replay(lines: seq<string>) returns (sent: seq<Command>)
    ensures sent == Commands(lines)
  {
    sent := [];
    var k := 0;
    while k < |lines|
      invariant 0 <= k <= |lines|
      invariant sent == Commands(lines[..k])
    {
      assert lines[..k + 1][..k] == lines[..k];
      var c := HandleLine(lines[k]);
      if c.Some? {
        sent := sent + [c.value];
      }
      k := k + 1;
    }
    assert lines[..k] == lines;
  }
}
