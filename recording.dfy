/** The input recorder's file read back by the replay client: every record
    line the recorder writes is a script line the client accepts, and it
    sends exactly the button state and the frame count of that run. */
module Recording {
  import opened Wrappers
  import opened Api
  import GoStrings
  import Display
  import Client

  predicate Capital(c: char) {
    'A' <= c <= 'Z'
  }

  /** Every button name is a non-empty word of capitals. */
  lemma NameCapitals(t: string)
    requires t in Display.ButtonNames
    ensures t != [] && forall k :: 0 <= k < |t| ==> Capital(t[k])
  {
  }

  /** The button field is a non-empty word of capitals and "+" signs that
      ends in a capital. */
  lemma FieldChars(b: Buttons)
    ensures var f := Display.ButtonField(b);
      && f != [] && Capital(f[|f| - 1])
      && forall k :: 0 <= k < |f| ==> f[k] == '+' || Capital(f[k])
  {
    var names := Display.PressedNames(b);
    if |names| > 0 {
      Display.PressedUpToPlain(b, |b|);
      var f := GoStrings.Join(names, '+');
      NameCapitals(names[|names| - 1]);
      GoStrings.JoinLast(names, '+');
      forall k | 0 <= k < |f|
        ensures f[k] == '+' || Capital(f[k])
      {
        GoStrings.JoinChars(names, '+', f[k]);
        if f[k] != '+' {
          var m :| 0 <= m < |names| && f[k] in names[m];
          NameCapitals(names[m]);
        }
      }
    }
  }

  /** The names `writeRecord` lists, read back one by one, hold exactly
      the pressed buttons. */
  lemma NamesParse(b: Buttons, i: nat)
    requires i < 8
    ensures Client.MentionedIn(Display.PressedNames(b)).buttons[i] == b[i]
  {
    var names := Display.PressedNames(b);
    Display.PressedUpToPlain(b, |b|);
    Client.MentionedInNames(names, i);
    Display.PressedUpToNames(b, |b|, Display.ButtonNames[i]);
    if Client.MentionedIn(names).buttons[i] {
      var k :| 0 <= k < |names| && GoStrings.ToUpper(names[k]) == Display.ButtonNames[i];
      NameCapitals(names[k]);
      GoStrings.ToUpperOfCapitals(names[k]);
      assert names[k] in names;
      var j :| 0 <= j < 8 && b[j] && Display.ButtonNames[i] == Display.ButtonNames[j];
      Client.NameIndexOfName(i);
      Client.NameIndexOfName(j);
    }
    if b[i] {
      var k :| 0 <= k < |names| && names[k] == Display.ButtonNames[i];
      NameCapitals(names[k]);
      GoStrings.ToUpperOfCapitals(names[k]);
    }
  }

  /** A field that lists names splits on "+" back into those names, and it
      is never "NONE". */
  lemma FieldSplits(b: Buttons)
    requires |Display.PressedNames(b)| > 0
    ensures var names := Display.PressedNames(b);
      var f := GoStrings.Join(names, '+');
      GoStrings.Split(f, '+') == names && f != "NONE"
  {
    var names := Display.PressedNames(b);
    Display.PressedUpToPlain(b, |b|);
    forall m | 0 <= m < |names|
      ensures '+' !in names[m]
    {
      NameCapitals(names[m]);
    }
    GoStrings.SplitJoin(names, '+');
    GoStrings.SplitNoSeparator("NONE", '+');
    assert names[0] in Display.ButtonNames;
  }

  /** `parseButtons` reads the button field `writeRecord` writes back as
      the same buttons, for player 1. */
  lemma ButtonFieldParses(b: Buttons)
    ensures Client.Parsed(Display.ButtonField(b)) == InputState(1, b)
  {
    var names := Display.PressedNames(b);
    if |names| == 0 {
      Display.PressedUpToEmpty(b, |b|);
      assert b == NoButtons;
    } else {
      FieldSplits(b);
      var s := Client.MentionedIn(names);
      forall i | 0 <= i < 8
        ensures s.buttons[i] == b[i]
      {
        NamesParse(b, i);
      }
      Client.MentionedInNames(names, 0);
      assert s.buttons == b;
    }
  }

  /** A record line as the scanner yields it, without its newline. */
  function LineText(r: Display.Run): string {
    GoStrings.Itoa(r.count) + " " + Display.ButtonField(r.buttons)
  }

  /** A record line is the run's count in decimal, one space and the
      button field; it holds no newline and does not end in a carriage
      return. */
  lemma LineChars(r: Display.Run)
    requires r.count >= 0
    ensures var d := GoStrings.Itoa(r.count);
      var f := Display.ButtonField(r.buttons);
      && LineText(r) == d + [' '] + f
      && f != [] && ' ' !in d && ' ' !in f && '#' != d[0]
      && !GoStrings.IsSpace(d[0]) && !GoStrings.IsSpace(f[|f| - 1])
    ensures '\n' !in LineText(r) && GoStrings.DropCR(LineText(r)) == LineText(r)
  {
    var d := GoStrings.Itoa(r.count);
    var f := Display.ButtonField(r.buttons);
    var line := LineText(r);
    FieldChars(r.buttons);
    assert line == d + [' '] + f;
    forall k | 0 <= k < |line|
      ensures line[k] != '\n'
    {
      if k < |d| {
        assert line[k] == d[k];
      } else if k > |d| {
        assert line[k] == f[k - |d| - 1];
      }
    }
    assert line[|line| - 1] == f[|f| - 1];
  }

  /** Every record line is a script line: it is accepted and sends the run's
      buttons for player 1, held for the run's frame count. */
  lemma LineParses(r: Display.Run)
    requires r.count <= GoStrings.MaxInt64
    ensures Client.ParseLine(LineText(r)) == Some(Client.Command(r.count, InputState(1, r.buttons)))
  {
    var d := GoStrings.Itoa(r.count);
    var f := Display.ButtonField(r.buttons);
    var line := LineText(r);
    LineChars(r);
    assert line[0] == d[0] && line[|line| - 1] == f[|f| - 1];
    GoStrings.TrimSpaceKeeps(line);
    assert line[..1] != "#";
    assert !GoStrings.HasPrefix(line, "#");
    GoStrings.SplitAfterPart(d, ' ', f);
    GoStrings.SplitNoSeparator(f, ' ');
    assert GoStrings.Split(line, ' ') == [d, f];
    GoStrings.AtoiItoa(r.count);
    ButtonFieldParses(r.buttons);
  }

  /** `f` of every run, oldest first. */
  function MapRuns(f: Display.Run -> string, runs: seq<Display.Run>): (ls: seq<string>)
    ensures |ls| == |runs|
    decreases |runs|
  {
    if runs == [] then []
    else MapRuns(f, runs[..|runs| - 1]) + [f(runs[|runs| - 1])]
  }

  /** Entry `i` is `f` of run `i`. */
  lemma {:induction false} MapRunsAt(f: Display.Run -> string, runs: seq<Display.Run>, i: nat)
    requires i < |runs|
    ensures MapRuns(f, runs)[i] == f(runs[i])
    decreases |runs|
  {
    var init := runs[..|runs| - 1];
    if i < |init| {
      MapRunsAt(f, init, i);
      assert runs[i] == init[i];
    }
  }

  /** The lines of a sequence of runs, oldest first. */
  function Lines(runs: seq<Display.Run>): seq<string> {
    MapRuns(LineText, runs)
  }

  /** The recorder's text is its lines, each closed by a newline. */
  lemma {:induction false} SerializeLines(runs: seq<Display.Run>)
    ensures Display.Serialize(runs) == GoStrings.Unlines(Lines(runs))
    decreases |runs|
  {
    if runs != [] {
      var init := runs[..|runs| - 1];
      var last := runs[|runs| - 1];
      SerializeLines(init);
      GoStrings.UnlinesSnoc(Lines(init), LineText(last));
    }
  }

  /** No record line holds a newline or ends in a carriage return. */
  lemma LinesClean(runs: seq<Display.Run>)
    ensures var ls := Lines(runs);
      forall i :: 0 <= i < |ls| ==> '\n' !in ls[i] && GoStrings.DropCR(ls[i]) == ls[i]
  {
    var ls := Lines(runs);
    forall i | 0 <= i < |ls|
      ensures '\n' !in ls[i] && GoStrings.DropCR(ls[i]) == ls[i]
    {
      MapRunsAt(LineText, runs, i);
      LineChars(runs[i]);
    }
  }

  /** The client's scanner splits the recorder's text back into its lines. */
  lemma ScanRecording(runs: seq<Display.Run>)
    ensures GoStrings.ScanLines(Display.Serialize(runs)) == Lines(runs)
  {
    LinesClean(runs);
    SerializeLines(runs);
    GoStrings.ScanLinesUnlines(Lines(runs));
  }

  /** The script loop over the lines of a sequence of runs sends one command
      per run, in order. */
  lemma CommandsOfLines(runs: seq<Display.Run>)
    requires forall i :: 0 <= i < |runs| ==> runs[i].count <= GoStrings.MaxInt64
    ensures var cs := Client.Commands(Lines(runs));
      && |cs| == |runs|
      && forall i :: 0 <= i < |runs| ==> cs[i] == Client.Command(runs[i].count, InputState(1, runs[i].buttons))
  {
    var ls := Lines(runs);
    var cs := seq(|runs|, i requires 0 <= i < |runs| => Client.Command(runs[i].count, InputState(1, runs[i].buttons)));
    forall i | 0 <= i < |ls|
      ensures Client.ParseLine(ls[i]) == Some(cs[i])
    {
      MapRunsAt(LineText, runs, i);
      LineParses(runs[i]);
    }
    Client.AcceptedAll(Client.ParseLine, ls, cs);
  }

  /** Replaying a sequence of runs written by the recorder sends exactly
      those runs: player 1's buttons of each run, held for its frames. */
  lemma ReplayRuns(runs: seq<Display.Run>)
    requires forall i :: 0 <= i < |runs| ==> runs[i].count <= GoStrings.MaxInt64
    ensures var cs := Client.Commands(GoStrings.ScanLines(Display.Serialize(runs)));
      && |cs| == |runs|
      && forall i :: 0 <= i < |runs| ==> cs[i] == Client.Command(runs[i].count, InputState(1, runs[i].buttons))
  {
    ScanRecording(runs);
    CommandsOfLines(runs);
  }

  /** No run is longer than the frames the runs stand for. */
  lemma {:induction false} RunCountBound(runs: seq<Display.Run>, i: nat)
    requires i < |runs|
    ensures runs[i].count <= |Display.Expand(runs)|
    decreases |runs|
  {
    var init := runs[..|runs| - 1];
    if i < |init| {
      RunCountBound(init, i);
    }
  }

  /** End to end: after the frames `h` are recorded, the client replaying
      the file sends one command per closed run of `h`, with that run's
      buttons and length; the runs, the open one included, add up to `h`. */
  lemma ReplayRecorder(h: seq<Buttons>)
    requires h != [] && |h| <= GoStrings.MaxInt64
    ensures var r := Display.RunLength(h);
      var cs := Client.Commands(GoStrings.ScanLines(Display.RecordRun(h).out));
      && |r| >= 1 && Display.Expand(r) == h
      && |cs| == |r| - 1
      && forall i :: 0 <= i < |cs| ==> cs[i] == Client.Command(r[i].count, InputState(1, r[i].buttons))
  {
    var r := Display.RunLength(h);
    Display.RecordRunFollows(h);
    Display.ExpandRunLength(h);
    var w := r[..|r| - 1];
    forall i | 0 <= i < |w|
      ensures w[i].count <= GoStrings.MaxInt64
    {
      RunCountBound(r, i);
    }
    assert Display.RecordRun(h).out == Display.Serialize(w);
    ReplayRuns(w);
  }
}
