/** The display's input recorder and its reset indicator. While recording,
    every frame's button state is run-length encoded: a run of identical
    frames is written as one line "<frames> <buttons>\n" once the next,
    different state arrives, with the pressed buttons' names joined by "+"
    (or "NONE"). The file is the string `out`; the emulator's rendering,
    audio, menus and input polling are not part of this model. */
module Display {
  import opened Api
  import GoStrings

  /** The names `writeRecord` gives the buttons, in shift-register order. */
  const ButtonNames: seq<string> := ["A", "B", "SELECT", "START", "UP", "DOWN", "LEFT", "RIGHT"]

  /** The name of a button if it is pressed. */
  function Named(pressed: bool, name: string): seq<string> {
    if pressed then [name] else []
  }

  /** The names of the pressed buttons among the first `i`, in order. */
  function PressedUpTo(b: Buttons, i: nat): (names: seq<string>)
    requires i <= 8
    ensures |names| <= i
  {
    if i == 0 then [] else PressedUpTo(b, i - 1) + Named(b[i - 1], ButtonNames[i - 1])
  }

  /** The names of the pressed buttons, in the order A, B, SELECT, START, UP,
      DOWN, LEFT, RIGHT. */
  function PressedNames(b: Buttons): seq<string> {
    PressedUpTo(b, |b|)
  }

  /** The button field of a record line. */
  function ButtonField(b: Buttons): string {
    var names := PressedNames(b);
    if |names| > 0 then GoStrings.Join(names, '+') else "NONE"
  }

  /** One record line, as `writeRecord` prints it: `"%d %s\n"`. */
  function RecordLine(frames: int, b: Buttons): string {
    GoStrings.Itoa(frames) + " " + ButtonField(b) + "\n"
  }

  /** A name is listed exactly when its button is among the first `i` and
      pressed. */
  lemma {:induction false} PressedUpToNames(b: Buttons, i: nat, t: string)
    requires i <= 8
    ensures t in PressedUpTo(b, i) <==> exists j :: 0 <= j < i && b[j] && t == ButtonNames[j]
  {
    if i > 0 {
      PressedUpToNames(b, i - 1, t);
      var front := PressedUpTo(b, i - 1);
      var tail := Named(b[i - 1], ButtonNames[i - 1]);
      assert t in PressedUpTo(b, i) <==> t in front || t in tail;
      if exists j :: 0 <= j < i && b[j] && t == ButtonNames[j] {
        var j :| 0 <= j < i && b[j] && t == ButtonNames[j];
        if j < i - 1 {
          assert exists k :: 0 <= k < i - 1 && b[k] && t == ButtonNames[k];
        }
      }
    }
  }

  /** The list is empty exactly when none of the first `i` is pressed. */
  lemma {:induction false} PressedUpToEmpty(b: Buttons, i: nat)
    requires i <= 8
    ensures |PressedUpTo(b, i)| == 0 <==> forall j :: 0 <= j < i ==> !b[j]
  {
    if i > 0 {
      PressedUpToEmpty(b, i - 1);
      assert |PressedUpTo(b, i)| == |PressedUpTo(b, i - 1)| + |Named(b[i - 1], ButtonNames[i - 1])|;
    }
  }

  /** Every listed name is one of the eight. */
  lemma {:induction false} PressedUpToPlain(b: Buttons, i: nat)
    requires i <= 8
    ensures forall k :: 0 <= k < |PressedUpTo(b, i)| ==> PressedUpTo(b, i)[k] in ButtonNames
  {
    if i > 0 {
      PressedUpToPlain(b, i - 1);
      var front := PressedUpTo(b, i - 1);
      forall k | 0 <= k < |PressedUpTo(b, i)|
        ensures PressedUpTo(b, i)[k] in ButtonNames
      {
        if k < |front| {
          assert PressedUpTo(b, i)[k] == front[k];
        }
      }
    }
  }

  // ---------------------------------------------------------------------------
  // Run-length encoding of the recorded frames

  /** `count` frames of the same button state. */
  datatype Run = Run(count: nat, buttons: Buttons)

  function Repeat(b: Buttons, n: nat): (r: seq<Buttons>)
    ensures |r| == n && forall k :: 0 <= k < n ==> r[k] == b
    decreases n
  {
    if n == 0 then [] else Repeat(b, n - 1) + [b]
  }

  /** The frames a sequence of runs stands for. */
  function Expand(runs: seq<Run>): seq<Buttons>
    decreases |runs|
  {
    if runs == [] then []
    else
      var last := runs[|runs| - 1];
      Expand(runs[..|runs| - 1]) + Repeat(last.buttons, last.count)
  }

  /** Every run has at least one frame, and neighbouring runs differ. */
  predicate WellFormed(runs: seq<Run>) {
    && (forall i :: 0 <= i < |runs| ==> runs[i].count >= 1)
    && (forall i :: 0 <= i < |runs| - 1 ==> runs[i].buttons != runs[i + 1].buttons)
  }

  /** One frame more on an encoding: a frame equal to the last run's state
      lengthens that run, any other frame opens a run of 1. */
  function Step(r: seq<Run>, b: Buttons): (r': seq<Run>)
    ensures |r'| >= 1
  {
    if r != [] && r[|r| - 1].buttons == b then r[..|r| - 1] + [Run(r[|r| - 1].count + 1, b)]
    else r + [Run(1, b)]
  }

  /** The run-length encoding of a frame sequence, built frame by frame. */
  function RunLength(frames: seq<Buttons>): (runs: seq<Run>)
    decreases |frames|
  {
    if frames == [] then [] else Step(RunLength(frames[..|frames| - 1]), frames[|frames| - 1])
  }

  lemma RunLengthSnoc(h: seq<Buttons>, b: Buttons)
    ensures RunLength(h + [b]) == Step(RunLength(h), b)
  {
    assert (h + [b])[..|h|] == h;
  }

  /** A repeated state lengthens the last run. */
  lemma StepLengthens(rs: seq<Run>, b: Buttons, n: nat)
    ensures Step(rs + [Run(n, b)], b) == rs + [Run(n + 1, b)]
  {
    var r := rs + [Run(n, b)];
    assert r[..|r| - 1] == rs;
  }

  /** One more frame of the last run's state. */
  lemma ExpandLonger(rs: seq<Run>, b: Buttons, n: nat)
    ensures Expand(rs + [Run(n + 1, b)]) == Expand(rs + [Run(n, b)]) + [b]
  {
    assert (rs + [Run(n + 1, b)])[..|rs|] == rs;
    assert (rs + [Run(n, b)])[..|rs|] == rs;
    assert Repeat(b, n + 1) == Repeat(b, n) + [b];
  }

  lemma ExpandSnoc(rs: seq<Run>, r: Run)
    ensures Expand(rs + [r]) == Expand(rs) + Repeat(r.buttons, r.count)
  {
    assert (rs + [r])[..|rs|] == rs;
  }

  /** The encoding expands back to the exact frame sequence. */
  lemma {:induction false} ExpandRunLength(frames: seq<Buttons>)
    ensures Expand(RunLength(frames)) == frames
    decreases |frames|
  {
    if frames != [] {
      var init := frames[..|frames| - 1];
      var b := frames[|frames| - 1];
      var r := RunLength(init);
      ExpandRunLength(init);
      assert frames == init + [b];
      if r != [] && r[|r| - 1].buttons == b {
        var front := r[..|r| - 1];
        var c := r[|r| - 1].count;
        assert r == front + [Run(c, b)];
        ExpandLonger(front, b, c);
      } else {
        ExpandSnoc(r, Run(1, b));
      }
    }
  }

  /** Every run of the encoding has a count of at least 1, and neighbouring
      runs have different button states. */
  lemma {:induction false} RunLengthWellFormed(frames: seq<Buttons>)
    ensures WellFormed(RunLength(frames))
    decreases |frames|
  {
    if frames != [] {
      var init := frames[..|frames| - 1];
      RunLengthWellFormed(init);
    }
  }

  /** A well-formed sequence of runs is the encoding of its own expansion:
      the encoding is the only well-formed one, and `RunLength` and
      `Expand` are inverse on well-formed runs. */
  lemma {:induction false} RunLengthExpand(runs: seq<Run>)
    requires WellFormed(runs)
    ensures RunLength(Expand(runs)) == runs
    decreases |runs|
  {
    if runs != [] {
      var front := runs[..|runs| - 1];
      var last := runs[|runs| - 1];
      assert WellFormed(front);
      RunLengthExpand(front);
      assert runs == front + [last];
      RunLengthAppend(front, last.buttons, last.count);
    }
  }

  /** Appending `n >= 1` frames of a state other than the last run's adds
      one run of `n`. */
  lemma {:induction false} RunLengthAppend(rs: seq<Run>, b: Buttons, n: nat)
    requires RunLength(Expand(rs)) == rs
    requires n >= 1 && (rs == [] || rs[|rs| - 1].buttons != b)
    ensures RunLength(Expand(rs) + Repeat(b, n)) == rs + [Run(n, b)]
    decreases n
  {
    var e := Expand(rs);
    if n == 1 {
      AppendFirst(e, rs, b);
    } else {
      RunLengthAppend(rs, b, n - 1);
      AppendMore(e, rs, b, n);
    }
  }

  lemma AppendFirst(e: seq<Buttons>, rs: seq<Run>, b: Buttons)
    requires RunLength(e) == rs && (rs == [] || rs[|rs| - 1].buttons != b)
    ensures RunLength(e + Repeat(b, 1)) == rs + [Run(1, b)]
  {
    assert e + Repeat(b, 1) == e + [b];
    RunLengthSnoc(e, b);
  }

  lemma AppendMore(e: seq<Buttons>, rs: seq<Run>, b: Buttons, n: nat)
    requires n >= 2 && RunLength(e + Repeat(b, n - 1)) == rs + [Run(n - 1, b)]
    ensures RunLength(e + Repeat(b, n)) == rs + [Run(n, b)]
  {
    var g := e + Repeat(b, n - 1);
    assert Repeat(b, n) == Repeat(b, n - 1) + [b];
    assert e + Repeat(b, n) == g + [b];
    RunLengthSnoc(g, b);
    StepLengthens(rs, b, n - 1);
  }

  /** The record lines of a sequence of runs, oldest first. */
  function Serialize(runs: seq<Run>): string
    decreases |runs|
  {
    if runs == [] then ""
    else
      var last := runs[|runs| - 1];
      Serialize(runs[..|runs| - 1]) + RecordLine(last.count, last.buttons)
  }

  /** The runs the recorder has written out: all but the one still open. */
  function Written(frames: seq<Buttons>): seq<Run>
    requires frames != []
  {
    var r := RunLength(frames);
    r[..|r| - 1]
  }

  // ---------------------------------------------------------------------------
  // The reset indicator

  /** One `Update` of the reset indicator: a RESET click sets it to 30, and
      every update then counts it down by one, stopping at 0. */
  function BlinkStep(timer: int, resetClicked: bool): int {
    var t := if resetClicked then 30 else timer;
    if t > 0 then t - 1 else t
  }

  /** `n` updates without a click. */
  function BlinkSteps(timer: int, n: nat): int
    decreases n
  {
    if n == 0 then timer else BlinkSteps(BlinkStep(timer, false), n - 1)
  }

  /** A click leaves 29 after its own update; otherwise the indicator drops
      by exactly one while positive and never goes below 0. */
  lemma BlinkBounds(timer: int, resetClicked: bool)
    requires 0 <= timer <= 30
    ensures 0 <= BlinkStep(timer, resetClicked) < 30
    ensures resetClicked ==> BlinkStep(timer, resetClicked) == 29
    ensures !resetClicked ==> BlinkStep(timer, resetClicked) == if timer > 0 then timer - 1 else 0
  {
  }

  /** Without clicks the indicator is `timer - n`, held at 0. */
  lemma {:induction false} BlinkRunsOut(timer: int, n: nat)
    requires timer >= 0
    ensures BlinkSteps(timer, n) == if n >= timer then 0 else timer - n
    decreases n
  {
    if n > 0 {
      BlinkRunsOut(BlinkStep(timer, false), n - 1);
    }
  }

  /** The recorder's fields: whether no frame has been recorded yet, the
      open run's buttons and length, and the file written so far. */
  datatype RecState = RecState(firstFrame: bool, lastButtons: Buttons, holdCount: int, out: string)

  /** The recording block of `Update` on the recorder's fields: the first
      frame opens a run of 1, a repeated state lengthens the open run, and a
      new state writes the open run's line and opens a run of 1. */
  function RecordStep(s: RecState, b: Buttons): RecState {
    if s.firstFrame then s.(lastButtons := b, holdCount := 1, firstFrame := false)
    else if b == s.lastButtons then s.(holdCount := s.holdCount + 1)
    else s.(out := s.out + RecordLine(s.holdCount, s.lastButtons), lastButtons := b, holdCount := 1)
  }

  /** The recorder's fields before any frame. */
  const Initial := RecState(true, NoButtons, 0, "")

  /** The recorder's fields after the frames `h`, one `RecordStep` each. */
  function RecordRun(h: seq<Buttons>): RecState
    decreases |h|
  {
    if h == [] then Initial else RecordStep(RecordRun(h[..|h| - 1]), h[|h| - 1])
  }

  lemma RecordRunSnoc(h: seq<Buttons>, b: Buttons)
    ensures RecordRun(h + [b]) == RecordStep(RecordRun(h), b)
  {
    assert (h + [b])[..|h|] == h;
  }

  /** What the recorder's fields say about the frames `h` recorded so far:
      the file holds the runs closed so far and the fields the open one;
      before the first recorded frame nothing is open or written. */
  ghost predicate Follows(h: seq<Buttons>, s: RecState) {
    && (s.firstFrame <==> h == [])
    && (s.firstFrame ==> s.out == "")
    && (!s.firstFrame ==>
          var r := RunLength(h);
          && r[|r| - 1].count == s.holdCount && r[|r| - 1].buttons == s.lastButtons
          && s.out == Serialize(r[..|r| - 1]))
  }

  /** Every recorded frame keeps the fields and the file in step with the
      frames recorded. */
  lemma RecordStepFollows(h: seq<Buttons>, s: RecState, b: Buttons)
    requires Follows(h, s)
    ensures Follows(h + [b], RecordStep(s, b))
  {
    if s.firstFrame {
      assert h + [b] == [] + [b];
      RunLengthSnoc([], b);
    } else if b == s.lastButtons {
      RecordSame(h, s, b);
    } else {
      RecordNew(h, s, b);
    }
  }

  /** The fields after any frames follow those frames. */
  lemma {:induction false} RecordRunFollows(h: seq<Buttons>)
    ensures Follows(h, RecordRun(h))
    decreases |h|
  {
    if h != [] {
      var init := h[..|h| - 1];
      assert h == init + [h[|h| - 1]];
      RecordRunFollows(init);
      RecordStepFollows(init, RecordRun(init), h[|h| - 1]);
    }
  }

  lemma RecordSame(h: seq<Buttons>, s: RecState, b: Buttons)
    requires Follows(h, s) && !s.firstFrame && b == s.lastButtons
    ensures Follows(h + [b], s.(holdCount := s.holdCount + 1))
  {
    var r := RunLength(h);
    var front := r[..|r| - 1];
    assert r == front + [Run(s.holdCount, b)];
    StepLengthens(front, b, s.holdCount);
    RunLengthSnoc(h, b);
    var r' := front + [Run(s.holdCount + 1, b)];
    assert r'[..|r'| - 1] == front;
  }

  lemma RecordNew(h: seq<Buttons>, s: RecState, b: Buttons)
    requires Follows(h, s) && !s.firstFrame && b != s.lastButtons
    ensures Follows(h + [b], RecordStep(s, b))
  {
    var r := RunLength(h);
    RunLengthSnoc(h, b);
    var r' := r + [Run(1, b)];
    assert RunLength(h + [b]) == r';
    assert r'[..|r'| - 1] == r;
  }

  /** The first half of `writeRecord`: the names of the pressed buttons,
      collected in shift-register order. */
  method CollectNames(b: Buttons) returns (btnNames: seq<string>)
    ensures btnNames == PressedNames(b)
  {
    btnNames := [];
    if b[0] { btnNames := btnNames + ["A"]; }
    assert btnNames == PressedUpTo(b, 1);
    if b[1] { btnNames := btnNames + ["B"]; }
    assert btnNames == PressedUpTo(b, 2);
    if b[2] { btnNames := btnNames + ["SELECT"]; }
    assert btnNames == PressedUpTo(b, 3);
    if b[3] { btnNames := btnNames + ["START"]; }
    assert btnNames == PressedUpTo(b, 4);
    if b[4] { btnNames := btnNames + ["UP"]; }
    assert btnNames == PressedUpTo(b, 5);
    if b[5] { btnNames := btnNames + ["DOWN"]; }
    assert btnNames == PressedUpTo(b, 6);
    if b[6] { btnNames := btnNames + ["LEFT"]; }
    assert btnNames == PressedUpTo(b, 7);
    if b[7] { btnNames := btnNames + ["RIGHT"]; }
    assert btnNames == PressedUpTo(b, 8);
  }

  /** `Display`, as far as recording and the reset indicator go. `history`
      is the frames recorded so far, which the recorder's fields and the
      file's text follow. */
  class Display {
    const recording: bool
    var firstFrame: bool
    var lastButtons: Buttons
    var buttonHoldCount: int
    var resetBlinkTimer: int
    var out: string
    ghost var history: seq<Buttons>

    function Fields(): RecState
      reads this
    {
      RecState(firstFrame, lastButtons, buttonHoldCount, out)
    }

    /** The recorder's fields are those the recorded frames lead to (so by
        `RecordRunFollows` they follow those frames), and the reset
        indicator is in range. */
    ghost predicate Valid()
      reads this
    {
      && Fields() == RecordRun(history)
      && 0 <= resetBlinkTimer <= 30
    }

    /** `New`: recording when a file is given, starting at the first frame. */
    constructor (recordToFile: bool)
      ensures Valid() && recording == recordToFile && history == [] && out == ""
      ensures resetBlinkTimer == 0
    {
      recording := recordToFile;
      firstFrame := true;
      lastButtons := NoButtons;
      buttonHoldCount := 0;
      resetBlinkTimer := 0;
      out := "";
      history := [];
    }

    /** `writeRecord`: appends the line for `frames` frames of `b` to the
        file. */
    method WriteRecord(frames: int, b: Buttons)
      modifies this
      ensures out == old(out) + RecordLine(frames, b)
      ensures firstFrame == old(firstFrame) && lastButtons == old(lastButtons)
      ensures buttonHoldCount == old(buttonHoldCount) && resetBlinkTimer == old(resetBlinkTimer)
      ensures history == old(history)
    {
      var btnNames := CollectNames(b);
      var btnStr := "NONE";
      if |btnNames| > 0 {
        btnStr := GoStrings.Join(btnNames, '+');
      }
      out := out + (GoStrings.Itoa(frames) + " " + btnStr + "\n");
    }

    /** The recording block of `Update`. */
    method Record(buttons: Buttons)
      requires Valid()
      modifies this
      ensures Valid()
      ensures Fields() == if recording then RecordStep(old(Fields()), buttons) else old(Fields())
      ensures history == if recording then old(history) + [buttons] else old(history)
      ensures resetBlinkTimer == old(resetBlinkTimer)
    {
      if recording {
        RecordRunSnoc(history, buttons);
        if firstFrame {
          lastButtons := buttons;
          buttonHoldCount := 1;
          firstFrame := false;
        } else if buttons == lastButtons {
          buttonHoldCount := buttonHoldCount + 1;
        } else {
          WriteRecord(buttonHoldCount, lastButtons);
          lastButtons := buttons;
          buttonHoldCount := 1;
        }
        history := history + [buttons];
      }
    }

    /** The reset indicator's part of `Update`. */
    method Blink(resetClicked: bool)
      requires 0 <= resetBlinkTimer <= 30
      modifies this
      ensures resetBlinkTimer == BlinkStep(old(resetBlinkTimer), resetClicked)
      ensures firstFrame == old(firstFrame) && lastButtons == old(lastButtons)
      ensures buttonHoldCount == old(buttonHoldCount) && out == old(out) && history == old(history)
    {
      if resetClicked {
        resetBlinkTimer := 30;
      }
      if resetBlinkTimer > 0 {
        resetBlinkTimer := resetBlinkTimer - 1;
      }
    }

    /** `Update`, as far as modelled: the reset indicator, then the frame's
        buttons to the recorder. */
    method Update(resetClicked: bool, buttons: Buttons)
      requires Valid()
      modifies this
      ensures Valid()
      ensures history == if recording then old(history) + [buttons] else old(history)
      ensures resetBlinkTimer == BlinkStep(old(resetBlinkTimer), resetClicked)
    {
      Blink(resetClicked);
      BlinkBounds(old(resetBlinkTimer), resetClicked);
      Record(buttons);
    }
  }

  /** What the recorder promises about its file: the runs it has written
      plus the open one expand to exactly the recorded frames, every count
      is at least 1, and neighbouring runs differ. */
  lemma RecordedFrames(frames: seq<Buttons>, count: nat, last: Buttons)
    requires frames != [] && RunLength(frames)[|RunLength(frames)| - 1] == Run(count, last)
    ensures Expand(Written(frames) + [Run(count, last)]) == frames
    ensures WellFormed(Written(frames) + [Run(count, last)])
  {
    var r := RunLength(frames);
    assert Written(frames) + [Run(count, last)] == r;
    ExpandRunLength(frames);
    RunLengthWellFormed(frames);
  }
}
