/** The parts of Go's `strings`, `strconv`, `fmt` and `bufio` packages that the
    input recorder and the replay client rely on, over `string` = `seq<char>`
    (one `char` per Unicode code point). */
module GoStrings {
  import opened Wrappers

  // ---------------------------------------------------------------------------
  // strings.Split / strings.Join with a one-character separator

  /** `strings.Join(parts, string(sep))`. */
  function Join(parts: seq<string>, sep: char): string
    decreases |parts|
  {
    if |parts| == 0 then ""
    else if |parts| == 1 then parts[0]
    else parts[0] + [sep] + Join(parts[1..], sep)
  }

  /** `strings.Split(s, string(sep))`: the maximal runs between separators;
      a string without the separator (the empty string included) is one part. */
  function Split(s: string, sep: char): (parts: seq<string>)
    ensures |parts| >= 1
    ensures forall i :: 0 <= i < |parts| ==> sep !in parts[i]
    ensures Join(parts, sep) == s
    decreases |s|
  {
    if s == [] then [""]
    else
      var rest := Split(s[1..], sep);
      if s[0] == sep then
        [""] + rest
      else
        var parts := [[s[0]] + rest[0]] + rest[1..];
        assert parts[1..] == rest[1..];
        assert s == [s[0]] + s[1..];
        parts
  }

  lemma {:induction false} SplitNoSeparator(p: string, sep: char)
    requires sep !in p
    ensures Split(p, sep) == [p]
    decreases |p|
  {
    if p != [] {
      assert sep !in p[1..];
      SplitNoSeparator(p[1..], sep);
      assert [p[0]] + p[1..] == p;
    }
  }

  lemma {:induction false} SplitAfterPart(p: string, sep: char, rest: string)
    requires sep !in p
    ensures Split(p + [sep] + rest, sep) == [p] + Split(rest, sep)
    decreases |p|
  {
    var s := p + [sep] + rest;
    if p == [] {
      assert s[1..] == rest;
    } else {
      assert s[1..] == p[1..] + [sep] + rest;
      assert sep !in p[1..];
      SplitAfterPart(p[1..], sep, rest);
      assert [p[0]] + p[1..] == p;
    }
  }

  /** Splitting a join recovers the parts, when no part holds the separator. */
  lemma {:induction false} SplitJoin(parts: seq<string>, sep: char)
    requires |parts| >= 1
    requires forall i :: 0 <= i < |parts| ==> sep !in parts[i]
    ensures Split(Join(parts, sep), sep) == parts
    decreases |parts|
  {
    if |parts| == 1 {
      SplitNoSeparator(parts[0], sep);
    } else {
      SplitJoin(parts[1..], sep);
      SplitAfterPart(parts[0], sep, Join(parts[1..], sep));
      assert [parts[0]] + parts[1..] == parts;
    }
  }

  /** Every character of a join is the separator or a character of a part. */
  lemma {:induction false} JoinChars(parts: seq<string>, sep: char, c: char)
    requires c in Join(parts, sep)
    ensures c == sep || exists k :: 0 <= k < |parts| && c in parts[k]
    decreases |parts|
  {
    if |parts| >= 2 {
      if c != sep && c !in parts[0] {
        JoinChars(parts[1..], sep, c);
        var k :| 0 <= k < |parts| - 1 && c in parts[1..][k];
        assert c in parts[k + 1];
      }
    }
  }

  /** A join ends with the last character of its last part, when that part
      is not empty. */
  lemma {:induction false} JoinLast(parts: seq<string>, sep: char)
    requires |parts| >= 1 && parts[|parts| - 1] != []
    ensures var j := Join(parts, sep);
      j != [] && j[|j| - 1] == parts[|parts| - 1][|parts[|parts| - 1]| - 1]
    decreases |parts|
  {
    if |parts| >= 2 {
      JoinLast(parts[1..], sep);
    }
  }

  // ---------------------------------------------------------------------------
  // strings.TrimSpace, strings.HasPrefix, strings.ToUpper

  /** `unicode.IsSpace`: the Latin-1 spaces and the other White_Space code points. */
  predicate IsSpace(c: char) {
    || c == '\t' || c == '\n' || c == '\U{000B}' || c == '\U{000C}' || c == '\r' || c == ' '
    || c == '\U{0085}' || c == '\U{00A0}' || c == '\U{1680}'
    || ('\U{2000}' <= c <= '\U{200A}')
    || c == '\U{2028}' || c == '\U{2029}' || c == '\U{202F}' || c == '\U{205F}' || c == '\U{3000}'
  }

  function TrimLeft(s: string): (r: string)
    ensures |r| <= |s| && r == s[|s| - |r|..]
    ensures r != [] ==> !IsSpace(r[0])
    ensures forall i :: 0 <= i < |s| - |r| ==> IsSpace(s[i])
    decreases |s|
  {
    if s != [] && IsSpace(s[0]) then TrimLeft(s[1..]) else s
  }

  function TrimRight(s: string): (r: string)
    ensures |r| <= |s| && r == s[..|r|]
    ensures r != [] ==> !IsSpace(r[|r| - 1])
    ensures forall i :: |r| <= i < |s| ==> IsSpace(s[i])
    decreases |s|
  {
    if s != [] && IsSpace(s[|s| - 1]) then TrimRight(s[..|s| - 1]) else s
  }

  /** `strings.TrimSpace`: `s` without its leading and trailing white space. */
  function TrimSpace(s: string): (r: string)
    ensures r != [] ==> !IsSpace(r[0]) && !IsSpace(r[|r| - 1])
    ensures |r| <= |s|
  {
    TrimRight(TrimLeft(s))
  }

  lemma TrimSpaceKeeps(s: string)
    requires s != [] && !IsSpace(s[0]) && !IsSpace(s[|s| - 1])
    ensures TrimSpace(s) == s
  {
  }

  /** `strings.HasPrefix`. */
  predicate HasPrefix(s: string, prefix: string) {
    |prefix| <= |s| && s[..|prefix|] == prefix
  }

  /** `unicode.ToUpper` on the code points whose capital is an ASCII letter:
      a-z, dotless i (U+0131) and long s (U+017F). Every other code point is
      left as it is; Go maps some of them to other non-ASCII capitals, which can
      never equal an ASCII button name, so comparisons against ASCII words are
      exactly Go's. */
  function UpperChar(c: char): (u: char)
    ensures 'a' <= c <= 'z' ==> u as int == c as int - 32
    ensures 'A' <= c <= 'Z' ==> u == c
  {
    if 'a' <= c <= 'z' then (c as int - 32) as char
    else if c == '\U{0131}' then 'I'
    else if c == '\U{017F}' then 'S'
    else c
  }

  /** `strings.ToUpper`, as far as `UpperChar` goes. */
  function ToUpper(s: string): (r: string)
    ensures |r| == |s|
    ensures forall i :: 0 <= i < |s| ==> r[i] == UpperChar(s[i])
  {
    seq(|s|, i requires 0 <= i < |s| => UpperChar(s[i]))
  }

  /** A word in capitals is its own upper case. */
  lemma ToUpperOfCapitals(s: string)
    requires forall i :: 0 <= i < |s| ==> 'A' <= s[i] <= 'Z'
    ensures ToUpper(s) == s
  {
  }

  // ---------------------------------------------------------------------------
  // fmt "%d" and strconv.Atoi

  const MaxInt64: int := 0x7FFF_FFFF_FFFF_FFFF
  const MinInt64: int := -0x8000_0000_0000_0000

  predicate IsDigit(c: char) {
    '0' <= c <= '9'
  }

  function DigitChar(d: nat): (c: char)
    requires d < 10
    ensures IsDigit(c) && c as int - '0' as int == d
  {
    ('0' as int + d) as char
  }

  /** The decimal digits of `n`, without leading zeros. */
  function NatToString(n: nat): (s: string)
    ensures |s| >= 1 && IsDigit(s[0])
    ensures forall i :: 0 <= i < |s| ==> IsDigit(s[i])
    decreases n
  {
    if n < 10 then [DigitChar(n)] else NatToString(n / 10) + [DigitChar(n % 10)]
  }

  /** `fmt.Sprintf("%d", n)` for a Go `int`. */
  function Itoa(n: int): (s: string)
    ensures |s| >= 1
  {
    if n < 0 then "-" + NatToString(-n) else NatToString(n)
  }

  /** The value of a string of decimal digits, most significant first. */
  function DigitsValue(s: string): nat
    requires forall i :: 0 <= i < |s| ==> IsDigit(s[i])
    decreases |s|
  {
    if s == [] then 0
    else
      assert IsDigit(s[|s| - 1]);
      DigitsValue(s[..|s| - 1]) * 10 + (s[|s| - 1] as int - '0' as int)
  }

  lemma {:induction false} DigitsValueOfNat(n: nat)
    ensures DigitsValue(NatToString(n)) == n
    decreases n
  {
    if n >= 10 {
      var s := NatToString(n);
      DigitsValueOfNat(n / 10);
      assert s[..|s| - 1] == NatToString(n / 10);
    }
  }

  datatype NumError = ErrSyntax | ErrRange

  /** `strconv.Atoi` on a 64-bit platform: an optional sign, at least one
      decimal digit and nothing else, with the value inside the `int` range. */
  function Atoi(s: string): (r: Result<int, NumError>)
    ensures r.Success? ==> MinInt64 <= r.value <= MaxInt64
    ensures s == [] ==> r == Failure(ErrSyntax)
  {
    var neg := |s| > 0 && s[0] == '-';
    var digits := if |s| > 0 && (s[0] == '-' || s[0] == '+') then s[1..] else s;
    if digits == [] || exists i :: 0 <= i < |digits| && !IsDigit(digits[i]) then
      Failure(ErrSyntax)
    else
      var mag: int := DigitsValue(digits);
      var v := if neg then -mag else mag;
      if v < MinInt64 || MaxInt64 < v then Failure(ErrRange) else Success(v)
  }

  /** `Atoi` reads back what `%d` writes, over the whole non-negative `int` range. */
  lemma AtoiItoa(n: nat)
    requires n <= MaxInt64
    ensures Atoi(Itoa(n)) == Success(n)
  {
    DigitsValueOfNat(n);
  }

  // ---------------------------------------------------------------------------
  // bufio.Scanner with the default line splitter

  /** `dropCR`: one trailing carriage return is removed. */
  function DropCR(line: string): string {
    if line != [] && line[|line| - 1] == '\r' then line[..|line| - 1] else line
  }

  /** The lines `bufio.ScanLines` yields from the whole of `text`: each
      newline ends a line, a final unterminated line is kept when it is not
      empty, and a trailing carriage return is dropped from every line. */
  function ScanLines(text: string): seq<string>
    decreases |text|
  {
    if text == [] then []
    else if '\n' !in text then [DropCR(text)]
    else
      var i := FirstNewline(text);
      [DropCR(text[..i])] + ScanLines(text[i + 1..])
  }

  function FirstNewline(text: string): (i: nat)
    requires '\n' in text
    ensures i < |text| && text[i] == '\n' && '\n' !in text[..i]
  {
    if text[0] == '\n' then 0
    else
      assert '\n' in text[1..] by {
        var k :| 0 <= k < |text| && text[k] == '\n';
        assert text[1..][k - 1] == '\n';
      }
      var j := FirstNewline(text[1..]);
      assert text[..j + 1] == [text[0]] + text[1..][..j];
      j + 1
  }

  /** A newline-terminated line followed by more text. */
  lemma ScanLinesCons(line: string, rest: string)
    requires '\n' !in line
    ensures ScanLines(line + "\n" + rest) == [DropCR(line)] + ScanLines(rest)
  {
    var text := line + "\n" + rest;
    assert text[|line|] == '\n';
    assert text[..|line|] == line;
    var i := FirstNewline(text);
    assert text[..i] == line;
    assert text[i + 1..] == rest;
  }

  /** The text of newline-terminated lines. */
  function Unlines(lines: seq<string>): string
    decreases |lines|
  {
    if lines == [] then "" else lines[0] + "\n" + Unlines(lines[1..])
  }

  /** The scanner yields back every line written with a terminating newline,
      when no line holds a newline or ends in a carriage return. */
  lemma {:induction false} ScanLinesUnlines(lines: seq<string>)
    requires forall i :: 0 <= i < |lines| ==> '\n' !in lines[i] && DropCR(lines[i]) == lines[i]
    ensures ScanLines(Unlines(lines)) == lines
    decreases |lines|
  {
    if lines != [] {
      ScanLinesCons(lines[0], Unlines(lines[1..]));
      ScanLinesUnlines(lines[1..]);
      assert [lines[0]] + lines[1..] == lines;
    }
  }

  /** One more line at the end of the text. */
  lemma {:induction false} UnlinesSnoc(lines: seq<string>, line: string)
    ensures Unlines(lines + [line]) == Unlines(lines) + (line + "\n")
    decreases |lines|
  {
    if lines == [] {
      assert [line][1..] == [];
    } else {
      var all := lines + [line];
      assert all[1..] == lines[1..] + [line];
      UnlinesSnoc(lines[1..], line);
      calc {
        Unlines(all);
        lines[0] + "\n" + Unlines(lines[1..] + [line]);
        lines[0] + "\n" + (Unlines(lines[1..]) + (line + "\n"));
        lines[0] + "\n" + Unlines(lines[1..]) + (line + "\n");
      }
    }
  }
}
