/** The output comparison of the program runner (backend/app/services/coding.py). */
module OutputComparison {

  /** The characters Python's `str.rstrip` removes. */
  predicate IsSpace(c: char) {
    var n := c as int;
    || 9 <= n <= 13 || 28 <= n <= 32 || n == 133 || n == 160 || n == 5760
    || 8192 <= n <= 8202 || n == 8232 || n == 8233 || n == 8239 || n == 8287 || n == 12288
  }

  /** `output.replace("\r\n", "\n")`. */
  function ReplaceCrLf(text: string): string {
    if text == "" then ""
    else if |text| > 1 && text[0] == '\r' && text[1] == '\n' then "\n" + ReplaceCrLf(text[2..])
    else [text[0]] + ReplaceCrLf(text[1..])
  }

  /** `text.split("\n")`. */
  function Split(text: string): (lines: seq<string>)
    ensures lines != []
  {
    if text == "" then [""]
    else
      var rest := Split(text[1..]);
      if text[0] == '\n' then [""] + rest
      else [[text[0]] + rest[0]] + rest[1..]
  }

  /** `line.rstrip()`. */
  function RStrip(line: string): string {
    if line == "" then ""
    else
      var rest := RStrip(line[1..]);
      if rest == "" && IsSpace(line[0]) then "" else [line[0]] + rest
  }

  function StripAll(lines: seq<string>): (r: seq<string>)
    ensures |r| == |lines|
    ensures forall i :: 0 <= i < |lines| ==> r[i] == RStrip(lines[i])
  {
    seq(|lines|, i requires 0 <= i < |lines| => RStrip(lines[i]))
  }

  /** The loop that pops empty lines off the end. */
  function DropEmptyTail(lines: seq<string>): seq<string> {
    if lines != [] && lines[|lines| - 1] == "" then DropEmptyTail(lines[..|lines| - 1]) else lines
  }

  function JoinLines(lines: seq<string>): string {
    if lines == [] then ""
    else if |lines| == 1 then lines[0]
    else lines[0] + "\n" + JoinLines(lines[1..])
  }

  /** The lines that count. */
  function Lines(text: string): seq<string> {
    DropEmptyTail(StripAll(Split(text)))
  }

  function Canonical(text: string): string {
    JoinLines(DropEmptyTail(StripAll(Split(ReplaceCrLf(text)))))
  }

  /** `normalise`: strip every line, then pop the empty ones off the end. */
  method Normalise(output: string) returns (r: string)
    ensures r == Canonical(output)
  {
    var raw := Split(ReplaceCrLf(output));
    var lines: seq<string> := [];
    for i := 0 to |raw|
      invariant lines == StripAll(raw)[..i]
    {
      lines := lines + [RStrip(raw[i])];
    }
    assert lines == StripAll(raw);
    while lines != [] && lines[|lines| - 1] == ""
      invariant DropEmptyTail(lines) == DropEmptyTail(StripAll(raw))
    {
      lines := lines[..|lines| - 1];
    }
    r := JoinLines(lines);
  }

  // ---- what stripping a line means ----

  /** `RStrip` keeps everything up to the last character that is not a space. */
  lemma {:induction false} RStripIsLongestTidyPrefix(line: string)
    ensures var r := RStrip(line);
            && r <= line
            && (forall i :: |r| <= i < |line| ==> IsSpace(line[i]))
            && (r != "" ==> !IsSpace(r[|r| - 1]))
  {
    if line != "" {
      RStripIsLongestTidyPrefix(line[1..]);
      var rest := RStrip(line[1..]);
      forall i | |RStrip(line)| <= i < |line| ensures IsSpace(line[i]) {
        if i > 0 { assert line[i] == line[1..][i - 1]; }
      }
    }
  }

  predicate Tidy(line: string) {
    line == "" || !IsSpace(line[|line| - 1])
  }

  lemma {:induction false} StripKeepsTidy(line: string)
    ensures RStrip(line) == line <==> Tidy(line)
  {
    RStripIsLongestTidyPrefix(line);
  }

  // ---- the CRLF replacement changes nothing ----

  lemma SplitStep(c: char, rest: string)
    ensures Split([c] + rest)
         == if c == '\n' then [""] + Split(rest) else [[c] + Split(rest)[0]] + Split(rest)[1..]
  {
    assert ([c] + rest)[1..] == rest;
  }

  lemma RStripStep(c: char, rest: string)
    ensures RStrip([c] + rest) == if RStrip(rest) == "" && IsSpace(c) then "" else [c] + RStrip(rest)
  {
    assert ([c] + rest)[1..] == rest;
  }

  lemma StripAllStep(c: char, rest: string)
    requires c != '\n'
    ensures StripAll(Split([c] + rest))
         == [RStrip([c] + Split(rest)[0])] + StripAll(Split(rest))[1..]
  {
    SplitStep(c, rest);
  }

  /** A carriage return just before a line break belongs to a line that strips it. */
  lemma {:induction false} StripCrLf(tail: string)
    ensures StripAll(Split(['\r'] + (['\n'] + tail))) == [""] + StripAll(Split(tail))
    ensures StripAll(Split(['\n'] + tail)) == [""] + StripAll(Split(tail))
  {
    SplitStep('\n', tail);
    SplitStep('\r', ['\n'] + tail);
    RStripStep('\r', "");
    assert ['\r'] + "" == ['\r'];
  }

  /** Texts whose stripped lines agree still agree after the same character in front. */
  lemma {:induction false} StripCong(c: char, a: string, b: string)
    requires StripAll(Split(a)) == StripAll(Split(b))
    ensures StripAll(Split([c] + a)) == StripAll(Split([c] + b))
  {
    if c == '\n' {
      StripCrLf(a);
      StripCrLf(b);
    } else {
      StripAllStep(c, a);
      StripAllStep(c, b);
      RStripStep(c, Split(a)[0]);
      RStripStep(c, Split(b)[0]);
      assert StripAll(Split(a))[0] == StripAll(Split(b))[0];
    }
  }

  lemma {:induction false} CarriageReturnInvisible(text: string)
    ensures StripAll(Split(ReplaceCrLf(text))) == StripAll(Split(text))
  {
    hide Split, StripAll;
    if text == "" {
    } else if |text| > 1 && text[0] == '\r' && text[1] == '\n' {
      var tail := text[2..];
      CarriageReturnInvisible(tail);
      StripCrLf(tail);
      StripCrLf(ReplaceCrLf(tail));
      assert text == ['\r'] + (['\n'] + tail);
    } else {
      CarriageReturnInvisible(text[1..]);
      StripCong(text[0], ReplaceCrLf(text[1..]), text[1..]);
      assert text == [text[0]] + text[1..];
    }
  }

  /** The replacement of CRLF by LF could be left out: stripping already removes a
      carriage return at the end of a line. */
  lemma CrLfNeverMatters(text: string)
    ensures Canonical(text) == JoinLines(Lines(text))
    ensures Canonical(ReplaceCrLf(text)) == Canonical(text)
  {
    CarriageReturnInvisible(text);
    CarriageReturnInvisible(ReplaceCrLf(text));
  }

  // ---- canonical texts ----

  predicate OneLine(line: string) {
    forall i :: 0 <= i < |line| ==> line[i] != '\n'
  }

  lemma {:induction false} SplitGivesLines(text: string)
    ensures forall k :: 0 <= k < |Split(text)| ==> OneLine(Split(text)[k])
    ensures JoinLines(Split(text)) == text
  {
    if text != "" {
      SplitGivesLines(text[1..]);
      var rest := Split(text[1..]);
      if text[0] == '\n' {
        assert JoinLines([""] + rest) == "" + "\n" + JoinLines(rest) by { assert ([""] + rest)[1..] == rest; }
      } else {
        var all := [[text[0]] + rest[0]] + rest[1..];
        assert all[1..] == rest[1..];
        assert JoinLines(all) == [text[0]] + JoinLines(rest);
      }
    }
  }

  lemma {:induction false} SplitOneLine(line: string)
    requires OneLine(line)
    ensures Split(line) == [line]
  {
    if line != "" {
      assert OneLine(line[1..]) by {
        forall i | 0 <= i < |line[1..]| ensures line[1..][i] != '\n' { assert line[1..][i] == line[i + 1]; }
      }
      SplitOneLine(line[1..]);
      assert line == [line[0]] + line[1..];
      SplitStep(line[0], line[1..]);
    }
  }

  lemma {:induction false} SplitAfterLine(line: string, rest: string)
    requires OneLine(line)
    ensures Split(line + "\n" + rest) == [line] + Split(rest)
  {
    if line == "" {
      assert line + "\n" + rest == ['\n'] + rest;
      SplitStep('\n', rest);
    } else {
      assert OneLine(line[1..]) by {
        forall i | 0 <= i < |line[1..]| ensures line[1..][i] != '\n' { assert line[1..][i] == line[i + 1]; }
      }
      SplitAfterLine(line[1..], rest);
      assert line + "\n" + rest == [line[0]] + (line[1..] + "\n" + rest);
      SplitStep(line[0], line[1..] + "\n" + rest);
      assert [line[0]] + line[1..] == line;
    }
  }

  /** Splitting undoes joining. */
  lemma {:induction false} SplitJoin(lines: seq<string>)
    requires lines != [] && forall k :: 0 <= k < |lines| ==> OneLine(lines[k])
    ensures Split(JoinLines(lines)) == lines
  {
    if |lines| == 1 {
      SplitOneLine(lines[0]);
    } else {
      SplitJoin(lines[1..]);
      SplitAfterLine(lines[0], JoinLines(lines[1..]));
    }
  }

  /** Lines as `normalise` leaves them. */
  ghost predicate Normal(lines: seq<string>) {
    && (forall k :: 0 <= k < |lines| ==> OneLine(lines[k]) && Tidy(lines[k]))
    && (lines != [] ==> lines[|lines| - 1] != "")
  }

  lemma {:induction false} DropEmptyTailShape(lines: seq<string>)
    ensures var r := DropEmptyTail(lines);
            && r <= lines
            && (forall i :: |r| <= i < |lines| ==> lines[i] == "")
            && (r != [] ==> r[|r| - 1] != "")
  {
    if lines != [] && lines[|lines| - 1] == "" {
      DropEmptyTailShape(lines[..|lines| - 1]);
    }
  }

  lemma LinesAreNormal(text: string)
    ensures Normal(Lines(text))
  {
    var raw := Split(text);
    SplitGivesLines(text);
    DropEmptyTailShape(StripAll(raw));
    forall k | 0 <= k < |Lines(text)| ensures OneLine(Lines(text)[k]) && Tidy(Lines(text)[k]) {
      RStripIsLongestTidyPrefix(raw[k]);
    }
  }

  lemma LinesOfJoin(lines: seq<string>)
    requires Normal(lines)
    ensures Lines(JoinLines(lines)) == lines
  {
    if lines == [] {
      assert StripAll(Split("")) == [""];
      assert [""][..0] == [];
    } else {
      SplitJoin(lines);
      forall k | 0 <= k < |lines| ensures RStrip(lines[k]) == lines[k] { StripKeepsTidy(lines[k]); }
      assert StripAll(lines) == lines;
    }
  }

  // ---- main results ----

  /** Normalising twice is normalising once. */
  lemma Idempotent(text: string)
    ensures Canonical(Canonical(text)) == Canonical(text)
  {
    CrLfNeverMatters(text);
    CrLfNeverMatters(Canonical(text));
    LinesAreNormal(text);
    LinesOfJoin(Lines(text));
  }

  /** The k-th line of a text, or the empty line once the text has run out. */
  function LineAt(text: string, k: nat): string {
    if k < |Split(text)| then Split(text)[k] else ""
  }

  lemma LineInLines(text: string, k: nat)
    ensures RStrip(LineAt(text, k)) == if k < |Lines(text)| then Lines(text)[k] else ""
  {
    DropEmptyTailShape(StripAll(Split(text)));
    if |Lines(text)| <= k < |Split(text)| { assert StripAll(Split(text))[k] == ""; }
  }

  /** Two outputs count as the same exactly when every line agrees up to trailing white
      space, lines past the end of the shorter output being empty. */
  lemma EqualIffLinesAgree(a: string, b: string)
    ensures Canonical(a) == Canonical(b) <==> forall k: nat :: RStrip(LineAt(a, k)) == RStrip(LineAt(b, k))
  {
    CrLfNeverMatters(a);
    CrLfNeverMatters(b);
    LinesAreNormal(a);
    LinesAreNormal(b);
    LinesOfJoin(Lines(a));
    LinesOfJoin(Lines(b));
    forall k: nat ensures Canonical(a) == Canonical(b) ==> RStrip(LineAt(a, k)) == RStrip(LineAt(b, k)) {
      LineInLines(a, k);
      LineInLines(b, k);
    }
    if forall k: nat :: RStrip(LineAt(a, k)) == RStrip(LineAt(b, k)) {
      AgreeingLinesEqual(a, b);
    }
  }

  lemma NoLongerThan(a: string, b: string)
    requires forall k: nat :: RStrip(LineAt(a, k)) == RStrip(LineAt(b, k))
    ensures |Lines(a)| <= |Lines(b)|
  {
    LinesAreNormal(a);
    if Lines(a) != [] {
      LineInLines(a, |Lines(a)| - 1);
      LineInLines(b, |Lines(a)| - 1);
    }
  }

  lemma AgreeingLinesEqual(a: string, b: string)
    requires forall k: nat :: RStrip(LineAt(a, k)) == RStrip(LineAt(b, k))
    ensures Lines(a) == Lines(b)
  {
    NoLongerThan(a, b);
    NoLongerThan(b, a);
    forall k | 0 <= k < |Lines(a)| ensures Lines(a)[k] == Lines(b)[k] {
      LineInLines(a, k);
      LineInLines(b, k);
    }
  }

  /** No line ends in white space and the text does not end in empty lines. */
  ghost predicate TidyText(text: string) {
    text == "" || Normal(Split(text))
  }

  /** Exactly which outputs are left alone. Interior blank lines, leading spaces and case
      are therefore significant. */
  lemma FixedPoints(text: string)
    ensures Canonical(text) == text <==> TidyText(text)
  {
    CrLfNeverMatters(text);
    SplitGivesLines(text);
    LinesAreNormal(text);
    if Lines(text) != [] { SplitJoin(Lines(text)); }
    if TidyText(text) { LinesOfJoin(if text == "" then [] else Split(text)); }
  }
}
