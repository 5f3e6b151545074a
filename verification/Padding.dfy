/**
  Size equalisation of sealed files: every file is padded to one line count, then to one byte
  length. What each file ends up with is stated for all contents, whatever line breaks they hold.
 */
module Padding {
  import opened Common

  const STEP: nat := 16
  const PAD: string := "# sealed metadata pad"

  // ---------------------------------------------------------------------------
  // Lines and bytes
  // ---------------------------------------------------------------------------

  /** The characters that end a line, besides the pair of carriage return and newline. */
  predicate IsBreak(c: char) {
    || c == '\n' || c == '\r' || c == 11 as char || c == 12 as char
    || 28 as char <= c <= 30 as char || c == 133 as char || c == 8232 as char || c == 8233 as char
  }

  /** Splits what is left of a text; `line` is the line begun so far. */
  function SplitFrom(line: string, s: string): seq<string>
    decreases |s|
  {
    if s == "" then (if line == "" then [] else [line])
    else if s[0] == '\r' && |s| > 1 && s[1] == '\n' then [line] + SplitFrom("", s[2..])
    else if IsBreak(s[0]) then [line] + SplitFrom("", s[1..])
    else SplitFrom(line + [s[0]], s[1..])
  }

  function SplitLines(s: string): seq<string> {
    SplitFrom("", s)
  }

  function CharBytes(c: char): nat {
    if c < 128 as char then 1 else if c < 2048 as char then 2 else if c < 65536 as char then 3 else 4
  }

  /** The ranges of UTF-8 (section 3 of RFC 3629), each with as many payload bits as its bytes hold. */
  lemma Utf8Lengths(c: char)
    ensures CharBytes(c) == 1 <==> c as int <= 0x7f
    ensures CharBytes(c) == 2 <==> 0x80 <= c as int <= 0x7ff
    ensures CharBytes(c) == 3 <==> 0x800 <= c as int <= 0xffff
    ensures CharBytes(c) == 4 <==> 0x10000 <= c as int
  {
  }

  function Bytes(s: string): nat {
    if s == "" then 0 else CharBytes(s[0]) + Bytes(s[1..])
  }

  /** Each line with a newline after it. */
  function Unlines(lines: seq<string>): string {
    if lines == [] then "" else lines[0] + "\n" + Unlines(lines[1..])
  }

  function Repeat(s: string, n: nat): seq<string> {
    if n == 0 then [] else [s] + Repeat(s, n - 1)
  }

  function Spaces(n: nat): string {
    if n == 0 then "" else " " + Spaces(n - 1)
  }

  predicate EndsWithNewline(s: string) {
    s != "" && s[|s| - 1] == '\n'
  }

  // ---------------------------------------------------------------------------
  // The two paddings
  // ---------------------------------------------------------------------------

  function Body(content: string): string {
    if EndsWithNewline(content) then content[..|content| - 1] else content
  }

  /** Joining n > 0 pads with newlines and closing with one is the same as ending each with one. */
  function PadLines(content: string, target: nat): string {
    var count := |SplitLines(content)|;
    if target <= count then Body(content) + "\n"
    else Body(content) + "\n" + Unlines(Repeat(PAD, target - count))
  }

  function PadBytes(content: string, target: nat): string {
    if target <= Bytes(content) then content
    else
      var lines := SplitLines(content);
      if lines == [] then content
      else
        var last := |lines| - 1;
        Unlines(lines[last := lines[last] + Spaces(target - Bytes(content))])
  }

  function MaxOf(s: seq<nat>): (m: nat)
    ensures forall i | 0 <= i < |s| :: s[i] <= m
    ensures s != [] ==> m in s
  {
    if s == [] then 0
    else
      var rest := MaxOf(s[1..]);
      assert forall i | 0 < i < |s| :: s[i] == s[1..][i - 1];
      if |s| == 1 || rest < s[0] then s[0] else rest
  }

  function LineCounts(files: seq<string>): seq<nat> {
    seq(|files|, i requires 0 <= i < |files| => |SplitLines(files[i])|)
  }

  function ByteCounts(files: seq<string>): seq<nat> {
    seq(|files|, i requires 0 <= i < |files| => Bytes(files[i]))
  }

  /** The next multiple of 16 that fits every file, at least 16. */
  function LineTarget(files: seq<string>): nat {
    var most := MaxOf(LineCounts(files));
    ((if most < STEP then STEP else most) + STEP - 1) / STEP * STEP
  }

  function LinePadded(files: seq<string>): seq<string> {
    seq(|files|, i requires 0 <= i < |files| => PadLines(files[i], LineTarget(files)))
  }

  /** The contents of the sealed files, in order; no files, nothing to do. */
  function Normalized(files: seq<string>): seq<string> {
    var padded := LinePadded(files);
    var target := MaxOf(ByteCounts(padded));
    seq(|files|, i requires 0 <= i < |files| => PadBytes(padded[i], target))
  }

  // ---------------------------------------------------------------------------
  // Counting
  // ---------------------------------------------------------------------------

  lemma {:induction false} BytesJoin(a: string, b: string)
    ensures Bytes(a + b) == Bytes(a) + Bytes(b)
  {
    if a == "" {
      assert a + b == b;
    } else {
      BytesJoin(a[1..], b);
      assert (a + b)[1..] == a[1..] + b;
    }
  }

  /** A text without line breaks. */
  ghost predicate Flat(s: string) {
    forall i | 0 <= i < |s| :: !IsBreak(s[i])
  }

  ghost predicate AllFlat(lines: seq<string>) {
    forall i | 0 <= i < |lines| :: Flat(lines[i])
  }

  lemma {:induction false} SpacesFlat(n: nat)
    ensures Flat(Spaces(n)) && Bytes(Spaces(n)) == n && |Spaces(n)| == n && forall i | 0 <= i < n :: Spaces(n)[i] == ' '
  {
    if n > 0 {
      SpacesFlat(n - 1);
    }
  }

  lemma {:induction false} RepeatFlat(line: string, n: nat)
    requires Flat(line)
    ensures AllFlat(Repeat(line, n)) && |Repeat(line, n)| == n && forall i | 0 <= i < n :: Repeat(line, n)[i] == line
  {
    if n > 0 {
      RepeatFlat(line, n - 1);
    }
  }

  lemma PadIsFlat()
    ensures Flat(PAD)
  {
  }

  // ---------------------------------------------------------------------------
  // Splitting
  // ---------------------------------------------------------------------------

  /** The lines of a split hold no break. */
  lemma {:induction false} SplitIsFlat(line: string, s: string)
    requires Flat(line)
    ensures AllFlat(SplitFrom(line, s))
    decreases |s|
  {
    if s != "" {
      if s[0] == '\r' && |s| > 1 && s[1] == '\n' {
        SplitIsFlat("", s[2..]);
      } else if IsBreak(s[0]) {
        SplitIsFlat("", s[1..]);
      } else {
        SplitIsFlat(line + [s[0]], s[1..]);
      }
    }
  }

  /** A flat line and its newline split off as that line. */
  lemma {:induction false} SplitOffLine(line: string, l: string, rest: string)
    requires Flat(l)
    ensures SplitFrom(line, l + "\n" + rest) == [line + l] + SplitFrom("", rest)
    decreases |l|
  {
    var s := l + "\n" + rest;
    if l == "" {
      assert s[1..] == rest && line + l == line;
    } else {
      assert s[0] == l[0] && s[1..] == l[1..] + "\n" + rest;
      SplitOffLine(line + [l[0]], l[1..], rest);
      assert line + [l[0]] + l[1..] == line + l;
    }
  }

  /** Joining flat lines and splitting again gives the lines back. */
  lemma {:induction false} SplitUnlines(lines: seq<string>)
    requires AllFlat(lines)
    ensures SplitLines(Unlines(lines)) == lines
  {
    if lines != [] {
      SplitUnlines(lines[1..]);
      SplitOffLine("", lines[0], Unlines(lines[1..]));
      assert "" + lines[0] == lines[0];
    }
  }

  /** Text after a newline is split on its own. */
  lemma {:induction false} SplitJoin(line: string, s: string, more: string)
    requires EndsWithNewline(s)
    ensures SplitFrom(line, s + more) == SplitFrom(line, s) + SplitFrom("", more)
    decreases |s|, 1
  {
    if IsBreak(s[0]) {
      SplitJoinBreak(line, s, more);
    } else {
      SplitJoin(line + [s[0]], s[1..], more);
      SplitPlain(line, s);
      SplitPlain(line, s + more);
      assert (s + more)[1..] == s[1..] + more;
    }
  }

  lemma {:induction false} SplitJoinBreak(line: string, s: string, more: string)
    requires EndsWithNewline(s) && IsBreak(s[0])
    ensures SplitFrom(line, s + more) == SplitFrom(line, s) + SplitFrom("", more)
    decreases |s|, 0
  {
    var k := if s[0] == '\r' && |s| > 1 && s[1] == '\n' then 2 else 1;
    SplitRest(s[k..], more);
    assert (s + more)[k..] == s[k..] + more;
    SplitBreak(line, s, k);
    assert (s + more)[0] == s[0] && (|s| > 1 ==> (s + more)[1] == s[1]);
    SplitBreak(line, s + more, k);
    Reassociate(line, SplitFrom("", s[k..]), SplitFrom("", more));
  }

  /** What is left after a break is empty, or ends with the same newline. */
  lemma {:induction false} SplitRest(rest: string, more: string)
    requires rest == "" || EndsWithNewline(rest)
    ensures SplitFrom("", rest + more) == SplitFrom("", rest) + SplitFrom("", more)
    decreases |rest|, 2
  {
    if rest == "" {
      assert rest + more == more;
    } else {
      SplitJoin("", rest, more);
    }
  }

  lemma SplitPlain(line: string, s: string)
    requires s != "" && !IsBreak(s[0])
    ensures SplitFrom(line, s) == SplitFrom(line + [s[0]], s[1..])
  {
  }

  lemma Reassociate(line: string, a: seq<string>, b: seq<string>)
    ensures [line] + (a + b) == [line] + a + b
  {
  }

  /** A break, `k` characters long, ends the line begun. */
  lemma SplitBreak(line: string, s: string, k: nat)
    requires s != "" && IsBreak(s[0]) && k == (if s[0] == '\r' && |s| > 1 && s[1] == '\n' then 2 else 1)
    ensures SplitFrom(line, s) == [line] + SplitFrom("", s[k..])
  {
  }

  /** A closing newline starts a line of its own after a break, unless that break is a carriage return. */
  predicate Opens(line: string, s: string) {
    if s == "" then line == "" else IsBreak(s[|s| - 1]) && s[|s| - 1] != '\r'
  }

  lemma {:induction false} SplitClosed(line: string, s: string)
    ensures |SplitFrom(line, s + "\n")| == |SplitFrom(line, s)| + Bit(Opens(line, s))
    decreases |s|
  {
    var t := s + "\n";
    if s == "" {
      assert t[1..] == "";
    } else if s == "\r" {
      assert t[2..] == "" && s[1..] == "";
    } else if s[0] == '\r' && s[1] == '\n' {
      assert t[2..] == s[2..] + "\n";
      SplitClosed("", s[2..]);
    } else {
      assert t[1..] == s[1..] + "\n";
      SplitClosed(if IsBreak(s[0]) then "" else line + [s[0]], s[1..]);
    }
  }

  // ---------------------------------------------------------------------------
  // Line padding
  // ---------------------------------------------------------------------------

  /** The files that end up with one line too many: the empty one, and one whose last character is a
      line break other than a newline or a carriage return. */
  predicate HasExtraLine(content: string) {
    content == "" ||
      var c := content[|content| - 1];
      || c == 11 as char || c == 12 as char || c == 28 as char || c == 29 as char || c == 30 as char
      || c == 133 as char || c == 8232 as char || c == 8233 as char
  }

  lemma BodyLines(content: string)
    ensures EndsWithNewline(Body(content) + "\n")
    ensures |SplitLines(Body(content) + "\n")| == |SplitLines(content)| + Bit(HasExtraLine(content))
  {
    if EndsWithNewline(content) {
      assert Body(content) + "\n" == content;
    } else {
      SplitClosed("", content);
    }
  }

  /** Line padding keeps the file's lines and adds pad lines: up to the target count, and one more in the two
      cases above. */
  lemma PadLinesCount(content: string, target: nat)
    requires |SplitLines(content)| <= target
    ensures var r := PadLines(content, target);
      && EndsWithNewline(r) && Body(content) + "\n" <= r
      && |SplitLines(r)| == target + Bit(HasExtraLine(content))
      && SplitLines(Body(content) + "\n") <= SplitLines(r)
      && (forall i | |SplitLines(Body(content) + "\n")| <= i < |SplitLines(r)| ::
            SplitLines(r)[i] == "# sealed metadata pad")
  {
    BodyLines(content);
    var n := target - |SplitLines(content)|;
    if n > 0 {
      var closed, block := Body(content) + "\n", Repeat(PAD, n);
      PadIsFlat();
      RepeatFlat(PAD, n);
      SplitJoin("", closed, Unlines(block));
      SplitUnlines(block);
      UnlinesCloses(block);
      assert PadLines(content, target) == closed + Unlines(block);
    }
  }

  lemma {:induction false} UnlinesCloses(lines: seq<string>)
    requires lines != []
    ensures EndsWithNewline(Unlines(lines))
  {
    if |lines| > 1 {
      UnlinesCloses(lines[1..]);
    }
  }

  // ---------------------------------------------------------------------------
  // Byte padding
  // ---------------------------------------------------------------------------

  /** How many bytes rejoining with newlines saves: each break longer than one byte becomes a newline. */
  function Excess(s: string): nat {
    if s == "" then 0
    else if s[0] == '\r' && |s| > 1 && s[1] == '\n' then 1 + Excess(s[2..])
    else (if IsBreak(s[0]) then CharBytes(s[0]) - 1 else 0) + Excess(s[1..])
  }

  /** A break of more than one byte at a position. */
  predicate WideBreakAt(s: string, i: nat)
    requires i < |s|
  {
    || s[i] == 133 as char || s[i] == 8232 as char || s[i] == 8233 as char
    || (s[i] == '\r' && i + 1 < |s| && s[i + 1] == '\n')
  }

  ghost predicate NoWideBreak(s: string) {
    forall i | 0 <= i < |s| :: !WideBreakAt(s, i)
  }

  lemma NoWideBreakTail(s: string, k: nat)
    requires k <= |s|
    ensures NoWideBreak(s) <==> NoWideBreak(s[k..]) && forall i | 0 <= i < k :: !WideBreakAt(s, i)
  {
    forall i | 0 <= i < |s| - k ensures WideBreakAt(s[k..], i) <==> WideBreakAt(s, k + i) {}
    if NoWideBreak(s[k..]) && forall i | 0 <= i < k :: !WideBreakAt(s, i) {
      forall i | 0 <= i < |s| ensures !WideBreakAt(s, i) {
        if i >= k {
          assert !WideBreakAt(s[k..], i - k);
        }
      }
    }
    if NoWideBreak(s) {
      forall i | 0 <= i < |s[k..]| ensures !WideBreakAt(s[k..], i) {
        assert !WideBreakAt(s, k + i);
      }
    }
  }

  /** Nothing is saved exactly when no break is wider than a byte. */
  lemma {:induction false} NoExcess(s: string)
    ensures Excess(s) == 0 <==> NoWideBreak(s)
  {
    if s != "" {
      if s[0] == '\r' && |s| > 1 && s[1] == '\n' {
        assert WideBreakAt(s, 0);
      } else {
        NoExcess(s[1..]);
        NoWideBreakTail(s, 1);
        assert IsBreak(s[0]) && CharBytes(s[0]) > 1 <==> WideBreakAt(s, 0);
      }
    }
  }

  lemma UnlinesCons(line: string, lines: seq<string>)
    ensures Bytes(Unlines([line] + lines)) == Bytes(line) + 1 + Bytes(Unlines(lines))
  {
    assert ([line] + lines)[1..] == lines;
    BytesJoin(line, "\n");
    BytesJoin(line + "\n", Unlines(lines));
    assert Bytes("\n") == 1;
  }

  /** Splitting and rejoining a closed text saves exactly its excess. */
  lemma {:induction false} RejoinSaves(line: string, s: string)
    requires EndsWithNewline(s)
    ensures Bytes(Unlines(SplitFrom(line, s))) + Excess(s) == Bytes(line) + Bytes(s)
    decreases |s|
  {
    if s[0] == '\r' && |s| > 1 && s[1] == '\n' {
      var rest := s[2..];
      assert s == [s[0]] + ([s[1]] + rest) && s[1..] == [s[1]] + rest && s[1..][1..] == rest;
      UnlinesCons(line, SplitFrom("", rest));
      if rest != "" { RejoinSaves("", rest); }
    } else if IsBreak(s[0]) {
      UnlinesCons(line, SplitFrom("", s[1..]));
      if s[1..] != "" { RejoinSaves("", s[1..]); }
    } else {
      RejoinSaves(line + [s[0]], s[1..]);
      BytesJoin(line, [s[0]]);
    }
  }

  /** Lengthening the last line lengthens the joined text by as much. */
  lemma {:induction false} LastLineGrows(lines: seq<string>, more: string)
    requires lines != []
    ensures var last := |lines| - 1;
      Bytes(Unlines(lines[last := lines[last] + more])) == Bytes(Unlines(lines)) + Bytes(more)
  {
    var last := |lines| - 1;
    var longer := lines[last := lines[last] + more];
    assert lines == [lines[0]] + lines[1..] && longer == [longer[0]] + longer[1..];
    UnlinesCons(lines[0], lines[1..]);
    UnlinesCons(longer[0], longer[1..]);
    if last == 0 {
      assert lines[1..] == [] && longer[1..] == [];
      BytesJoin(lines[0], more);
    } else {
      LastLineGrows(lines[1..], more);
      assert longer[1..] == lines[1..][last - 1 := lines[1..][last - 1] + more];
    }
  }

  /** What byte padding does to the lines: spaces after the last one. */
  ghost predicate SameLines(content: string, r: string) {
    var lines, lines' := SplitLines(content), SplitLines(r);
    && |lines'| == |lines|
    && (forall i | 0 <= i < |lines| - 1 :: lines'[i] == lines[i])
    && (lines != [] ==>
          var was, now := lines[|lines| - 1], lines'[|lines| - 1];
          was <= now && forall i | |was| <= i < |now| :: now[i] == ' ')
  }

  lemma WidenedLines(lines: seq<string>, n: nat)
    requires lines != [] && AllFlat(lines)
    ensures var last := |lines| - 1;
      var longer := lines[last := lines[last] + Spaces(n)];
      SplitLines(Unlines(longer)) == longer
  {
    SpacesFlat(n);
    SplitUnlines(lines[|lines| - 1 := lines[|lines| - 1] + Spaces(n)]);
  }

  lemma SplitNonEmpty(line: string, s: string)
    requires s != ""
    ensures SplitFrom(line, s) != []
    decreases |s|
  {
    if !IsBreak(s[0]) && s[1..] != "" {
      SplitNonEmpty(line + [s[0]], s[1..]);
    }
  }

  /** Byte padding keeps the lines, but for trailing spaces on the last, and falls short of the target by
      exactly the bytes that rejoining saves. */
  lemma PadBytesCount(content: string, target: nat)
    requires EndsWithNewline(content) && Bytes(content) <= target
    ensures SameLines(content, PadBytes(content, target))
    ensures Bytes(PadBytes(content, target)) == target - if Bytes(content) < target then Excess(content) else 0
    ensures Excess(content) <= Bytes(content)
  {
    RejoinSaves("", content);
    if Bytes(content) < target {
      PadBytesWidens(content, target - Bytes(content));
    }
  }

  lemma PadBytesWidens(content: string, missing: nat)
    requires EndsWithNewline(content) && missing > 0
    ensures var r := PadBytes(content, Bytes(content) + missing);
      SameLines(content, r) && Bytes(r) == Bytes(Unlines(SplitLines(content))) + missing
  {
    var lines := SplitLines(content);
    SplitNonEmpty("", content);
    SplitIsFlat("", content);
    WidenedLines(lines, missing);
    LastLineGrows(lines, Spaces(missing));
    SpacesFlat(missing);
  }

  lemma NoWideBreakJoin(a: string, b: string)
    requires EndsWithNewline(a)
    ensures NoWideBreak(a + b) <==> NoWideBreak(a) && NoWideBreak(b)
  {
    var s := a + b;
    NoWideBreakTail(s, |a|);
    assert s[|a|..] == b;
    forall i | 0 <= i < |a| ensures WideBreakAt(s, i) <==> WideBreakAt(a, i) {
      assert s[i] == a[i] && (i + 1 < |a| ==> s[i + 1] == a[i + 1]);
    }
  }

  lemma {:induction false} UnlinesHasNoWideBreak(lines: seq<string>)
    requires AllFlat(lines)
    ensures NoWideBreak(Unlines(lines))
  {
    if lines != [] {
      var first := lines[0] + "\n";
      UnlinesHasNoWideBreak(lines[1..]);
      assert Flat(lines[0]);
      assert NoWideBreak(first);
      NoWideBreakJoin(first, Unlines(lines[1..]));
    }
  }

  /** Line padding adds no wide break and takes none away. */
  lemma PadLinesBreaks(content: string, target: nat)
    ensures NoWideBreak(PadLines(content, target)) <==> NoWideBreak(Body(content) + "\n")
  {
    var count := |SplitLines(content)|;
    if count < target {
      PadIsFlat();
      RepeatFlat(PAD, target - count);
      UnlinesHasNoWideBreak(Repeat(PAD, target - count));
      NoWideBreakJoin(Body(content) + "\n", Unlines(Repeat(PAD, target - count)));
    }
  }

  // ---------------------------------------------------------------------------
  // All files
  // ---------------------------------------------------------------------------

  lemma TargetFits(files: seq<string>, i: nat)
    requires i < |files|
    ensures |SplitLines(files[i])| <= LineTarget(files)
    ensures LineTarget(files) >= 16 && LineTarget(files) % 16 == 0
    ensures LineTarget(files) == 16 || exists j | 0 <= j < |files| :: |SplitLines(files[j])| > LineTarget(files) - 16
  {
    var counts := LineCounts(files);
    assert counts[i] <= MaxOf(counts);
    var j :| 0 <= j < |counts| && counts[j] == MaxOf(counts);
    assert |SplitLines(files[j])| == MaxOf(counts);
  }

  function ByteTarget(files: seq<string>): nat {
    MaxOf(ByteCounts(LinePadded(files)))
  }

  /** A file's line count and byte length after both paddings. */
  function LinesAfter(files: seq<string>, i: nat): nat
    requires i < |files|
  {
    |SplitLines(Normalized(files)[i])|
  }

  function BytesAfter(files: seq<string>, i: nat): nat
    requires i < |files|
  {
    Bytes(Normalized(files)[i])
  }

  /** What each file ends up with, whatever it holds. */
  lemma FileIsNormalized(files: seq<string>, i: nat)
    requires i < |files|
    ensures var padded := LinePadded(files)[i];
      && Body(files[i]) + "\n" <= padded && SameLines(padded, Normalized(files)[i])
      && LinesAfter(files, i) == LineTarget(files) + Bit(HasExtraLine(files[i]))
      && (BytesAfter(files, i) == ByteTarget(files)
          <==> Bytes(padded) == ByteTarget(files) || NoWideBreak(Body(files[i]) + "\n"))
  {
    var padded := LinePadded(files);
    TargetFits(files, i);
    PadLinesCount(files[i], LineTarget(files));
    assert ByteCounts(padded)[i] == Bytes(padded[i]);
    PadBytesCount(padded[i], ByteTarget(files));
    NoExcess(padded[i]);
    PadLinesBreaks(files[i], LineTarget(files));
  }

  /**
    The exact classes of files that end up alike. All reach the common line count, a multiple of 16,
    if and only if none is empty or ends with an odd break; they have one line count if and only if
    none or all of them do. All reach the common byte length if and only if none but the longest,
    once line padded, holds a break wider than a byte, its own closing newline counted in.
   */
  lemma NormalizedAlike(files: seq<string>)
    ensures (forall i | 0 <= i < |files| :: LinesAfter(files, i) == LineTarget(files))
       <==> (forall i | 0 <= i < |files| :: !HasExtraLine(files[i]))
    ensures (forall i, j | 0 <= i < |files| && 0 <= j < |files| :: LinesAfter(files, i) == LinesAfter(files, j))
       <==> (forall i, j | 0 <= i < |files| && 0 <= j < |files| :: HasExtraLine(files[i]) <==> HasExtraLine(files[j]))
    ensures (forall i | 0 <= i < |files| :: BytesAfter(files, i) == ByteTarget(files))
       <==> (forall i | 0 <= i < |files| ::
              Bytes(LinePadded(files)[i]) == ByteTarget(files) || NoWideBreak(Body(files[i]) + "\n"))
    ensures files != [] ==> LineTarget(files) >= 16 && LineTarget(files) % 16 == 0
    ensures files != [] ==>
      LineTarget(files) == 16 || exists j | 0 <= j < |files| :: |SplitLines(files[j])| > LineTarget(files) - 16
    ensures files != [] ==> exists j | 0 <= j < |files| :: Bytes(LinePadded(files)[j]) == ByteTarget(files)
    ensures forall j | 0 <= j < |files| :: Bytes(LinePadded(files)[j]) <= ByteTarget(files)
  {
    forall i | 0 <= i < |files|
      ensures LinesAfter(files, i) == LineTarget(files) + Bit(HasExtraLine(files[i]))
      ensures BytesAfter(files, i) == ByteTarget(files)
         <==> Bytes(LinePadded(files)[i]) == ByteTarget(files) || NoWideBreak(Body(files[i]) + "\n")
    {
      FileIsNormalized(files, i);
    }
    ByteTargetIsLargest(files);
    if files != [] {
      TargetFits(files, 0);
    }
  }

  lemma ByteTargetIsLargest(files: seq<string>)
    ensures files != [] ==> exists j | 0 <= j < |files| :: Bytes(LinePadded(files)[j]) == ByteTarget(files)
    ensures forall j | 0 <= j < |files| :: Bytes(LinePadded(files)[j]) <= ByteTarget(files)
  {
    var counts := ByteCounts(LinePadded(files));
    assert forall j | 0 <= j < |files| :: counts[j] == Bytes(LinePadded(files)[j]);
    if files != [] {
      var j :| 0 <= j < |counts| && counts[j] == MaxOf(counts);
      assert Bytes(LinePadded(files)[j]) == ByteTarget(files);
    }
  }

  // ---------------------------------------------------------------------------
  // Two inputs that do not end up alike
  // ---------------------------------------------------------------------------

  /** An empty file beside one that is not. */
  lemma EmptyFileStandsOut()
    ensures var files := ["", "a"]; LinesAfter(files, 0) == LinesAfter(files, 1) + 1
  {
    var files := ["", "a"];
    FileIsNormalized(files, 0);
    FileIsNormalized(files, 1);
  }

  lemma OneLine(line: string, end: string)
    requires Flat(line) && (end == "\n" || end == "\r\n")
    ensures |SplitLines(line + end)| == 1
  {
    if end == "\n" {
      SplitOffLine("", line, "");
      assert line + end + "" == line + end;
    } else {
      SplitOffReturn("", line);
    }
  }

  lemma {:induction false} SplitOffReturn(line: string, l: string)
    requires Flat(l)
    ensures SplitFrom(line, l + "\r\n") == [line + l]
    decreases |l|
  {
    var s := l + "\r\n";
    if l == "" {
      assert s[2..] == "" && line + l == line;
    } else {
      assert s[0] == l[0] && s[1..] == l[1..] + "\r\n";
      SplitOffReturn(line + [l[0]], l[1..]);
      assert line + [l[0]] + l[1..] == line + l;
    }
  }

  /** A file of one line that ends with a carriage return and a newline, beside a longer one. */
  lemma CarriageReturnFallsShort()
    ensures var files := ["a\r\n", "bbb\n"]; BytesAfter(files, 0) != ByteTarget(files)
  {
    var files := ["a\r\n", "bbb\n"];
    assert Body(files[0]) + "\n" == "a\r\n" && Body(files[1]) + "\n" == "bbb\n";
    AsciiBytes("a\r\n");
    AsciiBytes("bbb\n");
    OneLine("a", "\r\n");
    OneLine("bbb", "\n");
    TargetFits(files, 0);
    ShorterPadded(files[0], files[1], LineTarget(files));
    NotLongest(files, 0, 1);
    assert WideBreakAt("a\r\n", 1);
    FileIsNormalized(files, 0);
  }

  lemma {:induction false} AsciiBytes(s: string)
    requires forall i | 0 <= i < |s| :: s[i] < 128 as char
    ensures Bytes(s) == |s|
  {
    if s != "" {
      AsciiBytes(s[1..]);
    }
  }

  lemma PaddedBytes(content: string, target: nat)
    requires |SplitLines(content)| <= target
    ensures Bytes(PadLines(content, target))
         == Bytes(Body(content) + "\n") + Bytes(Unlines(Repeat(PAD, target - |SplitLines(content)|)))
  {
    if |SplitLines(content)| < target {
      BytesJoin(Body(content) + "\n", Unlines(Repeat(PAD, target - |SplitLines(content)|)));
    }
  }

  /** Of two files of as many lines, the one with the shorter body is the shorter once padded. */
  lemma ShorterPadded(a: string, b: string, target: nat)
    requires |SplitLines(a)| == |SplitLines(b)| <= target && Bytes(Body(a) + "\n") < Bytes(Body(b) + "\n")
    ensures Bytes(PadLines(a, target)) < Bytes(PadLines(b, target))
  {
    PaddedBytes(a, target);
    PaddedBytes(b, target);
  }

  lemma NotLongest(files: seq<string>, i: nat, j: nat)
    requires i < |files| && j < |files| && Bytes(LinePadded(files)[i]) < Bytes(LinePadded(files)[j])
    ensures Bytes(LinePadded(files)[i]) != ByteTarget(files)
  {
    assert ByteCounts(LinePadded(files))[j] == Bytes(LinePadded(files)[j]);
  }
}
