/**
  The vote-fence escape decoder: six global replacement passes, against one left-to-right scan.
 */
module Escapes {
  import opened Strings

  const NUL: char := '\0'

  /** Global left-to-right replacement of a backslash followed by `mark`. */
  function ReplacePair(s: string, mark: char, to: char): string {
    if |s| < 2 then s
    else if s[0] == '\\' && s[1] == mark then [to] + ReplacePair(s[2..], mark, to)
    else [s[0]] + ReplacePair(s[1..], mark, to)
  }

  /** The four middle passes. */
  function MarkPasses(s: string): string {
    ReplacePair(ReplacePair(ReplacePair(ReplacePair(s, 'n', '\n'), 'r', '\r'), 't', '\t'), '"', '"')
  }

  function Decode(s: string): string {
    ReplaceChar(MarkPasses(ReplacePair(s, '\\', NUL)), NUL, '\\')
  }

  // ---------------------------------------------------------------------------
  // One scan
  // ---------------------------------------------------------------------------

  predicate IsMark(c: char) {
    c == '\\' || c == '"' || c == 'n' || c == 'r' || c == 't'
  }

  function Meaning(mark: char): char
    requires IsMark(mark)
  {
    match mark
    case 'n' => '\n'
    case 'r' => '\r'
    case 't' => '\t'
    case c => c
  }

  function Scan(s: string): string {
    if s == "" then ""
    else if |s| >= 2 && s[0] == '\\' && IsMark(s[1]) then [Meaning(s[1])] + Scan(s[2..])
    else [s[0]] + Scan(s[1..])
  }

  function EscapeChar(c: char): string {
    match c
    case '\\' => "\\\\"
    case '"' => "\\\""
    case '\n' => "\\n"
    case '\r' => "\\r"
    case '\t' => "\\t"
    case _ => [c]
  }

  function Escape(s: string): string {
    if s == "" then "" else EscapeChar(s[0]) + Escape(s[1..])
  }

  // ---------------------------------------------------------------------------
  // What a pass does to the front of a string
  // ---------------------------------------------------------------------------

  lemma PlainPasses(c: char, s: string, mark: char, to: char)
    requires c != '\\'
    ensures ReplacePair([c] + s, mark, to) == [c] + ReplacePair(s, mark, to)
  {
    assert ([c] + s)[1..] == s;
  }

  lemma PairHits(s: string, mark: char, to: char)
    ensures ReplacePair(['\\', mark] + s, mark, to) == [to] + ReplacePair(s, mark, to)
  {
    assert (['\\', mark] + s)[2..] == s;
  }

  lemma PairMisses(c: char, s: string, mark: char, to: char)
    requires c != mark && c != '\\'
    ensures ReplacePair(['\\', c] + s, mark, to) == ['\\', c] + ReplacePair(s, mark, to)
  {
    var whole := ['\\', c] + s;
    assert whole[1..] == [c] + s;
    PlainPasses(c, s, mark, to);
    assert ['\\'] + ([c] + ReplacePair(s, mark, to)) == ['\\', c] + ReplacePair(s, mark, to);
  }

  lemma PlainMarkPasses(c: char, s: string)
    requires c != '\\'
    ensures MarkPasses([c] + s) == [c] + MarkPasses(s)
  {
    var a := ReplacePair(s, 'n', '\n');
    var b := ReplacePair(a, 'r', '\r');
    var d := ReplacePair(b, 't', '\t');
    PlainPasses(c, s, 'n', '\n');
    PlainPasses(c, a, 'r', '\r');
    PlainPasses(c, b, 't', '\t');
    PlainPasses(c, d, '"', '"');
  }

  lemma PairMarkPasses(c: char, s: string)
    requires c != '\\'
    ensures MarkPasses(['\\', c] + s) == (if IsMark(c) then [Meaning(c)] else ['\\', c]) + MarkPasses(s)
  {
    var a := ReplacePair(s, 'n', '\n');
    var b := ReplacePair(a, 'r', '\r');
    var d := ReplacePair(b, 't', '\t');
    if c == 'n' {
      PairHits(s, 'n', '\n');
      PlainPasses('\n', a, 'r', '\r');
      PlainPasses('\n', b, 't', '\t');
      PlainPasses('\n', d, '"', '"');
    } else {
      PairMisses(c, s, 'n', '\n');
      if c == 'r' {
        PairHits(a, 'r', '\r');
        PlainPasses('\r', b, 't', '\t');
        PlainPasses('\r', d, '"', '"');
      } else {
        PairMisses(c, a, 'r', '\r');
        if c == 't' {
          PairHits(b, 't', '\t');
          PlainPasses('\t', d, '"', '"');
        } else {
          PairMisses(c, b, 't', '\t');
          if c == '"' {
            PairHits(d, '"', '"');
          } else {
            PairMisses(c, d, '"', '"');
          }
        }
      }
    }
  }

  lemma ReplaceCharJoins(a: string, b: string, from: char, to: char)
    ensures ReplaceChar(a + b, from, to) == ReplaceChar(a, from, to) + ReplaceChar(b, from, to)
  {
  }

  // ---------------------------------------------------------------------------
  // What the whole decoder does to the front of a string
  // ---------------------------------------------------------------------------

  lemma DecodesPlain(c: char, s: string)
    requires c != '\\'
    ensures Decode([c] + s) == [if c == NUL then '\\' else c] + Decode(s)
  {
    var rest := ReplacePair(s, '\\', NUL);
    PlainPasses(c, s, '\\', NUL);
    PlainMarkPasses(c, rest);
    ReplaceCharJoins([c], MarkPasses(rest), NUL, '\\');
  }

  lemma DecodesBackslash(s: string)
    ensures Decode("\\\\" + s) == ['\\'] + Decode(s)
  {
    var rest := ReplacePair(s, '\\', NUL);
    PairHits(s, '\\', NUL);
    PlainMarkPasses(NUL, rest);
    ReplaceCharJoins([NUL], MarkPasses(rest), NUL, '\\');
  }

  lemma DecodesPair(c: char, s: string)
    requires c != '\\' && c != NUL
    ensures Decode(['\\', c] + s) == (if IsMark(c) then [Meaning(c)] else ['\\', c]) + Decode(s)
  {
    var rest := ReplacePair(s, '\\', NUL);
    var head := if IsMark(c) then [Meaning(c)] else ['\\', c];
    PairMisses(c, s, '\\', NUL);
    PairMarkPasses(c, rest);
    ReplaceCharJoins(head, MarkPasses(rest), NUL, '\\');
    assert ReplaceChar(head, NUL, '\\') == head;
  }

  /** On a string without NUL, the six passes are one scan. */
  lemma {:induction false} DecodeIsScan(s: string)
    requires NUL !in s
    ensures Decode(s) == Scan(s)
  {
    if |s| >= 2 && s[0] == '\\' {
      assert s == [s[0], s[1]] + s[2..];
      DecodeIsScan(s[2..]);
      if s[1] == '\\' {
        DecodesBackslash(s[2..]);
      } else {
        DecodesPair(s[1], s[2..]);
        if !IsMark(s[1]) {
          assert s[1..] == [s[1]] + s[2..] && s[1..][1..] == s[2..];
        }
      }
    } else if s != "" && s[0] != '\\' {
      assert s == [s[0]] + s[1..];
      DecodeIsScan(s[1..]);
      DecodesPlain(s[0], s[1..]);
    }
  }

  lemma {:induction false} ScanKeepsNul(s: string)
    ensures NUL in Scan(s) <==> NUL in s
  {
    if |s| >= 2 && s[0] == '\\' && IsMark(s[1]) {
      ScanKeepsNul(s[2..]);
      assert s == [s[0], s[1]] + s[2..];
    } else if s != "" {
      ScanKeepsNul(s[1..]);
      assert s == [s[0]] + s[1..];
    }
  }

  /** The passes lose every NUL, so they agree with the scan exactly on strings without one. */
  lemma DecodeIsScanIffNoNul(s: string)
    ensures Decode(s) == Scan(s) <==> NUL !in s
  {
    if NUL !in s {
      DecodeIsScan(s);
    } else {
      ScanKeepsNul(s);
      assert NUL !in Decode(s);
    }
  }

  lemma {:induction false} ScanInvertsEscape(s: string)
    ensures Scan(Escape(s)) == s
  {
    if s != "" {
      ScanInvertsEscape(s[1..]);
      var head, rest := EscapeChar(s[0]), Escape(s[1..]);
      if |head| == 1 {
        assert (head + rest)[1..] == rest;
      } else {
        assert (head + rest)[2..] == rest;
      }
    }
  }

  lemma {:induction false} EscapeKeepsNul(s: string)
    ensures NUL in Escape(s) <==> NUL in s
  {
    if s != "" {
      EscapeKeepsNul(s[1..]);
      assert s == [s[0]] + s[1..];
    }
  }

  /** Decoding inverts escaping exactly on strings without NUL. */
  lemma DecodeInvertsEscapeIffNoNul(s: string)
    ensures Decode(Escape(s)) == s <==> NUL !in s
  {
    EscapeKeepsNul(s);
    ScanInvertsEscape(s);
    DecodeIsScanIffNoNul(Escape(s));
  }
}
