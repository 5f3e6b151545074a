/**
  Text: white space, decimal numerals, and taking text apart at a delimiter.
 */
module Strings {

  /** The characters that stripping removes. */
  predicate IsSpace(c: char) {
    || c == ' ' || 9 as char <= c <= 13 as char || 28 as char <= c <= 31 as char
    || c == 133 as char || c == 160 as char || c == 5760 as char || 8192 as char <= c <= 8202 as char
    || c == 8232 as char || c == 8233 as char || c == 8239 as char || c == 8287 as char || c == 12288 as char
  }

  /** Nothing is left of the text once stripped. */
  predicate IsBlank(s: string) {
    forall i | 0 <= i < |s| :: IsSpace(s[i])
  }

  predicate IsDigit(c: char) {
    '0' <= c <= '9'
  }

  predicate AllDigits(s: string) {
    forall i | 0 <= i < |s| :: IsDigit(s[i])
  }

  function Digits(n: nat): (s: string)
    ensures s != "" && AllDigits(s) && (n > 0 ==> s[0] != '0') && (|s| == 1 <==> n < 10)
  {
    if n < 10 then ['0' + n as char] else Digits(n / 10) + ['0' + (n % 10) as char]
  }

  /** The value a numeral denotes. */
  ghost function Value(s: string): nat
    requires AllDigits(s)
  {
    if s == "" then 0 else 10 * Value(s[..|s| - 1]) + (s[|s| - 1] - '0') as nat
  }

  lemma {:induction false} DigitsDenote(n: nat)
    ensures Value(Digits(n)) == n
  {
    if n >= 10 {
      DigitsDenote(n / 10);
      var head := Digits(n / 10);
      assert Digits(n)[..|Digits(n)| - 1] == head;
    } else {
      assert Digits(n)[..0] == "";
    }
  }

  /** At least two digits, and no more zeros in front than that takes. */
  function Numeral(n: nat): (s: string)
    ensures |s| >= 2 && AllDigits(s) && (|s| > 2 ==> s[0] != '0')
  {
    if n < 10 then "0" + Digits(n) else Digits(n)
  }

  lemma NumeralDenotes(n: nat)
    ensures Value(Numeral(n)) == n
  {
    DigitsDenote(n);
    if n < 10 {
      var s := Numeral(n);
      assert |s| == 2 && s[..1] == "0" && s[..1][..0] == "";
      assert Value("0") == 0;
    }
  }

  /** Text of digits ends at the first non-digit. */
  lemma DigitsEnd(a: string, x: string, b: string, y: string)
    requires AllDigits(a) && AllDigits(b) && a + x == b + y
    requires x == "" || !IsDigit(x[0])
    requires y == "" || !IsDigit(y[0])
    ensures a == b && x == y
  {
    var whole := a + x;
    assert forall i | 0 <= i < |a| :: whole[i] == a[i];
    assert forall i | 0 <= i < |b| :: whole[i] == b[i];
    assert x != "" ==> whole[|a|] == x[0];
    assert y != "" ==> whole[|b|] == y[0];
    assert |a| == |b|;
    assert a == whole[..|a|] && b == whole[..|b|];
    assert x == whole[|a|..] && y == whole[|b|..];
  }

  lemma SamePrefix(p: string, x: string, y: string)
    requires p + x == p + y
    ensures x == y
  {
    assert x == (p + x)[|p|..] && y == (p + y)[|p|..];
  }

  /** Text splits in one way at the first occurrence of a character. */
  lemma FirstSplit(a: string, x: string, b: string, y: string, c: char)
    requires c !in a && c !in b && a + [c] + x == b + [c] + y
    ensures a == b && x == y
  {
    var u, v := a + [c] + x, b + [c] + y;
    assert u[|a|] == c && v[|b|] == c;
    assert forall i | 0 <= i < |a| :: u[i] == a[i];
    assert forall i | 0 <= i < |b| :: v[i] == b[i];
    assert |a| == |b|;
    assert a == u[..|a|] && b == v[..|b|];
    assert x == u[|a| + 1..] && y == v[|b| + 1..];
  }

  /** Text splits in one way at the last occurrence of a character. */
  lemma LastSplit(a: string, x: string, b: string, y: string, c: char)
    requires c !in x && c !in y && a + [c] + x == b + [c] + y
    ensures a == b && x == y
  {
    var u, v := a + [c] + x, b + [c] + y;
    assert u[|a|] == c && v[|b|] == c;
    assert forall i | 0 <= i < |x| :: u[|a| + 1 + i] == x[i];
    assert forall i | 0 <= i < |y| :: v[|b| + 1 + i] == y[i];
    assert |a| == |b|;
    assert a == u[..|a|] && b == v[..|b|];
    assert x == u[|a| + 1..] && y == v[|b| + 1..];
  }

  /** Index of the last `c` in `s`, or -1. */
  function LastIndex(s: string, c: char): (k: int)
    ensures -1 <= k < |s| && (k >= 0 ==> s[k] == c)
    ensures forall i | k < i < |s| :: s[i] != c
  {
    if s == "" then -1 else if s[|s| - 1] == c then |s| - 1 else LastIndex(s[..|s| - 1], c)
  }

  function ReplaceChar(s: string, from: char, to: char): (r: string)
    ensures |r| == |s| && forall i | 0 <= i < |s| :: r[i] == if s[i] == from then to else s[i]
  {
    if s == "" then "" else [if s[0] == from then to else s[0]] + ReplaceChar(s[1..], from, to)
  }

  lemma ReplaceNothing(s: string, from: char, to: char)
    requires forall i | 0 <= i < |s| :: s[i] != from
    ensures ReplaceChar(s, from, to) == s
  {
  }
}
