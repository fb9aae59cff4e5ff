/** Decimal text of a number, as file names and the chunk manifest carry it. */
module Decimal {
  import opened Wrappers

  function Digit(d: nat): char
    requires d < 10
  {
    '0' + d as char
  }

  predicate IsDigit(c: char) {
    '0' <= c <= '9'
  }

  function DigitValue(c: char): nat
    requires IsDigit(c)
  {
    (c - '0') as nat
  }

  function Text(n: nat): (s: string)
    ensures s != "" && forall i :: 0 <= i < |s| ==> IsDigit(s[i])
  {
    if n < 10 then [Digit(n)] else Text(n / 10) + [Digit(n % 10)]
  }

  /** At least two digits. */
  function Padded(n: nat): (s: string)
    ensures s != "" && forall i :: 0 <= i < |s| ==> IsDigit(s[i])
  {
    if n < 10 then "0" + Text(n) else Text(n)
  }

  /** `int(text)` for an unsigned decimal, None where it raises. */
  function Parse(s: string): Option<nat>
    decreases |s|
  {
    if s == "" || !IsDigit(s[|s| - 1]) then None
    else if |s| == 1 then Some(DigitValue(s[0]))
    else
      var front := Parse(s[..|s| - 1]);
      if front.None? then None else Some(front.value * 10 + DigitValue(s[|s| - 1]))
  }

  lemma {:induction false} ParseText(n: nat)
    ensures Parse(Text(n)) == Some(n)
  {
    if n >= 10 {
      ParseText(n / 10);
      assert Text(n)[..|Text(n)| - 1] == Text(n / 10);
    }
  }

  lemma {:induction false} NoLeadingZero(n: nat)
    requires n > 0
    ensures Text(n)[0] != '0'
  {
    if n >= 10 { NoLeadingZero(n / 10); }
  }

  lemma {:induction false} ParsePadded(n: nat)
    ensures Parse(Padded(n)) == Some(n)
  {
    ParseText(n);
    if n < 10 {
      assert Padded(n)[..1] == "0";
    }
  }

  // ----- int(text) with everything it accepts: white space around, a sign, underscores between digits -----

  /** White space among the ASCII characters. */
  predicate IsSpace(c: char) {
    '\t' <= c <= '\r' || '\U{1c}' <= c <= ' '
  }

  function Strip(s: string): string {
    if s != "" && IsSpace(s[0]) then Strip(s[1..])
    else if s != "" && IsSpace(s[|s| - 1]) then Strip(s[..|s| - 1])
    else s
  }

  predicate Grouped(s: string) {
    && s != "" && IsDigit(s[0]) && IsDigit(s[|s| - 1])
    && (forall i :: 0 <= i < |s| ==> IsDigit(s[i]) || s[i] == '_')
    && (forall i, j :: 0 <= i < |s| && 0 <= j < |s| && j == i + 1 ==> IsDigit(s[i]) || IsDigit(s[j]))
  }

  function DropUnderscores(s: string): string {
    if s == "" then "" else (if s[0] == '_' then [] else [s[0]]) + DropUnderscores(s[1..])
  }

  function Magnitude(s: string): Option<nat> {
    if Grouped(s) then Parse(DropUnderscores(s)) else None
  }

  /** `int(text)`, None where it raises. */
  function IntOf(text: string): Option<int> {
    var s := Strip(text);
    var signed := s != "" && (s[0] == '-' || s[0] == '+');
    var m := Magnitude(if signed then s[1..] else s);
    if m.None? then None
    else
      var v: int := m.value;
      Some(if signed && s[0] == '-' then -v else v)
  }

  lemma {:induction false} NoUnderscores(s: string)
    requires forall i :: 0 <= i < |s| ==> IsDigit(s[i])
    ensures DropUnderscores(s) == s
  {
    if s != "" { NoUnderscores(s[1..]); }
  }

  lemma {:induction false} StripSpaces(before: string, s: string, after: string)
    requires s != "" && !IsSpace(s[0]) && !IsSpace(s[|s| - 1])
    requires (forall i :: 0 <= i < |before| ==> IsSpace(before[i])) && (forall i :: 0 <= i < |after| ==> IsSpace(after[i]))
    ensures Strip(before + s + after) == s
    decreases |before| + |after|
  {
    var text := before + s + after;
    if before != "" {
      assert text[0] == before[0] && text[1..] == before[1..] + s + after;
      StripSpaces(before[1..], s, after);
    } else if after != "" {
      assert text[0] == s[0] && text[..|text| - 1] == before + s + after[..|after| - 1];
      StripSpaces(before, s, after[..|after| - 1]);
    } else {
      assert text == s;
    }
  }

  /** A number's text reads back, also with white space around it. */
  lemma IntOfText(n: nat, before: string, after: string)
    requires (forall i :: 0 <= i < |before| ==> IsSpace(before[i])) && (forall i :: 0 <= i < |after| ==> IsSpace(after[i]))
    ensures IntOf(before + Text(n) + after) == Some(n)
  {
    StripSpaces(before, Text(n), after);
    NoUnderscores(Text(n));
    ParseText(n);
  }
}
