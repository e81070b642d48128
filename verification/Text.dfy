/** White space, case and numbers in strings. */
module Text {

  predicate IsSpace(c: char) {
    || '\t' <= c <= '\r' || c == ' ' || c == '\U{0085}' || c == '\U{00A0}' || c == '\U{1680}'
    || '\U{2000}' <= c <= '\U{200A}' || c == '\U{2028}' || c == '\U{2029}' || c == '\U{202F}'
    || c == '\U{205F}' || c == '\U{3000}'
  }

  function TrimStart(s: string): string {
    if s != [] && IsSpace(s[0]) then TrimStart(s[1..]) else s
  }

  function TrimEnd(s: string): string {
    if s != [] && IsSpace(s[|s| - 1]) then TrimEnd(s[..|s| - 1]) else s
  }

  function TrimSpace(s: string): string {
    TrimEnd(TrimStart(s))
  }

  function Lower(c: char): char {
    if 'A' <= c <= 'Z' then (c as int + 32) as char else c
  }

  function LowerAll(s: string): string {
    seq(|s|, i requires 0 <= i < |s| => Lower(s[i]))
  }

  function Digit(n: nat): char
    requires n < 10
  {
    ('0' as int + n) as char
  }

  function Itoa(n: nat): string {
    (if n < 10 then "" else Itoa(n / 10)) + [Digit(n % 10)]
  }

  // ---- what they mean ----

  predicate AllSpaces(s: string) {
    forall i :: 0 <= i < |s| ==> IsSpace(s[i])
  }

  lemma {:induction false} TrimStartAnswers(s: string) returns (space: string)
    ensures s == space + TrimStart(s) && AllSpaces(space)
    ensures TrimStart(s) != "" ==> !IsSpace(TrimStart(s)[0])
  {
    space := "";
    if s != [] && IsSpace(s[0]) {
      space := TrimStartAnswers(s[1..]);
      space := [s[0]] + space;
    }
  }

  lemma {:induction false} TrimEndAnswers(s: string) returns (space: string)
    ensures s == TrimEnd(s) + space && AllSpaces(space)
    ensures TrimEnd(s) != "" ==> !IsSpace(TrimEnd(s)[|TrimEnd(s)| - 1]) && TrimEnd(s)[0] == s[0]
  {
    space := "";
    if s != [] && IsSpace(s[|s| - 1]) {
      var front := s[..|s| - 1];
      space := TrimEndAnswers(front);
      space := space + [s[|s| - 1]];
      assert s == front + [s[|s| - 1]];
    }
  }

  /** Trimming takes away white space on both sides, and all of it. */
  lemma TrimSpaceAnswers(s: string) returns (before: string, after: string)
    ensures s == before + TrimSpace(s) + after && AllSpaces(before) && AllSpaces(after)
    ensures var t := TrimSpace(s); t != "" ==> !IsSpace(t[0]) && !IsSpace(t[|t| - 1])
  {
    hide TrimStart, TrimEnd, IsSpace;
    before := TrimStartAnswers(s);
    after := TrimEndAnswers(TrimStart(s));
    assert s == before + (TrimSpace(s) + after);
  }

  /** The number that a string of digits spells. */
  function Number(s: string): int {
    if s == [] then 0 else 10 * Number(s[..|s| - 1]) + (s[|s| - 1] as int - '0' as int)
  }

  lemma NumberOfOneMore(s: string, d: nat)
    requires d < 10
    ensures Number(s + [Digit(d)]) == 10 * Number(s) + d && Number("") == 0
  {
    assert (s + [Digit(d)])[..|s|] == s;
  }

  predicate AllDigits(s: string) {
    forall i :: 0 <= i < |s| ==> '0' <= s[i] <= '9'
  }

  /** A number is written in decimal digits without leading zeros. */
  lemma {:induction false} ItoaAnswers(n: nat)
    ensures Number(Itoa(n)) == n && AllDigits(Itoa(n)) && Itoa(n) != ""
    ensures n > 0 ==> Itoa(n)[0] != '0'
  {
    hide Number;
    var front := if n < 10 then "" else Itoa(n / 10);
    assert Itoa(n) == front + [Digit(n % 10)];
    NumberOfOneMore(front, n % 10);
    if n >= 10 {
      ItoaAnswers(n / 10);
    }
    hide Itoa;
  }
}
