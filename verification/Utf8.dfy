/** UTF-8 as the log is written and read in it. A character is a Unicode scalar value. */
module Utf8 {
  import opened LogLines

  const REPLACEMENT := '\U{FFFD}'

  /** A continuation byte with six bits of a value. */
  function Six(n: nat): byte {
    (0x80 + n % 64) as byte
  }

  function EncodeChar(c: char): (b: seq<byte>)
    ensures 1 <= |b| <= 4
  {
    var n := c as int;
    if n < 0x80 then [n as byte]
    else if n < 0x800 then [(0xC0 + n / 64) as byte, Six(n)]
    else if n < 0x1_0000 then [(0xE0 + n / 64 / 64) as byte, Six(n / 64), Six(n)]
    else [(0xF0 + n / 64 / 64 / 64) as byte, Six(n / 64 / 64), Six(n / 64), Six(n)]
  }

  function Encode(s: string): seq<byte> {
    if s == [] then [] else EncodeChar(s[0]) + Encode(s[1..])
  }

  /** The length announced by a leading byte, or 0. */
  function Announced(b: byte): nat {
    if b < 0x80 then 1 else if b < 0xC0 then 0 else if b < 0xE0 then 2 else if b < 0xF0 then 3 else if b < 0xF8 then 4 else 0
  }

  predicate Continues(b: byte) {
    0x80 <= b < 0xC0
  }

  function Bits(b: byte): nat
    requires Continues(b)
  {
    b as int - 0x80
  }

  /** The value spelled by the first `k` bytes. */
  function Value(b: seq<byte>, k: nat): (v: int)
    requires 1 <= k <= 4 && k <= |b| && Announced(b[0]) == k && forall i :: 1 <= i < k ==> Continues(b[i])
  {
    var lead := b[0] as int;
    if k == 1 then lead
    else if k == 2 then (lead - 0xC0) * 64 + Bits(b[1])
    else if k == 3 then ((lead - 0xE0) * 64 + Bits(b[1])) * 64 + Bits(b[2])
    else (((lead - 0xF0) * 64 + Bits(b[1])) * 64 + Bits(b[2])) * 64 + Bits(b[3])
  }

  /** A scalar value in its shortest form. */
  predicate IsScalar(v: int, k: nat) {
    && 0 <= v < 0x11_0000 && !(0xD800 <= v < 0xE000)
    && (k == 2 ==> v >= 0x80) && (k == 3 ==> v >= 0x800) && (k == 4 ==> v >= 0x1_0000)
  }

  predicate StartsWithChar(b: seq<byte>) {
    b != [] &&
    var k := Announced(b[0]);
    && 1 <= k <= |b| && (forall i :: 1 <= i < k ==> Continues(b[i]))
    && IsScalar(Value(b, k), k)
  }

  /** Bytes that are not part of a character are replaced. */
  function Decode(b: seq<byte>): string
    decreases |b|
  {
    if b == [] then ""
    else if StartsWithChar(b) then
      var k := Announced(b[0]);
      [Value(b, k) as char] + Decode(b[k..])
    else [REPLACEMENT] + Decode(b[1..])
  }

  // ---- reading back what was written ----

  /** The first character of `b` has value `v` and takes `k` bytes. */
  predicate Spells(b: seq<byte>, k: nat, v: int) {
    StartsWithChar(b) && Announced(b[0]) == k && Value(b, k) == v
  }

  lemma OneByte(n: nat, rest: seq<byte>)
    requires n < 0x80
    ensures Spells([n as byte] + rest, 1, n)
  {
  }

  lemma SixBits(n: nat)
    ensures Continues(Six(n)) && Bits(Six(n)) == n % 64
  {
  }

  lemma TwoBytes(n: nat, rest: seq<byte>)
    requires 0x80 <= n < 0x800
    ensures Spells([(0xC0 + n / 64) as byte, Six(n)] + rest, 2, n)
  {
    SixBits(n);
    hide Six, Bits, Continues;
    var b := [(0xC0 + n / 64) as byte, Six(n)] + rest;
    assert b[0] == (0xC0 + n / 64) as byte && b[1] == Six(n);
  }

  lemma ThreeBytes(n: nat, rest: seq<byte>)
    requires 0x800 <= n < 0x1_0000 && !(0xD800 <= n < 0xE000)
    ensures Spells([(0xE0 + n / 64 / 64) as byte, Six(n / 64), Six(n)] + rest, 3, n)
  {
    var m := n / 64;
    var k := m / 64;
    SixBits(n);
    SixBits(m);
    hide Six, Bits, Continues;
    var b := [(0xE0 + k) as byte, Six(m), Six(n)] + rest;
    assert b[0] == (0xE0 + k) as byte && b[1] == Six(m) && b[2] == Six(n);
    assert k * 64 + m % 64 == m && m * 64 + n % 64 == n;
  }

  lemma FourBytes(n: nat, rest: seq<byte>)
    requires 0x1_0000 <= n < 0x11_0000
    ensures Spells([(0xF0 + n / 64 / 64 / 64) as byte, Six(n / 64 / 64), Six(n / 64), Six(n)] + rest, 4, n)
  {
    var m := n / 64;
    var k := m / 64;
    var j := k / 64;
    SixBits(n);
    SixBits(m);
    SixBits(k);
    hide Six, Bits, Continues;
    var b := [(0xF0 + j) as byte, Six(k), Six(m), Six(n)] + rest;
    assert b[0] == (0xF0 + j) as byte && b[1] == Six(k) && b[2] == Six(m) && b[3] == Six(n);
    assert j * 64 + k % 64 == k && k * 64 + m % 64 == m && m * 64 + n % 64 == n;
  }

  lemma CharStarts(c: char, rest: seq<byte>)
    ensures Spells(EncodeChar(c) + rest, |EncodeChar(c)|, c as int)
  {
    hide Spells, Six;
    var n := c as int;
    if n < 0x80 {
      OneByte(n, rest);
    } else if n < 0x800 {
      TwoBytes(n, rest);
    } else if n < 0x1_0000 {
      ThreeBytes(n, rest);
    } else {
      FourBytes(n, rest);
    }
  }

  lemma DecodeUnfolds(b: seq<byte>)
    requires StartsWithChar(b)
    ensures Decode(b) == [Value(b, Announced(b[0])) as char] + Decode(b[Announced(b[0])..])
  {
  }

  lemma {:induction false} DecodeEncode(s: string)
    ensures Decode(Encode(s)) == s
  {
    hide EncodeChar, StartsWithChar, Value, Announced, Decode;
    if s == [] {
      NothingDecoded();
    } else {
      var rest := Encode(s[1..]);
      var b := EncodeChar(s[0]) + rest;
      CharStarts(s[0], rest);
      DecodeUnfolds(b);
      assert b[|EncodeChar(s[0])|..] == rest;
      DecodeEncode(s[1..]);
      assert s == [s[0]] + s[1..];
    }
  }

  lemma NothingDecoded()
    ensures Decode([]) == ""
  {
  }

  // ---- the form of a character ----

  /** The first byte tells the length, which grows with the value; the others continue. */
  lemma CharAnswers(c: char)
    ensures var b, n := EncodeChar(c), c as int;
            && |b| == (if n < 0x80 then 1 else if n < 0x800 then 2 else if n < 0x1_0000 then 3 else 4)
            && (|b| == 1 ==> b[0] as int == n) && (|b| == 2 ==> 0xC0 <= b[0] < 0xE0)
            && (|b| == 3 ==> 0xE0 <= b[0] < 0xF0) && (|b| == 4 ==> 0xF0 <= b[0] < 0xF8)
            && forall i :: 1 <= i < |b| ==> 0x80 <= b[i] < 0xC0
  {
  }

  // ---- line ends ----

  /** The bytes of a line end stand for nothing else. */
  lemma CharBytes(c: char)
    ensures forall i :: 0 <= i < |EncodeChar(c)| ==> EncodeChar(c)[i] < 0x80 ==> c as int < 0x80 && EncodeChar(c) == [c as int as byte]
  {
  }

  lemma {:induction false} NewlineIsNewline(s: string)
    ensures NEWLINE in Encode(s) <==> '\n' in s
  {
    if s != [] {
      CharBytes(s[0]);
      NewlineIsNewline(s[1..]);
      assert s == [s[0]] + s[1..];
      assert NEWLINE in EncodeChar(s[0]) <==> s[0] == '\n' by {
        if s[0] == '\n' {
          assert EncodeChar('\n')[0] == NEWLINE;
        }
      }
    }
  }

  lemma {:induction false} EncodeConcat(a: string, b: string)
    ensures Encode(a + b) == Encode(a) + Encode(b)
  {
    if a == [] {
      assert a + b == b;
    } else {
      assert (a + b)[1..] == a[1..] + b;
      EncodeConcat(a[1..], b);
      Assoc(EncodeChar(a[0]), Encode(a[1..]), Encode(b));
    }
  }
}
