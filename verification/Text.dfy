/** Text helpers of the SDP and foundation code: decimal numbers as printf and g_ascii_strtoull treat
them, and g_strsplit. */
module Text {
  import opened Basics

  const TWO_16: nat := 0x1_0000
  const TWO_64: nat := 0x1_0000_0000_0000_0000

  // ----- decimal numbers

  predicate IsDigit(c: char) {
    '0' <= c <= '9'
  }

  function DigitChar(d: nat): (c: char)
    requires d < 10
    ensures IsDigit(c) && DigitValue(c) == d
  {
    ('0' as int + d) as char
  }

  function DigitValue(c: char): (d: nat)
    requires IsDigit(c)
    ensures d < 10
  {
    c as int - '0' as int
  }

  function Digits(n: nat): (s: string)
    ensures s != [] && forall c :: c in s ==> IsDigit(c)
  {
    if n < 10 then [DigitChar(n)] else Digits(n / 10) + [DigitChar(n % 10)]
  }

  // The value of the leading digits of `s`, continuing from `n`.
  function Value(s: string, n: nat): nat {
    if s != [] && IsDigit(s[0]) then Value(s[1..], 10 * n + DigitValue(s[0])) else n
  }

  lemma {:induction false} ValueAppend(s: string, c: char, n: nat)
    requires IsDigit(c) && forall x :: x in s ==> IsDigit(x)
    ensures Value(s + [c], n) == 10 * Value(s, n) + DigitValue(c)
    decreases |s|
  {
    if s == [] {
      assert ([c])[1..] == [];
    } else {
      assert (s + [c])[1..] == s[1..] + [c];
      ValueAppend(s[1..], c, 10 * n + DigitValue(s[0]));
    }
  }

  lemma {:induction false} ValueDigits(n: nat)
    ensures Value(Digits(n), 0) == n
  {
    if n >= 10 {
      ValueDigits(n / 10);
      ValueAppend(Digits(n / 10), DigitChar(n % 10), 0);
    } else {
      assert [DigitChar(n)][1..] == [];
    }
  }

  lemma DigitsInjective(m: nat, n: nat)
    requires Digits(m) == Digits(n)
    ensures m == n
  {
    ValueDigits(m);
    ValueDigits(n);
  }

  predicate IsSpace(c: char) {
    c == ' ' || 9 <= c as int <= 13
  }

  function SkipSpace(s: string): string {
    if s != [] && IsSpace(s[0]) then SkipSpace(s[1..]) else s
  }

  // g_ascii_strtoull in base 10: a sign is accepted, a minus negates modulo 2^64, overflow saturates.
  function ParseUnsigned(s: string): nat {
    var t := SkipSpace(s);
    var negative := t != [] && t[0] == '-';
    var digits := if t != [] && (t[0] == '-' || t[0] == '+') then t[1..] else t;
    var v := Value(digits, 0);
    if v >= TWO_64 then TWO_64 - 1
    else if negative then (TWO_64 - v) % TWO_64
    else v
  }

  // `%d` of a 32-bit unsigned value.
  function PrintSigned(n: nat): string
    requires n < TWO_32
  {
    if n < TWO_31 then Digits(n) else "-" + Digits(TWO_32 - n)
  }

  lemma PlainRoundTrip(n: nat)
    requires n < TWO_64
    ensures ParseUnsigned(Digits(n)) == n
  {
    hide Value, Digits;
    ValueDigits(n);
    assert Digits(n)[0] in Digits(n);
  }

  /** A 32-bit value printed with `%d` and read back into 32 bits is itself, also when it prints negative. */
  lemma SignedRoundTrip(n: nat)
    requires n < TWO_32
    ensures ParseUnsigned(PrintSigned(n)) % TWO_32 == n
  {
    hide Value, Digits;
    if n < TWO_31 {
      PlainRoundTrip(n);
    } else {
      ValueDigits(TWO_32 - n);
      assert PrintSigned(n)[1..] == Digits(TWO_32 - n);
      assert ParseUnsigned(PrintSigned(n)) == TWO_64 - (TWO_32 - n);
      assert TWO_64 - (TWO_32 - n) == TWO_32 * (TWO_32 - 1) + n;
    }
  }

  // ----- splitting

  // g_strsplit without a limit; the empty string has no parts.
  function Split(s: string, sep: char): seq<string> {
    if s == [] then [] else SplitFrom(s, sep, [])
  }

  function SplitFrom(s: string, sep: char, part: string): seq<string> {
    if s == [] then [part]
    else if s[0] == sep then [part] + SplitFrom(s[1..], sep, [])
    else SplitFrom(s[1..], sep, part + [s[0]])
  }

  function Join(parts: seq<string>, sep: char): string
    requires parts != []
  {
    if |parts| == 1 then parts[0] else parts[0] + [sep] + Join(parts[1..], sep)
  }

  lemma {:induction false} SplitPart(p: string, rest: string, sep: char, part: string)
    requires sep !in p
    ensures SplitFrom(p + rest, sep, part) == SplitFrom(rest, sep, part + p)
    decreases |p|
  {
    if p == [] {
      assert p + rest == rest && part + p == part;
    } else {
      assert (p + rest)[1..] == p[1..] + rest;
      SplitPart(p[1..], rest, sep, part + [p[0]]);
      assert part + [p[0]] + p[1..] == part + p;
    }
  }

  lemma {:induction false} SplitJoin(parts: seq<string>, sep: char)
    requires parts != [] && forall i :: 0 <= i < |parts| ==> sep !in parts[i]
    ensures SplitFrom(Join(parts, sep), sep, []) == parts
    decreases |parts|
  {
    var p := parts[0];
    if |parts| == 1 {
      assert p + [] == p && [] + p == p;
      SplitPart(p, [], sep, []);
    } else {
      var rest := [sep] + Join(parts[1..], sep);
      SplitPart(p, rest, sep, []);
      assert [] + p == p && rest[1..] == Join(parts[1..], sep);
      assert p + [sep] + Join(parts[1..], sep) == p + rest;
      SplitJoin(parts[1..], sep);
    }
  }
}
