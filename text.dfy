/** String helpers shared by the operator model: the `%x` and `%d` renderings of
    integers with their parsers, substring search, splitting on a separator and
    the UTF-8 encoding Go applies when a string is converted to bytes. */
module Text {
  import opened Wrappers

  type byte = b: int | 0 <= b < 256

  /** `s` occurs in `t` as a contiguous substring (Go's strings.Contains). */
  predicate Contains(t: string, s: string)
    decreases |t|
  {
    s <= t || (|t| > 0 && Contains(t[1..], s))
  }

  lemma {:induction false} ContainsAt(t: string, s: string, i: nat)
    requires i + |s| <= |t| && t[i..i + |s|] == s
    ensures Contains(t, s)
    decreases i
  {
    if i == 0 {
      assert s <= t;
    } else {
      assert t[1..][i - 1..i - 1 + |s|] == t[i..i + |s|];
      ContainsAt(t[1..], s, i - 1);
    }
  }

  lemma {:induction false} ContainsWitness(t: string, s: string) returns (i: nat)
    requires Contains(t, s)
    ensures i + |s| <= |t| && t[i..i + |s|] == s
    decreases |t|
  {
    if s <= t {
      i := 0;
    } else {
      var j := ContainsWitness(t[1..], s);
      assert t[1..][j..j + |s|] == t[j + 1..j + 1 + |s|];
      i := j + 1;
    }
  }

  // ---------------------------------------------------------------------------
  // Hexadecimal: Go's `%x` verb on an unsigned integer

  predicate IsHexDigit(c: char) {
    ('0' <= c <= '9') || ('a' <= c <= 'f')
  }

  function HexChar(d: nat): (c: char)
    requires d < 16
    ensures IsHexDigit(c)
  {
    if d < 10 then ('0' as int + d) as char else ('a' as int + d - 10) as char
  }

  function HexValue(c: char): (d: nat)
    requires IsHexDigit(c)
    ensures d < 16
  {
    if c <= '9' then c as int - '0' as int else c as int - 'a' as int + 10
  }

  lemma HexValueOfChar(d: nat)
    requires d < 16
    ensures HexValue(HexChar(d)) == d
  {
  }

  /** Lower-case hexadecimal, no leading zeros, "0" for zero. */
  function Hex(n: nat): string
    decreases n
  {
    if n < 16 then [HexChar(n)] else Hex(n / 16) + [HexChar(n % 16)]
  }

  predicate IsHexString(s: string) {
    forall i :: 0 <= i < |s| ==> IsHexDigit(s[i])
  }

  function ParseHex(s: string): nat
    requires IsHexString(s)
    decreases |s|
  {
    if s == [] then 0 else ParseHex(s[..|s| - 1]) * 16 + HexValue(s[|s| - 1])
  }

  function Pow16(k: nat): (p: nat)
    ensures p >= 1
  {
    if k == 0 then 1 else 16 * Pow16(k - 1)
  }

  /** `Hex` renders exactly the hexadecimal numerals without leading zeros, and
      `ParseHex` reads the number back. */
  lemma {:induction false} HexRoundTrip(n: nat)
    ensures IsHexString(Hex(n)) && |Hex(n)| >= 1
    ensures ParseHex(Hex(n)) == n
    ensures Hex(n)[0] == '0' <==> n == 0
    decreases n
  {
    if n < 16 {
      HexValueOfChar(n);
      assert Hex(n) == [HexChar(n)];
      if n != 0 {
        assert HexChar(n) != '0';
      }
    } else {
      HexRoundTrip(n / 16);
      var s := Hex(n / 16) + [HexChar(n % 16)];
      assert Hex(n) == s;
      assert s[..|s| - 1] == Hex(n / 16);
      HexValueOfChar(n % 16);
      assert s[0] == Hex(n / 16)[0];
    }
  }

  lemma {:induction false} HexLength(n: nat, k: nat)
    requires k >= 1 && n < Pow16(k)
    ensures |Hex(n)| <= k
    decreases k
  {
    if n >= 16 {
      assert k >= 2;
      HexLength(n / 16, k - 1);
    }
  }

  /** Two numbers with the same rendering are equal. */
  lemma HexInjective(a: nat, b: nat)
    requires Hex(a) == Hex(b)
    ensures a == b
  {
    HexRoundTrip(a);
    HexRoundTrip(b);
  }

  // ---------------------------------------------------------------------------
  // Decimal: strconv.Itoa and its parser

  predicate IsDigit(c: char) {
    '0' <= c <= '9'
  }

  predicate AllDigits(s: string) {
    forall i :: 0 <= i < |s| ==> IsDigit(s[i])
  }

  predicate IsDigits(s: string) {
    |s| > 0 && AllDigits(s)
  }

  function NatToString(n: nat): string
    decreases n
  {
    if n < 10 then [('0' as int + n) as char]
    else NatToString(n / 10) + [('0' as int + n % 10) as char]
  }

  function DigitsValue(s: string): nat
    requires AllDigits(s)
    decreases |s|
  {
    if s == [] then 0
    else
      assert IsDigit(s[|s| - 1]);
      DigitsValue(s[..|s| - 1]) * 10 + (s[|s| - 1] as int - '0' as int)
  }

  /** strconv.Itoa: an optional minus sign followed by the decimal digits. */
  function IntToString(i: int): string {
    if i < 0 then "-" + NatToString(-i) else NatToString(i)
  }

  /** Reads what IntToString writes; None for anything else. */
  function ParseInt(s: string): Option<int> {
    if |s| > 0 && s[0] == '-' then
      if IsDigits(s[1..]) then Some(0 - DigitsValue(s[1..]) as int) else None
    else if IsDigits(s) then Some(DigitsValue(s))
    else None
  }

  lemma {:induction false} NatToStringRoundTrip(n: nat)
    ensures IsDigits(NatToString(n))
    ensures DigitsValue(NatToString(n)) == n
    decreases n
  {
    if n >= 10 {
      NatToStringRoundTrip(n / 10);
      var s := NatToString(n);
      assert s[..|s| - 1] == NatToString(n / 10);
    }
  }

  lemma IntToStringRoundTrip(i: int)
    ensures ParseInt(IntToString(i)) == Some(i)
  {
    if i < 0 {
      NatToStringRoundTrip(-i);
      assert IntToString(i)[1..] == NatToString(-i);
    } else {
      NatToStringRoundTrip(i);
      assert NatToString(i)[0] != '-';
    }
  }

  // ---------------------------------------------------------------------------
  // Splitting on a separator character (Python's str.split(sep))

  function Split(s: string, sep: char): (parts: seq<string>)
    ensures |parts| >= 1
    decreases |s|
  {
    if s == [] then [""]
    else
      var rest := Split(s[1..], sep);
      if s[0] == sep then [""] + rest
      else [[s[0]] + rest[0]] + rest[1..]
  }

  function Join(parts: seq<string>, sep: char): string
    decreases |parts|
  {
    if parts == [] then ""
    else if |parts| == 1 then parts[0]
    else parts[0] + [sep] + Join(parts[1..], sep)
  }

  /** Joining the parts of a split with the same separator gives the text back. */
  lemma {:induction false} JoinSplit(s: string, sep: char)
    ensures Join(Split(s, sep), sep) == s
    decreases |s|
  {
    if s != [] {
      JoinSplit(s[1..], sep);
      var rest := Split(s[1..], sep);
      if s[0] == sep {
        assert Split(s, sep) == [""] + rest;
        assert ([""] + rest)[1..] == rest;
      } else {
        var parts := [[s[0]] + rest[0]] + rest[1..];
        assert Split(s, sep) == parts;
        if |rest| == 1 {
          assert Join(parts, sep) == [s[0]] + rest[0];
        } else {
          assert parts[1..] == rest[1..];
          assert Join(rest, sep) == rest[0] + [sep] + Join(rest[1..], sep);
        }
      }
    }
  }

  /** Splitting `a + rest`, where `a` lacks the separator, extends the first part of `rest`'s split by `a`. */
  lemma {:induction false} SplitPrefix(a: string, rest: string, sep: char)
    requires sep !in a
    ensures Split(a + rest, sep) == [a + Split(rest, sep)[0]] + Split(rest, sep)[1..]
    decreases |a|
  {
    if a != [] {
      var s := a + rest;
      assert s[1..] == a[1..] + rest;
      assert s[0] == a[0] && a[0] in a;
      SplitPrefix(a[1..], rest, sep);
      var r := Split(rest, sep);
      var inner := [a[1..] + r[0]] + r[1..];
      assert Split(s[1..], sep) == inner;
      assert Split(s, sep) == [[s[0]] + inner[0]] + inner[1..];
      assert inner[1..] == r[1..];
      assert [s[0]] + (a[1..] + r[0]) == a + r[0];
    } else {
      var r := Split(rest, sep);
      assert a + rest == rest && a + r[0] == r[0];
      assert [r[0]] + r[1..] == r;
    }
  }

  /** Splitting the join of separator-free parts gives the parts back. */
  lemma {:induction false} SplitJoin(parts: seq<string>, sep: char)
    requires |parts| >= 1
    requires forall i :: 0 <= i < |parts| ==> sep !in parts[i]
    ensures Split(Join(parts, sep), sep) == parts
    decreases |parts|
  {
    var a := parts[0];
    if |parts| == 1 {
      SplitPrefix(a, "", sep);
      assert a + "" == a;
    } else {
      var tail := Join(parts[1..], sep);
      SplitJoin(parts[1..], sep);
      assert Join(parts, sep) == a + ([sep] + tail);
      SplitPrefix(a, [sep] + tail, sep);
      assert ([sep] + tail)[1..] == tail;
      assert Split([sep] + tail, sep) == [""] + parts[1..];
      assert a + "" == a;
    }
  }

  /** No part of a split contains the separator. */
  lemma {:induction false} SplitPartsLackSeparator(s: string, sep: char)
    ensures forall i, j :: 0 <= i < |Split(s, sep)| && 0 <= j < |Split(s, sep)[i]| ==> Split(s, sep)[i][j] != sep
    decreases |s|
  {
    if s != [] {
      SplitPartsLackSeparator(s[1..], sep);
      var rest := Split(s[1..], sep);
      if s[0] != sep {
        var parts := [[s[0]] + rest[0]] + rest[1..];
        assert Split(s, sep) == parts;
        forall i, j | 0 <= i < |parts| && 0 <= j < |parts[i]| ensures parts[i][j] != sep {
          if i == 0 && j > 0 {
            assert parts[0][j] == rest[0][j - 1];
          } else if i > 0 {
            assert parts[i] == rest[i];
          }
        }
      }
    }
  }

  // ---------------------------------------------------------------------------
  // UTF-8, as Go's []byte(s) conversion produces it

  function EncodeRune(c: char): (b: seq<byte>)
    ensures 1 <= |b| <= 4
    ensures (c as int) < 0x80 ==> b == [c as int]
  {
    var cp := c as int;
    assert cp < 0x110000;
    if cp < 0x80 then [cp]
    else if cp < 0x800 then [0xC0 + cp / 64, 0x80 + cp % 64]
    else if cp < 0x10000 then [0xE0 + cp / 4096, 0x80 + (cp / 64) % 64, 0x80 + cp % 64]
    else [0xF0 + cp / 262144, 0x80 + (cp / 4096) % 64, 0x80 + (cp / 64) % 64, 0x80 + cp % 64]
  }

  function Utf8(s: string): seq<byte>
    decreases |s|
  {
    if s == [] then [] else EncodeRune(s[0]) + Utf8(s[1..])
  }
}
