/**
 * The string built-ins the screens use: `toLowerCase` (ASCII letters only), `includes`,
 * `startsWith`, `split` on a one-character separator, `parseInt` and `Number`.
 */
module Strings {
  import opened Wrappers

  predicate IsDigit(c: char) {
    '0' <= c <= '9'
  }

  function DigitValue(c: char): nat
    requires IsDigit(c)
  {
    c as int - '0' as int
  }

  /** The white space the number parsers skip here: tab, LF, VT, FF, CR, space, U+00A0 and U+FEFF. */
  predicate IsSpace(c: char) {
    c == ' ' || c == '\t' || c == '\n' || c == '\r' ||
    c as int == 0x0B || c as int == 0x0C || c as int == 0xA0 || c as int == 0xFEFF
  }

  function LowerChar(c: char): char {
    if 'A' <= c <= 'Z' then (c as int + 32) as char else c
  }

  /** `toLowerCase`, restricted to ASCII letters. */
  function Lower(s: string): string {
    seq(|s|, i requires 0 <= i < |s| => LowerChar(s[i]))
  }

  /** Lowering twice is lowering once. */
  lemma LowerIdempotent(s: string)
    ensures Lower(Lower(s)) == Lower(s)
  {
  }

  /** `startsWith`. */
  predicate StartsWith(s: string, prefix: string) {
    |prefix| <= |s| && s[..|prefix|] == prefix
  }

  /** `sub` occurs in `s` starting at position `i`. */
  predicate OccursAt(s: string, sub: string, i: int) {
    0 <= i && i + |sub| <= |s| && s[i..i + |sub|] == sub
  }

  /** `includes`: `sub` occurs in `s` at some position. */
  function Includes(s: string, sub: string): (r: bool)
    ensures r <==> exists i :: OccursAt(s, sub, i)
    decreases |s|
  {
    if |sub| > |s| then false
    else if s[..|sub|] == sub then
      assert OccursAt(s, sub, 0);
      true
    else
      assert !OccursAt(s, sub, 0);
      assert forall i :: OccursAt(s, sub, i) && i != 0 ==> OccursAt(s[1..], sub, i - 1);
      assert forall i :: OccursAt(s[1..], sub, i) ==> OccursAt(s, sub, i + 1);
      Includes(s[1..], sub)
  }

  /** Every string includes the empty string. */
  lemma IncludesEmpty(s: string)
    ensures Includes(s, "")
  {
    assert OccursAt(s, "", 0);
  }

  // ---------------------------------------------------------------- split and join

  /** `s.split(sep)`: the maximal separator-free segments, so `""` splits into `[""]`. */
  function Split(s: string, sep: char): (r: seq<string>)
    ensures |r| >= 1
    ensures forall i :: 0 <= i < |r| ==> sep !in r[i]
  {
    if s == [] then [""]
    else
      var rest := Split(s[1..], sep);
      if s[0] == sep then [""] + rest
      else [[s[0]] + rest[0]] + rest[1..]
  }

  /** `parts.join(sep)`. */
  function Join(parts: seq<string>, sep: char): string
    requires |parts| >= 1
  {
    if |parts| == 1 then parts[0] else parts[0] + [sep] + Join(parts[1..], sep)
  }

  /** Joining the segments back with the separator gives the original string. */
  lemma {:induction false} SplitThenJoin(s: string, sep: char)
    ensures Join(Split(s, sep), sep) == s
  {
    if s != [] {
      var rest := Split(s[1..], sep);
      SplitThenJoin(s[1..], sep);
      if s[0] == sep {
        assert ([""] + rest)[1..] == rest;
      } else {
        var r := Split(s, sep);
        assert r[0] == [s[0]] + rest[0] && r[1..] == rest[1..];
      }
    }
  }

  /** Splitting a string that starts with a separator-free part `a`. */
  lemma {:induction false} SplitPrefix(a: string, b: string, sep: char)
    requires sep !in a
    ensures Split(a + b, sep) == [a + Split(b, sep)[0]] + Split(b, sep)[1..]
  {
    if a != [] {
      assert (a + b)[0] == a[0];
      assert (a + b)[1..] == a[1..] + b;
      SplitPrefix(a[1..], b, sep);
      var x := Split(b, sep);
      var rest := Split(a[1..] + b, sep);
      assert rest[0] == a[1..] + x[0] && rest[1..] == x[1..];
      assert Split(a + b, sep) == [[a[0]] + rest[0]] + rest[1..];
      assert [a[0]] + (a[1..] + x[0]) == a + x[0];
    } else {
      var x := Split(b, sep);
      assert a + b == b && a + x[0] == x[0];
      assert x == [x[0]] + x[1..];
    }
  }

  /** Splitting a join of separator-free parts gives the parts back. */
  lemma {:induction false} JoinThenSplit(parts: seq<string>, sep: char)
    requires |parts| >= 1
    requires forall i :: 0 <= i < |parts| ==> sep !in parts[i]
    ensures Split(Join(parts, sep), sep) == parts
  {
    if |parts| == 1 {
      SplitPrefix(parts[0], "", sep);
      assert parts[0] + "" == parts[0];
    } else {
      var tail := Join(parts[1..], sep);
      JoinThenSplit(parts[1..], sep);
      assert ([sep] + tail)[0] == sep && ([sep] + tail)[1..] == tail;
      assert Split([sep] + tail, sep) == [""] + parts[1..];
      assert parts[0] + [sep] + tail == parts[0] + ([sep] + tail);
      SplitPrefix(parts[0], [sep] + tail, sep);
      assert parts[0] + "" == parts[0];
    }
  }

  // ---------------------------------------------------------------- numbers

  /** The value of a string of decimal digits, most significant digit first. */
  function DigitsValue(d: string): nat
    requires forall i :: 0 <= i < |d| ==> IsDigit(d[i])
  {
    if d == [] then 0 else DigitsValue(d[..|d| - 1]) * 10 + DigitValue(d[|d| - 1])
  }

  function DecimalDigit(k: nat): char
    requires k < 10
  {
    ('0' as int + k) as char
  }

  /** `String(n)` for a natural number `n`: its shortest decimal spelling. */
  function Decimal(n: nat): (r: string)
    ensures |r| >= 1
    ensures forall i :: 0 <= i < |r| ==> IsDigit(r[i])
  {
    if n < 10 then [DecimalDigit(n)] else Decimal(n / 10) + [DecimalDigit(n % 10)]
  }

  /** Reading back a decimal spelling gives the number. */
  lemma {:induction false} DecimalValue(n: nat)
    ensures DigitsValue(Decimal(n)) == n
  {
    if n >= 10 {
      var r := Decimal(n);
      assert r[..|r| - 1] == Decimal(n / 10);
      DecimalValue(n / 10);
    }
  }

  /** The longest prefix of `s` made of digits. */
  function LeadingDigits(s: string): (r: string)
    ensures |r| <= |s| && r == s[..|r|]
    ensures forall i :: 0 <= i < |r| ==> IsDigit(r[i])
    ensures |r| < |s| ==> !IsDigit(s[|r|])
  {
    if s == [] || !IsDigit(s[0]) then [] else [s[0]] + LeadingDigits(s[1..])
  }

  /** A string made of digits and then something that does not start with a digit. */
  lemma {:induction false} LeadingDigitsOf(d: string, tail: string)
    requires forall i :: 0 <= i < |d| ==> IsDigit(d[i])
    requires tail == [] || !IsDigit(tail[0])
    ensures LeadingDigits(d + tail) == d
  {
    if d != [] {
      assert (d + tail)[0] == d[0];
      assert (d + tail)[1..] == d[1..] + tail;
      LeadingDigitsOf(d[1..], tail);
    }
  }

  /** Drops leading white space. */
  function TrimStart(s: string): (r: string)
    ensures |r| <= |s| && r == s[|s| - |r|..]
    ensures r == [] || !IsSpace(r[0])
  {
    if s != [] && IsSpace(s[0]) then TrimStart(s[1..]) else s
  }

  /** Drops trailing white space. */
  function TrimEnd(s: string): (r: string)
    ensures |r| <= |s| && r == s[..|r|]
    ensures r == [] || !IsSpace(r[|r| - 1])
  {
    if s != [] && IsSpace(s[|s| - 1]) then TrimEnd(s[..|s| - 1]) else s
  }

  /** The digits at the front of `t`, read as a number; `None` when `t` does not start with a digit. */
  function ParseUnsigned(t: string): Option<nat>
  {
    var d := LeadingDigits(t);
    if d == [] then None else Some(DigitsValue(d))
  }

  function Negated(v: Option<nat>): Option<int> {
    if v.Some? then Some(-(v.value as int)) else None
  }

  /**
   * `parseInt(s)` with the default radix on a decimal input: leading white space, an optional
   * sign, then as many digits as there are; `None` stands for `NaN` (no digit at all).
   */
  function ParseInt(s: string): Option<int>
  {
    var t := TrimStart(s);
    if |t| > 0 && t[0] == '-' then Negated(ParseUnsigned(t[1..]))
    else if |t| > 0 && t[0] == '+' then ParseUnsigned(t[1..])
    else ParseUnsigned(t)
  }

  lemma ParseUnsignedDigits(d: string, tail: string)
    requires d != [] && forall i :: 0 <= i < |d| ==> IsDigit(d[i])
    requires tail == [] || !IsDigit(tail[0])
    ensures ParseUnsigned(d + tail) == Some(DigitsValue(d))
  {
    LeadingDigitsOf(d, tail);
  }

  /** A leading minus sign negates what follows it. */
  lemma ParseIntMinus(m: string)
    requires |m| >= 1 && m[0] == '-'
    ensures ParseInt(m) == Negated(ParseUnsigned(m[1..]))
  {
    assert !IsSpace(m[0]);
    assert TrimStart(m) == m;
  }

  /** Without white space or sign in front, `parseInt` reads the leading digits. */
  lemma ParseIntAtDigit(m: string)
    requires |m| >= 1 && IsDigit(m[0])
    ensures ParseInt(m) == ParseUnsigned(m)
  {
    assert !IsSpace(m[0]);
    assert TrimStart(m) == m;
  }

  /** `parseInt` reads a string of digits up to the first non-digit. */
  lemma ParseIntDigits(d: string, tail: string)
    requires d != [] && forall i :: 0 <= i < |d| ==> IsDigit(d[i])
    requires tail == [] || !IsDigit(tail[0])
    ensures ParseInt(d + tail) == Some(DigitsValue(d))
  {
    var s := d + tail;
    ParseUnsignedDigits(d, tail);
    assert s[0] == d[0];
    ParseIntAtDigit(s);
  }

  lemma NegatedDigits(d: string, tail: string)
    requires d != [] && forall i :: 0 <= i < |d| ==> IsDigit(d[i])
    requires tail == [] || !IsDigit(tail[0])
    ensures Negated(ParseUnsigned(d + tail)) == Some(-(DigitsValue(d) as int))
  {
    ParseUnsignedDigits(d, tail);
  }

  /** The same after a minus sign. */
  lemma ParseIntNegativeDigits(d: string, tail: string)
    requires d != [] && forall i :: 0 <= i < |d| ==> IsDigit(d[i])
    requires tail == [] || !IsDigit(tail[0])
    ensures ParseInt(['-'] + d + tail) == Some(-(DigitsValue(d) as int))
  {
    var x := d + tail;
    var m := ['-'] + d + tail;
    assert m[1..] == x;
    NegatedDigits(d, tail);
    assert |m| > 1 && m[0] == '-';
    ParseIntMinus(m);
  }

  /** `parseInt` reads a decimal spelling back, and stops at the first character that is not a digit. */
  lemma ParseIntReadsDecimal(n: nat, tail: string)
    requires tail == [] || !IsDigit(tail[0])
    ensures ParseInt(Decimal(n) + tail) == Some(n)
  {
    var d := Decimal(n);
    assert DigitsValue(d) == n by { DecimalValue(n); }
    ParseIntDigits(d, tail);
  }

  /** The same for a negative number. */
  lemma ParseIntReadsNegativeDecimal(n: nat, tail: string)
    requires tail == [] || !IsDigit(tail[0])
    ensures ParseInt(['-'] + Decimal(n) + tail) == Some(-(n as int))
  {
    var d := Decimal(n);
    assert DigitsValue(d) == n by { DecimalValue(n); }
    ParseIntNegativeDigits(d, tail);
  }

  /** A string without any digit parses to `NaN`. */
  lemma ParseIntWithoutDigits(s: string)
    requires forall i :: 0 <= i < |s| ==> !IsDigit(s[i])
    ensures ParseInt(s) == None
  {
    var t := TrimStart(s);
    assert forall i :: 0 <= i < |t| ==> t[i] == s[|s| - |t| + i];
    if |t| > 1 {
      assert t[1..][0] == t[1];
    }
  }

  /**
   * `Number(s)` on the strings the service editor can produce: surrounding white space is
   * ignored, the empty string is 0, a string of digits is its value; anything else is `NaN`,
   * written `None`. Signs, fractions, exponents and hexadecimal are not modelled.
   */
  function NumberOf(s: string): Option<int>
  {
    var t := TrimEnd(TrimStart(s));
    if t == [] then Some(0)
    else if forall i :: 0 <= i < |t| ==> IsDigit(t[i]) then Some(DigitsValue(t))
    else None
  }

  /** `Number` reads a decimal spelling back. */
  lemma NumberOfDecimal(n: nat)
    ensures NumberOf(Decimal(n)) == Some(n)
  {
    var d := Decimal(n);
    DecimalValue(n);
    assert IsDigit(d[0]) && !IsSpace(d[0]);
    assert TrimStart(d) == d;
    assert IsDigit(d[|d| - 1]) && !IsSpace(d[|d| - 1]);
    assert TrimEnd(d) == d;
  }
}
