/**
 * String operations used by the source: `toLowerCase`, `includes`,
 * `String(n)` on a non-negative integer and `padStart`. Strings are `seq<char>`;
 * lower-casing is restricted to ASCII letters.
 */
module Text {
  import opened Wrappers

  /** ASCII `toLowerCase` of one character. */
  function LowerChar(c: char): (r: char)
    ensures 'A' <= c <= 'Z' ==> 'a' <= r <= 'z' && r as int == c as int + 32
    ensures !('A' <= c <= 'Z') ==> r == c
  {
    if 'A' <= c <= 'Z' then (c as int + 32) as char else c
  }

  /** ASCII `toLowerCase`. */
  function Lower(s: string): (r: string)
    ensures |r| == |s|
    ensures forall i :: 0 <= i < |s| ==> r[i] == LowerChar(s[i])
  {
    if s == [] then [] else [LowerChar(s[0])] + Lower(s[1..])
  }

  /** `t` is a prefix of `s`. */
  predicate IsPrefix(t: string, s: string) {
    |t| <= |s| && s[..|t|] == t
  }

  /** `s.includes(t)`, by scanning the start positions from left to right. */
  predicate Includes(s: string, t: string)
    decreases |s|
  {
    IsPrefix(t, s) || (s != [] && Includes(s[1..], t))
  }

  /** `t` occurs in `s` starting at position `i`. */
  predicate OccursAt(s: string, t: string, i: int) {
    0 <= i && i + |t| <= |s| && s[i..i + |t|] == t
  }

  /** `Includes` agrees with "`t` occurs at some position of `s`", in both directions. */
  lemma {:induction false} IncludesIffOccurs(s: string, t: string)
    ensures Includes(s, t) <==> exists i :: OccursAt(s, t, i)
    decreases |s|
  {
    if IsPrefix(t, s) {
      assert OccursAt(s, t, 0);
    } else if s == [] {
      assert |t| > 0;
    } else {
      IncludesIffOccurs(s[1..], t);
      if exists j :: OccursAt(s[1..], t, j) {
        var j :| OccursAt(s[1..], t, j);
        assert s[j + 1..j + 1 + |t|] == s[1..][j..j + |t|];
        assert OccursAt(s, t, j + 1);
      }
      if exists i :: OccursAt(s, t, i) {
        var i :| OccursAt(s, t, i);
        assert i != 0;
        assert s[1..][i - 1..i - 1 + |t|] == s[i..i + |t|];
        assert OccursAt(s[1..], t, i - 1);
      }
    }
  }

  /** Every string includes the empty string. */
  lemma IncludesEmpty(s: string)
    ensures Includes(s, "")
  {
    assert IsPrefix("", s);
  }

  /** `includes` is transitive: a string containing `t` contains everything `t` contains. */
  lemma IncludesTrans(s: string, t: string, u: string)
    requires Includes(s, t) && Includes(t, u)
    ensures Includes(s, u)
  {
    IncludesIffOccurs(s, t);
    IncludesIffOccurs(t, u);
    var i :| OccursAt(s, t, i);
    var j :| OccursAt(t, u, j);
    forall k | 0 <= k < |u|
      ensures s[i + j + k] == u[k]
    {
      assert u[k] == t[j..j + |u|][k] == t[j + k];
      assert t[j + k] == s[i..i + |t|][j + k] == s[i + j + k];
    }
    assert s[i + j..i + j + |u|] == u;
    assert OccursAt(s, u, i + j);
    IncludesIffOccurs(s, u);
  }

  /** Lower-casing both sides keeps an occurrence. */
  lemma LowerIncludes(s: string, t: string)
    requires Includes(s, t)
    ensures Includes(Lower(s), Lower(t))
  {
    IncludesIffOccurs(s, t);
    var i :| OccursAt(s, t, i);
    assert Lower(s)[i..i + |t|] == Lower(t);
    assert OccursAt(Lower(s), Lower(t), i);
    IncludesIffOccurs(Lower(s), Lower(t));
  }

  /** The character for a decimal digit. */
  function DigitChar(d: nat): (c: char)
    requires d < 10
    ensures '0' <= c <= '9'
  {
    ('0' as int + d) as char
  }

  predicate IsDigit(c: char) {
    '0' <= c <= '9'
  }

  predicate AllDigits(s: string) {
    forall i :: 0 <= i < |s| ==> IsDigit(s[i])
  }

  /** `String(n)` for a non-negative integer: its decimal digits, no leading zero. */
  function Decimal(n: nat): (s: string)
    ensures 1 <= |s|
    ensures AllDigits(s)
    ensures |s| > 1 ==> s[0] != '0'
    decreases n
  {
    if n < 10 then [DigitChar(n)] else Decimal(n / 10) + [DigitChar(n % 10)]
  }

  /** Numbers below 1000 have at most three digits. */
  lemma DecimalBelowThousand(n: nat)
    ensures n < 1000 ==> |Decimal(n)| <= 3
  {
    if 10 <= n < 1000 {
      var m := n / 10;
      assert m < 100;
      if m >= 10 {
        assert m / 10 < 10;
        assert |Decimal(m / 10)| == 1;
        assert |Decimal(m)| == 2;
      } else {
        assert |Decimal(m)| == 1;
      }
      assert Decimal(n) == Decimal(m) + [DigitChar(n % 10)];
    }
  }

  /** The value of a string of decimal digits (the inverse of `Decimal`). */
  function DigitsValue(s: string): nat
    requires AllDigits(s)
  {
    if s == [] then 0
    else DigitsValue(s[..|s| - 1]) * 10 + (s[|s| - 1] as int - '0' as int)
  }

  /** Reading back the digits of `Decimal(n)` gives `n`. */
  lemma {:induction false} DecimalRoundTrip(n: nat)
    ensures DigitsValue(Decimal(n)) == n
    decreases n
  {
    var s := Decimal(n);
    if n >= 10 {
      DecimalRoundTrip(n / 10);
      assert s[..|s| - 1] == Decimal(n / 10);
    }
  }

  /** `s.padStart(width, fill)`: `fill` repeated in front until `s` has `width` characters. */
  function PadStart(s: string, width: nat, fill: char): (r: string)
    ensures |r| == if |s| >= width then |s| else width
    ensures r[|r| - |s|..] == s
    ensures forall i :: 0 <= i < |r| - |s| ==> r[i] == fill
  {
    if |s| >= width then s else seq(width - |s|, _ => fill) + s
  }

  /** Leading zeros do not change the value of a digit string. */
  lemma {:induction false} LeadingZerosValue(z: string, s: string)
    requires forall i :: 0 <= i < |z| ==> z[i] == '0'
    requires AllDigits(s)
    ensures AllDigits(z + s)
    ensures DigitsValue(z + s) == DigitsValue(s)
    decreases |s|
  {
    assert AllDigits(z + s) by {
      forall i | 0 <= i < |z + s| ensures IsDigit((z + s)[i]) {
        if i >= |z| { assert (z + s)[i] == s[i - |z|]; }
      }
    }
    if s == [] {
      assert z + s == z;
      AllZerosValue(z);
    } else {
      var u := z + s;
      assert u[..|u| - 1] == z + s[..|s| - 1];
      LeadingZerosValue(z, s[..|s| - 1]);
    }
  }

  /** A string of zeros is worth 0. */
  lemma {:induction false} AllZerosValue(z: string)
    requires forall i :: 0 <= i < |z| ==> z[i] == '0'
    ensures AllDigits(z) && DigitsValue(z) == 0
  {
    if z != [] {
      AllZerosValue(z[..|z| - 1]);
    }
  }

  /** The zero-padded decimal rendering `String(n).padStart(width, '0')` reads back as `n`. */
  lemma PaddedDecimalRoundTrip(n: nat, width: nat)
    ensures AllDigits(PadStart(Decimal(n), width, '0'))
    ensures DigitsValue(PadStart(Decimal(n), width, '0')) == n
  {
    var d := Decimal(n);
    var p := PadStart(d, width, '0');
    DecimalRoundTrip(n);
    if |d| < width {
      var z := seq(width - |d|, _ => '0');
      assert p == z + d;
      LeadingZerosValue(z, d);
    }
  }

  /** The longest prefix of `s` made of decimal digits. */
  function DigitPrefix(s: string): (d: string)
    ensures IsPrefix(d, s) && AllDigits(d)
    ensures |d| < |s| ==> !IsDigit(s[|d|])
  {
    if s == [] || !IsDigit(s[0]) then [] else [s[0]] + DigitPrefix(s[1..])
  }

  /** The ASCII white-space characters `parseInt` skips at the start. */
  predicate IsBlank(c: char) {
    c == ' ' || c == '\t' || c == '\n' || c == '\r' || c == '\U{000B}' || c == '\U{000C}'
  }

  predicate AllBlank(s: string) {
    forall i :: 0 <= i < |s| ==> IsBlank(s[i])
  }

  /** `s` without its leading blanks: the dropped prefix is all blanks, and what is left does not start with one. */
  function TrimStart(s: string): (r: string)
    ensures |r| <= |s| && r == s[|s| - |r|..]
    ensures r != [] ==> !IsBlank(r[0])
    ensures s != [] && !IsBlank(s[0]) ==> r == s
    ensures AllBlank(s[..|s| - |r|])
  {
    if s != [] && IsBlank(s[0]) then TrimStart(s[1..]) else s
  }

  predicate IsHexDigit(c: char) {
    IsDigit(c) || 'a' <= c <= 'f' || 'A' <= c <= 'F'
  }

  function HexDigitValue(c: char): (v: nat)
    requires IsHexDigit(c)
    ensures v < 16
  {
    if IsDigit(c) then c as int - '0' as int
    else if 'a' <= c <= 'f' then c as int - 'a' as int + 10
    else c as int - 'A' as int + 10
  }

  /** The longest prefix of `s` made of hexadecimal digits. */
  function HexPrefix(s: string): (d: string)
    ensures IsPrefix(d, s)
    ensures forall i :: 0 <= i < |d| ==> IsHexDigit(d[i])
    ensures |d| < |s| ==> !IsHexDigit(s[|d|])
  {
    if s == [] || !IsHexDigit(s[0]) then [] else [s[0]] + HexPrefix(s[1..])
  }

  /** The value of a string of hexadecimal digits. */
  function HexValue(s: string): nat
    requires forall i :: 0 <= i < |s| ==> IsHexDigit(s[i])
  {
    if s == [] then 0 else HexValue(s[..|s| - 1]) * 16 + HexDigitValue(s[|s| - 1])
  }

  /** After the sign: a `0x` or `0X` prefix, which switches `parseInt` to base 16. */
  predicate HasHexPrefix(s: string) {
    |s| >= 2 && s[0] == '0' && (s[1] == 'x' || s[1] == 'X')
  }

  /**
   * The digits after the sign: with a `0x`/`0X` prefix the longest run of hexadecimal
   * digits after it, otherwise the longest run of decimal digits; `None` when that run is empty.
   */
  function UnsignedValue(body: string): Option<nat> {
    if HasHexPrefix(body) then
      var h := HexPrefix(body[2..]);
      if h == [] then None else Some(HexValue(h))
    else
      var d := DigitPrefix(body);
      if d == [] then None else Some(DigitsValue(d))
  }

  /**
   * `parseInt(s)` without a radix: leading blanks are skipped, then an optional sign, then
   * `UnsignedValue`; `None` stands for NaN.
   */
  function ParseInt(s: string): Option<int> {
    var t := TrimStart(s);
    if t != [] && t[0] == '-' then
      match UnsignedValue(t[1..])
      case None => None
      case Some(m) => Some(-(m as int))
    else
      var body := if t != [] && t[0] == '+' then t[1..] else t;
      match UnsignedValue(body)
      case None => None
      case Some(m) => Some(m as int)
  }

  /** A non-empty string of decimal digits parses as its decimal value, leading zeros and all. */
  lemma ParseIntDigits(s: string)
    requires s != [] && AllDigits(s)
    ensures ParseInt(s) == Some(DigitsValue(s) as int)
  {
    assert IsDigit(s[0]);
    assert TrimStart(s) == s;
    assert s[0] != '-' && s[0] != '+';
    assert !HasHexPrefix(s) by {
      assert |s| >= 2 ==> IsDigit(s[1]);
    }
    AllDigitsPrefix(s);
    assert UnsignedValue(s) == Some(DigitsValue(s));
  }

  /** `parseInt(String(n)) == n` for every non-negative integer. */
  lemma ParseIntDecimal(n: nat)
    ensures ParseInt(Decimal(n)) == Some(n as int)
  {
    DecimalRoundTrip(n);
    ParseIntDigits(Decimal(n));
  }

  /** `parseInt("0x10")` is 16: the prefix switches to base 16. */
  lemma ParseIntHex()
    ensures ParseInt("0x10") == Some(16)
  {
    var s := "0x10";
    assert TrimStart(s) == s;
    assert HasHexPrefix(s);
    assert s[2..] == "10";
    assert HexPrefix("10") == "10" by {
      assert "10"[1..] == "0";
      assert HexPrefix("0") == "0";
    }
    assert HexValue("10") == 16 by {
      assert "10"[..1] == "1";
      assert HexValue("1") == 1;
    }
    assert UnsignedValue(s) == Some(16);
  }

  /** `parseInt("12a")` is 12: reading stops at the first character that is not a digit. */
  lemma ParseIntTrailing()
    ensures ParseInt("12a") == Some(12)
  {
    var s := "12a";
    assert TrimStart(s) == s;
    assert !HasHexPrefix(s);
    assert DigitPrefix(s) == "12" by {
      assert s[1..] == "2a";
      assert "2a"[1..] == "a";
      assert DigitPrefix("a") == "";
    }
    assert DigitsValue("12") == 12 by {
      assert "12"[..1] == "1";
      assert DigitsValue("1") == 1;
    }
    assert UnsignedValue(s) == Some(12);
  }

  /** `parseInt(" -7")` is -7: leading blanks are skipped before the sign. */
  lemma ParseIntBlankSign()
    ensures ParseInt(" -7") == Some(-7)
  {
    var s := " -7";
    assert TrimStart(s) == TrimStart(s[1..]) == "-7";
    assert "-7"[1..] == "7";
    assert !HasHexPrefix("7");
    assert DigitPrefix("7") == "7";
    assert DigitsValue("7") == 7;
  }

  /** `parseInt("0x")` is NaN: the hexadecimal prefix with no digit after it. */
  lemma ParseIntEmptyHex()
    ensures ParseInt("0x") == None
  {
    var s := "0x";
    assert TrimStart(s) == s;
    assert s[2..] == "";
  }

  /** On a string of digits, `DigitPrefix` is the whole string. */
  lemma {:induction false} AllDigitsPrefix(s: string)
    requires AllDigits(s)
    ensures DigitPrefix(s) == s
  {
    if s != [] {
      AllDigitsPrefix(s[1..]);
    }
  }
}
