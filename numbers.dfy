/** The number-to-text and text-to-number conversions of JavaScript that the
    repository relies on: `String(n)` for integers, `padStart`, and the global
    `parseInt(s)` with no radix argument. */
module JsNumbers {
  import opened Collections

  predicate IsDigit(c: char) {
    '0' <= c <= '9'
  }

  predicate IsHexDigit(c: char) {
    IsDigit(c) || 'a' <= c <= 'f' || 'A' <= c <= 'F'
  }

  function DigitValue(c: char): (d: nat)
    requires IsHexDigit(c)
    ensures d < 16
    ensures IsDigit(c) ==> d < 10
  {
    if IsDigit(c) then c as int - '0' as int
    else if 'a' <= c <= 'f' then c as int - 'a' as int + 10
    else c as int - 'A' as int + 10
  }

  function DigitChar(d: nat): (c: char)
    requires d < 10
    ensures IsDigit(c) && DigitValue(c) == d
  {
    ('0' as int + d) as char
  }

  /** The value of a string of digits in base `base`, most significant first. */
  function DigitsValue(s: string, base: nat): nat
    requires forall i :: 0 <= i < |s| ==> IsHexDigit(s[i])
  {
    if s == [] then 0 else DigitsValue(s[..|s| - 1], base) * base + DigitValue(s[|s| - 1])
  }

  /** `String(n)` for a non-negative integer: no sign, no leading zeros. */
  function NatString(n: nat): (r: string)
    ensures |r| >= 1
    ensures forall i :: 0 <= i < |r| ==> IsDigit(r[i])
    ensures r[0] == '0' ==> n == 0 && |r| == 1
  {
    if n < 10 then [DigitChar(n)] else NatString(n / 10) + [DigitChar(n % 10)]
  }

  /** `String(n)` for an integer. */
  function DecimalString(n: int): (r: string)
    ensures n < 0 ==> r == "-" + NatString(-n)
    ensures n >= 0 ==> r == NatString(n)
  {
    if n < 0 then "-" + NatString(-n) else NatString(n)
  }

  lemma {:induction false} NatStringValue(n: nat)
    ensures DigitsValue(NatString(n), 10) == n
  {
    if n >= 10 {
      NatStringValue(n / 10);
      var s := NatString(n);
      assert s[..|s| - 1] == NatString(n / 10);
    }
  }

  /** `s.padStart(width, fill)` with a one-character fill. */
  function PadStart(s: string, width: nat, fill: char): (r: string)
    ensures |r| == if |s| >= width then |s| else width
    decreases width - |s|
  {
    if |s| >= width then s else PadStart([fill] + s, width, fill)
  }

  /** The padded string is `s` behind as many fill characters as it takes. */
  lemma {:induction false} PadStartSpec(s: string, width: nat, fill: char)
    ensures var r := PadStart(s, width, fill);
      && r[|r| - |s|..] == s
      && forall i :: 0 <= i < |r| - |s| ==> r[i] == fill
    decreases width - |s|
  {
    if |s| < width {
      PadStartSpec([fill] + s, width, fill);
      var r := PadStart(s, width, fill);
      assert r[|r| - |s| - 1..] == [fill] + s;
      assert r[|r| - |s|..] == ([fill] + s)[1..];
    }
  }

  /** The white space and line terminators that `parseInt` skips. */
  predicate IsJsSpace(c: char) {
    || c == ' ' || c == '\t' || c == '\n' || c == '\r' || c == '\U{000B}' || c == '\U{000C}'
    || c == '\U{00A0}' || c == '\U{1680}' || ('\U{2000}' <= c <= '\U{200A}')
    || c == '\U{2028}' || c == '\U{2029}' || c == '\U{202F}' || c == '\U{205F}'
    || c == '\U{3000}' || c == '\U{FEFF}'
  }

  function SkipSpace(s: string): (r: string)
    ensures |r| <= |s| && r == s[|s| - |r|..]
    ensures r == [] || !IsJsSpace(r[0])
  {
    if s != [] && IsJsSpace(s[0]) then SkipSpace(s[1..]) else s
  }

  /** The length of the longest prefix of `s` made of digits of the given kind. */
  function DigitRun(s: string, hex: bool): (k: nat)
    ensures k <= |s|
    ensures forall i :: 0 <= i < k ==> IsHexDigit(s[i]) && (hex || IsDigit(s[i]))
    ensures k < |s| ==> !(if hex then IsHexDigit(s[k]) else IsDigit(s[k]))
  {
    if s != [] && (if hex then IsHexDigit(s[0]) else IsDigit(s[0])) then 1 + DigitRun(s[1..], hex) else 0
  }

  /** The unsigned part after the sign: a `0x`/`0X` prefix selects base 16. */
  function ParseUnsigned(s: string): Option<nat> {
    if |s| >= 2 && s[0] == '0' && (s[1] == 'x' || s[1] == 'X') then
      var k := DigitRun(s[2..], true);
      if k == 0 then None else Some(DigitsValue(s[2..][..k], 16))
    else
      var k := DigitRun(s, false);
      if k == 0 then None else Some(DigitsValue(s[..k], 10))
  }

  /** `parseInt(s)`: `None` stands for `NaN`. */
  function ParseInt(s: string): (r: Option<int>)
    ensures r.Some? ==> exists i :: 0 <= i < |s| && IsDigit(s[i])
  {
    var t := SkipSpace(s);
    var res :=
      if t != [] && t[0] == '-' then
        match ParseUnsigned(t[1..]) case None => None case Some(v) => Some(-(v as int))
      else if t != [] && t[0] == '+' then
        match ParseUnsigned(t[1..]) case None => None case Some(v) => Some(v as int)
      else
        match ParseUnsigned(t) case None => None case Some(v) => Some(v as int);
    assert res.Some? ==> exists i :: 0 <= i < |t| && IsDigit(t[i]) by {
      if res.Some? {
        var u := if t != [] && (t[0] == '-' || t[0] == '+') then t[1..] else t;
        assert ParseUnsigned(u).Some?;
        if |u| >= 2 && u[0] == '0' && (u[1] == 'x' || u[1] == 'X') {
          assert IsDigit(u[0]);
        } else {
          assert IsDigit(u[0]);
        }
      }
    }
    res
  }

  lemma {:induction false} DigitRunAll(s: string)
    requires forall i :: 0 <= i < |s| ==> IsDigit(s[i])
    ensures DigitRun(s, false) == |s|
  {
    if s != [] {
      DigitRunAll(s[1..]);
    }
  }

  /** A digit string without a leading zero is read back whole, in base 10. */
  lemma ParseUnsignedDigits(u: string)
    requires |u| >= 1 && forall i :: 0 <= i < |u| ==> IsDigit(u[i])
    requires u[0] == '0' ==> |u| == 1
    ensures ParseUnsigned(u) == Some(DigitsValue(u, 10))
  {
    DigitRunAll(u);
    assert u[..|u|] == u;
  }

  /** `parseInt(String(n)) == n` for every integer. */
  lemma ParseDecimalString(n: int)
    ensures ParseInt(DecimalString(n)) == Some(n)
  {
    var m: nat := if n < 0 then -n else n;
    var u := NatString(m);
    ParseUnsignedDigits(u);
    NatStringValue(m);
    if n < 0 {
      var t := "-" + u;
      assert t[0] == '-' && !IsJsSpace(t[0]);
      assert SkipSpace(t) == t;
      assert t[1..] == u;
    } else {
      assert !IsJsSpace(u[0]);
      assert SkipSpace(u) == u;
    }
  }
}
