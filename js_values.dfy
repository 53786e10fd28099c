/** The few JavaScript value conventions the core relies on, made explicit:
    truthiness of optional strings (`a || b`), decimal `toString()` of
    integers, `parseInt(s, 10)`, and `String.prototype.trim`. */
module JsValues {
  import opened Wrappers

  /** A JavaScript string value that may be absent is truthy when present and non-empty. */
  predicate Truthy(s: Option<string>) {
    s.Some? && s.value != ""
  }

  /** `s || d`: the string itself when truthy, the default otherwise. */
  function Or(s: Option<string>, d: string): (r: string)
    ensures Truthy(s) ==> r == s.value
    ensures !Truthy(s) ==> r == d
    ensures r != "" || d == ""
  {
    if Truthy(s) then s.value else d
  }

  // ---------------------------------------------------------------------------
  // Decimal digits

  predicate IsDigit(c: char) {
    '0' <= c <= '9'
  }

  predicate AllDigits(s: string) {
    forall i :: 0 <= i < |s| ==> IsDigit(s[i])
  }

  function DigitChar(d: nat): (c: char)
    requires d < 10
    ensures IsDigit(c)
  {
    ('0' as int + d) as char
  }

  function DigitValue(c: char): (d: nat)
    requires IsDigit(c)
    ensures d < 10
  {
    c as int - '0' as int
  }

  /** `n.toString()` for a non-negative integer: its decimal digits, most significant first. */
  function NatToString(n: nat): (s: string)
    ensures |s| >= 1 && AllDigits(s)
    ensures |s| == 1 <==> n < 10
    decreases n
  {
    if n < 10 then [DigitChar(n)] else NatToString(n / 10) + [DigitChar(n % 10)]
  }

  /** `i.toString()` for any integer: a minus sign before the digits of a negative one. */
  function IntToString(i: int): (s: string)
    ensures |s| >= 1
    ensures s[0] == '-' <==> i < 0
    ensures i >= 0 ==> AllDigits(s)
  {
    if i < 0 then "-" + NatToString(-i) else NatToString(i)
  }

  /** The value of a string of decimal digits, read most significant first. */
  function DigitsValue(s: string): nat
    requires AllDigits(s)
  {
    if s == [] then 0 else DigitsValue(s[..|s| - 1]) * 10 + DigitValue(s[|s| - 1])
  }

  /** Reading back the digits that `toString()` wrote gives the number. */
  lemma {:induction false} NatToStringValue(n: nat)
    ensures DigitsValue(NatToString(n)) == n
    decreases n
  {
    if n >= 10 {
      var s := NatToString(n);
      assert s[..|s| - 1] == NatToString(n / 10);
      NatToStringValue(n / 10);
    }
  }

  /** The longest prefix of `s` made of decimal digits. */
  function LeadingDigits(s: string): (r: string)
    ensures |r| <= |s| && AllDigits(r) && r == s[..|r|]
    ensures |r| < |s| ==> !IsDigit(s[|r|])
  {
    if s == [] || !IsDigit(s[0]) then [] else [s[0]] + LeadingDigits(s[1..])
  }

  lemma {:induction false} LeadingDigitsOfDigits(s: string)
    requires AllDigits(s)
    ensures LeadingDigits(s) == s
  {
    if s != [] {
      LeadingDigitsOfDigits(s[1..]);
    }
  }

  /** `parseInt(s, 10)`: leading white space is skipped, then an optional sign,
      then the longest run of decimal digits; no digit at all gives NaN (`None`). */
  function ParseInt(s: string): (r: Option<int>)
    ensures r.None? <==> LeadingDigits(UnsignedPart(TrimStart(s))) == []
  {
    var t := TrimStart(s);
    var digits := LeadingDigits(UnsignedPart(t));
    var magnitude: int := if digits == [] then 0 else DigitsValue(digits);
    if digits == [] then None
    else if |t| > 0 && t[0] == '-' then Some(-magnitude)
    else Some(magnitude)
  }

  /** What follows an optional leading sign. */
  function UnsignedPart(t: string): (r: string)
    ensures r == t || (|t| > 0 && (t[0] == '-' || t[0] == '+') && r == t[1..])
  {
    if |t| > 0 && (t[0] == '-' || t[0] == '+') then t[1..] else t
  }

  /** `parseInt(i.toString(), 10) == i`: an id written as a string is read back unchanged. */
  lemma IntToStringRoundTrip(i: int)
    ensures ParseInt(IntToString(i)) == Some(i)
  {
    var s := IntToString(i);
    var n: nat := if i < 0 then -i else i;
    assert !IsJsWhitespace(s[0]);
    assert TrimStart(s) == s;
    assert UnsignedPart(s) == NatToString(n);
    LeadingDigitsOfDigits(NatToString(n));
    NatToStringValue(n);
  }

  // ---------------------------------------------------------------------------
  // White space and trim

  /** The characters ECMAScript counts as WhiteSpace or LineTerminator,
      which `trim` and `parseInt` skip. */
  predicate IsJsWhitespace(c: char) {
    || c == '\t' || c == '\n' || c == '\U{000B}' || c == '\U{000C}' || c == '\r' || c == ' '
    || c == '\U{00A0}' || c == '\U{1680}' || ('\U{2000}' <= c <= '\U{200A}')
    || c == '\U{2028}' || c == '\U{2029}' || c == '\U{202F}' || c == '\U{205F}'
    || c == '\U{3000}' || c == '\U{FEFF}'
  }

  predicate AllWhitespace(s: string) {
    forall i :: 0 <= i < |s| ==> IsJsWhitespace(s[i])
  }

  /** `s` with its leading white space removed. */
  function TrimStart(s: string): (r: string)
    ensures |r| <= |s| && r == s[|s| - |r|..]
    ensures AllWhitespace(s[..|s| - |r|])
    ensures r == [] || !IsJsWhitespace(r[0])
  {
    if s != [] && IsJsWhitespace(s[0]) then TrimStart(s[1..]) else s
  }

  /** `s` with its trailing white space removed. */
  function TrimEnd(s: string): (r: string)
    ensures |r| <= |s| && r == s[..|r|]
    ensures AllWhitespace(s[|r|..])
    ensures r == [] || !IsJsWhitespace(r[|r| - 1])
  {
    if s != [] && IsJsWhitespace(s[|s| - 1]) then TrimEnd(s[..|s| - 1]) else s
  }

  /** `String.prototype.trim`. */
  function Trim(s: string): (r: string)
    ensures r == [] || (!IsJsWhitespace(r[0]) && !IsJsWhitespace(r[|r| - 1]))
  {
    TrimEnd(TrimStart(s))
  }

  /** Trimming the front of `a + b` stops inside `a` when `a` holds a visible character. */
  lemma {:induction false} TrimStartAppend(a: string, b: string)
    requires !AllWhitespace(a)
    ensures TrimStart(a + b) == TrimStart(a) + b
  {
    assert a != [];
    assert (a + b)[1..] == a[1..] + b;
    if IsJsWhitespace(a[0]) {
      assert !AllWhitespace(a[1..]) by {
        var i :| 0 <= i < |a| && !IsJsWhitespace(a[i]);
        assert a[1..][i - 1] == a[i];
      }
      TrimStartAppend(a[1..], b);
    }
  }

  /** Trimming the front of `a + b` skips all of `a` when `a` is only white space. */
  lemma {:induction false} TrimStartSkips(a: string, b: string)
    requires AllWhitespace(a)
    ensures TrimStart(a + b) == TrimStart(b)
  {
    if a != [] {
      assert (a + b)[1..] == a[1..] + b;
      TrimStartSkips(a[1..], b);
    } else {
      assert a + b == b;
    }
  }

  /** Trimming the end of `a + b` stops inside `b` when `b` holds a visible character. */
  lemma {:induction false} TrimEndAppend(a: string, b: string)
    requires !AllWhitespace(b)
    ensures TrimEnd(a + b) == a + TrimEnd(b)
  {
    assert b != [];
    assert (a + b)[..|a + b| - 1] == a + b[..|b| - 1];
    if IsJsWhitespace(b[|b| - 1]) {
      assert !AllWhitespace(b[..|b| - 1]) by {
        var i :| 0 <= i < |b| && !IsJsWhitespace(b[i]);
        assert i < |b| - 1;
        assert b[..|b| - 1][i] == b[i];
      }
      TrimEndAppend(a, b[..|b| - 1]);
    }
  }

  /** Trimming the end of `a + b` removes all of `b` when `b` is only white space. */
  lemma {:induction false} TrimEndSkips(a: string, b: string)
    requires AllWhitespace(b)
    ensures TrimEnd(a + b) == TrimEnd(a)
  {
    if b != [] {
      assert (a + b)[..|a + b| - 1] == a + b[..|b| - 1];
      TrimEndSkips(a, b[..|b| - 1]);
    } else {
      assert a + b == a;
    }
  }
}
