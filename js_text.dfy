/**
 * The slice of JavaScript string semantics the screens rely on:
 * `String.prototype.trim`, the regular-expression classes `\s` and `\d`,
 * and the string-to-number coercion `20 * "4"` performs.
 */
module JsText {
  import opened Wrappers

  /**
   * JavaScript's WhiteSpace and LineTerminator characters: what `trim` strips
   * and what the regular-expression class `\s` matches.
   */
  predicate IsJsSpace(c: char) {
    || c in {'\t', '\n', '\U{000B}', '\U{000C}', '\r', ' ', '\U{00A0}', '\U{1680}'}
    || ('\U{2000}' <= c <= '\U{200A}')
    || c in {'\U{2028}', '\U{2029}', '\U{202F}', '\U{205F}', '\U{3000}', '\U{FEFF}'}
  }

  /** The regular-expression class `\d`: ASCII digits only. */
  predicate IsDigit(c: char) {
    '0' <= c <= '9'
  }

  /** Every character of `s` is a space: what `s.trim() === ''` tests. */
  ghost predicate AllSpace(s: string) {
    forall i :: 0 <= i < |s| ==> IsJsSpace(s[i])
  }

  /** `s` is a non-empty run of ASCII digits. */
  predicate IsDigitString(s: string) {
    |s| > 0 && forall i :: 0 <= i < |s| ==> IsDigit(s[i])
  }

  /** Drops the leading spaces. */
  function TrimStart(s: string): string {
    if s != [] && IsJsSpace(s[0]) then TrimStart(s[1..]) else s
  }

  /** What `TrimStart` keeps is a suffix that does not start with a space, and all it drops is space. */
  lemma {:induction false} TrimStartSpec(s: string)
    ensures |TrimStart(s)| <= |s| && TrimStart(s) == s[|s| - |TrimStart(s)|..]
    ensures TrimStart(s) == [] || !IsJsSpace(TrimStart(s)[0])
    ensures AllSpace(s[..|s| - |TrimStart(s)|])
  {
    if s != [] && IsJsSpace(s[0]) {
      TrimStartSpec(s[1..]);
      var r := TrimStart(s[1..]);
      assert s[1..][..|s| - 1 - |r|] == s[1..|s| - |r|];
    }
  }

  /** Drops the trailing spaces. */
  function TrimEnd(s: string): string {
    if s != [] && IsJsSpace(s[|s| - 1]) then TrimEnd(s[..|s| - 1]) else s
  }

  /** What `TrimEnd` keeps is a prefix that does not end with a space, and all it drops is space. */
  lemma {:induction false} TrimEndSpec(s: string)
    ensures |TrimEnd(s)| <= |s| && TrimEnd(s) == s[..|TrimEnd(s)|]
    ensures TrimEnd(s) == [] || !IsJsSpace(TrimEnd(s)[|TrimEnd(s)| - 1])
    ensures AllSpace(s[|TrimEnd(s)|..])
  {
    if s != [] && IsJsSpace(s[|s| - 1]) {
      TrimEndSpec(s[..|s| - 1]);
      var r := TrimEnd(s[..|s| - 1]);
      assert s[|r|..] == s[..|s| - 1][|r|..] + [s[|s| - 1]];
    }
  }

  /** `s.trim()`: neither end of the result is a space. */
  function Trim(s: string): (r: string)
    ensures |r| <= |s|
    ensures r == [] || (!IsJsSpace(r[0]) && !IsJsSpace(r[|r| - 1]))
  {
    var t := TrimStart(s);
    TrimStartSpec(s);
    TrimEndSpec(t);
    var r := TrimEnd(t);
    assert r == [] || r[0] == t[0];
    r
  }

  /** What `trim` cuts away on either side of its result is all space. */
  lemma TrimIsSlice(s: string)
    ensures exists lo | 0 <= lo <= |s| - |Trim(s)| :: TrimmedAt(s, lo, Trim(s))
  {
    var t := TrimStart(s);
    var r := TrimEnd(t);
    TrimStartSpec(s);
    TrimEndSpec(t);
    assert s[|s| - |t|..][..|r|] == s[|s| - |t|..|s| - |t| + |r|];
    assert s[|s| - |t|..][|r|..] == s[|s| - |t| + |r|..];
    assert r == Trim(s);
    assert TrimmedAt(s, |s| - |t|, Trim(s));
  }

  /** `r` sits in `s` at `lo`, and all of `s` around it is space. */
  ghost predicate TrimmedAt(s: string, lo: int, r: string)
    requires 0 <= lo <= |s| - |r|
  {
    && r == s[lo..lo + |r|]
    && AllSpace(s[..lo])
    && AllSpace(s[lo + |r|..])
  }

  /** A field is blank after trimming exactly when it holds spaces only. */
  lemma TrimEmptyIffAllSpace(s: string)
    ensures Trim(s) == [] <==> AllSpace(s)
  {
    var t := TrimStart(s);
    TrimStartSpec(s);
    TrimEndSpec(t);
    assert s == s[..|s| - |t|] + t;
  }

  /** Text that neither starts nor ends with a space is its own trim. */
  lemma TrimUnpadded(s: string)
    requires s != [] && !IsJsSpace(s[0]) && !IsJsSpace(s[|s| - 1])
    ensures Trim(s) == s
  {
  }

  /** A digit is not a space, so trimming leaves a digit string alone. */
  lemma TrimDigitString(s: string)
    requires IsDigitString(s)
    ensures Trim(s) == s
  {
    TrimUnpadded(s);
  }

  /** The value of a decimal digit. */
  function DigitValue(c: char): (r: nat)
    requires IsDigit(c)
    ensures r <= 9
  {
    (c as int) - ('0' as int)
  }

  /** The number a digit string denotes, read left to right. */
  function DigitsValue(s: string): nat
    requires forall i :: 0 <= i < |s| ==> IsDigit(s[i])
  {
    if s == [] then 0 else 10 * DigitsValue(s[..|s| - 1]) + DigitValue(s[|s| - 1])
  }

  /**
   * JavaScript's `Number(s)` (what `*` applies to a string operand), for the strings
   * the model covers: surrounding spaces are ignored, a blank string is 0 and a
   * decimal digit string is its value. Any other string (a sign, a decimal point,
   * an exponent, a hexadecimal prefix, `Infinity`, or text that coerces to NaN)
   * lies outside the model and yields `None`.
   */
  function ToNumber(s: string): (r: Option<nat>)
    ensures AllSpace(s) ==> r == Some(0)
    ensures r.Some? <==> AllSpace(s) || IsDigitString(Trim(s))
    ensures IsDigitString(s) ==> r == Some(DigitsValue(s))
    ensures IsDigitString(Trim(s)) ==> r == Some(DigitsValue(Trim(s)))
  {
    TrimEmptyIffAllSpace(s);
    if IsDigitString(s) then TrimDigitString(s); Some(DigitsValue(s))
    else
      var t := Trim(s);
      if t == [] then Some(0)
      else if IsDigitString(t) then Some(DigitsValue(t))
      else None
  }
}
