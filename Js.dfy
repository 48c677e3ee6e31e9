/**
 * The JavaScript built-ins the storefront relies on, over integers and strings:
 * `Array.prototype.slice`, `parseInt(s, 10)`, the rendering of an integer-valued
 * number inside a template literal, and the truthiness of a string.
 */
module Js {
  import opened Wrappers

  function Min(a: int, b: int): int { if a <= b then a else b }
  function Max(a: int, b: int): int { if a <= b then b else a }

  /** A string is truthy unless it is null/undefined or empty. */
  predicate Truthy(v: Option<string>) {
    v.Some? && v.value != ""
  }

  // ---------------------------------------------------------------- slice

  /** The index `slice` uses for a relative position `k` in a list of length `n`. */
  function RelativeIndex(k: int, n: nat): (i: nat)
    ensures i <= n
    ensures 0 <= k ==> i == Min(k, n)
    ensures k < 0 ==> i == Max(n + k, 0)
  {
    if k < 0 then (if n + k < 0 then 0 else n + k) else if k < n then k else n
  }

  /** `s.slice(start, end)`: negative positions count from the end, both are clipped. */
  function Slice<T>(s: seq<T>, start: int, end: int): (r: seq<T>)
    ensures |r| <= |s|
    ensures 0 <= start <= end ==> r == s[Min(start, |s|)..Min(end, |s|)]
    ensures 0 <= end <= start ==> r == []
  {
    var from, to := RelativeIndex(start, |s|), RelativeIndex(end, |s|);
    if from < to then s[from..to] else []
  }

  // ---------------------------------------------------- integer -> string

  predicate IsDigit(c: char) { '0' <= c <= '9' }

  function DigitChar(d: nat): (c: char)
    requires d < 10
    ensures IsDigit(c) && c as int - '0' as int == d
  {
    ('0' as int + d) as char
  }

  function DigitValue(c: char): nat
    requires IsDigit(c)
  {
    c as int - '0' as int
  }

  /** The decimal numeral of `n`, without leading zeros. */
  function NatToString(n: nat): (s: string)
    ensures |s| > 0
    ensures forall i :: 0 <= i < |s| ==> IsDigit(s[i])
    ensures |s| > 1 ==> s[0] != '0'
    decreases n
  {
    if n < 10 then [DigitChar(n)] else NatToString(n / 10) + [DigitChar(n % 10)]
  }

  /** `${n}` for an integer-valued number `n` (a leading "-" for negatives). */
  function Show(n: int): (s: string)
    ensures |s| > 0
    ensures s[0] == '-' <==> n < 0
    ensures forall i :: (if n < 0 then 1 else 0) <= i < |s| ==> IsDigit(s[i])
    ensures var d := if n < 0 then s[1..] else s;
      |d| > 0 && (|d| > 1 ==> d[0] != '0') && NumeralValue(d) == (if n < 0 then -n else n)
  {
    var m: nat := if n < 0 then -n else n;
    NumeralValueOfNatToString(m);
    var s := if n < 0 then "-" + NatToString(m) else NatToString(m);
    assert n < 0 ==> s[1..] == NatToString(m);
    s
  }

  // ------------------------------------------------------- parseInt(s, 10)

  /**
   * The characters `parseInt` skips before the numeral: the white space and line
   * terminators of the ECMAScript grammar (TAB, VT, FF, ZWNBSP, the Zs category,
   * LF, CR, LS, PS).
   */
  predicate IsWhite(c: char) {
    c == '\t' || c == '\n' || c == '\U{000B}' || c == '\U{000C}' || c == '\r'
    || c == ' ' || c == '\U{00A0}' || c == '\U{1680}' || ('\U{2000}' <= c <= '\U{200A}')
    || c == '\U{2028}' || c == '\U{2029}' || c == '\U{202F}' || c == '\U{205F}'
    || c == '\U{3000}' || c == '\U{FEFF}'
  }

  function TrimStart(s: string): (t: string)
    ensures |t| <= |s| && t == s[|s| - |t|..]
    ensures |t| > 0 ==> !IsWhite(t[0])
  {
    if |s| > 0 && IsWhite(s[0]) then TrimStart(s[1..]) else s
  }

  /** The length of the longest prefix of `s` made of decimal digits. */
  function DigitRun(s: string): (k: nat)
    ensures k <= |s|
    ensures forall i :: 0 <= i < k ==> IsDigit(s[i])
    ensures k < |s| ==> !IsDigit(s[k])
  {
    if |s| > 0 && IsDigit(s[0]) then 1 + DigitRun(s[1..]) else 0
  }

  /** The value of a numeral, read from the left as `parseInt` does. */
  function NumeralValue(s: string): nat
    requires forall i :: 0 <= i < |s| ==> IsDigit(s[i])
  {
    if |s| == 0 then 0 else NumeralValue(s[..|s| - 1]) * 10 + DigitValue(s[|s| - 1])
  }

  /** The value of the digit run at the start of `body`; None when there is none. */
  function ParseDigits(body: string): (r: Option<nat>)
    ensures r.None? <==> DigitRun(body) == 0
  {
    var k := DigitRun(body);
    if k == 0 then None else Some(NumeralValue(body[..k]))
  }

  function Negate(v: Option<nat>): Option<int> {
    match v
    case None => None
    case Some(n) => Some(0 - n as int)
  }

  function Widen(v: Option<nat>): Option<int> {
    match v
    case None => None
    case Some(n) => Some(n)
  }

  /** The sign step of `parseInt`, after the white space is skipped. */
  function ParseSigned(t: string): Option<int> {
    if |t| > 0 && t[0] == '-' then Negate(ParseDigits(t[1..]))
    else if |t| > 0 && t[0] == '+' then Widen(ParseDigits(t[1..]))
    else Widen(ParseDigits(t))
  }

  /**
   * `parseInt(s, 10)`: skip leading white space, take an optional sign, then the
   * longest run of decimal digits; NaN (None) when that run is empty. Whatever
   * follows the digits is ignored.
   */
  function ParseInt(s: string): (r: Option<int>)
    ensures r.None? <==>
      var t := TrimStart(s);
      var body := if |t| > 0 && (t[0] == '-' || t[0] == '+') then t[1..] else t;
      |body| == 0 || !IsDigit(body[0])
  {
    ParseSigned(TrimStart(s))
  }

  // ------------------------------------------------------------- lemmas

  lemma {:induction false} NumeralValueOfNatToString(n: nat)
    ensures NumeralValue(NatToString(n)) == n
    decreases n
  {
    var s := NatToString(n);
    if n >= 10 {
      NumeralValueOfNatToString(n / 10);
      assert s[..|s| - 1] == NatToString(n / 10);
    }
  }

  /** The digit run of a numeral followed by a non-digit is exactly the numeral. */
  lemma {:induction false} DigitRunOfNumeral(s: string, rest: string)
    requires forall i :: 0 <= i < |s| ==> IsDigit(s[i])
    requires |rest| > 0 ==> !IsDigit(rest[0])
    ensures DigitRun(s + rest) == |s|
  {
    if |s| > 0 {
      assert (s + rest)[1..] == s[1..] + rest;
      DigitRunOfNumeral(s[1..], rest);
    }
  }

  /** A digit run followed by a non-digit reads as the run's value. */
  lemma ParseDigitsOfDigits(d: string, rest: string)
    requires |d| > 0 && forall i :: 0 <= i < |d| ==> IsDigit(d[i])
    requires |rest| > 0 ==> !IsDigit(rest[0])
    ensures ParseDigits(d + rest) == Some(NumeralValue(d))
  {
    DigitRunOfNumeral(d, rest);
    assert (d + rest)[..|d|] == d;
  }

  lemma ParseDigitsOfNumeral(n: nat, rest: string)
    requires |rest| > 0 ==> !IsDigit(rest[0])
    ensures ParseDigits(NatToString(n) + rest) == Some(n)
  {
    ParseDigitsOfDigits(NatToString(n), rest);
    NumeralValueOfNatToString(n);
  }

  /**
   * `parseInt(s, 10)` on its whole grammar: white space, an optional sign, a
   * non-empty run of digits (leading zeros allowed), then anything that does not
   * start with a digit, reads as the signed value of the digits.
   */
  lemma ParseIntOfNumeral(w: string, sign: string, d: string, rest: string)
    requires forall i :: 0 <= i < |w| ==> IsWhite(w[i])
    requires sign in {"", "+", "-"}
    requires |d| > 0 && forall i :: 0 <= i < |d| ==> IsDigit(d[i])
    requires |rest| > 0 ==> !IsDigit(rest[0])
    ensures ParseInt(w + sign + d + rest) ==
      Some(if sign == "-" then -(NumeralValue(d) as int) else NumeralValue(d) as int)
  {
    ConcatFour(w, sign, d, rest);
    SignedNumeral(sign, d, rest);
    ParseAfterWhite(w, sign + d + rest);
  }

  lemma ConcatFour(a: string, b: string, c: string, e: string)
    ensures a + b + c + e == a + (b + c + e)
  {
  }

  lemma ParseAfterWhite(w: string, t: string)
    requires forall i :: 0 <= i < |w| ==> IsWhite(w[i])
    requires TrimStart(t) == t
    ensures ParseInt(w + t) == ParseSigned(t)
  {
    TrimStartSkipsWhite(w, t);
  }

  /** A sign and a digit run: no white space to skip, and the sign step reads the signed value. */
  lemma SignedNumeral(sign: string, d: string, rest: string)
    requires sign in {"", "+", "-"}
    requires |d| > 0 && forall i :: 0 <= i < |d| ==> IsDigit(d[i])
    requires |rest| > 0 ==> !IsDigit(rest[0])
    ensures TrimStart(sign + d + rest) == sign + d + rest
    ensures ParseSigned(sign + d + rest) ==
      Some(if sign == "-" then -(NumeralValue(d) as int) else NumeralValue(d) as int)
  {
    ParseDigitsOfDigits(d, rest);
    assert sign + d + rest == sign + (d + rest);
    if sign == "" {
      assert sign + (d + rest) == d + rest;
      UnsignedNumeral(d + rest);
    } else {
      SignThenDigits(sign[0], d + rest);
      assert sign == [sign[0]];
    }
  }

  lemma UnsignedNumeral(t: string)
    requires |t| > 0 && IsDigit(t[0])
    ensures TrimStart(t) == t && ParseSigned(t) == Widen(ParseDigits(t))
  {
    SignOrDigitIsNotWhite(t[0]);
  }

  lemma SignThenDigits(c: char, body: string)
    requires c == '-' || c == '+'
    ensures TrimStart([c] + body) == [c] + body
    ensures ParseSigned([c] + body) == if c == '-' then Negate(ParseDigits(body)) else Widen(ParseDigits(body))
  {
    assert ([c] + body)[0] == c;
    assert ([c] + body)[1..] == body;
  }

  /**
   * Reading back what `Show` wrote: `parseInt` recovers every integer, even when
   * text that does not start with a digit follows it.
   */
  lemma ParseIntShow(n: int, rest: string)
    requires |rest| > 0 ==> !IsDigit(rest[0])
    ensures ParseInt(Show(n) + rest) == Some(n)
  {
    var m: nat := if n < 0 then -n else n;
    var sign := if n < 0 then "-" else "";
    ShowIsSignedNumeral(n);
    NumeralValueOfNatToString(m);
    ParseIntOfNumeral("", sign, NatToString(m), rest);
    assert "" + sign == sign;
  }

  lemma ShowIsSignedNumeral(n: int)
    ensures Show(n) == (if n < 0 then "-" else "") + NatToString(if n < 0 then -n else n)
  { }

  lemma SignOrDigitIsNotWhite(c: char)
    requires IsDigit(c) || c == '-'
    ensures !IsWhite(c)
  {
  }

  lemma {:induction false} TrimStartSkipsWhite(w: string, s: string)
    requires forall i :: 0 <= i < |w| ==> IsWhite(w[i])
    ensures TrimStart(w + s) == TrimStart(s)
  {
    if |w| > 0 {
      assert (w + s)[0] == w[0];
      assert IsWhite((w + s)[0]);
      assert (w + s)[1..] == w[1..] + s;
      TrimStartSkipsWhite(w[1..], s);
    } else {
      assert w + s == s;
    }
  }

  /** Leading white space does not change what `parseInt` reads. */
  lemma ParseIntSkipsWhite(w: string, s: string)
    requires forall i :: 0 <= i < |w| ==> IsWhite(w[i])
    ensures ParseInt(w + s) == ParseInt(s)
  {
    TrimStartSkipsWhite(w, s);
  }
}
