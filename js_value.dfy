/**
 * The JavaScript values that travel through the plugin (device-state bags,
 * configuration entries, HomeKit values) and the JavaScript conversions the
 * plugin's code relies on: truthiness, `String(x)`, `Number(x)`,
 * `toLowerCase`/`toUpperCase`, `Math.round`, `x || d` and `key in array`.
 */
module JsValue {

  datatype Option<T> = None | Some(value: T)

  datatype JsVal =
    | Undef
    | Null
    | Bool(b: bool)
    | Num(n: real)
    | NaN
    | Str(s: string)
    | Arr(items: seq<JsVal>)
    | Obj(props: map<string, JsVal>)

  /** A partial device-state bag as the Tuya cloud reports it. */
  type DeviceState = map<string, JsVal>

  /** `d.k` on a state bag: an absent key reads as `undefined`. */
  function Field(d: DeviceState, k: string): JsVal
  {
    if k in d then d[k] else Undef
  }

  /** `v?.k`: property access that gives `undefined` on anything but an object holding `k`. */
  function Get(v: JsVal, k: string): JsVal
  {
    match v
    case Obj(p) => if k in p then p[k] else Undef
    case _ => Undef
  }

  /** JavaScript truthiness: `undefined`, `null`, `false`, `0`, NaN and `""` are falsy. */
  predicate Truthy(v: JsVal)
  {
    match v
    case Undef => false
    case Null => false
    case Bool(b) => b
    case Num(n) => n != 0.0
    case NaN => false
    case Str(s) => s != ""
    case Arr(_) => true
    case Obj(_) => true
  }

  /** A computed number: `None` stands for NaN. */
  function JsNum(x: Option<real>): JsVal
  {
    match x
    case None => NaN
    case Some(n) => Num(n)
  }

  // ---------------------------------------------------------------------
  // Digits

  predicate IsDigit(c: char) { '0' <= c <= '9' }

  predicate AllDigits(s: string) { forall k :: 0 <= k < |s| ==> IsDigit(s[k]) }

  function DigitChar(d: nat): char
    requires d < 10
  {
    "0123456789"[d]
  }

  lemma DigitCharValue(d: nat)
    requires d < 10
    ensures IsDigit(DigitChar(d)) && DigitValue(DigitChar(d)) == d
  {
  }

  function DigitValue(c: char): nat
    requires IsDigit(c)
  {
    c as int - '0' as int
  }

  /** Decimal notation of a natural number, most significant digit first. */
  function NatToStr(n: nat): string
    decreases n
  {
    if n < 10 then [DigitChar(n)] else NatToStr(n / 10) + [DigitChar(n % 10)]
  }

  /** The value of a run of decimal digits, read from its last digit. */
  function DigitsValue(s: string): nat
    requires AllDigits(s)
  {
    if s == [] then 0 else 10 * DigitsValue(s[..|s| - 1]) + DigitValue(s[|s| - 1])
  }

  /** The length of the run of decimal digits at the start of `s`. */
  function DigitPrefix(s: string): (n: nat)
    ensures n <= |s|
    ensures AllDigits(s[..n])
    ensures n < |s| ==> !IsDigit(s[n])
  {
    if s != [] && IsDigit(s[0]) then
      var m := DigitPrefix(s[1..]);
      assert s[..1 + m] == [s[0]] + s[1..][..m];
      1 + m
    else 0
  }

  lemma {:induction false} NatToStrDigits(n: nat)
    ensures |NatToStr(n)| > 0
    ensures AllDigits(NatToStr(n))
    ensures DigitsValue(NatToStr(n)) == n
    decreases n
  {
    if n >= 10 {
      var head := NatToStr(n / 10);
      var last := DigitChar(n % 10);
      DigitCharValue(n % 10);
      NatToStrDigits(n / 10);
      var s := head + [last];
      assert NatToStr(n) == s;
      assert s[..|s| - 1] == head;
      assert s[|s| - 1] == last;
      assert AllDigits(s) by {
        forall k | 0 <= k < |s| ensures IsDigit(s[k]) {
          if k < |head| { assert s[k] == head[k]; }
        }
      }
      assert DigitsValue(s) == 10 * DigitsValue(head) + DigitValue(last);
    } else {
      DigitCharValue(n);
      assert NatToStr(n)[..0] == [];
    }
  }

  // ---------------------------------------------------------------------
  // String(x)

  /** `String(n)` for a finite number: integers exactly, fractions to at most 20 digits. */
  function FormatNumber(n: real): string
  {
    if n < 0.0 then "-" + FormatNonNegative(-n) else FormatNonNegative(n)
  }

  function FormatNonNegative(x: real): string
    requires x >= 0.0
  {
    var i := x.Floor;
    var f := x - i as real;
    NatToStr(i) + (if f == 0.0 then "" else "." + FractionDigits(f, 20))
  }

  function FractionDigits(f: real, k: nat): string
    requires 0.0 <= f < 1.0
    decreases k
  {
    if k == 0 || f == 0.0 then ""
    else
      var d := (f * 10.0).Floor;
      [DigitChar(d)] + FractionDigits(f * 10.0 - d as real, k - 1)
  }

  /** `String(x)`, and the `${x}` of a template literal. */
  function ToStr(v: JsVal): string
    decreases v
  {
    match v
    case Undef => "undefined"
    case Null => "null"
    case Bool(b) => if b then "true" else "false"
    case Num(n) => FormatNumber(n)
    case NaN => "NaN"
    case Str(s) => s
    case Arr(items) =>
      // Array.prototype.join(","), where undefined and null items print as "".
      JoinWithCommas(seq(|items|, i requires 0 <= i < |items| =>
        if items[i].Undef? || items[i].Null? then "" else ToStr(items[i])))
    case Obj(_) => "[object Object]"
  }

  function JoinWithCommas(parts: seq<string>): string
  {
    if |parts| == 0 then ""
    else if |parts| == 1 then parts[0]
    else JoinWithCommas(parts[..|parts| - 1]) + "," + parts[|parts| - 1]
  }

  // ---------------------------------------------------------------------
  // Number(x)

  /** The characters `String.prototype.trim` removes (white space and line terminators). */
  predicate IsWhite(c: char)
  {
    c == ' ' || c == '\t' || c == '\n' || c == '\r' || c == '\U{000B}' || c == '\U{000C}'
    || c == '\U{00A0}' || c == '\U{1680}' || ('\U{2000}' <= c <= '\U{200A}')
    || c == '\U{2028}' || c == '\U{2029}' || c == '\U{202F}' || c == '\U{205F}'
    || c == '\U{3000}' || c == '\U{FEFF}'
  }

  function TrimStart(s: string): string
  {
    if s != [] && IsWhite(s[0]) then TrimStart(s[1..]) else s
  }

  function TrimEnd(s: string): string
  {
    if s != [] && IsWhite(s[|s| - 1]) then TrimEnd(s[..|s| - 1]) else s
  }

  /**
   * `Number(s)` on a string: surrounding white space is ignored, the empty
   * string is 0, otherwise a decimal literal with an optional sign, fraction
   * and exponent; anything else is NaN (`None`).
   */
  function ParseNumber(s: string): Option<real>
  {
    ParseSigned(TrimEnd(TrimStart(s)))
  }

  /** A trimmed literal: empty, or an optional sign before an unsigned literal. */
  function ParseSigned(t: string): Option<real>
  {
    if t == [] then Some(0.0)
    else
      var signLength := if t[0] == '-' || t[0] == '+' then 1 else 0;
      var u := ParseUnsigned(t[signLength..]);
      if t[0] == '-' && u.Some? then Some(-u.value) else u
  }

  function ParseUnsigned(t: string): Option<real>
  {
    var i := DigitPrefix(t);
    var rest := t[i..];
    var j := if rest != [] && rest[0] == '.' then DigitPrefix(rest[1..]) else 0;
    var fraction := if rest != [] && rest[0] == '.' then rest[1..][..j] else "";
    var tail := if rest != [] && rest[0] == '.' then rest[1..][j..] else rest;
    if i + |fraction| == 0 then None
    else
      var mantissa := DigitsValue(t[..i]) as real + FractionValue(fraction);
      match ParseExponent(tail)
      case None => None
      case Some(e) => Some(ScaleByTen(mantissa, e))
  }

  /** The value of the digits after a decimal point: `0.d1d2...`. */
  function FractionValue(s: string): real
    requires AllDigits(s)
  {
    if s == [] then 0.0 else (DigitValue(s[0]) as real + FractionValue(s[1..])) / 10.0
  }

  /** `x * 10^e`, by repeated multiplication or division by ten. */
  function ScaleByTen(x: real, e: int): real
    decreases if e < 0 then -e else e
  {
    if e == 0 then x else if e > 0 then 10.0 * ScaleByTen(x, e - 1) else ScaleByTen(x, e + 1) / 10.0
  }

  function ParseExponent(r: string): Option<int>
  {
    if r == [] then Some(0)
    else if r[0] != 'e' && r[0] != 'E' then None
    else
      var u := r[1..];
      var negative := u != [] && u[0] == '-';
      var digits := if u != [] && (u[0] == '+' || u[0] == '-') then u[1..] else u;
      if digits != [] && DigitPrefix(digits) == |digits| then
        assert digits[..|digits|] == digits;
        Some(if negative then -(DigitsValue(digits) as int) else DigitsValue(digits))
      else None
  }

  /** `Number(v)`; `None` is NaN. */
  function ToNumber(v: JsVal): Option<real>
  {
    match v
    case Undef => None
    case Null => Some(0.0)
    case Bool(b) => Some(if b then 1.0 else 0.0)
    case Num(n) => Some(n)
    case NaN => None
    case Str(s) => ParseNumber(s)
    case Arr(_) => ParseNumber(ToStr(v))
    case Obj(_) => None
  }

  /** `Number(v) || d`: the parsed number unless it is 0 or NaN. */
  function NumberOr(v: JsVal, d: real): (r: real)
    ensures (ToNumber(v).Some? && ToNumber(v).value != 0.0) ==> r == ToNumber(v).value
    ensures (ToNumber(v).None? || ToNumber(v).value == 0.0) ==> r == d
  {
    match ToNumber(v)
    case Some(n) => if n != 0.0 then n else d
    case None => d
  }

  /** `Math.round(x)`: the nearest integer, halves rounded up. */
  function JsRound(x: real): (r: int)
    ensures r as real - 0.5 <= x < r as real + 0.5
  {
    (x + 0.5).Floor
  }

  // ---------------------------------------------------------------------
  // Case mapping (ASCII letters only)

  function LowerChar(c: char): char
  {
    if 'A' <= c <= 'Z' then (c as int + 32) as char else c
  }

  function UpperChar(c: char): char
  {
    if 'a' <= c <= 'z' then (c as int - 32) as char else c
  }

  function Lower(s: string): (r: string)
    ensures |r| == |s|
    ensures forall k :: 0 <= k < |s| ==> r[k] == LowerChar(s[k])
  {
    seq(|s|, k requires 0 <= k < |s| => LowerChar(s[k]))
  }

  // ---------------------------------------------------------------------
  // `key in array`

  /**
   * The own property names of an array of length `len`: the canonical
   * indices "0" .. len-1 and "length". `key in array` compares `String(key)`
   * with these names; it does not look at the array's elements.
   */
  predicate IsArrayPropertyName(name: string, len: nat)
  {
    name == "length"
    || (name != [] && AllDigits(name) && (name == "0" || name[0] != '0') && DigitsValue(name) < len)
  }

  predicate InArray(key: JsVal, arr: seq<JsVal>)
  {
    IsArrayPropertyName(ToStr(key), |arr|)
  }

  /** `arr.includes(x)` for primitive `x`: membership among the elements. */
  predicate Includes(arr: seq<JsVal>, x: JsVal)
  {
    x in arr
  }

  // ---------------------------------------------------------------------
  // Properties

  lemma TrimOfUnpadded(s: string)
    requires s != [] && !IsWhite(s[0]) && !IsWhite(s[|s| - 1])
    ensures TrimEnd(TrimStart(s)) == s
  {
  }

  lemma DigitPrefixOfDigits(s: string)
    requires AllDigits(s)
    ensures DigitPrefix(s) == |s|
  {
  }

  lemma FormatInteger(m: nat)
    ensures FormatNonNegative(m as real) == NatToStr(m)
  {
    assert (m as real).Floor == m;
  }

  lemma ParseDigitRun(ds: string)
    requires ds != [] && AllDigits(ds)
    ensures ParseUnsigned(ds) == Some(DigitsValue(ds) as real)
  {
    DigitPrefixOfDigits(ds);
    assert ds[..|ds|] == ds;
    assert ds[|ds|..] == [];
  }

  lemma ParseDigitString(ds: string)
    requires ds != [] && AllDigits(ds)
    ensures ParseNumber(ds) == Some(DigitsValue(ds) as real)
  {
    assert IsDigit(ds[0]) && IsDigit(ds[|ds| - 1]);
    TrimOfUnpadded(ds);
    ParseDigitRun(ds);
  }

  lemma ParseNegatedDigitString(ds: string)
    requires ds != [] && AllDigits(ds)
    ensures ParseNumber("-" + ds) == Some(-(DigitsValue(ds) as real))
  {
    NegatedDigitsUntrimmed(ds);
    NegativeSign(ds);
    ParseDigitRun(ds);
  }

  lemma NegatedDigitsUntrimmed(ds: string)
    requires ds != [] && AllDigits(ds)
    ensures TrimEnd(TrimStart("-" + ds)) == "-" + ds
  {
    var s := "-" + ds;
    assert s[|s| - 1] == ds[|ds| - 1];
    TrimOfUnpadded(s);
  }

  /** A leading minus sign negates the unsigned literal after it. */
  lemma NegativeSign(u: string)
    ensures ParseSigned("-" + u) == (if ParseUnsigned(u).Some? then Some(-ParseUnsigned(u).value) else None)
  {
    var t := "-" + u;
    assert t[0] == '-' && t[1..] == u;
  }

  /** `Number(String(k)) == k` for every integer `k`. */
  lemma {:induction false} IntegerRoundTrip(k: int)
    ensures ToNumber(Str(FormatNumber(k as real))) == Some(k as real)
  {
    var m: nat := if k < 0 then -k else k;
    NatToStrDigits(m);
    FormatInteger(m);
    if k < 0 {
      assert FormatNumber(k as real) == "-" + NatToStr(m);
      ParseNegatedDigitString(NatToStr(m));
    } else {
      assert FormatNumber(k as real) == NatToStr(m);
      ParseDigitString(NatToStr(m));
    }
  }

  /** `Number(String(b))` is 1 or 0 only through `Number(b)`; the string "true" itself is NaN. */
  lemma BooleanWordsAreNaN()
    ensures ParseNumber("true") == None && ParseNumber("false") == None
  {
    WordIsNaN("true");
    WordIsNaN("false");
  }

  /** A string that starts with neither a digit, a sign, a dot nor white space is NaN. */
  lemma WordIsNaN(s: string)
    requires s != [] && !IsWhite(s[0]) && !IsWhite(s[|s| - 1])
    requires !IsDigit(s[0]) && s[0] != '-' && s[0] != '+' && s[0] != '.'
    ensures ParseNumber(s) == None
  {
    TrimOfUnpadded(s);
    assert DigitPrefix(s) == 0;
  }

  /** `Number` of the texts of `undefined`, NaN and a plain object is NaN. */
  lemma NamedValuesAreNaN()
    ensures ParseNumber("undefined") == None
    ensures ParseNumber("NaN") == None
    ensures ParseNumber("[object Object]") == None
  {
    WordIsNaN("undefined");
    WordIsNaN("NaN");
    WordIsNaN("[object Object]");
  }

  /** The empty and all-blank strings convert to 0, so they count as a present zero. */
  lemma BlankIsZero(s: string)
    requires forall k :: 0 <= k < |s| ==> IsWhite(s[k])
    ensures ParseNumber(s) == Some(0.0)
  {
    BlankTrims(s);
  }

  lemma {:induction false} BlankTrims(s: string)
    requires forall k :: 0 <= k < |s| ==> IsWhite(s[k])
    ensures TrimStart(s) == []
  {
    if s != [] {
      BlankTrims(s[1..]);
    }
  }

  /** `String(n)` starts with a digit or a minus sign. */
  lemma FormatNumberStart(n: real)
    ensures |FormatNumber(n)| > 0
    ensures IsDigit(FormatNumber(n)[0]) || FormatNumber(n)[0] == '-'
  {
    var x := if n < 0.0 then -n else n;
    var head := NatToStr(x.Floor);
    NatToStrDigits(x.Floor);
    assert IsDigit(head[0]);
    assert FormatNonNegative(x)[0] == head[0];
  }

  /** "color" and "colour" are not property names of any array. */
  lemma ColorWordsAreNotArrayNames(arr: seq<JsVal>)
    ensures !InArray(Str("color"), arr) && !InArray(Str("colour"), arr)
  {
    assert !IsDigit("color"[0]);
    assert !IsDigit("colour"[0]);
  }
}
