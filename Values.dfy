/**
 * The dynamically typed values the application builder passes around
 * (attribute bags, settings objects, record data), together with the
 * JavaScript coercions its code relies on: truthiness, `a || b`,
 * conversion to string, `parseInt`, and the loose comparisons
 * `x == null`, `x == ''` and `x == 1`.
 *
 * Numbers are unbounded integers plus NaN; fractions, infinities and the
 * exponent notation used for magnitudes of 10^21 and more are not modelled.
 */
module JsValues {

  datatype Value =
    | Undefined
    | Null
    | Bool(b: bool)
    | Num(n: int)
    | NaN
    | Str(s: string)
    | Arr(items: seq<Value>)
    | Obj(props: map<string, Value>)

  /** JavaScript truthiness. */
  predicate Truthy(v: Value) {
    match v
    case Undefined => false
    case Null => false
    case Bool(b) => b
    case Num(n) => n != 0
    case NaN => false
    case Str(s) => s != ""
    case _ => true
  }

  /** `a || b` */
  function Or(a: Value, b: Value): Value {
    if Truthy(a) then a else b
  }

  /** Property read `m[k]` on a plain object: a missing key reads as undefined. */
  function Get(m: map<string, Value>, k: string): Value {
    if k in m then m[k] else Undefined
  }

  /** Property read `v.k` on any value; only objects carry named properties here. */
  function Prop(v: Value, k: string): Value {
    if v.Obj? then Get(v.props, k) else Undefined
  }

  /** `x == null` (true of null and of undefined). */
  predicate LooseNull(v: Value) {
    v.Undefined? || v.Null?
  }

  /** `x == ''` : numbers and booleans are compared as numbers, arrays through their string form. */
  predicate LooseEmptyString(v: Value) {
    match v
    case Str(s) => s == ""
    case Num(n) => n == 0
    case Bool(b) => !b
    case Arr(_) => ToString(v) == ""
    case _ => false
  }

  /** `x == n` for an integer n. */
  predicate LooseEqualsInt(v: Value, n: int) {
    match v
    case Num(m) => m == n
    case Bool(b) => (if b then 1 else 0) == n
    case Str(s) => StringToNumber(s) == Num(n)
    case Arr(_) => StringToNumber(ToString(v)) == Num(n)
    case _ => false
  }

  /**
   * `x == s` for a string s: a number or boolean is compared with `Number(s)`,
   * an array or object through its string form; null, undefined and NaN equal
   * no string.
   */
  predicate LooseEqualsString(v: Value, s: string) {
    match v
    case Str(t) => t == s
    case Num(n) => StringToNumber(s) == Num(n)
    case Bool(b) => StringToNumber(s) == Num(if b then 1 else 0)
    case Arr(_) => ToString(v) == s
    case Obj(_) => s == "[object Object]"
    case _ => false
  }

  // ---------------------------------------------------------------------
  // Conversion to string: `String(v)`, `v + ""`, property keys
  // ---------------------------------------------------------------------

  function DigitChar(d: nat): char
    requires d < 10
  {
    "0123456789"[d]
  }

  function NatToString(n: nat): (r: string)
    ensures |r| >= 1
    ensures forall i :: 0 <= i < |r| ==> IsDecimalDigit(r[i])
    ensures r[0] == '0' ==> n == 0 && r == "0"
  {
    if n < 10 then [DigitChar(n)] else NatToString(n / 10) + [DigitChar(n % 10)]
  }

  function IntToString(n: int): string {
    if n < 0 then "-" + NatToString(-n) else NatToString(n)
  }

  function ToString(v: Value): string
    decreases v, 1
  {
    match v
    case Undefined => "undefined"
    case Null => "null"
    case Bool(b) => if b then "true" else "false"
    case Num(n) => IntToString(n)
    case NaN => "NaN"
    case Str(s) => s
    case Arr(xs) => JoinItems(xs)
    case Obj(_) => "[object Object]"
  }

  /** `Array.prototype.join(",")`: null and undefined elements print as the empty string. */
  function JoinItems(xs: seq<Value>): string
    decreases xs, 0
  {
    if xs == [] then ""
    else if |xs| == 1 then ItemString(xs[0])
    else JoinItems(xs[..|xs| - 1]) + "," + ItemString(xs[|xs| - 1])
  }

  function ItemString(v: Value): string
    decreases v, 2
  {
    if LooseNull(v) then "" else ToString(v)
  }

  /** The key under which a value is used as a property name (`obj[v]`). */
  function Key(v: Value): string {
    ToString(v)
  }

  // ---------------------------------------------------------------------
  // parseInt and Number(string)
  // ---------------------------------------------------------------------

  /** WhiteSpace and LineTerminator code points of ECMAScript (also the class `\s` of its regular expressions). */
  predicate IsJsWhitespace(c: char) {
    c == '\t' || c == '\n' || c == '\U{000B}' || c == '\U{000C}' || c == '\r' || c == ' '
    || c == '\U{00A0}' || c == '\U{1680}' || ('\U{2000}' <= c <= '\U{200A}')
    || c == '\U{2028}' || c == '\U{2029}' || c == '\U{202F}' || c == '\U{205F}'
    || c == '\U{3000}' || c == '\U{FEFF}'
  }

  /** `s.length`: the UTF-16 code units of s, where a character above U+FFFF is a surrogate pair. */
  function Utf16Length(s: string): (n: nat)
    ensures |s| <= n <= 2 * |s|
  {
    if s == [] then 0 else (if s[0] as int > 0xFFFF then 2 else 1) + Utf16Length(s[1..])
  }

  lemma {:induction false} Utf16LengthOfBmp(s: string)
    ensures (forall i :: 0 <= i < |s| ==> s[i] as int <= 0xFFFF) ==> Utf16Length(s) == |s|
  {
    if s != [] {
      Utf16LengthOfBmp(s[1..]);
    }
  }

  lemma {:induction false} Utf16LengthOfAstral(s: string)
    ensures (forall i :: 0 <= i < |s| ==> s[i] as int > 0xFFFF) ==> Utf16Length(s) == 2 * |s|
  {
    if s != [] {
      Utf16LengthOfAstral(s[1..]);
    }
  }

  predicate IsDecimalDigit(c: char) {
    '0' <= c <= '9'
  }

  /** The value of c as a digit in the given radix, if it is one. */
  function DigitValue(c: char, radix: nat): (r: int)
    ensures r < radix
  {
    var d :=
      if '0' <= c <= '9' then (c as int) - ('0' as int)
      else if 'a' <= c <= 'z' then (c as int) - ('a' as int) + 10
      else if 'A' <= c <= 'Z' then (c as int) - ('A' as int) + 10
      else -1;
    if d < radix then d else -1
  }

  function TrimStart(s: string): (r: string)
    ensures |r| <= |s|
    ensures r == s[|s| - |r|..]
    ensures r != [] ==> !IsJsWhitespace(r[0])
  {
    if s != [] && IsJsWhitespace(s[0]) then TrimStart(s[1..]) else s
  }

  function TrimEnd(s: string): (r: string)
    ensures |r| <= |s|
    ensures r == s[..|r|]
  {
    if s != [] && IsJsWhitespace(s[|s| - 1]) then TrimEnd(s[..|s| - 1]) else s
  }

  /** The longest prefix of s made of digits of the given radix. */
  function DigitPrefix(s: string, radix: nat): (r: string)
    ensures |r| <= |s|
    ensures r == s[..|r|]
    ensures forall i :: 0 <= i < |r| ==> DigitValue(r[i], radix) >= 0
    ensures |r| < |s| ==> DigitValue(s[|r|], radix) < 0
  {
    if s != [] && DigitValue(s[0], radix) >= 0 then [s[0]] + DigitPrefix(s[1..], radix) else []
  }

  /** The number that a string of digits denotes, most significant digit first. */
  function DigitsValue(ds: string, radix: nat): nat
    requires forall i :: 0 <= i < |ds| ==> DigitValue(ds[i], radix) >= 0
  {
    if ds == [] then 0
    else
      var init := ds[..|ds| - 1];
      assert forall i :: 0 <= i < |init| ==> init[i] == ds[i];
      var high: nat := DigitsValue(init, radix);
      var low: nat := DigitValue(ds[|ds| - 1], radix);
      MulNat(high, radix);
      high * radix + low
  }

  lemma MulNat(a: nat, b: nat)
    ensures a * b >= 0
  {
  }

  predicate HasHexPrefix(s: string) {
    |s| >= 2 && s[0] == '0' && (s[1] == 'x' || s[1] == 'X')
  }

  /**
   * `parseInt(s)` without a radix argument: leading white space is skipped,
   * one sign is allowed, a `0x`/`0X` prefix selects radix 16, and the longest
   * run of digits that follows is read; no digit at all gives NaN.
   */
  function ParseInt(s: string): (r: Value)
    ensures r.Num? || r.NaN?
  {
    ParseSigned(TrimStart(s))
  }

  function ParseSigned(t: string): (r: Value)
    ensures r.Num? || r.NaN?
  {
    if t != [] && t[0] == '-' then Negate(ParseUnsigned(t[1..]))
    else if t != [] && t[0] == '+' then ParseUnsigned(t[1..])
    else ParseUnsigned(t)
  }

  function Negate(v: Value): Value {
    if v.Num? then Num(-v.n) else v
  }

  function ParseUnsigned(u: string): (r: Value)
    ensures r.Num? || r.NaN?
  {
    if HasHexPrefix(u) then ParseDigits(u[2..], 16) else ParseDigits(u, 10)
  }

  function ParseDigits(w: string, radix: nat): (r: Value)
    ensures r.Num? || r.NaN?
  {
    var ds := DigitPrefix(w, radix);
    if ds == [] then NaN else Num(DigitsValue(ds, radix))
  }

  /**
   * `parseInt(v)` for any value. parseInt reads the value's string form
   * (ParseIntValueReadsString); here the forms are told apart by the kind of
   * value: an integer reads back as itself, and "undefined", "null",
   * "true", "false", "NaN" and "[object Object]" start with no digit.
   */
  function ParseIntValue(v: Value): (r: Value)
    ensures r.Num? || r.NaN?
  {
    match v
    case Num(_) => v
    case Str(s) => ParseInt(s)
    case Arr(_) => ParseInt(ToString(v))
    case _ => NaN
  }

  /** `v + "" == ""`, told apart by the kind of value (PrintsEmptyIff). */
  predicate PrintsEmpty(v: Value) {
    match v
    case Str(s) => s == ""
    case Arr(_) => ToString(v) == ""
    case _ => false
  }


  /**
   * `Number(s)` restricted to the integer forms: surrounding white space is
   * ignored, the empty string is 0, then either a signed run of decimal digits
   * or `0x` and hexadecimal digits. Everything else (fractions, exponents,
   * "Infinity") reads as NaN here.
   */
  function StringToNumber(s: string): Value {
    var t := TrimEnd(TrimStart(s));
    if t == [] then Num(0)
    else if HasHexPrefix(t) then
      (var ds := DigitPrefix(t[2..], 16);
       if ds != [] && |ds| == |t| - 2 then Num(DigitsValue(ds, 16)) else NaN)
    else
      (var neg := t[0] == '-';
       var u := if t[0] == '-' || t[0] == '+' then t[1..] else t;
       var ds := DigitPrefix(u, 10);
       var m: int := if ds != [] && |ds| == |u| then DigitsValue(ds, 10) else 0;
       if ds != [] && |ds| == |u| then Num(if neg then -m else m) else NaN)
  }

  // ---------------------------------------------------------------------
  // Properties
  // ---------------------------------------------------------------------

  lemma {:induction false} DecimalDigitsAreDigits(s: string)
    requires forall i :: 0 <= i < |s| ==> IsDecimalDigit(s[i])
    ensures DigitPrefix(s, 10) == s
  {
    if s != [] {
      DecimalDigitsAreDigits(s[1..]);
    }
  }

  lemma DigitCharValue(d: nat)
    requires d < 10
    ensures IsDecimalDigit(DigitChar(d)) && DigitValue(DigitChar(d), 10) == d
  {
  }

  lemma {:induction false} NatToStringValue(n: nat)
    ensures forall i :: 0 <= i < |NatToString(n)| ==> DigitValue(NatToString(n)[i], 10) >= 0
    ensures DigitsValue(NatToString(n), 10) == n
  {
    var s := NatToString(n);
    if n < 10 {
      DigitCharValue(n);
    } else {
      var q, r := n / 10, n % 10;
      NatToStringValue(q);
      DigitCharValue(r);
      assert s == NatToString(q) + [DigitChar(r)];
      assert s[..|s| - 1] == NatToString(q);
      assert DigitsValue(s, 10) == DigitsValue(NatToString(q), 10) * 10 + r;
    }
  }

  lemma NatToStringParses(m: nat)
    ensures ParseUnsigned(NatToString(m)) == Num(m)
  {
    var digits := NatToString(m);
    NatToStringValue(m);
    DecimalDigitsAreDigits(digits);
    assert !HasHexPrefix(digits);
  }

  lemma TrimStartKeeps(s: string)
    requires s != [] && !IsJsWhitespace(s[0])
    ensures TrimStart(s) == s
  {
  }

  lemma ParseIntOfNatToString(m: nat)
    ensures ParseInt(NatToString(m)) == Num(m)
  {
    var digits := NatToString(m);
    assert IsDecimalDigit(digits[0]);
    TrimStartKeeps(digits);
    NatToStringParses(m);
  }

  lemma ParseIntOfNegative(m: nat)
    ensures ParseInt("-" + NatToString(m)) == Num(-(m as int))
  {
    var digits := NatToString(m);
    var s := "-" + digits;
    TrimStartKeeps(s);
    assert s[1..] == digits;
    NatToStringParses(m);
  }

  /** Printing an integer and reading it back with parseInt gives the integer back. */
  lemma ParseIntOfIntToString(n: int)
    ensures ParseInt(IntToString(n)) == Num(n)
  {
    if n < 0 {
      var m: nat := -n;
      assert IntToString(n) == "-" + NatToString(m);
      ParseIntOfNegative(m);
    } else {
      assert IntToString(n) == NatToString(n);
      ParseIntOfNatToString(n);
    }
  }

  /** A word that starts with neither white space, a sign nor a decimal digit does not parse. */
  lemma WordIsNaN(w: string)
    requires w != [] && !IsJsWhitespace(w[0]) && w[0] != '-' && w[0] != '+' && !IsDecimalDigit(w[0])
    requires DigitValue(w[0], 10) < 0
    ensures ParseInt(w) == NaN
  {
    TrimStartKeeps(w);
    assert !HasHexPrefix(w);
    assert DigitPrefix(w, 10) == [];
  }

  /** ParseIntValue is parseInt applied to the value's string form. */
  lemma ParseIntValueReadsString(v: Value)
    ensures ParseIntValue(v) == ParseInt(ToString(v))
  {
    match v
    case Num(n) =>
      ParseIntOfIntToString(n);
    case Undefined =>
      assert ToString(v) == "undefined";
      WordIsNaN("undefined");
    case Null =>
      assert ToString(v) == "null";
      WordIsNaN("null");
    case Bool(b) =>
      if b {
        assert ToString(v) == "true";
        WordIsNaN("true");
      } else {
        assert ToString(v) == "false";
        WordIsNaN("false");
      }
    case NaN =>
      assert ToString(v) == "NaN";
      WordIsNaN("NaN");
    case Obj(_) =>
      assert ToString(v) == "[object Object]";
      WordIsNaN("[object Object]");
    case Str(_) =>
    case Arr(_) =>
  }

  /** Only strings and arrays can print as the empty string. */
  lemma PrintsEmptyIff(v: Value)
    ensures PrintsEmpty(v) <==> ToString(v) == ""
  {
    if v.Num? {
      assert |NatToString(if v.n < 0 then -v.n else v.n)| >= 1;
    }
  }
}
