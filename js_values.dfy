/**
 * The part of JavaScript's value semantics that the route handler and the
 * enquiry action rely on: values produced by JSON parsing, property access
 * (which throws a TypeError on `null` and `undefined`), truthiness (for `||`
 * fallbacks), string conversion (for template literals) and the two number
 * renderings the source uses, `String(n)` for integers and `toFixed(2)`.
 *
 * Numbers are integers here. Each rendering has a parse-back partner and a
 * round-trip lemma, which shows that the rendering loses nothing.
 */
module JsValues {
  import opened Wrappers

  /** A value as `JSON.parse` can produce it, plus `undefined`. */
  datatype JsValue =
    | Undefined
    | Null
    | Bool(b: bool)
    | Num(n: int)
    | Str(s: string)
    | Arr(items: seq<JsValue>)
    | Obj(fields: map<string, JsValue>)

  predicate Nullish(v: JsValue) {
    v.Undefined? || v.Null?
  }

  /**
   * `v[key]` for a property name that is neither `length` nor an array
   * index (every name the source reads is of that kind). `None` is the
   * TypeError thrown when `v` is `null` or `undefined`; a missing property,
   * and any property of a primitive, reads as `undefined`.
   */
  function Member(v: JsValue, key: string): Option<JsValue> {
    match v
    case Undefined => None
    case Null => None
    case Obj(m) => Some(if key in m then m[key] else Undefined)
    case _ => Some(Undefined)
  }

  /** JavaScript truthiness: what `x || fallback` tests. */
  predicate Truthy(v: JsValue) {
    match v
    case Undefined => false
    case Null => false
    case Bool(b) => b
    case Num(n) => n != 0
    case Str(s) => s != ""
    case Arr(_) => true
    case Obj(_) => true
  }

  // ---------------------------------------------------------------------
  // Decimal digits

  predicate IsDigit(c: char) {
    '0' <= c <= '9'
  }

  predicate AllDigits(s: string) {
    forall i :: 0 <= i < |s| ==> IsDigit(s[i])
  }

  function DigitChar(d: nat): (c: char)
    requires d < 10
    ensures IsDigit(c) && c as int - '0' as int == d
  {
    (d + '0' as int) as char
  }

  /** The value of a string of decimal digits (the empty string reads as 0). */
  function DigitsValue(s: string): nat
    requires AllDigits(s)
  {
    if s == [] then 0
    else DigitsValue(s[..|s| - 1]) * 10 + (s[|s| - 1] as int - '0' as int)
  }

  /** The shortest decimal rendering of `n`, as `String(n)` gives it. */
  function NatToString(n: nat): (s: string)
    ensures |s| >= 1 && AllDigits(s)
    ensures s[0] == '0' ==> s == "0"
    decreases n
  {
    if n < 10 then [DigitChar(n)]
    else NatToString(n / 10) + [DigitChar(n % 10)]
  }

  lemma {:induction false} NatToStringRoundTrip(n: nat)
    ensures DigitsValue(NatToString(n)) == n
    decreases n
  {
    if n >= 10 {
      var s := NatToString(n);
      NatToStringRoundTrip(n / 10);
      assert s[..|s| - 1] == NatToString(n / 10);
    }
  }

  /** `String(n)` (equivalently `${n}`) for an integer `n`. */
  function IntToString(n: int): string {
    if n < 0 then "-" + NatToString(-n) else NatToString(n)
  }

  /**
   * Reads back an optionally signed string of decimal digits; the partner
   * of IntToString.
   */
  function ParseInt(s: string): Option<int> {
    if |s| >= 2 && s[0] == '-' && AllDigits(s[1..]) then Some(0 - DigitsValue(s[1..]))
    else if |s| >= 1 && AllDigits(s) then Some(DigitsValue(s))
    else None
  }

  /** A non-empty digit string reads back as its value. */
  lemma ParseUnsigned(d: string)
    requires |d| >= 1 && AllDigits(d)
    ensures ParseInt(d) == Some(DigitsValue(d))
  {
    assert IsDigit(d[0]);
  }

  /** A minus sign followed by a non-empty digit string reads back as the negated value. */
  lemma ParseNegative(d: string)
    requires |d| >= 1 && AllDigits(d)
    ensures ParseInt("-" + d) == Some(0 - DigitsValue(d))
  {
    assert ("-" + d)[1..] == d;
  }

  lemma IntToStringRoundTrip(n: int)
    ensures ParseInt(IntToString(n)) == Some(n)
  {
    if n < 0 {
      var d := NatToString(-n);
      assert IntToString(n) == "-" + d;
      ParseNegative(d);
      NatToStringRoundTrip(-n);
    } else {
      var d := NatToString(n);
      assert IntToString(n) == d;
      ParseUnsigned(d);
      NatToStringRoundTrip(n);
    }
  }

  // ---------------------------------------------------------------------
  // Amounts in minor units

  /** The two-digit rendering of a remainder modulo 100. */
  function TwoDigits(r: nat): (s: string)
    requires r < 100
    ensures |s| == 2 && AllDigits(s) && DigitsValue(s) == r
  {
    var s := [DigitChar(r / 10), DigitChar(r % 10)];
    assert s[..1] == [DigitChar(r / 10)] && s[..1][..0] == [];
    assert DigitsValue(s[..1]) == r / 10;
    s
  }

  /**
   * `(minor / 100).toFixed(2)`: the sign, the whole units, a point and the
   * two-digit remainder. Integral amounts divided by 100 are rendered
   * exactly by `toFixed(2)`, which rounds to the nearest hundredth.
   */
  function ToFixed2(minor: int): string {
    var a := if minor < 0 then -minor else minor;
    (if minor < 0 then "-" else "") + NatToString(a / 100) + "." + TwoDigits(a % 100)
  }

  /** Reads back `digits.dd` as an amount in minor units. */
  function ParseUnsignedFixed2(t: string): Option<nat> {
    if |t| < 4 || t[|t| - 3] != '.' then None
    else Fixed2Of(t[..|t| - 3], t[|t| - 2..])
  }

  /** The amount in minor units written by a whole part and a fractional part. */
  function Fixed2Of(whole: string, frac: string): Option<nat> {
    if !AllDigits(whole) || !AllDigits(frac) then None
    else Some(DigitsValue(whole) * 100 + DigitsValue(frac))
  }

  /**
   * Reads back a rendering of the form `[-]digits.dd` as an amount in
   * minor units; the partner of ToFixed2.
   */
  function ParseFixed2(s: string): Option<int> {
    if |s| >= 1 && s[0] == '-' then
      match ParseUnsignedFixed2(s[1..])
      case Some(a) => Some(0 - a)
      case None => None
    else
      match ParseUnsignedFixed2(s)
      case Some(a) => Some(a)
      case None => None
  }

  lemma ParseUnsignedFixed2Split(w: string, f: string)
    requires |w| >= 1 && AllDigits(w) && |f| == 2 && AllDigits(f)
    ensures ParseUnsignedFixed2(w + "." + f) == Some(DigitsValue(w) * 100 + DigitsValue(f))
  {
    var t := w + "." + f;
    var n := |w|;
    assert |t| == n + 3 && t[n] == '.';
    var whole, frac := t[..|t| - 3], t[|t| - 2..];
    assert whole == w by {
      assert |whole| == n;
      forall i | 0 <= i < n ensures whole[i] == w[i] { assert t[i] == w[i]; }
    }
    assert frac == f by {
      assert |frac| == 2 && t[n + 1] == f[0] && t[n + 2] == f[1];
    }
    assert ParseUnsignedFixed2(t) == Fixed2Of(whole, frac);
    assert ParseUnsignedFixed2(t) == Fixed2Of(w, f);
    assert Fixed2Of(w, f) == Some(DigitsValue(w) * 100 + DigitsValue(f));
  }

  lemma UnsignedFixed2RoundTrip(a: nat)
    ensures ParseUnsignedFixed2(NatToString(a / 100) + "." + TwoDigits(a % 100)) == Some(a)
  {
    var w, f := NatToString(a / 100), TwoDigits(a % 100);
    ParseUnsignedFixed2Split(w, f);
    NatToStringRoundTrip(a / 100);
    assert DigitsValue(w) * 100 + DigitsValue(f) == (a / 100) * 100 + a % 100 == a;
  }

  /** The displayed amount determines the amount in minor units exactly. */
  lemma ToFixed2RoundTrip(minor: int)
    ensures ParseFixed2(ToFixed2(minor)) == Some(minor)
  {
    var a := if minor < 0 then -minor else minor;
    var t := NatToString(a / 100) + "." + TwoDigits(a % 100);
    UnsignedFixed2RoundTrip(a);
    if minor < 0 {
      assert ToFixed2(minor) == "-" + t;
      assert ("-" + t)[1..] == t;
    } else {
      assert ToFixed2(minor) == t;
    }
  }

  // ---------------------------------------------------------------------
  // String conversion

  /**
   * `String(v)`, which a template literal applies to every interpolated
   * value. Arrays join their elements with commas, rendering `null` and
   * `undefined` elements as empty strings.
   */
  function Display(v: JsValue): string
    decreases v
  {
    match v
    case Undefined => "undefined"
    case Null => "null"
    case Bool(b) => if b then "true" else "false"
    case Num(n) => IntToString(n)
    case Str(s) => s
    case Arr(items) => JoinItems(v, items)
    case Obj(_) => "[object Object]"
  }

  function JoinItems(ghost whole: JsValue, items: seq<JsValue>): string
    requires whole.Arr? && items <= whole.items
    decreases whole, |items|
  {
    if items == [] then ""
    else
      var last := items[|items| - 1];
      var shown := if Nullish(last) then "" else Display(last);
      if |items| == 1 then shown
      else JoinItems(whole, items[..|items| - 1]) + "," + shown
  }
}
