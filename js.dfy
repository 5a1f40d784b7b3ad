/**
 * The slice of JavaScript value semantics that the authentication front end
 * relies on: dynamically typed values, property reads (with the TypeError
 * raised on `undefined`/`null`), truthiness as used by `||` and `if (x)`,
 * conversion to string (`String(v)`, template literals, `localStorage.setItem`),
 * the numeric coercion of `x * 1000`, and `parseInt` on decimal text.
 */
module Js {

  datatype Option<+T> = None | Some(value: T)

  datatype Result<+T, +E> = Ok(value: T) | Err(error: E)

  /** A JavaScript value. Numbers are integers here (no fractions, no NaN
      literal: arithmetic that yields NaN is an `Option<int>` that is None). */
  datatype JsValue =
    | Undefined
    | Null
    | Bool(b: bool)
    | Num(n: int)
    | Str(s: string)
    | Obj(props: map<string, JsValue>)

  datatype ErrorKind = PlainError | TypeError | ReferenceError

  /** An Error object raised by script code (not by the HTTP client). */
  datatype JsError = JsError(kind: ErrorKind, message: string)

  predicate Nullish(v: JsValue) {
    v.Undefined? || v.Null?
  }

  /** `v.key`: a TypeError on undefined and null; a missing key, or a key
      read off a primitive, gives undefined. */
  function Prop(v: JsValue, key: string): (r: Result<JsValue, JsError>)
    ensures r.Err? <==> Nullish(v)
    ensures r.Ok? ==> r.value == OptProp(v, key)
  {
    match v
    case Undefined => Err(JsError(TypeError, "Cannot read properties of undefined (reading '" + key + "')"))
    case Null => Err(JsError(TypeError, "Cannot read properties of null (reading '" + key + "')"))
    case Obj(props) => Ok(if key in props then props[key] else Undefined)
    case _ => Ok(Undefined)
  }

  /** `v?.key`: undefined instead of a TypeError. */
  function OptProp(v: JsValue, key: string): JsValue {
    match v
    case Obj(props) => if key in props then props[key] else Undefined
    case _ => Undefined
  }

  /** ToBoolean: what `if (v)`, `!v` and `v || w` test. */
  predicate Truthy(v: JsValue) {
    match v
    case Undefined => false
    case Null => false
    case Bool(b) => b
    case Num(n) => n != 0
    case Str(s) => s != ""
    case Obj(_) => true
  }

  /** `a || b` */
  function Or(a: JsValue, b: JsValue): JsValue {
    if Truthy(a) then a else b
  }

  /** `localStorage.getItem(key)` seen as a JavaScript value. */
  function StoredValue(item: Option<string>): (v: JsValue)
    ensures Truthy(v) <==> item.Some? && item.value != ""
  {
    match item
    case None => Null
    case Some(s) => Str(s)
  }

  /** ToString: `String(v)`, `${v}`, and what `localStorage.setItem` stores. */
  function ToStr(v: JsValue): string {
    match v
    case Undefined => "undefined"
    case Null => "null"
    case Bool(b) => if b then "true" else "false"
    case Num(n) => IntToString(n)
    case Str(s) => s
    case Obj(_) => "[object Object]"
  }

  /** The message of `new Error(v)` for a truthy `v` is never empty. */
  lemma TruthyToStrNonEmpty(v: JsValue)
    requires Truthy(v)
    ensures ToStr(v) != ""
  {
    if v.Num? {
      IntToStringShape(v.n);
    }
  }

  /** ToNumber as used by `expiresIn * 1000`; None stands for NaN. An
      object converts through its text "[object Object]", which is NaN. */
  function ToNumber(v: JsValue): (r: Option<int>)
    ensures v.Undefined? ==> r.None?
    ensures v.Null? ==> r == Some(0)
    ensures v.Bool? ==> r == Some(if v.b then 1 else 0)
    ensures v.Num? ==> r == Some(v.n)
    ensures v.Str? ==> r == StringToNumber(v.s)
    ensures v.Obj? ==> r.None?
  {
    match v
    case Undefined => None
    case Null => Some(0)
    case Bool(b) => Some(if b then 1 else 0)
    case Num(n) => Some(n)
    case Str(s) => StringToNumber(s)
    case Obj(_) => None
  }

  /** Number-to-string for a possibly NaN number. */
  function NumberText(x: Option<int>): string {
    match x
    case None => "NaN"
    case Some(n) => IntToString(n)
  }

  // ----- decimal text --------------------------------------------------

  predicate IsDigit(c: char) {
    '0' <= c <= '9'
  }

  function DigitChar(d: nat): char
    requires d < 10
  {
    "0123456789"[d]
  }

  function DigitValue(c: char): nat
    requires IsDigit(c)
  {
    (c as int - '0' as int) as nat
  }

  function NatToString(n: nat): string
    decreases n
  {
    if n < 10 then [DigitChar(n)] else NatToString(n / 10) + [DigitChar(n % 10)]
  }

  /** Number.prototype.toString() for an integer. */
  function IntToString(n: int): string {
    if n < 0 then "-" + NatToString(-n) else NatToString(n)
  }

  lemma {:induction false} NatToStringDigits(n: nat)
    ensures |NatToString(n)| > 0
    ensures forall i :: 0 <= i < |NatToString(n)| ==> IsDigit(NatToString(n)[i])
    decreases n
  {
    if n >= 10 {
      NatToStringDigits(n / 10);
    }
  }

  lemma IntToStringShape(n: int)
    ensures |IntToString(n)| > 0
    ensures IntToString(n)[0] == '-' || IsDigit(IntToString(n)[0])
  {
    if n < 0 { NatToStringDigits(-n); } else { NatToStringDigits(n); }
  }

  /** The value of a string of decimal digits, most significant first. */
  function DigitsValue(s: string): nat
    requires forall i :: 0 <= i < |s| ==> IsDigit(s[i])
  {
    if s == [] then 0 else DigitsValue(s[..|s| - 1]) * 10 + DigitValue(s[|s| - 1])
  }

  /** Length of the longest prefix of `s` made of decimal digits. */
  function DigitRun(s: string): (k: nat)
    ensures k <= |s|
    ensures forall i :: 0 <= i < k ==> IsDigit(s[i])
    ensures k < |s| ==> !IsDigit(s[k])
  {
    if s != [] && IsDigit(s[0]) then 1 + DigitRun(s[1..]) else 0
  }

  /** WhiteSpace and LineTerminator code points of ECMAScript: the set
      matched by the regular-expression class `\s` and skipped by `parseInt`. */
  predicate IsJsWhitespace(c: char) {
    c == '\t' || c == '\U{000B}' || c == '\U{000C}' || c == ' ' || c == '\U{00A0}'
    || c == '\U{1680}' || ('\U{2000}' <= c <= '\U{200A}') || c == '\U{202F}'
    || c == '\U{205F}' || c == '\U{3000}' || c == '\U{FEFF}'
    || IsLineTerminator(c)
  }

  /** The code points that the regular-expression `.` does not match. */
  predicate IsLineTerminator(c: char) {
    c == '\n' || c == '\r' || c == '\U{2028}' || c == '\U{2029}'
  }

  function TrimStart(s: string): (t: string)
    ensures t != [] ==> !IsJsWhitespace(t[0])
  {
    if s != [] && IsJsWhitespace(s[0]) then TrimStart(s[1..]) else s
  }

  function TrimEnd(s: string): (t: string)
    ensures t != [] ==> !IsJsWhitespace(t[|t| - 1])
  {
    if s != [] && IsJsWhitespace(s[|s| - 1]) then TrimEnd(s[..|s| - 1]) else s
  }

  predicate AllDigits(s: string) {
    forall i :: 0 <= i < |s| ==> IsDigit(s[i])
  }

  /** StringToNumber for integral decimal text: white space around it is
      ignored, empty text is 0, an optional sign and digits are their value,
      anything else is NaN. */
  function StringToNumber(s: string): Option<int> {
    var t := TrimEnd(TrimStart(s));
    if t == [] then Some(0)
    else
      var body := if t[0] == '-' || t[0] == '+' then t[1..] else t;
      if body != [] && AllDigits(body) then
        var magnitude: int := DigitsValue(body);
        Some(if t[0] == '-' then -magnitude else magnitude)
      else None
  }

  /** `parseInt(s)` for decimal text: leading white space, an optional sign,
      then the longest run of digits; None (NaN) when there is no digit. */
  function ParseInt(s: string): Option<int> {
    var t := TrimStart(s);
    var negative := t != [] && t[0] == '-';
    var body := if t != [] && (t[0] == '-' || t[0] == '+') then t[1..] else t;
    var k := DigitRun(body);
    if k == 0 then None
    else
      var magnitude: int := DigitsValue(body[..k]);
      Some(if negative then -magnitude else magnitude)
  }

  lemma {:induction false} DigitsValueOfNatToString(n: nat)
    ensures forall i :: 0 <= i < |NatToString(n)| ==> IsDigit(NatToString(n)[i])
    ensures DigitsValue(NatToString(n)) == n
    decreases n
  {
    NatToStringDigits(n);
    if n >= 10 {
      DigitsValueOfNatToString(n / 10);
      var s := NatToString(n);
      assert s[..|s| - 1] == NatToString(n / 10);
    }
  }

  lemma DigitRunAll(s: string)
    requires forall i :: 0 <= i < |s| ==> IsDigit(s[i])
    ensures DigitRun(s) == |s|
  {
  }

  lemma DigitIsNotSpace(c: char)
    requires IsDigit(c)
    ensures !IsJsWhitespace(c)
  {
  }

  lemma TrimStartStops(s: string)
    requires s != [] && !IsJsWhitespace(s[0])
    ensures TrimStart(s) == s
  {
  }

  lemma TrimEndStops(s: string)
    requires s != [] && !IsJsWhitespace(s[|s| - 1])
    ensures TrimEnd(s) == s
  {
  }

  lemma ParseIntUnsigned(d: string)
    requires |d| > 0 && forall i :: 0 <= i < |d| ==> IsDigit(d[i])
    ensures ParseInt(d) == Some(DigitsValue(d) as int)
  {
    DigitIsNotSpace(d[0]);
    TrimStartStops(d);
    DigitRunAll(d);
    assert d[..|d|] == d;
  }

  lemma ParseIntNegative(d: string)
    requires |d| > 0 && forall i :: 0 <= i < |d| ==> IsDigit(d[i])
    ensures ParseInt("-" + d) == Some(-(DigitsValue(d) as int))
  {
    var s := "-" + d;
    assert s[0] == '-';
    TrimStartStops(s);
    assert s[1..] == d;
    DigitRunAll(d);
    assert d[..DigitRun(d)] == d;
  }

  /** parseInt reads back exactly what Number.prototype.toString wrote. */
  lemma ParseIntOfIntToString(n: int)
    ensures ParseInt(IntToString(n)) == Some(n)
  {
    var m: nat := if n < 0 then -n else n;
    DigitsValueOfNatToString(m);
    if n < 0 {
      ParseIntNegative(NatToString(m));
    } else {
      ParseIntUnsigned(NatToString(m));
    }
  }

  /** parseInt reads back a NaN written by String(NaN) as NaN again. */
  lemma ParseIntOfNaN()
    ensures ParseInt(NumberText(None)) == None
  {
    var s := NumberText(None);
    assert s[0] == 'N';
    TrimStartStops(s);
    assert !IsDigit(s[0]);
    assert DigitRun(s) == 0;
  }

  lemma StringToNumberUnsigned(s: string)
    requires |s| > 0 && AllDigits(s)
    ensures StringToNumber(s) == Some(DigitsValue(s) as int)
  {
    DigitIsNotSpace(s[0]);
    DigitIsNotSpace(s[|s| - 1]);
    TrimStartStops(s);
    TrimEndStops(s);
  }

  lemma StringToNumberNegative(s: string)
    requires |s| > 1 && s[0] == '-' && AllDigits(s[1..])
    ensures StringToNumber(s) == Some(-(DigitsValue(s[1..]) as int))
  {
    assert s[|s| - 1] == s[1..][|s| - 2];
    DigitIsNotSpace(s[|s| - 1]);
    TrimStartStops(s);
    TrimEndStops(s);
  }

  predicate AllWhitespace(w: string) {
    forall i :: 0 <= i < |w| ==> IsJsWhitespace(w[i])
  }

  lemma {:induction false} TrimStartSkips(w: string, t: string)
    requires AllWhitespace(w)
    ensures TrimStart(w + t) == TrimStart(t)
    decreases |w|
  {
    if w != [] {
      assert (w + t)[1..] == w[1..] + t;
      TrimStartSkips(w[1..], t);
    } else {
      assert w + t == t;
    }
  }

  lemma {:induction false} TrimEndSkips(t: string, w: string)
    requires AllWhitespace(w)
    ensures TrimEnd(t + w) == TrimEnd(t)
    decreases |w|
  {
    if w != [] {
      assert (t + w)[..|t + w| - 1] == t + w[..|w| - 1];
      TrimEndSkips(t, w[..|w| - 1]);
    } else {
      assert t + w == t;
    }
  }

  /** Empty or blank text converts to 0. */
  lemma StringToNumberOfBlank(w: string)
    requires AllWhitespace(w)
    ensures StringToNumber(w) == Some(0)
  {
    TrimStartSkips(w, []);
    assert w + [] == w;
  }

  /** White space around the text does not change the number it converts to. */
  lemma StringToNumberIgnoresPadding(w1: string, t: string, w2: string)
    requires AllWhitespace(w1) && AllWhitespace(w2)
    requires t != [] && !IsJsWhitespace(t[0]) && !IsJsWhitespace(t[|t| - 1])
    ensures StringToNumber(w1 + t + w2) == StringToNumber(t)
  {
    assert w1 + t + w2 == w1 + (t + w2);
    TrimStartSkips(w1, t + w2);
    TrimStartStops(t + w2);
    TrimEndSkips(t, w2);
    TrimEndStops(t);
    TrimStartStops(t);
  }

  /** A leading zero does not change the value of a digit string. */
  lemma {:induction false} DigitsValueLeadingZero(d: string)
    requires AllDigits(d)
    ensures AllDigits("0" + d) && DigitsValue("0" + d) == DigitsValue(d)
    decreases |d|
  {
    var z := "0" + d;
    if d != [] {
      assert z[..|z| - 1] == "0" + d[..|d| - 1];
      assert z[|z| - 1] == d[|d| - 1];
      DigitsValueLeadingZero(d[..|d| - 1]);
    }
  }

  /** Digits with no sign, a plus sign or a minus sign convert to their
      value, its value or its negation. */
  lemma StringToNumberSigned(d: string)
    requires |d| > 0 && AllDigits(d)
    ensures StringToNumber(d) == Some(DigitsValue(d) as int)
    ensures StringToNumber("+" + d) == Some(DigitsValue(d) as int)
    ensures StringToNumber("-" + d) == Some(-(DigitsValue(d) as int))
  {
    StringToNumberUnsigned(d);
    StringToNumberPlusDigits(d);
    StringToNumberMinusDigits(d);
  }

  lemma StringToNumberPlusDigits(d: string)
    requires |d| > 0 && AllDigits(d)
    ensures StringToNumber("+" + d) == Some(DigitsValue(d) as int)
  {
    var p := "+" + d;
    assert p[1..] == d;
    StringToNumberPlus(p);
  }

  lemma StringToNumberMinusDigits(d: string)
    requires |d| > 0 && AllDigits(d)
    ensures StringToNumber("-" + d) == Some(-(DigitsValue(d) as int))
  {
    var m := "-" + d;
    assert m[1..] == d;
    StringToNumberNegative(m);
  }

  lemma StringToNumberPlus(s: string)
    requires |s| > 1 && s[0] == '+' && AllDigits(s[1..])
    ensures StringToNumber(s) == Some(DigitsValue(s[1..]) as int)
  {
    assert s[|s| - 1] == s[1..][|s| - 2];
    DigitIsNotSpace(s[|s| - 1]);
    TrimStartStops(s);
    TrimEndStops(s);
  }

  /** Multiplying the text of an integer converts it back to that integer. */
  lemma StringToNumberOfIntToString(n: int)
    ensures StringToNumber(IntToString(n)) == Some(n)
  {
    var m: nat := if n < 0 then -n else n;
    DigitsValueOfNatToString(m);
    NatToStringDigits(m);
    if n < 0 {
      var s := IntToString(n);
      assert s[1..] == NatToString(m);
      StringToNumberNegative(s);
    } else {
      StringToNumberUnsigned(NatToString(m));
    }
  }

  lemma ParseIntOfNumberText(x: Option<int>)
    ensures ParseInt(NumberText(x)) == x
  {
    if x.Some? { ParseIntOfIntToString(x.value); } else { ParseIntOfNaN(); }
  }
}
