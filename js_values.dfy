/** JavaScript values as the request handlers see them: fields of a parsed JSON body, claims
    decoded from a token, route parameters and the columns of rows returned by the store,
    together with the parts of JavaScript's semantics the handlers rely on: truthiness
    (`!x`), loose equality (`==`) and numeric coercion (`a * b`). */
module JsValues {

  import opened Wrappers

  /** A JavaScript value. Numbers are exact reals (IEEE rounding, the infinities and the sign
      of zero are not modelled); `NaN` is kept because coercion produces it; `Obj` is a plain
      object. */
  datatype JsValue = Undefined | Null | Bool(b: bool) | Num(x: real) | NaN | Str(s: string) | Obj

  /** A row object returned by the store: column name to value. */
  type Row = map<string, JsValue>

  /** `row.col`: a property the row does not have reads as `undefined`. */
  function Get(row: Row, col: string): JsValue
  {
    if col in row then row[col] else Undefined
  }

  /** The six falsy values of JavaScript that this value model can express. */
  const Falsy: set<JsValue> := {Undefined, Null, Bool(false), Num(0.0), NaN, Str("")}

  /** JavaScript truthiness: `if (x)` takes the branch, `!x` is false. */
  predicate Truthy(v: JsValue)
  {
    match v
    case Undefined => false
    case Null => false
    case Bool(b) => b
    case Num(x) => x != 0.0
    case NaN => false
    case Str(s) => s != []
    case Obj => true
  }

  /** Body validation with `!x` rejects exactly the falsy values: a missing field, the empty
      string and the number zero among them. */
  lemma TruthyIffNotFalsy(v: JsValue)
    ensures Truthy(v) <==> v !in Falsy
  {
  }

  /** `typeof v`. */
  function TypeOf(v: JsValue): string
  {
    match v
    case Undefined => "undefined"
    case Null => "object"
    case Bool(_) => "boolean"
    case Num(_) => "number"
    case NaN => "number"
    case Str(_) => "string"
    case Obj => "object"
  }

  // ---------------------------------------------------------------------------
  // String to number, as `Number(s)` does it

  /** The outcome of numeric coercion. */
  datatype Numeric = Finite(x: real) | NotANumber

  /** The characters `Number(s)` trims: white space and line terminators. */
  predicate IsWhiteSpace(c: char)
  {
    || c == '\t' || c == '\U{000B}' || c == '\U{000C}' || c == ' ' || c == '\U{00A0}'
    || c == '\U{FEFF}' || c == '\n' || c == '\r' || c == '\U{2028}' || c == '\U{2029}'
    || c == '\U{1680}' || ('\U{2000}' <= c <= '\U{200A}') || c == '\U{202F}' || c == '\U{205F}'
    || c == '\U{3000}'
  }

  function TrimStart(s: string): (r: string)
    ensures |r| <= |s|
  {
    if s != [] && IsWhiteSpace(s[0]) then TrimStart(s[1..]) else s
  }

  function TrimEnd(s: string): (r: string)
    ensures |r| <= |s|
  {
    if s != [] && IsWhiteSpace(s[|s| - 1]) then TrimEnd(s[..|s| - 1]) else s
  }

  function Trim(s: string): string
  {
    TrimEnd(TrimStart(s))
  }

  predicate IsDigit(c: char)
  {
    '0' <= c <= '9'
  }

  /** Every character is a decimal digit. */
  predicate AllDigits(s: string)
  {
    s == [] || (IsDigit(s[0]) && AllDigits(s[1..]))
  }

  lemma {:induction false} AllDigitsAt(s: string, i: nat)
    requires AllDigits(s) && i < |s|
    ensures IsDigit(s[i])
  {
    if i > 0 {
      AllDigitsAt(s[1..], i - 1);
    }
  }

  /** The value of a digit character. */
  function DigitValue(c: char): int
  {
    c as int - '0' as int
  }

  /** The value of a string of decimal digits, most significant first. */
  function DigitsValue(s: string): int
  {
    if s == [] then 0 else 10 * DigitsValue(s[..|s| - 1]) + DigitValue(s[|s| - 1])
  }

  /** Multiplies by ten to the power `e`, which may be negative. */
  function Scale(x: real, e: int): real
    decreases if e >= 0 then e else -e
  {
    if e == 0 then x
    else if e > 0 then 10.0 * Scale(x, e - 1)
    else Scale(x, e + 1) / 10.0
  }

  /** The first index holding `a` or `b`, or `|s|` when there is none. */
  function FirstIndex(s: string, a: char, b: char): (k: nat)
    ensures k <= |s|
    ensures k < |s| ==> s[k] == a || s[k] == b
  {
    if s == [] then 0
    else if s[0] == a || s[0] == b then 0
    else 1 + FirstIndex(s[1..], a, b)
  }

  /** An optionally signed exponent `[+|-]digits`, or nothing when malformed. */
  function ExponentValue(e: string): (n: Option<int>)
  {
    if e != [] && (e[0] == '+' || e[0] == '-') then
      var d := e[1..];
      if d != [] && AllDigits(d) then Some(if e[0] == '-' then -DigitsValue(d) else DigitsValue(d)) else None
    else if e != [] && AllDigits(e) then Some(DigitsValue(e))
    else None
  }

  /** The value of the digits after a decimal point, most significant first. */
  function FractionValue(s: string): real
  {
    if s == [] then 0.0 else (DigitValue(s[0]) as real + FractionValue(s[1..])) / 10.0
  }

  /** The value of the decimal `whole.fraction`. */
  function DecimalValue(whole: string, fraction: string): real
  {
    DigitsValue(whole) as real + FractionValue(fraction)
  }

  /** The value of `digits[.digits]`, with at least one digit on either side of the point. */
  function MantissaValue(m: string): Option<real>
  {
    var d := FirstIndex(m, '.', '.');
    var whole := m[..d];
    var fraction := if d < |m| then m[d + 1..] else [];
    if AllDigits(whole) && AllDigits(fraction) && |whole| + |fraction| > 0 then
      Some(DecimalValue(whole, fraction))
    else None
  }

  /** An unsigned decimal literal `digits[.digits][(e|E)[+|-]digits]`; anything else is NaN. */
  function UnsignedDecimal(t: string): Numeric
  {
    var k := FirstIndex(t, 'e', 'E');
    var exponent := if k < |t| then ExponentValue(t[k + 1..]) else Some(0);
    match (MantissaValue(t[..k]), exponent)
    case (Some(m), Some(e)) => Finite(Scale(m, e))
    case _ => NotANumber
  }

  /** `Number(s)` for a string: surrounding white space is ignored, the empty string is zero,
      a decimal literal may carry one sign. */
  function StringToNumber(s: string): Numeric
  {
    var t := Trim(s);
    if t == [] then Finite(0.0)
    else if t[0] == '-' then
      match UnsignedDecimal(t[1..])
      case Finite(x) => Finite(-x)
      case NotANumber => NotANumber
    else if t[0] == '+' then UnsignedDecimal(t[1..])
    else UnsignedDecimal(t)
  }

  /** `Number(v)`. */
  function ToNumber(v: JsValue): Numeric
  {
    match v
    case Undefined => NotANumber
    case Null => Finite(0.0)
    case Bool(b) => Finite(if b then 1.0 else 0.0)
    case Num(x) => Finite(x)
    case NaN => NotANumber
    case Str(s) => StringToNumber(s)
    case Obj => NotANumber
  }

  /** `a * b`: both operands are coerced to numbers. */
  function Multiply(a: JsValue, b: JsValue): (r: JsValue)
    ensures r.Num? <==> ToNumber(a).Finite? && ToNumber(b).Finite?
    ensures r.Num? ==> r.x == ToNumber(a).x * ToNumber(b).x
    ensures !r.Num? ==> r == NaN
  {
    match (ToNumber(a), ToNumber(b))
    case (Finite(x), Finite(y)) => Num(x * y)
    case _ => NaN
  }

  /** A string of decimal digits coerces to its decimal value: `"01" == 1`. */
  lemma {:induction false} DigitStringToNumber(d: string)
    requires d != [] && AllDigits(d)
    ensures StringToNumber(d) == Finite(DigitsValue(d) as real)
  {
    AllDigitsAt(d, |d| - 1);
    assert d[0] != '-' && d[0] != '+' && !IsWhiteSpace(d[0]) && !IsWhiteSpace(d[|d| - 1]);
    assert TrimStart(d) == d;
    assert Trim(d) == d;
    var k := FirstIndex(d, 'e', 'E');
    if k < |d| {
      AllDigitsAt(d, k);
      assert false;
    }
    assert d[..k] == d;
    var m := FirstIndex(d, '.', '.');
    if m < |d| {
      AllDigitsAt(d, m);
      assert false;
    }
    assert d[..m] == d;
  }

  /** A string with no white space at either end is its own trimming. */
  lemma TrimmedAlready(d: string)
    requires d != [] && !IsWhiteSpace(d[0]) && !IsWhiteSpace(d[|d| - 1])
    ensures Trim(d) == d
  {
    assert TrimStart(d) == d;
  }

  /** A string that starts with a digit is read as an unsigned decimal. */
  lemma StartsWithDigit(d: string)
    requires d != [] && IsDigit(d[0]) && !IsWhiteSpace(d[|d| - 1])
    ensures StringToNumber(d) == UnsignedDecimal(d)
  {
    TrimmedAlready(d);
  }

  /** No index before the first one holds either character. */
  lemma FirstIndexFirst(s: string, a: char, b: char, i: nat)
    requires i < FirstIndex(s, a, b)
    ensures s[i] != a && s[i] != b
  {
    if i > 0 {
      FirstIndexFirst(s[1..], a, b, i - 1);
    }
  }

  lemma FirstIndexNone(s: string, a: char, b: char)
    requires forall i :: 0 <= i < |s| ==> s[i] != a && s[i] != b
    ensures FirstIndex(s, a, b) == |s|
  {
  }

  /** A literal without an exponent is read by its mantissa alone. */
  lemma NoExponent(t: string)
    requires forall i :: 0 <= i < |t| ==> t[i] != 'e' && t[i] != 'E'
    requires MantissaValue(t).Some?
    ensures UnsignedDecimal(t) == Finite(MantissaValue(t).value)
  {
    FirstIndexNone(t, 'e', 'E');
    assert t[..|t|] == t;
  }

  /** `whole.fraction` is read as the whole part plus the fraction scaled down. */
  lemma {:induction false} MantissaOf(whole: string, fraction: string)
    requires whole != [] && AllDigits(whole) && AllDigits(fraction)
    ensures MantissaValue(whole + "." + fraction) == Some(DecimalValue(whole, fraction))
  {
    var d := whole + "." + fraction;
    var m := FirstIndex(d, '.', '.');
    assert d[|whole|] == '.';
    assert m == |whole| by {
      if m < |whole| {
        assert d[m] == whole[m];
        AllDigitsAt(whole, m);
      } else if m > |whole| {
        FirstIndexFirst(d, '.', '.', |whole|);
      }
    }
    assert d[..m] == whole;
    assert d[m + 1..] == fraction;
  }

  /** A decimal with a fractional part coerces to its value: `"1.0" == 1`. */
  lemma {:induction false} DecimalStringToNumber(whole: string, fraction: string)
    requires whole != [] && AllDigits(whole) && AllDigits(fraction)
    ensures StringToNumber(whole + "." + fraction) == Finite(DecimalValue(whole, fraction))
  {
    var d := whole + "." + fraction;
    assert d[|d| - 1] == if fraction == [] then '.' else fraction[|fraction| - 1];
    if fraction != [] {
      AllDigitsAt(fraction, |fraction| - 1);
    }
    assert d[0] == whole[0];
    AllDigitsAt(whole, 0);
    StartsWithDigit(d);
    forall i | 0 <= i < |d| ensures d[i] != 'e' && d[i] != 'E' {
      if i < |whole| {
        assert d[i] == whole[i];
        AllDigitsAt(whole, i);
      } else if i > |whole| {
        assert d[i] == fraction[i - |whole| - 1];
        AllDigitsAt(fraction, i - |whole| - 1);
      }
    }
    MantissaOf(whole, fraction);
    NoExponent(d);
  }

  /** Trimming the end of a string that starts with a non-space keeps that first character. */
  lemma TrimEndKeepsFirst(s: string)
    requires s != [] && !IsWhiteSpace(s[0])
    ensures TrimEnd(s) != [] && TrimEnd(s)[0] == s[0]
  {
    if IsWhiteSpace(s[|s| - 1]) {
      TrimEndKeepsFirst(s[..|s| - 1]);
    }
  }

  /** A string that starts with anything but white space, a digit, a sign or a point is not
      a number: `Number("owner")` is NaN. */
  lemma NonNumericWord(w: string)
    requires w != [] && !IsWhiteSpace(w[0]) && !IsDigit(w[0]) && w[0] !in "+-."
    ensures StringToNumber(w) == NotANumber
  {
    assert TrimStart(w) == w;
    TrimEndKeepsFirst(w);
    var t := Trim(w);
    assert t != [] && t[0] == w[0];
    var k := FirstIndex(t, 'e', 'E');
    if k > 0 {
      var mantissa := t[..k];
      var d := FirstIndex(mantissa, '.', '.');
      assert d > 0;
      assert !IsDigit(mantissa[..d][0]);
    }
  }

  // ---------------------------------------------------------------------------
  // Loose equality

  /** How far a value is from a number or a string under `==`'s conversions. */
  function Rank(v: JsValue): nat
  {
    match v
    case Bool(_) => 2
    case Obj => 1
    case _ => 0
  }

  /** JavaScript's `a == b` (the abstract equality comparison). Two objects are compared by
      identity, which the model does not track: they are taken to be distinct. */
  predicate LooseEquals(a: JsValue, b: JsValue)
    decreases Rank(a) + Rank(b)
  {
    if (a.Undefined? || a.Null?) && (b.Undefined? || b.Null?) then true
    else if a.Undefined? || a.Null? || b.Undefined? || b.Null? then false
    else if a.Bool? then LooseEquals(Num(if a.b then 1.0 else 0.0), b)
    else if b.Bool? then LooseEquals(a, Num(if b.b then 1.0 else 0.0))
    else if a.Obj? && b.Obj? then false
    else if a.Obj? then LooseEquals(Str("[object Object]"), b)
    else if b.Obj? then LooseEquals(a, Str("[object Object]"))
    else if a.Str? && b.Str? then a.s == b.s
    else ToNumber(a).Finite? && ToNumber(a) == ToNumber(b)
  }

  /** Comparing with a string that is not numeric, such as a role name, is plain string
      equality: `v == "owner"` holds for the string "owner" and nothing else. */
  lemma LooseEqualsWord(v: JsValue, w: string)
    requires StringToNumber(w) == NotANumber && w != "[object Object]"
    ensures LooseEquals(v, Str(w)) <==> v == Str(w)
  {
  }

  /** A route parameter (always a string) equals a number under `==` exactly when it coerces
      to that number. */
  lemma LooseEqualsParam(id: string, n: real)
    ensures LooseEquals(Str(id), Num(n)) <==> StringToNumber(id) == Finite(n)
  {
  }
}
