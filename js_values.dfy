/** The few JavaScript value semantics the form relies on: optional values,
    truthiness (used by every `x || default` and `if (x)`), `toString` of an
    integer, and `Number(...)` of a decimal string. */
module JsValues {

  datatype Option<+T> = None | Some(value: T)

  /** A browser `File`; only its name is observed by the form. */
  datatype File = File(name: string)

  /** A value stored in the supplier record. `undefined` is not a value here:
      it is the absence of a key in the record map. Numbers are integers. */
  datatype Value = Str(s: string) | Num(n: int) | Null | Upload(file: File)

  /** JavaScript truthiness: "" , 0 and null are falsy, every object is truthy. */
  predicate Truthy(v: Value)
  {
    match v
    case Str(s) => s != ""
    case Num(n) => n != 0
    case Null => false
    case Upload(_) => true
  }

  /** Truthiness of a property that may be undefined. */
  predicate TruthyProp(o: Option<Value>)
  {
    o.Some? && Truthy(o.value)
  }

  /** The result of `Number(...)`, restricted to integers and NaN. */
  datatype JsNumber = Int(i: int) | NaN

  predicate IsDigit(c: char)
  {
    '0' as int <= c as int <= '9' as int
  }

  predicate IsDigits(s: string)
  {
    |s| > 0 && forall i :: 0 <= i < |s| ==> IsDigit(s[i])
  }

  function DigitChar(d: nat): (c: char)
    requires d < 10
    ensures IsDigit(c) && c as int - '0' as int == d
  {
    ('0' as int + d) as char
  }

  /** Decimal rendering of a natural number, as `String(n)` produces it. */
  function NatToString(n: nat): (s: string)
    ensures IsDigits(s)
    ensures |s| == 1 || s[0] != '0'
    decreases n
  {
    if n < 10 then [DigitChar(n)] else NatToString(n / 10) + [DigitChar(n % 10)]
  }

  /** `n.toString()` for an integer `n`. */
  function IntToString(n: int): (s: string)
    ensures |s| > 0
    ensures s[0] == '-' <==> n < 0
  {
    if n < 0 then "-" + NatToString(-n) else NatToString(n)
  }

  /** The value of a string of decimal digits (leading zeros allowed). */
  function DigitsValue(s: string): nat
    requires forall i :: 0 <= i < |s| ==> IsDigit(s[i])
  {
    if s == [] then 0
    else
      assert IsDigit(s[|s| - 1]);
      DigitsValue(s[..|s| - 1]) * 10 + (s[|s| - 1] as int - '0' as int)
  }

  /** `Number(s)` for strings that are empty or an optionally negative run of
      decimal digits; every other string is NaN here. */
  function NumberOf(s: string): (r: JsNumber)
    ensures s == "" ==> r == Int(0)
    ensures IsDigits(s) ==> r.Int? && r.i >= 0
    ensures r.NaN? <==> s != "" && !IsDigits(s) && !(|s| > 1 && s[0] == '-' && IsDigits(s[1..]))
  {
    if s == "" then Int(0)
    else if IsDigits(s) then Int(DigitsValue(s))
    else if |s| > 1 && s[0] == '-' && IsDigits(s[1..]) then Int(-(DigitsValue(s[1..]) as int))
    else NaN
  }

  /** `Number(v)` for a record property: a number is itself, a string is
      read as a decimal, undefined and a file are NaN, null is 0. */
  function NumberOfProp(o: Option<Value>): (r: JsNumber)
    ensures o.Some? && o.value.Num? ==> r == Int(o.value.n)
    ensures o.Some? && o.value.Str? ==> r == NumberOf(o.value.s)
    ensures o == Some(Null) ==> r == Int(0)
    ensures o.None? || (o.Some? && o.value.Upload?) ==> r.NaN?
  {
    match o
    case None => NaN
    case Some(Str(s)) => NumberOf(s)
    case Some(Num(n)) => Int(n)
    case Some(Null) => Int(0)
    case Some(Upload(_)) => NaN
  }

  lemma {:induction false} DigitsValueOfNatToString(n: nat)
    ensures DigitsValue(NatToString(n)) == n
    decreases n
  {
    if n >= 10 {
      var p := NatToString(n / 10);
      var s := p + [DigitChar(n % 10)];
      assert s[..|s| - 1] == p;
      DigitsValueOfNatToString(n / 10);
    }
  }

  /** `Number(String(n)) === n` for every integer: the identifier written into
      the page address reads back as the same number. */
  lemma NumberOfIntToString(n: int)
    ensures NumberOf(IntToString(n)) == Int(n)
  {
    if n < 0 {
      var s := IntToString(n);
      assert s[1..] == NatToString(-n);
      assert !IsDigits(s) by { assert !IsDigit(s[0]); }
      DigitsValueOfNatToString(-n);
    } else {
      DigitsValueOfNatToString(n);
    }
  }
}
