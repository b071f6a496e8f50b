/**
 * The JSON values a decoded request body holds, with JavaScript's
 * truthiness and `Number(v)` coercion (`NaN` as `None`). Strings convert
 * as decimal literals: surrounding white space, an optional sign, digits
 * with an optional fraction, and an optional exponent.
 */
module JsValue {
  import opened Wrappers
  import opened JsText

  /** A body field: missing (`Undefined`) or a JSON value; arrays and
    * objects are one case. */
  datatype Value = Undefined | Null | Bool(b: bool) | Number(n: real) | Str(s: string) | Object

  /** `!!v`. */
  predicate Truthy(v: Value) {
    match v
    case Undefined => false
    case Null => false
    case Bool(b) => b
    case Number(n) => n != 0.0
    case Str(s) => s != ""
    case Object => true
  }

  function Pow10(e: nat): (r: real)
    ensures r >= 1.0
  {
    if e == 0 then 1.0 else 10.0 * Pow10(e - 1)
  }

  /** Digits with an optional fraction (`12`, `12.5`, `.5`, `5.`), at
    * least one digit in all. */
  function UnsignedDecimal(s: string): Option<real> {
    var parts := Split(s, '.');
    if |parts| == 1 then
      if s != "" && AllDigits(s) then Some(DigitsValue(s) as real) else None
    else if |parts| == 2 then
      var w := parts[0];
      var f := parts[1];
      if AllDigits(w) && AllDigits(f) && |w| + |f| > 0
      then Some(DigitsValue(w) as real + DigitsValue(f) as real / Pow10(|f|))
      else None
    else None
  }

  /** An exponent: an optional sign and at least one digit. */
  function ExponentValue(s: string): Option<int> {
    var negative := |s| > 0 && s[0] == '-';
    var d := if |s| > 0 && (s[0] == '+' || s[0] == '-') then s[1..] else s;
    var magnitude: int := DigitsValue(d);
    if d != "" && AllDigits(d) then Some(if negative then -magnitude else magnitude) else None
  }

  /** StringToNumber for decimal literals; empty (after trimming) is 0. */
  function StringToNumber(s: string): Option<real> {
    var t := Trim(s);
    if t == "" then Some(0.0)
    else
      var negative := t[0] == '-';
      var u := if t[0] == '+' || t[0] == '-' then t[1..] else t;
      var parts := Split(ToLower(u), 'e');
      var mantissa := UnsignedDecimal(parts[0]);
      var exponent := if |parts| == 1 then Some(0) else if |parts| == 2 then ExponentValue(parts[1]) else None;
      if mantissa.None? || exponent.None? then None
      else
        var e := exponent.value;
        var m := if e >= 0 then mantissa.value * Pow10(e) else mantissa.value / Pow10(-e);
        Some(if negative then -m else m)
  }

  /** `Number(v)`. */
  function ToNumber(v: Value): Option<real> {
    match v
    case Undefined => None
    case Null => Some(0.0)
    case Bool(b) => Some(if b then 1.0 else 0.0)
    case Number(n) => Some(n)
    case Str(s) => StringToNumber(s)
    case Object => None
  }

  /** Several parts always join with the separator in between. */
  lemma {:induction false} JoinOfSeveralHasSeparator(parts: seq<string>, sep: char)
    requires |parts| >= 2
    ensures sep in Join(parts, sep)
  {
    assert Join(parts, sep) == parts[0] + [sep] + Join(parts[1..], sep);
    assert Join(parts, sep)[|parts[0]|] == sep;
  }

  /** A string without the separator is one part. */
  lemma SplitWithoutSeparator(s: string, sep: char)
    requires sep !in s
    ensures Split(s, sep) == [s]
  {
    var parts := Split(s, sep);
    if |parts| >= 2 {
      JoinOfSeveralHasSeparator(parts, sep);
    }
  }

  /** A string without white space is its own trim. */
  lemma TrimOfDigits(d: string)
    requires |d| >= 1 && AllDigits(d)
    ensures Trim(d) == d
  {
    assert TrimStart(d) == d;
    assert TrimEnd(d) == d by {
      assert IsDigit(d[|d| - 1]);
    }
  }

  /** `Number(String(n)) == n` for every non-negative integer. */
  lemma NumberOfNatString(n: nat)
    ensures StringToNumber(NatToString(n)) == Some(n as real)
    ensures ToNumber(Str(NatToString(n))) == Some(n as real)
  {
    var d := NatToString(n);
    TrimOfDigits(d);
    assert !IsDigit('+') && !IsDigit('-') && !IsDigit('e') && !IsDigit('.');
    assert d[0] != '+' && d[0] != '-';
    var lower := ToLower(d);
    assert lower == d by {
      forall i | 0 <= i < |d| ensures lower[i] == d[i] {
        assert IsDigit(d[i]);
      }
    }
    assert 'e' !in d && '.' !in d by {
      forall i | 0 <= i < |d| ensures d[i] != 'e' && d[i] != '.' {
        assert IsDigit(d[i]);
      }
    }
    SplitWithoutSeparator(d, 'e');
    SplitWithoutSeparator(d, '.');
  }

  /** The body values the comment route sees most: a missing field is
    * `NaN`, while `null`, the empty string and blanks are 0. */
  lemma ToNumberExamples()
    ensures ToNumber(Undefined) == None
    ensures ToNumber(Null) == Some(0.0)
    ensures ToNumber(Str("")) == Some(0.0)
    ensures ToNumber(Str("  ")) == Some(0.0)
  {
    assert TrimStart("  ") == "";
  }

  /** A string that is not a decimal literal is `NaN`. */
  lemma ToNumberOfLetters()
    ensures ToNumber(Str("abc")) == None
  {
    var t := "abc";
    assert TrimStart(t) == t;
    assert TrimEnd(t) == t;
    assert ToLower(t) == t;
    assert t[0] != 'e' && t[1] != 'e' && t[2] != 'e';
    SplitWithoutSeparator(t, 'e');
    assert t[0] != '.' && t[1] != '.' && t[2] != '.';
    SplitWithoutSeparator(t, '.');
    assert !IsDigit(t[0]);
    assert UnsignedDecimal(t) == None;
  }
}
