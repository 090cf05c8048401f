/**
 * How the element's property setters coerce the values they are given.
 * A value reaches a setter either from script (any JavaScript value) or from
 * an attribute change (a string, or null once the attribute is removed).
 */
module Coercion {
  import opened Wrappers

  /** The JavaScript values a setter can receive. `Num` covers integral numbers only. */
  datatype Value = Bool(b: bool) | Str(s: string) | Num(n: int) | Null

  /** Lower-casing of one character, for the ASCII letters. */
  function LowerChar(c: char): char
  {
    if 'A' <= c <= 'Z' then (c as int + 32) as char else c
  }

  /** `String.prototype.toLowerCase`, letter by letter. */
  function ToLower(s: string): (r: string)
    ensures |r| == |s|
    ensures forall i :: 0 <= i < |s| ==> r[i] == LowerChar(s[i])
  {
    if s == [] then [] else [LowerChar(s[0])] + ToLower(s[1..])
  }

  /** A string input is lower-cased before the setters compare it; other inputs pass unchanged. */
  function Lowered(v: Value): Value
  {
    if v.Str? then Str(ToLower(v.s)) else v
  }

  /**
   * The flag setters (analytics, adTracking, adPersonalization, functional,
   * grantAll, denyAll) clear their flag exactly for `false` and for any
   * spelling of the string "false"; every other value sets it.
   */
  predicate SwitchesOff(v: Value)
  {
    var u := Lowered(v);
    u == Bool(false) || u == Str("false")
  }

  /** The `force` setter compares without lower-casing. */
  predicate ForceSwitchesOff(v: Value)
  {
    v == Bool(false) || v == Str("false")
  }

  /** Lower-casing is idempotent, so a setter sees the same decision for `s` and for `ToLower(s)`. */
  lemma {:induction false} ToLowerIdempotent(s: string)
    ensures ToLower(ToLower(s)) == ToLower(s)
  {
    if s != [] {
      ToLowerIdempotent(s[1..]);
    }
  }

  /** A string with no upper-case letter is its own lower case. */
  lemma LowerCaseUnchanged(s: string)
    requires forall i :: 0 <= i < |s| ==> !('A' <= s[i] <= 'Z')
    ensures ToLower(s) == s
  {
    assert forall i :: 0 <= i < |s| ==> ToLower(s)[i] == s[i];
  }

  /** Characterises `SwitchesOff`: the boolean `false`, or a five-letter string spelling "false" in any case. */
  lemma SwitchesOffIff(v: Value)
    ensures SwitchesOff(v) <==>
      v == Bool(false) ||
      (v.Str? && |v.s| == 5 && forall i :: 0 <= i < 5 ==> LowerChar(v.s[i]) == "false"[i])
  {
    if v.Str? && |v.s| == 5 && (forall i :: 0 <= i < 5 ==> LowerChar(v.s[i]) == "false"[i]) {
      assert ToLower(v.s) == "false";
    }
  }

  /** The values that are not `false` (null from a removed attribute, "", 0, "no") all set a flag; the string test ignores case. */
  lemma SwitchesOffExamples()
    ensures !SwitchesOff(Null) && !SwitchesOff(Str("")) && !SwitchesOff(Num(0))
    ensures !SwitchesOff(Bool(true)) && !SwitchesOff(Str("no"))
    ensures SwitchesOff(Str("FALSE")) && SwitchesOff(Str("False")) && SwitchesOff(Bool(false))
  {
    assert ToLower("FALSE") == "false";
    assert ToLower("False") == "false";
    assert ToLower("no")[0] == 'n';
    assert ToLower("") == "";
  }

  /** `force` is case-sensitive where the other setters are not: "FALSE" sets force but clears a consent flag. */
  lemma ForceIsCaseSensitive()
    ensures !ForceSwitchesOff(Str("FALSE")) && SwitchesOff(Str("FALSE"))
  {
    assert ToLower("FALSE") == "false";
  }

  /** Value of a decimal digit string. */
  function DigitsValue(s: string): (n: nat)
    requires forall i :: 0 <= i < |s| ==> '0' <= s[i] <= '9'
    ensures s == [] ==> n == 0
  {
    if s == [] then 0 else DigitsValue(s[..|s| - 1]) * 10 + (s[|s| - 1] as int - '0' as int)
  }

  predicate AllDigits(s: string)
  {
    forall i :: 0 <= i < |s| ==> '0' <= s[i] <= '9'
  }

  /**
   * Unary plus (`+value`) as the `expire` setter applies it; `None` is NaN.
   * Strings are read as an optional minus sign followed by decimal digits.
   */
  function ToNumber(v: Value): (r: Option<int>)
    ensures v.Num? ==> r == Some(v.n)
    ensures v == Null || v == Bool(false) || v == Str("") ==> r == Some(0)
    ensures v == Bool(true) ==> r == Some(1)
    ensures v.Str? && r.Some? && v.s != [] && v.s[0] != '-' ==> 0 <= r.value
  {
    match v
    case Bool(b) => Some(if b then 1 else 0)
    case Num(n) => Some(n)
    case Null => Some(0)
    case Str(s) =>
      if s == [] then Some(0)
      else if AllDigits(s) then Some(DigitsValue(s))
      else if s[0] == '-' && |s| > 1 && AllDigits(s[1..]) then Some(0 - DigitsValue(s[1..]) as int)
      else None
  }

  /** The decimal rendering of a natural number, most significant digit first, without leading zeros. */
  function Decimal(n: nat): (s: string)
    ensures s != [] && AllDigits(s)
    ensures s[0] != '-'
  {
    var d := ['0' + (n % 10) as char];
    if n < 10 then d else Decimal(n / 10) + d
  }

  /** `DigitsValue` reads back what `Decimal` writes. */
  lemma {:induction false} DigitsValueOfDecimal(n: nat)
    ensures DigitsValue(Decimal(n)) == n
  {
    var s := Decimal(n);
    if n >= 10 {
      DigitsValueOfDecimal(n / 10);
      assert s[..|s| - 1] == Decimal(n / 10);
    }
  }

  /**
   * Unary plus reads a decimal numeral as its value, and a minus sign
   * followed by one as its negation: "180" gives 180 days, "-2" gives -2.
   */
  lemma ToNumberOfDecimal(n: nat)
    ensures ToNumber(Str(Decimal(n))) == Some(n)
    ensures ToNumber(Str("-" + Decimal(n))) == Some(-(n as int))
  {
    DigitsValueOfDecimal(n);
    var s := "-" + Decimal(n);
    assert s[0] == '-' && s[1..] == Decimal(n);
  }

  /** A few readings of unary plus: "180" is 180, "-2" is -2, "abc" and "-" are NaN. */
  lemma ToNumberExamples()
    ensures ToNumber(Str("180")) == Some(180)
    ensures ToNumber(Str("-2")) == Some(-2)
    ensures ToNumber(Str("abc")) == None
    ensures ToNumber(Str("-")) == None
  {
    assert AllDigits("180");
    assert "180"[..2] == "18" && "18"[..1] == "1" && "1"[..0] == "";
    assert "-2"[0] == '-' && "-2"[1..] == "2" && AllDigits("2") && "2"[..0] == "";
    assert "abc"[0] == 'a';
    assert "-"[0] == '-';
  }
}
