/**
 * The few JavaScript value rules the launchers depend on: optional
 * properties, truthiness of strings, numbers and booleans, and the
 * decimal text `String(n)` produces for a whole-number port below 1e21.
 */
module Js {

  /** A property that may be absent (`undefined`) or present with a value. */
  datatype Option<+T> = None | Some(value: T)

  /** A string property is truthy when it is present and not the empty string. */
  predicate TruthyStr(v: Option<string>) {
    v.Some? && v.value != ""
  }

  /** A number property is truthy when it is present and not 0. */
  predicate TruthyNat(v: Option<nat>) {
    v.Some? && v.value != 0
  }

  /** A boolean property is truthy when it is present and true. */
  predicate TruthyBool(v: Option<bool>) {
    v == Some(true)
  }

  /** `v || fallback` for an optional string. */
  function OrElse(v: Option<string>, fallback: string): string {
    if TruthyStr(v) then v.value else fallback
  }

  predicate IsDigit(c: char) {
    '0' as int <= c as int <= '9' as int
  }

  function DigitChar(d: nat): (c: char)
    requires d < 10
    ensures IsDigit(c) && c as int - '0' as int == d
  {
    ('0' as int + d) as char
  }

  /** The decimal text of a non-negative integer, as `String(n)` gives it for whole numbers below 1e21. */
  function NatToString(n: nat): (s: string)
    ensures |s| > 0
    ensures forall i :: 0 <= i < |s| ==> IsDigit(s[i])
    ensures |s| > 1 ==> s[0] != '0'
  {
    if n < 10 then [DigitChar(n)] else NatToString(n / 10) + [DigitChar(n % 10)]
  }

  /** The value of a string of decimal digits. */
  function ParseNat(s: string): nat
    requires forall i :: 0 <= i < |s| ==> IsDigit(s[i])
  {
    if s == [] then 0
    else
      assert IsDigit(s[|s| - 1]);
      10 * ParseNat(s[..|s| - 1]) + (s[|s| - 1] as int - '0' as int)
  }

  /** Reading the decimal text of `n` back gives `n`. */
  lemma {:induction false} ParseNatToString(n: nat)
    ensures ParseNat(NatToString(n)) == n
  {
    if n >= 10 {
      var s := NatToString(n);
      assert s[..|s| - 1] == NatToString(n / 10);
      ParseNatToString(n / 10);
    }
  }

  /** Different ports never share a decimal text. */
  lemma NatToStringInjective(a: nat, b: nat)
    ensures NatToString(a) == NatToString(b) ==> a == b
  {
    ParseNatToString(a);
    ParseNatToString(b);
  }
}
