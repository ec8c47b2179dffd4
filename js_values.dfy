/**
 * The handful of JavaScript values and loose operators the skill's handlers
 * rely on: truthiness (`if (x)`, `x || d`), loose equality with a number,
 * `>` against a number, and `x - 1`.  Strings are converted to numbers the
 * way `Number(s)` does for decimal digit strings, which is what a number
 * slot delivers.
 */
module JsValues {
  import opened Wrappers

  /**
   * A slot value or session attribute as a handler sees it.  `Undefined`
   * stands for both `undefined` and `null`: at the non-negative constants
   * the handlers compare with, and behind the truthiness test that guards
   * every subtraction, the two behave alike.
   */
  datatype JsValue = Undefined | Str(s: string) | Num(n: int) | NaN

  predicate IsDigit(c: char) { '0' <= c <= '9' }

  predicate AllDigits(s: string) { forall i :: 0 <= i < |s| ==> IsDigit(s[i]) }

  /** The number a string of decimal digits denotes. */
  function DecimalValue(s: string): (n: nat)
    requires AllDigits(s)
    ensures n == 0 <==> forall i :: 0 <= i < |s| ==> s[i] == '0'
  {
    if s == [] then 0
    else
      var prefix := s[..|s| - 1];
      assert forall i :: 0 <= i < |prefix| ==> prefix[i] == s[i];
      DecimalValue(prefix) * 10 + (s[|s| - 1] as int - '0' as int)
  }

  /**
   * `Number(s)` for the strings a number slot produces: the empty string is
   * 0, a string of decimal digits is its value, anything else is NaN (None).
   */
  function ToNumber(s: string): (r: Option<int>)
    ensures r.Some? <==> AllDigits(s)
    ensures r.Some? ==> r.value >= 0
    ensures r == Some(0) <==> forall i :: 0 <= i < |s| ==> s[i] == '0'
  {
    if AllDigits(s) then Some(DecimalValue(s)) else None
  }

  /** The number `v` converts to in an arithmetic context; None is NaN. */
  function ToNumeric(v: JsValue): (r: Option<int>)
    ensures v.Num? ==> r == Some(v.n)
    ensures v.Undefined? || v.NaN? ==> r.None?
  {
    match v
    case Undefined => None
    case Str(s) => ToNumber(s)
    case Num(n) => Some(n)
    case NaN => None
  }

  /**
   * JavaScript truthiness.  The only truthy values that are numerically zero
   * are non-empty strings of zeros such as "0".
   */
  function Truthy(v: JsValue): (b: bool)
    ensures b && ToNumeric(v) == Some(0) ==> v.Str? && |v.s| > 0
    ensures !b ==> v.Undefined? || v.NaN? || ToNumeric(v) == Some(0)
  {
    match v
    case Undefined => false
    case Str(s) => s != ""
    case Num(n) => n != 0
    case NaN => false
  }

  /** `v == k` for a number `k`: the value converts to exactly `k`. */
  function LooselyEquals(v: JsValue, k: int): (b: bool)
    ensures b ==> !GreaterThan(v, k)
    ensures b && k != 0 ==> Truthy(v)
  {
    match v
    case Undefined => false
    case Str(s) => ToNumber(s) == Some(k)
    case Num(n) => n == k
    case NaN => false
  }

  /** `v > k` for a number `k`: false whenever `v` converts to NaN. */
  function GreaterThan(v: JsValue, k: int): (b: bool)
    ensures b ==> ToNumeric(v).Some? && ToNumeric(v).value > k
    ensures b && k >= 0 ==> Truthy(v)
  {
    match ToNumeric(v)
    case Some(m) => m > k
    case None => false
  }

  /** `v - 1`: always a number or NaN, never a string. */
  function MinusOne(v: JsValue): (r: JsValue)
    ensures r.Num? || r.NaN?
    ensures forall k :: GreaterThan(r, k) <==> GreaterThan(v, k + 1)
  {
    match ToNumeric(v)
    case Some(m) => Num(m - 1)
    case None => NaN
  }

  /** `v || 0`: a falsy value is replaced by the number 0. */
  function OrZero(v: JsValue): (r: JsValue)
    ensures Truthy(r) <==> Truthy(v)
    ensures GreaterThan(r, 0) <==> GreaterThan(v, 0)
    ensures !r.Undefined? && !r.NaN?
  {
    if Truthy(v) then v else Num(0)
  }

  /** A raw slot value: a missing slot reads as `undefined`. */
  function FromSlot(o: Option<string>): (v: JsValue)
    ensures v.Undefined? <==> o.None?
    ensures o.Some? ==> v == Str(o.value)
  {
    match o
    case None => Undefined
    case Some(s) => Str(s)
  }
}
