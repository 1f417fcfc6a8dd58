/**
 * JavaScript values as the observer core sees them, the strict equality the
 * reactive setter uses, and the array-index test that `set` and `del` apply
 * to their key.
 */
module Values {

  /** Identity of a heap object: a plain object, an array, or any other object. */
  type ObjId = nat

  /**
   * A JavaScript value. Numbers are modelled by integers, and NaN is kept as a
   * tag of its own; `Ref` is a reference to a heap object.
   */
  datatype Value = Undef | Null | Bool(b: bool) | Num(n: int) | Str(s: string) | NaN | Ref(id: ObjId)

  /** `a === b`: primitives by value, references by identity, and NaN equal to nothing. */
  predicate StrictEquals(a: Value, b: Value) {
    a == b && !a.NaN?
  }

  /** The reactive setter's "no change" test: `newVal === value || (newVal !== newVal && value !== value)`. */
  predicate SameValue(newVal: Value, value: Value) {
    StrictEquals(newVal, value) || (!StrictEquals(newVal, newVal) && !StrictEquals(value, value))
  }

  /**
   * The setter's test is exactly identity of model values: writing a value
   * onto itself (NaN onto NaN included) is a no-change, and any other write is
   * a change.
   */
  lemma SameValueIsIdentity(a: Value, b: Value)
    ensures SameValue(a, b) <==> a == b
    ensures SameValue(a, a)
  {
  }

  predicate IsDigit(c: char) {
    '0' <= c <= '9'
  }

  function DigitValue(c: char): (d: nat)
    requires IsDigit(c)
    ensures d < 10
  {
    (c as int) - ('0' as int)
  }

  function Digit(d: nat): (c: char)
    requires d < 10
    ensures IsDigit(c) && DigitValue(c) == d
  {
    (('0' as int) + d) as char
  }

  predicate AllDigits(key: string) {
    forall i :: 0 <= i < |key| ==> IsDigit(key[i])
  }

  /**
   * Whether a property key names an array index: a non-empty string of decimal
   * digits (so `String(n)` for every natural number `n`).
   */
  predicate IsValidArrayIndex(key: string) {
    |key| > 0 && AllDigits(key)
  }

  /** The number a digit string denotes, `Number(key)`. */
  function IndexValue(key: string): (n: nat)
    requires AllDigits(key)
    decreases |key|
  {
    if key == [] then 0 else IndexValue(key[..|key| - 1]) * 10 + DigitValue(key[|key| - 1])
  }

  /** The property key of index `n`, `String(n)`. */
  function IndexKey(n: nat): (key: string)
    decreases n
  {
    if n < 10 then [Digit(n)] else IndexKey(n / 10) + [Digit(n % 10)]
  }

  /** Index keys and index values are inverse: a numeric key and its string name address the same element. */
  lemma {:induction false} IndexKeyRoundTrip(n: nat)
    ensures IsValidArrayIndex(IndexKey(n)) && IndexValue(IndexKey(n)) == n
  {
    if n >= 10 {
      IndexKeyRoundTrip(n / 10);
      var key := IndexKey(n);
      assert key[..|key| - 1] == IndexKey(n / 10);
    }
  }
}
