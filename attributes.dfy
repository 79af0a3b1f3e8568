/**
 * The small attribute-reading idioms the hooks share: `getAttribute(x) || null`,
 * `getAttribute(x) || 'default'` and `isNil`. An attribute read is `None` when the
 * attribute is absent and `Some(text)` otherwise; JavaScript treats the empty
 * string as falsy, so `||` replaces it as well.
 */
module Attributes {
  import opened Wrappers

  /** `attr || null`: an absent or empty attribute becomes null. */
  function OrNull(attr: Option<string>): (r: Option<string>)
    ensures r.Some? <==> attr.Some? && attr.value != ""
    ensures r.Some? ==> r == attr
  {
    match attr
    case Some(text) => if text == "" then None else Some(text)
    case None => None
  }

  /** `attr || fallback`: an absent or empty attribute becomes `fallback`. */
  function OrDefault(attr: Option<string>, fallback: string): (r: string)
    ensures attr.Some? && attr.value != "" ==> r == attr.value
    ensures attr.None? || attr.value == "" ==> r == fallback
  {
    match attr
    case Some(text) => if text == "" then fallback else text
    case None => fallback
  }

  /** A JavaScript value that may also be `null` or `undefined`. */
  datatype Nilable<T> = Null | Undefined | Value(value: T)

  /** `isNil(x)`: true exactly for `null` and `undefined`. */
  predicate IsNil<T>(x: Nilable<T>): (r: bool)
    ensures r <==> x == Null || x == Undefined
  {
    !x.Value?
  }

  /** isNil accepts null and undefined and rejects every other value, falsy ones included. */
  lemma IsNilExactlyNullAndUndefined<T>(x: Nilable<T>)
    ensures IsNil(x) <==> x == Null || x == Undefined
    ensures IsNil(Value("")) == false && IsNil(Value(0)) == false && IsNil(Value(false)) == false
  {
  }
}
