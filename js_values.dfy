/**
 * The few pieces of JavaScript value semantics the core relies on:
 * truthiness of optional strings and numbers, and the `||` operator,
 * which yields its left operand when that is truthy and its right one otherwise.
 */
module JsValues {
  import opened Wrappers

  /** An optional string is truthy when it is present and not the empty string. */
  predicate TruthyString(s: Option<string>) {
    s.Some? && s.value != ""
  }

  /** An optional number is truthy when it is present and not zero. */
  predicate TruthyNumber(n: Option<int>) {
    n.Some? && n.value != 0
  }

  /** `s || fallback` for an optional string. */
  function OrString(s: Option<string>, fallback: string): (r: string)
    ensures TruthyString(s) ==> r == s.value
    ensures !TruthyString(s) ==> r == fallback
    ensures r == "" ==> !TruthyString(s) && fallback == ""
  {
    if TruthyString(s) then s.value else fallback
  }

  /** `n || fallback` for an optional number. */
  function OrNumber(n: Option<int>, fallback: int): (r: int)
    ensures TruthyNumber(n) ==> r == n.value
    ensures !TruthyNumber(n) ==> r == fallback
    ensures r == 0 ==> !TruthyNumber(n) && fallback == 0
  {
    if TruthyNumber(n) then n.value else fallback
  }
}
