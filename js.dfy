/** JavaScript value semantics the handlers and pages rely on: the truthiness of
    optional request fields, the `x || default` idiom and `String.prototype.startsWith`. */
module Js {

  /** An optional value: `None` stands for `undefined` or `null`. */
  datatype Option<T> = None | Some(value: T)

  /** Truthiness of an optional string: `undefined`, `null` and `""` are falsy. */
  predicate Truthy(s: Option<string>) {
    s.Some? && s.value != ""
  }

  /** Truthiness of an optional number: `undefined`, `null` and `0` are falsy
      (NaN does not arise in this model). */
  predicate TruthyInt(n: Option<int>) {
    n.Some? && n.value != 0
  }

  /** `s || d` for a string field and a string default. */
  function Or(s: Option<string>, d: string): string {
    if Truthy(s) then s.value else d
  }

  /** `s || null` for a string field. */
  function OrNull(s: Option<string>): Option<string> {
    if Truthy(s) then s else None
  }

  /** `n || d` for a numeric field and a numeric default. */
  function OrInt(n: Option<int>, d: int): int {
    if TruthyInt(n) then n.value else d
  }

  /** `n || null` for a numeric field. */
  function OrNullInt(n: Option<int>): Option<int> {
    if TruthyInt(n) then n else None
  }

  /** `s.startsWith(prefix)`. */
  predicate StartsWith(s: string, prefix: string) {
    |prefix| <= |s| && s[..|prefix|] == prefix
  }
}
