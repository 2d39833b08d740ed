/** JavaScript values as they reach the handlers: optional values, the three
    states of a field of a parsed JSON request body, and JavaScript
    truthiness, which the handlers use to decide which fields were supplied. */
module JsValues {

  datatype Option<+T> = None | Some(value: T)

  /** A field destructured from a JSON request body: `undefined` when the key
      is absent, JSON `null`, or a value of the field's type. */
  datatype Field<+T> = Undefined | Null | Given(value: T)

  /** Truthiness of a string field: a non-empty string. */
  predicate TruthyText(f: Field<string>) {
    f.Given? && f.value != ""
  }

  /** Truthiness of a number field: a number other than 0. */
  predicate TruthyNumber(f: Field<int>) {
    f.Given? && f.value != 0
  }

  /** Truthiness of a boolean field: `true`. */
  predicate TruthyFlag(f: Field<bool>) {
    f.Given? && f.value
  }

  /** Truthiness of an object field: every object, even `{}`, is truthy. */
  predicate TruthyObject<T>(f: Field<T>) {
    f.Given?
  }

  /** `f || fallback` for a string field. */
  function TextOr(f: Field<string>, fallback: string): string {
    if TruthyText(f) then f.value else fallback
  }

  /** `f || fallback` for a number field. */
  function NumberOr(f: Field<int>, fallback: int): int {
    if TruthyNumber(f) then f.value else fallback
  }

  /** `f || fallback` for a boolean field. */
  function FlagOr(f: Field<bool>, fallback: bool): bool {
    if TruthyFlag(f) then f.value else fallback
  }

  /** `f || fallback` for an object field. */
  function ObjectOr<T>(f: Field<T>, fallback: T): T {
    if TruthyObject(f) then f.value else fallback
  }

  /** `f !== undefined ? f : current`, where `null` is a value and is kept
      as the SQL NULL `None`. */
  function UnlessUndefined<T>(f: Field<T>, current: Option<T>): Option<T> {
    match f
    case Undefined => current
    case Null => None
    case Given(v) => Some(v)
  }
}
