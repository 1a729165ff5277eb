/**
  A request-body argument as the engine receives it. The engine tests its
  phone argument with `!phone || typeof phone !== 'string'` and compares
  codes with `!==`. A string compares by its characters; `undefined` is kept
  apart because it is what reading a missing property yields, so it equals
  the `code` of any object that has none; every other non-string value only
  matters in not being a string.
 */
module JsArg {

  datatype Arg = Str(value: string) | Undefined | NonString

  /** Passes `!phone || typeof phone !== 'string'` negated: a non-empty string
      (the empty string is the only falsy string). */
  predicate NonEmptyString(a: Arg) {
    a.Str? && a.value != ""
  }
}
