/** JavaScript values that the boot checks and the settings store hand back. */
module Js {

  datatype Option<T> = None | Some(value: T)

  /** What a JavaScript boolean check can evaluate to: `true`, `false`, or
      `undefined` when the function falls off its end without a `return`. */
  datatype JsBool = JsTrue | JsFalse | JsUndefined

  /** JavaScript truthiness of a JsBool: only `true` is truthy. */
  predicate Truthy(b: JsBool) {
    b == JsTrue
  }

  /** A value read from the settings store: a key that was never written
      reads as `undefined` (Absent). */
  datatype JsValue = Absent | Null | Bool(b: bool) | Num(n: int) | Str(s: string)
}
