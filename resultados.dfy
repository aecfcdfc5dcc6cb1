/** Outcome types shared by the whole model.
    `Option` stands for a TypeScript value that may be `undefined`;
    `Result` stands for a call that either returns normally or throws an `Error`
    carrying a message. */
module Resultados {

  /** `T | undefined`. */
  datatype Option<+T> = None | Some(value: T) {
    function GetOr(default: T): T {
      match this
      case Some(v) => v
      case None => default
    }
  }

  /** A call that returns `value`, or throws `new Error(message)`. */
  datatype Result<+T> = Ok(value: T) | Error(message: string)

  /** JavaScript truthiness of an optional string: `undefined` and `""` are falsy. */
  predicate Truthy(s: Option<string>) {
    s.Some? && s.value != ""
  }
}
