/** The two shapes every other module uses for "maybe a value".

    `Option` is TypeScript's `T | null` (and an absent storage slot or
    optional field); the codec in `UserJson` reads through it with `:-`,
    stopping at the first piece that is missing. `Result` is a call that
    either returns a value or throws the error it carries. */
module Basics {

  datatype Option<+T> = None | Some(value: T) {

    /** What `:-` stops at. */
    predicate IsFailure() {
      None?
    }

    function PropagateFailure<U>(): Option<U>
      requires None?
    {
      None
    }

    function Extract(): T
      requires Some?
    {
      value
    }

    /** `o || fallback` for an optional value. */
    function GetOr(fallback: T): T {
      if Some? then value else fallback
    }
  }

  datatype Result<+T, +E> = Ok(value: T) | Err(error: E)
}
