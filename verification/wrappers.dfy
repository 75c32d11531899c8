/** Small sum types shared by every module of the model. */
module Wrappers {

  /** A TypeScript `T | null`: `None` is `null`. */
  datatype Option<+T> = None | Some(value: T) {

    /** The JavaScript idiom `x || fallback` for a value whose only falsy case is `null`. */
    function GetOr(default: T): T {
      match this
      case Some(v) => v
      case None => default
    }
  }

  /** An awaited call that either produced a value or threw. */
  datatype Call<+T> = Returned(value: T) | Threw
}
