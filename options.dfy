/** An optional value: the model's stand-in for TypeScript's `T | null`,
    `T | undefined` and optional (`?:`) record fields. */
module Options {

  datatype Option<+T> = None | Some(value: T) {

    /** The carried value, or `default` when there is none. */
    function GetOr(default: T): T {
      match this
      case Some(v) => v
      case None => default
    }
  }
}
