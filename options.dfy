/** A value that may be absent: a TypeScript `T | null`, `T | undefined`
    or an optional (`?`) property. */
module Options {

  datatype Option<+T> = None | Some(value: T) {

    /** The value if present, otherwise `default`, as an object spread keeps
        the earlier property when the later one is absent. */
    function GetOr(default: T): T {
      match this
      case Some(v) => v
      case None => default
    }
  }
}
