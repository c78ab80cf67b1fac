/** Optional values: a JavaScript `null`/`undefined` or a Python `None` beside a value. */
module Wrappers {
  datatype Option<T> = None | Some(value: T)

  /** `[x]` when present, `[]` otherwise. */
  function OptionToSeq<T>(o: Option<T>): seq<T> {
    if o.Some? then [o.value] else []
  }
}
