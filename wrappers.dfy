/** The optional value used wherever the front-end holds `T | null` or `T | undefined`. */
module Wrappers {

  datatype Option<+T> = None | Some(value: T)

  /** The `x || ""` idiom on a nullable string. */
  function OrEmpty(s: Option<string>): (r: string)
    ensures s.Some? ==> r == s.value
    ensures s.None? ==> r == ""
  {
    match s
    case Some(v) => v
    case None => ""
  }
}
