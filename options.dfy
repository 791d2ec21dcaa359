/** A value that may be absent: JavaScript's `null`/`undefined` and C#'s `null`. */
module Options {

  datatype Option<+T> = None | Some(value: T)
}
