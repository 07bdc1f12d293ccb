/** An optional value: JavaScript's `undefined`/missing argument, or NaN from a number conversion. */
module Optional {
  datatype Option<+T> = None | Some(value: T)
}
