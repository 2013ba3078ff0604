/** An optional value: JavaScript's `null`/`undefined` on one side, a present value on the other. */
module Options {
  datatype Option<+T> = None | Some(value: T)
}
