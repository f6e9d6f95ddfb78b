/** The optional value used wherever the JavaScript source tests for `null`,
    `undefined` or `NaN`. */
module Options {
  datatype Option<+T> = None | Some(value: T)
}
