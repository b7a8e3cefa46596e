/** An optional value: what the source writes `X | None`. */
module Options {
  datatype Option<+T> = None | Some(value: T)
}
