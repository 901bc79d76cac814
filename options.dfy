/** An optional value: `None` stands for C's `NULL`. */
module Options {
  datatype Option<T> = None | Some(value: T)
}
