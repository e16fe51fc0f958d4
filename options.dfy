/** PHP's nullable values (`null` or a value) as a datatype. */
module Options {

  datatype Option<T> = None | Some(value: T)
}
