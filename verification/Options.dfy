/** A value that may be absent: a nullable column, a query that finds no row. */
module Options {
  datatype Option<+T> = None | Some(value: T)
}
