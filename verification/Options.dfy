/** The value of a nullable column, or of a query that may return no row. */
module Options {
  datatype Option<+T> = None | Some(value: T)
}
