/** The optional value that the intersection routines return (Rust's `Option`). */
module Options {

  datatype Option<+T> = None | Some(value: T)
}
