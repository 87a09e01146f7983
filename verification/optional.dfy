/** The nullable values of the program: a `std::unique_ptr` that may be empty. */
module Optional {
  datatype Option<+T> = None | Some(value: T)
}
