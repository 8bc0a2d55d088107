/** The model's stand-in for Python's `None`: a value that may be absent.
    Where a source routine raises an exception that escapes to its caller,
    the model returns `None` as well and says so on the member. */
module Optional {

  datatype Option<+T> = None | Some(value: T)

}
