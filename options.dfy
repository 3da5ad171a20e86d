/** An optional value: a serial line that may or may not have arrived, a Python
    attribute that may or may not have been assigned yet. */
module Options {

  datatype Option<+T> = None | Some(value: T)
}
