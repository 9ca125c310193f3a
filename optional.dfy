/** A value that may be absent: JavaScript's `null` for the current flight
    record and for the error message. */
module Optional {

  datatype Option<+T> = None | Some(value: T)

}
