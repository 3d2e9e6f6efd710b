/** A value that may be absent: an undefined JavaScript property or query parameter. */
module Optional {

  datatype Option<+T> = None | Some(value: T)

}
