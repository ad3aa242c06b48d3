/** A value that may be absent: Java's nullable references and a read that
    finds too little data. */
module Optional {
  datatype Option<+T> = None | Some(value: T)
}
