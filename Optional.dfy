/** The Option type, standing in for Java's nullable references. */
module Optional {

  datatype Option<+T> = None | Some(value: T)

}
