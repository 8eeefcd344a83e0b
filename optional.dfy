/** The optional-value wrapper used for the source's nullable and optional fields. */
module Optional {

  datatype Option<+T> = None | Some(value: T)
}
