/** Small value types shared by every part of the model. */
module Common {

  datatype Option<+T> = None | Some(value: T)

  /** The Python exceptions that handlers of the station can raise. */
  datatype PyError =
    | IndexError       // a list index out of range
    | AttributeError   // a name looked up on a class that does not define it
    | TypeError        // `str + None`
}
