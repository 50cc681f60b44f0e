/** Small wrappers shared by the other modules. */
module Common {

  /** A value that may be absent: a null pointer, an unset member. */
  datatype Option<+T> = None | Some(value: T)

  /** The outcome of a call into code outside the model: it returns a value or throws. */
  datatype Call<+T> = Returns(value: T) | Throws
}
