/** Values shared by every component: optional values and the outcome of an operation that may raise. */
module Results {

  datatype Option<+T> = None | Some(value: T)

  /** The Python original raises; the model returns `Raised` and keeps no message. */
  datatype Result<+T> = Ok(value: T) | Raised
}
