/** Values shared by every component of the transfer-admission core. */
module Common {

  /** Java's Optional (and a nullable reference where the source returns one). */
  datatype Option<+T> = None | Some(value: T)

  /** A wallet address, compared by value as Java's String.equals does. */
  type Address = string

  /**
   * A human-readable message. Some messages of the source end with a number
   * rendered by Java's string concatenation of a double; the model keeps that
   * number beside the fixed text instead of rendering it.
   */
  datatype Message = Plain(text: string) | WithBalance(text: string, balance: real)
}
