/** Java runtime notions the agents' code relies on: references that may be
    null, and the two unchecked exceptions the modelled code can raise. */
module Java {

  /** A Java reference of type T: `None` is `null`. */
  datatype Option<+T> = None | Some(value: T)

  /** The runtime exceptions the modelled methods can throw. */
  datatype Exception =
    | NullPointer       // a method invoked on a null reference
    | IndexOutOfBounds  // `List.get(i)` with `i` outside the list

  /** How a Java method call ends: it returns a value or throws. */
  datatype Outcome<+T> = Returned(value: T) | Threw(exception: Exception)
}
