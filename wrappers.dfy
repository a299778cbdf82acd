/** Option values and the outcome of a Java call that either returns or throws. */
module Wrappers {

  datatype Option<+T> = None | Some(value: T)

  /** The Java exceptions the modelled code can let escape. */
  datatype Fault =
    | NullPointer          // NullPointerException
    | IndexOutOfBounds     // ArrayIndexOutOfBoundsException
    | ClassCast            // ClassCastException
    | NumberFormat         // NumberFormatException from Integer.parseInt
    | IllegalArgument      // IllegalArgumentException (port out of range)
    | IllegalState         // unchecked failure of Request.getParts
    | InitializerFailed    // what newInstance lets out when a class's initializer or constructor throws

  /** What a Java call did: returned a value, or threw. */
  datatype Outcome<+T> = Returned(value: T) | Threw(fault: Fault)
}
