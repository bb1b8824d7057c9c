/** Option and Result values, and the exceptions the modelled Python code can raise. */
module Wrappers {

  datatype Option<+T> = None | Some(value: T)

  datatype Result<+R, +E> = Success(value: R) | Failure(error: E)

  /** The exceptions that escape the modelled operations, one constructor per cause. */
  datatype Error =
    // NotImplementedError raised by the methods of the base CommunicationInterface
    | NotImplemented
    // ValueError raised by Reader._create_com, carrying its message
    | ValueError(message: string)
    // KeyError raised when a keyword argument the serial transport needs is missing
    | KeyError(key: string)
    // AttributeError: SerialCommunication.read with no serial object (`ser` is None)
    | NoLink
    // the exception pyserial raises when a closed port is read; which exception
    // class that is depends on the platform backend and is not modelled
    | PortClosed
    // numpy could not build an array of the reader's dtype from what read returned
    | DecodeFailed
    // ValueError from reshape: the element count does not match the frame shape
    | ShapeMismatch(count: nat, expected: nat)
}
