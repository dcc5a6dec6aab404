/** Option and Result, and the kinds of failure the Booster client raises. */
module Wrappers {

  datatype Option<+T> = None | Some(value: T)

  /** The exceptions the client lets escape to its caller. */
  datatype Error =
    | TimeoutError(topic: string)        // no telemetry message arrived in time
    | IndexError(index: int)             // a Python list was indexed out of range
    | ChannelOutOfRange(channel: int)    // a channel number outside 0..7 was refused
    | KeyError(key: string)              // a reply record lacks the requested field
    | TypeError                          // a reply is not a record and cannot be indexed by name

  datatype Result<+T> = Success(value: T) | Failure(error: Error)
}
