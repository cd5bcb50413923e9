/** Values that cross the broadcast handler's boundaries: the envelopes a client
    sends, the responses it gets back, and the errors its collaborators return. */
module Wire {

  /** An unsigned 64-bit integer, the width of a channel's configuration sequence number. */
  newtype Uint64 = x: int | 0 <= x < 0x1_0000_0000_0000_0000

  /** A signed message submitted for ordering. The handler never looks inside it. */
  datatype Envelope = Envelope(payload: seq<bv8>, signature: seq<bv8>)

  /** Some of the channel header fields the handler reads; it reads them only for
      log lines (it also logs the header type, which is not modelled). */
  datatype ChannelHeader = ChannelHeader(channelId: string, txId: string)

  /** The status codes a broadcast response can carry. */
  datatype Status = Success | BadRequest | Forbidden | NotFound | ServiceUnavailable

  /** One broadcast response: a status and a human-readable text, empty on success. */
  datatype Response = Response(status: Status, info: string)

  /** The root causes the classifier distinguishes; every other root cause is `Other`. */
  datatype Cause = ChannelDoesNotExist | PermissionDenied | Other

  /** An error value: the root cause it unwraps to, and the text it prints. */
  datatype Error = Error(cause: Cause, text: string)

  datatype Option<+T> = None | Some(value: T)

  /** A call that returns a value or an error. */
  datatype Result<+T> = Ok(value: T) | Err(error: Error)

  /** A call that returns only an error, or nil. */
  datatype Outcome = Pass | Fail(error: Error) {

    /** The call's return value as an optional error: None stands for nil. */
    function AsError(): Option<Error> {
      if Pass? then None else Some(error)
    }
  }
}
