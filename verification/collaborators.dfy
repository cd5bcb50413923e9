/** The handler's collaborators, reduced to scripted outcomes.

    For every envelope it receives, the handler calls each collaborator operation
    at most once. So an envelope's `Script` fixes, in advance, what each of those
    calls would return. The handler consults only the entries it actually calls;
    the rest are never read. A collaborator that keeps state between messages is
    modelled by giving each message its own script. */
module Collaborators {
  import opened Wire

  /** What the channel-support registrar reports for a message it can route:
      the parsed header and whether the message is a config update. The channel
      resources it also returns are the remaining entries of the same script. */
  datatype Resolution = Resolution(header: ChannelHeader, isConfig: bool)

  /** What config-update processing produces: the rewritten config envelope and
      the configuration sequence number it was validated against. */
  datatype ConfigUpdate = ConfigUpdate(config: Envelope, configSeq: Uint64)

  /** The outcome of each call the handler may make while serving one envelope. */
  datatype Script = Script(
    channelSupport: Result<Resolution>,
    waitReady: Outcome,
    processNormal: Result<Uint64>,
    processConfigUpdate: Result<ConfigUpdate>,
    order: Outcome,
    configure: Outcome,
    send: Outcome)
  {
    /** The registrar routed the message as a config update. */
    predicate IsConfig() {
      channelSupport.Ok? && channelSupport.value.isConfig
    }
  }

  /** What one receive on the stream returns. End of stream is a distinct event:
      the handler compares the receive error against the end-of-stream value itself,
      not against its root cause. */
  datatype Received =
    | Delivered(msg: Envelope, script: Script)
    | Eof
    | RecvFailed(error: Error)

  /** The calls the handler makes, on the stream and on its collaborators, with
      the arguments it passes. */
  datatype Call =
    | Recv
    | BroadcastChannelSupport(msg: Envelope)
    | WaitReady
    | ProcessNormalMsg(msg: Envelope)
    | Order(env: Envelope, configSeq: Uint64)
    | ProcessConfigUpdateMsg(msg: Envelope)
    | Configure(config: Envelope, configSeq: Uint64)
    | Send(response: Response)
}
