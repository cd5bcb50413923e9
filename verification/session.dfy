/** Properties of whole sessions. Each lemma places the message of interest
    after any number of earlier messages that were accepted, and states
    everything the session does from that message on. */
module Session {
  import opened Wire
  import opened Collaborators
  import opened Taxonomy
  import opened Broadcast

  /** Every item was a message accepted with a SUCCESS reply that was sent
      without error, so the loop went round again after each one. */
  predicate AllAccepted(done: seq<Received>) {
    forall i :: 0 <= i < |done| ==> Continues(done[i])
  }

  /** After accepted messages, a session goes on exactly as a fresh one would:
      earlier messages leave no state behind. */
  lemma {:induction false} AcceptedPrefix(done: seq<Received>, rest: seq<Received>)
    requires AllAccepted(done)
    ensures Handle(done + rest) == Session(Handle(done).trace + Handle(rest).trace, Handle(rest).ending)
    ensures Handle(done).ending == AwaitingRecv
    decreases |done|
  {
    if |done| == 0 {
      assert done + rest == rest;
    } else {
      var head, tail := done[0], done[1..];
      assert Continues(head);
      assert AllAccepted(tail) by {
        forall i | 0 <= i < |tail| ensures Continues(tail[i]) {
          assert tail[i] == done[i + 1];
        }
      }
      AcceptedPrefix(tail, rest);
      var it := Iteration(head.msg, head.script);
      assert done + rest == [head] + (tail + rest);
      HandleCons(head, tail + rest);
      assert Handle(done + rest) == Session(it + Handle(tail + rest).trace, Handle(tail + rest).ending);
      assert done == [head] + tail;
      HandleCons(head, tail);
      assert Handle(done) == Session(it + Handle(tail).trace, Handle(tail).ending);
      assert it + (Handle(tail).trace + Handle(rest).trace) == (it + Handle(tail).trace) + Handle(rest).trace;
    }
  }

  /** The message after accepted ones: its iteration's calls follow the earlier
      ones; the session goes on if it is accepted and its reply sent, and
      otherwise returns the result of that reply's send. */
  lemma {:induction false} MessageInSession(done: seq<Received>, msg: Envelope, sc: Script, rest: seq<Received>)
    requires AllAccepted(done)
    ensures var s := Handle(done + [Delivered(msg, sc)] + rest);
            var before := Handle(done).trace + Iteration(msg, sc);
      if Continues(Delivered(msg, sc))
      then s == Session(before + Handle(rest).trace, Handle(rest).ending)
      else s == Session(before, Returned(sc.send.AsError()))
  {
    var r := Delivered(msg, sc);
    assert done + [r] + rest == done + ([r] + rest);
    AcceptedPrefix(done, [r] + rest);
    HandleCons(r, rest);
    if Continues(r) {
      var before, it := Handle(done).trace, Iteration(msg, sc);
      assert before + (it + Handle(rest).trace) == (before + it) + Handle(rest).trace;
    }
  }

  /** End of stream: the handler returns nil, sends nothing, and reads no further. */
  lemma EndOfStreamReturnsNil(done: seq<Received>, rest: seq<Received>)
    requires AllAccepted(done)
    ensures Handle(done + [Eof] + rest) == Session(Handle(done).trace + [Recv], Returned(None))
  {
    assert done + [Eof] + rest == done + ([Eof] + rest);
    AcceptedPrefix(done, [Eof] + rest);
  }

  /** Any other receive error is returned unchanged, and nothing is sent. */
  lemma ReceiveErrorReturned(done: seq<Received>, e: Error, rest: seq<Received>)
    requires AllAccepted(done)
    ensures Handle(done + [RecvFailed(e)] + rest) == Session(Handle(done).trace + [Recv], Returned(Some(e)))
  {
    assert done + [RecvFailed(e)] + rest == done + ([RecvFailed(e)] + rest);
    AcceptedPrefix(done, [RecvFailed(e)] + rest);
  }

  /** The registrar cannot route the message: one BAD_REQUEST response with the
      error's text, whatever its cause, and the session returns that send's
      result. The readiness gate, processing and submission are never called. */
  lemma ChannelSupportFailure(done: seq<Received>, msg: Envelope, sc: Script, rest: seq<Received>)
    requires AllAccepted(done) && sc.channelSupport.Err?
    ensures Handle(done + [Delivered(msg, sc)] + rest) ==
            Session(Handle(done).trace +
                      [Recv, BroadcastChannelSupport(msg), Send(Response(BadRequest, sc.channelSupport.error.text))],
                    Returned(sc.send.AsError()))
  {
    MessageInSession(done, msg, sc, rest);
  }

  /** The consenter is not ready: one SERVICE_UNAVAILABLE response with the
      error's text, and the session returns that send's result. Neither
      processing nor submission is called. */
  lemma WaitReadyFailure(done: seq<Received>, msg: Envelope, sc: Script, rest: seq<Received>)
    requires AllAccepted(done) && sc.channelSupport.Ok? && sc.waitReady.Fail?
    ensures Handle(done + [Delivered(msg, sc)] + rest) ==
            Session(Handle(done).trace +
                      [Recv, BroadcastChannelSupport(msg), WaitReady,
                       Send(Response(ServiceUnavailable, sc.waitReady.error.text))],
                    Returned(sc.send.AsError()))
  {
    MessageInSession(done, msg, sc, rest);
  }

  /** A normal message fails processing: one response whose status is the
      classifier's verdict on the error, and Order is never called. */
  lemma NormalProcessingFailure(done: seq<Received>, msg: Envelope, sc: Script, rest: seq<Received>)
    requires AllAccepted(done) && sc.channelSupport.Ok? && sc.waitReady.Pass? && !sc.IsConfig()
    requires sc.processNormal.Err?
    ensures Handle(done + [Delivered(msg, sc)] + rest) ==
            Session(Handle(done).trace +
                      [Recv, BroadcastChannelSupport(msg), WaitReady, ProcessNormalMsg(msg),
                       Send(Response(ClassifyError(sc.processNormal.error), sc.processNormal.error.text))],
                    Returned(sc.send.AsError()))
  {
    MessageInSession(done, msg, sc, rest);
  }

  /** A normal message is rejected by Order, which got the message and the
      sequence number processing returned: one SERVICE_UNAVAILABLE response. */
  lemma OrderFailure(done: seq<Received>, msg: Envelope, sc: Script, rest: seq<Received>)
    requires AllAccepted(done) && sc.channelSupport.Ok? && sc.waitReady.Pass? && !sc.IsConfig()
    requires sc.processNormal.Ok? && sc.order.Fail?
    ensures Handle(done + [Delivered(msg, sc)] + rest) ==
            Session(Handle(done).trace +
                      [Recv, BroadcastChannelSupport(msg), WaitReady, ProcessNormalMsg(msg),
                       Order(msg, sc.processNormal.value),
                       Send(Response(ServiceUnavailable, sc.order.error.text))],
                    Returned(sc.send.AsError()))
  {
    MessageInSession(done, msg, sc, rest);
  }

  /** A config update fails processing: one response whose status is the
      classifier's verdict on the error, and Configure is never called. */
  lemma ConfigProcessingFailure(done: seq<Received>, msg: Envelope, sc: Script, rest: seq<Received>)
    requires AllAccepted(done) && sc.channelSupport.Ok? && sc.waitReady.Pass? && sc.IsConfig()
    requires sc.processConfigUpdate.Err?
    ensures Handle(done + [Delivered(msg, sc)] + rest) ==
            Session(Handle(done).trace +
                      [Recv, BroadcastChannelSupport(msg), WaitReady, ProcessConfigUpdateMsg(msg),
                       Send(Response(ClassifyError(sc.processConfigUpdate.error), sc.processConfigUpdate.error.text))],
                    Returned(sc.send.AsError()))
  {
    MessageInSession(done, msg, sc, rest);
  }

  /** A config update is rejected by Configure, which got the rewritten config
      and its sequence number: one SERVICE_UNAVAILABLE response. */
  lemma ConfigureFailure(done: seq<Received>, msg: Envelope, sc: Script, rest: seq<Received>)
    requires AllAccepted(done) && sc.channelSupport.Ok? && sc.waitReady.Pass? && sc.IsConfig()
    requires sc.processConfigUpdate.Ok? && sc.configure.Fail?
    ensures var update := sc.processConfigUpdate.value;
      Handle(done + [Delivered(msg, sc)] + rest) ==
      Session(Handle(done).trace +
                [Recv, BroadcastChannelSupport(msg), WaitReady, ProcessConfigUpdateMsg(msg),
                 Configure(update.config, update.configSeq),
                 Send(Response(ServiceUnavailable, sc.configure.error.text))],
              Returned(sc.send.AsError()))
  {
    MessageInSession(done, msg, sc, rest);
  }

  /** A normal message that passes every step is ordered with the sequence
      number processing returned and acknowledged with SUCCESS and empty info.
      The session then reads on, unless that send fails, in which case it
      returns the send error. Configure is never called. */
  lemma NormalAccepted(done: seq<Received>, msg: Envelope, sc: Script, rest: seq<Received>)
    requires AllAccepted(done) && sc.channelSupport.Ok? && sc.waitReady.Pass? && !sc.IsConfig()
    requires sc.processNormal.Ok? && sc.order.Pass?
    ensures var before := Handle(done).trace +
                [Recv, BroadcastChannelSupport(msg), WaitReady, ProcessNormalMsg(msg),
                 Order(msg, sc.processNormal.value), Send(Response(Success, ""))];
            var s := Handle(done + [Delivered(msg, sc)] + rest);
      && (sc.send.Pass? ==> s == Session(before + Handle(rest).trace, Handle(rest).ending))
      && (sc.send.Fail? ==> s == Session(before, Returned(Some(sc.send.error))))
  {
    assert Iteration(msg, sc) ==
      [Recv, BroadcastChannelSupport(msg), WaitReady, ProcessNormalMsg(msg),
       Order(msg, sc.processNormal.value), Send(Response(Success, ""))];
    assert Continues(Delivered(msg, sc)) <==> sc.send.Pass?;
    MessageInSession(done, msg, sc, rest);
  }

  /** A config update that passes every step is submitted as the rewritten
      config, never as the received message, with the sequence number its
      processing returned, and acknowledged with SUCCESS and empty info. Order
      is never called. */
  lemma ConfigAccepted(done: seq<Received>, msg: Envelope, sc: Script, rest: seq<Received>)
    requires AllAccepted(done) && sc.channelSupport.Ok? && sc.waitReady.Pass? && sc.IsConfig()
    requires sc.processConfigUpdate.Ok? && sc.configure.Pass?
    ensures var update := sc.processConfigUpdate.value;
            var before := Handle(done).trace +
                [Recv, BroadcastChannelSupport(msg), WaitReady, ProcessConfigUpdateMsg(msg),
                 Configure(update.config, update.configSeq), Send(Response(Success, ""))];
            var s := Handle(done + [Delivered(msg, sc)] + rest);
      && (sc.send.Pass? ==> s == Session(before + Handle(rest).trace, Handle(rest).ending))
      && (sc.send.Fail? ==> s == Session(before, Returned(Some(sc.send.error))))
  {
    var update := sc.processConfigUpdate.value;
    assert Iteration(msg, sc) ==
      [Recv, BroadcastChannelSupport(msg), WaitReady, ProcessConfigUpdateMsg(msg),
       Configure(update.config, update.configSeq), Send(Response(Success, ""))];
    assert Continues(Delivered(msg, sc)) <==> sc.send.Pass?;
    MessageInSession(done, msg, sc, rest);
  }
}
