/** The broadcast handler: one client connection's receive / route / wait /
    process / submit / acknowledge loop, over scripted collaborator outcomes. */
module Broadcast {
  import opened Wire
  import opened Collaborators
  import opened Taxonomy

  /** Serving one received envelope: the collaborator calls made, in order, and
      the one response sent for it. */
  datatype Turn = Turn(calls: seq<Call>, reply: Response)

  /** The arguments a call made while serving `msg` must carry: the received
      message itself, except that Order gets the sequence number normal
      processing returned and Configure gets the rewritten config and the
      sequence number config-update processing returned. Normal processing and
      Order belong to normal messages only, and config-update processing and
      Configure to config updates only. */
  predicate PassedOn(msg: Envelope, sc: Script, c: Call) {
    match c
    case Recv => true
    case Send(_) => true
    case WaitReady => true
    case BroadcastChannelSupport(m) => m == msg
    case ProcessNormalMsg(m) => m == msg && !sc.IsConfig()
    case Order(env, configSeq) => env == msg && !sc.IsConfig() && sc.processNormal == Ok(configSeq)
    case ProcessConfigUpdateMsg(m) => m == msg && sc.IsConfig()
    case Configure(config, configSeq) =>
      sc.IsConfig() && sc.processConfigUpdate == Ok(ConfigUpdate(config, configSeq))
  }

  /** One iteration of the loop after a successful receive. It routes the
      message, waits on the readiness gate, then either processes it as a normal
      message and orders it, or processes it as a config update and submits the
      rewritten config. The first failing step ends the iteration with a
      rejection; otherwise the reply is SUCCESS with empty info. */
  function Serve(msg: Envelope, sc: Script): (t: Turn)
    // the reply is decided by the first failing stage alone
    ensures FirstFailure(sc).None? ==> t.reply == Response(Success, "")
    ensures FirstFailure(sc).Some? ==> t.reply == Rejection(FirstFailure(sc).value)
    // one call per stage, in stage order, stopping at the failing stage
    ensures FirstFailure(sc).None? ==> |t.calls| == |Pipeline|
    ensures FirstFailure(sc).Some? ==> |t.calls| == Rank(FirstFailure(sc).value.stage) + 1
    ensures forall i :: 0 <= i < |t.calls| ==> StageOf(t.calls[i]) == Some(Pipeline[i])
    // each call gets the arguments the handler passes
    ensures forall i :: 0 <= i < |t.calls| ==> PassedOn(msg, sc, t.calls[i])
  {
    match sc.channelSupport
    case Err(e) => Turn([BroadcastChannelSupport(msg)], Response(BadRequest, e.text))
    case Ok(route) =>
      match sc.waitReady
      case Fail(e) => Turn([BroadcastChannelSupport(msg), WaitReady], Response(ServiceUnavailable, e.text))
      case Pass =>
        if !route.isConfig then
          match sc.processNormal
          case Err(e) =>
            Turn([BroadcastChannelSupport(msg), WaitReady, ProcessNormalMsg(msg)],
                 Response(ClassifyError(e), e.text))
          case Ok(configSeq) =>
            var calls := [BroadcastChannelSupport(msg), WaitReady, ProcessNormalMsg(msg), Order(msg, configSeq)];
            match sc.order
            case Fail(e) => Turn(calls, Response(ServiceUnavailable, e.text))
            case Pass => Turn(calls, Response(Success, ""))
        else
          match sc.processConfigUpdate
          case Err(e) =>
            Turn([BroadcastChannelSupport(msg), WaitReady, ProcessConfigUpdateMsg(msg)],
                 Response(ClassifyError(e), e.text))
          case Ok(update) =>
            var calls := [BroadcastChannelSupport(msg), WaitReady, ProcessConfigUpdateMsg(msg),
                          Configure(update.config, update.configSeq)];
            match sc.configure
            case Fail(e) => Turn(calls, Response(ServiceUnavailable, e.text))
            case Pass => Turn(calls, Response(Success, ""))
  }

  /** How a session ends: the handler returns (nil or an error), or the input
      ran out while the loop waits in its next receive. */
  datatype Ending = Returned(err: Option<Error>) | AwaitingRecv

  /** A session: every call made, in order, and how it ended. */
  datatype Session = Session(trace: seq<Call>, ending: Ending)

  /** A received item after which the loop goes round again: a delivered message
      that passes every stage and whose SUCCESS response is sent without error. */
  predicate Continues(r: Received) {
    r.Delivered? && FirstFailure(r.script).None? && r.script.send.Pass?
  }

  /** The value the handler returns when `r` is the item that ends the session:
      nil on end of stream, the receive error, or the result of the last send. */
  function ReturnValue(r: Received): Option<Error> {
    match r
    case Eof => None
    case RecvFailed(e) => Some(e)
    case Delivered(_, sc) => sc.send.AsError()
  }

  /** The position of the first received item that ends the session, or the
      input's length when none does. */
  function StopIndex(inputs: seq<Received>): (k: nat)
    ensures k <= |inputs|
    ensures forall i :: 0 <= i < k ==> Continues(inputs[i])
    ensures k < |inputs| ==> !Continues(inputs[k])
  {
    if |inputs| == 0 then 0
    else if Continues(inputs[0]) then 1 + StopIndex(inputs[1..])
    else 0
  }

  /** How many items the session reads: up to and including the one that ends it. */
  function Consumed(inputs: seq<Received>): nat {
    if StopIndex(inputs) < |inputs| then StopIndex(inputs) + 1 else |inputs|
  }

  /** The delivered envelopes, in receipt order. */
  function Envelopes(inputs: seq<Received>): seq<Envelope> {
    if |inputs| == 0 then []
    else (if inputs[0].Delivered? then [inputs[0].msg] else []) + Envelopes(inputs[1..])
  }

  /** The envelopes handed to the registrar, in call order. */
  function Routed(trace: seq<Call>): seq<Envelope> {
    if |trace| == 0 then []
    else (if trace[0].BroadcastChannelSupport? then [trace[0].msg] else []) + Routed(trace[1..])
  }

  /** The responses sent, in order. */
  function Replies(trace: seq<Call>): seq<Response> {
    if |trace| == 0 then []
    else (if trace[0].Send? then [trace[0].response] else []) + Replies(trace[1..])
  }

  /** The number of receives made. */
  function Receives(trace: seq<Call>): nat {
    if |trace| == 0 then 0
    else (if trace[0].Recv? then 1 else 0) + Receives(trace[1..])
  }

  /** The calls of one loop iteration that received `msg`, including the receive
      and the one send. */
  function Iteration(msg: Envelope, sc: Script): seq<Call> {
    var t := Serve(msg, sc);
    [Recv] + t.calls + [Send(t.reply)]
  }

  /** The session loop. Each iteration receives; end of stream returns nil and
      any other receive error is returned as is, with no response. A received
      message is served; its rejection is sent and the session returns that
      send's result. A SUCCESS reply whose send fails returns the send error;
      otherwise the loop reads the next item. What a session does is stated by
      HandleCons and HandleShape below, and against the call-order automaton by
      Protocol.HandleIsLegal and Protocol.LegalExactly. */
  function Handle(inputs: seq<Received>): Session
    decreases |inputs|
  {
    if |inputs| == 0 then Session([], AwaitingRecv)
    else
      match inputs[0]
      case Eof => Session([Recv], Returned(None))
      case RecvFailed(e) => Session([Recv], Returned(Some(e)))
      case Delivered(msg, sc) =>
        var turn := Iteration(msg, sc);
        if Continues(inputs[0]) then
          var rest := Handle(inputs[1..]);
          Session(turn + rest.trace, rest.ending)
        else
          Session(turn, Returned(sc.send.AsError()))
  }

  /** What a session does, in terms of its input alone: how it ends is decided by
      the first item that does not continue it; the items read are a prefix of
      the input and each delivered one is routed, in order; there is exactly one
      response per routed envelope; and a rejection is the session's last call. */
  ghost predicate SessionSpec(inputs: seq<Received>, s: Session) {
    && (StopIndex(inputs) == |inputs| ==> s.ending == AwaitingRecv)
    && (StopIndex(inputs) < |inputs| ==> s.ending == Returned(ReturnValue(inputs[StopIndex(inputs)])))
    && Receives(s.trace) == Consumed(inputs)
    && Routed(s.trace) == Envelopes(inputs[..Consumed(inputs)])
    && |Replies(s.trace)| == |Routed(s.trace)|
    && forall i :: 0 <= i < |s.trace| && s.trace[i].Send? && s.trace[i].response.status != Success ==>
         i == |s.trace| - 1
  }

  /** Every session meets SessionSpec. */
  lemma {:induction false} HandleShape(inputs: seq<Received>)
    ensures SessionSpec(inputs, Handle(inputs))
    decreases |inputs|
  {
    if |inputs| > 0 {
      var r := inputs[0];
      assert inputs == [r] + inputs[1..];
      HandleCons(r, inputs[1..]);
      if Continues(r) {
        HandleShape(inputs[1..]);
        LoopCase(inputs, Handle(inputs[1..]));
      } else {
        StopCase(inputs, if r.Delivered? then Iteration(r.msg, r.script) else [Recv]);
      }
    }
  }

  /** One step of the loop: a session that starts with item `r`. */
  lemma HandleCons(r: Received, rest: seq<Received>)
    ensures Handle([r] + rest) ==
            if Continues(r) then Session(Iteration(r.msg, r.script) + Handle(rest).trace, Handle(rest).ending)
            else Session(if r.Delivered? then Iteration(r.msg, r.script) else [Recv], Returned(ReturnValue(r)))
  {
    assert ([r] + rest)[0] == r;
    assert ([r] + rest)[1..] == rest;
    if r.Delivered? {
      ContinuesOnSuccess(r.msg, r.script);
    }
  }

  /** The loop goes round again exactly when the reply is SUCCESS and its send succeeds. */
  lemma ContinuesOnSuccess(msg: Envelope, sc: Script)
    ensures Continues(Delivered(msg, sc)) <==> Serve(msg, sc).reply.status == Success && sc.send.Pass?
  {
  }

  /** A session whose first item ends it: the calls of that one iteration and its return value. */
  lemma {:induction false} StopCase(inputs: seq<Received>, trace: seq<Call>)
    requires |inputs| > 0 && !Continues(inputs[0])
    requires trace == if inputs[0].Delivered? then Iteration(inputs[0].msg, inputs[0].script) else [Recv]
    ensures SessionSpec(inputs, Session(trace, Returned(ReturnValue(inputs[0]))))
  {
    assert StopIndex(inputs) == 0;
    assert inputs[..Consumed(inputs)] == [inputs[0]];
    assert Envelopes([inputs[0]]) == (if inputs[0].Delivered? then [inputs[0].msg] else []) + Envelopes([]);
    if inputs[0].Delivered? {
      IterationShape(inputs[0].msg, inputs[0].script);
    } else {
      SingletonCounts(Recv);
    }
  }

  /** A session whose first item continues it: that iteration's calls, then the rest. */
  lemma {:induction false} LoopCase(inputs: seq<Received>, rest: Session)
    requires |inputs| > 0 && Continues(inputs[0])
    requires SessionSpec(inputs[1..], rest)
    ensures SessionSpec(inputs, Session(Iteration(inputs[0].msg, inputs[0].script) + rest.trace, rest.ending))
  {
    var turn := Iteration(inputs[0].msg, inputs[0].script);
    var trace := turn + rest.trace;
    IterationShape(inputs[0].msg, inputs[0].script);
    ConcatCounts(turn, rest.trace);
    assert StopIndex(inputs) == 1 + StopIndex(inputs[1..]);
    assert Consumed(inputs) == 1 + Consumed(inputs[1..]);
    assert inputs[..Consumed(inputs)] == [inputs[0]] + inputs[1..][..Consumed(inputs[1..])];
    EnvelopesConcat([inputs[0]], inputs[1..][..Consumed(inputs[1..])]);
    assert Envelopes([inputs[0]]) == [inputs[0].msg] + Envelopes([]);
    // the iteration's only send is its SUCCESS reply, so a rejection can only come from the rest
    assert Serve(inputs[0].msg, inputs[0].script).reply.status == Success;
    assert forall i :: 0 <= i < |turn| ==> trace[i] == turn[i];
    assert forall i :: |turn| <= i < |trace| ==> trace[i] == rest.trace[i - |turn|];
  }

  /** An iteration receives once, routes its message once, and sends once: the
      reply, last. */
  lemma {:induction false} IterationShape(msg: Envelope, sc: Script)
    ensures var it := Iteration(msg, sc);
      && Receives(it) == 1
      && Routed(it) == [msg]
      && Replies(it) == [Serve(msg, sc).reply]
      && it[|it| - 1] == Send(Serve(msg, sc).reply)
      && forall i :: 0 <= i < |it| - 1 ==> !it[i].Send?
  {
    var t := Serve(msg, sc);
    CallsCounts(t.calls, msg);
    FramedCounts(t.calls, msg, t.reply);
  }

  /** A receive, then calls that route `msg` once and neither receive nor send,
      then one send. */
  lemma {:induction false} FramedCounts(calls: seq<Call>, msg: Envelope, reply: Response)
    requires Receives(calls) == 0 && Routed(calls) == [msg] && Replies(calls) == []
    requires forall i :: 0 <= i < |calls| ==> !calls[i].Send?
    ensures var it := [Recv] + calls + [Send(reply)];
      && Receives(it) == 1
      && Routed(it) == [msg]
      && Replies(it) == [reply]
      && it[|it| - 1] == Send(reply)
      && forall i :: 0 <= i < |it| - 1 ==> !it[i].Send?
  {
    var it := [Recv] + calls + [Send(reply)];
    SingletonCounts(Recv);
    SingletonCounts(Send(reply));
    ConcatCounts([Recv], calls);
    ConcatCounts([Recv] + calls, [Send(reply)]);
    assert forall i :: 0 < i < |it| - 1 ==> it[i] == calls[i - 1];
  }

  lemma {:induction false} SingletonCounts(c: Call)
    ensures Receives([c]) == (if c.Recv? then 1 else 0)
    ensures Routed([c]) == (if c.BroadcastChannelSupport? then [c.msg] else [])
    ensures Replies([c]) == (if c.Send? then [c.response] else [])
  {
    assert [c][1..] == [];
  }

  /** Calls that follow the stage sequence, the first routing `msg`, route it
      once and neither receive nor send. */
  lemma {:induction false} CallsCounts(calls: seq<Call>, msg: Envelope)
    requires 1 <= |calls| <= |Pipeline| && calls[0] == BroadcastChannelSupport(msg)
    requires forall i :: 0 <= i < |calls| ==> StageOf(calls[i]) == Some(Pipeline[i])
    ensures Receives(calls) == 0 && Routed(calls) == [msg] && Replies(calls) == []
    ensures forall i :: 0 <= i < |calls| ==> !calls[i].Send?
  {
    assert forall i :: 1 <= i < |calls| ==> Pipeline[i] != ChannelLookup;
    NoneCounted(calls[1..]);
    assert calls == [calls[0]] + calls[1..];
    SingletonCounts(calls[0]);
    ConcatCounts([calls[0]], calls[1..]);
  }

  lemma {:induction false} NoneCounted(cs: seq<Call>)
    requires forall i :: 0 <= i < |cs| ==> !cs[i].BroadcastChannelSupport? && !cs[i].Recv? && !cs[i].Send?
    ensures Receives(cs) == 0 && Routed(cs) == [] && Replies(cs) == []
    decreases |cs|
  {
    if |cs| > 0 {
      NoneCounted(cs[1..]);
    }
  }

  /** The counting views of a trace distribute over concatenation. */
  lemma ConcatCounts(a: seq<Call>, b: seq<Call>)
    ensures Receives(a + b) == Receives(a) + Receives(b)
    ensures Routed(a + b) == Routed(a) + Routed(b)
    ensures Replies(a + b) == Replies(a) + Replies(b)
  {
    ReceivesConcat(a, b);
    RoutedConcat(a, b);
    RepliesConcat(a, b);
  }

  lemma {:induction false} ReceivesConcat(a: seq<Call>, b: seq<Call>)
    ensures Receives(a + b) == Receives(a) + Receives(b)
    decreases |a|
  {
    if |a| == 0 {
      assert a + b == b;
    } else {
      assert (a + b)[0] == a[0];
      assert (a + b)[1..] == a[1..] + b;
      ReceivesConcat(a[1..], b);
    }
  }

  lemma {:induction false} RoutedConcat(a: seq<Call>, b: seq<Call>)
    ensures Routed(a + b) == Routed(a) + Routed(b)
    decreases |a|
  {
    if |a| == 0 {
      assert a + b == b;
    } else {
      assert (a + b)[0] == a[0];
      assert (a + b)[1..] == a[1..] + b;
      RoutedConcat(a[1..], b);
    }
  }

  lemma {:induction false} RepliesConcat(a: seq<Call>, b: seq<Call>)
    ensures Replies(a + b) == Replies(a) + Replies(b)
    decreases |a|
  {
    if |a| == 0 {
      assert a + b == b;
    } else {
      assert (a + b)[0] == a[0];
      assert (a + b)[1..] == a[1..] + b;
      RepliesConcat(a[1..], b);
    }
  }

  lemma {:induction false} EnvelopesConcat(a: seq<Received>, b: seq<Received>)
    ensures Envelopes(a + b) == Envelopes(a) + Envelopes(b)
    decreases |a|
  {
    if |a| == 0 {
      assert a + b == b;
    } else {
      assert (a + b)[0] == a[0];
      assert (a + b)[1..] == a[1..] + b;
      EnvelopesConcat(a[1..], b);
    }
  }
}
