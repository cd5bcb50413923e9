/** The broadcast protocol as an automaton over calls, written independently of
    the handler: which call may follow which, and with which arguments and
    statuses. It accepts exactly the traces of the handler's sessions. */
module Protocol {
  import opened Wire
  import opened Collaborators
  import opened Taxonomy
  import opened Broadcast

  /** Where a session stands between two calls. */
  datatype Phase =
    | Idle                          // about to receive
    | Receiving                     // a receive was made
    | LookedUp(msg: Envelope)       // `msg` was handed to the registrar
    | Gated(msg: Envelope)          // the readiness gate was waited on for `msg`
    | ValidatedNormal(msg: Envelope) // `msg` was processed as a normal message
    | ValidatedConfig               // a config update was processed
    | Submitted                     // the message was ordered or configured
    | Closed                        // a rejection was sent; nothing may follow

  /** The phase after call `c`, or None when `c` may not be made in phase `p`. */
  function Step(p: Phase, c: Call): Option<Phase> {
    match p
    case Idle => if c.Recv? then Some(Receiving) else None
    case Receiving => if c.BroadcastChannelSupport? then Some(LookedUp(c.msg)) else None
    case LookedUp(m) =>
      if c == WaitReady then Some(Gated(m))
      else if c.Send? && c.response.status == BadRequest then Some(Closed)
      else None
    case Gated(m) =>
      if c == ProcessNormalMsg(m) then Some(ValidatedNormal(m))
      else if c == ProcessConfigUpdateMsg(m) then Some(ValidatedConfig)
      else if c.Send? && c.response.status == ServiceUnavailable then Some(Closed)
      else None
    case ValidatedNormal(m) =>
      if c.Order? && c.env == m then Some(Submitted)
      else if c.Send? && IsValidationStatus(c.response.status) then Some(Closed)
      else None
    case ValidatedConfig =>
      if c.Configure? then Some(Submitted)
      else if c.Send? && IsValidationStatus(c.response.status) then Some(Closed)
      else None
    case Submitted =>
      if c == Send(Response(Success, "")) then Some(Idle)
      else if c.Send? && c.response.status == ServiceUnavailable then Some(Closed)
      else None
    case Closed => None
  }

  /** The phase after a whole trace, or None when some call is out of place. */
  function Run(p: Phase, trace: seq<Call>): Option<Phase>
    decreases |trace|
  {
    if |trace| == 0 then Some(p)
    else
      match Step(p, trace[0])
      case None => None
      case Some(q) => Run(q, trace[1..])
  }

  /** The phases a session may end in: between iterations, after a receive that
      returned no message, or after a rejection. */
  predicate Resting(p: Phase) {
    p == Idle || p == Receiving || p == Closed
  }

  /** A trace the protocol allows as a whole session. */
  predicate Legal(trace: seq<Call>) {
    var r := Run(Idle, trace);
    r.Some? && Resting(r.value)
  }

  lemma {:induction false} RunConcat(p: Phase, a: seq<Call>, b: seq<Call>)
    ensures Run(p, a + b) == if Run(p, a).None? then None else Run(Run(p, a).value, b)
    decreases |a|
  {
    if |a| == 0 {
      assert a + b == b;
    } else {
      assert (a + b)[0] == a[0];
      assert (a + b)[1..] == a[1..] + b;
      match Step(p, a[0])
      case None =>
      case Some(q) => RunConcat(q, a[1..], b);
    }
  }

  lemma RunCons(p: Phase, trace: seq<Call>)
    requires |trace| > 0 && Step(p, trace[0]).Some?
    ensures Run(p, trace) == Run(Step(p, trace[0]).value, trace[1..])
  {
  }

  /** One loop iteration takes the protocol from Idle back to Idle when its reply
      is SUCCESS, and to Closed when it is a rejection. */
  lemma IterationLegal(msg: Envelope, sc: Script)
    ensures Run(Idle, Iteration(msg, sc)) ==
            Some(if Serve(msg, sc).reply.status == Success then Idle else Closed)
  {
    if sc.channelSupport.Err? || sc.waitReady.Fail? {
      GateLegal(msg, sc);
    } else if sc.IsConfig() {
      ConfigLegal(msg, sc);
    } else {
      NormalLegal(msg, sc);
    }
  }

  lemma GateLegal(msg: Envelope, sc: Script)
    requires sc.channelSupport.Err? || sc.waitReady.Fail?
    ensures Run(Idle, Iteration(msg, sc)) == Some(Closed)
  {
    var reply := Serve(msg, sc).reply;
    if sc.channelSupport.Err? {
      assert Iteration(msg, sc) == [Recv, BroadcastChannelSupport(msg), Send(reply)];
      RunCons(LookedUp(msg), [Send(reply)]);
      RunCons(Receiving, [BroadcastChannelSupport(msg), Send(reply)]);
      RunCons(Idle, [Recv, BroadcastChannelSupport(msg), Send(reply)]);
    } else {
      assert Iteration(msg, sc) == [Recv, BroadcastChannelSupport(msg), WaitReady, Send(reply)];
      RunCons(Gated(msg), [Send(reply)]);
      RunCons(LookedUp(msg), [WaitReady, Send(reply)]);
      RunCons(Receiving, [BroadcastChannelSupport(msg), WaitReady, Send(reply)]);
      RunCons(Idle, [Recv, BroadcastChannelSupport(msg), WaitReady, Send(reply)]);
    }
  }

  /** The calls up to the readiness gate, once the gate has passed. */
  lemma GatePassed(msg: Envelope, rest: seq<Call>)
    requires |rest| > 0 && Step(Gated(msg), rest[0]).Some?
    ensures Run(Idle, [Recv, BroadcastChannelSupport(msg), WaitReady] + rest) == Run(Gated(msg), rest)
  {
    var it := [Recv, BroadcastChannelSupport(msg), WaitReady] + rest;
    RunCons(Idle, it);
    assert it[1..] == [BroadcastChannelSupport(msg), WaitReady] + rest;
    RunCons(Receiving, it[1..]);
    assert it[2..] == [WaitReady] + rest;
    RunCons(LookedUp(msg), it[2..]);
    assert it[3..] == rest;
  }

  lemma NormalLegal(msg: Envelope, sc: Script)
    requires sc.channelSupport.Ok? && sc.waitReady.Pass? && !sc.IsConfig()
    ensures Run(Idle, Iteration(msg, sc)) ==
            Some(if Serve(msg, sc).reply.status == Success then Idle else Closed)
  {
    var reply := Serve(msg, sc).reply;
    if sc.processNormal.Err? {
      var rest := [ProcessNormalMsg(msg), Send(reply)];
      assert Iteration(msg, sc) == [Recv, BroadcastChannelSupport(msg), WaitReady] + rest;
      GatePassed(msg, rest);
      RunCons(Gated(msg), rest);
      RunCons(ValidatedNormal(msg), rest[1..]);
    } else {
      var order := Order(msg, sc.processNormal.value);
      var rest := [ProcessNormalMsg(msg), order, Send(reply)];
      assert Iteration(msg, sc) == [Recv, BroadcastChannelSupport(msg), WaitReady] + rest;
      GatePassed(msg, rest);
      RunCons(Gated(msg), rest);
      RunCons(ValidatedNormal(msg), rest[1..]);
      RunCons(Submitted, rest[2..]);
    }
  }

  lemma ConfigLegal(msg: Envelope, sc: Script)
    requires sc.channelSupport.Ok? && sc.waitReady.Pass? && sc.IsConfig()
    ensures Run(Idle, Iteration(msg, sc)) ==
            Some(if Serve(msg, sc).reply.status == Success then Idle else Closed)
  {
    var reply := Serve(msg, sc).reply;
    if sc.processConfigUpdate.Err? {
      var rest := [ProcessConfigUpdateMsg(msg), Send(reply)];
      assert Iteration(msg, sc) == [Recv, BroadcastChannelSupport(msg), WaitReady] + rest;
      GatePassed(msg, rest);
      RunCons(Gated(msg), rest);
      RunCons(ValidatedConfig, rest[1..]);
    } else {
      var update := sc.processConfigUpdate.value;
      var configure := Configure(update.config, update.configSeq);
      var rest := [ProcessConfigUpdateMsg(msg), configure, Send(reply)];
      assert Iteration(msg, sc) == [Recv, BroadcastChannelSupport(msg), WaitReady] + rest;
      GatePassed(msg, rest);
      RunCons(Gated(msg), rest);
      RunCons(ValidatedConfig, rest[1..]);
      RunCons(Submitted, rest[2..]);
    }
  }

  /** Every session the handler produces is a legal protocol trace, and a session
      still waiting for input stands between iterations. */
  lemma {:induction false} HandleIsLegal(inputs: seq<Received>)
    ensures Legal(Handle(inputs).trace)
    ensures Handle(inputs).ending.AwaitingRecv? ==> Run(Idle, Handle(inputs).trace) == Some(Idle)
    decreases |inputs|
  {
    if |inputs| > 0 {
      match inputs[0]
      case Eof =>
      case RecvFailed(_) =>
      case Delivered(msg, sc) =>
        IterationLegal(msg, sc);
        if Serve(msg, sc).reply.status == Success && sc.send.Pass? {
          HandleIsLegal(inputs[1..]);
          RunConcat(Idle, Iteration(msg, sc), Handle(inputs[1..]).trace);
        }
    }
  }

  /* ---------------------------------------------------------------------------
     The converse: every legal trace is the trace of some session. Together with
     HandleIsLegal this makes the automaton an exact description of the handler.
     --------------------------------------------------------------------------- */

  /** Where the send of the iteration at the start of `trace` sits, for a trace
      that starts with a receive and a routing call: a legal iteration makes
      between one and four collaborator calls before its send. */
  function SendIndex(trace: seq<Call>): nat {
    if |trace| > 2 && trace[2].Send? then 2
    else if |trace| > 3 && trace[3].Send? then 3
    else if |trace| > 4 && trace[4].Send? then 4
    else 5
  }

  /** A script under which the handler makes exactly the calls of `seg` (an
      iteration's calls after its receive, ending with its send): the stage that
      comes last fails with the reply's text, or nothing fails on SUCCESS. */
  function ScriptFor(seg: seq<Call>): Script {
    var reply := if |seg| > 0 && seg[|seg| - 1].Send? then seg[|seg| - 1].response else Response(BadRequest, "");
    var failure := Error(Other, reply.info);
    var rejected := Error(CauseOf(reply.status), reply.info);
    var isConfig := |seg| >= 4 && seg[2].ProcessConfigUpdateMsg?;
    var submitted := if reply.status == Success then Pass else Fail(failure);
    Script(
      if |seg| <= 2 then Err(failure) else Ok(Resolution(ChannelHeader("", ""), isConfig)),
      if |seg| == 3 then Fail(failure) else Pass,
      if |seg| >= 5 && seg[3].Order? then Ok(seg[3].configSeq) else Err(rejected),
      if |seg| >= 5 && seg[3].Configure? then Ok(ConfigUpdate(seg[3].config, seg[3].configSeq)) else Err(rejected),
      submitted,
      submitted,
      Pass)
  }

  /** Inputs that make the handler produce `trace`, when `trace` is legal: one
      delivered message per iteration, and end of stream after a bare receive. */
  function Witness(trace: seq<Call>): seq<Received>
    decreases |trace|
  {
    if |trace| == 0 then []
    else if |trace| == 1 || !trace[1].BroadcastChannelSupport? || SendIndex(trace) >= |trace| then [Eof]
    else
      var k := SendIndex(trace);
      [Delivered(trace[1].msg, ScriptFor(trace[1..k + 1]))] + Witness(trace[k + 1..])
  }

  /** A trace the automaton runs to the end takes a step at its first call. */
  lemma RunFirst(p: Phase, trace: seq<Call>)
    requires |trace| > 0 && Run(p, trace).Some?
    ensures Step(p, trace[0]).Some? && Run(p, trace) == Run(Step(p, trace[0]).value, trace[1..])
  {
  }

  /** A legal trace longer than a bare receive starts with one whole iteration,
      which the handler makes under the script read off that iteration. */
  lemma ParseIteration(trace: seq<Call>)
    requires |trace| >= 2 && Legal(trace)
    ensures trace[1].BroadcastChannelSupport? && SendIndex(trace) < |trace|
    ensures var k := SendIndex(trace);
      trace[..k + 1] == Iteration(trace[1].msg, ScriptFor(trace[1..k + 1]))
  {
    RunFirst(Idle, trace);
    RunFirst(Receiving, trace[1..]);
    var m := trace[1].msg;
    assert Run(Idle, trace) == Run(LookedUp(m), trace[2..]);
    assert |trace| > 2;
    RunFirst(LookedUp(m), trace[2..]);
    if trace[2].Send? {
      ParseRejectedAt(trace, 2);
    } else {
      assert trace[2] == WaitReady;
      assert Run(Idle, trace) == Run(Gated(m), trace[3..]);
      assert |trace| > 3;
      RunFirst(Gated(m), trace[3..]);
      if trace[3].Send? {
        ParseRejectedAt(trace, 3);
      } else {
        ParseValidated(trace, m);
      }
    }
  }

  /** The iteration sends a rejection at position k, 2 or 3, before any processing. */
  lemma ParseRejectedAt(trace: seq<Call>, k: nat)
    requires k == 2 || k == 3
    requires k < |trace| && trace[0] == Recv && trace[1].BroadcastChannelSupport? && trace[k].Send?
    requires k == 3 ==> trace[2] == WaitReady
    requires k == 2 ==> trace[2].response.status == BadRequest
    requires k == 3 ==> trace[3].response.status == ServiceUnavailable
    ensures SendIndex(trace) == k
    ensures trace[..k + 1] == Iteration(trace[1].msg, ScriptFor(trace[1..k + 1]))
  {
    var m := trace[1].msg;
    var r := trace[k].response;
    if k == 2 {
      assert trace[..3] == [Recv, BroadcastChannelSupport(m), Send(r)];
    } else {
      assert trace[..4] == [Recv, BroadcastChannelSupport(m), WaitReady, Send(r)];
    }
  }

  /** The iteration passed the gate: it processed the message and then either
      sent a classified rejection or submitted it and sent the last reply. */
  lemma ParseValidated(trace: seq<Call>, m: Envelope)
    requires |trace| > 3 && trace[0] == Recv && trace[1] == BroadcastChannelSupport(m) && trace[2] == WaitReady
    requires Legal(trace) && Run(Idle, trace) == Run(Gated(m), trace[3..])
    requires Step(Gated(m), trace[3]).Some? && !trace[3].Send?
    ensures SendIndex(trace) < |trace|
    ensures var k := SendIndex(trace);
      trace[..k + 1] == Iteration(m, ScriptFor(trace[1..k + 1]))
  {
    RunFirst(Gated(m), trace[3..]);
    var v := Step(Gated(m), trace[3]).value;
    assert Run(Idle, trace) == Run(v, trace[4..]);
    assert |trace| > 4;
    RunFirst(v, trace[4..]);
    if trace[4].Send? {
      ParseProcessingRejected(trace, m);
    } else {
      assert Run(Idle, trace) == Run(Submitted, trace[5..]);
      assert |trace| > 5;
      RunFirst(Submitted, trace[5..]);
      ParseSubmitted(trace, m);
    }
  }

  /** Processing failed: the reply at position 4 carries a classifier status. */
  lemma ParseProcessingRejected(trace: seq<Call>, m: Envelope)
    requires |trace| > 4 && trace[0] == Recv && trace[1] == BroadcastChannelSupport(m) && trace[2] == WaitReady
    requires trace[3] == ProcessNormalMsg(m) || trace[3] == ProcessConfigUpdateMsg(m)
    requires trace[4].Send? && IsValidationStatus(trace[4].response.status)
    ensures SendIndex(trace) == 4
    ensures trace[..5] == Iteration(m, ScriptFor(trace[1..5]))
  {
    var r := trace[4].response;
    var sc := ScriptFor(trace[1..5]);
    assert trace[1..5] == [BroadcastChannelSupport(m), WaitReady, trace[3], Send(r)];
    assert ClassifyError(Error(CauseOf(r.status), r.info)) == r.status;
    if trace[3].ProcessConfigUpdateMsg? {
      assert sc.IsConfig() && sc.processConfigUpdate == Err(Error(CauseOf(r.status), r.info));
    } else {
      assert !sc.IsConfig() && sc.processNormal == Err(Error(CauseOf(r.status), r.info));
    }
    assert Serve(m, sc).calls == [BroadcastChannelSupport(m), WaitReady, trace[3]];
    assert trace[..5] == [Recv, BroadcastChannelSupport(m), WaitReady, trace[3], Send(r)];
  }

  /** The message was submitted: Order after normal processing or Configure after
      config processing, then a SUCCESS acknowledgement or SERVICE_UNAVAILABLE. */
  lemma ParseSubmitted(trace: seq<Call>, m: Envelope)
    requires |trace| > 5 && trace[0] == Recv && trace[1] == BroadcastChannelSupport(m) && trace[2] == WaitReady
    requires (trace[3] == ProcessNormalMsg(m) && trace[4].Order? && trace[4].env == m)
          || (trace[3] == ProcessConfigUpdateMsg(m) && trace[4].Configure?)
    requires trace[5].Send?
    requires trace[5].response == Response(Success, "") || trace[5].response.status == ServiceUnavailable
    ensures SendIndex(trace) == 5
    ensures trace[..6] == Iteration(m, ScriptFor(trace[1..6]))
  {
    var r := trace[5].response;
    var sc := ScriptFor(trace[1..6]);
    assert trace[1..6] == [BroadcastChannelSupport(m), WaitReady, trace[3], trace[4], Send(r)];
    var submitted := if r.status == Success then Pass else Fail(Error(Other, r.info));
    if trace[3].ProcessConfigUpdateMsg? {
      assert sc.IsConfig() && sc.configure == submitted;
      assert sc.processConfigUpdate == Ok(ConfigUpdate(trace[4].config, trace[4].configSeq));
    } else {
      assert !sc.IsConfig() && sc.order == submitted && sc.processNormal == Ok(trace[4].configSeq);
    }
    assert Serve(m, sc) == Turn([BroadcastChannelSupport(m), WaitReady, trace[3], trace[4]], r);
    assert trace[..6] == [Recv, BroadcastChannelSupport(m), WaitReady, trace[3], trace[4], Send(r)];
  }

  /** The witness of a legal trace starts with the message of its first
      iteration, under the script read off that iteration. */
  lemma WitnessHead(trace: seq<Call>)
    requires |trace| >= 2 && Legal(trace)
    ensures trace[1].BroadcastChannelSupport? && SendIndex(trace) < |trace|
    ensures var k := SendIndex(trace);
            var sc := ScriptFor(trace[1..k + 1]);
      && Witness(trace) == [Delivered(trace[1].msg, sc)] + Witness(trace[k + 1..])
      && trace[..k + 1] == Iteration(trace[1].msg, sc)
      && sc.send.Pass?
  {
    ParseIteration(trace);
  }

  /** An iteration whose send succeeds leaves the automaton idle exactly when the
      loop goes round again, and closed otherwise. */
  lemma IterationOutcome(r: Received)
    requires r.Delivered? && r.script.send.Pass?
    ensures Run(Idle, Iteration(r.msg, r.script)) == Some(if Continues(r) then Idle else Closed)
  {
    IterationLegal(r.msg, r.script);
    ContinuesOnSuccess(r.msg, r.script);
  }

  /** A legal trace that starts with the iteration of `r` goes on legally after it
      when the loop goes round again, and stops there otherwise; the session on
      `r` followed by more input makes that iteration's calls, then those of the
      rest of the session if the loop goes round again. */
  lemma IterationThenRest(r: Received, rest: seq<Call>, more: seq<Received>)
    requires r.Delivered? && r.script.send.Pass?
    requires Legal(Iteration(r.msg, r.script) + rest)
    ensures Continues(r) ==> Legal(rest)
    ensures !Continues(r) ==> rest == []
    ensures Handle([r] + more).trace ==
            Iteration(r.msg, r.script) + (if Continues(r) then Handle(more).trace else [])
  {
    IterationOutcome(r);
    RunConcat(Idle, Iteration(r.msg, r.script), rest);
    HandleCons(r, more);
    if !Continues(r) {
      assert Run(Closed, rest).Some?;
    }
  }

  /** Every legal trace is the trace of the session on its witness inputs. */
  lemma {:induction false} WitnessProduces(trace: seq<Call>)
    requires Legal(trace)
    ensures Handle(Witness(trace)).trace == trace
    decreases |trace|
  {
    if |trace| == 1 {
      RunFirst(Idle, trace);
    } else if |trace| >= 2 {
      WitnessHead(trace);
      var k := SendIndex(trace);
      var r := Delivered(trace[1].msg, ScriptFor(trace[1..k + 1]));
      var rest := trace[k + 1..];
      assert trace == trace[..k + 1] + rest;
      IterationThenRest(r, rest, Witness(rest));
      if Continues(r) {
        WitnessProduces(rest);
      }
    }
  }

  /** The automaton accepts exactly the traces of the handler's sessions. */
  lemma LegalExactly(trace: seq<Call>)
    ensures Legal(trace) <==> exists inputs :: Handle(inputs).trace == trace
  {
    if Legal(trace) {
      WitnessProduces(trace);
    }
    forall inputs | Handle(inputs).trace == trace
      ensures Legal(trace)
    {
      HandleIsLegal(inputs);
    }
  }
}
