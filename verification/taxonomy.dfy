/** How the handler turns failures into wire statuses: the error classifier, and
    the stages of serving one envelope, each with the status its failure earns. */
module Taxonomy {
  import opened Wire
  import opened Collaborators

  /** Maps an error's root cause to a status. Only two causes are recognised;
      every other cause is a bad request. Total: it never fails and never
      answers SUCCESS or SERVICE_UNAVAILABLE. */
  function ClassifyError(err: Error): (s: Status)
    ensures s == NotFound <==> err.cause == ChannelDoesNotExist
    ensures s == Forbidden <==> err.cause == PermissionDenied
    ensures s == BadRequest <==> err.cause == Other
    ensures s != Success && s != ServiceUnavailable
  {
    match err.cause
    case ChannelDoesNotExist => NotFound
    case PermissionDenied => Forbidden
    case Other => BadRequest
  }

  /** The statuses the classifier can answer, and so the statuses a validation
      failure can earn. */
  predicate IsValidationStatus(s: Status) {
    s == NotFound || s == Forbidden || s == BadRequest
  }

  /** A root cause the classifier maps to `s`, for each status it can answer:
      the classifier's inverse on its range. */
  function CauseOf(s: Status): (c: Cause)
    ensures IsValidationStatus(s) ==> forall text :: ClassifyError(Error(c, text)) == s
  {
    match s
    case NotFound => ChannelDoesNotExist
    case Forbidden => PermissionDenied
    case _ => Other
  }

  /** The stages of serving one envelope, in the order the handler runs them. */
  datatype Stage =
    | ChannelLookup   // the registrar routes the message
    | Readiness       // the consenter's readiness gate
    | Validation      // normal-message or config-update processing
    | Submission      // Order or Configure

  /** The stage sequence; a stage's position in it is its rank. */
  const Pipeline: seq<Stage> := [ChannelLookup, Readiness, Validation, Submission]

  function Rank(st: Stage): (k: nat)
    ensures k < |Pipeline| && Pipeline[k] == st
  {
    match st
    case ChannelLookup => 0
    case Readiness => 1
    case Validation => 2
    case Submission => 3
  }

  /** The stage a collaborator call belongs to; stream calls belong to none. */
  function StageOf(c: Call): Option<Stage> {
    match c
    case Recv => None
    case Send(_) => None
    case BroadcastChannelSupport(_) => Some(ChannelLookup)
    case WaitReady => Some(Readiness)
    case ProcessNormalMsg(_) => Some(Validation)
    case ProcessConfigUpdateMsg(_) => Some(Validation)
    case Order(_, _) => Some(Submission)
    case Configure(_, _) => Some(Submission)
  }

  /** A failed stage and the error it failed with. */
  datatype Failure = Failure(stage: Stage, error: Error)

  /** The first stage that fails when every stage runs as `sc` scripts it and the
      handler stops at the first failure; None when every stage passes. The
      validation and submission stages consult the config-update or the normal
      entries, as the registrar classified the message. */
  function FirstFailure(sc: Script): Option<Failure> {
    if sc.channelSupport.Err? then Some(Failure(ChannelLookup, sc.channelSupport.error))
    else if sc.waitReady.Fail? then Some(Failure(Readiness, sc.waitReady.error))
    else if sc.IsConfig() then
      if sc.processConfigUpdate.Err? then Some(Failure(Validation, sc.processConfigUpdate.error))
      else if sc.configure.Fail? then Some(Failure(Submission, sc.configure.error))
      else None
    else
      if sc.processNormal.Err? then Some(Failure(Validation, sc.processNormal.error))
      else if sc.order.Fail? then Some(Failure(Submission, sc.order.error))
      else None
  }

  /** The status a failure at each stage earns. A lookup failure is always a bad
      request, whatever its cause; only validation failures go through the
      classifier; the readiness gate and submission are the service's fault. */
  function RejectionStatus(f: Failure): (s: Status)
    ensures s != Success
    ensures s == ServiceUnavailable <==> f.stage == Readiness || f.stage == Submission
    ensures f.stage == ChannelLookup ==> s == BadRequest
    ensures f.stage == Validation ==> s == ClassifyError(f.error)
  {
    match f.stage
    case ChannelLookup => BadRequest
    case Readiness => ServiceUnavailable
    case Validation => ClassifyError(f.error)
    case Submission => ServiceUnavailable
  }

  /** The one response that rejects a message: the stage's status and the error text. */
  function Rejection(f: Failure): Response {
    Response(RejectionStatus(f), f.error.text)
  }
}
