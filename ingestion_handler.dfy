/**
  Model of the request closure of handlers/ingestionHandler/handler.go: an ordered chain of
  checks, each ending the request with a status and a reason when it fails, and a publish
  only for an event every check passed and the policies allowed.
*/
module IngestionHandler {
  import opened Wrappers
  import opened Errors
  import IngestionPolicies

  const StatusAccepted: int := 202
  const StatusBadRequest: int := 400
  const StatusInternalServerError: int := 500

  /**
    What each collaborator answered for one request: the body parser (the body's top-level
    keys, or the parse error), the metadata schema check, the lookup of the event-type
    service, its validation of the event, the lookup of the policy service, its decision,
    and the publisher's result.
  */
  datatype StageResults = StageResults(
    body: Result<set<string>, Error>,
    metadataCheck: Option<Error>,
    eventTypesService: bool,
    eventValidation: Option<Error>,
    ingestionService: bool,
    decision: (IngestionPolicies.IngestionPolicyDecision, Option<Error>),
    published: bool)

  /** The response: status, the "reason" field, the "errors" causes, and whether Publish was called. */
  datatype Response = Response(status: int, reason: Option<string>, causes: seq<string>, publishCalled: bool)

  function Reject(status: int, reason: string): Response {
    Response(status, Some(reason), [], false)
  }

  /** A validation error is reported with its causes under `reason`, any other error under `otherReason`. */
  function RejectError(e: Error, reason: string, otherReason: string): Response {
    if e.ValidationError? then Response(StatusBadRequest, Some(reason), e.causes, false)
    else Reject(StatusBadRequest, otherReason)
  }

  /** The body parsed and holds both the "metadata" and the "payload" sections. */
  predicate BodyComplete(s: StageResults) {
    s.body.Success? && "metadata" in s.body.value && "payload" in s.body.value
  }

  /** Every check passing up to the policy stage: what the handler goes on to do. */
  predicate ReachesPolicies(s: StageResults) {
    && BodyComplete(s)
    && s.metadataCheck.None? && s.eventTypesService && s.eventValidation.None? && s.ingestionService
  }

  /** Every check before the publish passed and the decision is to allow. */
  predicate Admitted(s: StageResults) {
    ReachesPolicies(s) && s.decision.1.None? && s.decision.0.Allow
  }

  const ServerFaults: set<string> := {"event-type", "ingestion-service", "ingestion-service-failure", "publish"}

  /**
    The request closure. Each stage, reached only when every earlier one passed, ends the
    request with its own status and reason when it fails. Publish is called exactly for an
    admitted event, and the request is accepted exactly when that publish succeeds; every
    other outcome carries a reason, and the four server-side faults are the 500s.
  */
  function Handle(s: StageResults): (r: Response)
    // the stages, in order
    ensures s.body.Failure? ==> r == Reject(StatusBadRequest, "request-body")
    ensures s.body.Success? && "metadata" !in s.body.value ==> r == Reject(StatusBadRequest, "metadata-missing")
    ensures s.body.Success? && "metadata" in s.body.value && "payload" !in s.body.value ==>
              r == Reject(StatusBadRequest, "payload-missing")
    ensures BodyComplete(s) && s.metadataCheck.Some? ==>
              r == RejectError(s.metadataCheck.value, "metadata", "metadata-failure")
    ensures BodyComplete(s) && s.metadataCheck.None? && !s.eventTypesService ==>
              r == Reject(StatusInternalServerError, "event-type")
    ensures BodyComplete(s) && s.metadataCheck.None? && s.eventTypesService && s.eventValidation.Some? ==>
              r == RejectError(s.eventValidation.value, "event-validation", "event-validation-failure")
    ensures BodyComplete(s) && s.metadataCheck.None? && s.eventTypesService && s.eventValidation.None? && !s.ingestionService ==>
              r == Reject(StatusInternalServerError, "ingestion-service")
    ensures ReachesPolicies(s) && s.decision.1.Some? ==> r == Reject(StatusInternalServerError, "ingestion-service-failure")
    ensures ReachesPolicies(s) && s.decision.1.None? && !s.decision.0.Allow ==>
              r == Reject(StatusBadRequest, "ingestion-service-rejected")
    ensures Admitted(s) && s.published ==> r == Response(StatusAccepted, None, [], true)
    ensures Admitted(s) && !s.published ==> r == Response(StatusInternalServerError, Some("publish"), [], true)
    // what holds across the stages
    ensures r.publishCalled <==> Admitted(s)
    ensures r.status == StatusAccepted <==> Admitted(s) && s.published
    ensures r.reason.None? <==> r.status == StatusAccepted
    ensures r.status in {StatusAccepted, StatusBadRequest, StatusInternalServerError}
    ensures r.status == StatusInternalServerError <==> r.reason.Some? && r.reason.value in ServerFaults
    ensures r.causes != [] ==> r.reason == Some("metadata") || r.reason == Some("event-validation")
  {
    if s.body.Failure? then Reject(StatusBadRequest, "request-body")
    else if "metadata" !in s.body.value then Reject(StatusBadRequest, "metadata-missing")
    else if "payload" !in s.body.value then Reject(StatusBadRequest, "payload-missing")
    else if s.metadataCheck.Some? then RejectError(s.metadataCheck.value, "metadata", "metadata-failure")
    else if !s.eventTypesService then Reject(StatusInternalServerError, "event-type")
    else if s.eventValidation.Some? then RejectError(s.eventValidation.value, "event-validation", "event-validation-failure")
    else if !s.ingestionService then Reject(StatusInternalServerError, "ingestion-service")
    else if s.decision.1.Some? then Reject(StatusInternalServerError, "ingestion-service-failure")
    else if s.decision.0.Allow then
      if s.published then Response(StatusAccepted, None, [], true)
      else Response(StatusInternalServerError, Some("publish"), [], true)
    else Reject(StatusBadRequest, "ingestion-service-rejected")
  }

  /** A body without a metadata key is turned away for that, whatever else it lacks. */
  lemma MetadataMissingFirst(s: StageResults)
    requires s.body.Success? && "metadata" !in s.body.value
    ensures Handle(s) == Reject(StatusBadRequest, "metadata-missing")
  {
  }

  /** An unusable decision or a deny never reaches the publisher. */
  lemma DeniedNeverPublished(s: StageResults)
    requires s.decision.1.Some? || !s.decision.0.Allow
    ensures !Handle(s).publishCalled
  {
  }

  /**
    With the policy engine's own decision in the loop: a policy that denies (and no error
    from any policy) rejects the event without publishing it, whatever the others say.
  */
  lemma DenyingPolicyRejects(s: StageResults, keys: seq<string>, evaluate: IngestionPolicies.Evaluator, k: nat)
    requires ReachesPolicies(s) && s.decision == IngestionPolicies.Decide(keys, evaluate)
    requires IngestionPolicies.AllSucceed(keys, evaluate)
    requires k < |keys| && !IngestionPolicies.AllowOf(evaluate(keys[k]))
    ensures Handle(s) == Reject(StatusBadRequest, "ingestion-service-rejected")
  {
    IngestionPolicies.DecisionSpec(keys, evaluate);
  }

  /** With no policies registered, an event that passes validation is published, and accepted when that succeeds. */
  lemma NoPoliciesPublishes(s: StageResults, evaluate: IngestionPolicies.Evaluator)
    requires ReachesPolicies(s) && s.decision == IngestionPolicies.Decide([], evaluate)
    ensures Handle(s).publishCalled
    ensures Handle(s).status == if s.published then StatusAccepted else StatusInternalServerError
    ensures Handle(s).reason == if s.published then None else Some("publish")
  {
  }
}
