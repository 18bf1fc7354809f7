/** Model of sdk/events/Alert.go: the Alert event variants and the decoder that picks one by subtype. */
module AlertEvents {
  import opened Wrappers
  import opened Errors
  import Json

  // The accepted subtype names, as the AlertEventTypes_* constants spell them.
  const Triggered: string := "Triggered"
  const Silenced: string := "Silenced"
  const Resolved: string := "Resolved"

  datatype AlertEvent =
    | AlertTriggered(Name: string)
    | AlertSilenced(Name: string)
    | AlertResolved(Name: string)

  /** The subtype name each variant is decoded from. */
  function SubTypeOf(e: AlertEvent): string {
    match e
    case AlertTriggered(_) => Triggered
    case AlertSilenced(_) => Silenced
    case AlertResolved(_) => Resolved
  }

  /** A variant as the decoder builds it: its Name is its own subtype name. */
  predicate WellFormed(e: AlertEvent) {
    e.Name == SubTypeOf(e)
  }

  /**
    Picks the Alert variant named by `eventType`, matching exactly and case-sensitively.
    The payload argument is accepted and never read.
  */
  function NewAlertEventFromType(eventType: string, payload: Json.RawMessage): (r: Result<AlertEvent, Error>)
    ensures r.Success? <==> eventType in {Triggered, Silenced, Resolved}
    ensures r.Success? ==> WellFormed(r.value) && r.value.Name == eventType
    ensures r.Failure? ==> r.error == CannotParseSubType(eventType, "Alert")
  {
    if eventType == Triggered then Success(AlertTriggered(Triggered))
    else if eventType == Silenced then Success(AlertSilenced(Silenced))
    else if eventType == Resolved then Success(AlertResolved(Resolved))
    else Failure(CannotParseSubType(eventType, "Alert"))
  }

  /** Decoding inverts SubTypeOf: every well-formed variant is decoded from its own name. */
  lemma DecodeRoundTrip(e: AlertEvent, payload: Json.RawMessage)
    requires WellFormed(e)
    ensures NewAlertEventFromType(e.Name, payload) == Success(e)
  {
  }

  /** The decoder's result depends on the subtype name alone. */
  lemma PayloadIgnored(eventType: string, p: Json.RawMessage, q: Json.RawMessage)
    ensures NewAlertEventFromType(eventType, p) == NewAlertEventFromType(eventType, q)
  {
  }
}
