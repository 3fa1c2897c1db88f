/**
  The inbound message router: decode the payload, parse it, and hand it to the
  handler its topic selects. Decoding and parsing are parameters standing for
  `bytes.decode("utf-8")` and `json.loads`; `None` stands for the exception each
  raises on bad input.
 */
module Router {
  import opened Json
  import opened Topics
  import opened Shadow

  /** What became of one inbound message. */
  datatype RouteOutcome =
    | Escaped                            // the payload is not UTF-8: the decode for the log line raises outside the `try`
    | JsonError                          // not JSON: JSONDecodeError, caught and logged
    | Dropped                            // no handler for the topic
    | DeltaHandled(delta: DeltaOutcome)  // handle_shadow_delta ran
    | GetAcceptedHandled(get: GetOutcome) // process_shadow_get_response ran
    | GetRejectedLogged(response: Json)  // the rejection was logged

  /** The parsed message, when the payload decodes and parses. */
  function Decoded(payload: seq<byte>, decode: seq<byte> -> Option<string>,
                   parse: string -> Option<Json>): Option<Json>
  {
    match decode(payload)
    case None => None
    case Some(text) => parse(text)
  }

  /** `on_message_received`: a message reaches the handler of its topic when it
      parses, and no handler at all otherwise. */
  function Receive(topic: string, payload: seq<byte>, decode: seq<byte> -> Option<string>,
                   parse: string -> Option<Json>): (r: RouteOutcome)
    ensures r == Escaped <==> decode(payload).None?
    ensures r == JsonError <==> decode(payload).Some? && Decoded(payload, decode, parse).None?
    ensures r.DeltaHandled? <==> Decoded(payload, decode, parse).Some? && topic == ShadowDeltaTopic
    ensures r.GetAcceptedHandled? <==>
              Decoded(payload, decode, parse).Some? && topic == ShadowGetAccepted
    ensures r.GetRejectedLogged? <==>
              Decoded(payload, decode, parse).Some? && topic == ShadowGetRejected
    ensures r.DeltaHandled? ==> r.delta == DeltaEffect(Decoded(payload, decode, parse).value)
    ensures r.GetAcceptedHandled? ==>
              r.get == InspectGetResponse(Decoded(payload, decode, parse).value)
    ensures r.GetRejectedLogged? ==> r.response == Decoded(payload, decode, parse).value
  {
    match decode(payload)
    case None => Escaped
    case Some(text) =>
      match parse(text)
      case None => JsonError
      case Some(message) =>
        match Route(topic)
        case DeltaHandler => DeltaHandled(DeltaEffect(message))
        case GetAcceptedHandler => GetAcceptedHandled(InspectGetResponse(message))
        case GetRejectedHandler => GetRejectedLogged(message)
        case NoHandler => Dropped
  }

  /** The state after an inbound message: only an applied delta changes it. */
  function Effect(s: AgentState, r: RouteOutcome): AgentState {
    match r
    case DeltaHandled(o) => AfterDelta(s, o)
    case _ => s
  }

  /** A message on any topic but the delta topic changes neither the interval nor
      the outbox; get responses, accepted or rejected, only inspect and log. */
  lemma OnlyDeltaTopicChangesState(s: AgentState, topic: string, payload: seq<byte>,
                                   decode: seq<byte> -> Option<string>,
                                   parse: string -> Option<Json>)
    requires topic != ShadowDeltaTopic
    ensures Effect(s, Receive(topic, payload, decode, parse)) == s
  {
  }

  /** A message on the subscribed error topic reaches no handler and changes nothing. */
  lemma ErrorTopicChangesNothing(s: AgentState, payload: seq<byte>,
                                 decode: seq<byte> -> Option<string>,
                                 parse: string -> Option<Json>)
    ensures var r := Receive(DbErrorTopic, payload, decode, parse);
            (r == Escaped || r == JsonError || r == Dropped) && Effect(s, r) == s
  {
    ErrorTopicReachesNoHandler();
  }

  /** A payload that is text but not JSON reaches no handler and changes nothing,
      on every topic. */
  lemma MalformedJsonChangesNothing(s: AgentState, topic: string, payload: seq<byte>,
                                    decode: seq<byte> -> Option<string>,
                                    parse: string -> Option<Json>)
    requires decode(payload).Some? && parse(decode(payload).value).None?
    ensures Receive(topic, payload, decode, parse) == JsonError
    ensures Effect(s, JsonError) == s
  {
  }

  /** A delta carrying `v` on the delta topic sets the interval to `v` and appends
      exactly one report of `v` to the update topic. */
  lemma {:induction false} DeltaMessageApplies(s: AgentState, payload: seq<byte>,
                                               decode: seq<byte> -> Option<string>,
                                               parse: string -> Option<Json>, v: Json)
    requires Decoded(payload, decode, parse) == Some(DeltaWith(v))
    ensures Effect(s, Receive(ShadowDeltaTopic, payload, decode, parse)) ==
            AgentState(v, s.published + [ReportMessage(IntervalReport(v))])
  {
    DeltaWithApplies(v);
  }
}
