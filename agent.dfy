/**
  The device agent as the script runs it: one mutable interval (the global
  `TELEMETRY_INTERVAL`) and the stream of publishes sent to the broker. Each
  method states its new state through the value-level model of modules Shadow,
  Router and Telemetry.
 */
module Agent {
  import opened Json
  import opened PyJson
  import opened Topics
  import opened Shadow
  import opened Router
  import opened Telemetry

  class DeviceAgent {
    /** The current telemetry interval: any JSON value a delta delivered. */
    var interval: Json
    /** Every publish made on the connection so far, oldest first. */
    var published: seq<Message>
    /** Whether the telemetry thread still runs: an exception from `time.sleep` ends it for good. */
    var loopAlive: bool

    function State(): AgentState
      reads this
    {
      AgentState(interval, published)
    }

    /** No message the agent has published is on a topic that reaches one of its
        own handlers. */
    ghost predicate Valid()
      reads this
    {
      forall k :: 0 <= k < |published| ==> Route(published[k].topic) == NoHandler
    }

    constructor ()
      ensures Valid() && State() == InitialState && loopAlive
    {
      interval := DefaultInterval;
      published := [];
      loopAlive := true;
    }

    /** Append one publish on an outbound topic. */
    method Publish(m: Message)
      requires Valid()
      requires m.topic == TelemetryTopic || m.topic == ShadowGetTopic || m.topic == ShadowUpdateTopic
      modifies this
      ensures Valid()
      ensures interval == old(interval) && published == old(published) + [m]
      ensures loopAlive == old(loopAlive)
    {
      OutboundTopicsReachNoHandler(m.topic);
      published := published + [m];
    }

    /** `send_reported_state`: publish `{"state": {"reported": reported}}` on the update topic. */
    method SendReportedState(reported: Json)
      requires Valid()
      modifies this
      ensures Valid()
      ensures interval == old(interval)
      ensures published == old(published) + [ReportMessage(reported)]
      ensures loopAlive == old(loopAlive)
    {
      Publish(Message(ShadowUpdateTopic, UpdatePayload(reported)));
    }

    /** `fetch_shadow_state`: publish `{}` on the get topic; the interval is untouched. */
    method FetchShadowState()
      requires Valid()
      modifies this
      ensures Valid()
      ensures interval == old(interval)
      ensures published == old(published) + [FetchMessage]
      ensures loopAlive == old(loopAlive)
    {
      Publish(Message(ShadowGetTopic, EmptyObject));
    }

    /** `handle_shadow_delta`: take `state` (or `{}`), and if it holds the interval key,
        overwrite the interval with its value, unchecked, and echo it as reported. */
    method HandleShadowDelta(delta: Json) returns (o: DeltaOutcome)
      requires Valid()
      modifies this
      ensures Valid()
      ensures o == DeltaEffect(delta)
      ensures State() == AfterDelta(old(State()), o)
      ensures loopAlive == old(loopAlive)
    {
      var desired := GetOr(delta, "state", EmptyObject);
      if desired.Raise? {
        return Raised;
      }
      var present := Contains(desired.value, IntervalKey);
      if present.Raise? {
        return Raised;
      } else if !present.value {
        return Ignored;
      }
      var item := GetItem(desired.value, IntervalKey);
      if item.Raise? {
        return Raised;
      }
      interval := item.value;
      SendReportedState(IntervalReport(interval));
      o := Applied(item.value);
    }

    /** `on_message_received`: decode, parse, and dispatch by exact topic equality. */
    method OnMessageReceived(topic: string, payload: seq<byte>,
                             decode: seq<byte> -> Option<string>,
                             parse: string -> Option<Json>) returns (r: RouteOutcome)
      requires Valid()
      modifies this
      ensures Valid()
      ensures r == Receive(topic, payload, decode, parse)
      ensures State() == Effect(old(State()), r)
      ensures loopAlive == old(loopAlive)
    {
      var text := decode(payload);
      if text.None? {
        return Escaped;
      }
      var message := parse(text.value);
      if message.None? {
        return JsonError;
      }
      var handler := Route(topic);
      match handler
      case DeltaHandler =>
        var o := HandleShadowDelta(message.value);
        r := DeltaHandled(o);
      case GetAcceptedHandler =>
        r := GetAcceptedHandled(InspectGetResponse(message.value));
      case GetRejectedHandler =>
        r := GetRejectedLogged(message.value);
      case NoHandler =>
        r := Dropped;
    }

    /** One pass of `publish_telemetry`: publish the reading, report "connected",
        then sleep for the interval as it stands now. A pass runs only while the
        thread is alive, and a sleep that raises ends the thread. */
    method TelemetryIteration(pressure: real) returns (step: LoopStep)
      requires Valid() && loopAlive
      modifies this
      ensures Valid()
      ensures (State(), step) == Iterate(old(State()), pressure)
      ensures loopAlive == step.Sleep?
    {
      Publish(Message(TelemetryTopic, TelemetryPayload(pressure)));
      SendReportedState(StatusConnected);
      assert published == old(published) + IterationMessages(pressure);
      step := SleepFor(interval);
      loopAlive := step.Sleep?;
    }
  }

  /** A fresh agent's start-up publish: exactly one fetch request, and the default
      interval, which the first pass of the loop sleeps for. */
  method StartUp(pressure: real) returns (sent: seq<Message>, first: LoopStep)
    ensures sent == [FetchMessage] + IterationMessages(pressure)
    ensures first == Sleep(10.0)
  {
    var agent := new DeviceAgent();
    agent.FetchShadowState();
    first := agent.TelemetryIteration(pressure);
    sent := agent.published;
  }

  /** A delta carrying 5 arrives on the delta topic between two passes of the loop
      of a fresh agent: the first pass sleeps the default 10 seconds, the delta is
      echoed once within its own dispatch, and the next pass sleeps 5 seconds. */
  method DeltaBetweenIterations(payload: seq<byte>, decode: seq<byte> -> Option<string>,
                                parse: string -> Option<Json>, pressure: real)
    returns (first: LoopStep, second: LoopStep, sent: seq<Message>)
    requires Decoded(payload, decode, parse) == Some(DeltaWith(JInt(5)))
    ensures first == Sleep(10.0) && second == Sleep(5.0)
    ensures sent == IterationMessages(pressure) + [ReportMessage(IntervalReport(JInt(5)))] +
                    IterationMessages(pressure)
  {
    var agent := new DeviceAgent();
    first := agent.TelemetryIteration(pressure);
    var r := agent.OnMessageReceived(ShadowDeltaTopic, payload, decode, parse);
    DeltaWithApplies(JInt(5));
    second := agent.TelemetryIteration(pressure);
    sent := agent.published;
  }
}
