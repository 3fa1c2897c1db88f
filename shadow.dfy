/**
  The shadow reconciler as values: the payloads it publishes, what a delta and a
  get response do, and the agent state (interval and outbox) a sequence of deltas
  leaves behind.
 */
module Shadow {
  import opened Json
  import opened PyJson
  import opened Topics

  /** The key of the one configuration field the device reconciles. */
  const IntervalKey: string := "telemetryInterval"

  /** The interval the agent starts with: ten seconds. */
  const DefaultInterval: Json := JInt(10)

  /** One call to the connection's `publish`: a topic and the value that is serialised. */
  datatype Message = Message(topic: string, payload: Json)

  /** What the reconciler owns: the current interval, which is whatever JSON value
      the last applied delta carried, and everything published so far. */
  datatype AgentState = AgentState(interval: Json, published: seq<Message>)

  const InitialState: AgentState := AgentState(DefaultInterval, [])

  /** The body of a shadow update: `{"state": {"reported": reported}}`. */
  function UpdatePayload(reported: Json): Json {
    Obj1("state", Obj1("reported", reported))
  }

  /** The publish `send_reported_state(reported)` makes. */
  function ReportMessage(reported: Json): Message {
    Message(ShadowUpdateTopic, UpdatePayload(reported))
  }

  /** The reported state echoed after a delta is applied: `{"telemetryInterval": v}`. */
  function IntervalReport(v: Json): Json {
    Obj1(IntervalKey, v)
  }

  /** The publish `fetch_shadow_state` makes: an empty object on the get topic. */
  const FetchMessage: Message := Message(ShadowGetTopic, EmptyObject)

  /** A delta document `{"state": {"telemetryInterval": v}}` as the broker sends it. */
  function DeltaWith(v: Json): Json {
    Obj1("state", Obj1(IntervalKey, v))
  }

  /** The delta names the interval: its `state` is an object holding the key. */
  predicate CarriesInterval(delta: Json) {
    delta.JObj? && "state" in delta.fields &&
    delta.fields["state"].JObj? && IntervalKey in delta.fields["state"].fields
  }

  /** What `handle_shadow_delta` does with a decoded delta: it applies the value
      found under `state.telemetryInterval`, ignores a delta without that key, or
      raises (a delta that is not an object, a `state` that is null, a number or a
      boolean, a list or string that passes the `in` test but cannot be indexed). */
  datatype DeltaOutcome = Applied(value: Json) | Ignored | Raised

  function DeltaEffect(delta: Json): (o: DeltaOutcome)
    ensures o.Applied? <==> CarriesInterval(delta)
    ensures o.Applied? ==> o.value == delta.fields["state"].fields[IntervalKey]
    ensures delta.JObj? && "state" !in delta.fields ==> o == Ignored
    ensures (delta.JObj? && "state" in delta.fields && delta.fields["state"].JObj? &&
             IntervalKey !in delta.fields["state"].fields) ==> o == Ignored
    ensures !delta.JObj? ==> o == Raised
  {
    match GetOr(delta, "state", EmptyObject)
    case Raise => Raised
    case Ok(desired) =>
      match Contains(desired, IntervalKey)
      case Raise => Raised
      case Ok(false) => Ignored
      case Ok(true) =>
        match GetItem(desired, IntervalKey)
        case Raise => Raised
        case Ok(v) => Applied(v)
  }

  /** A delta document built from a value is applied with exactly that value: no
      type or range check stands in the way. */
  lemma DeltaWithApplies(v: Json)
    ensures DeltaEffect(DeltaWith(v)) == Applied(v)
  {
  }

  /** The state after a delta: an applied value becomes the interval and is echoed
      once on the update topic; anything else changes nothing. */
  function AfterDelta(s: AgentState, o: DeltaOutcome): AgentState {
    match o
    case Applied(v) => AgentState(v, s.published + [ReportMessage(IntervalReport(v))])
    case _ => s
  }

  /** What `process_shadow_get_response` finds: the reported state, a notice that
      there is none, or an exception (caught by the router). */
  datatype GetOutcome = ReportedState(reported: Json) | NoReportedState | GetRaised

  function InspectGetResponse(response: Json): (g: GetOutcome)
    ensures g.ReportedState? <==>
              response.JObj? && "state" in response.fields &&
              response.fields["state"].JObj? && "reported" in response.fields["state"].fields
    ensures g.ReportedState? ==> g.reported == response.fields["state"].fields["reported"]
    ensures response.JObj? && "state" !in response.fields ==> g == NoReportedState
    ensures (response.JObj? && "state" in response.fields && response.fields["state"].JObj? &&
             "reported" !in response.fields["state"].fields) ==> g == NoReportedState
  {
    match Contains(response, "state")
    case Raise => GetRaised
    case Ok(false) => NoReportedState
    case Ok(true) =>
      match GetItem(response, "state")
      case Raise => GetRaised
      case Ok(state) =>
        match Contains(state, "reported")
        case Raise => GetRaised
        case Ok(false) => NoReportedState
        case Ok(true) =>
          match GetItem(state, "reported")
          case Raise => GetRaised
          case Ok(reported) => ReportedState(reported)
  }

  /** An update the agent publishes, read back the way a get response is read,
      shows exactly the state it reported. */
  lemma ReportReadBack(reported: Json)
    ensures InspectGetResponse(UpdatePayload(reported)) == ReportedState(reported)
  {
  }

  /** The echo after a delta closes the desired/reported loop: the last message
      published reports, under the same key, the value the delta asked for. */
  lemma {:induction false} DeltaEchoConverges(s: AgentState, v: Json)
    ensures var t := AfterDelta(s, DeltaEffect(DeltaWith(v)));
            t.interval == v &&
            t.published == s.published + [ReportMessage(IntervalReport(v))] &&
            t.published[|s.published|].topic == ShadowUpdateTopic &&
            InspectGetResponse(t.published[|s.published|].payload) == ReportedState(IntervalReport(v))
  {
    DeltaWithApplies(v);
    ReportReadBack(IntervalReport(v));
  }

  /** The state after a sequence of deltas is handled in order. */
  function ApplyDeltas(s: AgentState, deltas: seq<Json>): AgentState
    decreases |deltas|
  {
    if deltas == [] then s
    else ApplyDeltas(AfterDelta(s, DeltaEffect(deltas[0])), deltas[1..])
  }

  /** The values, in order, that a sequence of deltas applies. */
  function AppliedValues(deltas: seq<Json>): seq<Json>
    decreases |deltas|
  {
    if deltas == [] then []
    else
      (match DeltaEffect(deltas[0]) case Applied(v) => [v] case _ => []) +
      AppliedValues(deltas[1..])
  }

  /** The interval reports published for a sequence of applied values. */
  function IntervalReports(vs: seq<Json>): seq<Message>
    decreases |vs|
  {
    if vs == [] then [] else [ReportMessage(IntervalReport(vs[0]))] + IntervalReports(vs[1..])
  }

  /** The last element of `vs`, or `d` when there is none. */
  function LastOr(d: Json, vs: seq<Json>): Json {
    if vs == [] then d else vs[|vs| - 1]
  }

  lemma {:induction false} LastOrPrepend(d: Json, v: Json, vs: seq<Json>)
    ensures LastOr(v, vs) == LastOr(d, [v] + vs)
  {
  }

  lemma {:induction false} IntervalReportsPrepend(v: Json, vs: seq<Json>)
    ensures IntervalReports([v] + vs) == [ReportMessage(IntervalReport(v))] + IntervalReports(vs)
  {
    assert ([v] + vs)[1..] == vs;
  }

  /** Successive deltas are last-write-wins: the interval ends as the last applied
      value (or stays as it was if none applies), and exactly one report per
      applied value was appended, in the order the deltas arrived. */
  lemma {:induction false} LastWriteWins(s: AgentState, deltas: seq<Json>)
    ensures ApplyDeltas(s, deltas) ==
            AgentState(LastOr(s.interval, AppliedValues(deltas)),
                       s.published + IntervalReports(AppliedValues(deltas)))
    decreases |deltas|
  {
    if deltas != [] {
      var s' := AfterDelta(s, DeltaEffect(deltas[0]));
      var rest := AppliedValues(deltas[1..]);
      LastWriteWins(s', deltas[1..]);
      match DeltaEffect(deltas[0])
      case Applied(v) =>
        assert AppliedValues(deltas) == [v] + rest;
        LastOrPrepend(s.interval, v, rest);
        IntervalReportsPrepend(v, rest);
      case Ignored =>
        assert AppliedValues(deltas) == rest;
      case Raised =>
        assert AppliedValues(deltas) == rest;
    }
  }

  /** Two deltas carrying `v1` and then `v2`: the interval is `v2` and exactly the
      two echoes, first `v1` then `v2`, were appended. */
  lemma {:induction false} TwoDeltasLastWins(s: AgentState, v1: Json, v2: Json)
    ensures ApplyDeltas(s, [DeltaWith(v1), DeltaWith(v2)]) ==
            AgentState(v2, s.published + [ReportMessage(IntervalReport(v1)),
                                          ReportMessage(IntervalReport(v2))])
  {
    var ds := [DeltaWith(v1), DeltaWith(v2)];
    DeltaWithApplies(v1);
    DeltaWithApplies(v2);
    assert ds[1..] == [DeltaWith(v2)];
    assert AppliedValues(ds[1..][1..]) == [];
    assert AppliedValues(ds) == [v1, v2];
    LastWriteWins(s, ds);
    assert IntervalReports([v1, v2]) ==
           [ReportMessage(IntervalReport(v1)), ReportMessage(IntervalReport(v2))] by {
      IntervalReportsPrepend(v2, []);
      IntervalReportsPrepend(v1, [v2]);
      assert [v1] + [v2] == [v1, v2];
      assert [v2] + [] == [v2];
    }
  }

  /** Deltas that carry no interval leave the state exactly as it was. */
  lemma {:induction false} DeltasWithoutIntervalChangeNothing(s: AgentState, deltas: seq<Json>)
    requires forall k :: 0 <= k < |deltas| ==> !CarriesInterval(deltas[k])
    ensures ApplyDeltas(s, deltas) == s
    decreases |deltas|
  {
    if deltas != [] {
      DeltasWithoutIntervalChangeNothing(s, deltas[1..]);
    }
  }
}
