/**
  One pass of the telemetry loop: publish a reading, report the device as
  connected, then sleep for the interval current at that moment. The reading
  itself (a sine of the clock) is an opaque parameter.
 */
module Telemetry {
  import opened Json
  import opened Topics
  import opened Shadow

  /** `{"ownerID": OWNER_ID, "deviceData": {"Pressure": p, "Pressure-unit": "PSI"}}`. */
  function TelemetryPayload(pressure: real): Json {
    JObj(map["ownerID" := JStr(OwnerId),
             "deviceData" := JObj(map["Pressure" := JFloat(pressure),
                                      "Pressure-unit" := JStr("PSI")])])
  }

  /** The status the loop reports after every reading. */
  const StatusConnected: Json := Obj1("status", JStr("connected"))

  /** The two publishes of one pass, in order. */
  function IterationMessages(pressure: real): seq<Message> {
    [Message(TelemetryTopic, TelemetryPayload(pressure)), ReportMessage(StatusConnected)]
  }

  /** How a pass ends: `time.sleep(interval)` either sleeps, or raises, which ends
      the telemetry thread since nothing in the loop catches it. */
  datatype LoopStep = Sleep(seconds: real) | ThreadDies

  /** The values Python's `time.sleep` accepts: a non-negative int or float, or a
      boolean, which Python treats as the int 0 or 1. */
  predicate SleepAccepts(v: Json) {
    v.JBool? || (v.JInt? && v.i >= 0) || (v.JFloat? && v.f >= 0.0)
  }

  /** `time.sleep(v)`: a negative number raises ValueError, a string, list, object
      or null raises TypeError. */
  function SleepFor(v: Json): (step: LoopStep)
    ensures step.Sleep? <==> SleepAccepts(v)
    ensures step.Sleep? ==> step.seconds >= 0.0
    ensures v.JInt? && v.i >= 0 ==> step == Sleep(v.i as real)
    ensures v.JFloat? && v.f >= 0.0 ==> step == Sleep(v.f)
    ensures v.JBool? ==> step == Sleep(if v.b then 1.0 else 0.0)
  {
    match v
    case JBool(b) => Sleep(if b then 1.0 else 0.0)
    case JInt(n) => if n < 0 then ThreadDies else Sleep(n as real)
    case JFloat(x) => if x < 0.0 then ThreadDies else Sleep(x)
    case _ => ThreadDies
  }

  /** One pass of the loop on the agent state: the interval is read, not changed. */
  function Iterate(s: AgentState, pressure: real): (AgentState, LoopStep) {
    (AgentState(s.interval, s.published + IterationMessages(pressure)), SleepFor(s.interval))
  }

  /** With the default interval the loop sleeps ten seconds. */
  lemma DefaultIntervalSleepsTen(pressure: real)
    ensures Iterate(InitialState, pressure).1 == Sleep(10.0)
  {
  }

  /** The interval is read afresh on each pass: after a delta carrying `v`, the next
      pass sleeps as `v` demands, whatever the interval was before. */
  lemma IntervalReadFresh(s: AgentState, v: Json, pressure: real)
    ensures Iterate(AfterDelta(s, DeltaEffect(DeltaWith(v))), pressure).1 == SleepFor(v)
  {
    DeltaWithApplies(v);
  }

  /** A delta value `time.sleep` refuses is still applied and echoed, and the next
      pass of the loop publishes its reading and report and then ends the thread. */
  lemma {:induction false} UncheckedDeltaEndsLoop(s: AgentState, v: Json, pressure: real)
    requires !SleepAccepts(v)
    ensures var t := AfterDelta(s, DeltaEffect(DeltaWith(v)));
            t.interval == v &&
            t.published == s.published + [ReportMessage(IntervalReport(v))] &&
            Iterate(t, pressure) ==
              (AgentState(v, t.published + IterationMessages(pressure)), ThreadDies)
  {
    DeltaWithApplies(v);
  }
}
