# Pressure-sensor device agent: shadow reconciler and message router

A Dafny model of the core of `thing-pressure-sensor.py`, an AWS IoT device agent
that publishes simulated pressure readings over MQTT and keeps one configuration
value, the telemetry interval, in step with the device's shadow document.

The model covers:

- **Topics** (`topics.dfy`, module `Topics`): the seven topic names and the router's
  topic test. Six of the names are built from the device identifier; the error topic
  `error/dynamodb` is a fixed string (line 16). The subscribed topics are proved
  pairwise distinct for every device identifier. The outbound topics (telemetry,
  shadow get, shadow update) are proved to reach no handler, so the agent never
  feeds its own publishes back to itself.
- **Python semantics on parsed JSON** (`json.dfy`, modules `Json` and `PyJson`): a
  JSON datatype for what `json.loads` returns. It also models the Python operations
  the handlers apply to those values: `key in v` (dict keys, list elements,
  substrings, or TypeError), `v[key]` and `v.get(key, default)`. Because of these,
  malformed deltas and get responses (a `state` that is a list, a string or null)
  raise exactly where Python raises.
- **Shadow reconciler** (`shadow.dfy`, module `Shadow`): the payload shapes
  (`{"state": {"reported": ...}}`, `{"telemetryInterval": v}`, `{}`). It defines
  what a delta does (`DeltaEffect`) and what a get response yields
  (`InspectGetResponse`). It folds a sequence of deltas over the agent state
  (interval and outbox) and proves last-write-wins.
- **Router** (`router.dfy`, module `Router`): `on_message_received` as a function
  of topic, payload, UTF-8 decoder and JSON parser, plus the state change each
  outcome causes.
- **Telemetry loop** (`telemetry.dfy`, module `Telemetry`): one pass of
  `publish_telemetry`. It publishes the reading, reports `{"status": "connected"}`,
  then calls `time.sleep` on the interval as it stands. The pass either sleeps or
  raises, which ends the thread.
- **The agent** (`agent.dfy`, module `Agent`): class `DeviceAgent` with the mutable
  `interval` (the global `TELEMETRY_INTERVAL`, starting at `10`) and the outbox
  `published`, which stands for the calls to `mqtt_connection.publish`. Each method
  states its new state through the value-level functions above. Every method keeps
  the invariant that nothing published reaches one of the agent's own handlers.

The interval is a JSON value, not a checked integer. `handle_shadow_delta` assigns
whatever the delta carries under `state.telemetryInterval`. The model keeps this:
a delta carrying `-3`, `"fast"` or `null` is applied and echoed like any other.
The consequence is proved in `Telemetry.UncheckedDeltaEndsLoop`: on its next pass
the telemetry loop publishes, then `time.sleep` raises and the telemetry thread ends.

Points of the code the model keeps as written:

- The delta value is not validated: line 60 assigns whatever arrives under the key.
- The key is `telemetryInterval` (lines 59-62).
- The shadow topics are `$aws/things/<device>/shadow/...` (lines 17-21), and the
  subscribed error topic is `error/dynamodb` (line 16).
- The decode on line 30, for the log line, sits outside the `try`. A non-UTF-8 payload
  therefore raises out of the callback (`RouteOutcome.Escaped`).
- A get-accepted response is only inspected and printed (lines 44-52). It never changes
  the interval.
- An exception from `time.sleep` (line 107) is not caught, so it ends the telemetry
  thread. `DeviceAgent.loopAlive` records this, and no pass runs after it.

## Model

| member | source | states |
|---|---|---|
| Topics.SubscribedTopicsDistinct | thing-pressure-sensor.py:16-21 | for every device identifier, the delta, get-accepted, get-rejected and `error/dynamodb` topics are pairwise distinct |
| Topics.OutboundTopicsNotSubscribed | thing-pressure-sensor.py:15-21 | the telemetry, shadow-get and shadow-update topics are none of the four subscribed topics, for every device identifier |
| Topics.Route | thing-pressure-sensor.py:33-38 | the delta, get-accepted and get-rejected handlers are each chosen exactly when the topic equals their own topic, so a message reaches at most one handler |
| Topics.ErrorTopicReachesNoHandler | thing-pressure-sensor.py:153-158 | the subscribed `error/dynamodb` topic selects no handler |
| Topics.OutboundTopicsReachNoHandler | thing-pressure-sensor.py:15-18 | a message on a topic the agent publishes to selects no handler |
| PyJson.SubstringAt | thing-pressure-sensor.py:59 | the substring test used for Python's `in` on a string holds exactly when the key occurs at some position |
| PyJson.Contains | thing-pressure-sensor.py:47-59 | `key in v` tests dict keys, list elements or substrings, and raises for null, booleans and numbers |
| PyJson.GetItem | thing-pressure-sensor.py:47-60 | `v[key]` succeeds exactly on a dict holding the key, with that key's value |
| PyJson.GetOr | thing-pressure-sensor.py:58 | `v.get("state", {})` succeeds exactly on a dict: the key's value when present (even null), else `{}` |
| Shadow.DeltaEffect | thing-pressure-sensor.py:54-62 | a delta is applied exactly when its `state` is an object holding `telemetryInterval`, with that value and no type or range check; a missing `state` or a missing key is ignored; a non-object delta raises |
| Shadow.DeltaWithApplies | thing-pressure-sensor.py:58-60 | `{"state": {"telemetryInterval": v}}` is applied with exactly `v`, for every JSON value `v` |
| Shadow.InspectGetResponse | thing-pressure-sensor.py:44-52 | a get response yields its reported state exactly when `state.reported` exists in an object `state`; without `state` or `reported` it yields "no reported state" |
| Shadow.ReportReadBack | thing-pressure-sensor.py:64-70 | an update payload `{"state": {"reported": p}}`, read the way a get response is read, yields exactly `p` |
| Shadow.DeltaEchoConverges | thing-pressure-sensor.py:59-62 | after a delta carrying `v`, the interval is `v` and the outbox is the old outbox followed by exactly one report of `{"telemetryInterval": v}` on the update topic, which a get response reads back as that reported state |
| Shadow.LastWriteWins | thing-pressure-sensor.py:56-62 | after any sequence of deltas, the interval is the last applied value (unchanged if none applies), and one report per applied value was appended, in arrival order |
| Shadow.TwoDeltasLastWins | thing-pressure-sensor.py:56-62 | deltas with `v1` then `v2` leave the interval at `v2` and append exactly the reports of `v1` and `v2`, in that order |
| Shadow.DeltasWithoutIntervalChangeNothing | thing-pressure-sensor.py:58-59 | deltas none of which carries the interval leave interval and outbox unchanged |
| Telemetry.SleepFor | thing-pressure-sensor.py:107 | `time.sleep` sleeps exactly for a non-negative int or float (a boolean as 0 or 1 second) and raises for anything else, ending the loop |
| Telemetry.DefaultIntervalSleepsTen | thing-pressure-sensor.py:23 | with the initial interval the loop sleeps 10 seconds |
| Telemetry.IntervalReadFresh | thing-pressure-sensor.py:92-107 | after a delta carrying `v`, the next pass sleeps as `v` demands: the interval is read on each pass, not cached |
| Telemetry.UncheckedDeltaEndsLoop | thing-pressure-sensor.py:92-107 | a delta value `time.sleep` refuses is still applied and echoed (line 60); the next pass publishes its two messages and then the thread ends |
| Router.Receive | thing-pressure-sensor.py:28-42 | non-UTF-8 payloads escape; non-JSON text is caught; a parsed message reaches the delta, get-accepted or get-rejected handler exactly when the topic is that handler's topic, and each outcome carries that handler's result or, for get-rejected, the parsed message |
| Router.OnlyDeltaTopicChangesState | thing-pressure-sensor.py:33-38 | a message on any topic but the delta topic, get responses included, changes neither interval nor outbox |
| Router.ErrorTopicChangesNothing | thing-pressure-sensor.py:153-158 | a message on `error/dynamodb` is dropped or fails to decode, and changes nothing |
| Router.MalformedJsonChangesNothing | thing-pressure-sensor.py:31-40 | a UTF-8 payload that is not JSON invokes no handler and changes nothing, on every topic |
| Router.DeltaMessageApplies | thing-pressure-sensor.py:33-34 | a delta carrying `v` on the delta topic sets the interval to `v` and appends exactly one report of `v` |
| Agent.DeviceAgent.constructor | thing-pressure-sensor.py:23 | the agent starts with interval `10`, an empty outbox and the telemetry loop alive |
| Agent.DeviceAgent.SendReportedState | thing-pressure-sensor.py:64-76 | appends exactly `{"state": {"reported": p}}` on the update topic; the interval is unchanged |
| Agent.DeviceAgent.FetchShadowState | thing-pressure-sensor.py:78-88 | appends exactly one `{}` on the get topic; the interval is unchanged |
| Agent.DeviceAgent.HandleShadowDelta | thing-pressure-sensor.py:54-62 | returns the delta's outcome; the new interval and outbox are those `Shadow.DeltaEffect` and the echo rule give |
| Agent.DeviceAgent.OnMessageReceived | thing-pressure-sensor.py:28-42 | returns the router's outcome; only an applied delta changes the state |
| Agent.DeviceAgent.TelemetryIteration | thing-pressure-sensor.py:92-107 | runs only while the loop is alive; appends the telemetry message then `{"status": "connected"}`, leaves the interval as it is, sleeps for it as `time.sleep` would, and marks the loop ended when the sleep raises |
| Agent.StartUp | thing-pressure-sensor.py:163-169 | a fresh agent publishes one fetch request, and its first pass publishes reading and status and sleeps 10 seconds |
| Agent.DeltaBetweenIterations | thing-pressure-sensor.py:92-107 | a delta carrying 5, delivered between two passes, makes the first pass sleep 10 seconds and the second 5; the echo is published between the two passes' messages |

## Left out

- Connection bootstrap (event loop, host resolver, mTLS builder, `connect`/`disconnect`, lines 109-131, 178-180): foreign library I/O.
- Subscription registration and the two-second wait (lines 133-161): transport calls whose timing cannot be stated. Only their effect, that these four topics are routed, is modelled.
- The daemon thread, the unsynchronised sharing of `TELEMETRY_INTERVAL` between the dispatch and telemetry threads, and the `KeyboardInterrupt` shutdown path with its `{"status": "disconnected"}` report (lines 167-180): concurrency and signals. Dispatch and loop passes are modelled as sequential steps.
- The simulated pressure `round(1000 + 500*sin(time/10), 2)` (line 96): floating point and clock-dependent. It is an opaque `real` parameter.
- `json.loads`, `json.dumps` and `bytes.decode`: parameters or abstract. The outbox records the value before serialisation. Python dict key order is not kept, since objects are maps.
- All `print` logging. The get-rejected branch and a successful get response are modelled as outcomes that change nothing.
- QoS: every publish in the source is at-least-once, so it is not recorded per message.
- Transport errors from `publish` (caught in `fetch_shadow_state`, uncaught elsewhere): the connection is not modelled, so every publish succeeds.
- Telemetry.SleepFor: does not model the OverflowError `time.sleep` raises for integers or floats too large for the platform, or NaN and infinity (the `real` type has none).
- Agent.StartUp: models only the order fetch-then-first-pass of lines 163-169. The loop then runs concurrently with message dispatch, which is not modelled.
