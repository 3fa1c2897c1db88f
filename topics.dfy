/**
  The MQTT topic names of one device and the router's choice of handler.
  Topics are built from the device identifier; the agent runs with the fixed
  identifier `DeviceId`.
 */
module Topics {

  /** The device and owner identifiers the agent is configured with. */
  const DeviceId: string := "<mac-address>"
  const OwnerId: string := "<unique owner id>"

  /** The device's telemetry topic, `<device>/telemetry`. */
  function TelemetryTopicFor(device: string): string {
    device + "/telemetry"
  }

  /** A topic of the device's shadow, `$aws/things/<device>/shadow<op>`. */
  function ShadowTopicFor(device: string, op: string): string {
    "$aws/things/" + device + "/shadow" + op
  }

  const TelemetryTopic: string := TelemetryTopicFor(DeviceId)
  const DbErrorTopic: string := "error/dynamodb"
  const ShadowGetTopic: string := ShadowTopicFor(DeviceId, "/get")
  const ShadowUpdateTopic: string := ShadowTopicFor(DeviceId, "/update")
  const ShadowDeltaTopic: string := ShadowTopicFor(DeviceId, "/update/delta")
  const ShadowGetAccepted: string := ShadowTopicFor(DeviceId, "/get/accepted")
  const ShadowGetRejected: string := ShadowTopicFor(DeviceId, "/get/rejected")

  /** Two shadow topics of one device are equal only when their operations are. */
  lemma {:induction false} ShadowTopicInjective(device: string, op1: string, op2: string)
    requires ShadowTopicFor(device, op1) == ShadowTopicFor(device, op2)
    ensures op1 == op2
  {
    var prefix := "$aws/things/" + device + "/shadow";
    assert ShadowTopicFor(device, op1) == prefix + op1;
    assert ShadowTopicFor(device, op2) == prefix + op2;
    assert op1 == (prefix + op1)[|prefix|..];
    assert op2 == (prefix + op2)[|prefix|..];
  }

  /** Every shadow topic starts with `$`, so none is the error topic. */
  lemma ShadowTopicIsNotErrorTopic(device: string, op: string)
    ensures ShadowTopicFor(device, op) != DbErrorTopic
  {
    assert ShadowTopicFor(device, op)[0] == '$';
    assert DbErrorTopic[0] == 'e';
  }

  /** The four subscribed topics are pairwise distinct, for every device identifier. */
  lemma {:induction false} SubscribedTopicsDistinct(device: string)
    ensures ShadowTopicFor(device, "/update/delta") != ShadowTopicFor(device, "/get/accepted")
    ensures ShadowTopicFor(device, "/update/delta") != ShadowTopicFor(device, "/get/rejected")
    ensures ShadowTopicFor(device, "/get/accepted") != ShadowTopicFor(device, "/get/rejected")
    ensures ShadowTopicFor(device, "/update/delta") != DbErrorTopic
    ensures ShadowTopicFor(device, "/get/accepted") != DbErrorTopic
    ensures ShadowTopicFor(device, "/get/rejected") != DbErrorTopic
  {
    assert "/update/delta"[1] != "/get/accepted"[1];
    assert "/get/accepted"[5] != "/get/rejected"[5];
    if ShadowTopicFor(device, "/update/delta") == ShadowTopicFor(device, "/get/accepted") {
      ShadowTopicInjective(device, "/update/delta", "/get/accepted");
    }
    if ShadowTopicFor(device, "/update/delta") == ShadowTopicFor(device, "/get/rejected") {
      ShadowTopicInjective(device, "/update/delta", "/get/rejected");
    }
    if ShadowTopicFor(device, "/get/accepted") == ShadowTopicFor(device, "/get/rejected") {
      ShadowTopicInjective(device, "/get/accepted", "/get/rejected");
    }
    ShadowTopicIsNotErrorTopic(device, "/update/delta");
    ShadowTopicIsNotErrorTopic(device, "/get/accepted");
    ShadowTopicIsNotErrorTopic(device, "/get/rejected");
  }

  /** The three topics the agent publishes on are none of the topics it subscribes to. */
  lemma {:induction false} OutboundTopicsNotSubscribed(device: string, t: string)
    requires t == TelemetryTopicFor(device) || t == ShadowTopicFor(device, "/get") ||
             t == ShadowTopicFor(device, "/update")
    ensures t != ShadowTopicFor(device, "/update/delta")
    ensures t != ShadowTopicFor(device, "/get/accepted")
    ensures t != ShadowTopicFor(device, "/get/rejected")
    ensures t != DbErrorTopic
  {
    // The three subscribed shadow topics are longer than every outbound topic.
    assert |ShadowTopicFor(device, "/update/delta")| == |device| + 32;
    assert |ShadowTopicFor(device, "/get/accepted")| == |device| + 32;
    assert |ShadowTopicFor(device, "/get/rejected")| == |device| + 32;
    if t == TelemetryTopicFor(device) {
      // Of the right length only for a four-character device, whose topic has '/' where the error topic has 'r'.
      assert |t| == |device| + 10 && t[|device|] == '/';
      assert DbErrorTopic[4] == 'r';
    } else if t == ShadowTopicFor(device, "/get") {
      assert |t| == |device| + 23;
      ShadowTopicIsNotErrorTopic(device, "/get");
    } else {
      assert |t| == |device| + 26;
      ShadowTopicIsNotErrorTopic(device, "/update");
    }
  }

  /** The handler a topic selects: the source tests the delta, get-accepted and
      get-rejected topics in turn, by exact string equality. */
  datatype Handler = DeltaHandler | GetAcceptedHandler | GetRejectedHandler | NoHandler

  /** The router's topic test. Each handler is chosen exactly for its own topic, so
      a message reaches at most one handler. */
  function Route(topic: string): (h: Handler)
    ensures h == DeltaHandler <==> topic == ShadowDeltaTopic
    ensures h == GetAcceptedHandler <==> topic == ShadowGetAccepted
    ensures h == GetRejectedHandler <==> topic == ShadowGetRejected
  {
    SubscribedTopicsDistinct(DeviceId);
    if topic == ShadowDeltaTopic then DeltaHandler
    else if topic == ShadowGetAccepted then GetAcceptedHandler
    else if topic == ShadowGetRejected then GetRejectedHandler
    else NoHandler
  }

  /** A message on the subscribed error topic reaches no handler. */
  lemma ErrorTopicReachesNoHandler()
    ensures Route(DbErrorTopic) == NoHandler
  {
    SubscribedTopicsDistinct(DeviceId);
  }

  /** Nothing the agent publishes can come back to one of its own handlers. */
  lemma OutboundTopicsReachNoHandler(t: string)
    requires t == TelemetryTopic || t == ShadowGetTopic || t == ShadowUpdateTopic
    ensures Route(t) == NoHandler
  {
    OutboundTopicsNotSubscribed(DeviceId, t);
  }
}
