/** The publisher's test scenarios, replayed against the model for any
    message bodies: a client that fires readiness is stood for by a direct
    call of `OnReady`, and what the channel spy records is the channel's
    call log. */
module Scenarios {
  import opened Wrappers
  import opened Dispatch
  import opened BufferingPublisher
  import Utf8

  /** A missing client and a client whose `addReadyListener` is not a
      function are refused; a client with the hook is accepted. */
  method ClientCheck() returns (missingRefused: bool, nonFunctionRefused: bool, validAccepted: bool)
    ensures missingRefused && nonFunctionRefused && validAccepted
  {
    var r0 := NewPublisher(null, map[]);
    var noHook := new Client(false);
    var r1 := NewPublisher(noHook, map[]);
    var withHook := new Client(true);
    var r2 := NewPublisher(withHook, map[]);
    missingRefused := r0 == Failure(InvalidClient);
    nonFunctionRefused := r1 == Failure(InvalidClient);
    validAccepted := r2.Success? && withHook.readyListeners == [r2.value];
  }

  /** Two publishes and one send made before readiness reach the channel
      only when readiness fires, and then in call order. */
  method BufferUntilReady(first: string, second: string, queue: string, third: string)
    returns (before: seq<ChannelCall>, after: seq<ChannelCall>)
    requires queue != ""
    ensures before == []
    ensures |after| == 3
    ensures after[0].PublishCall? && Utf8.Decode(after[0].content) == Some(first)
    ensures after[1].PublishCall? && Utf8.Decode(after[1].content) == Some(second)
    ensures after[2].SendToQueueCall? && after[2].queue == queue
    ensures Utf8.Decode(after[2].content) == Some(third)
  {
    var client := new Client(true);
    var r := NewPublisher(client, map[]);
    var p := r.value;
    var chan := new Channel();
    var _ := p.Publish(Text(first), map[]);
    var _ := p.Publish(Text(second), map[]);
    var _ := p.SendToQueue(queue, Text(third), map[]);
    before := chan.calls;
    var pending := p.messageQueue;
    assert pending == [Pub(Text(first), map[]), Pub(Text(second), map[]), Send(queue, Text(third), map[])];
    p.OnReady(chan);
    after := chan.calls;
    ReplayCallsAt(map[], pending, 0);
    ReplayCallsAt(map[], pending, 1);
    ReplayCallsAt(map[], pending, 2);
  }

  /** A text body and a byte buffer published before readiness both reach
      the channel as bytes: the text as its encoding, the buffer unchanged;
      a truthy per-call `exchangeName` replaces the instance default while
      the routing key stays the default. */
  method BuffersFromText(ex: Value, key: Value, baz: Value, first: string, b: Utf8.Bytes)
    returns (calls: seq<ChannelCall>)
    requires Truthy(baz)
    ensures calls == [PublishCall(ex, key, Utf8.Encode(first), map[]),
                      PublishCall(baz, key, b, map[])]
  {
    var defaults := map[ExchangeKey := ex, RoutingKey := key];
    var client := new Client(true);
    var r := NewPublisher(client, defaults);
    var p := r.value;
    var chan := new Channel();
    var _ := p.Publish(Text(first), map[]);
    var _ := p.Publish(Raw(b), map[ExchangeKey := baz]);
    var pending := p.messageQueue;
    p.OnReady(chan);
    calls := chan.calls;
    ReplayCallsAt(defaults, pending, 0);
    ReplayCallsAt(defaults, pending, 1);
    ForwardedOptionsEmpty(defaults, map[]);
    ForwardedOptionsEmpty(defaults, map[ExchangeKey := baz]);
  }

  /** How each of the three records of `OverrideRoute` is replayed: a
      truthy per-call routing value wins over the instance default, and the
      channel options are empty. */
  lemma OverrideRouteReplay(ex: Value, key: Value, ehh: Value, baz: Value,
                            first: string, second: string, third: string)
    requires Truthy(ehh) && Truthy(baz)
    ensures ReplayCall(map[ExchangeKey := ex, RoutingKey := key], Pub(Text(first), map[RoutingKey := ehh]))
         == PublishCall(ex, ehh, Utf8.Encode(first), map[])
    ensures ReplayCall(map[ExchangeKey := ex, RoutingKey := key], Pub(Text(second), map[ExchangeKey := baz]))
         == PublishCall(baz, key, Utf8.Encode(second), map[])
    ensures ReplayCall(map[ExchangeKey := ex, RoutingKey := key], Pub(Text(third), map[]))
         == PublishCall(ex, key, Utf8.Encode(third), map[])
  {
  }

  /** With instance defaults for the exchange and routing key, a truthy
      per-call `routingKey` or `exchangeName` replaces only that default,
      and neither key is forwarded in the channel options. */
  method OverrideRoute(ex: Value, key: Value, ehh: Value, baz: Value,
                       first: string, second: string, third: string)
    returns (calls: seq<ChannelCall>)
    requires Truthy(ehh) && Truthy(baz)
    ensures calls == [PublishCall(ex, ehh, Utf8.Encode(first), map[]),
                      PublishCall(baz, key, Utf8.Encode(second), map[]),
                      PublishCall(ex, key, Utf8.Encode(third), map[])]
  {
    var defaults := map[ExchangeKey := ex, RoutingKey := key];
    var client := new Client(true);
    var r := NewPublisher(client, defaults);
    var p := r.value;
    var chan := new Channel();
    var _ := p.Publish(Text(first), map[RoutingKey := ehh]);
    var _ := p.Publish(Text(second), map[ExchangeKey := baz]);
    var _ := p.Publish(Text(third), map[]);
    var pending := p.messageQueue;
    p.OnReady(chan);
    calls := chan.calls;
    ReplayCallsAt(defaults, pending, 0);
    ReplayCallsAt(defaults, pending, 1);
    ReplayCallsAt(defaults, pending, 2);
    OverrideRouteReplay(ex, key, ehh, baz, first, second, third);
  }

  /** `sendToQueue` forwards the queue name as given, text as its encoding,
      a buffer unchanged, and extra per-call options alongside. */
  method SendDirect(text: string, buffer: Utf8.Bytes) returns (calls: seq<ChannelCall>)
    ensures |calls| == 2
    ensures calls[0].SendToQueueCall? && calls[0].queue == "queueName"
    ensures Utf8.Decode(calls[0].content) == Some(text)
    ensures "foo" in calls[0].options && calls[0].options["foo"] == Str("bar")
    ensures calls[1] == SendToQueueCall("queueName", buffer, map[])
  {
    var client := new Client(true);
    var r := NewPublisher(client, map[]);
    var p := r.value;
    var chan := new Channel();
    var _ := p.SendToQueue("queueName", Text(text), map["foo" := Str("bar")]);
    var _ := p.SendToQueue("queueName", Raw(buffer), map[]);
    var pending := p.messageQueue;
    p.OnReady(chan);
    calls := chan.calls;
    ReplayCallsAt(map[], pending, 0);
    ReplayCallsAt(map[], pending, 1);
    ForwardedOptionsEmpty(map[], map[]);
  }
}
