/** The buffering publisher: a client-bound object that queues `publish` and
    `sendToQueue` calls until the client reports readiness with a channel,
    then replays the queue in order and forwards every later call directly. */
module BufferingPublisher {
  import opened Wrappers
  import opened Dispatch
  import Utf8

  /** The AMQP channel, seen only through the calls made on it: each call is
      appended to `calls`, and nothing it returns is consulted. */
  class Channel {
    var calls: seq<ChannelCall>

    constructor ()
      ensures calls == []
    {
      calls := [];
    }

    method Publish(exchange: Value, routingKey: Value, content: Utf8.Bytes, opts: Options)
      modifies this
      ensures calls == old(calls) + [PublishCall(exchange, routingKey, content, opts)]
    {
      calls := calls + [PublishCall(exchange, routingKey, content, opts)];
    }

    method SendToQueue(queue: string, content: Utf8.Bytes, opts: Options)
      modifies this
      ensures calls == old(calls) + [SendToQueueCall(queue, content, opts)]
    {
      calls := calls + [SendToQueueCall(queue, content, opts)];
    }
  }

  /** The client the publisher attaches to. `hasReadyHook` says whether its
      `addReadyListener` property is a function; `readyListeners` are the
      publishers registered through it. */
  class Client {
    var hasReadyHook: bool
    var readyListeners: seq<Publisher>

    constructor (hasReadyHook: bool)
      ensures this.hasReadyHook == hasReadyHook && readyListeners == []
    {
      this.hasReadyHook := hasReadyHook;
      readyListeners := [];
    }
  }

  datatype Error = InvalidClient

  class Publisher {
    /** The instance options; never reassigned. */
    const options: Options
    /** Calls made before readiness, oldest first. */
    var messageQueue: seq<Pending>
    /** Set once the client has supplied a channel; never reset. */
    var isReady: bool
    var channel: Channel?

    /** A channel is held exactly when the publisher is ready. */
    ghost predicate Valid()
      reads this
    {
      isReady <==> channel != null
    }

    /** The state between two public calls: once ready, nothing is left in
        the pending queue. Only the flush loop, while it runs, sees a ready
        publisher with a non-empty queue. */
    ghost predicate Idle()
      reads this
    {
      Valid() && (isReady ==> messageQueue == [])
    }

    constructor (opts: Options)
      ensures Idle()
      ensures options == opts && messageQueue == [] && !isReady && channel == null
    {
      options := opts;
      messageQueue := [];
      isReady := false;
      channel := null;
    }

    /** The readiness listener: take the channel, raise the latch, and
        replay everything buffered so far, oldest first. */
    method OnReady(chan: Channel)
      requires Valid()
      modifies this, chan
      ensures Idle() && isReady && channel == chan
      ensures chan.calls == old(chan.calls) + ReplayCalls(options, old(messageQueue))
    {
      channel := chan;
      isReady := true;
      FlushQueue();
    }

    /** Publish `content` to the resolved exchange with the resolved routing
        key. Before readiness the call is only recorded, and the new queue
        length is returned (what `push` returns); afterwards nothing is. */
    method Publish(content: Content, msgOpts: Options) returns (pushed: Option<nat>)
      requires Valid()
      modifies this, channel
      ensures Valid() && isReady == old(isReady) && channel == old(channel)
      ensures old(Idle()) ==> Idle()
      ensures !old(isReady) ==> messageQueue == old(messageQueue) + [Pub(content, msgOpts)]
      ensures pushed == if old(isReady) then None else Some(|messageQueue|)
      ensures old(isReady) ==>
        messageQueue == old(messageQueue) &&
        channel.calls == old(channel.calls) + [PublishCallFor(options, content, msgOpts)]
    {
      if !isReady {
        messageQueue := messageQueue + [Pub(content, msgOpts)];
        return Some(|messageQueue|);
      }
      pushed := None;
      var merged := Merge(options, msgOpts);
      channel.Publish(
        Or(Lookup(merged, ExchangeKey), Lookup(options, ExchangeKey)),
        Or(Lookup(merged, RoutingKey), Lookup(options, RoutingKey)),
        ToBytes(content),
        Omit(merged, RouteKeys));
    }

    /** Send `content` straight to `queue`. Before readiness the call is only
        recorded, and the new queue length is returned. */
    method SendToQueue(queue: string, content: Content, msgOpts: Options) returns (pushed: Option<nat>)
      requires Valid()
      modifies this, channel
      ensures Valid() && isReady == old(isReady) && channel == old(channel)
      ensures old(Idle()) ==> Idle()
      ensures !old(isReady) ==> messageQueue == old(messageQueue) + [Send(queue, content, msgOpts)]
      ensures pushed == if old(isReady) then None else Some(|messageQueue|)
      ensures old(isReady) ==>
        messageQueue == old(messageQueue) &&
        channel.calls == old(channel.calls) + [SendCallFor(options, queue, content, msgOpts)]
    {
      if !isReady {
        messageQueue := messageQueue + [Send(queue, content, msgOpts)];
        return Some(|messageQueue|);
      }
      pushed := None;
      var merged := Merge(options, msgOpts);
      channel.SendToQueue(queue, ToBytes(content), Omit(merged, RouteKeys));
    }

    /** Drain the pending queue from the front, replaying each record through
        `SendToQueue` when its queue name is truthy and `Publish` otherwise.
        The publisher is ready, so no replay is queued again. */
    method FlushQueue()
      requires Valid() && isReady
      modifies this, channel
      ensures Idle() && isReady && channel == old(channel)
      ensures channel.calls == old(channel.calls) + ReplayCalls(options, old(messageQueue))
    {
      while messageQueue != []
        invariant Valid() && isReady && channel == old(channel)
        invariant channel.calls + ReplayCalls(options, messageQueue)
               == old(channel.calls) + ReplayCalls(options, old(messageQueue))
        decreases |messageQueue|
      {
        var msg := messageQueue[0];
        messageQueue := messageQueue[1..];
        if msg.Send? && msg.queue != "" {
          var _ := SendToQueue(msg.queue, msg.content, msg.opts);
        } else {
          var _ := Publish(msg.content, msg.opts);
        }
      }
    }
  }

  /** `publisher(client, opts)`: refuse a missing client or one whose
      `addReadyListener` is not a function; otherwise create the publisher
      and register its readiness listener with the client, once. A missing
      `opts` is the empty map. */
  method NewPublisher(client: Client?, opts: Options) returns (r: Result<Publisher, Error>)
    modifies client
    ensures r.Failure? <==> client == null || !old(client.hasReadyHook)
    ensures r.Failure? ==> r.error == InvalidClient && (client != null ==> unchanged(client))
    ensures r.Success? ==>
      && fresh(r.value)
      && r.value.Idle() && !r.value.isReady && r.value.messageQueue == []
      && r.value.options == opts
      && client.hasReadyHook == old(client.hasReadyHook)
      && client.readyListeners == old(client.readyListeners) + [r.value]
  {
    if client == null || !client.hasReadyHook {
      return Failure(InvalidClient);
    }
    var p := new Publisher(opts);
    client.readyListeners := client.readyListeners + [p];
    r := Success(p);
  }
}
