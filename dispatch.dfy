/** The pure part of the publisher: the option values it handles, the option
    merge, the resolution of the exchange and routing key, the removal of
    the two routing keys from what is forwarded, the coercion of message
    content to bytes, and the channel call each message turns into, either
    directly or when it is replayed from the pending queue. */
module Dispatch {
  import opened Wrappers
  import Utf8

  /** A JavaScript value as far as the publisher looks at it: only its
      truthiness matters, everything else is passed through untouched. */
  datatype Value =
    | Undefined
    | Null
    | Bool(b: bool)
    | Number(n: int)
    | Str(s: string)
    | Object(id: nat)

  /** JavaScript truthiness. */
  predicate Truthy(v: Value) {
    match v
    case Undefined => false
    case Null => false
    case Bool(b) => b
    case Number(n) => n != 0
    case Str(s) => s != ""
    case Object(_) => true
  }

  /** An options object: property name to value. A missing property reads
      as `undefined`. */
  type Options = map<string, Value>

  const ExchangeKey: string := "exchangeName"
  const RoutingKey: string := "routingKey"
  /** The two keys that choose the destination and are never forwarded. */
  const RouteKeys: set<string> := {ExchangeKey, RoutingKey}

  /** Property access `m[key]`. */
  function Lookup(m: Options, key: string): (v: Value)
  {
    if key in m then m[key] else Undefined
  }

  /** JavaScript `a || b`: the left operand when it is truthy, the right one
      otherwise. */
  function Or(a: Value, b: Value): (v: Value)
  {
    if Truthy(a) then a else b
  }

  /** `assign({}, defaults, overrides)`: a fresh object with every property
      of both, the overriding value winning on a shared key. Neither input
      is changed (both are values). */
  function Merge(defaults: Options, overrides: Options): (m: Options)
    ensures m.Keys == defaults.Keys + overrides.Keys
    ensures forall k :: k in overrides ==> m[k] == overrides[k]
    ensures forall k :: k in defaults && k !in overrides ==> m[k] == defaults[k]
  {
    defaults + overrides
  }

  /** `omit(m, keys)`: a copy of `m` without the given properties. */
  function Omit(m: Options, keys: set<string>): (r: Options)
    ensures r.Keys == m.Keys - keys
    ensures forall k :: k in r ==> r[k] == m[k]
  {
    m - keys
  }

  /** The options handed to the channel: the instance options overridden by
      the per-call options, with `exchangeName` and `routingKey` removed. */
  function ForwardedOptions(defaults: Options, perCall: Options): (r: Options)
    ensures r.Keys !! RouteKeys
    ensures forall k :: k !in RouteKeys ==> (k in r <==> k in defaults || k in perCall)
    ensures forall k :: k in r ==> r[k] == if k in perCall then perCall[k] else defaults[k]
  {
    Omit(Merge(defaults, perCall), RouteKeys)
  }

  /** When the instance and per-call options hold nothing but the routing
      keys, the channel receives empty options. */
  lemma ForwardedOptionsEmpty(defaults: Options, perCall: Options)
    requires defaults.Keys <= RouteKeys && perCall.Keys <= RouteKeys
    ensures ForwardedOptions(defaults, perCall) == map[]
  {
  }

  /** `msgOpts[key] || options[key]` where `msgOpts` is already the merged
      object: the per-call value when it is present and truthy, the instance
      default otherwise (which may itself be `undefined` or falsy). */
  function ResolveRoute(defaults: Options, perCall: Options, key: string): (v: Value)
    ensures key in perCall && Truthy(perCall[key]) ==> v == perCall[key]
    ensures !(key in perCall && Truthy(perCall[key])) ==> v == Lookup(defaults, key)
  {
    Or(Lookup(Merge(defaults, perCall), key), Lookup(defaults, key))
  }

  /** A message body: a byte buffer, or text that is coerced to one. */
  datatype Content = Raw(bytes: Utf8.Bytes) | Text(text: string)

  /** `Buffer.isBuffer(content) ? content : new Buffer(content)`. */
  function ToBytes(content: Content): (r: Utf8.Bytes)
    ensures content.Raw? ==> r == content.bytes
    ensures content.Text? ==> Utf8.Decode(r) == Some(content.text)
  {
    match content
    case Raw(bytes) => bytes
    case Text(text) => Utf8.Encode(text)
  }

  /** One call on the channel, with the arguments it received. */
  datatype ChannelCall =
    | PublishCall(exchange: Value, routingKey: Value, content: Utf8.Bytes, options: Options)
    | SendToQueueCall(queue: string, content: Utf8.Bytes, options: Options)

  /** The channel call `publish(content, perCall)` makes once the publisher
      is ready. */
  function PublishCallFor(defaults: Options, content: Content, perCall: Options): (call: ChannelCall)
    ensures call.PublishCall?
    ensures ExchangeKey in perCall && Truthy(perCall[ExchangeKey]) ==> call.exchange == perCall[ExchangeKey]
    ensures !(ExchangeKey in perCall && Truthy(perCall[ExchangeKey])) ==> call.exchange == Lookup(defaults, ExchangeKey)
    ensures RoutingKey in perCall && Truthy(perCall[RoutingKey]) ==> call.routingKey == perCall[RoutingKey]
    ensures !(RoutingKey in perCall && Truthy(perCall[RoutingKey])) ==> call.routingKey == Lookup(defaults, RoutingKey)
    ensures content.Raw? ==> call.content == content.bytes
    ensures content.Text? ==> Utf8.Decode(call.content) == Some(content.text)
    ensures call.options == ForwardedOptions(defaults, perCall)
  {
    PublishCall(
      ResolveRoute(defaults, perCall, ExchangeKey),
      ResolveRoute(defaults, perCall, RoutingKey),
      ToBytes(content),
      ForwardedOptions(defaults, perCall))
  }

  /** The channel call `sendToQueue(queue, content, perCall)` makes once the
      publisher is ready. */
  function SendCallFor(defaults: Options, queue: string, content: Content, perCall: Options): (call: ChannelCall)
    ensures call.SendToQueueCall? && call.queue == queue
    ensures content.Raw? ==> call.content == content.bytes
    ensures content.Text? ==> Utf8.Decode(call.content) == Some(content.text)
    ensures call.options == ForwardedOptions(defaults, perCall)
  {
    SendToQueueCall(queue, ToBytes(content), ForwardedOptions(defaults, perCall))
  }

  /** A call buffered before readiness: what `publish` or `sendToQueue`
      pushed onto the pending queue. */
  datatype Pending =
    | Pub(content: Content, opts: Options)
    | Send(queue: string, content: Content, opts: Options)

  /** The channel call a buffered record turns into when the queue is
      flushed: a record whose queue name is truthy goes through
      `sendToQueue`, every other record through `publish`. */
  function ReplayCall(defaults: Options, rec: Pending): (call: ChannelCall)
    ensures call.SendToQueueCall? <==> rec.Send? && rec.queue != ""
    ensures call.content == ToBytes(rec.content)
    ensures call.options == ForwardedOptions(defaults, rec.opts)
    ensures call.SendToQueueCall? ==> call.queue == rec.queue
    ensures call.PublishCall? ==>
      call.exchange == ResolveRoute(defaults, rec.opts, ExchangeKey) &&
      call.routingKey == ResolveRoute(defaults, rec.opts, RoutingKey)
  {
    match rec
    case Send(queue, content, opts) =>
      if queue != "" then SendCallFor(defaults, queue, content, opts)
      else PublishCallFor(defaults, content, opts)
    case Pub(content, opts) => PublishCallFor(defaults, content, opts)
  }

  /** The channel calls a flush of `recs` makes, in queue order. */
  function ReplayCalls(defaults: Options, recs: seq<Pending>): (calls: seq<ChannelCall>)
    ensures |calls| == |recs|
  {
    if recs == [] then []
    else [ReplayCall(defaults, recs[0])] + ReplayCalls(defaults, recs[1..])
  }

  /** FIFO: the i-th call of a flush is the replay of the i-th record. */
  lemma {:induction false} ReplayCallsAt(defaults: Options, recs: seq<Pending>, i: nat)
    requires i < |recs|
    ensures ReplayCalls(defaults, recs)[i] == ReplayCall(defaults, recs[i])
  {
    if i > 0 {
      ReplayCallsAt(defaults, recs[1..], i - 1);
    }
  }

  /** A record buffered by `sendToQueue` with an empty queue name is
      replayed as a `publish` to the resolved exchange, and so differs from
      what the same call made after readiness sends: `sendToQueue("")`. */
  lemma EmptyQueueNameReplaysAsPublish(defaults: Options, content: Content, perCall: Options)
    ensures ReplayCall(defaults, Send("", content, perCall)) == PublishCallFor(defaults, content, perCall)
    ensures ReplayCall(defaults, Send("", content, perCall)) != SendCallFor(defaults, "", content, perCall)
  {
  }
}
