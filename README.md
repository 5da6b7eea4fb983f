# gleipnir-publish: the buffering publisher, modelled in Dafny

`publisher(client, opts)` in `src/index.js` returns a small object with two
operations, `publish(content, msgOpts)` and `sendToQueue(queue, content,
msgOpts)`. Until the client calls the listener registered through
`addReadyListener`, every call is pushed onto an in-memory message queue.
When the listener fires with an AMQP channel, the publisher keeps the
channel, raises its `isReady` latch and drains the queue front to back
through the same two operations. From then on every call goes straight to
the channel. A direct call merges the instance options with the per-call
options. It takes the exchange and routing key from the per-call value when
that value is truthy, otherwise from the instance default. It drops those two
keys from the options it forwards and turns text content into a byte buffer.

Files:

- `wrappers.dfy`: `Option` and `Result`.
- `utf8.dfy`: UTF-8 encoding of text (`new Buffer(string)`), a strict decoder, and the round trip between them.
- `dispatch.dfy`: the pure parts. It has option values and their JavaScript truthiness, the option merge (`assign`), key removal (`omit`) and route resolution. It also has content coercion, the channel call each operation makes, and the replay of a buffered record.
- `publisher.dfy`: the closure state as a class `Publisher` (`options`, `messageQueue`, `isReady`, `channel`). It also holds the channel as a call log (`Channel`), the client with its listener registration (`Client`), and the client check (`NewPublisher`).
- `scenarios.dfy`: the repository's five test cases, one method each, stated for any message bodies and proved against the class.

Main invariants. `Publisher.Valid()` says a channel is held exactly when
`isReady` is set. `Publisher.Idle()` adds that a ready publisher has an empty
queue. Every public operation preserves `Idle()`; only the flush loop passes
through ready states with a non-empty queue. No method ever clears `isReady`.
`options` is a `const`, so none of the publisher's own operations can change
the instance options.

One consequence of the code as written: a record buffered by
`sendToQueue("", …)` is replayed through `publish`, because the flush tests
the queue name for truthiness. The same call made after readiness reaches the
channel as `sendToQueue("")`. `Dispatch.EmptyQueueNameReplaysAsPublish`
proves that the two channel calls differ.

## Model

| member | source | states |
|---|---|---|
| `BufferingPublisher.NewPublisher` | src/index.js:13-32 | fails with `InvalidClient` exactly when the client is missing or its `addReadyListener` is not a function, leaving the client unchanged; otherwise returns a fresh, not-ready publisher with an empty queue and the given options, registered exactly once as a ready listener |
| `BufferingPublisher.Publisher.constructor` | src/index.js:19-23 | instance options as given, empty queue, latch down, no channel |
| `BufferingPublisher.Publisher.OnReady` | src/index.js:39-44 | afterwards the publisher is ready, holds the given channel and has an empty queue; the channel log has gained exactly the replay of the old queue, one call per record in FIFO order |
| `BufferingPublisher.Publisher.Publish` | src/index.js:53-69 | not ready: appends exactly `Pub(content, msgOpts)` to the queue, touches no channel and returns the new queue length; ready: returns nothing, queue unchanged and exactly one publish call, with resolved exchange and routing key, bytes and forwarded options, appended to the channel log; latch and channel unchanged, `Idle()` preserved |
| `BufferingPublisher.Publisher.SendToQueue` | src/index.js:79-95 | not ready: appends exactly `Send(queue, content, msgOpts)` to the queue and returns the new queue length; ready: returns nothing, queue unchanged and exactly one send call with the queue name as given, bytes and forwarded options; latch and channel unchanged, `Idle()` preserved |
| `BufferingPublisher.Publisher.FlushQueue` | src/index.js:102-113 | drains the queue to empty and appends to the channel log exactly the replay of the old queue, in order; no record is queued again |
| `BufferingPublisher.Channel.Publish` | src/index.js:63-68 | the channel records one publish call with the arguments it received |
| `BufferingPublisher.Channel.SendToQueue` | src/index.js:90-94 | the channel records one send call with the arguments it received |
| `Dispatch.Merge` | src/index.js:61 | `assign({}, options, msgOpts)`: the merged keys are the union of both; a per-call value wins on a shared key, and every other key keeps the instance value |
| `Dispatch.Omit` | src/index.js:67 | `omit(m, keys)`: exactly the keys of `m` outside `keys` remain, with their values |
| `Dispatch.ForwardedOptions` | src/index.js:61-67 | the forwarded options never contain `exchangeName` or `routingKey`; every other key is present iff it is in the instance or the per-call options, with the per-call value winning |
| `Dispatch.ForwardedOptionsEmpty` | src/index.js:67 | options made of routing keys alone forward as the empty object |
| `Dispatch.ResolveRoute` | src/index.js:61-65 | the resolved exchange or routing key is the per-call value when present and truthy, else the instance default (possibly `undefined`) |
| `Dispatch.PublishCallFor` | src/index.js:63-68 | the arguments of `channel.publish`: each of exchange and routing key is the per-call value when truthy, else the instance default; bytes pass unchanged and text becomes bytes that decode back to it; the forwarded options are `ForwardedOptions`: the instance options overridden by the per-call ones, without either routing key |
| `Dispatch.SendCallFor` | src/index.js:90-94 | the arguments of `channel.sendToQueue`: the queue name as given, the content coerced as for `publish`, and the forwarded options are `ForwardedOptions`: the instance options overridden by the per-call ones (so a per-call `foo` reaches the channel), without either routing key |
| `Dispatch.ToBytes` | src/index.js:66 | a byte buffer passes through unchanged; text becomes bytes that decode back to the same text |
| `Dispatch.ReplayCall` | src/index.js:107-111 | a replayed record becomes a send call iff it came from `sendToQueue` with a non-empty queue name; content, forwarded options, queue name and routes are those of the direct call |
| `Dispatch.ReplayCalls` | src/index.js:104-112 | a flush makes exactly one channel call per buffered record |
| `Dispatch.ReplayCallsAt` | src/index.js:104-105 | FIFO: the i-th call of a flush is the replay of the i-th record |
| `Dispatch.EmptyQueueNameReplaysAsPublish` | src/index.js:107-110 | a buffered `sendToQueue` with an empty queue name is replayed as `publish`, and that call differs from the `sendToQueue("")` the same call makes after readiness |
| `Utf8.EncodeChar` | src/index.js:66 | a character encodes to one to four bytes; the first byte is ASCII iff the encoding is one byte; the others are continuation bytes |
| `Utf8.DecodeFirst` | test/publish.test.js:113-117 | when decoding succeeds, it consumes one to four bytes and never more than are present |
| `Utf8.Encode` | src/index.js:66 | `new Buffer(text)`: the bytes always decode back to the text (proved by induction over the text) |
| `Utf8.DecodeFirstEncodeChar` | src/index.js:66 | a character's encoding decodes to that character, whatever bytes follow |
| `Scenarios.ClientCheck` | test/publish.test.js:14-21 | a missing client and a client with a non-function hook are refused; a client with a hook is accepted and gets the publisher as its one listener |
| `Scenarios.BufferUntilReady` | test/publish.test.js:24-39 | before readiness the channel has no calls; after it, two publish calls and one send call, in call order, carrying the encoded bodies |
| `Scenarios.BuffersFromText` | test/publish.test.js:41-63 | with instance defaults for exchange and routing key, a buffered text body reaches the channel as its encoding with both defaults, and a buffered byte buffer with a truthy per-call `exchangeName` reaches it unchanged with that exchange and the default routing key |
| `Scenarios.OverrideRouteReplay` | test/publish.test.js:65-90 | each record replays with its truthy per-call exchange or routing key and the instance default for the other, and with empty channel options |
| `Scenarios.OverrideRoute` | test/publish.test.js:65-90 | the three publishes reach the channel in order as (`ex`,`ehh`), (`baz`,`key`), (`ex`,`key`) with their encoded bodies |
| `Scenarios.SendDirect` | test/publish.test.js:92-110 | `sendToQueue` forwards the queue name, text as its encoding, extra per-call options, and a buffer unchanged |

## Left out

- The AMQP channel is only a log of the calls made on it (`Channel.calls`). Its return values are not modelled. Neither are its exceptions: a throw during the flush would lose the record already shifted off the queue and stop the flush.
- The client's side of readiness is out of scope. The model does not cover when or how often the client calls the listener, `process.nextTick`, or the test mocks and spies. A call of `Publisher.OnReady` stands for the client firing the listener.
- `OnReady` fired more than once is allowed, as in the code: it reassigns the channel and flushes whatever is queued, which is nothing between public calls.
- Values are copied, but JavaScript objects are shared by reference. `var options = opts || {}` keeps the caller's object, so a later change to it by the caller would change the routes and options of every later call. The model's `options` is a snapshot taken at construction.
- Buffered records hold the caller's `content` buffer and `msgOpts` object by reference. A change the caller makes to them before readiness shows up in the replay: for example, `b[0] = 0x79` after `publish(b)` replays the changed bytes. The model's queue stores values, so the replay uses the content as it was at the call.
- `OnReady` takes a channel object. The source's `onReady` accepts any value: a client that fires it with `undefined` raises the latch with no channel, and the first channel call (a replay, or the first call made after readiness when nothing was buffered) then throws a `TypeError`. The model, whose `Valid()` ties `isReady` to holding a channel, cannot express that state.
- Re-entrant calls from the channel back into the publisher during a flush are not modelled.
- `lodash.assign` and `lodash.omit` are modelled as map override and key removal on own properties. Prototypes, getters, non-enumerable properties and key order are not modelled.
- A missing `opts` or `msgOpts` is the empty map. `opts || {}` and `assign` with an `undefined` source behave the same way. A buffered record therefore stores `{}` where the code stores `undefined`, with the same effect on replay.
- Every falsy client value (`undefined`, `null`, `false`, `0`, `""`) is the null client. The type of `addReadyListener` is a boolean "is a function".
- Option values are a small JavaScript value type. Numbers are integers, so floating point, `NaN` and `-0` (both falsy in JavaScript) are not modelled. Objects are opaque.
- Queue names are strings, and truthiness of a queue name means "non-empty". Non-string queue names are not modelled.
- Content is a byte buffer or text. Coercion of other runtime values (numbers, objects) by `new Buffer` is not modelled. Dafny characters are Unicode scalar values, so JavaScript strings with unpaired surrogates are not modelled. Node would encode those as U+FFFD.
- `Utf8.Decode` is a strict reference decoder that rejects malformed input. Node's `toString()` would substitute U+FFFD instead. The model uses the decoder only to state the round trip of text content.
