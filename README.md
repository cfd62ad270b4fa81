# Blather websocket client — a Dafny model of its core

Blather is a websocket client library built on Netty. This project models:

- the life of one client request (`ReqImpl`);
- its exception collector (`ExceptionCollectorImpl`);
- the pipeline handler that finishes the handshake and dispatches frames (`WebSocketClientHandler`);
- the `ChannelControl` that user code receives;
- the conversions between Java objects and frames (`toWebSocketFrame`, `callbackFor`, `JsonFrameCallback`).

Each piece of the model takes the form its source has:

- **Pure conversions.** Conversions and classifications are functions over datatypes:
  - `Conversion`: frames, callbacks, payloads and replies;
  - `ClientHandler.Classify`: the branch `channelRead0` takes;
  - `ClientHandler.Dispatch`: one call of the callback slot.
- **Stateful objects.** Objects whose fields change are classes, and each method states the new state:
  - `Collector.ExceptionCollector`;
  - `ClientHandler.Handler`;
  - `Request.Req`;
  - `Transport.Channel`, the part of a Netty channel the client uses.
- **Loops.** The listener loops are `while` loops proved against the pure functions:
  - the `onConnects` loop against `Request.Announce`;
  - the `onDisconnects` loop against `Request.Notices`.
- **Pure specifications.** Each collector method is specified by a pure function (`AfterException`, `AfterRethrow`). Lemmas prove properties of these functions over whole runs of events:
  - no failure is recorded twice;
  - the primary failure is never overwritten;
  - suppressed failures keep their order.
- **Events.** Netty delivers work as events on the event loop: connect results, reads, exceptions, close-future listeners and queued tasks. Each event is one method of `Request.Req`. `Req.Valid()` is the invariant over the request, its handler and its collector that every event preserves. It states:
  - the request has a handler exactly when it has started, and the handler shares its collector;
  - nothing is announced before the handshake succeeds, and the handshake succeeds at most once;
  - `await` is released once the connection has failed, been refused or closed.

  That only the first connect task connects is stated by `Req.RunConnectTask`. `Req.PeerClosed` stands for the peer or the network closing the channel. It models no client code, so it has no row below.

Code that cannot be seen is represented by values:

- **Throwables** are identities (`nat`), compared by identity as the collector's `seen` set does.
- **User code** is opaque. What a callback does when called is given as a `Reaction`: the last `nextCallback` it made, whether it called `close()`, and what it returned or threw.
- **UTF-8 and the Jackson mapper** are the uninterpreted functions of a `Codec`.
- **Exceptions the client itself raises** are parameters carrying an identity: a failed cast, or `setSuccess` on a completed promise. Each is a newly built object in Java, so `ChannelRead` and `DataFrame` require that identity not to be among the failures the collector has already seen.

Where the documentation and the code disagree, the model follows the code, except in the one row under "## Findings":

- **What the error policy's result means.** `WebsocketErrorHandler.onError` is documented to return "true if the connection should be shut down". The code uses the result only to decide whether the failure is recorded (true: recorded), and it asks about the current primary failure `thrown`, not about the new one. Both are modelled as written. `Collector.PolicyRefusingNullRecordsNothing` states a consequence: a policy that refuses null keeps every failure out.
- **What the handler receives for a `WebSocketFrame` type.** `onMessage(type, handler)` wraps the handler in a `JsonFrameCallback` even when the type is `WebSocketFrame`, so the JSON mapper is asked to read a frame. The model does the same.

## Model

| member | source | states |
|---|---|---|
| Conversion.IndexFor | src/main/java/com/mastfrog/blather/WebSocketClientHandler.java:112-119 | a user callback receives no index; the index adapters pass their current `ix` |
| Conversion.AfterCall | src/main/java/com/mastfrog/blather/WebSocketClientHandler.java:113-119 | only the `nextCallback(handler)` adapter moves its index on, by one per call, and the handler called is unchanged |
| Conversion.CallbackFor | src/main/java/com/mastfrog/blather/WebSocketClientsImpl.java:480-486 | a callback is used as it is exactly when its type is `WebSocketFrame`; otherwise it is wrapped in a `JsonFrameCallback` for that type |
| Conversion.TypedCallbackAsWritten | src/main/java/com/mastfrog/blather/WebSocketClientsImpl.java:242-253 | as written, `onMessage(type, handler)` installs a JSON callback whose index is 0 and never moves |
| Conversion.TypedCallback | src/main/java/com/mastfrog/blather/WebSocketClientsImpl.java:242-253 | the corrected callback for `onMessage(type, handler)`: JSON-wrapped for the declared type, index 0 on the first message and 1 on the next |
| Conversion.ToWebSocketFrame | src/main/java/com/mastfrog/blather/WebSocketClientsImpl.java:488-504 | null gives no frame and only null does; a frame is itself; text becomes a UTF-8 text frame; anything else becomes a JSON binary frame, or the mapper's exception; only the mapper can throw |
| Conversion.PayloadFor | src/main/java/com/mastfrog/blather/WebSocketClientsImpl.java:536-551 | a direct callback gets the frame; String and CharSequence get the UTF-8 decoded text; other types get the mapper's reading; only that reading can throw |
| Conversion.ReplyFor | src/main/java/com/mastfrog/blather/WebSocketClientsImpl.java:543-550 | a JSON callback's reply goes through `toWebSocketFrame`; a direct callback's reply must be null or a frame, or the cast throws a ClassCastException |
| Conversion.ConnectTarget | src/main/java/com/mastfrog/blather/WebSocketClientsImpl.java:553-556 | `onConnect` reaches a user callback exactly when one is at the end of the chain, because `JsonFrameCallback` forwards it |
| Conversion.DisconnectTarget | src/main/java/com/mastfrog/blather/WebSocketClientHandler.java:159-164 | `onDisconnect` reaches the user only for a direct user callback, because `JsonFrameCallback` does not forward it |
| Conversion.TextRoundTrip | src/main/java/com/mastfrog/blather/WebSocketClientsImpl.java:496-498 | a String sent as a text frame reaches a String or CharSequence handler as the same characters whenever UTF-8 decoding undoes encoding |
| Collector.Recorded | src/main/java/com/mastfrog/blather/WebSocketClientsImpl.java:311-319 | a failure already seen is ignored; otherwise it is seen from now on and becomes the primary if there is none, or else is appended to the primary's suppressed list; the primary is never overwritten |
| Collector.AfterException | src/main/java/com/mastfrog/blather/WebSocketClientsImpl.java:303-320 | a failure the policy refuses, asked about the current primary, leaves no trace; any other failure is recorded |
| Collector.AfterRethrow | src/main/java/com/mastfrog/blather/WebSocketClientsImpl.java:294-300 | `rethrow` raises the primary, if any, and clears it into `lastThrown`; `seen` and the suppressed lists stay |
| Collector.DisconnectCause | src/main/java/com/mastfrog/blather/WebSocketClientsImpl.java:428 | disconnect listeners get the pending primary, else the last one rethrown |
| Collector.InitialInvariant | src/main/java/com/mastfrog/blather/WebSocketClientsImpl.java:289-291 | the empty collector satisfies the invariant |
| Collector.RecordedInvariant | src/main/java/com/mastfrog/blather/WebSocketClientsImpl.java:311-319 | recording keeps the invariant: everything recorded is seen, nothing appears twice, and the primary is never also suppressed |
| Collector.AfterExceptionInvariant | src/main/java/com/mastfrog/blather/WebSocketClientsImpl.java:303-320 | `onException` keeps the invariant |
| Collector.AfterRethrowInvariant | src/main/java/com/mastfrog/blather/WebSocketClientsImpl.java:294-300 | `rethrow` keeps the invariant |
| Collector.RunInvariant | src/main/java/com/mastfrog/blather/WebSocketClientsImpl.java:287-321 | no sequence of reports and rethrows breaks the invariant |
| Collector.SeenOnlyGrows | src/main/java/com/mastfrog/blather/WebSocketClientsImpl.java:291 | `seen` is never cleared, not even by `rethrow` |
| Collector.SeenFailureIgnored | src/main/java/com/mastfrog/blather/WebSocketClientsImpl.java:311-313 | a failure reported again, after any run, changes nothing: a failure seen along two paths is recorded once |
| Collector.ReportTwice | src/main/java/com/mastfrog/blather/WebSocketClientsImpl.java:311-314 | reporting the same failure twice in a row equals reporting it once |
| Collector.PrimaryKeptUntilRethrow | src/main/java/com/mastfrog/blather/WebSocketClientsImpl.java:315-319 | until the next `rethrow`, the primary stays what it is |
| Collector.SuppressedOnlyGrows | src/main/java/com/mastfrog/blather/WebSocketClientsImpl.java:316 | suppressed lists only grow at their end |
| Collector.ReportsWithoutPolicy | src/main/java/com/mastfrog/blather/WebSocketClientsImpl.java:303-320 | distinct failures reported with no policy: the first is the primary, the rest are its suppressed list in order, and all are seen |
| Collector.PolicyRefusingNullRecordsNothing | src/main/java/com/mastfrog/blather/WebSocketClientsImpl.java:304-309 | because the policy is asked about the primary, a policy that refuses null keeps every failure out |
| Collector.RethrowTwice | src/main/java/com/mastfrog/blather/WebSocketClientsImpl.java:462-467 | the second `rethrow` of `await` raises nothing and leaves `thrown` and `lastThrown` null |
| Collector.ExceptionCollector.constructor | src/main/java/com/mastfrog/blather/WebSocketClientsImpl.java:287-291 | a new collector is empty and has no policy |
| Collector.ExceptionCollector.SetPolicy | src/main/java/com/mastfrog/blather/WebSocketClientsImpl.java:274-277 | installs the error policy, or removes it for null, and changes nothing else |
| Collector.ExceptionCollector.OnException | src/main/java/com/mastfrog/blather/WebSocketClientsImpl.java:303-320 | the fields become `AfterException` of the old ones, and the invariant is kept |
| Collector.ExceptionCollector.Rethrow | src/main/java/com/mastfrog/blather/WebSocketClientsImpl.java:294-300 | the fields and the raised throwable are `AfterRethrow` of the old fields |
| Transport.Channel.WriteAndFlush | src/main/java/com/mastfrog/blather/WebSocketClientHandler.java:196-198 | a frame written to an open channel is appended to what was sent; a write to a closed one leaves no trace |
| Transport.Channel.Close | src/main/java/com/mastfrog/blather/WebSocketClientHandler.java:222 | the channel is closed and nothing more is sent |
| Transport.Channel.CloseGracefully | src/main/java/com/mastfrog/blather/WebSocketClientHandler.java:97-103 | an open channel is sent a close frame and then closed |
| ClientHandler.Classify | src/main/java/com/mastfrog/blather/WebSocketClientHandler.java:167-224 | before the handshake, a response finishes it and a frame fails the cast; after it, a response is unexpected; exactly text and binary frames reach the callback; pong is ignored; close closes the channel |
| ClientHandler.Installed | src/main/java/com/mastfrog/blather/WebSocketClientHandler.java:80-83 | `nextCallback(cb, type)` installs `callbackFor(cb, type)`; `nextCallback(handler, type)` installs a fresh counting adapter whose index is 0 (lines 111-122) |
| ClientHandler.Dispatch | src/main/java/com/mastfrog/blather/WebSocketClientHandler.java:194-201 | a payload that does not convert never reaches user code and its exception goes to `exceptionCaught`; otherwise user code is called with its index, a replacement it makes holds for the next message, and its reply is converted by the callback that produced it |
| ClientHandler.CountingIndices | src/main/java/com/mastfrog/blather/WebSocketClientHandler.java:111-122 | a counting adapter left in place tells its handler k, k+1, k+2, and so on, one per message |
| ClientHandler.FixedIndexAlwaysZero | src/main/java/com/mastfrog/blather/WebSocketClientsImpl.java:243-249 | the as-written adapter of `onMessage(type, handler)` tells its handler 0 on every message |
| ClientHandler.TypedIndexAsWrittenRepeats | src/main/java/com/mastfrog/blather/WebSocketClientsImpl.java:243-249 | as written, the second message such a handler receives comes with index 0, not 1 |
| ClientHandler.TypedIndicesCount | src/main/java/com/mastfrog/blather/WebsocketMessageHandler.java:37-38 | with the corrected adapter, message i to the handler comes with index i |
| ClientHandler.NextHandlerIndicesCount | src/main/java/com/mastfrog/blather/WebSocketClientHandler.java:111-122 | a handler installed with `nextCallback(handler, type)` gets indices 0, 1, 2, and so on |
| ClientHandler.ReplacementTakesEffectNext | src/main/java/com/mastfrog/blather/WebSocketClientHandler.java:80-83 | a replacement made while message n is handled sends message n+1 to the new handler, with index 0 |
| ClientHandler.HarnessReplacement | src/test/java/com/mastfrog/blather/HarnessTest.java:47-70 | in the harness scenario, on the adapter `onMessage(String.class, ...)` installs as written: handler A gets three messages, each with index 0 and each answered with its own "Hello: " text frame; B gets the fourth with index 0, replies nothing and closes; A never gets a fifth call |
| ClientHandler.Handler.constructor | src/main/java/com/mastfrog/blather/WebSocketClientHandler.java:57-65 | a handler starts with the given callback, no handshake, and no future |
| ClientHandler.Handler.HandlerAdded | src/main/java/com/mastfrog/blather/WebSocketClientHandler.java:136-148 | the handshake future is created and pending; nothing else changes |
| ClientHandler.Handler.ExceptionCaught | src/main/java/com/mastfrog/blather/WebSocketClientHandler.java:227-237 | the cause is recorded and a close is queued. A pending handshake fails with it, and its listener reports the cause again and queues a second close |
| ClientHandler.Handler.ChannelRead | src/main/java/com/mastfrog/blather/WebSocketClientHandler.java:167-224 | on an open or already closed channel, the effect of each branch (`ReadHandled`): handshake success exactly when its response arrives while pending; a rejected handshake, a stray frame or a late response goes to `exceptionCaught`; data frames are dispatched; close frames close the channel; other frames change nothing |
| ClientHandler.Handler.DataFrame | src/main/java/com/mastfrog/blather/WebSocketClientHandler.java:189-213 | the slot, the calls of user code, the frames sent and the failure handled are those `Dispatch` gives; `close()` from user code sends the close frame before any reply |
| ClientHandler.Handler.NotifyConnected | src/main/java/com/mastfrog/blather/WebSocketClientHandler.java:141-147 | after a successful handshake, the slot's `onConnect` runs |
| ClientHandler.Handler.ChannelInactive | src/main/java/com/mastfrog/blather/WebSocketClientHandler.java:159-164 | the slot's `onDisconnect` runs |
| ClientHandler.Handler.RunCloseTask | src/main/java/com/mastfrog/blather/WebSocketClientHandler.java:232-236 | a close queued by `exceptionCaught` closes the channel |
| Request.AnnounceAll | src/main/java/com/mastfrog/blather/WebSocketClientsImpl.java:392-394 | when no listener throws, every user listener runs and every message is sent, in the order added |
| Request.AnnounceStopped | src/main/java/com/mastfrog/blather/WebSocketClientsImpl.java:392-394 | once a listener throws, no later listener runs |
| Request.FailedSendStopsTheRest | src/main/java/com/mastfrog/blather/WebSocketClientsImpl.java:453-457 | a message that does not convert, null included, ends the loop at that point |
| Request.AnnouncePrefix | src/main/java/com/mastfrog/blather/WebSocketClientsImpl.java:392-394 | what ran for the first listeners is a prefix of what ran for all of them |
| Request.InitialMessageFirst | src/main/java/com/mastfrog/blather/WebSocketClientsImpl.java:169-177 | the message given to the constructor is the first frame sent on connect |
| Request.Notices | src/main/java/com/mastfrog/blather/WebSocketClientsImpl.java:427-429 | every disconnect listener, in order, is told the same cause |
| Request.CountDown | src/main/java/com/mastfrog/blather/WebSocketClientsImpl.java:155 | counting down a latch of count at most one opens it |
| Request.Req.constructor | src/main/java/com/mastfrog/blather/WebSocketClientsImpl.java:169-179 | a new request: latch one, a send listener only for a non-null message, nothing started |
| Request.Req.AddHeader | src/main/java/com/mastfrog/blather/WebSocketClientsImpl.java:217-223 | the header is added exactly when the request has not started; otherwise an IllegalStateException |
| Request.Req.AddUrlQueryPair | src/main/java/com/mastfrog/blather/WebSocketClientsImpl.java:226-232 | the pair is added exactly when the request has not started |
| Request.Req.Close | src/main/java/com/mastfrog/blather/WebSocketClientsImpl.java:234-238 | only the first call acts, and only on an open connected channel, which gets one close frame and is closed |
| Request.Req.OnMessage | src/main/java/com/mastfrog/blather/WebSocketClientsImpl.java:256-271 | installs the callback and queues one connect task |
| Request.Req.OnMessageTyped | src/main/java/com/mastfrog/blather/WebSocketClientsImpl.java:242-253 | installs the handler behind a JSON callback with the corrected index, and queues one connect task |
| Request.Req.WithErrorHandler | src/main/java/com/mastfrog/blather/WebSocketClientsImpl.java:274-277 | installs the policy the collector consults; null removes it |
| Request.Req.OnConnectListener | src/main/java/com/mastfrog/blather/WebSocketClientsImpl.java:443-446 | appends the listener |
| Request.Req.OnDisconnectListener | src/main/java/com/mastfrog/blather/WebSocketClientsImpl.java:282-285 | appends the listener |
| Request.Req.SendOnConnect | src/main/java/com/mastfrog/blather/WebSocketClientsImpl.java:449-459 | the message is queued exactly when not yet connected; otherwise an IllegalStateException |
| Request.Req.RunConnectTask | src/main/java/com/mastfrog/blather/WebSocketClientsImpl.java:261-269 | only the first connect task connects: it resets the latch and builds the handler for the callback installed when it runs, with a pending handshake |
| Request.Req.ConnectResult | src/main/java/com/mastfrog/blather/WebSocketClientsImpl.java:416-438 | a close requested meanwhile opens the latch and closes the new channel; a failure is recorded and opens the latch; a success makes the channel the request's |
| Request.Req.AnnounceConnected | src/main/java/com/mastfrog/blather/WebSocketClientsImpl.java:387-396 | the listeners that run and the frames sent are exactly `Announce` of the `onConnects` list |
| Request.Req.ChannelRead | src/main/java/com/mastfrog/blather/WebSocketClientHandler.java:167-224 | on an open or already closed channel: when a read completes the handshake, the request's listeners run and then `cb.onConnect`, in one log of connect-time calls, and only then; the handshake succeeds once at most; any other read has exactly the effect of the handler's `channelRead0` on deliveries, slot, frames sent, collector and queued closes |
| Request.Req.HandshakeListeners | src/main/java/com/mastfrog/blather/WebSocketClientHandler.java:136-148 | the handshake future's listeners in the order they were added: the `onConnects` loop (`Announce`), then `cb.onConnect`; the slot, the collector and the queued closes stay |
| Request.Req.ExceptionCaught | src/main/java/com/mastfrog/blather/WebSocketClientHandler.java:227-237 | the collector records the cause, a pending handshake fails, and closes are queued; the slot, the handshake flag and the logs of user calls stay |
| Request.Req.RunCloseTask | src/main/java/com/mastfrog/blather/WebSocketClientHandler.java:232-236 | a queued close closes the channel and uses up one queued close; nothing else in the handler changes |
| Request.Req.ChannelInactive | src/main/java/com/mastfrog/blather/WebSocketClientHandler.java:159-164 | the slot's `onDisconnect` runs on the closed channel; nothing else in the handler changes |
| Request.Req.ChannelClosed | src/main/java/com/mastfrog/blather/WebSocketClientsImpl.java:322-343 | the disconnect listeners get the pending or last cause, then the close listener records the future's cause and opens the latch or queues the task that opens it |
| Request.Req.NotifyDisconnected | src/main/java/com/mastfrog/blather/WebSocketClientsImpl.java:426-430 | each disconnect listener, in order, is told `thrown`, else `lastThrown` |
| Request.Req.CloseListener | src/main/java/com/mastfrog/blather/WebSocketClientsImpl.java:322-343 | records the close future's cause, if any; opens the latch now if the group is shut down, else queues a count-down |
| Request.Req.RunCountDownTask | src/main/java/com/mastfrog/blather/WebSocketClientsImpl.java:334-340 | the queued count-down opens the latch |
| Request.Req.BeginAwait | src/main/java/com/mastfrog/blather/WebSocketClientsImpl.java:462-463 | `await` first rethrows a failure recorded so far |
| Request.Req.FinishAwait | src/main/java/com/mastfrog/blather/WebSocketClientsImpl.java:464-466 | once the latch is open, or the wait has timed out, `await` rethrows what was recorded meanwhile |

## Findings

| source | as written | input that shows it | evidently intended | confidence | as-written member | corrected member |
|---|---|---|---|---|---|---|
| src/main/java/com/mastfrog/blather/WebSocketClientsImpl.java:243-249 | the adapter built by `onMessage(type, handler)` passes its field `ix` to the handler and never increments it | two text frames to a handler registered with `onMessage(String.class, h)`: the second call gets `msgIndex` 0 | `msgIndex` is the cumulative count of messages sent to this handler (WebsocketMessageHandler.java:37-38), as the `nextCallback(handler, type)` adapter computes with `ix++` | high; not executed | ClientHandler.TypedIndexAsWrittenRepeats | ClientHandler.TypedIndicesCount |

`Request.Req.OnMessageTyped` installs the corrected `Conversion.TypedCallback`. The as-written callback is `Conversion.TypedCallbackAsWritten`.

## Left out

- Netty plumbing is not modelled: the bootstrap, the pipeline codecs, SSL, `channelActive` starting the handshake, and how the handshaker checks a response. A handshake response is given either as accepted or as rejected with the exception `finishHandshake` throws.
- URL building (`url`), header decoration (`HeaderEntry.decorate`) and the exceptions `doConnect` can throw for a bad URL or SSL setup are left out. Headers and query pairs are only stored.
- `ChannelControlImpl.send` and `ChannelControl.channel()` are not part of this model. Only `nextCallback` and `close` are.
- `StringFrameCallback` is left out because nothing in the core uses it.
- Logging (`log`, the loggers) is left out because it has no effect on state.
- Threads are not modelled. The configuration methods run on the caller's thread while events run on the event loop, and the model treats each method as atomic. The race between `onMessage` and the connect task is not modelled, and the atomic flags are plain fields.
- Request.Req.FinishAwait: the blocking wait of `latch.await` is its precondition, so there is no clock and no duration.
- Request.Req.ChannelClosed: in Netty, the close-future listeners and `channelInactive` run during the close. The model runs them as separate events after the channel is closed.
- Transport.Channel.CloseGracefully: `ChannelFutureListener.CLOSE` closes the channel when the close frame's write completes. The model closes it right after the write.
- Collector.ExceptionCollector.OnException: the error policy (`WebsocketErrorHandler.onError`) is user code, but it is modelled as a pure function that cannot throw. The model then does not capture the following: a throwing policy in `exceptionCaught`, which skips failing the handshake future and queuing the close; a throwing policy on the connect-failure path, which skips `latch.countDown()` so that `await` waits for its timeout; and a stateful policy answering differently when `exceptionCaught` re-enters through the failed handshake future. `Collector.ReportTwice` and `ClientHandler.Handler.ExceptionCaught` rely on the same answer both times.
- User listeners (`OnConnect`, `OnDisconnect`, `FrameCallback.onConnect`/`onDisconnect`) are assumed not to throw. A callback's handling of a message is opaque and is represented by a `Reaction` value.
- Request.Req.AnnounceConnected and ClientHandler.Handler.NotifyConnected: the `ChannelControl` that a user `OnConnect` listener and `FrameCallback.onConnect` receive is assumed unused. The model does not capture a listener that calls `nextCallback`, which would change the `cb.onConnect` that runs next. Nor does it capture one that calls `close` or sends frames. Only message callbacks carry a `Reaction`.
- Request.Req.OnMessageTyped: installs the corrected `Conversion.TypedCallback`, whose index counts. The program as written installs `Conversion.TypedCallbackAsWritten`, whose index stays 0. `ClientHandler.HarnessReplacement` and `ClientHandler.TypedIndexAsWrittenRepeats` state what the as-written adapter does.
- Conversion.AfterCall and ClientHandler.CountingIndices: the counting adapter's Java `int ix` would wrap to a negative value after 2^31 - 1 messages. The model's index is an unbounded natural number.
- The `notNull` checks of `addUrlQueryPair`, `onConnect` and `onDisconnect` are not modelled. Names, values and listeners are values that cannot be null.
- Frame content is not reference-counted or released, and close frames carry no status code.
- Reads are modelled only on the connected channel. Before the connect listener has run, a channel can deliver nothing. A read may still arrive after the channel has closed, for example for a second frame decoded from the same socket read after user code called `close()`. It is dispatched as usual, and the writes it makes leave no trace.
- UTF-8 and JSON are left uninterpreted: they are the functions of a `Codec`.
