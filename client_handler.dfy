/** `WebSocketClientHandler`: the pipeline handler that finishes the
    handshake, classifies inbound messages, passes data frames to the single
    callback slot `cb`, and turns every exception into a recorded failure and
    a close. */
module ClientHandler {
  import opened Base
  import opened Conversion
  import opened Collector
  import opened Transport

  /** A message read from the pipeline: the aggregated HTTP response (whose
      `rejection` is what `finishHandshake` throws for it, if it does) or a frame. */
  datatype Inbound = HttpResponse(rejection: Option<Throwable>) | FrameMessage(frame: Frame)

  /** The branch of `channelRead0` a message takes. */
  datatype Route =
    | FinishHandshake     // handshake incomplete: the message is the handshake response
    | NotAResponse        // handshake incomplete, but the message is a frame: the cast fails
    | UnexpectedResponse  // an HTTP response after the handshake: IllegalStateException
    | ToCallback          // a text or binary frame: passed to `cb`
    | PongIgnored         // a pong frame: nothing to do
    | CloseChannel        // a close frame: the channel is closed
    | Ignored             // any other frame matches no branch

  function Classify(handshakeComplete: bool, msg: Inbound): (r: Route)
    // nothing reaches the callback before the handshake is complete
    ensures !handshakeComplete ==> (r == FinishHandshake <==> msg.HttpResponse?)
    ensures !handshakeComplete ==> (r == NotAResponse <==> msg.FrameMessage?)
    ensures r == UnexpectedResponse <==> handshakeComplete && msg.HttpResponse?
    // exactly the data frames of section 5.6 of RFC 6455 go to the callback
    ensures r == ToCallback <==> handshakeComplete && msg.FrameMessage? && msg.frame.kind in {Text, Binary}
    // control frames are handled here
    ensures r == PongIgnored <==> handshakeComplete && msg.FrameMessage? && msg.frame.kind == Pong
    ensures r == CloseChannel <==> handshakeComplete && msg.FrameMessage? && msg.frame.kind == Close
    ensures r == Ignored <==> handshakeComplete && msg.FrameMessage? && msg.frame.kind in {Ping, Continuation}
  {
    if !handshakeComplete then
      if msg.HttpResponse? then FinishHandshake else NotAResponse
    else if msg.HttpResponse? then UnexpectedResponse
    else match msg.frame.kind
      case Text => ToCallback
      case Binary => ToCallback
      case Pong => PongIgnored
      case Close => CloseChannel
      case Ping => Ignored
      case Continuation => Ignored
  }

  /** A `ChannelControl.nextCallback` call made by user code. */
  datatype Replacement =
    | ReplaceCallback(id: nat, declared: DeclaredType)       // nextCallback(FrameCallback, type)
    | ReplaceHandler(handler: nat, declared: DeclaredType)   // nextCallback(WebsocketMessageHandler, type)

  /** What user code did when called with a payload: the last `nextCallback`
      it made, whether it called `ChannelControl.close()`, and what it
      returned or threw. */
  datatype Reaction = Reaction(replacement: Option<Replacement>, closes: bool, result: Try<Value>)

  /** The callback `nextCallback` puts in the slot: converted by
      `callbackFor`; a message handler is wrapped in a fresh counting adapter. */
  function Installed(r: Replacement): (c: Callback)
    ensures r.ReplaceCallback? ==> c == CallbackFor(UserCallback(r.id), r.declared)
    ensures r.ReplaceHandler? ==> c == CallbackFor(Counting(r.handler, 0), r.declared)
    ensures IndexFor(c.target) == if r.ReplaceHandler? then Some(0) else None
  {
    match r
    case ReplaceCallback(id, d) => CallbackFor(UserCallback(id), d)
    case ReplaceHandler(h, d) => CallbackFor(Counting(h, 0), d)
  }

  /** What passing one data frame to the slot `cb` amounts to. */
  datatype Dispatched = Dispatched(
    cb: Callback,                   // the slot afterwards
    delivery: Option<Delivery>,     // the call of user code, if it was reached
    closes: bool,                   // user code called ChannelControl.close()
    reply: Try<Option<Frame>>)      // the frame to write back, or the exception for exceptionCaught

  /** `cb.onMessage(frame, frame, ctrl)` in `channelRead0`. `castFailure` is
      the ClassCastException raised if a direct callback's reply is not a frame. */
  function Dispatch(codec: Codec, cb: Callback, frame: Frame, reaction: Reaction, castFailure: Throwable): (d: Dispatched)
    // a payload that cannot be converted never reaches user code
    ensures PayloadFor(codec, cb, frame).Threw? ==>
              d == Dispatched(cb, None, false, Threw(PayloadFor(codec, cb, frame).error))
    // otherwise the message goes to the callback in the slot, with its index
    ensures PayloadFor(codec, cb, frame).Returned? ==>
              d.delivery == Some(Delivery(ReceiverOf(cb.target), IndexFor(cb.target), PayloadFor(codec, cb, frame).value))
    // a replacement made during the call is what the next message finds in the slot
    ensures PayloadFor(codec, cb, frame).Returned? && reaction.replacement.Some? ==>
              d.cb == Installed(reaction.replacement.value)
    ensures PayloadFor(codec, cb, frame).Returned? && reaction.replacement.None? ==>
              d.cb == WithTarget(cb, AfterCall(cb.target))
    ensures PayloadFor(codec, cb, frame).Returned? ==> d.closes == reaction.closes
    // the reply is converted by the callback that produced it; a throw goes to exceptionCaught
    ensures PayloadFor(codec, cb, frame).Returned? && reaction.result.Threw? ==> d.reply == Threw(reaction.result.error)
    ensures PayloadFor(codec, cb, frame).Returned? && reaction.result.Returned? ==>
              d.reply == ReplyFor(codec, cb, reaction.result.value, castFailure)
  {
    match PayloadFor(codec, cb, frame)
    case Threw(e) => Dispatched(cb, None, false, Threw(e))
    case Returned(data) =>
      var slot := if reaction.replacement.Some? then Installed(reaction.replacement.value)
                  else WithTarget(cb, AfterCall(cb.target));
      var reply := match reaction.result
                   case Threw(e) => Threw(e)
                   case Returned(v) => ReplyFor(codec, cb, v, castFailure);
      Dispatched(slot, Some(Delivery(ReceiverOf(cb.target), IndexFor(cb.target), data)), reaction.closes, reply)
  }

  /** One data frame together with what user code does with it. */
  datatype Input = Input(frame: Frame, reaction: Reaction, castFailure: Throwable)

  function Deliveries(d: Dispatched): seq<Delivery> {
    if d.delivery.Some? then [d.delivery.value] else []
  }

  /** Data frames passed one after the other to the slot: the calls of user
      code they cause, and the slot at the end. */
  function DispatchAll(codec: Codec, cb: Callback, inputs: seq<Input>): (seq<Delivery>, Callback)
    decreases |inputs|
  {
    if inputs == [] then ([], cb)
    else
      var d := Dispatch(codec, cb, inputs[0].frame, inputs[0].reaction, inputs[0].castFailure);
      var rest := DispatchAll(codec, d.cb, inputs[1..]);
      (Deliveries(d) + rest.0, rest.1)
  }

  /** No replacement is made. */
  predicate KeepsHandler(inputs: seq<Input>) {
    forall i :: 0 <= i < |inputs| ==> inputs[i].reaction.replacement.None?
  }

  /** Every payload converts for a callback of the shape of `base`. */
  predicate AllConvert(codec: Codec, base: Callback, inputs: seq<Input>) {
    forall i :: 0 <= i < |inputs| ==> PayloadFor(codec, base, inputs[i].frame).Returned?
  }

  lemma PayloadIgnoresTarget(codec: Codec, c: Callback, t: Target, frame: Frame)
    ensures PayloadFor(codec, WithTarget(c, t), frame) == PayloadFor(codec, c, frame)
  {
  }

  lemma RestKeepsAndConverts(codec: Codec, base: Callback, inputs: seq<Input>)
    requires inputs != [] && KeepsHandler(inputs) && AllConvert(codec, base, inputs)
    ensures KeepsHandler(inputs[1..]) && AllConvert(codec, base, inputs[1..])
  {
    forall i | 0 <= i < |inputs| - 1
      ensures inputs[1..][i].reaction.replacement.None?
      ensures PayloadFor(codec, base, inputs[1..][i].frame).Returned?
    {
      assert inputs[1..][i] == inputs[i + 1];
    }
  }

  /** Every payload converts for `c` exactly when it does for `c` retargeted. */
  lemma AllConvertRetarget(codec: Codec, c: Callback, t: Target, inputs: seq<Input>)
    ensures AllConvert(codec, WithTarget(c, t), inputs) <==> AllConvert(codec, c, inputs)
  {
    forall i | 0 <= i < |inputs|
      ensures PayloadFor(codec, WithTarget(c, t), inputs[i].frame) == PayloadFor(codec, c, inputs[i].frame)
    {
      PayloadIgnoresTarget(codec, c, t, inputs[i].frame);
    }
  }

  /** The calls `ds` all went to handler `h`, the i-th with index k + i. */
  predicate IndicesFrom(ds: seq<Delivery>, h: nat, k: nat) {
    forall i :: 0 <= i < |ds| ==> ds[i].receiver == MessageHandlerCode(h) && ds[i].index == Some(k + i)
  }

  /** A slot whose counting adapter is at `k` tells its handler k, k+1,
      k+2, ..., one per message, as long as it stays in the slot. */
  lemma {:induction false} CountingIndices(codec: Codec, cb: Callback, h: nat, k: nat, inputs: seq<Input>)
    requires cb.target == Counting(h, k)
    requires KeepsHandler(inputs) && AllConvert(codec, cb, inputs)
    decreases |inputs|
    ensures var r := DispatchAll(codec, cb, inputs);
            && |r.0| == |inputs|
            && IndicesFrom(r.0, h, k)
            && r.1 == WithTarget(cb, Counting(h, k + |inputs|))
  {
    if inputs != [] {
      var d := Dispatch(codec, cb, inputs[0].frame, inputs[0].reaction, inputs[0].castFailure);
      var next := WithTarget(cb, Counting(h, k + 1));
      assert d.cb == next;
      RestKeepsAndConverts(codec, cb, inputs);
      AllConvertRetarget(codec, cb, Counting(h, k + 1), inputs[1..]);
      CountingIndices(codec, next, h, k + 1, inputs[1..]);
      assert WithTarget(next, Counting(h, k + |inputs|)) == WithTarget(cb, Counting(h, k + |inputs|));
    }
  }

  /** The adapter of `onMessage(type, handler)` as written tells its handler
      index 0 on every message: it never increments `ix`. */
  lemma {:induction false} FixedIndexAlwaysZero(codec: Codec, base: Callback, h: nat, inputs: seq<Input>)
    requires KeepsHandler(inputs) && AllConvert(codec, base, inputs)
    decreases |inputs|
    ensures var (ds, last) := DispatchAll(codec, WithTarget(base, FixedIndex(h)), inputs);
            && |ds| == |inputs|
            && (forall i :: 0 <= i < |ds| ==> ds[i].receiver == MessageHandlerCode(h) && ds[i].index == Some(0))
            && last == WithTarget(base, FixedIndex(h))
  {
    if inputs != [] {
      RestKeepsAndConverts(codec, base, inputs);
      PayloadIgnoresTarget(codec, base, FixedIndex(h), inputs[0].frame);
      FixedIndexAlwaysZero(codec, base, h, inputs[1..]);
    }
  }

  /** The discrepancy: the second message a handler registered with
      `onMessage(type, handler)` receives comes with index 0, not 1. */
  lemma TypedIndexAsWrittenRepeats(codec: Codec, h: nat, declared: DeclaredType, first: Input, second: Input)
    requires KeepsHandler([first, second]) && AllConvert(codec, TypedCallbackAsWritten(h, declared), [first, second])
    ensures var (ds, _) := DispatchAll(codec, TypedCallbackAsWritten(h, declared), [first, second]);
            |ds| == 2 && ds[1].index == Some(0) && ds[1].index != Some(1)
  {
    FixedIndexAlwaysZero(codec, TypedCallbackAsWritten(h, declared), h, [first, second]);
  }

  /** With the corrected adapter the index is the number of messages the
      handler received before, as its documentation says. */
  lemma {:induction false} TypedIndicesCount(codec: Codec, h: nat, declared: DeclaredType, inputs: seq<Input>)
    requires KeepsHandler(inputs) && AllConvert(codec, TypedCallback(h, declared), inputs)
    ensures var r := DispatchAll(codec, TypedCallback(h, declared), inputs);
            && |r.0| == |inputs|
            && IndicesFrom(r.0, h, 0)
  {
    CountingIndices(codec, TypedCallback(h, declared), h, 0, inputs);
  }

  /** A handler installed with `nextCallback(handler, type)` counts from 0. */
  lemma {:induction false} NextHandlerIndicesCount(codec: Codec, h: nat, declared: DeclaredType, inputs: seq<Input>)
    requires KeepsHandler(inputs) && AllConvert(codec, Installed(ReplaceHandler(h, declared)), inputs)
    ensures var r := DispatchAll(codec, Installed(ReplaceHandler(h, declared)), inputs);
            && |r.0| == |inputs|
            && IndicesFrom(r.0, h, 0)
            && r.1 == CallbackFor(Counting(h, |inputs|), declared)
  {
    var cb := Installed(ReplaceHandler(h, declared));
    assert cb == CallbackFor(Counting(h, 0), declared);
    CountingIndices(codec, cb, h, 0, inputs);
    RetargetCallbackFor(Counting(h, 0), Counting(h, |inputs|), declared);
  }

  lemma RetargetCallbackFor(t: Target, t': Target, declared: DeclaredType)
    ensures WithTarget(CallbackFor(t, declared), t') == CallbackFor(t', declared)
  {
  }

  /** A replacement made while message n is handled decides who gets message
      n+1: the new handler, with index 0. The old handler got message n. */
  lemma ReplacementTakesEffectNext(codec: Codec, cb: Callback, first: Input, second: Input, h: nat, declared: DeclaredType)
    requires first.reaction.replacement == Some(ReplaceHandler(h, declared))
    requires PayloadFor(codec, cb, first.frame).Returned?
    requires PayloadFor(codec, CallbackFor(Counting(h, 0), declared), second.frame).Returned?
    ensures var (ds, _) := DispatchAll(codec, cb, [first, second]);
            && |ds| == 2
            && ds[0].receiver == ReceiverOf(cb.target) && ds[0].index == IndexFor(cb.target)
            && ds[1].receiver == MessageHandlerCode(h) && ds[1].index == Some(0)
  {
    var d1 := Dispatch(codec, cb, first.frame, first.reaction, first.castFailure);
    assert d1.cb == CallbackFor(Counting(h, 0), declared);
    var d2 := Dispatch(codec, d1.cb, second.frame, second.reaction, second.castFailure);
    assert [first, second][1..] == [second];
    assert [second][1..] == [];
    assert DispatchAll(codec, d1.cb, [second]).0 == Deliveries(d2);
  }

  /** The replacement scenario of the test harness, on the callback
      `onMessage(String.class, a)` installs as written: handler `a` answers
      "Hello: " + data, and on its third message installs handler `b`, which
      closes the connection. Over four text frames `a` is called three times,
      always with index 0 (so the branch it would take on a fifth call never
      runs), `b` gets the fourth frame with index 0 and closes, and each reply
      of `a` is written back as the text frame of its answer. */
  lemma HarnessReplacement(codec: Codec, a: nat, b: nat, payloads: seq<Bytes>, cast: Throwable)
    requires |payloads| == 4 && a != b
    ensures var text := (i: nat) requires i < 4 => codec.utf8Decode(payloads[i]);
            var answer := (i: nat) requires i < 4 => Returned(Chars("Hello: " + text(i)));
            var hello := (i: nat) requires i < 4 => Returned(Some(Frame(Text, codec.utf8Encode("Hello: " + text(i)))));
            var inputs := [
              Input(Frame(Text, payloads[0]), Reaction(None, false, answer(0)), cast),
              Input(Frame(Text, payloads[1]), Reaction(None, false, answer(1)), cast),
              Input(Frame(Text, payloads[2]), Reaction(Some(ReplaceHandler(b, StringType)), false, answer(2)), cast),
              Input(Frame(Text, payloads[3]), Reaction(None, true, Returned(Null)), cast)];
            var slotA := TypedCallbackAsWritten(a, StringType);
            var slotB := Json(Counting(b, 0), StringType);
            var r := DispatchAll(codec, slotA, inputs);
            && r.0 == [Delivery(MessageHandlerCode(a), Some(0), Chars(text(0))),
                       Delivery(MessageHandlerCode(a), Some(0), Chars(text(1))),
                       Delivery(MessageHandlerCode(a), Some(0), Chars(text(2))),
                       Delivery(MessageHandlerCode(b), Some(0), Chars(text(3)))]
            && r.1 == Json(Counting(b, 1), StringType)
            // the slot holds `a` for three frames and `b` for the fourth
            && Dispatch(codec, slotA, inputs[0].frame, inputs[0].reaction, cast).cb == slotA
            && Dispatch(codec, slotA, inputs[1].frame, inputs[1].reaction, cast).cb == slotA
            && Dispatch(codec, slotA, inputs[2].frame, inputs[2].reaction, cast).cb == slotB
            // the replies
            && Dispatch(codec, slotA, inputs[0].frame, inputs[0].reaction, cast).reply == hello(0)
            && Dispatch(codec, slotA, inputs[1].frame, inputs[1].reaction, cast).reply == hello(1)
            && Dispatch(codec, slotA, inputs[2].frame, inputs[2].reaction, cast).reply == hello(2)
            && Dispatch(codec, slotB, inputs[3].frame, inputs[3].reaction, cast).reply == Returned(None)
            && Dispatch(codec, slotB, inputs[3].frame, inputs[3].reaction, cast).closes
  {
    var text := (i: nat) requires i < 4 => codec.utf8Decode(payloads[i]);
    var answer := (i: nat) requires i < 4 => Returned(Chars("Hello: " + text(i)));
    var inputs := [
      Input(Frame(Text, payloads[0]), Reaction(None, false, answer(0)), cast),
      Input(Frame(Text, payloads[1]), Reaction(None, false, answer(1)), cast),
      Input(Frame(Text, payloads[2]), Reaction(Some(ReplaceHandler(b, StringType)), false, answer(2)), cast),
      Input(Frame(Text, payloads[3]), Reaction(None, true, Returned(Null)), cast)];
    var c0 := TypedCallbackAsWritten(a, StringType);
    var d0 := Dispatch(codec, c0, inputs[0].frame, inputs[0].reaction, cast);
    assert d0.cb == c0;
    var d1 := Dispatch(codec, c0, inputs[1].frame, inputs[1].reaction, cast);
    assert d1.cb == c0;
    var d2 := Dispatch(codec, c0, inputs[2].frame, inputs[2].reaction, cast);
    var c3 := Json(Counting(b, 0), StringType);
    assert d2.cb == c3;
    var d3 := Dispatch(codec, c3, inputs[3].frame, inputs[3].reaction, cast);
    assert d3.cb == Json(Counting(b, 1), StringType);
    assert DispatchAll(codec, d3.cb, []) == ([], d3.cb);
    var t3 := inputs[3..];
    assert |t3| == 1 && t3[0] == inputs[3] && t3[1..] == [];
    assert Dispatch(codec, c3, t3[0].frame, t3[0].reaction, t3[0].castFailure) == d3;
    assert DispatchAll(codec, c3, t3).1 == d3.cb;
    assert DispatchAll(codec, c3, t3).0 == Deliveries(d3);
    var t2 := inputs[2..];
    assert t2[0] == inputs[2] && t2[1..] == t3;
    assert Dispatch(codec, c0, t2[0].frame, t2[0].reaction, t2[0].castFailure) == d2;
    assert DispatchAll(codec, c0, t2) == (Deliveries(d2) + Deliveries(d3), d3.cb);
    var t1 := inputs[1..];
    assert t1[0] == inputs[1] && t1[1..] == t2;
    assert Dispatch(codec, c0, t1[0].frame, t1[0].reaction, t1[0].castFailure) == d1;
    assert DispatchAll(codec, c0, t1) == (Deliveries(d1) + (Deliveries(d2) + Deliveries(d3)), d3.cb);
    assert inputs[0].frame == Frame(Text, payloads[0]);
  }

  /** `handshakeFuture`: not yet created by `handlerAdded`, pending, or done. */
  datatype HandshakeFuture = NotCreated | Pending | Succeeded | Failed(cause: Throwable)

  class Handler {
    /** the single callback slot */
    var cb: Callback
    /** `handshaker.isHandshakeComplete()` */
    var handshakeComplete: bool
    var future: HandshakeFuture
    /** `ctx.close()` tasks `exceptionCaught` has put on the event loop */
    var pendingCloses: nat
    /** `ctx.channel()` */
    const ch: Channel
    const ex: ExceptionCollector
    const codec: Codec
    /** every call of user code with a payload, in order */
    ghost var delivered: seq<Delivery>
    /** the user callbacks whose `onConnect` / `onDisconnect` ran, in order */
    ghost var connectCalls: seq<nat>
    ghost var disconnectCalls: seq<nat>

    ghost predicate Valid()
      reads this, ex
    {
      ex.Valid() && (future == Succeeded ==> handshakeComplete)
    }

    constructor (cb: Callback, ch: Channel, ex: ExceptionCollector, codec: Codec)
      requires ex.Valid()
      ensures Valid()
      ensures this.cb == cb && this.ch == ch && this.ex == ex && this.codec == codec
      ensures !handshakeComplete && future == NotCreated && pendingCloses == 0
      ensures delivered == [] && connectCalls == [] && disconnectCalls == []
    {
      this.cb := cb;
      this.ch := ch;
      this.ex := ex;
      this.codec := codec;
      handshakeComplete := false;
      future := NotCreated;
      pendingCloses := 0;
      delivered := [];
      connectCalls := [];
      disconnectCalls := [];
    }

    /** `exceptionCaught` did its work for `cause`: recorded it, failed a
        pending handshake (whose listener reports the cause once more), and
        scheduled a close, once more for that listener's report. */
    twostate predicate Caught(cause: Throwable)
      reads this, ex
    {
      && ex.State() == AfterException(old(ex.State()), old(ex.onError), cause)
      && ex.onError == old(ex.onError)
      && future == (if old(future) == Pending then Failed(cause) else old(future))
      && pendingCloses == old(pendingCloses) + (if old(future) == Pending then 2 else 1)
    }

    /** No failure was handled. */
    twostate predicate NothingCaught()
      reads this, ex
    {
      ex.State() == old(ex.State()) && ex.onError == old(ex.onError)
      && future == old(future) && pendingCloses == old(pendingCloses)
    }

    /** `handlerAdded`: the handshake future is created. */
    method HandlerAdded()
      requires future == NotCreated
      modifies this
      ensures future == Pending
      ensures cb == old(cb) && handshakeComplete == old(handshakeComplete) && pendingCloses == old(pendingCloses)
      ensures delivered == old(delivered) && connectCalls == old(connectCalls) && disconnectCalls == old(disconnectCalls)
    {
      future := Pending;
    }

    /** `exceptionCaught`: every exception is fatal. */
    method ExceptionCaught(cause: Throwable)
      requires Valid() && future != NotCreated
      modifies this, ex
      decreases if future == Pending then 1 else 0
      ensures Valid() && Caught(cause)
      ensures cb == old(cb) && handshakeComplete == old(handshakeComplete)
      ensures delivered == old(delivered) && connectCalls == old(connectCalls) && disconnectCalls == old(disconnectCalls)
    {
      ghost var before := ex.State();
      ex.OnException(cause);
      if future == Pending {
        future := Failed(cause);
        // the failed future notifies its listeners: the request's listener only
        // logs, the handler's own one calls exceptionCaught with the cause again
        ReportTwice(before, ex.onError, cause);
        ExceptionCaught(cause);
      }
      pendingCloses := pendingCloses + 1;
    }

    /** The slot, the handshake flag and the logs of user calls are as they were. */
    twostate predicate SlotAndLogsKept()
      reads this
    {
      && cb == old(cb) && handshakeComplete == old(handshakeComplete) && delivered == old(delivered)
      && connectCalls == old(connectCalls) && disconnectCalls == old(disconnectCalls)
    }

    /** What `channelRead0` did with `msg`, branch by branch. */
    twostate predicate ReadHandled(msg: Inbound, reaction: Reaction, created: Throwable)
      reads this, ex, ch
    {
      var route := Classify(old(handshakeComplete), msg);
      && connectCalls == old(connectCalls) && disconnectCalls == old(disconnectCalls)
      // the handshake response
      && (route == FinishHandshake ==>
            && cb == old(cb) && delivered == old(delivered)
            && ch.open == old(ch.open) && ch.outbound == old(ch.outbound)
            && (msg.rejection.Some? ==> Caught(msg.rejection.value) && handshakeComplete == old(handshakeComplete))
            && (msg.rejection.None? && old(future) == Pending ==>
                  handshakeComplete && ex.State() == old(ex.State()) && ex.onError == old(ex.onError)
                  && future == Succeeded && pendingCloses == old(pendingCloses))
            && (msg.rejection.None? && old(future) != Pending ==> handshakeComplete && Caught(created)))
      // messages that raise an exception instead of being dispatched
      && (route == NotAResponse || route == UnexpectedResponse ==>
            && Caught(created) && cb == old(cb) && handshakeComplete == old(handshakeComplete)
            && delivered == old(delivered) && ch.open == old(ch.open) && ch.outbound == old(ch.outbound))
      // data frames
      && (route == ToCallback ==>
            handshakeComplete == old(handshakeComplete) && DataFrameHandled(Dispatch(codec, old(cb), msg.frame, reaction, created)))
      // control frames and the rest
      && (route == PongIgnored || route == Ignored ==>
            && NothingCaught() && cb == old(cb) && handshakeComplete == old(handshakeComplete)
            && delivered == old(delivered) && ch.open == old(ch.open) && ch.outbound == old(ch.outbound))
      && (route == CloseChannel ==>
            && NothingCaught() && cb == old(cb) && handshakeComplete == old(handshakeComplete)
            && delivered == old(delivered) && !ch.open && ch.outbound == old(ch.outbound))
    }

    /** `channelRead0`. `created` is the identity of the exception the read itself
        creates, if it creates one. The result says that the handshake future
        has just succeeded, so that its listeners run next. */
    method ChannelRead(msg: Inbound, reaction: Reaction, created: Throwable) returns (handshakeDone: bool)
      requires Valid() && future != NotCreated
      // an exception the read creates is a new object, never seen before
      requires created !in ex.seen
      modifies this, ex, ch
      ensures Valid()
      ensures (future == Succeeded) <==> (old(future) == Succeeded || handshakeDone)
      ensures var route := Classify(old(handshakeComplete), msg);
              handshakeDone <==> route == FinishHandshake && msg.rejection.None? && old(future) == Pending
      ensures ReadHandled(msg, reaction, created)
    {
      handshakeDone := false;
      var route := Classify(handshakeComplete, msg);
      match route
      case FinishHandshake =>
        if msg.rejection.Some? {
          ExceptionCaught(msg.rejection.value);
        } else {
          handshakeComplete := true;
          if future == Pending {
            future := Succeeded;
            handshakeDone := true;
          } else {
            // setSuccess on a completed promise throws IllegalStateException
            ExceptionCaught(created);
          }
        }
      case NotAResponse =>
        ExceptionCaught(created);
      case UnexpectedResponse =>
        ExceptionCaught(created);
      case ToCallback =>
        DataFrame(msg.frame, reaction, created);
      case PongIgnored =>
      case CloseChannel =>
        ch.Close();
      case Ignored =>
    }

    /** The state after a data frame was passed to the slot, as `d` says. */
    twostate predicate DataFrameHandled(d: Dispatched)
      reads this, ex, ch
    {
      && delivered == old(delivered) + Deliveries(d)
      && cb == d.cb
      && ch.open == (old(ch.open) && !d.closes)
      && ch.outbound == old(ch.outbound)
                        + (if d.closes && old(ch.open) then [CloseFrame] else [])
                        + (if d.reply.Returned? && d.reply.value.Some? && ch.open then [d.reply.value.value] else [])
      && (d.reply.Threw? ==> Caught(d.reply.error))
      && (d.reply.Returned? ==> NothingCaught())
    }

    /** The text and binary branches of `channelRead0`: the frame goes to `cb`;
        a reply is written back once; an exception goes to `exceptionCaught`. */
    method DataFrame(frame: Frame, reaction: Reaction, castFailure: Throwable)
      requires Valid() && future != NotCreated
      requires castFailure !in ex.seen
      modifies this, ex, ch
      ensures Valid()
      ensures handshakeComplete == old(handshakeComplete)
      ensures connectCalls == old(connectCalls) && disconnectCalls == old(disconnectCalls)
      ensures DataFrameHandled(Dispatch(codec, old(cb), frame, reaction, castFailure))
    {
      var d := Dispatch(codec, cb, frame, reaction, castFailure);
      delivered := delivered + Deliveries(d);
      cb := d.cb;
      if d.closes {
        ch.CloseGracefully();
      }
      match d.reply
      case Threw(e) =>
        ExceptionCaught(e);
      case Returned(reply) =>
        if reply.Some? {
          ch.WriteAndFlush(reply.value);
        }
    }

    /** The handler's own handshake listener after a successful handshake:
        `cb.onConnect`. */
    method NotifyConnected() returns (called: Option<nat>)
      requires future == Succeeded
      modifies this
      ensures called == ConnectTarget(cb)
      ensures connectCalls == old(connectCalls) + OptionToSeq(ConnectTarget(cb))
      ensures cb == old(cb) && future == old(future) && handshakeComplete == old(handshakeComplete)
      ensures pendingCloses == old(pendingCloses) && delivered == old(delivered) && disconnectCalls == old(disconnectCalls)
    {
      called := ConnectTarget(cb);
      connectCalls := connectCalls + OptionToSeq(called);
    }

    /** `channelInactive`: `cb.onDisconnect`. */
    method ChannelInactive()
      modifies this
      ensures disconnectCalls == old(disconnectCalls) + OptionToSeq(DisconnectTarget(cb))
      ensures cb == old(cb) && future == old(future) && handshakeComplete == old(handshakeComplete)
      ensures pendingCloses == old(pendingCloses) && delivered == old(delivered) && connectCalls == old(connectCalls)
    {
      disconnectCalls := disconnectCalls + OptionToSeq(DisconnectTarget(cb));
    }

    /** One of the `ctx.close()` tasks scheduled by `exceptionCaught` runs. */
    method RunCloseTask()
      requires pendingCloses > 0
      modifies this, ch
      ensures pendingCloses == old(pendingCloses) - 1
      ensures !ch.open && ch.outbound == old(ch.outbound)
      ensures cb == old(cb) && future == old(future) && handshakeComplete == old(handshakeComplete)
      ensures delivered == old(delivered) && connectCalls == old(connectCalls) && disconnectCalls == old(disconnectCalls)
    {
      pendingCloses := pendingCloses - 1;
      ch.Close();
    }
  }

  function OptionToSeq<T>(o: Option<T>): seq<T> {
    if o.Some? then [o.value] else []
  }
}
