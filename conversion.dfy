/** How the client converts between Java objects and frames
    (WebSocketClientsImpl.toWebSocketFrame, callbackFor and JsonFrameCallback),
    and the FrameCallback chains it builds around user code. */
module Conversion {
  import opened Base

  /** The user code at the end of a FrameCallback chain. */
  datatype Target =
      /** a `FrameCallback` written by the user */
    | UserCallback(id: nat)
      /** the adapter `ReqImpl.onMessage(Class, handler)` builds: it passes its
          `ix` to the handler and never increments it */
    | FixedIndex(handler: nat)
      /** the adapter `ChannelControlImpl.nextCallback(handler, type)` builds:
          it passes `ix++` to the handler */
    | Counting(handler: nat, ix: nat)

  /** A `FrameCallback<WebSocketFrame>`: user code called with the raw frame,
      or a `JsonFrameCallback` that converts the payload to the declared type first. */
  datatype Callback = Direct(target: Target) | Json(target: Target, declared: DeclaredType)

  /** Who user code is, as seen from outside the client. */
  datatype Receiver = FrameCallbackCode(id: nat) | MessageHandlerCode(id: nat)

  /** One call of user code with an inbound payload. */
  datatype Delivery = Delivery(receiver: Receiver, index: Option<nat>, data: Value)

  function ReceiverOf(t: Target): Receiver {
    match t
    case UserCallback(id) => FrameCallbackCode(id)
    case FixedIndex(h) => MessageHandlerCode(h)
    case Counting(h, _) => MessageHandlerCode(h)
  }

  /** The message index the target passes to its handler on its next call. */
  function IndexFor(t: Target): (r: Option<nat>)
    ensures r.None? <==> t.UserCallback?
    ensures t.FixedIndex? ==> r == Some(0)
    ensures t.Counting? ==> r == Some(t.ix)
  {
    match t
    case UserCallback(_) => None
    case FixedIndex(_) => Some(0)
    case Counting(_, ix) => Some(ix)
  }

  /** The target after one call: only a counting adapter moves on. */
  function AfterCall(t: Target): (r: Target)
    ensures ReceiverOf(r) == ReceiverOf(t)
    ensures t.Counting? ==> r == Counting(t.handler, t.ix + 1)
    ensures !t.Counting? ==> r == t
  {
    match t
    case Counting(h, ix) => Counting(h, ix + 1)
    case _ => t
  }

  function WithTarget(c: Callback, t: Target): Callback {
    match c
    case Direct(_) => Direct(t)
    case Json(_, d) => Json(t, d)
  }

  /** `callbackFor`: a callback declared on `WebSocketFrame` is used as it is,
      any other declared type is wrapped in a `JsonFrameCallback`. */
  function CallbackFor(t: Target, declared: DeclaredType): (c: Callback)
    ensures c.target == t
    ensures c.Direct? <==> declared == FrameType
    ensures c.Json? ==> c.declared == declared
  {
    if declared == FrameType then Direct(t) else Json(t, declared)
  }

  /** The callback `ReqImpl.onMessage(type, handler)` installs, as written:
      the handler behind the adapter whose `ix` stays 0, always wrapped in a
      `JsonFrameCallback`, even for the type `WebSocketFrame`. */
  function TypedCallbackAsWritten(h: nat, declared: DeclaredType): (c: Callback)
    ensures c.Json? && c.declared == declared && ReceiverOf(c.target) == MessageHandlerCode(h)
    ensures IndexFor(c.target) == Some(0) && AfterCall(c.target) == c.target
  {
    Json(FixedIndex(h), declared)
  }

  /** The same callback with the index counting the messages the handler
      received, as `WebsocketMessageHandler` documents it. */
  function TypedCallback(h: nat, declared: DeclaredType): (c: Callback)
    ensures c.Json? && c.declared == declared && ReceiverOf(c.target) == MessageHandlerCode(h)
    ensures IndexFor(c.target) == Some(0) && IndexFor(AfterCall(c.target)) == Some(1)
  {
    Json(Counting(h, 0), declared)
  }

  /** `toWebSocketFrame`: the frame sent for an object, `None` standing for null. */
  function ToWebSocketFrame(codec: Codec, v: Value): (r: Try<Option<Frame>>)
    ensures r == Returned(None) <==> v.Null?
    ensures r.Threw? ==> v.Object?
    ensures v.FrameValue? ==> r == Returned(Some(v.frame))
    ensures v.Chars? ==> r == Returned(Some(Frame(Text, codec.utf8Encode(v.chars))))
    ensures v.Object? && codec.jsonEncode(v.id).Returned? ==>
              r == Returned(Some(Frame(Binary, codec.jsonEncode(v.id).value)))
    ensures v.Object? && codec.jsonEncode(v.id).Threw? ==> r == Threw(codec.jsonEncode(v.id).error)
  {
    match v
    case Null => Returned(None)
    case FrameValue(f) => Returned(Some(f))
    case Chars(s) => Returned(Some(Frame(Text, codec.utf8Encode(s))))
    case Object(o) =>
      match codec.jsonEncode(o)
      case Returned(bytes) => Returned(Some(Frame(Binary, bytes)))
      case Threw(e) => Threw(e)
  }

  /** What the user code behind a callback receives for a data frame: the
      frame itself for a direct callback; for a `JsonFrameCallback`, the
      payload decoded as UTF-8 text for String and CharSequence, otherwise
      what the JSON mapper reads as the declared type. */
  function PayloadFor(codec: Codec, c: Callback, frame: Frame): (r: Try<Value>)
    ensures c.Direct? ==> r == Returned(FrameValue(frame))
    ensures c.Json? && IsTextual(c.declared) ==> r == Returned(Chars(codec.utf8Decode(frame.content)))
    ensures c.Json? && !IsTextual(c.declared) ==> r == codec.jsonDecode(frame.content, c.declared)
    ensures r.Threw? ==> c.Json? && !IsTextual(c.declared)
  {
    match c
    case Direct(_) => Returned(FrameValue(frame))
    case Json(_, d) =>
      if IsTextual(d) then Returned(Chars(codec.utf8Decode(frame.content)))
      else codec.jsonDecode(frame.content, d)
  }

  /** The frame to write back for what the user code returned. A
      `JsonFrameCallback` converts any reply with `toWebSocketFrame`; the reply
      of a direct callback is cast to `WebSocketFrame`, and anything but null
      or a frame fails that cast with the ClassCastException `castFailure`. */
  function ReplyFor(codec: Codec, c: Callback, reply: Value, castFailure: Throwable): (r: Try<Option<Frame>>)
    ensures c.Json? ==> r == ToWebSocketFrame(codec, reply)
    ensures c.Direct? && reply.Null? ==> r == Returned(None)
    ensures c.Direct? && reply.FrameValue? ==> r == Returned(Some(reply.frame))
    ensures c.Direct? && (reply.Chars? || reply.Object?) ==> r == Threw(castFailure)
  {
    match c
    case Json(_, _) => ToWebSocketFrame(codec, reply)
    case Direct(_) =>
      match reply
      case Null => Returned(None)
      case FrameValue(f) => Returned(Some(f))
      case _ => Threw(castFailure)
  }

  /** The user `FrameCallback` whose `onConnect` runs when `cb.onConnect` is
      called: `JsonFrameCallback` forwards it, the index adapters inherit the
      empty default. */
  function ConnectTarget(c: Callback): (r: Option<nat>)
    ensures r.Some? <==> c.target.UserCallback?
    ensures r.Some? ==> r.value == c.target.id
  {
    if c.target.UserCallback? then Some(c.target.id) else None
  }

  /** The user `FrameCallback` whose `onDisconnect` runs when `cb.onDisconnect`
      is called: `JsonFrameCallback` does not forward it, so only a direct
      user callback is reached. */
  function DisconnectTarget(c: Callback): (r: Option<nat>)
    ensures r.Some? <==> c.Direct? && c.target.UserCallback?
    ensures r.Some? ==> r.value == c.target.id
  {
    if c.Direct? && c.target.UserCallback? then Some(c.target.id) else None
  }

  /** A String sent by `toWebSocketFrame` reaches a handler declared on String
      or CharSequence as the same characters whenever UTF-8 decoding undoes
      encoding for them. */
  lemma TextRoundTrip(codec: Codec, s: string, t: Target, declared: DeclaredType)
    requires IsTextual(declared)
    requires codec.utf8Decode(codec.utf8Encode(s)) == s
    ensures ToWebSocketFrame(codec, Chars(s)).Returned?
    ensures ToWebSocketFrame(codec, Chars(s)).value.Some?
    ensures PayloadFor(codec, CallbackFor(t, declared), ToWebSocketFrame(codec, Chars(s)).value.value)
              == Returned(Chars(s))
  {
  }
}
