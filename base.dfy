/** Vocabulary shared by the model of the websocket client: failures, frames,
    the values user code exchanges with the client, and the codecs the client
    delegates to. */
module Base {

  datatype Option<+T> = None | Some(value: T)

  /** A Java throwable, identified by object identity: two reported failures
      are the same failure exactly when their ids are equal. */
  type Throwable = nat

  /** The outcome of a call into code that may throw. */
  datatype Try<+T> = Returned(value: T) | Threw(error: Throwable)

  newtype Byte = x: int | 0 <= x < 256
  type Bytes = seq<Byte>

  /** The frame classes the client tells apart (the opcodes of section 5.2 of RFC 6455). */
  datatype FrameKind = Text | Binary | Ping | Pong | Close | Continuation

  /** A websocket frame and its payload bytes. */
  datatype Frame = Frame(kind: FrameKind, content: Bytes)

  /** The close frame the client sends: `new CloseWebSocketFrame()` has an empty payload. */
  const CloseFrame := Frame(Close, [])

  /** A Java object passed to or returned by user code, by its run-time kind:
      null, a WebSocketFrame, a CharSequence (String included), or anything else. */
  datatype Value = Null | FrameValue(frame: Frame) | Chars(chars: string) | Object(id: nat)

  /** The `Class<T>` a handler declares for its payloads. */
  datatype DeclaredType = FrameType | StringType | CharSequenceType | OtherType(name: string)

  predicate IsTextual(t: DeclaredType) {
    t == StringType || t == CharSequenceType
  }

  /** UTF-8 and the JSON object mapper, which the model does not interpret. */
  datatype Codec = Codec(
    utf8Encode: string -> Bytes,
    utf8Decode: Bytes -> string,
    jsonEncode: nat -> Try<Bytes>,
    jsonDecode: (Bytes, DeclaredType) -> Try<Value>)
}
