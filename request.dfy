/** `ReqImpl`: one websocket request. It is configured from the calling
    thread, connects on the event loop once a message callback is set, runs
    the connect and disconnect listeners, and releases `await` through a
    latch once the connection has failed or closed. */
module Request {
  import opened Base
  import opened Conversion
  import opened Collector
  import opened Transport
  import opened ClientHandler

  /** An entry of `onConnects`: a user `OnConnect`, or the listener that
      sends a message given to the constructor or to `sendOnConnect`. */
  datatype OnConnect = UserListener(id: nat) | SendMessage(message: Value)

  /** What running the `onConnects` listeners in order did: the user listeners
      that ran, the frames written, and whether a listener threw, which ends the
      loop (the handshake future swallows what its listener throws). */
  datatype Announced = Announced(listeners: seq<nat>, sent: seq<Frame>, stopped: bool)

  /** A send listener completes when its message converts to a frame: a
      conversion failure throws, and writing the null that `toWebSocketFrame`
      returns for null throws a NullPointerException. */
  predicate Sends(codec: Codec, m: Value) {
    ToWebSocketFrame(codec, m).Returned? && ToWebSocketFrame(codec, m).value.Some?
  }

  function AnnounceStep(codec: Codec, a: Announced, oc: OnConnect): Announced {
    if a.stopped then a
    else match oc
      case UserListener(id) => a.(listeners := a.listeners + [id])
      case SendMessage(m) =>
        if Sends(codec, m) then a.(sent := a.sent + [ToWebSocketFrame(codec, m).value.value])
        else a.(stopped := true)
  }

  /** The `for (OnConnect oc : onConnects)` loop of the handshake listener. */
  function Announce(codec: Codec, ocs: seq<OnConnect>): Announced
    decreases |ocs|
  {
    if ocs == [] then Announced([], [], false)
    else AnnounceStep(codec, Announce(codec, ocs[..|ocs| - 1]), ocs[|ocs| - 1])
  }

  /** The ids of the user listeners among `ocs`, in order. */
  function ListenerIds(ocs: seq<OnConnect>): seq<nat>
    decreases |ocs|
  {
    if ocs == [] then []
    else ListenerIds(ocs[..|ocs| - 1]) + (if ocs[|ocs| - 1].UserListener? then [ocs[|ocs| - 1].id] else [])
  }

  /** The frames of the send listeners among `ocs`, in order. */
  function MessageFrames(codec: Codec, ocs: seq<OnConnect>): seq<Frame>
    decreases |ocs|
  {
    if ocs == [] then []
    else
      var last := ocs[|ocs| - 1];
      MessageFrames(codec, ocs[..|ocs| - 1])
      + (if last.SendMessage? && Sends(codec, last.message) then [ToWebSocketFrame(codec, last.message).value.value] else [])
  }

  /** Every send listener in `ocs` completes. */
  predicate AllSend(codec: Codec, ocs: seq<OnConnect>) {
    forall i :: 0 <= i < |ocs| && ocs[i].SendMessage? ==> Sends(codec, ocs[i].message)
  }

  /** When no listener throws, every user listener runs and every message is
      sent, each in the order it was added. */
  lemma {:induction false} AnnounceAll(codec: Codec, ocs: seq<OnConnect>)
    requires AllSend(codec, ocs)
    ensures Announce(codec, ocs) == Announced(ListenerIds(ocs), MessageFrames(codec, ocs), false)
    decreases |ocs|
  {
    if ocs != [] {
      var front := ocs[..|ocs| - 1];
      assert AllSend(codec, front) by {
        forall i | 0 <= i < |front| && front[i].SendMessage?
          ensures Sends(codec, front[i].message)
        {
          assert front[i] == ocs[i];
        }
      }
      AnnounceAll(codec, front);
      assert ocs[|ocs| - 1].SendMessage? ==> Sends(codec, ocs[|ocs| - 1].message);
    }
  }

  /** Once a listener has thrown, no later listener runs. */
  lemma {:induction false} AnnounceStopped(codec: Codec, ocs: seq<OnConnect>, i: nat)
    requires i <= |ocs| && Announce(codec, ocs[..i]).stopped
    ensures Announce(codec, ocs) == Announce(codec, ocs[..i])
    decreases |ocs|
  {
    if i < |ocs| {
      var front := ocs[..|ocs| - 1];
      assert front[..i] == ocs[..i];
      AnnounceStopped(codec, front, i);
    } else {
      assert ocs[..i] == ocs;
    }
  }

  /** A send listener whose message does not convert ends the loop: what ran
      is exactly what ran before it. */
  lemma FailedSendStopsTheRest(codec: Codec, ocs: seq<OnConnect>, k: nat)
    requires k < |ocs| && ocs[k].SendMessage? && !Sends(codec, ocs[k].message)
    ensures Announce(codec, ocs) == Announce(codec, ocs[..k]).(stopped := true)
  {
    assert ocs[..k + 1][..k] == ocs[..k];
    AnnounceStopped(codec, ocs, k + 1);
  }

  /** What ran for a prefix of the listeners is a prefix of what ran for all of them. */
  lemma {:induction false} AnnouncePrefix(codec: Codec, ocs: seq<OnConnect>, j: nat)
    requires j <= |ocs|
    ensures Announce(codec, ocs[..j]).listeners <= Announce(codec, ocs).listeners
    ensures Announce(codec, ocs[..j]).sent <= Announce(codec, ocs).sent
    decreases |ocs|
  {
    if j < |ocs| {
      var front := ocs[..|ocs| - 1];
      assert front[..j] == ocs[..j];
      AnnouncePrefix(codec, front, j);
    } else {
      assert ocs[..j] == ocs;
    }
  }

  /** The message given to the constructor is the first frame sent, before
      any listener added later can send one. */
  lemma InitialMessageFirst(codec: Codec, m: Value, rest: seq<OnConnect>)
    requires Sends(codec, m)
    ensures |Announce(codec, [SendMessage(m)] + rest).sent| > 0
    ensures Announce(codec, [SendMessage(m)] + rest).sent[0] == ToWebSocketFrame(codec, m).value.value
  {
    var ocs := [SendMessage(m)] + rest;
    assert ocs[..1] == [SendMessage(m)];
    assert [SendMessage(m)][..0] == [];
    AnnouncePrefix(codec, ocs, 1);
  }

  /** A call of user code when the handshake succeeds: a user `OnConnect`
      listener, or the `onConnect` of the user `FrameCallback` in the slot. */
  datatype ConnectCall = ListenerCall(id: nat) | CallbackCall(id: nat)

  /** The calls of the user listeners `ids`, in order. */
  function ListenerCalls(ids: seq<nat>): (cs: seq<ConnectCall>)
    ensures |cs| == |ids|
    ensures forall i :: 0 <= i < |ids| ==> cs[i] == ListenerCall(ids[i])
  {
    seq(|ids|, i requires 0 <= i < |ids| => ListenerCall(ids[i]))
  }

  /** The call `cb.onConnect` makes, if it reaches user code. */
  function CallbackCalls(target: Option<nat>): (cs: seq<ConnectCall>)
    ensures target.None? ==> cs == []
    ensures target.Some? ==> cs == [CallbackCall(target.value)]
  {
    if target.Some? then [CallbackCall(target.value)] else []
  }

  /** The `onDisconnect` calls made for the listeners `ids` with cause `c`. */
  function Notices(ids: seq<nat>, c: Option<Throwable>): (ns: seq<(nat, Option<Throwable>)>)
    ensures |ns| == |ids|
    ensures forall i :: 0 <= i < |ids| ==> ns[i] == (ids[i], c)
  {
    seq(|ids|, i requires 0 <= i < |ids| => (ids[i], c))
  }

  /** `latch.countDown()` on a latch counted from one. */
  function CountDown(latch: nat): (r: nat)
    ensures r == 0 || r == latch - 1
    ensures latch <= 1 ==> r == 0
  {
    if latch > 0 then latch - 1 else 0
  }

  /** An entry of `queryPairs`. */
  datatype QueryPair = QueryPair(name: string, value: string)

  /** A `HeaderEntry`: a header and its value as text. */
  datatype HeaderEntry = HeaderEntry(name: string, value: string)

  /** The request's own fields. */
  datatype Fields = Fields(
    latch: nat,
    onConnects: seq<OnConnect>,
    onDisconnects: seq<nat>,
    callback: Option<Callback>,
    started: bool,
    closed: bool,
    queryPairs: seq<QueryPair>,
    headers: seq<HeaderEntry>,
    pendingConnectTasks: nat,
    pendingCountDowns: nat,
    connectDone: bool,
    closeListenersRan: bool)

  class Req {
    const path: string
    const codec: Codec
    const ex: ExceptionCollector
    /** the `ResettableCountDownLatch` `await` waits on */
    var latch: nat
    var onConnects: seq<OnConnect>
    var onDisconnects: seq<nat>
    /** `channel`: null until the connection is made */
    var channel: Channel?
    /** the handler `doConnect` built, with the channel it was added to */
    var handler: Handler?
    var callback: Option<Callback>
    var started: bool
    var closed: bool
    var queryPairs: seq<QueryPair>
    var headers: seq<HeaderEntry>
    /** connect tasks `onMessage` has put on the event loop */
    var pendingConnectTasks: nat
    /** `latch.countDown()` tasks the close listener has put on the event loop */
    var pendingCountDowns: nat
    /** the connect listener has run */
    var connectDone: bool
    /** the listeners on `channel.closeFuture()` have run */
    var closeListenersRan: bool
    /** the user code the handshake listeners called, in order */
    ghost var connectLog: seq<ConnectCall>
    /** the user `OnDisconnect` calls, with the throwable each was given */
    ghost var disconnectNotices: seq<(nat, Option<Throwable>)>
    /** how often the handshake listener ran its success branch */
    ghost var handshakes: nat

    ghost function State(): Fields
      reads this
    {
      Fields(latch, onConnects, onDisconnects, callback, started, closed, queryPairs, headers,
             pendingConnectTasks, pendingCountDowns, connectDone, closeListenersRan)
    }

    /** `await` will return: the latch is open, or a task that opens it is queued. */
    ghost predicate Released()
      reads this
    {
      latch == 0 || pendingCountDowns > 0
    }

    ghost predicate Valid()
      reads this, ex, handler, if handler != null then {handler.ch} else {}
    {
      && ex.Valid()
      && latch <= 1
      && (pendingConnectTasks > 0 ==> callback.Some?)
      // a handler exists once the connect task has run, and shares this request's collector
      && (started <==> handler != null)
      && (handler != null ==>
            handler.ex == ex && handler.codec == codec && handler.Valid() && handler.future != NotCreated)
      // the channel is the handler's, known once the connect listener accepted it
      && (channel != null ==> handler != null && channel == handler.ch && connectDone)
      && (connectDone ==> handler != null)
      && (closeListenersRan ==> channel != null)
      // nothing is announced before the connection: the handshake succeeds once at most
      && handshakes <= 1
      && (handshakes == 1 <==> handler != null && handler.future == Succeeded)
      && (handler != null && handler.future == Succeeded ==> channel != null)
      && (handshakes == 0 ==> connectLog == [] && (handler != null ==> handler.connectCalls == []))
      // await is released once the connection failed, was refused, or closed
      && (connectDone && channel == null ==> latch == 0)
      && (closeListenersRan ==> Released())
    }

    /** `new ReqImpl(path, sendWhenConnected)`; `Null` stands for no message. */
    constructor (path: string, sendWhenConnected: Value, codec: Codec)
      ensures Valid()
      ensures this.path == path && this.codec == codec && fresh(ex) && ex.State() == Initial() && ex.onError == None
      ensures State() == Fields(1, if sendWhenConnected.Null? then [] else [SendMessage(sendWhenConnected)],
                                 [], None, false, false, [], [], 0, 0, false, false)
      ensures channel == null && handler == null
      ensures connectLog == [] && disconnectNotices == [] && handshakes == 0
    {
      this.path := path;
      this.codec := codec;
      ex := new ExceptionCollector();
      latch := 1;
      onConnects := if sendWhenConnected.Null? then [] else [SendMessage(sendWhenConnected)];
      onDisconnects := [];
      channel := null;
      handler := null;
      callback := None;
      started := false;
      closed := false;
      queryPairs := [];
      headers := [];
      pendingConnectTasks := 0;
      pendingCountDowns := 0;
      connectDone := false;
      closeListenersRan := false;
      connectLog := [];
      disconnectNotices := [];
      handshakes := 0;
    }

    /** `addHeader`: refused with an IllegalStateException once the request started. */
    method AddHeader(h: HeaderEntry) returns (accepted: bool)
      modifies this
      ensures accepted <==> !old(started)
      ensures State() == old(State()).(headers := if accepted then old(headers) + [h] else old(headers))
      ensures channel == old(channel) && handler == old(handler)
      ensures connectLog == old(connectLog) && disconnectNotices == old(disconnectNotices) && handshakes == old(handshakes)
    {
      accepted := !started;
      if accepted {
        headers := headers + [h];
      }
    }

    /** `addUrlQueryPair`: refused with an IllegalStateException once the request started. */
    method AddUrlQueryPair(name: string, value: string) returns (accepted: bool)
      modifies this
      ensures accepted <==> !old(started)
      ensures State() == old(State()).(queryPairs :=
                if accepted then old(queryPairs) + [QueryPair(name, value)] else old(queryPairs))
      ensures channel == old(channel) && handler == old(handler)
      ensures connectLog == old(connectLog) && disconnectNotices == old(disconnectNotices) && handshakes == old(handshakes)
    {
      accepted := !started;
      if accepted {
        queryPairs := queryPairs + [QueryPair(name, value)];
      }
    }

    /** `close()`: only the first call acts, and only on an open channel,
        which then gets a close frame and is closed. */
    method Close()
      requires Valid()
      modifies this, channel
      ensures Valid()
      ensures State() == old(State()).(closed := true)
      ensures channel == old(channel) && handler == old(handler)
      ensures var acts := !old(closed) && channel != null && old(channel.open);
              channel != null ==>
                && (acts ==> !channel.open && channel.outbound == old(channel.outbound) + [CloseFrame])
                && (!acts ==> channel.open == old(channel.open) && channel.outbound == old(channel.outbound))
      ensures connectLog == old(connectLog) && disconnectNotices == old(disconnectNotices) && handshakes == old(handshakes)
    {
      var first := !closed;
      closed := true;
      if first && channel != null && channel.open {
        channel.CloseGracefully();
      }
    }

    /** `onMessage(FrameCallback)`: installs the callback and queues a connect
        task; the task reads the field when it runs. */
    method OnMessage(id: nat)
      requires Valid()
      modifies this
      ensures Valid()
      ensures State() == old(State()).(callback := Some(Direct(UserCallback(id))),
                                       pendingConnectTasks := old(pendingConnectTasks) + 1)
      ensures channel == old(channel) && handler == old(handler)
      ensures connectLog == old(connectLog) && disconnectNotices == old(disconnectNotices) && handshakes == old(handshakes)
    {
      callback := Some(Direct(UserCallback(id)));
      pendingConnectTasks := pendingConnectTasks + 1;
    }

    /** `onMessage(type, handler)`: the handler, behind an adapter that
        passes the message index, wrapped in a `JsonFrameCallback` whatever
        the type (with the index corrected to count, see `TypedCallback`). */
    method OnMessageTyped(declared: DeclaredType, h: nat)
      requires Valid()
      modifies this
      ensures Valid()
      ensures State() == old(State()).(callback := Some(TypedCallback(h, declared)),
                                       pendingConnectTasks := old(pendingConnectTasks) + 1)
      ensures channel == old(channel) && handler == old(handler)
      ensures connectLog == old(connectLog) && disconnectNotices == old(disconnectNotices) && handshakes == old(handshakes)
    {
      callback := Some(TypedCallback(h, declared));
      pendingConnectTasks := pendingConnectTasks + 1;
    }

    /** `withErrorHandler`: `None` stands for null, which removes the policy. */
    method WithErrorHandler(policy: Option<ErrorPolicy>)
      requires Valid()
      modifies ex
      ensures Valid()
      ensures ex.State() == old(ex.State()) && ex.onError == policy
    {
      ex.SetPolicy(policy);
    }

    /** `onConnect` */
    method OnConnectListener(id: nat)
      requires Valid()
      modifies this
      ensures Valid()
      ensures State() == old(State()).(onConnects := old(onConnects) + [UserListener(id)])
      ensures channel == old(channel) && handler == old(handler)
      ensures connectLog == old(connectLog) && disconnectNotices == old(disconnectNotices) && handshakes == old(handshakes)
    {
      onConnects := onConnects + [UserListener(id)];
    }

    /** `onDisconnect` */
    method OnDisconnectListener(id: nat)
      requires Valid()
      modifies this
      ensures Valid()
      ensures State() == old(State()).(onDisconnects := old(onDisconnects) + [id])
      ensures channel == old(channel) && handler == old(handler)
      ensures connectLog == old(connectLog) && disconnectNotices == old(disconnectNotices) && handshakes == old(handshakes)
    {
      onDisconnects := onDisconnects + [id];
    }

    /** `sendOnConnect`: refused with an IllegalStateException once connected. */
    method SendOnConnect(m: Value) returns (accepted: bool)
      requires Valid()
      modifies this
      ensures Valid()
      ensures accepted <==> old(channel) == null
      ensures State() == old(State()).(onConnects := if accepted then old(onConnects) + [SendMessage(m)] else old(onConnects))
      ensures channel == old(channel) && handler == old(handler)
      ensures connectLog == old(connectLog) && disconnectNotices == old(disconnectNotices) && handshakes == old(handshakes)
    {
      accepted := channel == null;
      if accepted {
        onConnects := onConnects + [SendMessage(m)];
      }
    }

    /** A connect task queued by `onMessage` runs: the first one to run calls
        `doConnect` with the callback installed at that time, which resets the
        latch and builds the handler; the channel registration adds it to the
        pipeline (`handlerAdded`). */
    method RunConnectTask()
      requires Valid() && pendingConnectTasks > 0
      modifies this
      ensures Valid()
      ensures old(started) ==> State() == old(State()).(pendingConnectTasks := old(pendingConnectTasks) - 1)
                               && handler == old(handler)
      ensures !old(started) ==>
                && State() == old(State()).(pendingConnectTasks := old(pendingConnectTasks) - 1, started := true, latch := 1)
                && fresh(handler) && fresh(handler.ch) && handler.ch.open && handler.ch.outbound == []
                && handler.cb == old(callback).value && handler.future == Pending && !handler.handshakeComplete
                && handler.pendingCloses == 0 && handler.delivered == []
      ensures channel == old(channel)
      ensures connectLog == old(connectLog) && disconnectNotices == old(disconnectNotices) && handshakes == old(handshakes)
    {
      pendingConnectTasks := pendingConnectTasks - 1;
      if !started {
        started := true;
        latch := 1;
        var ch := new Channel();
        var h := new Handler(callback.value, ch, ex, codec);
        h.HandlerAdded();
        handler := h;
      }
    }

    /** The listener on the connect future. A close requested meanwhile
        releases `await` and closes the new channel; a failure is recorded
        and releases `await`; a success makes the channel the request's. */
    method ConnectResult(success: bool, cause: Throwable)
      requires Valid() && started && !connectDone
      modifies this, ex, handler.ch
      ensures Valid()
      ensures handler == old(handler)
      ensures old(closed) ==> && State() == old(State()).(connectDone := true, latch := 0)
                              && channel == null && !handler.ch.open && handler.ch.outbound == old(handler.ch.outbound)
                              && ex.State() == old(ex.State())
      ensures !old(closed) && success ==> && State() == old(State()).(connectDone := true)
                                          && channel == handler.ch && unchanged(handler.ch) && ex.State() == old(ex.State())
      ensures !old(closed) && !success ==>
                && State() == old(State()).(connectDone := true, latch := 0)
                && channel == null && unchanged(handler.ch)
                && ex.State() == AfterException(old(ex.State()), old(ex.onError), cause)
      ensures ex.onError == old(ex.onError)
      ensures connectLog == old(connectLog) && disconnectNotices == old(disconnectNotices) && handshakes == old(handshakes)
    {
      connectDone := true;
      if closed {
        latch := CountDown(latch);
        handler.ch.Close();
        return;
      }
      if success {
        channel := handler.ch;
      } else {
        ex.OnException(cause);
        latch := CountDown(latch);
      }
    }

    /** The `onConnects` loop of the handshake listener `doConnect` installs. */
    method AnnounceConnected()
      requires Valid() && channel != null
      modifies this, channel
      ensures State() == old(State()) && channel == old(channel) && handler == old(handler)
      ensures connectLog == old(connectLog) + ListenerCalls(Announce(codec, onConnects).listeners)
      // a write to a channel already closed leaves no trace
      ensures channel.open == old(channel.open)
      ensures channel.outbound == old(channel.outbound) + (if old(channel.open) then Announce(codec, onConnects).sent else [])
      ensures disconnectNotices == old(disconnectNotices) && handshakes == old(handshakes)
    {
      var i := 0;
      var stopped := false;
      while i < |onConnects| && !stopped
        invariant 0 <= i <= |onConnects|
        invariant State() == old(State()) && channel == old(channel) && handler == old(handler)
        invariant stopped == Announce(codec, onConnects[..i]).stopped
        invariant connectLog == old(connectLog) + ListenerCalls(Announce(codec, onConnects[..i]).listeners)
        invariant channel.open == old(channel.open)
        invariant channel.outbound == old(channel.outbound) + (if old(channel.open) then Announce(codec, onConnects[..i]).sent else [])
        invariant disconnectNotices == old(disconnectNotices) && handshakes == old(handshakes)
        decreases |onConnects| - i
      {
        assert onConnects[..i + 1][..i] == onConnects[..i];
        match onConnects[i] {
          case UserListener(id) =>
            assert ListenerCalls(Announce(codec, onConnects[..i + 1]).listeners)
                == ListenerCalls(Announce(codec, onConnects[..i]).listeners) + [ListenerCall(id)];
            connectLog := connectLog + [ListenerCall(id)];
          case SendMessage(m) =>
            var frame := ToWebSocketFrame(codec, m);
            if frame.Returned? && frame.value.Some? {
              channel.WriteAndFlush(frame.value.value);
            } else {
              stopped := true;
            }
        }
        i := i + 1;
      }
      if stopped {
        AnnounceStopped(codec, onConnects, i);
      } else {
        assert onConnects[..i] == onConnects;
      }
    }

    /** A message read on the connected channel goes to the handler; when it
        completes the handshake, the handshake listeners run in the order
        `handlerAdded` added them: first the request's, which runs the
        `onConnects` listeners, then the handler's, which calls `cb.onConnect`. */
    method ChannelRead(msg: Inbound, reaction: Reaction, created: Throwable)
      requires Valid() && channel != null
      // an exception the read creates is a new object, never seen before
      requires created !in ex.seen
      modifies this, ex, handler, channel
      ensures Valid()
      ensures State() == old(State()) && channel == old(channel) && handler == old(handler)
      ensures disconnectNotices == old(disconnectNotices)
      ensures var justConnected := Classify(old(handler.handshakeComplete), msg) == FinishHandshake
                                   && msg.rejection.None? && old(handler.future) == Pending;
              && handshakes == old(handshakes) + (if justConnected then 1 else 0)
              // the request's listeners run, then `cb.onConnect`
              && (justConnected ==>
                    && connectLog == old(connectLog) + ListenerCalls(Announce(codec, onConnects).listeners)
                                                     + CallbackCalls(ConnectTarget(old(handler.cb)))
                    && handler.connectCalls == old(handler.connectCalls) + OptionToSeq(ConnectTarget(old(handler.cb)))
                    && channel.open == old(channel.open)
                    && channel.outbound == old(channel.outbound) + (if old(channel.open) then Announce(codec, onConnects).sent else [])
                    && handler.cb == old(handler.cb) && handler.delivered == old(handler.delivered)
                    && handler.disconnectCalls == old(handler.disconnectCalls)
                    && handler.handshakeComplete && handler.future == Succeeded
                    && handler.pendingCloses == old(handler.pendingCloses)
                    && ex.State() == old(ex.State()) && ex.onError == old(ex.onError))
              // any other read does what the handler's `channelRead0` does, and no more
              && (!justConnected ==> connectLog == old(connectLog) && handler.ReadHandled(msg, reaction, created))
    {
      var handshakeDone := handler.ChannelRead(msg, reaction, created);
      if handshakeDone {
        handshakes := handshakes + 1;
        HandshakeListeners();
      }
    }

    /** The listeners of the handshake future that has just succeeded, in
        the order `handlerAdded` added them: the request's, which runs the
        `onConnects` loop, then the handler's, which calls `cb.onConnect`. */
    method HandshakeListeners()
      requires Valid() && channel != null && handler.future == Succeeded
      modifies this, handler, channel
      ensures Valid()
      ensures State() == old(State()) && channel == old(channel) && handler == old(handler)
      ensures disconnectNotices == old(disconnectNotices) && handshakes == old(handshakes)
      ensures connectLog == old(connectLog) + ListenerCalls(Announce(codec, onConnects).listeners)
                                            + CallbackCalls(ConnectTarget(old(handler.cb)))
      ensures handler.connectCalls == old(handler.connectCalls) + OptionToSeq(ConnectTarget(old(handler.cb)))
      ensures channel.open == old(channel.open)
      ensures channel.outbound == old(channel.outbound) + (if old(channel.open) then Announce(codec, onConnects).sent else [])
      ensures && handler.cb == old(handler.cb) && handler.delivered == old(handler.delivered)
              && handler.disconnectCalls == old(handler.disconnectCalls)
              && handler.handshakeComplete == old(handler.handshakeComplete) && handler.future == old(handler.future)
              && handler.pendingCloses == old(handler.pendingCloses)
    {
      AnnounceConnected();
      var called := handler.NotifyConnected();
      connectLog := connectLog + CallbackCalls(called);
    }

    /** An exception the pipeline passes to the handler's `exceptionCaught`. */
    method ExceptionCaught(cause: Throwable)
      requires Valid() && handler != null
      modifies ex, handler
      ensures Valid()
      ensures ex.State() == AfterException(old(ex.State()), old(ex.onError), cause) && ex.onError == old(ex.onError)
      ensures handler.future == (if old(handler.future) == Pending then Failed(cause) else old(handler.future))
      ensures handler.pendingCloses == old(handler.pendingCloses) + (if old(handler.future) == Pending then 2 else 1)
      ensures handler == old(handler) && handler.SlotAndLogsKept()
    {
      handler.ExceptionCaught(cause);
    }

    /** A `ctx.close()` task queued by `exceptionCaught` runs. */
    method RunCloseTask()
      requires Valid() && handler != null && handler.pendingCloses > 0
      modifies handler, handler.ch
      ensures Valid()
      ensures handler.pendingCloses == old(handler.pendingCloses) - 1
      ensures !handler.ch.open && handler.ch.outbound == old(handler.ch.outbound)
      ensures handler == old(handler) && handler.future == old(handler.future) && handler.SlotAndLogsKept()
    {
      handler.RunCloseTask();
    }

    /** The peer or the network closes the connection: no client code runs. */
    method PeerClosed()
      requires Valid() && handler != null
      modifies handler.ch
      ensures Valid()
      ensures !handler.ch.open && handler.ch.outbound == old(handler.ch.outbound)
    {
      handler.ch.Close();
    }

    /** `channelInactive` on the closed channel: `cb.onDisconnect`. */
    method ChannelInactive()
      requires Valid() && handler != null && !handler.ch.open
      modifies handler
      ensures Valid()
      ensures handler == old(handler)
      ensures handler.disconnectCalls == old(handler.disconnectCalls) + OptionToSeq(DisconnectTarget(handler.cb))
      ensures && handler.cb == old(handler.cb) && handler.handshakeComplete == old(handler.handshakeComplete)
              && handler.future == old(handler.future) && handler.pendingCloses == old(handler.pendingCloses)
              && handler.delivered == old(handler.delivered) && handler.connectCalls == old(handler.connectCalls)
    {
      handler.ChannelInactive();
    }

    /** The two listeners on `channel.closeFuture()`, in the order they were
        added: every `OnDisconnect` is told `thrown`, or `lastThrown` when
        nothing is pending; then the close listener records the future's
        cause, if any, and releases `await`, at once if the event loop group
        is shut down and otherwise from a task it queues. */
    method ChannelClosed(cause: Option<Throwable>, groupShutdown: bool)
      requires Valid() && channel != null && !channel.open && !closeListenersRan
      modifies this, ex
      ensures Valid()
      ensures disconnectNotices == old(disconnectNotices) + Notices(onDisconnects, DisconnectCause(old(ex.State())))
      ensures cause.Some? ==> ex.State() == AfterException(old(ex.State()), old(ex.onError), cause.value)
      ensures cause.None? ==> ex.State() == old(ex.State())
      ensures ex.onError == old(ex.onError)
      ensures groupShutdown ==> State() == old(State()).(closeListenersRan := true, latch := 0)
      ensures !groupShutdown ==> State() == old(State()).(closeListenersRan := true,
                                                         pendingCountDowns := old(pendingCountDowns) + 1)
      ensures Released()
      ensures channel == old(channel) && handler == old(handler)
      ensures connectLog == old(connectLog) && handshakes == old(handshakes)
    {
      NotifyDisconnected();
      CloseListener(cause, groupShutdown);
    }

    /** The first close-future listener: the `onDisconnects` loop. */
    method NotifyDisconnected()
      requires Valid()
      modifies this
      ensures Valid()
      ensures disconnectNotices == old(disconnectNotices) + Notices(onDisconnects, DisconnectCause(ex.State()))
      ensures State() == old(State()) && channel == old(channel) && handler == old(handler)
      ensures connectLog == old(connectLog) && handshakes == old(handshakes)
    {
      var c := DisconnectCause(ex.State());
      var i := 0;
      while i < |onDisconnects|
        invariant 0 <= i <= |onDisconnects|
        invariant State() == old(State()) && channel == old(channel) && handler == old(handler)
        invariant connectLog == old(connectLog) && handshakes == old(handshakes)
        invariant disconnectNotices == old(disconnectNotices) + Notices(onDisconnects[..i], c)
      {
        assert onDisconnects[..i + 1] == onDisconnects[..i] + [onDisconnects[i]];
        disconnectNotices := disconnectNotices + [(onDisconnects[i], c)];
        i := i + 1;
      }
      assert onDisconnects[..i] == onDisconnects;
    }

    /** The second close-future listener, `closeListener`. */
    method CloseListener(cause: Option<Throwable>, groupShutdown: bool)
      requires Valid() && channel != null && !closeListenersRan
      modifies this, ex
      ensures Valid()
      ensures cause.Some? ==> ex.State() == AfterException(old(ex.State()), old(ex.onError), cause.value)
      ensures cause.None? ==> ex.State() == old(ex.State())
      ensures ex.onError == old(ex.onError)
      ensures groupShutdown ==> State() == old(State()).(closeListenersRan := true, latch := 0)
      ensures !groupShutdown ==> State() == old(State()).(closeListenersRan := true,
                                                         pendingCountDowns := old(pendingCountDowns) + 1)
      ensures channel == old(channel) && handler == old(handler)
      ensures connectLog == old(connectLog) && disconnectNotices == old(disconnectNotices) && handshakes == old(handshakes)
    {
      if cause.Some? {
        ex.OnException(cause.value);
      }
      if groupShutdown {
        latch := CountDown(latch);
      } else {
        pendingCountDowns := pendingCountDowns + 1;
      }
      closeListenersRan := true;
    }

    /** A `latch.countDown()` task queued by the close listener runs. */
    method RunCountDownTask()
      requires Valid() && pendingCountDowns > 0
      modifies this
      ensures Valid()
      ensures State() == old(State()).(pendingCountDowns := old(pendingCountDowns) - 1, latch := 0)
      ensures channel == old(channel) && handler == old(handler)
      ensures connectLog == old(connectLog) && disconnectNotices == old(disconnectNotices) && handshakes == old(handshakes)
    {
      pendingCountDowns := pendingCountDowns - 1;
      latch := CountDown(latch);
    }

    /** `await` starts with `ex.rethrow()`: a failure already recorded is
        thrown at once, and `await` goes no further. */
    method BeginAwait() returns (raised: Option<Throwable>)
      requires Valid()
      modifies ex
      ensures Valid()
      ensures (ex.State(), raised) == AfterRethrow(old(ex.State())) && ex.onError == old(ex.onError)
    {
      raised := ex.Rethrow();
    }

    /** `await` resumes once the latch is open (or, for the timed variant,
        once the time is up) and ends with `ex.rethrow()`. */
    method FinishAwait(timedOut: bool) returns (raised: Option<Throwable>)
      requires Valid() && (timedOut || latch == 0)
      modifies ex
      ensures Valid()
      ensures (ex.State(), raised) == AfterRethrow(old(ex.State())) && ex.onError == old(ex.onError)
    {
      raised := ex.Rethrow();
    }
  }
}
