/** The viewer's socket module: one module-level socket created on first use,
    emit helpers that fill in guest identities, and the single-slot listener
    registry whose `add*Listener` functions clear an event before installing
    its handler. The transport itself is not modelled: a `Connection` is the
    socket's listener table and the log of what it was asked to emit. */
module SocketConfig {
  import opened Util

  const SocketUrl := "ws://localhost:9000"
  const ReconnectionAttempts := 5
  const ReconnectionDelayMs := 5000

  const GuestUserId := "guest_viewer"
  const GuestUserName := "Guest"
  const GuestViewerName := "Guest Viewer"

  datatype EventName =
    | Connect | Disconnect | Error
    | StreamEnded | StreamStarted | NewComment | UserJoined | ViewerCount

  /** The events whose logging handlers `initializeSocket` installs; no
      `add*Listener` touches them. */
  predicate IsLifecycleEvent(e: EventName) {
    e.Connect? || e.Disconnect? || e.Error?
  }

  /** The value passed as `callback`: a function (named by an id) or anything
      else (`undefined`, an object, ...). */
  datatype Callback = Function(id: nat) | NotAFunction

  /** A handler on the socket: one that only logs, or the wrapper an
      `add*Listener` installs around its callback. */
  datatype Handler = LogOnly | Forward(callback: Callback)

  /** The callback invocations one inbound event causes when `hs` are the
      event's handlers, in registration order. A wrapper calls its callback
      only when the callback is a function. */
  function Deliver(hs: seq<Handler>): (calls: seq<nat>)
    ensures |calls| <= |hs|
    ensures forall i :: 0 <= i < |calls| ==> Forward(Function(calls[i])) in hs
    ensures forall i :: 0 <= i < |hs| && hs[i].Forward? && hs[i].callback.Function? ==> hs[i].callback.id in calls
  {
    if hs == [] then []
    else (if hs[0].Forward? && hs[0].callback.Function? then [hs[0].callback.id] else []) + Deliver(hs[1..])
  }

  lemma {:induction false} DeliverConcat(a: seq<Handler>, b: seq<Handler>)
    ensures Deliver(a + b) == Deliver(a) + Deliver(b)
  {
    if a == [] {
      assert a + b == b;
    } else {
      assert (a + b)[0] == a[0];
      assert (a + b)[1..] == a[1..] + b;
      DeliverConcat(a[1..], b);
    }
  }

  /** What the `off` before each `on` prevents: two plain `on` calls for the same
      callback make every inbound event call it twice. */
  lemma StackedHandlersFireTwice(hs: seq<Handler>, k: nat)
    ensures Deliver(hs + [Forward(Function(k)), Forward(Function(k))]) == Deliver(hs) + [k, k]
  {
    DeliverConcat(hs, [Forward(Function(k)), Forward(Function(k))]);
  }

  datatype Message =
    | JoinStreamMsg(channelId: string, userId: string, userName: string)
    | LeaveStreamMsg(channelId: string, userId: string)
    | StreamCommentMsg(channelId: string, userId: string, userName: string, message: string)

  /** `s || fallback` for a string argument (every falsy value is modelled as ""). */
  function OrDefault(s: string, fallback: string): string {
    if s == "" then fallback else s
  }

  /** The `joinStream` payload: always sent, as the guest viewer name, with the
      guest id standing in for a missing user id. */
  function JoinStreamPayload(channelId: string, userId: string): (m: Message)
    ensures m.JoinStreamMsg? && m.channelId == channelId && m.userName == GuestViewerName
    ensures userId != "" ==> m.userId == userId
    ensures userId == "" ==> m.userId == GuestUserId
  {
    JoinStreamMsg(channelId, OrDefault(userId, GuestUserId), GuestViewerName)
  }

  /** The `leaveStream` payload, or nothing when the channel id is missing. */
  function LeaveStreamPayload(channelId: string, userId: string): (m: Option<Message>)
    ensures m.Some? <==> channelId != ""
    ensures m.Some? ==> m.value.LeaveStreamMsg? && m.value.channelId == channelId
    ensures m.Some? ==> (userId != "" ==> m.value.userId == userId) && (userId == "" ==> m.value.userId == GuestUserId)
  {
    if channelId == "" then None else Some(LeaveStreamMsg(channelId, OrDefault(userId, GuestUserId)))
  }

  /** The `streamComment` payload, or nothing when the channel id or the
      message is missing. */
  function CommentPayload(channelId: string, userId: string, userName: string, message: string): (m: Option<Message>)
    ensures m.Some? <==> channelId != "" && message != ""
    ensures m.Some? ==> m.value.StreamCommentMsg? && m.value.channelId == channelId && m.value.message == message
    ensures m.Some? ==> (userId != "" ==> m.value.userId == userId) && (userId == "" ==> m.value.userId == GuestUserId)
    ensures m.Some? ==> (userName != "" ==> m.value.userName == userName) && (userName == "" ==> m.value.userName == GuestUserName)
  {
    if channelId == "" || message == "" then None
    else Some(StreamCommentMsg(channelId, OrDefault(userId, GuestUserId), OrDefault(userName, GuestUserName), message))
  }

  function Emitted(m: Option<Message>): seq<Message> {
    if m.Some? then [m.value] else []
  }

  /** The socket instance: its per-event handler lists and the messages it has
      been asked to emit. */
  class Connection {
    const url: string
    const reconnectionAttempts: nat
    const reconnectionDelay: nat
    var handlers: map<EventName, seq<Handler>>
    var sent: seq<Message>

    constructor (url: string, reconnectionAttempts: nat, reconnectionDelay: nat)
      ensures this.url == url && this.reconnectionAttempts == reconnectionAttempts
      ensures this.reconnectionDelay == reconnectionDelay
      ensures handlers == map[] && sent == []
    {
      this.url := url;
      this.reconnectionAttempts := reconnectionAttempts;
      this.reconnectionDelay := reconnectionDelay;
      handlers := map[];
      sent := [];
    }

    function Listeners(e: EventName): seq<Handler>
      reads this
    {
      if e in handlers then handlers[e] else []
    }

    /** The callback calls an inbound `e` event causes. */
    function Dispatch(e: EventName): seq<nat>
      reads this
    {
      Deliver(Listeners(e))
    }

    /** `socket.on(e, h)`: adds `h` after the handlers `e` already has. */
    method On(e: EventName, h: Handler)
      modifies this
      ensures handlers == old(handlers)[e := old(Listeners(e)) + [h]]
      ensures sent == old(sent)
    {
      handlers := handlers[e := Listeners(e) + [h]];
    }

    /** `socket.off(e)`: removes every handler of `e`. */
    method Off(e: EventName)
      modifies this
      ensures handlers == old(handlers) - {e}
      ensures Listeners(e) == [] && Dispatch(e) == []
      ensures sent == old(sent)
    {
      handlers := handlers - {e};
    }

    method Emit(m: Message)
      modifies this
      ensures sent == old(sent) + [m]
      ensures handlers == old(handlers)
    {
      sent := sent + [m];
    }
  }

  /** The handler table `initializeSocket` leaves on a new socket. */
  function InitialHandlers(): (t: map<EventName, seq<Handler>>)
    ensures forall e :: e in t <==> IsLifecycleEvent(e)
  {
    map[Connect := [LogOnly], Disconnect := [LogOnly], Error := [LogOnly]]
  }

  /** The function an `add*Listener` returns: it clears its event on the socket
      it subscribed on. */
  datatype Disposer = Disposer(conn: Connection, event: EventName)

  method Dispose(d: Disposer)
    modifies d.conn
    ensures d.conn.handlers == old(d.conn.handlers) - {d.event}
    ensures d.conn.Dispatch(d.event) == []
    ensures d.conn.sent == old(d.conn.sent)
  {
    d.conn.Off(d.event);
  }

  /** The module-level state: the `socket` variable, created at most once. */
  class SocketSingleton {
    var socket: Connection?
    /** How many connections `io(...)` has been asked to create. */
    ghost var created: nat

    ghost predicate Valid()
      reads this, socket
    {
      && created == (if socket == null then 0 else 1)
      && (socket != null ==>
            && socket.url == SocketUrl
            && socket.reconnectionAttempts == ReconnectionAttempts
            && socket.reconnectionDelay == ReconnectionDelayMs
            && socket.Listeners(Connect) == [LogOnly]
            && socket.Listeners(Disconnect) == [LogOnly]
            && socket.Listeners(Error) == [LogOnly])
    }

    /** The handler table `getSocket()` would work on. */
    function Table(): map<EventName, seq<Handler>>
      reads this, socket
    {
      if socket == null then InitialHandlers() else socket.handlers
    }

    /** The messages emitted so far. */
    function Outbox(): seq<Message>
      reads this, socket
    {
      if socket == null then [] else socket.sent
    }

    /** Module load: `let socket = null`. */
    constructor ()
      ensures Valid() && socket == null
    {
      socket := null;
      created := 0;
    }

    /** `initializeSocket()`: creates the socket and its three logging handlers
        on the first call only; every call returns the same instance. */
    method InitializeSocket() returns (s: Connection)
      requires Valid()
      modifies this
      ensures Valid() && socket == s
      ensures old(socket) != null ==> s == old(socket) && created == old(created)
      ensures old(socket) == null ==> fresh(s) && created == 1
      ensures s.handlers == old(Table()) && s.sent == old(Outbox())
    {
      if socket == null {
        var c := new Connection(SocketUrl, ReconnectionAttempts, ReconnectionDelayMs);
        assert [] + [LogOnly] == [LogOnly];
        c.On(Connect, LogOnly);
        assert c.handlers == map[Connect := [LogOnly]];
        c.On(Disconnect, LogOnly);
        assert c.handlers == map[Connect := [LogOnly], Disconnect := [LogOnly]];
        c.On(Error, LogOnly);
        socket := c;
        created := created + 1;
      }
      s := socket;
    }

    /** `getSocket()`: initialises lazily, so it never returns null. */
    method GetSocket() returns (s: Connection?)
      requires Valid()
      modifies this
      ensures Valid() && s != null && socket == s
      ensures old(socket) != null ==> s == old(socket) && created == old(created)
      ensures old(socket) == null ==> fresh(s)
      ensures s.handlers == old(Table()) && s.sent == old(Outbox())
    {
      if socket == null {
        s := InitializeSocket();
      } else {
        s := socket;
      }
    }

    /** `joinStream(channelId, userId)`: always emits. */
    method JoinStream(channelId: string, userId: string)
      requires Valid()
      modifies this, socket
      ensures Valid() && socket != null && (old(socket) != null ==> socket == old(socket))
      ensures old(socket) == null ==> fresh(socket)
      ensures socket.handlers == old(Table())
      ensures socket.sent == old(Outbox()) + [JoinStreamPayload(channelId, userId)]
    {
      var inst := GetSocket();
      if inst == null {
        return;
      }
      inst.Emit(JoinStreamPayload(channelId, userId));
    }

    /** `leaveStream(channelId, userId)`: the socket is obtained (and created)
        before the channel id is checked. */
    method LeaveStream(channelId: string, userId: string)
      requires Valid()
      modifies this, socket
      ensures Valid() && socket != null && (old(socket) != null ==> socket == old(socket))
      ensures old(socket) == null ==> fresh(socket)
      ensures socket.handlers == old(Table())
      ensures socket.sent == old(Outbox()) + Emitted(LeaveStreamPayload(channelId, userId))
    {
      var inst := GetSocket();
      if inst == null {
        return;
      }
      var m := LeaveStreamPayload(channelId, userId);
      if m.None? {
        return;
      }
      inst.Emit(m.value);
    }

    /** `sendComment(channelId, userId, userName, message)`. */
    method SendComment(channelId: string, userId: string, userName: string, message: string)
      requires Valid()
      modifies this, socket
      ensures Valid() && socket != null && (old(socket) != null ==> socket == old(socket))
      ensures old(socket) == null ==> fresh(socket)
      ensures socket.handlers == old(Table())
      ensures socket.sent == old(Outbox()) + Emitted(CommentPayload(channelId, userId, userName, message))
    {
      var inst := GetSocket();
      if inst == null {
        return;
      }
      var m := CommentPayload(channelId, userId, userName, message);
      if m.None? {
        return;
      }
      inst.Emit(m.value);
    }

    /** The shared body of the five `add*Listener` functions: `off(e)` then
        `on(e, wrapper)`, returning the disposer. Afterwards `e` has exactly the
        new handler, whatever it had before, and every other event is as it was. */
    method Subscribe(e: EventName, callback: Callback) returns (d: Disposer)
      requires Valid() && !IsLifecycleEvent(e)
      modifies this, socket
      ensures Valid() && socket != null && (old(socket) != null ==> socket == old(socket))
      ensures old(socket) == null ==> fresh(socket)
      ensures socket.handlers == old(Table())[e := [Forward(callback)]]
      ensures socket.Dispatch(e) == (if callback.Function? then [callback.id] else [])
      ensures socket.sent == old(Outbox())
      ensures d == Disposer(socket, e)
    {
      var inst := GetSocket();
      ghost var before := inst.handlers;
      inst.Off(e);
      assert [] + [Forward(callback)] == [Forward(callback)];
      inst.On(e, Forward(callback));
      assert inst.handlers == (before - {e})[e := [Forward(callback)]];
      assert inst.handlers == before[e := [Forward(callback)]];
      d := Disposer(inst, e);
    }

    method AddStreamEndListener(callback: Callback) returns (d: Disposer)
      requires Valid()
      modifies this, socket
      ensures Valid() && socket != null && (old(socket) != null ==> socket == old(socket))
      ensures old(socket) == null ==> fresh(socket)
      ensures socket.handlers == old(Table())[StreamEnded := [Forward(callback)]]
      ensures socket.sent == old(Outbox()) && d == Disposer(socket, StreamEnded)
    {
      d := Subscribe(StreamEnded, callback);
    }

    method AddStreamStartListener(callback: Callback) returns (d: Disposer)
      requires Valid()
      modifies this, socket
      ensures Valid() && socket != null && (old(socket) != null ==> socket == old(socket))
      ensures old(socket) == null ==> fresh(socket)
      ensures socket.handlers == old(Table())[StreamStarted := [Forward(callback)]]
      ensures socket.sent == old(Outbox()) && d == Disposer(socket, StreamStarted)
    {
      d := Subscribe(StreamStarted, callback);
    }

    method AddCommentListener(callback: Callback) returns (d: Disposer)
      requires Valid()
      modifies this, socket
      ensures Valid() && socket != null && (old(socket) != null ==> socket == old(socket))
      ensures old(socket) == null ==> fresh(socket)
      ensures socket.handlers == old(Table())[NewComment := [Forward(callback)]]
      ensures socket.sent == old(Outbox()) && d == Disposer(socket, NewComment)
    {
      d := Subscribe(NewComment, callback);
    }

    method AddUserJoinedListener(callback: Callback) returns (d: Disposer)
      requires Valid()
      modifies this, socket
      ensures Valid() && socket != null && (old(socket) != null ==> socket == old(socket))
      ensures old(socket) == null ==> fresh(socket)
      ensures socket.handlers == old(Table())[UserJoined := [Forward(callback)]]
      ensures socket.sent == old(Outbox()) && d == Disposer(socket, UserJoined)
    {
      d := Subscribe(UserJoined, callback);
    }

    method AddViewerCountListener(callback: Callback) returns (d: Disposer)
      requires Valid()
      modifies this, socket
      ensures Valid() && socket != null && (old(socket) != null ==> socket == old(socket))
      ensures old(socket) == null ==> fresh(socket)
      ensures socket.handlers == old(Table())[ViewerCount := [Forward(callback)]]
      ensures socket.sent == old(Outbox()) && d == Disposer(socket, ViewerCount)
    {
      d := Subscribe(ViewerCount, callback);
    }

    /** `removeStreamEndListener()`: clears `streamEnded` on an existing socket
        and, unlike the other helpers, never creates one. */
    method RemoveStreamEndListener()
      requires Valid()
      modifies socket
      ensures Valid()
      ensures socket != null ==> socket.handlers == old(socket.handlers) - {StreamEnded}
      ensures socket != null ==> socket.sent == old(socket.sent)
    {
      if socket != null {
        socket.Off(StreamEnded);
      }
    }
  }

  /** Calling `initializeSocket` `n` times yields one and the same connection. */
  method InitializeRepeatedly(n: nat) returns (conns: seq<Connection>)
    ensures |conns| == n
    ensures forall i :: 0 <= i < n ==> conns[i] == conns[0]
  {
    var m := new SocketSingleton();
    conns := [];
    if n == 0 {
      return;
    }
    var first := m.InitializeSocket();
    conns := [first];
    while |conns| < n
      invariant 1 <= |conns| <= n
      invariant m.Valid() && m.socket == first && fresh(first)
      invariant forall i :: 0 <= i < |conns| ==> conns[i] == first
    {
      var c := m.InitializeSocket();
      conns := conns + [c];
    }
  }

  /** However many comment listeners are added in a row, an inbound
      `newComment` reaches only the last callback, and once. */
  method ResubscribeNeverStacks(callbacks: seq<Callback>) returns (calls: seq<nat>)
    requires |callbacks| > 0
    ensures var last := callbacks[|callbacks| - 1]; calls == if last.Function? then [last.id] else []
  {
    var m := new SocketSingleton();
    var s := m.InitializeSocket();
    var i := 0;
    while i < |callbacks|
      invariant 0 <= i <= |callbacks|
      invariant m.Valid() && m.socket == s && fresh(s)
      invariant i > 0 ==> s.Listeners(NewComment) == [Forward(callbacks[i - 1])]
    {
      var _ := m.AddCommentListener(callbacks[i]);
      i := i + 1;
    }
    calls := s.Dispatch(NewComment);
  }

  /** A disposer clears its event whoever subscribed last: disposing the first
      subscription also removes the second one. */
  method StaleDisposerClearsNewer(first: Callback, second: Callback) returns (calls: seq<nat>, lifecycle: seq<Handler>)
    ensures calls == []
    ensures lifecycle == [LogOnly]
  {
    var m := new SocketSingleton();
    var d1 := m.AddCommentListener(first);
    var d2 := m.AddCommentListener(second);
    Dispose(d1);
    calls := m.socket.Dispatch(NewComment);
    lifecycle := m.socket.Listeners(Connect);
  }
}
