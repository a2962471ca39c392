/** The chat panel of one stream: the state it keeps (comments, the comment
    being typed, connection flag, viewer counts, recent joins, session id), its
    socket event handlers, the comment fetch that seeds it, and `sendComment`.
    The panel opens its own socket per mount; a socket is named here by the
    number of sockets the panel created before it. Time, ids made from the
    clock, and payload values are parameters of the event methods; the
    five-second `recentJoins` timer is the explicit `Expire` event. */
module LiveChat {
  import opened Util

  const StreamEndedText := "Live stream has ended"
  const JoinedSuffix := " joined"

  datatype Comment =
    | ServerComment(serverId: string, userName: string, content: string, createdAt: int)
    | SystemMessage(id: int, content: string, timestamp: int)

  datatype RecentJoin = RecentJoin(name: string, isGuest: bool)

  datatype Outgoing =
    | JoinStreamOut(streamId: string, userId: string, sessionId: Option<string>)
    | LeaveStreamOut
    | SendCommentOut(streamId: string, userId: string, content: string)

  /** A message emitted on the panel's socket number `socket`. */
  datatype Sent = Sent(socket: nat, message: Outgoing)

  /** The system message a `viewerJoined` event adds. */
  function JoinNotice(name: string, id: int, timestamp: int): Comment {
    SystemMessage(id, name + JoinedSuffix, timestamp)
  }

  /** The `recentJoins` left when the timer of a join of `name` fires: every
      entry with that name goes, every other entry stays, in order. */
  function WithoutName(joins: seq<RecentJoin>, name: string): (r: seq<RecentJoin>)
    ensures forall i :: 0 <= i < |r| ==> r[i].name != name && r[i] in joins
    ensures forall i :: 0 <= i < |joins| && joins[i].name != name ==> joins[i] in r
  {
    Filter(joins, (j: RecentJoin) => j.name != name)
  }

  /** The timer of a join removes that join and every earlier join with the
      same name. */
  lemma {:induction false} ExpiryRemovesEarlierSameName(joins: seq<RecentJoin>, j: RecentJoin)
    ensures WithoutName(joins + [j], j.name) == WithoutName(joins, j.name)
  {
    var keep := (x: RecentJoin) => x.name != j.name;
    FilterConcat(joins, [j], keep);
    assert Filter([j], keep) == [];
  }

  /** Two joins, the first timer fires: the second join survives only when its
      name differs. Joins of one name do not expire independently. */
  lemma FirstExpiry(a: RecentJoin, b: RecentJoin)
    ensures WithoutName([a, b], a.name) == if b.name == a.name then [] else [b]
  {
    var keep := (x: RecentJoin) => x.name != a.name;
    FilterConcat([a], [b], keep);
    assert [a, b] == [a] + [b];
  }

  /** Outcome of `sendComment`'s guard chain. */
  datatype SendDecision = Ignore | PromptLogin | Send(content: string)

  /** The guards of `sendComment`: an empty trimmed comment, a missing socket or
      a disconnected view are ignored; a guest is asked to log in; otherwise the
      trimmed comment is sent. */
  function DecideSend(input: string, hasSocket: bool, connected: bool, loggedIn: bool): (d: SendDecision)
    ensures d.Send? <==> !AllSpace(input) && hasSocket && connected && loggedIn
    ensures d.PromptLogin? <==> !AllSpace(input) && hasSocket && connected && !loggedIn
    ensures d.Send? ==> d.content == Trim(input) && d.content != []
    ensures d.Send? ==> !IsSpace(d.content[0]) && !IsSpace(d.content[|d.content| - 1])
  {
    TrimEmptyIff(input);
    if Trim(input) == "" || !hasSocket || !connected then Ignore
    else if !loggedIn then PromptLogin
    else Send(Trim(input))
  }

  /** What the comment fetch yields: the request failed (network or JSON
      error), the response was not ok, or the body's `comments` field. */
  datatype CommentsField = Absent | NotAnArray | AnArray(items: seq<Comment>)
  datatype CommentsFetch = FetchRejected | FetchNotOk | FetchOk(comments: CommentsField)

  /** The `joinStream` a `connect` sends: the session id the handlers saw when
      they were installed, omitted when empty. */
  function ConnectMessage(streamId: string, userId: string, capturedSessionId: string): Outgoing {
    JoinStreamOut(streamId, userId, if capturedSessionId == "" then None else Some(capturedSessionId))
  }

  /** Every field of the panel, for stating what an event leaves unchanged. */
  datatype View = View(
    comments: seq<Comment>, input: string, socket: Option<nat>, isConnected: bool,
    viewerCount: int, totalViews: int, recentJoins: seq<RecentJoin>, sessionId: string,
    listening: bool, capturedSessionId: string, sockets: nat, sent: seq<Sent>)

  class ChatView {
    const streamId: string
    const userId: string
    /** `useState(!!userId)`: fixed at the first render. */
    const isLoggedIn: bool

    var comments: seq<Comment>
    var input: string
    var socket: Option<nat>
    var isConnected: bool
    var viewerCount: int
    var totalViews: int
    var recentJoins: seq<RecentJoin>
    var sessionId: string

    /** Whether the handlers of the effect are installed on `socket`. */
    var listening: bool
    /** The `sessionId` the installed handlers closed over. */
    var capturedSessionId: string
    /** How many sockets the panel has created. */
    var sockets: nat
    var sent: seq<Sent>

    ghost predicate Valid()
      reads this
    {
      && (listening ==> socket.Some? && socket.value < sockets)
      && (isConnected ==> listening)
      && (!isLoggedIn ==> input == "")
    }

    function Snapshot(): View
      reads this
    {
      View(comments, input, socket, isConnected, viewerCount, totalViews, recentJoins,
           sessionId, listening, capturedSessionId, sockets, sent)
    }

    /** The first render: every piece of state at its initial value. */
    constructor (streamId: string, userId: string)
      ensures Valid()
      ensures this.streamId == streamId && this.userId == userId && isLoggedIn == (userId != "")
      ensures Snapshot() == View([], "", None, false, 0, 0, [], "", false, "", 0, [])
    {
      this.streamId := streamId;
      this.userId := userId;
      isLoggedIn := userId != "";
      comments, input, socket, isConnected := [], "", None, false;
      viewerCount, totalViews, recentJoins, sessionId := 0, 0, [], "";
      listening, capturedSessionId, sockets, sent := false, "", 0, [];
    }

    /** The connection effect: with no stream id nothing is set up; otherwise a
        new socket is created and the handlers, closing over the current
        `sessionId`, are installed on it. The comment fetch it starts settles
        later, in `CommentsFetched`. */
    method Setup()
      requires Valid() && !listening
      modifies this
      ensures Valid()
      ensures streamId == "" ==> Snapshot() == old(Snapshot())
      ensures streamId != "" ==> Snapshot() == old(Snapshot()).(
        socket := Some(old(sockets)), sockets := old(sockets) + 1,
        listening := true, capturedSessionId := old(sessionId))
    {
      if streamId == "" {
        return;
      }
      socket := Some(sockets);
      sockets := sockets + 1;
      listening := true;
      capturedSessionId := sessionId;
    }

    /** The effect's cleanup: `leaveStream` (without payload) on the socket,
        then `disconnect()`, whose local `disconnect` event clears the flag. */
    method Cleanup()
      requires Valid() && listening
      modifies this
      ensures Valid() && !listening && !isConnected
      ensures Snapshot() == old(Snapshot()).(
        sent := old(sent) + [Sent(old(socket).value, LeaveStreamOut)],
        listening := false, isConnected := false)
    {
      sent := sent + [Sent(socket.value, LeaveStreamOut)];
      isConnected := false;
      listening := false;
    }

    /** `connect`: the view is connected and asks to join the stream room. */
    method OnConnect()
      requires Valid() && listening
      modifies this
      ensures Valid() && isConnected
      ensures Snapshot() == old(Snapshot()).(
        isConnected := true,
        sent := old(sent) + [Sent(socket.value, ConnectMessage(streamId, userId, capturedSessionId))])
    {
      isConnected := true;
      sent := sent + [Sent(socket.value, ConnectMessage(streamId, userId, capturedSessionId))];
    }

    /** `joinedStream`: adopts the server's session id when it is non-empty and
        the id the handlers closed over is empty; always takes both counts. */
    method OnJoinedStream(serverSessionId: string, count: int, total: int)
      requires Valid() && listening
      modifies this
      ensures Valid()
      ensures Snapshot() == old(Snapshot()).(
        sessionId := if serverSessionId != "" && capturedSessionId == "" then serverSessionId else old(sessionId),
        viewerCount := count, totalViews := total)
    {
      if serverSessionId != "" && capturedSessionId == "" {
        sessionId := serverSessionId;
      }
      viewerCount := count;
      totalViews := total;
    }

    /** `viewerCount`: both counts become the server's values. */
    method OnViewerCount(count: int, total: int)
      requires Valid() && listening
      modifies this
      ensures Valid()
      ensures Snapshot() == old(Snapshot()).(viewerCount := count, totalViews := total)
    {
      viewerCount := count;
      totalViews := total;
    }

    /** `newComment`: one entry at the end, the earlier ones untouched. */
    method OnNewComment(c: Comment)
      requires Valid() && listening
      modifies this
      ensures Valid()
      ensures |comments| == |old(comments)| + 1 && comments[|comments| - 1] == c
      ensures Snapshot() == old(Snapshot()).(comments := old(comments) + [c])
    {
      comments := comments + [c];
    }

    /** `viewerJoined`: a "<name> joined" system message and a recent-join entry. */
    method OnViewerJoined(name: string, isGuest: bool, timestamp: int, id: int)
      requires Valid() && listening
      modifies this
      ensures Valid()
      ensures Snapshot() == old(Snapshot()).(
        comments := old(comments) + [JoinNotice(name, id, timestamp)],
        recentJoins := old(recentJoins) + [RecentJoin(name, isGuest)])
    {
      comments := comments + [JoinNotice(name, id, timestamp)];
      recentJoins := recentJoins + [RecentJoin(name, isGuest)];
    }

    /** The timer a `viewerJoined` set: drops every recent join with that name.
        It is never cancelled, so it also fires after the cleanup. */
    method Expire(name: string)
      requires Valid()
      modifies this
      ensures Valid()
      ensures forall i :: 0 <= i < |recentJoins| ==> recentJoins[i].name != name
      ensures Snapshot() == old(Snapshot()).(recentJoins := WithoutName(old(recentJoins), name))
    {
      recentJoins := WithoutName(recentJoins, name);
    }

    /** `viewerLeft`: only the live count changes. */
    method OnViewerLeft(count: int)
      requires Valid() && listening
      modifies this
      ensures Valid()
      ensures Snapshot() == old(Snapshot()).(viewerCount := count)
    {
      viewerCount := count;
    }

    /** `streamEnded`: one system message, nothing else. */
    method OnStreamEnded(id: int, now: int)
      requires Valid() && listening
      modifies this
      ensures Valid()
      ensures Snapshot() == old(Snapshot()).(comments := old(comments) + [SystemMessage(id, StreamEndedText, now)])
    {
      comments := comments + [SystemMessage(id, StreamEndedText, now)];
    }

    /** `disconnect`. */
    method OnDisconnect()
      requires Valid() && listening
      modifies this
      ensures Valid() && !isConnected
      ensures Snapshot() == old(Snapshot()).(isConnected := false)
    {
      isConnected := false;
    }

    /** The comment fetch settles: an array of comments replaces the list
        wholesale, including comments that arrived on the socket meanwhile. */
    method CommentsFetched(f: CommentsFetch)
      requires Valid()
      modifies this
      ensures Valid()
      ensures f.FetchOk? && f.comments.AnArray? ==> Snapshot() == old(Snapshot()).(comments := f.comments.items)
      ensures !(f.FetchOk? && f.comments.AnArray?) ==> Snapshot() == old(Snapshot())
    {
      match f
      case FetchOk(AnArray(items)) =>
        comments := items;
      case _ =>
    }

    /** Typing in the comment box, which is disabled for a guest and while
        disconnected. */
    method Type(text: string)
      requires Valid()
      modifies this
      ensures Valid()
      ensures Snapshot() == if isLoggedIn && old(isConnected) then old(Snapshot()).(input := text) else old(Snapshot())
    {
      if isLoggedIn && isConnected {
        input := text;
      }
    }

    /** `sendComment`: when the guards pass, emits the trimmed comment once and
        clears the box; no local copy is added to the comments. */
    method SendComment()
      requires Valid()
      modifies this
      ensures Valid() && comments == old(comments)
      ensures var d := DecideSend(old(input), old(socket).Some?, old(isConnected), isLoggedIn);
        Snapshot() == if d.Send?
          then old(Snapshot()).(sent := old(sent) + [Sent(old(socket).value, SendCommentOut(streamId, userId, d.content))], input := "")
          else old(Snapshot())
      ensures !isLoggedIn ==> !DecideSend(old(input), old(socket).Some?, old(isConnected), isLoggedIn).PromptLogin?
    {
      var d := DecideSend(input, socket.Some?, isConnected, isLoggedIn);
      if d.Send? {
        sent := sent + [Sent(socket.value, SendCommentOut(streamId, userId, d.content))];
        input := "";
      }
    }
  }

  /** The handlers close over the session id of their setup, so while it was
      empty every `joinedStream` with a session id overwrites the adopted one,
      and a reconnect still sends no session id. */
  method RepeatedJoinedStream(streamId: string, first: string, second: string) returns (adopted: string, rejoin: Outgoing)
    requires streamId != "" && first != "" && second != ""
    ensures adopted == second
    ensures rejoin.JoinStreamOut? && rejoin.sessionId.None?
  {
    var v := new ChatView(streamId, "");
    v.Setup();
    v.OnJoinedStream(first, 1, 1);
    v.OnJoinedStream(second, 1, 1);
    adopted := v.sessionId;
    v.OnConnect();
    rejoin := v.sent[|v.sent| - 1].message;
  }
}
