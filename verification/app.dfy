/** The viewer application: the media client, the roster of remote users
    publishing video, the directory of live streams, and the join / leave
    procedures around the backend and the media SDK. Each awaited call is an
    input: a `Step` for an SDK promise, an `Http` outcome for a `fetch`. The
    requests sent to the backend and the calls made on the SDK are kept as
    append-only logs. */
module App {
  import opened Util
  import LiveChat

  const AppId := "9b8eb3c1d1eb4e35abdb4c9268bd2d16"
  const AudienceRole := "audience"

  const StreamsFetchError := "Failed to fetch live streams. Please try again."
  const TokenErrorPrefix := "Token error: "
  const TokenNotOkText := "Failed to get token"
  const NoTokenError := "Could not get stream token"
  const JoinFailedDefault := "Failed to join channel"

  const TestUserId := "test_user_123"
  const TestUserName := "Test User"
  const GuestName := "Guest"

  /** A stream record of the directory: its `_id` and `channelId`. */
  datatype Stream = Stream(id: string, channelId: string)

  datatype MediaKind = Audio | Video

  /** A remote user as the SDK reports it; `handle` tells apart the objects
      reported for one uid. */
  datatype RemoteUser = RemoteUser(uid: string, handle: nat)

  /** An awaited SDK promise: resolved, or rejected with an error message. */
  datatype Step = Resolved | Rejected(message: string)

  /** An awaited `fetch` and its JSON body: the request or the parsing threw,
      the response was not ok, or the parsed field the code reads. */
  datatype Http<T> = Threw(message: string) | NotOk | Ok(body: T)

  datatype Request =
    | ListLiveStreams
    | TokenRequest(channelName: string, role: string)
    | ViewCountPut(streamId: string)
    | StreamsByChannel(channelId: string)

  datatype SdkCall =
    | Subscribe(uid: string, media: MediaKind)
    | SetClientRole(role: string)
    | Join(appId: string, channel: string, token: string)
    | Leave

  /** `error.message || 'Failed to join channel'`. */
  function JoinErrorText(message: string): (t: string)
    ensures t != ""
    ensures message != "" ==> t == message
    ensures message == "" ==> t == JoinFailedDefault
  {
    if message == "" then JoinFailedDefault else message
  }

  /** The token `getToken` returns ("" for `null` or a missing field). */
  function TokenOf(r: Http<string>): string {
    if r.Ok? then r.body else ""
  }

  /** The error `getToken` reports. A request never yields both a token and an
      error, every error carries the "Token error: " prefix, and the one way
      to get neither is an ok response without a token: the case in which
      `joinChannel` goes on to join with no token and no error. */
  function TokenError(r: Http<string>): (e: Option<string>)
    ensures e.Some? ==> TokenOf(r) == ""
    ensures e.Some? ==> |e.value| >= |TokenErrorPrefix| && e.value[..|TokenErrorPrefix|] == TokenErrorPrefix
    ensures e.None? && TokenOf(r) == "" <==> r == Ok("")
  {
    match r
    case Threw(m) => Some(TokenErrorPrefix + m)
    case NotOk => Some(TokenErrorPrefix + TokenNotOkText)
    case Ok(_) => None
  }

  /** `data.streams || []` of a successful directory fetch. */
  function StreamsOrEmpty(streams: Option<seq<Stream>>): seq<Stream> {
    if streams.Some? then streams.value else []
  }

  /** The stream id the lookup by channel yields: the first record's, when the
      response is ok and lists at least one stream. */
  function FirstStreamId(r: Http<Option<seq<Stream>>>): Option<string> {
    if r.Ok? && r.body.Some? && |r.body.value| > 0 then Some(r.body.value[0].id) else None
  }

  // ----- the roster of remote video publishers -----

  predicate UniqueUids(users: seq<RemoteUser>) {
    forall i, j :: 0 <= i < j < |users| ==> users[i].uid != users[j].uid
  }

  /** `users.filter(u => u.uid !== uid)`. */
  function WithoutUid(users: seq<RemoteUser>, uid: string): (r: seq<RemoteUser>)
    ensures forall i :: 0 <= i < |r| ==> r[i].uid != uid && r[i] in users
    ensures forall i :: 0 <= i < |users| && users[i].uid != uid ==> users[i] in r
  {
    Filter(users, (u: RemoteUser) => u.uid != uid)
  }

  /** The roster after `user-published`: a video publisher replaces any entry
      with its uid and goes to the end; audio leaves the roster alone. */
  function AfterPublished(users: seq<RemoteUser>, user: RemoteUser, media: MediaKind): (r: seq<RemoteUser>)
    ensures media == Audio ==> r == users
    ensures media == Video ==> |r| > 0 && r[|r| - 1] == user
    ensures media == Video ==> forall i :: 0 <= i < |r| - 1 ==> r[i].uid != user.uid && r[i] in users
    ensures media == Video ==> forall i :: 0 <= i < |users| && users[i].uid != user.uid ==> users[i] in r
  {
    if media == Video then WithoutUid(users, user.uid) + [user] else users
  }

  /** The roster after `user-unpublished`: only a video unpublish removes. */
  function AfterUnpublished(users: seq<RemoteUser>, uid: string, media: MediaKind): (r: seq<RemoteUser>)
    ensures media == Audio ==> r == users
    ensures media == Video ==> r == WithoutUid(users, uid)
    ensures media == Video ==> forall i :: 0 <= i < |r| ==> r[i].uid != uid && r[i] in users
    ensures media == Video ==> forall i :: 0 <= i < |users| && users[i].uid != uid ==> users[i] in r
  {
    if media == Video then WithoutUid(users, uid) else users
  }

  lemma {:induction false} WithoutUidKeepsUnique(users: seq<RemoteUser>, uid: string)
    requires UniqueUids(users)
    ensures UniqueUids(WithoutUid(users, uid))
  {
    if users != [] {
      var keep := (u: RemoteUser) => u.uid != uid;
      var tail := users[1..];
      assert UniqueUids(tail) by {
        forall i, j | 0 <= i < j < |tail| ensures tail[i].uid != tail[j].uid {
          assert tail[i] == users[i + 1] && tail[j] == users[j + 1];
        }
      }
      WithoutUidKeepsUnique(tail, uid);
      var rest := WithoutUid(tail, uid);
      assert Filter(users, keep) == (if keep(users[0]) then [users[0]] else []) + rest;
      forall k | 0 <= k < |rest| ensures rest[k].uid != users[0].uid {
        var m :| 0 <= m < |tail| && tail[m] == rest[k];
        assert tail[m] == users[m + 1];
      }
    }
  }

  /** The roster's uids stay unique under a publish. */
  lemma PublishedKeepsUnique(users: seq<RemoteUser>, user: RemoteUser, media: MediaKind)
    requires UniqueUids(users)
    ensures UniqueUids(AfterPublished(users, user, media))
  {
    if media == Video {
      WithoutUidKeepsUnique(users, user.uid);
    }
  }

  /** Publishing the same user again changes nothing. */
  lemma PublishIdempotent(users: seq<RemoteUser>, user: RemoteUser)
    ensures AfterPublished(AfterPublished(users, user, Video), user, Video) == AfterPublished(users, user, Video)
  {
    var keep := (u: RemoteUser) => u.uid != user.uid;
    var w := WithoutUid(users, user.uid);
    FilterConcat(w, [user], keep);
    assert Filter([user], keep) == [];
    FilterIdempotent(users, keep);
  }

  /** A user who publishes and then leaves leaves no trace: the roster is the
      one before, minus that uid. */
  lemma LeftAfterPublished(users: seq<RemoteUser>, user: RemoteUser)
    ensures WithoutUid(AfterPublished(users, user, Video), user.uid) == WithoutUid(users, user.uid)
  {
    var keep := (u: RemoteUser) => u.uid != user.uid;
    FilterConcat(WithoutUid(users, user.uid), [user], keep);
    assert Filter([user], keep) == [];
    FilterIdempotent(users, keep);
  }

  /** A `user-left` or video unpublish for a uid not on the roster leaves the
      roster exactly as it was. */
  lemma {:induction false} RemovingAbsentUidKeepsRoster(users: seq<RemoteUser>, uid: string)
    requires forall i :: 0 <= i < |users| ==> users[i].uid != uid
    ensures WithoutUid(users, uid) == users
  {
    FilterKeepsAll(users, (u: RemoteUser) => u.uid != uid);
  }

  /** Removing a uid keeps the other entries in order: it acts separately on
      the two parts of a split roster. */
  lemma RemovalKeepsOrder(front: seq<RemoteUser>, back: seq<RemoteUser>, uid: string)
    ensures WithoutUid(front + back, uid) == WithoutUid(front, uid) + WithoutUid(back, uid)
  {
    FilterConcat(front, back, (u: RemoteUser) => u.uid != uid);
  }

  /** The props the chat panel is rendered with. */
  datatype ChatProps = ChatProps(streamId: string, userId: string, userName: string)

  /** Every field of the application, for stating what an operation leaves unchanged. */
  datatype Screen = Screen(
    clientReady: bool, joinState: bool, remoteUsers: seq<RemoteUser>, channelName: string,
    token: string, errorMsg: string, liveStreams: seq<Stream>, loading: bool,
    currentStreamId: string, userId: string, requests: seq<Request>, sdkCalls: seq<SdkCall>)

  // ----- the join procedures, as functions of the state before -----

  /** The media half shared by both joins: set the audience role, join the
      channel with the token, and on success mark the viewer joined. A
      rejection stops the sequence and becomes the error message. */
  function AfterEnter(s: Screen, channel: string, t: string, role: Step, join: Step): (r: Screen)
    ensures r == s.(sdkCalls := r.sdkCalls, errorMsg := r.errorMsg, joinState := r.joinState)
    ensures r.joinState == (s.joinState || (role.Resolved? && join.Resolved?))
    ensures r.errorMsg == if role.Resolved? && join.Resolved? then s.errorMsg else JoinErrorText(if role.Rejected? then role.message else join.message)
  {
    var roled := s.(sdkCalls := s.sdkCalls + [SetClientRole(AudienceRole)]);
    if role.Rejected? then roled.(errorMsg := JoinErrorText(role.message))
    else
      var joining := roled.(sdkCalls := roled.sdkCalls + [Join(AppId, channel, t)]);
      if join.Rejected? then joining.(errorMsg := JoinErrorText(join.message))
      else joining.(joinState := true)
  }

  /** The state `joinStream(stream)` leaves, given the outcomes of its awaited calls. */
  function AfterJoinStream(s: Screen, stream: Stream, tokenResponse: Http<string>, role: Step, join: Step): (r: Screen)
    ensures !s.clientReady ==> r == s
    ensures r.remoteUsers == s.remoteUsers && r.liveStreams == s.liveStreams
    ensures r.loading == s.loading && r.userId == s.userId && r.clientReady == s.clientReady
    ensures s.clientReady ==>
      (r.errorMsg == "" <==> TokenOf(tokenResponse) != "" && role.Resolved? && join.Resolved?)
    ensures r.joinState <==>
      s.joinState || (s.clientReady && TokenOf(tokenResponse) != "" && role.Resolved? && join.Resolved?)
    ensures s.clientReady && TokenOf(tokenResponse) == "" ==>
      r.errorMsg == NoTokenError && r.token == s.token && r.channelName == s.channelName
      && r.currentStreamId == s.currentStreamId && r.sdkCalls == s.sdkCalls
    ensures s.clientReady && TokenOf(tokenResponse) != "" ==>
      r.token == TokenOf(tokenResponse) && r.channelName == stream.channelId && r.currentStreamId == stream.id
    ensures (s.clientReady && TokenOf(tokenResponse) != "" && !(role.Resolved? && join.Resolved?)) ==>
      r.errorMsg == JoinErrorText(if role.Rejected? then role.message else join.message)
    ensures s.clientReady ==>
      r.requests == s.requests + [TokenRequest(stream.channelId, AudienceRole)]
        + (if TokenOf(tokenResponse) != "" && role.Resolved? && join.Resolved? && stream.id != ""
           then [ViewCountPut(stream.id)] else [])
  {
    if !s.clientReady then s
    else
      var t := TokenOf(tokenResponse);
      var asked := s.requests + [TokenRequest(stream.channelId, AudienceRole)];
      if t == "" then s.(requests := asked, errorMsg := NoTokenError)
      else AfterWatch(s.(requests := asked, errorMsg := ""), stream, t, role, join)
  }

  /** The directory join once a token is in hand: record the token, channel and
      stream id, enter the channel, and on success send the view-count update. */
  function AfterWatch(s: Screen, stream: Stream, t: string, role: Step, join: Step): Screen {
    var adopted := s.(token := t, channelName := stream.channelId, currentStreamId := stream.id);
    var entered := AfterEnter(adopted, stream.channelId, t, role, join);
    if role.Resolved? && join.Resolved? && stream.id != ""
    then entered.(requests := entered.requests + [ViewCountPut(stream.id)])
    else entered
  }

  /** The manual join's token step: keep an entered token, otherwise fetch one
      for the channel and store whatever comes back. */
  function AfterEnsureToken(s: Screen, tokenResponse: Http<string>): Screen {
    if s.token != "" then s
    else s.(token := TokenOf(tokenResponse),
            requests := s.requests + [TokenRequest(s.channelName, AudienceRole)],
            errorMsg := if TokenError(tokenResponse).Some? then TokenError(tokenResponse).value else s.errorMsg)
  }

  /** The state `joinChannel()` leaves, given the outcomes of its awaited calls. */
  function AfterJoinChannel(s: Screen, tokenResponse: Http<string>, role: Step, join: Step, lookup: Http<Option<seq<Stream>>>): (r: Screen)
    ensures !s.clientReady || s.channelName == "" ==> r == s
    ensures r.remoteUsers == s.remoteUsers && r.liveStreams == s.liveStreams && r.channelName == s.channelName
    ensures r.loading == s.loading && r.userId == s.userId && r.clientReady == s.clientReady
    ensures s.token != "" ==> r.token == s.token
    ensures s.clientReady && s.channelName != "" ==>
      |r.requests| >= |s.requests| && r.requests[..|s.requests|] == s.requests
      && (s.token == "" <==>
          |r.requests| > |s.requests| && r.requests[|s.requests|] == TokenRequest(s.channelName, AudienceRole))
    ensures r.joinState <==> s.joinState || (s.clientReady && s.channelName != "" && role.Resolved? && join.Resolved?)
    ensures s.clientReady && s.channelName != "" && s.token == "" ==> r.token == TokenOf(tokenResponse)
    ensures s.clientReady && s.channelName != "" ==>
      (r.errorMsg == "" <==> role.Resolved? && join.Resolved? && (s.token != "" || TokenError(tokenResponse).None?))
    ensures s.clientReady && s.channelName != "" && role.Rejected? ==> r.errorMsg == JoinErrorText(role.message)
    ensures s.clientReady && s.channelName != "" && role.Resolved? && join.Rejected? ==>
      r.errorMsg == JoinErrorText(join.message)
    ensures (s.clientReady && s.channelName != "" && s.token == "" && TokenError(tokenResponse).Some?
             && role.Resolved? && join.Resolved?) ==> r.joinState && r.errorMsg == TokenError(tokenResponse).value
    ensures (s.clientReady && s.channelName != "" && role.Resolved? && join.Resolved?
             && lookup.Ok? && lookup.body.Some? && |lookup.body.value| > 0) ==> r.currentStreamId == lookup.body.value[0].id
    ensures r.currentStreamId != s.currentStreamId ==>
      role.Resolved? && join.Resolved? && lookup.Ok? && lookup.body.Some? && |lookup.body.value| > 0
      && r.currentStreamId == lookup.body.value[0].id
  {
    JoinChannelSteps(s, tokenResponse, role, join, lookup)
  }

  /** The steps of `joinChannel()` in order: clear the error, make sure of a
      token, enter the channel, and look the stream up after a successful join. */
  function JoinChannelSteps(s: Screen, tokenResponse: Http<string>, role: Step, join: Step, lookup: Http<Option<seq<Stream>>>): Screen {
    if !s.clientReady || s.channelName == "" then s
    else
      var fetched := AfterEnsureToken(s.(errorMsg := ""), tokenResponse);
      var entered := AfterEnter(fetched, s.channelName, fetched.token, role, join);
      if role.Resolved? && join.Resolved? then AfterLookup(entered, lookup) else entered
  }

  /** The stream lookup after a manual join: the first record's id, when there
      is one, becomes the current stream. */
  function AfterLookup(s: Screen, lookup: Http<Option<seq<Stream>>>): Screen {
    var found := FirstStreamId(lookup);
    s.(requests := s.requests + [StreamsByChannel(s.channelName)],
       currentStreamId := if found.Some? then found.value else s.currentStreamId)
  }

  /** The chat panel, with its props, as rendered from the state `s`. */
  function Panel(s: Screen): Option<ChatProps> {
    if s.joinState && s.currentStreamId != "" then
      Some(ChatProps(s.currentStreamId, s.userId, if s.userId != "" then TestUserName else GuestName))
    else None
  }

  /** A successful directory join of a stream with an id shows the chat panel
      for that stream. */
  lemma JoinStreamShowsPanel(s: Screen, stream: Stream, tokenResponse: Http<string>)
    requires s.clientReady && TokenOf(tokenResponse) != "" && stream.id != ""
    ensures Panel(AfterJoinStream(s, stream, tokenResponse, Resolved, Resolved))
      == Some(ChatProps(stream.id, s.userId, if s.userId != "" then TestUserName else GuestName))
  {
  }

  /** A directory join that does not get through leaves a hidden panel hidden,
      although the stream id may already have been recorded. */
  lemma FailedJoinStreamHidesPanel(s: Screen, stream: Stream, tokenResponse: Http<string>, role: Step, join: Step)
    requires !s.joinState && !(s.clientReady && TokenOf(tokenResponse) != "" && role.Resolved? && join.Resolved?)
    ensures Panel(AfterJoinStream(s, stream, tokenResponse, role, join)).None?
  {
  }

  /** From a hidden panel, a manual join shows the panel exactly when the join
      gets through and there is a stream id afterwards: the first one the lookup
      lists, or, when it lists none, whatever id the state already held. */
  lemma JoinChannelPanel(s: Screen, tokenResponse: Http<string>, role: Step, join: Step, lookup: Http<Option<seq<Stream>>>)
    requires !s.joinState
    ensures Panel(AfterJoinChannel(s, tokenResponse, role, join, lookup)).Some? <==>
      s.clientReady && s.channelName != "" && role.Resolved? && join.Resolved?
      && (if FirstStreamId(lookup).Some? then FirstStreamId(lookup).value != "" else s.currentStreamId != "")
  {
  }

  /** A directory join that records a stream id but is then rejected leaves the
      id behind. A later manual join into another channel whose lookup lists no
      stream reuses the stored token and opens the chat panel for the old stream. */
  lemma StaleStreamIdOpensPanel(s: Screen, stream: Stream, tokenResponse: Http<string>, role: Step, join: Step,
                                other: string, retry: Http<string>, lookup: Http<Option<seq<Stream>>>)
    requires s.clientReady && !s.joinState && TokenOf(tokenResponse) != "" && stream.id != ""
    requires !(role.Resolved? && join.Resolved?)
    requires other != "" && FirstStreamId(lookup).None?
    ensures var failed := AfterJoinStream(s, stream, tokenResponse, role, join);
      var typed := failed.(channelName := other);
      var r := AfterJoinChannel(typed, retry, Resolved, Resolved, lookup);
      !failed.joinState && Panel(failed).None?
      && r.requests[..|typed.requests|] == typed.requests
      && |r.requests| > |typed.requests| && r.requests[|typed.requests|] != TokenRequest(other, AudienceRole)
      && Panel(r) == Some(ChatProps(stream.id, s.userId, if s.userId != "" then TestUserName else GuestName))
  {
  }

  class Viewer {
    /** Whether the media client has been created. */
    var clientReady: bool
    var joinState: bool
    var remoteUsers: seq<RemoteUser>
    var channelName: string
    var token: string
    var errorMsg: string
    var liveStreams: seq<Stream>
    var loading: bool
    var currentStreamId: string
    var userId: string
    var requests: seq<Request>
    var sdkCalls: seq<SdkCall>

    ghost predicate Valid()
      reads this
    {
      UniqueUids(remoteUsers)
    }

    function Snapshot(): Screen
      reads this
    {
      Screen(clientReady, joinState, remoteUsers, channelName, token, errorMsg, liveStreams,
             loading, currentStreamId, userId, requests, sdkCalls)
    }

    /** The first render: no chat panel. */
    constructor ()
      ensures Valid() && Panel(Snapshot()).None?
      ensures Snapshot() == Screen(false, false, [], "", "", "", [], false, "", "", [], [])
    {
      clientReady, joinState, remoteUsers, channelName := false, false, [], "";
      token, errorMsg, liveStreams, loading := "", "", [], false;
      currentStreamId, userId, requests, sdkCalls := "", "", [], [];
    }

    /** The mount effect's `init`: the media client exists from now on, with
        the three roster handlers below installed on it. */
    method CreateClient()
      requires Valid()
      modifies this
      ensures Valid()
      ensures Snapshot() == old(Snapshot()).(clientReady := true)
    {
      clientReady := true;
    }

    /** `user-published`: after the subscription resolves, a video publisher
        replaces its roster entry at the end. A rejected subscription ends the
        handler before the roster is touched. */
    method OnUserPublished(user: RemoteUser, media: MediaKind, subscription: Step)
      requires Valid() && clientReady
      modifies this
      ensures Valid()
      ensures Snapshot() == old(Snapshot()).(
        sdkCalls := old(sdkCalls) + [Subscribe(user.uid, media)],
        remoteUsers := if subscription.Resolved? then AfterPublished(old(remoteUsers), user, media) else old(remoteUsers))
    {
      sdkCalls := sdkCalls + [Subscribe(user.uid, media)];
      if subscription.Rejected? {
        return;
      }
      PublishedKeepsUnique(remoteUsers, user, media);
      remoteUsers := AfterPublished(remoteUsers, user, media);
    }

    /** `user-unpublished`. */
    method OnUserUnpublished(user: RemoteUser, media: MediaKind)
      requires Valid() && clientReady
      modifies this
      ensures Valid()
      ensures Snapshot() == old(Snapshot()).(remoteUsers := AfterUnpublished(old(remoteUsers), user.uid, media))
    {
      WithoutUidKeepsUnique(remoteUsers, user.uid);
      remoteUsers := AfterUnpublished(remoteUsers, user.uid, media);
    }

    /** `user-left`. */
    method OnUserLeft(user: RemoteUser)
      requires Valid() && clientReady
      modifies this
      ensures Valid()
      ensures forall i :: 0 <= i < |remoteUsers| ==> remoteUsers[i].uid != user.uid
      ensures Snapshot() == old(Snapshot()).(remoteUsers := WithoutUid(old(remoteUsers), user.uid))
    {
      WithoutUidKeepsUnique(remoteUsers, user.uid);
      remoteUsers := WithoutUid(remoteUsers, user.uid);
    }

    /** `fetchLiveStreams`: always ends with `loading` false; a failure keeps
        the list and sets the error. */
    method FetchLiveStreams(response: Http<Option<seq<Stream>>>)
      requires Valid()
      modifies this
      ensures Valid() && !loading
      ensures response.Ok? ==> Snapshot() == old(Snapshot()).(
        requests := old(requests) + [ListLiveStreams], liveStreams := StreamsOrEmpty(response.body),
        loading := false)
      ensures !response.Ok? ==> Snapshot() == old(Snapshot()).(
        requests := old(requests) + [ListLiveStreams], errorMsg := StreamsFetchError, loading := false)
    {
      loading := true;
      requests := requests + [ListLiveStreams];
      if response.Ok? {
        liveStreams := StreamsOrEmpty(response.body);
        loading := false;
      } else {
        errorMsg := StreamsFetchError;
        loading := false;
      }
    }

    /** `getToken(channelId)`: asks the backend for an audience token; a
        failure is reported in `errorMsg` and yields no token. */
    method GetToken(channelId: string, response: Http<string>) returns (t: string)
      requires Valid()
      modifies this
      ensures Valid() && t == TokenOf(response)
      ensures Snapshot() == old(Snapshot()).(
        requests := old(requests) + [TokenRequest(channelId, AudienceRole)],
        errorMsg := if TokenError(response).Some? then TokenError(response).value else old(errorMsg))
    {
      requests := requests + [TokenRequest(channelId, AudienceRole)];
      var e := TokenError(response);
      if e.Some? {
        errorMsg := e.value;
      }
      t := TokenOf(response);
    }

    /** The role-and-join sequence both joins run; `joined` tells whether it
        got through. */
    method Enter(channel: string, t: string, role: Step, join: Step) returns (joined: bool)
      requires Valid()
      modifies this
      ensures Valid() && joined == (role.Resolved? && join.Resolved?)
      ensures Snapshot() == AfterEnter(old(Snapshot()), channel, t, role, join)
    {
      joined := false;
      sdkCalls := sdkCalls + [SetClientRole(AudienceRole)];
      if role.Rejected? {
        errorMsg := JoinErrorText(role.message);
        return;
      }
      sdkCalls := sdkCalls + [Join(AppId, channel, t)];
      if join.Rejected? {
        errorMsg := JoinErrorText(join.message);
        return;
      }
      joinState := true;
      joined := true;
    }

    /** `joinStream(stream)` from the directory. Without a client nothing
        happens. Otherwise the error is cleared; without a token the join stops
        with an error; with one, the channel and stream id are recorded before
        the media join, and only a successful join sends the view-count update,
        whose outcome is ignored. */
    method JoinStream(stream: Stream, tokenResponse: Http<string>, role: Step, join: Step)
      requires Valid()
      modifies this
      ensures Valid()
      ensures Snapshot() == AfterJoinStream(old(Snapshot()), stream, tokenResponse, role, join)
    {
      if !clientReady {
        return;
      }
      errorMsg := "";
      var streamToken := GetToken(stream.channelId, tokenResponse);
      if streamToken == "" {
        errorMsg := NoTokenError;
        return;
      }
      Watch(stream, streamToken, role, join);
    }

    /** The part of `joinStream` after the token arrived. */
    method Watch(stream: Stream, t: string, role: Step, join: Step)
      requires Valid()
      modifies this
      ensures Valid()
      ensures Snapshot() == AfterWatch(old(Snapshot()), stream, t, role, join)
    {
      token := t;
      channelName := stream.channelId;
      currentStreamId := stream.id;
      var joined := Enter(stream.channelId, t, role, join);
      if joined && stream.id != "" {
        requests := requests + [ViewCountPut(stream.id)];
      }
    }

    /** The token step of `joinChannel()`. */
    method EnsureToken(tokenResponse: Http<string>) returns (t: string)
      requires Valid()
      modifies this
      ensures Valid() && t == token
      ensures Snapshot() == AfterEnsureToken(old(Snapshot()), tokenResponse)
    {
      t := token;
      if t == "" {
        t := GetToken(channelName, tokenResponse);
        token := t;
      }
    }

    /** `joinChannel()`, the manual join. Without a client or a channel name
        nothing happens. A token is fetched only when none is entered, and the
        fetched value (possibly none) is stored. After a successful join the
        stream id is looked up by channel; a non-empty result sets
        `currentStreamId` to its first record's id, anything else is ignored. */
    method JoinChannel(tokenResponse: Http<string>, role: Step, join: Step, lookup: Http<Option<seq<Stream>>>)
      requires Valid()
      modifies this
      ensures Valid()
      ensures Snapshot() == AfterJoinChannel(old(Snapshot()), tokenResponse, role, join, lookup)
    {
      if !clientReady || channelName == "" {
        return;
      }
      errorMsg := "";
      var streamToken := EnsureToken(tokenResponse);
      var joined := Enter(channelName, streamToken, role, join);
      if joined {
        LookUpStream(lookup);
      }
      assert Snapshot() == JoinChannelSteps(old(Snapshot()), tokenResponse, role, join, lookup);
    }

    /** The lookup by channel that follows a successful manual join. */
    method LookUpStream(lookup: Http<Option<seq<Stream>>>)
      requires Valid()
      modifies this
      ensures Valid()
      ensures Snapshot() == AfterLookup(old(Snapshot()), lookup)
    {
      requests := requests + [StreamsByChannel(channelName)];
      var found := FirstStreamId(lookup);
      if found.Some? {
        currentStreamId := found.value;
      }
    }

    /** `leaveChannel()`: once the SDK leave resolves, the roster is emptied,
        `joinState` is false and the stream id is cleared. A rejected leave
        changes nothing else. */
    method LeaveChannel(leave: Step)
      requires Valid()
      modifies this
      ensures Valid()
      ensures !old(clientReady) ==> Snapshot() == old(Snapshot())
      ensures old(clientReady) && leave.Rejected? ==> Snapshot() == old(Snapshot()).(sdkCalls := old(sdkCalls) + [Leave])
      ensures old(clientReady) && leave.Resolved? ==> Panel(Snapshot()).None? && Snapshot() == old(Snapshot()).(
        sdkCalls := old(sdkCalls) + [Leave], remoteUsers := [], joinState := false, currentStreamId := "")
    {
      if !clientReady {
        return;
      }
      sdkCalls := sdkCalls + [Leave];
      if leave.Rejected? {
        return;
      }
      remoteUsers := [];
      joinState := false;
      currentStreamId := "";
    }

    /** Typing in the channel-name box of the manual join; the box is
        disabled while joined. */
    method TypeChannelName(text: string)
      requires Valid()
      modifies this
      ensures Valid()
      ensures Snapshot() == if old(joinState) then old(Snapshot()) else old(Snapshot()).(channelName := text)
    {
      if !joinState {
        channelName := text;
      }
    }

    /** Typing in the optional token box of the manual join; the box is
        disabled while joined. */
    method TypeToken(text: string)
      requires Valid()
      modifies this
      ensures Valid()
      ensures Snapshot() == if old(joinState) then old(Snapshot()) else old(Snapshot()).(token := text)
    {
      if !joinState {
        token := text;
      }
    }

    /** The test login button. */
    method SimulateLogin()
      requires Valid()
      modifies this
      ensures Valid()
      ensures Snapshot() == old(Snapshot()).(userId := TestUserId)
    {
      userId := TestUserId;
    }

    /** The test logout button. */
    method SimulateLogout()
      requires Valid()
      modifies this
      ensures Valid()
      ensures Snapshot() == old(Snapshot()).(userId := "")
    {
      userId := "";
    }

    /** Rendering the chat panel: when it is shown, the chat view it mounts
        always gets a stream id, so its effect always sets up a socket. */
    method MountChatPanel() returns (chat: LiveChat.ChatView?)
      ensures (chat != null) == Panel(Snapshot()).Some?
      ensures chat != null ==> fresh(chat) && chat.Valid() && chat.listening
      ensures chat != null ==> chat.streamId == currentStreamId && chat.userId == userId
    {
      var props := Panel(Snapshot());
      if props.None? {
        return null;
      }
      chat := new LiveChat.ChatView(props.value.streamId, props.value.userId);
      chat.Setup();
    }
  }
}
