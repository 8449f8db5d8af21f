/** One app's sockets, channels and users as a value, and the effect of every client request on it
    (internal/websocket.go, internal/channels.go, internal/namespace.go, internal/adaptersLocal.go).
    The classes in Namespace.dfy and WebSocket.dfy are proved against these functions. */
module Membership {
  import opened Wrappers
  import opened Names

  datatype Member = Member(userId: UserId, info: string)

  datatype ErrorCode =
    | UnauthorizedConnection | OverCapacity | GenericReconnect | ClientEventRejected
    | InvalidPayload | InvalidChannel | SubscriptionAccessDenied | CloseExpected

  /** What a client receives. */
  datatype Message =
    | SubscriptionSucceeded(channel: ChannelName, roster: Option<set<UserId>>)
    | MemberAdded(channel: ChannelName, member: Member)
    | MemberRemoved(channel: ChannelName, user: UserId)
    | CachedEvent(data: string)
    | CacheMiss
    | SubscriptionError(channel: ChannelName, reason: string, code: ErrorCode)
    | ErrorEvent(code: ErrorCode)
    | SigninSuccess
    | Published(data: string)

  /** A call of the queue manager. */
  datatype Hook =
    | ChannelOccupied(channel: ChannelName)
    | ChannelVacated(channel: ChannelName)
    | UserAdded(channel: ChannelName, user: UserId)
    | UserRemoved(channel: ChannelName, user: UserId)
    | CacheMissed(channel: ChannelName)
    | ClientEvent(channel: ChannelName, event: string, data: string, socket: SocketId, user: UserId)

  datatype Socket = Socket(
    subscribed: set<ChannelName>,
    presence: map<ChannelName, Member>,
    userId: UserId,
    awaitingAuth: bool,
    inbox: seq<Message>)

  datatype State = State(
    channels: map<ChannelName, seq<SocketId>>,
    sockets: map<SocketId, Socket>,
    users: map<UserId, seq<SocketId>>,
    emitted: seq<Hook>)

  datatype Config = Config(maxNameLength: int, maxMembers: int, maxMemberKb: int, requireAuthorization: bool)

  const EMPTY: State := State(map[], map[], map[], [])

  // ---------- lists of socket ids ----------

  /** The filter loop that rebuilds a list without one socket id. */
  function Without(ids: seq<SocketId>, id: SocketId): (r: seq<SocketId>)
    ensures forall x :: x in r <==> x in ids && x != id
    ensures |r| <= |ids|
    ensures id !in ids ==> r == ids
  {
    if ids == [] then []
    else
      var init, last := ids[..|ids| - 1], ids[|ids| - 1];
      var rest := Without(init, id);
      assert ids == init + [last];
      if last == id then rest else rest + [last]
  }

  lemma {:induction false} WithoutKeepsNoRepeats(ids: seq<SocketId>, id: SocketId)
    requires NoRepeats(ids)
    ensures NoRepeats(Without(ids, id))
  {
    if ids != [] {
      var init, last := ids[..|ids| - 1], ids[|ids| - 1];
      assert NoRepeats(init) && last !in init;
      WithoutKeepsNoRepeats(init, id);
    }
  }

  predicate NoRepeats<T(==)>(ids: seq<T>) {
    forall i, j | 0 <= i < j < |ids| :: ids[i] != ids[j]
  }

  function Listed(lists: map<string, seq<SocketId>>, key: string): seq<SocketId> {
    if key in lists then lists[key] else []
  }

  function Append(lists: map<string, seq<SocketId>>, key: string, id: SocketId): map<string, seq<SocketId>> {
    lists[key := Listed(lists, key) + [id]]
  }

  function Drop(lists: map<string, seq<SocketId>>, key: string, id: SocketId): map<string, seq<SocketId>> {
    if key !in lists then lists
    else
      var rest := Without(lists[key], id);
      if rest == [] then lists - {key} else lists[key := rest]
  }

  function DropEverywhere(lists: map<string, seq<SocketId>>, id: SocketId): map<string, seq<SocketId>> {
    map key | key in lists && Without(lists[key], id) != [] :: Without(lists[key], id)
  }

  /** CompactMaps on one of the two maps of lists. */
  function NonEmpty(lists: map<string, seq<SocketId>>): map<string, seq<SocketId>> {
    map key | key in lists && lists[key] != [] :: lists[key]
  }

  // ---------- queries ----------

  /** GetChannelSockets: the registered sockets listed under a channel, each once. */
  function ChannelSockets(s: State, c: ChannelName): set<SocketId> {
    set id | id in Listed(s.channels, c) && id in s.sockets
  }

  /** The keys of GetChannelMembers. */
  function MemberIds(s: State, c: ChannelName): set<UserId> {
    set id | id in ChannelSockets(s, c) && c in s.sockets[id].presence :: s.sockets[id].presence[c].userId
  }

  /** GetUserSockets, as ids in list order. */
  function LiveOnly(ids: seq<SocketId>, live: set<SocketId>): seq<SocketId> {
    if ids == [] then []
    else
      var rest := LiveOnly(ids[..|ids| - 1], live);
      if ids[|ids| - 1] in live then rest + [ids[|ids| - 1]] else rest
  }

  function UserSockets(s: State, user: UserId): seq<SocketId> {
    LiveOnly(Listed(s.users, user), s.sockets.Keys)
  }

  // ---------- sending ----------

  function Deliver(s: State, id: SocketId, m: Message): (r: State)
    ensures r.sockets.Keys == s.sockets.Keys
  {
    if id in s.sockets then s.(sockets := s.sockets[id := s.sockets[id].(inbox := s.sockets[id].inbox + [m])]) else s
  }

  function DeliverAll(s: State, ids: seq<SocketId>, m: Message): (r: State)
    ensures r.sockets.Keys == s.sockets.Keys
  {
    if ids == [] then s else Deliver(DeliverAll(s, ids[..|ids| - 1], m), ids[|ids| - 1], m)
  }

  /** The sockets an ordinary send reaches on this node. */
  function Recipients(s: State, c: ChannelName, except: SocketId): set<SocketId> {
    ChannelSockets(s, c) - (if except != "" then {except} else {})
  }

  function DeliverEach(s: State, ids: set<SocketId>, m: Message): State {
    s.(sockets := map id | id in s.sockets ::
      if id in ids then s.sockets[id].(inbox := s.sockets[id].inbox + [m]) else s.sockets[id])
  }

  /** LocalAdapter.Send: a user channel goes to the user's sockets and ignores the exclusion. */
  function LocalSend(s: State, c: ChannelName, m: Message, except: SocketId): State {
    if IsUserChannel(c) then DeliverAll(s, UserSockets(s, c[|USER_PREFIX|..]), m)
    else DeliverEach(s, Recipients(s, c, except), m)
  }

  function Emit(s: State, h: Hook): State {
    s.(emitted := s.emitted + [h])
  }

  // ---------- subscribing ----------

  /** A parsed subscribe request; `authOk` says whether the signature checks out, `dataLength` is
      len(channel_data), `cached` is what the cache manager holds for the channel, `closing` whether the server is
      shutting down. */
  datatype Subscription = Subscription(
    channel: ChannelName, authOk: bool, member: Member, dataLength: nat, cached: Option<string>, closing: bool)

  datatype Outcome = Outcome(state: State, error: Option<ErrorCode>)

  datatype Verdict = Joined | Refused(reason: string, code: ErrorCode)

  predicate OverLimit(cfg: Config, memberCount: int) {
    cfg.maxMembers > 0 && memberCount + 1 > cfg.maxMembers
  }

  /** The checks of Channel.Join before the socket is added, for a member count reported by the adapter. */
  function AdmissionAt(cfg: Config, memberCount: int, sub: Subscription): Verdict {
    var ch := CreateChannel(sub.channel);
    if ch.requiresAuth && !sub.authOk then Refused("AuthError", SubscriptionAccessDenied)
    else if ch.kind == Presence && OverLimit(cfg, memberCount) then Refused("LimitReached", OverCapacity)
    else if ch.kind == Presence && sub.dataLength / 1024 > cfg.maxMemberKb
    then Refused("LimitReached", ClientEventRejected)
    else Joined
  }

  /** On a single node the adapter counts the node's own members. */
  function Admission(cfg: Config, s: State, sub: Subscription): Verdict {
    AdmissionAt(cfg, |MemberIds(s, sub.channel)|, sub)
  }

  predicate IsOwnUserChannel(sock: Socket, c: ChannelName) {
    sock.userId != "" && c == USER_PREFIX + sock.userId
  }

  /** The request gets as far as adding the socket to the channel. */
  predicate Admitted(cfg: Config, s: State, id: SocketId, sub: Subscription)
    requires id in s.sockets
  {
    && !sub.closing && !IsOwnUserChannel(s.sockets[id], sub.channel)
    && ValidName(sub.channel, cfg.maxNameLength) && Admission(cfg, s, sub).Joined?
  }

  function SubscribeAt(cfg: Config, s: State, id: SocketId, sub: Subscription, memberCount: int): Outcome
    requires id in s.sockets
  {
    if sub.closing then
      Outcome(s, Some(GenericReconnect))
    else if IsOwnUserChannel(s.sockets[id], sub.channel) then
      Outcome(Deliver(s, id, SubscriptionSucceeded(sub.channel, None)), None)
    else if !ValidName(sub.channel, cfg.maxNameLength) then
      Outcome(Deliver(s, id, ErrorEvent(UnauthorizedConnection)), Some(InvalidChannel))
    else
      match AdmissionAt(cfg, memberCount, sub)
      case Joined => JoinChannel(s, id, sub)
      case Refused(reason, code) => Refuse(s, id, sub.channel, reason, code)
  }

  function Subscribe(cfg: Config, s: State, id: SocketId, sub: Subscription): Outcome
    requires id in s.sockets
  {
    SubscribeAt(cfg, s, id, sub, |MemberIds(s, sub.channel)|)
  }

  function Refuse(s: State, id: SocketId, c: ChannelName, reason: string, code: ErrorCode): Outcome {
    var denied := code == SubscriptionAccessDenied;
    var s1 := Deliver(s, id, SubscriptionError(c, reason, code));
    var s2 := Deliver(s1, id, SubscriptionError(c, if denied then "AuthError" else "Unknown", code));
    Outcome(s2, Some(if denied then SubscriptionAccessDenied else GenericReconnect))
  }

  function ChannelConnections(s: State, c: ChannelName): int {
    if CreateChannel(c).kind == Presence then |ChannelSockets(s, c)| else |Listed(s.channels, c)|
  }

  /** Bookkeeping on the socket: the subscription, and the identity taken from a presence join. */
  function Track(sock: Socket, sub: Subscription): Socket {
    var ch := CreateChannel(sub.channel);
    var needsAuth := ch.requiresAuth && sock.awaitingAuth;
    var takesId := needsAuth && sock.userId == "" && ch.kind == Presence && sub.member.userId != "";
    sock.(subscribed := sock.subscribed + {sub.channel},
          userId := if takesId then sub.member.userId else sock.userId,
          awaitingAuth := sock.awaitingAuth && !needsAuth)
  }

  /** The part of a join shared by all channel kinds: list the socket, track it, announce a first connection. */
  function EnterChannel(s: State, id: SocketId, sub: Subscription): State
    requires id in s.sockets
  {
    var c := sub.channel;
    var s1 := s.(channels := Append(s.channels, c, id));
    var s2 := s1.(sockets := s1.sockets[id := Track(s1.sockets[id], sub)]);
    if ChannelConnections(s1, c) == 1 then Emit(s2, ChannelOccupied(c)) else s2
  }

  function JoinChannel(s: State, id: SocketId, sub: Subscription): Outcome
    requires id in s.sockets
  {
    var c := sub.channel;
    var s1 := EnterChannel(s, id, sub);
    if CreateChannel(c).kind != Presence then
      Outcome(SendCache(Deliver(s1, id, SubscriptionSucceeded(c, None)), id, sub), None)
    else if sub.member.userId == "" then
      Outcome(s1, Some(InvalidPayload))
    else
      var members := MemberIds(s1, c);
      var s2 := AnnounceMember(s1, id, sub, members);
      Outcome(SendCache(Deliver(s2, id, SubscriptionSucceeded(c, Some(members + {sub.member.userId}))), id, sub), None)
  }

  /** Store the presence data, and announce the user unless it was a member already. */
  function AnnounceMember(s: State, id: SocketId, sub: Subscription, members: set<UserId>): State
    requires id in s.sockets
  {
    var c, m := sub.channel, sub.member;
    var s1 := s.(sockets := s.sockets[id := s.sockets[id].(presence := s.sockets[id].presence[c := m])]);
    if m.userId in members then s1
    else LocalSend(Emit(s1, UserAdded(c, m.userId)), c, MemberAdded(c, m), id)
  }

  function SendCache(s: State, id: SocketId, sub: Subscription): State {
    if !CreateChannel(sub.channel).isCache then s
    else
      match sub.cached
      case Some(data) => Deliver(s, id, CachedEvent(data))
      case None => Emit(Deliver(s, id, CacheMiss), CacheMissed(sub.channel))
  }

  // ---------- leaving ----------

  /** unsubscribeFromChannel. */
  function LeaveChannel(s: State, id: SocketId, c: ChannelName): (r: State)
    requires id in s.sockets
    ensures r.sockets.Keys == s.sockets.Keys
  {
    var s1 := s.(channels := Drop(s.channels, c, id));
    if CreateChannel(c).kind != Presence then
      ForgetChannel(AnnounceVacancy(s1, c), id, c)
    else
      var s2 := s1.(sockets := s1.sockets[id := s1.sockets[id].(presence := s1.sockets[id].presence - {c})]);
      if c !in s.sockets[id].presence then s2
      else ForgetChannel(AnnounceVacancy(AnnounceDeparture(s2, id, c, s.sockets[id].presence[c].userId), c), id, c)
  }

  function AnnounceDeparture(s: State, id: SocketId, c: ChannelName, user: UserId): State {
    if user in MemberIds(s, c) then s
    else LocalSend(Emit(s, UserRemoved(c, user)), c, MemberRemoved(c, user), id)
  }

  function AnnounceVacancy(s: State, c: ChannelName): State {
    if ChannelSockets(s, c) == {} then Emit(s, ChannelVacated(c)) else s
  }

  function ForgetChannel(s: State, id: SocketId, c: ChannelName): State {
    if id in s.sockets
    then s.(sockets := s.sockets[id := s.sockets[id].(subscribed := s.sockets[id].subscribed - {c})])
    else s
  }

  function Unsubscribe(s: State, id: SocketId, c: ChannelName): Outcome
    requires id in s.sockets
  {
    if c !in s.sockets[id].subscribed then Outcome(s, Some(InvalidPayload)) else Outcome(LeaveChannel(s, id, c), None)
  }

  /** unsubscribeFromAllChannels visits the channels in the order of a map iteration, given here. */
  function LeaveAll(s: State, id: SocketId, order: seq<ChannelName>): (r: State)
    requires id in s.sockets
    ensures r.sockets.Keys == s.sockets.Keys
  {
    if order == [] then s
    else
      var s1 := LeaveAll(s, id, order[..|order| - 1]);
      LeaveChannel(s1, id, order[|order| - 1])
  }

  predicate Enumerates(order: seq<ChannelName>, all: set<ChannelName>) {
    NoRepeats(order) && (forall c | c in order :: c in all) && (forall c | c in all :: c in order)
  }

  /** Namespace.RemoveSocket. */
  function RemoveSocket(s: State, id: SocketId): State {
    if id !in s.sockets then s
    else
      var user := s.sockets[id].userId;
      s.(sockets := s.sockets - {id},
         users := if user != "" then Drop(s.users, user, id) else s.users,
         channels := DropEverywhere(s.channels, id))
  }

  function RemoveUser(s: State, id: SocketId, user: UserId): State {
    if user == "" then s else s.(users := Drop(s.users, user, id))
  }

  /** closeConnection. */
  function CloseSocket(s: State, id: SocketId, order: seq<ChannelName>): State
    requires id in s.sockets
  {
    var s1 := LeaveAll(s, id, order);
    RemoveUser(RemoveSocket(s1, id), id, s1.sockets[id].userId)
  }

  // ---------- users ----------

  function AddUser(s: State, id: SocketId, user: UserId): State {
    if user == "" then s
    else if user in s.users && id in s.users[user] then s
    else s.(users := Append(s.users, user, id))
  }

  function Signin(s: State, id: SocketId, tokenOk: bool, user: UserId, order: seq<ChannelName>): Outcome
    requires id in s.sockets
  {
    if user == "" then Outcome(s, Some(InvalidPayload))
    else if !tokenOk then Outcome(CloseSocket(s, id, order), Some(UnauthorizedConnection))
    else
      var s1 := s.(sockets := s.sockets[id := s.sockets[id].(userId := user)]);
      var s2 := Deliver(AddUser(s1, id, user), id, SigninSuccess);
      Outcome(s2.(sockets := s2.sockets[id := s2.sockets[id].(awaitingAuth := false)]), None)
  }

  function AddSocket(cfg: Config, s: State, id: SocketId): State {
    if id in s.sockets then s
    else s.(sockets := s.sockets[id := Socket({}, map[], "", cfg.requireAuthorization, [])])
  }

  function CompactMaps(s: State): State {
    s.(channels := NonEmpty(s.channels), users := NonEmpty(s.users))
  }

  // ---------- runs ----------

  datatype Request =
    | Connect(id: SocketId)
    | Subscribing(id: SocketId, sub: Subscription)
    | Unsubscribing(id: SocketId, channel: ChannelName)
    | SigningIn(id: SocketId, tokenOk: bool, user: UserId, order: seq<ChannelName>)
    | Closing(id: SocketId, order: seq<ChannelName>)
    | Compacting

  /** Requests come from registered sockets, and a closing socket leaves each of its channels once. */
  predicate Enabled(s: State, r: Request) {
    match r
    case Connect(_) => true
    case Subscribing(id, _) => id in s.sockets
    case Unsubscribing(id, _) => id in s.sockets
    case SigningIn(id, tokenOk, user, order) =>
      id in s.sockets && (!tokenOk && user != "" ==> Enumerates(order, s.sockets[id].subscribed))
    case Closing(id, order) => id in s.sockets && Enumerates(order, s.sockets[id].subscribed)
    case Compacting => true
  }

  /** The read loop answers a failed request with an error event. */
  function Answer(o: Outcome, id: SocketId): State {
    match o.error
    case Some(code) => Deliver(o.state, id, ErrorEvent(code))
    case None => o.state
  }

  function Step(cfg: Config, s: State, r: Request): State
    requires Enabled(s, r)
  {
    match r
    case Connect(id) => AddSocket(cfg, s, id)
    case Subscribing(id, sub) => Answer(Subscribe(cfg, s, id, sub), id)
    case Unsubscribing(id, c) => Answer(Unsubscribe(s, id, c), id)
    case SigningIn(id, tokenOk, user, order) => Answer(Signin(s, id, tokenOk, user, order), id)
    case Closing(id, order) => CloseSocket(s, id, order)
    case Compacting => CompactMaps(s)
  }

  /** What a step emitted. */
  function NewHooks(s: State, r: State): seq<Hook> {
    if |s.emitted| <= |r.emitted| then r.emitted[|s.emitted|..] else []
  }

  /** The state after a list of requests, the last one last; requests that are not enabled are skipped. */
  function Run(cfg: Config, rs: seq<Request>): State {
    if rs == [] then EMPTY
    else
      var s := Run(cfg, rs[..|rs| - 1]);
      if Enabled(s, rs[|rs| - 1]) then Step(cfg, s, rs[|rs| - 1]) else s
  }

  lemma RunNext(cfg: Config, rs: seq<Request>, r: Request)
    ensures Run(cfg, rs + [r]) == if Enabled(Run(cfg, rs), r) then Step(cfg, Run(cfg, rs), r) else Run(cfg, rs)
  {
    hide Step, Enabled;
    assert (rs + [r])[..|rs|] == rs;
  }
}
