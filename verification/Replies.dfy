/** What every socket is sent in answer to a request, message by message (internal/websocket.go). */
module Replies {
  import opened Wrappers
  import opened Names
  import opened Membership
  import opened MembershipCore
  import opened MembershipIndex
  import opened MembershipEvents
  import opened ClusterMembership
  import opened Admissions

  /** A socket was sent these messages, and nothing else happened. */
  function Told(s: State, id: SocketId, messages: seq<Message>): State
    requires id in s.sockets
  {
    s.(sockets := s.sockets[id := s.sockets[id].(inbox := s.sockets[id].inbox + messages)])
  }

  // ---------- turned away ----------

  /** What a subscriber is told that is not added to the channel, in the order of the checks; None if it is added. */
  function TurnedAway(cfg: Config, sock: Socket, sub: Subscription, memberCount: int): Option<seq<Message>> {
    var c := sub.channel;
    if sub.closing then
      Some([ErrorEvent(GenericReconnect)])
    else if sock.userId != "" && c == "#server-to-user-" + sock.userId then
      Some([SubscriptionSucceeded(c, None)])
    else if !ValidName(c, cfg.maxNameLength) then
      Some([ErrorEvent(UnauthorizedConnection), ErrorEvent(InvalidChannel)])
    else if ("private-" <= c || "presence-" <= c || "#server-to-user-" <= c) && !sub.authOk then
      Some([SubscriptionError(c, "AuthError", SubscriptionAccessDenied),
            SubscriptionError(c, "AuthError", SubscriptionAccessDenied), ErrorEvent(SubscriptionAccessDenied)])
    else if "presence-" <= c && 0 < cfg.maxMembers <= memberCount then
      Some([SubscriptionError(c, "LimitReached", OverCapacity),
            SubscriptionError(c, "Unknown", OverCapacity), ErrorEvent(GenericReconnect)])
    else if "presence-" <= c && sub.dataLength >= 1024 * (cfg.maxMemberKb + 1) then
      Some([SubscriptionError(c, "LimitReached", ClientEventRejected),
            SubscriptionError(c, "Unknown", ClientEventRejected), ErrorEvent(GenericReconnect)])
    else None
  }

  lemma ToldOneMore(s: State, id: SocketId, messages: seq<Message>, m: Message)
    requires id in s.sockets
    ensures Deliver(Told(s, id, messages), id, m) == Told(s, id, messages + [m])
  {
    assert s.sockets[id].inbox + messages + [m] == s.sockets[id].inbox + (messages + [m]);
  }

  lemma InTurn(s: State, id: SocketId, a: Message, b: Message, d: Message)
    requires id in s.sockets
    ensures Deliver(s, id, a) == Told(s, id, [a])
    ensures Deliver(Deliver(s, id, a), id, b) == Told(s, id, [a, b])
    ensures Deliver(Deliver(Deliver(s, id, a), id, b), id, d) == Told(s, id, [a, b, d])
  {
    assert Deliver(s, id, a) == Told(s, id, [a]);
    hide Deliver, Told;
    assert [a] + [b] == [a, b] && [a, b] + [d] == [a, b, d];
    ToldOneMore(s, id, [a], b);
    ToldOneMore(s, id, [a, b], d);
  }

  lemma RefusalTold(s: State, id: SocketId, c: ChannelName, reason: string, code: ErrorCode)
    requires id in s.sockets
    ensures var denied := code == SubscriptionAccessDenied;
      Answer(Refuse(s, id, c, reason, code), id) == Told(s, id,
        [SubscriptionError(c, reason, code), SubscriptionError(c, if denied then "AuthError" else "Unknown", code),
         ErrorEvent(if denied then SubscriptionAccessDenied else GenericReconnect)])
  {
    var denied := code == SubscriptionAccessDenied;
    InTurn(s, id, SubscriptionError(c, reason, code),
           SubscriptionError(c, if denied then "AuthError" else "Unknown", code),
           ErrorEvent(if denied then SubscriptionAccessDenied else GenericReconnect));
  }

  lemma TurnedAwayAt(cfg: Config, s: State, id: SocketId, sub: Subscription, memberCount: int)
    requires id in s.sockets
    ensures var told := TurnedAway(cfg, s.sockets[id], sub, memberCount);
      && (told.None? <==> MayJoin(cfg, s.sockets[id], sub, memberCount))
      && (told.Some? ==> Answer(SubscribeAt(cfg, s, id, sub, memberCount), id) == Told(s, id, told.value))
  {
    hide ValidName, CreateChannel, JoinChannel, Refuse, Answer, Deliver, Told;
    var c := sub.channel;
    KindByPrefix(c);
    AdmissionMeans(cfg, s.sockets[id], sub, memberCount);
    if sub.closing || IsOwnUserChannel(s.sockets[id], c) || !ValidName(c, cfg.maxNameLength) {
      BeforeTheChecks(cfg, s, id, sub, memberCount);
    } else if AdmissionAt(cfg, memberCount, sub).Refused? {
      var v := AdmissionAt(cfg, memberCount, sub);
      RefusalTold(s, id, c, v.reason, v.code);
    }
  }

  /** The three answers that come before the checks of a join. */
  lemma BeforeTheChecks(cfg: Config, s: State, id: SocketId, sub: Subscription, memberCount: int)
    requires id in s.sockets
    requires sub.closing || IsOwnUserChannel(s.sockets[id], sub.channel) || !ValidName(sub.channel, cfg.maxNameLength)
    ensures Answer(SubscribeAt(cfg, s, id, sub, memberCount), id) == Told(s, id,
      if sub.closing then [ErrorEvent(GenericReconnect)]
      else if IsOwnUserChannel(s.sockets[id], sub.channel) then [SubscriptionSucceeded(sub.channel, None)]
      else [ErrorEvent(UnauthorizedConnection), ErrorEvent(InvalidChannel)])
  {
    hide ValidName, JoinChannel, Refuse, AdmissionAt, Deliver, Told;
    InTurn(s, id, ErrorEvent(GenericReconnect), ErrorEvent(GenericReconnect), ErrorEvent(GenericReconnect));
    InTurn(s, id, SubscriptionSucceeded(sub.channel, None), ErrorEvent(InvalidChannel), ErrorEvent(InvalidChannel));
    InTurn(s, id, ErrorEvent(UnauthorizedConnection), ErrorEvent(InvalidChannel), ErrorEvent(InvalidChannel));
  }

  /** Whoever is not let in is told so, in exactly these messages, and nothing else happens on any node. */
  lemma TurnedAwayIsTold(cfg: Config, nodes: seq<State>, i: nat, id: SocketId, sub: Subscription)
    requires i < |nodes| && id in nodes[i].sockets
    ensures var told := TurnedAway(cfg, nodes[i].sockets[id], sub, GatheredCount(nodes, sub.channel));
      && (told.None? <==> MayJoin(cfg, nodes[i].sockets[id], sub, GatheredCount(nodes, sub.channel)))
      && (told.Some? ==>
            ClusterStep(cfg, nodes, i, Subscribing(id, sub)) == nodes[i := Told(nodes[i], id, told.value)])
  {
    hide TurnedAway, MayJoin, GatheredCount, JoinInCluster, SubscribeAt, AdmittedInCluster, Answer, Told;
    TurnedAwayAt(cfg, nodes[i], id, sub, GatheredCount(nodes, sub.channel));
    AdmittedInClusterIf(cfg, nodes, i, id, sub);
  }

  /** On one node. */
  lemma TurnedAwayHere(cfg: Config, s: State, id: SocketId, sub: Subscription)
    requires id in s.sockets
    ensures var told := TurnedAway(cfg, s.sockets[id], sub, |MemberIds(s, sub.channel)|);
      && (told.None? <==> MayJoin(cfg, s.sockets[id], sub, |MemberIds(s, sub.channel)|))
      && (told.Some? ==> Step(cfg, s, Subscribing(id, sub)) == Told(s, id, told.value))
  {
    hide TurnedAway, MayJoin, MemberIds, SubscribeAt, Answer, Told;
    TurnedAwayAt(cfg, s, id, sub, |MemberIds(s, sub.channel)|);
  }

  /** Without a valid signature nobody gets into a private, presence or user channel: the request leaves everything as
      it was, and the socket is denied access if the server is open and the name valid and not that of its own user. */
  lemma UnsignedIsDenied(cfg: Config, s: State, id: SocketId, sub: Subscription)
    requires id in s.sockets && !sub.authOk
    requires "private-" <= sub.channel || "presence-" <= sub.channel || "#server-to-user-" <= sub.channel
    ensures var r, c, user := Step(cfg, s, Subscribing(id, sub)), sub.channel, s.sockets[id].userId;
      && r.channels == s.channels && r.users == s.users && r.emitted == s.emitted
      && (!sub.closing && ValidName(c, cfg.maxNameLength) && (user == "" || c != "#server-to-user-" + user) ==>
            r == Told(s, id, [SubscriptionError(c, "AuthError", SubscriptionAccessDenied),
                              SubscriptionError(c, "AuthError", SubscriptionAccessDenied),
                              ErrorEvent(SubscriptionAccessDenied)]))
  {
    hide MemberIds, Step, ValidName;
    TurnedAwayHere(cfg, s, id, sub);
  }

  // ---------- let in ----------

  /** On a cache channel, the cached event or the news that there is none. */
  function Replay(sub: Subscription): seq<Message> {
    var c := sub.channel;
    if "cache-" <= c || "presence-cache-" <= c || "private-cache-" <= c || "private-encrypted-cache-" <= c then
      match sub.cached
      case Some(data) => [CachedEvent(data)]
      case None => [CacheMiss]
    else []
  }

  /** What the new subscriber is sent last: the confirmation with the members of a presence channel, and the replay. */
  function Confirmation(sub: Subscription, members: set<UserId>): seq<Message> {
    var c, presence := sub.channel, "presence-" <= sub.channel;
    if presence && sub.member.userId == "" then [ErrorEvent(InvalidPayload)]
    else
      [SubscriptionSucceeded(c, if presence then Some(members + {sub.member.userId}) else None)] + Replay(sub)
  }

  /** A join tells the members that were there before of a user that was not, and confirms to the subscriber. */
  lemma JoinIsTold(cfg: Config, s: State, id: SocketId, sub: Subscription, k: SocketId)
    requires id in s.sockets && k in s.sockets && Held(s)
    requires MayJoin(cfg, s.sockets[id], sub, |MemberIds(s, sub.channel)|)
    ensures var c, user, members := sub.channel, sub.member.userId, MemberIds(s, sub.channel);
      var r := Step(cfg, s, Subscribing(id, sub));
      var hears := "presence-" <= c && user != "" && user !in members
        && if k == id then id == "" else k in Listed(s.channels, c);
      && k in r.sockets
      && r.sockets[k].inbox == s.sockets[k].inbox
           + (if hears then [MemberAdded(c, sub.member)] else []) + (if k == id then Confirmation(sub, members) else [])
  {
    hide MayJoin, Admitted, Step, Subscribe, CreateChannel, Answer, JoinChannel;
    var o := JoinChannel(s, id, sub);
    AdmittedIf(cfg, s, id, sub);
    assert Step(cfg, s, Subscribing(id, sub)) == Answer(o, id) by { JoinIsStep(cfg, s, id, sub); }
    JoinChannelIsTold(s, id, sub, k);
  }

  lemma JoinIsStep(cfg: Config, s: State, id: SocketId, sub: Subscription)
    requires id in s.sockets && Admitted(cfg, s, id, sub)
    ensures Step(cfg, s, Subscribing(id, sub)) == Answer(JoinChannel(s, id, sub), id)
  {
    hide ValidName, CreateChannel, MemberIds, AdmissionAt, JoinChannel, Answer;
  }

  lemma EnterTellsNobody(s: State, id: SocketId, sub: Subscription)
    requires id in s.sockets
    ensures var r := EnterChannel(s, id, sub);
      && r.sockets.Keys == s.sockets.Keys && (forall k | k in s.sockets :: r.sockets[k].inbox == s.sockets[k].inbox)
      && Listed(r.channels, sub.channel) == Listed(s.channels, sub.channel) + [id]
  {
    hide CreateChannel;
    EnterCore(s, id, sub);
  }

  lemma FinishTells(s: State, id: SocketId, m: Message, sub: Subscription, k: SocketId)
    requires id in s.sockets && k in s.sockets
    ensures var r := SendCache(Deliver(s, id, m), id, sub);
      k in r.sockets && r.sockets[k].inbox == s.sockets[k].inbox + if k == id then [m] + Replay(sub) else []
  {
    hide CreateChannel;
    KindByPrefix(sub.channel);
    InTurn(s, id, m, if sub.cached.Some? then CachedEvent(sub.cached.value) else CacheMiss, m);
  }

  lemma AnnounceTells(s: State, id: SocketId, sub: Subscription, members: set<UserId>, k: SocketId)
    requires id in s.sockets && k in s.sockets && "presence-" <= sub.channel
    ensures var r, c := AnnounceMember(s, id, sub, members), sub.channel;
      && r.sockets.Keys == s.sockets.Keys
      && r.sockets[k].inbox == s.sockets[k].inbox +
           if sub.member.userId !in members && k in Listed(s.channels, c) && (id == "" || k != id)
           then [MemberAdded(c, sub.member)] else []
  {
    assert sub.channel[0] == 'p';
  }

  lemma JoinChannelIsTold(s: State, id: SocketId, sub: Subscription, k: SocketId)
    requires id in s.sockets && k in s.sockets && Held(s)
    ensures var c, user, members := sub.channel, sub.member.userId, MemberIds(s, sub.channel);
      var r := Answer(JoinChannel(s, id, sub), id);
      var hears := "presence-" <= c && user != "" && user !in members
        && if k == id then id == "" else k in Listed(s.channels, c);
      && k in r.sockets
      && r.sockets[k].inbox == s.sockets[k].inbox
           + (if hears then [MemberAdded(c, sub.member)] else []) + (if k == id then Confirmation(sub, members) else [])
  {
    hide CreateChannel, MemberIds, EnterChannel, AnnounceMember, SendCache, Deliver, Told, IsPresence, Append, Replay;
    var c, user := sub.channel, sub.member.userId;
    KindByPrefix(c);
    EnterTellsNobody(s, id, sub);
    var s1 := EnterChannel(s, id, sub);
    if !("presence-" <= c) {
      FinishTells(s1, id, SubscriptionSucceeded(c, None), sub, k);
    } else if user == "" {
      ErrorTells(s1, id, InvalidPayload, k);
    } else {
      MembersOnEntering(s, id, sub);
      var members := MemberIds(s1, c);
      AnnounceTells(s1, id, sub, members, k);
      FinishTells(AnnounceMember(s1, id, sub, members), id, SubscriptionSucceeded(c, Some(members + {user})), sub, k);
    }
  }

  lemma ErrorTells(s: State, id: SocketId, code: ErrorCode, k: SocketId)
    requires id in s.sockets && k in s.sockets
    ensures var r := Deliver(s, id, ErrorEvent(code));
      k in r.sockets && r.sockets[k].inbox == s.sockets[k].inbox + if k == id then [ErrorEvent(code)] else []
  {
  }

  // ---------- leaving ----------

  /** A leave tells the subscribers that stay of a user that is gone, and nobody anything else. */
  lemma LeaveIsTold(s: State, id: SocketId, c: ChannelName, k: SocketId)
    requires id in s.sockets && k in s.sockets && Held(s)
    ensures var r, has := LeaveChannel(s, id, c), c in s.sockets[id].presence;
      && k in r.sockets
      && r.sockets[k].inbox == s.sockets[k].inbox +
           if has && k != id && k in Listed(s.channels, c) && s.sockets[id].presence[c].userId !in MemberIds(r, c)
           then [MemberRemoved(c, s.sockets[id].presence[c].userId)] else []
  {
    hide CreateChannel, MemberIds, IsPresence;
    CacheFlagsAgree(c);
    LeaveCore(s, id, c);
    MembersAfterLeaving(s, LeaveChannel(s, id, c), id, c);
    if c in s.sockets[id].presence {
      var user := s.sockets[id].presence[c].userId;
      var s1 := s.(channels := Drop(s.channels, c, id));
      var s2 := s1.(sockets := s1.sockets[id := s1.sockets[id].(presence := s1.sockets[id].presence - {c})]);
      LeaversSockets(s, s2, id, c);
      MembersWithoutData(s, s2, id, c);
      DepartureTells(s2, id, c, user, k);
      hide AnnounceDeparture, Drop;
    }
  }

  lemma DepartureTells(s: State, id: SocketId, c: ChannelName, user: UserId, k: SocketId)
    requires k in s.sockets && IsPresence(c)
    ensures var r := AnnounceDeparture(s, id, c, user);
      && r.sockets.Keys == s.sockets.Keys
      && r.sockets[k].inbox == s.sockets[k].inbox +
           if user !in MemberIds(s, c) && k in ChannelSockets(s, c) && (id == "" || k != id)
           then [MemberRemoved(c, user)] else []
  {
    hide MemberIds;
    assert c[0] == 'p';
  }

  /** An unsubscribe from a channel that the socket does not listen to is an invalid payload. */
  lemma BadUnsubscribeIsTold(cfg: Config, s: State, id: SocketId, c: ChannelName)
    requires id in s.sockets && c !in s.sockets[id].subscribed
    ensures Step(cfg, s, Unsubscribing(id, c)) == Told(s, id, [ErrorEvent(InvalidPayload)])
  {
  }

  // ---------- signing in ----------

  /** A sign-in gives the socket its user and confirms it; the socket is then found under the user. Without a user id it
      is an invalid payload, and with a bad token it costs the connection. */
  lemma SigninIsTold(cfg: Config, s: State, id: SocketId, tokenOk: bool, user: UserId, order: seq<ChannelName>)
    requires Enabled(s, SigningIn(id, tokenOk, user, order))
    ensures var r := Step(cfg, s, SigningIn(id, tokenOk, user, order));
      && (user == "" ==> r == Told(s, id, [ErrorEvent(InvalidPayload)]))
      && (user != "" && !tokenOk ==> id !in r.sockets)
      && (user != "" && tokenOk ==> SignedIn(s, r, id, user))
  {
    hide SignedIn, Signin, CloseSocket;
    if user == "" {
      NobodySignsIn(s, id, tokenOk, order);
    } else if tokenOk {
      SignsIn(s, id, user, order);
    } else {
      SigningInCore(cfg, s, id, tokenOk, user, order);
    }
  }

  lemma NobodySignsIn(s: State, id: SocketId, tokenOk: bool, order: seq<ChannelName>)
    requires id in s.sockets
    ensures Answer(Signin(s, id, tokenOk, "", order), id) == Told(s, id, [ErrorEvent(InvalidPayload)])
  {
  }

  /** The socket took the identity, was told so, and is found under its user; nothing else changed. */
  ghost predicate SignedIn(s: State, r: State, id: SocketId, user: UserId)
    requires id in s.sockets
  {
    var sock := s.sockets[id];
    && r.channels == s.channels && r.emitted == s.emitted
    && r.sockets ==
         s.sockets[id := sock.(userId := user, awaitingAuth := false, inbox := sock.inbox + [SigninSuccess])]
    && id in UserSockets(r, user)
    && forall u | u != user :: Listed(r.users, u) == Listed(s.users, u)
  }

  lemma SignsIn(s: State, id: SocketId, user: UserId, order: seq<ChannelName>)
    requires id in s.sockets && user != ""
    ensures SignedIn(s, Answer(Signin(s, id, true, user, order), id), id, user)
  {
    hide AddUser, Listed, LiveOnly;
    var named := s.sockets[id].(userId := user);
    var told := named.(inbox := named.inbox + [SigninSuccess]);
    AddsUser(s.(sockets := s.sockets[id := named]), id, user);
    UpdateTwice(s.sockets, id, named, told);
    UpdateTwice(s.sockets, id, told, told.(awaitingAuth := false));
    var r := Answer(Signin(s, id, true, user, order), id);
    assert r.sockets == s.sockets[id := told.(awaitingAuth := false)];
    assert id in Listed(r.users, user);
    LiveAre(Listed(r.users, user), r.sockets.Keys);
  }

  lemma UpdateTwice<K, V>(m: map<K, V>, k: K, a: V, b: V)
    ensures m[k := a][k := b] == m[k := b]
  {
  }

  lemma AddsUser(s: State, id: SocketId, user: UserId)
    requires user != ""
    ensures var r := AddUser(s, id, user);
      && r == s.(users := r.users) && id in Listed(r.users, user)
      && forall u | u != user :: Listed(r.users, u) == Listed(s.users, u)
  {
  }

  /** GetUserSockets: the registered sockets of the user's list. */
  lemma {:induction false} LiveAre(ids: seq<SocketId>, live: set<SocketId>)
    ensures forall id :: id in LiveOnly(ids, live) <==> id in ids && id in live
  {
    if ids != [] { LiveAre(ids[..|ids| - 1], live); }
  }
}
