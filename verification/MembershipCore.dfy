/** What each request does to the lists, the users and the sockets, leaving out inboxes and emitted events. Every
    relation here holds in any state, whatever the clients did before. */
module MembershipCore {
  import opened Wrappers
  import opened Names
  import opened Membership

  // ---------- joining and leaving ----------

  predicate SameSocket(a: Socket, b: Socket) {
    a.subscribed == b.subscribed && a.presence == b.presence && a.userId == b.userId && a.awaitingAuth == b.awaitingAuth
  }

  ghost predicate SameCore(s: State, r: State) {
    && r.channels == s.channels && r.users == s.users && r.sockets.Keys == s.sockets.Keys
    && forall id | id in s.sockets :: SameSocket(s.sockets[id], r.sockets[id])
  }

  lemma {:induction false} DeliverAllSameCore(s: State, ids: seq<SocketId>, m: Message)
    ensures SameCore(s, DeliverAll(s, ids, m)) && DeliverAll(s, ids, m).emitted == s.emitted
  {
    if ids != [] { DeliverAllSameCore(s, ids[..|ids| - 1], m); }
  }

  lemma SendSameCore(s: State, c: ChannelName, m: Message, except: SocketId)
    ensures SameCore(s, LocalSend(s, c, m, except)) && LocalSend(s, c, m, except).emitted == s.emitted
  {
    if IsUserChannel(c) { DeliverAllSameCore(s, UserSockets(s, c[|USER_PREFIX|..]), m); }
  }

  lemma EnterCore(s: State, id: SocketId, sub: Subscription)
    requires id in s.sockets
    ensures var r := EnterChannel(s, id, sub);
      && r.channels == Append(s.channels, sub.channel, id) && r.users == s.users
      && r.sockets == s.sockets[id := Track(s.sockets[id], sub)]
  {
  }

  /** What joining `sub.channel` does to everything but inboxes and emitted events. */
  ghost predicate JoinRel(s: State, r: State, id: SocketId, sub: Subscription)
    requires id in s.sockets
  {
    var c, sock := sub.channel, s.sockets[id];
    && r.channels == Append(s.channels, c, id) && r.users == s.users && r.sockets.Keys == s.sockets.Keys
    && (forall j | j in s.sockets && j != id :: SameSocket(s.sockets[j], r.sockets[j]))
    && SameSocket(r.sockets[id], Track(sock, sub).(presence :=
         if IsPresence(c) && sub.member.userId != "" then sock.presence[c := sub.member] else sock.presence))
  }

  /** Presence data stored. */
  function WithPresence(s: State, id: SocketId, c: ChannelName, m: Member): State
    requires id in s.sockets
  {
    s.(sockets := s.sockets[id := s.sockets[id].(presence := s.sockets[id].presence[c := m])])
  }

  lemma AnnounceCore(s: State, id: SocketId, sub: Subscription, members: set<UserId>)
    requires id in s.sockets
    ensures SameCore(AnnounceMember(s, id, sub, members),
              WithPresence(s, id, sub.channel, sub.member))
  {
    var s1, c, m := WithPresence(s, id, sub.channel, sub.member), sub.channel, sub.member;
    SendSameCore(Emit(s1, UserAdded(c, m.userId)), c, MemberAdded(c, m), id);
  }

  lemma FinishCore(s: State, id: SocketId, m: Message, sub: Subscription)
    ensures SameCore(s, SendCache(Deliver(s, id, m), id, sub))
  {
    hide CreateChannel;
  }

  lemma JoinCore(s: State, id: SocketId, sub: Subscription)
    requires id in s.sockets
    ensures JoinRel(s, JoinChannel(s, id, sub).state, id, sub)
  {
    var c := sub.channel;
    var s1 := EnterChannel(s, id, sub);
    EnterCore(s, id, sub);
    if CreateChannel(c).kind != Presence {
      FinishCore(s1, id, SubscriptionSucceeded(c, None), sub);
    } else if sub.member.userId != "" {
      var members := MemberIds(s1, c);
      AnnounceCore(s1, id, sub, members);
      var roster := members + {sub.member.userId};
      FinishCore(AnnounceMember(s1, id, sub, members), id, SubscriptionSucceeded(c, Some(roster)), sub);
    }
  }

  /** What leaving `c` does to everything but inboxes and emitted events. */
  ghost predicate LeaveRel(s: State, r: State, id: SocketId, c: ChannelName)
    requires id in s.sockets
  {
    var sock := s.sockets[id];
    && r.channels == Drop(s.channels, c, id) && r.users == s.users && r.sockets.Keys == s.sockets.Keys
    && (forall j | j in s.sockets && j != id :: SameSocket(s.sockets[j], r.sockets[j]))
    && SameSocket(r.sockets[id], sock.(
         presence := if IsPresence(c) then sock.presence - {c} else sock.presence,
         subscribed := if IsPresence(c) && c !in sock.presence then sock.subscribed else sock.subscribed - {c}))
  }

  lemma DepartureCore(s: State, id: SocketId, c: ChannelName, user: UserId)
    ensures SameCore(s, AnnounceVacancy(AnnounceDeparture(s, id, c, user), c))
  {
    SendSameCore(Emit(s, UserRemoved(c, user)), c, MemberRemoved(c, user), id);
  }

  lemma LeaveCore(s: State, id: SocketId, c: ChannelName)
    requires id in s.sockets
    ensures LeaveRel(s, LeaveChannel(s, id, c), id, c)
  {
    var s1 := s.(channels := Drop(s.channels, c, id));
    if IsPresence(c) && c in s.sockets[id].presence {
      var user := s.sockets[id].presence[c].userId;
      var s2 := s1.(sockets := s1.sockets[id := s1.sockets[id].(presence := s1.sockets[id].presence - {c})]);
      DepartureCore(s2, id, c, user);
    }
  }

  // ---------- closing ----------

  /** What closing a socket does, however it stood with its channels. */
  ghost predicate CloseRel(s: State, r: State, id: SocketId)
    requires id in s.sockets
  {
    var user := s.sockets[id].userId;
    && r.channels == DropEverywhere(s.channels, id)
    && r.sockets.Keys == s.sockets.Keys - {id}
    && (forall j | j in r.sockets :: SameSocket(s.sockets[j], r.sockets[j]))
    && r.users == (if user == "" then s.users else Drop(Drop(s.users, user, id), user, id))
  }

  /** Dropping an id from one list first makes no difference to dropping it from all of them. */
  lemma DropThenEverywhere(lists: map<string, seq<SocketId>>, key: string, id: SocketId)
    ensures DropEverywhere(Drop(lists, key, id), id) == DropEverywhere(lists, id)
  {
    if key in lists {
      var rest := Without(lists[key], id);
      assert Without(rest, id) == rest;
      assert rest != [] ==> Drop(lists, key, id)[key] == rest;
      assert DropEverywhere(Drop(lists, key, id), id).Keys == DropEverywhere(lists, id).Keys;
    }
  }

  /** What leaving several channels in turn does. */
  ghost predicate LeaveAllRel(s: State, r: State, id: SocketId)
    requires id in s.sockets
  {
    && DropEverywhere(r.channels, id) == DropEverywhere(s.channels, id)
    && r.users == s.users && r.sockets.Keys == s.sockets.Keys && r.sockets[id].userId == s.sockets[id].userId
    && forall j | j in s.sockets && j != id :: SameSocket(s.sockets[j], r.sockets[j])
  }

  lemma {:induction false} LeaveAllCore(s: State, id: SocketId, order: seq<ChannelName>)
    requires id in s.sockets
    ensures LeaveAllRel(s, LeaveAll(s, id, order), id)
  {
    if order != [] {
      var init, last := order[..|order| - 1], order[|order| - 1];
      LeaveAllCore(s, id, init);
      LeaveCore(LeaveAll(s, id, init), id, last);
      DropThenEverywhere(LeaveAll(s, id, init).channels, last, id);
    }
  }

  lemma CloseCore(s: State, id: SocketId, order: seq<ChannelName>)
    requires id in s.sockets
    ensures CloseRel(s, CloseSocket(s, id, order), id)
  {
    LeaveAllCore(s, id, order);
  }

  // ---------- whole requests ----------

  lemma SubscribingCore(cfg: Config, s: State, id: SocketId, sub: Subscription)
    requires id in s.sockets
    ensures var r := Step(cfg, s, Subscribing(id, sub));
      if Admitted(cfg, s, id, sub) then JoinRel(s, r, id, sub) else SameCore(s, r)
  {
    hide CreateChannel, MemberIds, ValidName, AdmissionAt, JoinChannel, Refuse, Track, IsPresence;
    var o := Subscribe(cfg, s, id, sub);
    AnswerCore(o, id);
    if Admitted(cfg, s, id, sub) {
      JoinCore(s, id, sub);
    } else if !sub.closing && Admission(cfg, s, sub).Refused? {
      RefuseCore(s, id, sub.channel, Admission(cfg, s, sub).reason, Admission(cfg, s, sub).code);
    }
  }

  lemma AnswerCore(o: Outcome, id: SocketId)
    ensures SameCore(o.state, Answer(o, id))
  {
  }

  lemma RefuseCore(s: State, id: SocketId, c: ChannelName, reason: string, code: ErrorCode)
    ensures SameCore(s, Refuse(s, id, c, reason, code).state)
  {
  }

  /** The membership side of an unsubscribe request. */
  lemma UnsubscribingCore(cfg: Config, s: State, id: SocketId, c: ChannelName)
    requires id in s.sockets
    ensures var r := Step(cfg, s, Unsubscribing(id, c));
      if c in s.sockets[id].subscribed then LeaveRel(s, r, id, c) else SameCore(s, r)
  {
    LeaveCore(s, id, c);
    AnswerCore(Unsubscribe(s, id, c), id);
  }

  /** The membership side of a sign-in. */
  lemma SigningInCore(cfg: Config, s: State, id: SocketId, tokenOk: bool, user: UserId, order: seq<ChannelName>)
    requires Enabled(s, SigningIn(id, tokenOk, user, order))
    ensures var r := Step(cfg, s, SigningIn(id, tokenOk, user, order));
      if user == "" then SameCore(s, r)
      else if !tokenOk then CloseRel(s, r, id)
      else SigninRel(s, r, id, user)
  {
    AnswerCore(Signin(s, id, tokenOk, user, order), id);
    if user != "" && !tokenOk { CloseCore(s, id, order); }
  }

  ghost predicate SigninRel(s: State, r: State, id: SocketId, user: UserId)
    requires id in s.sockets
  {
    && r.channels == s.channels && r.sockets.Keys == s.sockets.Keys
    && (forall j | j in s.sockets && j != id :: SameSocket(s.sockets[j], r.sockets[j]))
    && SameSocket(r.sockets[id], s.sockets[id].(userId := user, awaitingAuth := false))
    && r.users == (if id in Listed(s.users, user) then s.users else Append(s.users, user, id))
  }
}
