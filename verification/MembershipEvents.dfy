/** The channel and member events handed to the queue manager, and exactly when they alternate. */
module MembershipEvents {
  import opened Wrappers
  import opened Names
  import opened Alternation
  import opened Membership
  import opened MembershipCore
  import opened MembershipIndex

  // ---------- the events about one topic ----------

  function HookTopic(app: AppId, h: Hook): Option<Topic> {
    match h
    case ChannelOccupied(c) => Some(Topic.Occupancy(app, c))
    case ChannelVacated(c) => Some(Topic.Occupancy(app, c))
    case UserAdded(c, u) => Some(Topic.Membership(app, c, u))
    case UserRemoved(c, u) => Some(Topic.Membership(app, c, u))
    case _ => None
  }

  predicate TurnsOn(h: Hook) {
    h.ChannelOccupied? || h.UserAdded?
  }

  /** The on/off history of a topic: occupied/vacated for a channel, added/removed for a member. */
  function Turns(app: AppId, log: seq<Hook>, t: Topic): seq<bool> {
    if log == [] then []
    else
      var rest, h := Turns(app, log[..|log| - 1], t), log[|log| - 1];
      if HookTopic(app, h) == Some(t) then rest + [TurnsOn(h)] else rest
  }

  lemma TurnsEmit(app: AppId, log: seq<Hook>, h: Hook, t: Topic)
    ensures Turns(app, log + [h], t) ==
      if HookTopic(app, h) == Some(t) then Turns(app, log, t) + [TurnsOn(h)] else Turns(app, log, t)
  {
    assert (log + [h])[..|log|] == log;
  }

  lemma {:induction false} TurnsConcat(app: AppId, log: seq<Hook>, more: seq<Hook>, t: Topic)
    ensures Turns(app, log + more, t) == Turns(app, log, t) + Turns(app, more, t)
  {
    hide HookTopic, TurnsOn;
    if more == [] {
      assert log + more == log;
    } else {
      var init, h := more[..|more| - 1], more[|more| - 1];
      TurnsConcat(app, log, init, t);
      TurnsEmit(app, log + init, h, t);
      assert log + more == log + init + [h];
    }
  }

  // ---------- which events a request emits ----------

  function When<T>(b: bool, x: T): seq<T> {
    if b then [x] else []
  }

  /** Joining c lists nobody but this socket. */
  predicate BecomesOnly(s: State, id: SocketId, c: ChannelName) {
    ChannelConnections(s.(channels := Append(s.channels, c, id)), c) == 1
  }

  predicate NewMember(s: State, id: SocketId, sub: Subscription)
    requires id in s.sockets
  {
    && IsPresence(sub.channel) && sub.member.userId != ""
    && sub.member.userId !in MemberIds(EnterChannel(s, id, sub), sub.channel)
  }

  predicate MissesCache(sub: Subscription) {
    CreateChannel(sub.channel).isCache && sub.cached.None? && !(IsPresence(sub.channel) && sub.member.userId == "")
  }

  /** The events of one admitted subscribe request, in order. */
  function JoinHooks(s: State, id: SocketId, sub: Subscription): seq<Hook>
    requires id in s.sockets
  {
    When(BecomesOnly(s, id, sub.channel), ChannelOccupied(sub.channel))
    + When(NewMember(s, id, sub), UserAdded(sub.channel, sub.member.userId))
    + When(MissesCache(sub), CacheMissed(sub.channel))
  }

  lemma EnterEmits(s: State, id: SocketId, sub: Subscription)
    requires id in s.sockets
    ensures EnterChannel(s, id, sub).emitted ==
      s.emitted + When(BecomesOnly(s, id, sub.channel), ChannelOccupied(sub.channel))
  {
  }

  lemma JoinEmits(s: State, id: SocketId, sub: Subscription)
    requires id in s.sockets
    ensures JoinChannel(s, id, sub).state.emitted == s.emitted + JoinHooks(s, id, sub)
  {
    EnterEmits(s, id, sub);
    CacheFlagsAgree(sub.channel);
    if IsPresence(sub.channel) { PresenceJoinEmits(s, id, sub); } else { OrdinaryJoinEmits(s, id, sub); }
  }

  lemma OrdinaryJoinEmits(s: State, id: SocketId, sub: Subscription)
    requires id in s.sockets && !IsPresence(sub.channel) && CreateChannel(sub.channel).kind != Presence
    requires EnterChannel(s, id, sub).emitted ==
      s.emitted + When(BecomesOnly(s, id, sub.channel), ChannelOccupied(sub.channel))
    ensures JoinChannel(s, id, sub).state.emitted == s.emitted + JoinHooks(s, id, sub)
  {
    hide CreateChannel, IsPresence, EnterChannel, BecomesOnly, MemberIds, SendCache, Deliver, AnnounceMember;
    FinishEmits(EnterChannel(s, id, sub), id, SubscriptionSucceeded(sub.channel, None), sub);
  }

  lemma PresenceJoinEmits(s: State, id: SocketId, sub: Subscription)
    requires id in s.sockets && IsPresence(sub.channel) && CreateChannel(sub.channel).kind == Presence
    requires EnterChannel(s, id, sub).emitted ==
      s.emitted + When(BecomesOnly(s, id, sub.channel), ChannelOccupied(sub.channel))
    ensures JoinChannel(s, id, sub).state.emitted == s.emitted + JoinHooks(s, id, sub)
  {
    hide CreateChannel, IsPresence, EnterChannel, BecomesOnly, MemberIds, SendCache, Deliver, AnnounceMember;
    EnterCore(s, id, sub);
    var c, v := sub.channel, sub.member.userId;
    if v != "" {
      var s1 := EnterChannel(s, id, sub);
      var members := MemberIds(s1, c);
      AnnounceEmits(s1, id, sub, members);
      FinishEmits(AnnounceMember(s1, id, sub, members), id, SubscriptionSucceeded(c, Some(members + {v})), sub);
      ThreeTogether(s.emitted, When(BecomesOnly(s, id, c), ChannelOccupied(c)),
                    When(NewMember(s, id, sub), UserAdded(c, v)), When(MissesCache(sub), CacheMissed(c)));
    }
  }

  lemma ThreeTogether<T>(log: seq<T>, a: seq<T>, b: seq<T>, c: seq<T>)
    ensures log + a + b + c == log + (a + b + c)
  {
  }

  lemma FinishEmits(s: State, id: SocketId, m: Message, sub: Subscription)
    ensures SendCache(Deliver(s, id, m), id, sub).emitted
      == s.emitted + When(CreateChannel(sub.channel).isCache && sub.cached.None?, CacheMissed(sub.channel))
  {
  }

  lemma TurnsOfWhen(app: AppId, b: bool, h: Hook, t: Topic)
    ensures Turns(app, When(b, h), t) == if b && HookTopic(app, h) == Some(t) then [TurnsOn(h)] else []
  {
    TurnsEmit(app, [], h, t);
    assert [] + [h] == [h];
  }

  /** What an admitted subscribe adds to the history of a topic. */
  function JoinTurn(s: State, id: SocketId, sub: Subscription, t: Topic): seq<bool>
    requires id in s.sockets
  {
    if t.channel != sub.channel then []
    else
      match t
      case Occupancy(_, c) => When(BecomesOnly(s, id, c), true)
      case Membership(_, _, u) => When(NewMember(s, id, sub) && u == sub.member.userId, true)
  }

  lemma TurnsOfJoin(app: AppId, s: State, id: SocketId, sub: Subscription, t: Topic)
    requires id in s.sockets && t.app == app
    ensures Turns(app, JoinHooks(s, id, sub), t) == JoinTurn(s, id, sub, t)
  {
    var first, joins, miss := BecomesOnly(s, id, sub.channel), NewMember(s, id, sub), MissesCache(sub);
    TurnsOfThree(app, first, joins, miss, sub.channel, sub.member.userId, t);
    hide Turns, BecomesOnly, NewMember, MissesCache;
  }

  lemma TurnsOfThree(app: AppId, first: bool, joins: bool, miss: bool, c: ChannelName, u: UserId, t: Topic)
    requires t.app == app
    ensures
      Turns(app, When(first, ChannelOccupied(c)) + When(joins, UserAdded(c, u)) + When(miss, CacheMissed(c)), t) ==
      if t.channel != c then []
      else match t
        case Occupancy(_, _) => When(first, true)
        case Membership(_, _, u') => When(joins && u' == u, true)
  {
    hide Turns;
    var x, y, z := When(first, ChannelOccupied(c)), When(joins, UserAdded(c, u)), When(miss, CacheMissed(c));
    TurnsConcat(app, x + y, z, t);
    TurnsConcat(app, x, y, t);
    TurnsOfWhen(app, first, ChannelOccupied(c), t);
    TurnsOfWhen(app, joins, UserAdded(c, u), t);
    TurnsOfWhen(app, miss, CacheMissed(c), t);
  }

  lemma AnnounceEmits(s: State, id: SocketId, sub: Subscription, members: set<UserId>)
    requires id in s.sockets
    ensures AnnounceMember(s, id, sub, members).emitted
      == s.emitted + When(sub.member.userId !in members, UserAdded(sub.channel, sub.member.userId))
  {
    var s1, c, m := WithPresence(s, id, sub.channel, sub.member), sub.channel, sub.member;
    SendSameCore(Emit(s1, UserAdded(c, m.userId)), c, MemberAdded(c, m), id);
  }

  // ---------- leaving ----------

  /** The members of a channel other than one socket. */
  function OtherMembers(s: State, id: SocketId, c: ChannelName): set<UserId> {
    set j | j in ChannelSockets(s, c) && j != id && c in s.sockets[j].presence :: s.sockets[j].presence[c].userId
  }

  predicate LastOfUser(s: State, id: SocketId, c: ChannelName)
    requires id in s.sockets
  {
    c in s.sockets[id].presence && s.sockets[id].presence[c].userId !in OtherMembers(s, id, c)
  }

  /** Leaving goes on to the occupancy event, and nobody else is subscribed. */
  predicate Vacates(s: State, id: SocketId, c: ChannelName)
    requires id in s.sockets
  {
    (IsPresence(c) ==> c in s.sockets[id].presence) && ChannelSockets(s, c) <= {id}
  }

  /** The events of leaving a channel, in order. */
  function LeaveHooks(s: State, id: SocketId, c: ChannelName): seq<Hook>
    requires id in s.sockets
  {
    (if LastOfUser(s, id, c) then [UserRemoved(c, s.sockets[id].presence[c].userId)] else [])
    + When(Vacates(s, id, c), ChannelVacated(c))
  }

  /** What leaving c adds to the history of a topic. */
  function LeaveTurn(s: State, id: SocketId, c: ChannelName, t: Topic): seq<bool>
    requires id in s.sockets
  {
    if t.channel != c then []
    else
      match t
      case Occupancy(_, _) => When(Vacates(s, id, c), false)
      case Membership(_, _, u) => When(LastOfUser(s, id, c) && u == s.sockets[id].presence[c].userId, false)
  }

  lemma TurnsOfLeave(app: AppId, s: State, id: SocketId, c: ChannelName, t: Topic)
    requires id in s.sockets && t.app == app
    ensures Turns(app, LeaveHooks(s, id, c), t) == LeaveTurn(s, id, c, t)
  {
    TurnsOfWhen(app, Vacates(s, id, c), ChannelVacated(c), t);
    if LastOfUser(s, id, c) {
      var gone := UserRemoved(c, s.sockets[id].presence[c].userId);
      TurnsOfWhen(app, true, gone, t);
      TurnsConcat(app, [gone], When(Vacates(s, id, c), ChannelVacated(c)), t);
    } else {
      assert LeaveHooks(s, id, c) == When(Vacates(s, id, c), ChannelVacated(c));
    }
  }

  /** Who is in a channel after one socket left it. */
  lemma LeaversSockets(s: State, r: State, id: SocketId, c: ChannelName)
    requires r.channels == Drop(s.channels, c, id) && r.sockets.Keys == s.sockets.Keys
    ensures ChannelSockets(r, c) == ChannelSockets(s, c) - {id}
    ensures forall c' | c' != c :: ChannelSockets(r, c') == ChannelSockets(s, c')
  {
    forall c' | c' != c ensures ChannelSockets(r, c') == ChannelSockets(s, c') {
      assert Listed(r.channels, c') == Listed(s.channels, c');
    }
  }

  lemma LeaveEmits(s: State, id: SocketId, c: ChannelName)
    requires Held(s) && id in s.sockets
    ensures LeaveChannel(s, id, c).emitted == s.emitted + LeaveHooks(s, id, c)
  {
    CacheFlagsAgree(c);
    var s1 := s.(channels := Drop(s.channels, c, id));
    if IsPresence(c) {
      var s2 := s1.(sockets := s1.sockets[id := s1.sockets[id].(presence := s1.sockets[id].presence - {c})]);
      LeaversSockets(s, s2, id, c);
      if c in s.sockets[id].presence { PresenceLeaveEmits(s, s2, id, c); }
    } else {
      LeaversSockets(s, s1, id, c);
      hide CreateChannel, IsPresence, ChannelSockets, MemberIds, OtherMembers;
      assert c !in s.sockets[id].presence;
    }
  }

  lemma MembersWithoutData(s: State, s2: State, id: SocketId, c: ChannelName)
    requires id in s.sockets
    requires s2.sockets == s.sockets[id := s.sockets[id].(presence := s.sockets[id].presence - {c})]
    requires ChannelSockets(s2, c) == ChannelSockets(s, c) - {id}
    ensures MemberIds(s2, c) == OtherMembers(s, id, c)
  {
    assert forall j | j in s.sockets && j != id :: s2.sockets[j] == s.sockets[j];
  }

  lemma PresenceLeaveEmits(s: State, s2: State, id: SocketId, c: ChannelName)
    requires id in s.sockets && IsPresence(c) && c in s.sockets[id].presence && s2.emitted == s.emitted
    requires s2.sockets == s.sockets[id := s.sockets[id].(presence := s.sockets[id].presence - {c})]
    requires ChannelSockets(s2, c) == ChannelSockets(s, c) - {id}
    ensures var user := s.sockets[id].presence[c].userId;
      AnnounceVacancy(AnnounceDeparture(s2, id, c, user), c).emitted == s.emitted + LeaveHooks(s, id, c)
  {
    var user := s.sockets[id].presence[c].userId;
    MembersWithoutData(s, s2, id, c);
    var s3 := AnnounceDeparture(s2, id, c, user);
    SendSameCore(Emit(s2, UserRemoved(c, user)), c, MemberRemoved(c, user), id);
    assert ChannelSockets(s3, c) == ChannelSockets(s2, c);
    hide ChannelSockets, MemberIds, OtherMembers, LocalSend, IsPresence;
  }

  // ---------- what a topic is about ----------

  /** The channel has subscribers; the user has a subscribed socket in it. */
  predicate Holds(s: State, t: Topic) {
    match t
    case Occupancy(_, c) => ChannelSockets(s, c) != {}
    case Membership(_, c, u) => u in MemberIds(s, c)
  }

  /** With no empty lists, a channel has subscribers exactly when it is in Channels. */
  lemma OccupiedIsListed(s: State, c: ChannelName)
    requires NoEmptyChannel(s) && ListedSubscribe(s)
    ensures ChannelSockets(s, c) != {} <==> c in s.channels
  {
    if c in s.channels { assert s.channels[c][0] in ChannelSockets(s, c); }
  }

  /** The channel looks the same in both states: same subscribers, same presence data. */
  ghost predicate SameAt(s: State, r: State, c: ChannelName) {
    && r.sockets.Keys == s.sockets.Keys && ChannelSockets(r, c) == ChannelSockets(s, c)
    && forall j | j in s.sockets ::
         && (c in r.sockets[j].presence <==> c in s.sockets[j].presence)
         && (c in s.sockets[j].presence ==> r.sockets[j].presence[c] == s.sockets[j].presence[c])
  }

  lemma SameAtHolds(s: State, r: State, t: Topic)
    requires SameAt(s, r, t.channel)
    ensures Holds(r, t) <==> Holds(s, t)
    ensures MemberIds(r, t.channel) == MemberIds(s, t.channel)
    ensures forall id | id in s.sockets :: LeaveTurn(r, id, t.channel, t) == LeaveTurn(s, id, t.channel, t)
  {
    var c := t.channel;
    assert MemberIds(r, c) == MemberIds(s, c);
    forall id | id in s.sockets ensures LeaveTurn(r, id, c, t) == LeaveTurn(s, id, c, t) {
      assert OtherMembers(r, id, c) == OtherMembers(s, id, c);
    }
  }

  // ---------- members after a request ----------

  lemma MembersAfterLeaving(s: State, r: State, id: SocketId, c: ChannelName)
    requires Held(s) && id in s.sockets && LeaveRel(s, r, id, c)
    ensures ChannelSockets(r, c) == ChannelSockets(s, c) - {id} && MemberIds(r, c) == OtherMembers(s, id, c)
    ensures forall c' | c' != c :: SameAt(s, r, c')
  {
    LeaversSockets(s, r, id, c);
    if !IsPresence(c) { assert c !in s.sockets[id].presence; }
    forall c' | c' != c ensures SameAt(s, r, c') {}
  }

  lemma MembersAfterClosing(s: State, r: State, id: SocketId, c: ChannelName)
    requires id in s.sockets && CloseRel(s, r, id)
    ensures ChannelSockets(r, c) == ChannelSockets(s, c) - {id} && MemberIds(r, c) == OtherMembers(s, id, c)
  {
    if c in s.channels { assert Without(s.channels[c], id) != [] ==> r.channels[c] == Without(s.channels[c], id); }
    assert ChannelSockets(r, c) == ChannelSockets(s, c) - {id};
  }

  lemma MembersAfterJoining(s: State, r: State, id: SocketId, sub: Subscription)
    requires Held(s) && id in s.sockets && JoinRel(s, r, id, sub)
    ensures ChannelSockets(r, sub.channel) == ChannelSockets(s, sub.channel) + {id}
    ensures MemberIds(r, sub.channel) ==
      if IsPresence(sub.channel) && sub.member.userId != "" then OtherMembers(s, id, sub.channel) + {sub.member.userId}
      else MemberIds(s, sub.channel)
    ensures forall c | c != sub.channel :: SameAt(s, r, c)
  {
    hide IsPresence, CreateChannel;
    var c := sub.channel;
    assert ChannelSockets(r, c) == ChannelSockets(s, c) + {id};
    assert c in s.sockets[id].presence ==> id in ChannelSockets(s, c);
    forall c' | c' != c ensures SameAt(s, r, c') {
      assert Listed(r.channels, c') == Listed(s.channels, c');
    }
  }

  lemma MembersOnEntering(s: State, id: SocketId, sub: Subscription)
    requires Held(s) && id in s.sockets
    ensures MemberIds(EnterChannel(s, id, sub), sub.channel) == MemberIds(s, sub.channel)
  {
    hide IsPresence, CreateChannel;
    var c, r := sub.channel, EnterChannel(s, id, sub);
    EnterCore(s, id, sub);
    assert ChannelSockets(r, c) == ChannelSockets(s, c) + {id};
    assert c in s.sockets[id].presence ==> id in ChannelSockets(s, c);
  }

  lemma OwnAndOthers(s: State, id: SocketId, c: ChannelName)
    requires Held(s) && id in s.sockets
    ensures MemberIds(s, c) == OtherMembers(s, id, c) +
      (if c in s.sockets[id].presence then {s.sockets[id].presence[c].userId} else {})
  {
    assert c in s.sockets[id].presence ==> id in ChannelSockets(s, c);
  }

  // ---------- how a request moves a topic ----------

  /** The only subscriber of a presence channel subscribes to it again. */
  predicate Reoccupies(cfg: Config, s: State, r: Request, c: ChannelName)
    requires Enabled(s, r)
  {
    && r.Subscribing? && r.sub.channel == c && Admitted(cfg, s, r.id, r.sub)
    && IsPresence(c) && ChannelSockets(s, c) == {r.id}
  }

  /** The only subscriber of a presence channel, one without presence data, leaves it. */
  predicate LeavesSilently(s: State, id: SocketId, c: ChannelName)
    requires id in s.sockets
  {
    && c in s.sockets[id].subscribed && IsPresence(c) && c !in s.sockets[id].presence
    && ChannelSockets(s, c) == {id}
  }

  predicate VacatesSilently(s: State, r: Request, c: ChannelName)
    requires Enabled(s, r)
  {
    match r
    case Unsubscribing(id, c') => c' == c && LeavesSilently(s, id, c)
    case SigningIn(id, tokenOk, user, _) => !tokenOk && user != "" && LeavesSilently(s, id, c)
    case Closing(id, _) => LeavesSilently(s, id, c)
    case _ => false
  }

  /** The last socket of user u in channel c subscribes to it again under another user id. */
  predicate AbandonsUser(cfg: Config, s: State, r: Request, c: ChannelName, u: UserId)
    requires Enabled(s, r)
  {
    && r.Subscribing? && r.sub.channel == c && Admitted(cfg, s, r.id, r.sub) && IsPresence(c)
    && LastOfUser(s, r.id, c) && s.sockets[r.id].presence[c].userId == u
    && r.sub.member.userId != "" && r.sub.member.userId != u
  }

  /** The requests after which the events about a topic are wrong. */
  predicate Misinforms(cfg: Config, s: State, r: Request, t: Topic)
    requires Enabled(s, r)
  {
    match t
    case Occupancy(_, c) => Reoccupies(cfg, s, r, c) || VacatesSilently(s, r, c)
    case Membership(_, c, u) => AbandonsUser(cfg, s, r, c, u)
  }

  /** The history of a topic grew by `turn`, which follows the change of the topic, and misleads just if `bad`. */
  ghost predicate Moves(app: AppId, s: State, r: State, t: Topic, turn: seq<bool>, bad: bool) {
    && Turns(app, r.emitted, t) == Turns(app, s.emitted, t) + turn
    && Follows(turn, Holds(s, t), Holds(r, t))
    && (Misleads(turn, Holds(s, t), Holds(r, t)) <==> bad)
  }

  lemma StaysPut(app: AppId, s: State, r: State, t: Topic)
    requires r.emitted == s.emitted && (Holds(r, t) <==> Holds(s, t))
    ensures Moves(app, s, r, t, [], false)
  {
  }

  /** The joins after which the events about t are wrong. */
  predicate JoinMisleads(s: State, id: SocketId, sub: Subscription, t: Topic)
    requires id in s.sockets
  {
    t.channel == sub.channel && IsPresence(sub.channel) &&
    match t
    case Occupancy(_, c) => ChannelSockets(s, c) == {id}
    case Membership(_, c, u) =>
      && sub.member.userId != "" && sub.member.userId != u
      && LastOfUser(s, id, c) && s.sockets[id].presence[c].userId == u
  }

  lemma JoinMoves(app: AppId, s: State, r: State, id: SocketId, sub: Subscription, t: Topic)
    requires Grounded(s) && id in s.sockets && t.app == app && JoinRel(s, r, id, sub)
    requires r.emitted == s.emitted + JoinHooks(s, id, sub)
    ensures Moves(app, s, r, t, JoinTurn(s, id, sub, t), JoinMisleads(s, id, sub, t))
  {
    TurnsConcat(app, s.emitted, JoinHooks(s, id, sub), t);
    TurnsOfJoin(app, s, id, sub, t);
    if t.channel != sub.channel {
      MembersAfterJoining(s, r, id, sub);
      SameAtHolds(s, r, t);
    } else {
      JoinShape(s, r, id, sub, t);
    }
  }

  lemma JoinShape(s: State, r: State, id: SocketId, sub: Subscription, t: Topic)
    requires Grounded(s) && id in s.sockets && JoinRel(s, r, id, sub) && t.channel == sub.channel
    ensures Follows(JoinTurn(s, id, sub, t), Holds(s, t), Holds(r, t))
    ensures Misleads(JoinTurn(s, id, sub, t), Holds(s, t), Holds(r, t)) <==> JoinMisleads(s, id, sub, t)
  {
    MembersAfterJoining(s, r, id, sub);
    match t
    case Occupancy(_, _) => JoinOccupies(s, id, sub.channel);
    case Membership(_, _, u) => JoinAdds(s, id, sub, u, u in MemberIds(r, sub.channel));
  }

  /** Whether a join announces user u, and whether that misleads. */
  lemma JoinAdds(s: State, id: SocketId, sub: Subscription, u: UserId, after: bool)
    requires Held(s) && id in s.sockets
    requires after <==>
      if IsPresence(sub.channel) && sub.member.userId != ""
      then u in OtherMembers(s, id, sub.channel) + {sub.member.userId}
      else u in MemberIds(s, sub.channel)
    ensures var c, v := sub.channel, sub.member.userId;
      var turn, was := When(NewMember(s, id, sub) && u == v, true), u in MemberIds(s, c);
      && Follows(turn, was, after)
      && (Misleads(turn, was, after) <==>
            IsPresence(c) && v != "" && v != u && LastOfUser(s, id, c) && s.sockets[id].presence[c].userId == u)
  {
    MembersOnEntering(s, id, sub);
    OwnAndOthers(s, id, sub.channel);
    hide MemberIds, OtherMembers, IsPresence, EnterChannel;
  }

  /** Whether a join is a first connection. */
  lemma JoinOccupies(s: State, id: SocketId, c: ChannelName)
    requires ListedSubscribe(s) && id in s.sockets
    ensures BecomesOnly(s, id, c) <==> ChannelSockets(s, c) == {} || (IsPresence(c) && ChannelSockets(s, c) == {id})
  {
    CacheFlagsAgree(c);
    var s1 := s.(channels := Append(s.channels, c, id));
    if IsPresence(c) {
      assert ChannelSockets(s1, c) == ChannelSockets(s, c) + {id};
      SingletonIs(ChannelSockets(s1, c), id);
    } else if Listed(s.channels, c) != [] {
      assert s.channels[c][0] in ChannelSockets(s, c);
    }
  }

  lemma SingletonIs<T>(a: set<T>, x: T)
    requires x in a
    ensures |a| == 1 <==> a == {x}
  {
    if |a| == 1 { assert |a - {x}| == 0; }
  }

  /** A leave moves only the topics of its channel; a leave of an unsubscribed channel moves none. */
  lemma LeaveShape(s: State, id: SocketId, c: ChannelName, t: Topic, after: bool)
    requires Grounded(s) && id in s.sockets && c in s.sockets[id].subscribed && t.channel == c
    requires after <==> match t
      case Occupancy(_, _) => ChannelSockets(s, c) - {id} != {}
      case Membership(_, _, u) => u in OtherMembers(s, id, c)
    ensures Follows(LeaveTurn(s, id, c, t), Holds(s, t), after)
    ensures Misleads(LeaveTurn(s, id, c, t), Holds(s, t), after) <==> t.Occupancy? && LeavesSilently(s, id, c)
  {
    OwnAndOthers(s, id, c);
    assert c in s.sockets[id].presence || !IsPresence(c) ==> id in ChannelSockets(s, c);
    assert ChannelSockets(s, c) <= {id} <==> ChannelSockets(s, c) - {id} == {};
  }

  lemma LeaveMoves(app: AppId, s: State, r: State, id: SocketId, c: ChannelName, t: Topic)
    requires Grounded(s) && id in s.sockets && c in s.sockets[id].subscribed && t.app == app && LeaveRel(s, r, id, c)
    requires r.emitted == s.emitted + LeaveHooks(s, id, c)
    ensures Moves(app, s, r, t, LeaveTurn(s, id, c, t), t.Occupancy? && t.channel == c && LeavesSilently(s, id, c))
  {
    TurnsConcat(app, s.emitted, LeaveHooks(s, id, c), t);
    TurnsOfLeave(app, s, id, c, t);
    MembersAfterLeaving(s, r, id, c);
    if t.channel != c { SameAtHolds(s, r, t); } else { LeaveShape(s, id, c, t, Holds(r, t)); }
  }

  /** What leaving several channels did, seen from one topic. */
  ghost predicate LeftSeveral(app: AppId, s: State, r: State, id: SocketId, t: Topic, left: bool)
    requires id in s.sockets
  {
    && Grounded(r) && id in r.sockets
    && (!left ==> SameAt(s, r, t.channel))
    && Turns(app, r.emitted, t) == Turns(app, s.emitted, t) + (if left then LeaveTurn(s, id, t.channel, t) else [])
  }

  /** Leaving several channels adds to the history of a topic what leaving its channel alone would. */
  lemma {:induction false} LeaveAllTurns(app: AppId, s: State, id: SocketId, order: seq<ChannelName>, t: Topic)
    requires Grounded(s) && id in s.sockets && NoRepeats(order) && t.app == app
    ensures LeftSeveral(app, s, LeaveAll(s, id, order), id, t, t.channel in order)
  {
    if order != [] {
      var init, last := order[..|order| - 1], order[|order| - 1];
      InLastOrInit(order, t.channel);
      assert NoRepeats(init) && last !in init;
      LeaveAllTurns(app, s, id, init, t);
      LeftOneMore(app, s, LeaveAll(s, id, init), id, t, t.channel in init, last);
    }
  }

  lemma LeftOneMore(app: AppId, s: State, mid: State, id: SocketId, t: Topic, left: bool, c: ChannelName)
    requires id in s.sockets && t.app == app && LeftSeveral(app, s, mid, id, t, left) && (left ==> c != t.channel)
    ensures LeftSeveral(app, s, LeaveChannel(mid, id, c), id, t, left || c == t.channel)
  {
    hide LeaveChannel, Turns, Grounded, SameAt, Vacates, LastOfUser;
    LeaveOneMore(app, mid, id, c, t);
    if !left {
      SameAtHolds(s, mid, t);
      if c != t.channel { SameAtTrans(s, mid, LeaveChannel(mid, id, c), t.channel); }
    }
  }

  lemma InLastOrInit(order: seq<ChannelName>, c: ChannelName)
    requires order != []
    ensures c in order <==> c in order[..|order| - 1] || c == order[|order| - 1]
  {
    assert order == order[..|order| - 1] + [order[|order| - 1]];
  }

  lemma SameAtTrans(a: State, b: State, d: State, c: ChannelName)
    requires SameAt(a, b, c) && SameAt(b, d, c)
    ensures SameAt(a, d, c)
  {
  }

  lemma LeaveOneMore(app: AppId, s: State, id: SocketId, c: ChannelName, t: Topic)
    requires Grounded(s) && id in s.sockets && t.app == app
    ensures var r := LeaveChannel(s, id, c);
      && Grounded(r) && (t.channel != c ==> SameAt(s, r, t.channel))
      && Turns(app, r.emitted, t) == Turns(app, s.emitted, t) + LeaveTurn(s, id, c, t)
  {
    var r := LeaveChannel(s, id, c);
    LeaveCore(s, id, c);
    LeaveGrounded(s, r, id, c);
    LeaveEmits(s, id, c);
    TurnsConcat(app, s.emitted, LeaveHooks(s, id, c), t);
    TurnsOfLeave(app, s, id, c, t);
    MembersAfterLeaving(s, r, id, c);
  }

  /** What closing adds to the history of a topic. */
  function CloseTurn(s: State, id: SocketId, t: Topic): seq<bool>
    requires id in s.sockets
  {
    if t.channel in s.sockets[id].subscribed then LeaveTurn(s, id, t.channel, t) else []
  }

  lemma CloseMoves(app: AppId, s: State, id: SocketId, order: seq<ChannelName>, t: Topic)
    requires Grounded(s) && id in s.sockets && Enumerates(order, s.sockets[id].subscribed) && t.app == app
    ensures var silent := t.Occupancy? && LeavesSilently(s, id, t.channel);
      Moves(app, s, CloseSocket(s, id, order), t, CloseTurn(s, id, t), silent)
  {
    var r, c := CloseSocket(s, id, order), t.channel;
    LeaveAllTurns(app, s, id, order, t);
    CloseCore(s, id, order);
    MembersAfterClosing(s, r, id, c);
    OwnAndOthers(s, id, c);
    if c in s.sockets[id].subscribed {
      LeaveShape(s, id, c, t, Holds(r, t));
    } else {
      assert id !in ChannelSockets(s, c);
      assert c !in s.sockets[id].presence;
      assert ChannelSockets(s, c) - {id} == ChannelSockets(s, c);
    }
  }

  function StepTurn(cfg: Config, s: State, r: Request, t: Topic): seq<bool>
    requires Enabled(s, r)
  {
    match r
    case Subscribing(id, sub) => if Admitted(cfg, s, id, sub) then JoinTurn(s, id, sub, t) else []
    case Unsubscribing(id, c) => if c in s.sockets[id].subscribed then LeaveTurn(s, id, c, t) else []
    case SigningIn(id, tokenOk, user, _) => if user != "" && !tokenOk then CloseTurn(s, id, t) else []
    case Closing(id, _) => CloseTurn(s, id, t)
    case _ => []
  }

  lemma SubscribingMoves(app: AppId, cfg: Config, s: State, id: SocketId, sub: Subscription, t: Topic)
    requires Grounded(s) && id in s.sockets && t.app == app
    ensures var r := Subscribing(id, sub);
      Moves(app, s, Step(cfg, s, r), t, StepTurn(cfg, s, r, t), Misinforms(cfg, s, r, t))
  {
    var r := Subscribing(id, sub);
    SubscribingCore(cfg, s, id, sub);
    if Admitted(cfg, s, id, sub) {
      AdmittedEmits(cfg, s, id, sub);
      JoinMoves(app, s, Step(cfg, s, r), id, sub, t);
      hide Moves, Step, Admitted, Grounded, JoinHooks, JoinTurn, LastOfUser, IsPresence, ChannelSockets, JoinRel;
    } else {
      NotAdmittedEmits(cfg, s, id, sub);
      SameAtHolds(s, Step(cfg, s, r), t);
      StaysPut(app, s, Step(cfg, s, r), t);
    }
  }

  lemma AdmittedEmits(cfg: Config, s: State, id: SocketId, sub: Subscription)
    requires id in s.sockets && Admitted(cfg, s, id, sub)
    ensures Step(cfg, s, Subscribing(id, sub)).emitted == s.emitted + JoinHooks(s, id, sub)
  {
    JoinEmits(s, id, sub);
    hide JoinChannel, JoinHooks, CreateChannel, MemberIds, ValidName, AdmissionAt;
  }

  lemma NotAdmittedEmits(cfg: Config, s: State, id: SocketId, sub: Subscription)
    requires id in s.sockets && !Admitted(cfg, s, id, sub)
    ensures Step(cfg, s, Subscribing(id, sub)).emitted == s.emitted
  {
    hide CreateChannel, MemberIds, ValidName;
  }

  lemma UnsubscribingMoves(app: AppId, cfg: Config, s: State, id: SocketId, c: ChannelName, t: Topic)
    requires Grounded(s) && id in s.sockets && t.app == app
    ensures var r := Unsubscribing(id, c);
      Moves(app, s, Step(cfg, s, r), t, StepTurn(cfg, s, r, t), Misinforms(cfg, s, r, t))
  {
    var s' := Step(cfg, s, Unsubscribing(id, c));
    UnsubscribingCore(cfg, s, id, c);
    if c in s.sockets[id].subscribed {
      LeaveEmits(s, id, c);
      LeaveMoves(app, s, s', id, c, t);
    } else {
      SameAtHolds(s, s', t);
      StaysPut(app, s, s', t);
    }
  }

  lemma SigningInMoves(app: AppId, cfg: Config, s: State, id: SocketId, tokenOk: bool, user: UserId,
                       order: seq<ChannelName>, t: Topic)
    requires Grounded(s) && Enabled(s, SigningIn(id, tokenOk, user, order)) && t.app == app
    ensures var r := SigningIn(id, tokenOk, user, order);
      Moves(app, s, Step(cfg, s, r), t, StepTurn(cfg, s, r, t), Misinforms(cfg, s, r, t))
  {
    var r := SigningIn(id, tokenOk, user, order);
    SigningInCore(cfg, s, id, tokenOk, user, order);
    if user != "" && !tokenOk {
      hide Moves, CloseSocket, LeavesSilently, CloseTurn, Grounded;
      CloseMoves(app, s, id, order, t);
      assert Step(cfg, s, r) == CloseSocket(s, id, order);
    } else {
      SignedInSame(s, Step(cfg, s, r), id, user, t);
      hide Step, Grounded, LeavesSilently;
      StaysPut(app, s, Step(cfg, s, r), t);
    }
  }

  lemma SignedInSame(s: State, r: State, id: SocketId, user: UserId, t: Topic)
    requires id in s.sockets && (SameCore(s, r) || SigninRel(s, r, id, user))
    ensures Holds(r, t) <==> Holds(s, t)
  {
    SameAtHolds(s, r, t);
  }

  lemma ConnectHolds(cfg: Config, s: State, id: SocketId, t: Topic)
    requires ListedSubscribe(s)
    ensures Holds(AddSocket(cfg, s, id), t) <==> Holds(s, t)
  {
    var r := AddSocket(cfg, s, id);
    assert ChannelSockets(r, t.channel) == ChannelSockets(s, t.channel);
    assert forall j | j in s.sockets :: r.sockets[j] == s.sockets[j];
    assert MemberIds(r, t.channel) == MemberIds(s, t.channel);
  }

  /** Every request moves every topic, and misinforms about it exactly as named. */
  lemma StepMoves(app: AppId, cfg: Config, s: State, r: Request, t: Topic)
    requires Grounded(s) && Enabled(s, r) && t.app == app
    ensures Moves(app, s, Step(cfg, s, r), t, StepTurn(cfg, s, r, t), Misinforms(cfg, s, r, t))
  {
    match r
    case Connect(id) =>
      ConnectHolds(cfg, s, id, t);
      StaysPut(app, s, AddSocket(cfg, s, id), t);
    case Subscribing(id, sub) => SubscribingMoves(app, cfg, s, id, sub, t);
    case Unsubscribing(id, c) => UnsubscribingMoves(app, cfg, s, id, c, t);
    case SigningIn(id, tokenOk, user, order) => SigningInMoves(app, cfg, s, id, tokenOk, user, order, t);
    case Closing(id, order) => CloseMoves(app, s, id, order, t);
    case Compacting =>
      CompactIsIdentity(s);
      SameAtHolds(s, CompactMaps(s), t);
      StaysPut(app, s, CompactMaps(s), t);
  }

  // ---------- when the events tell the truth ----------

  /** The events about a topic alternate, starting with "on", and the last one says how things are. */
  ghost predicate Told(app: AppId, s: State, t: Topic) {
    Truthful(Turns(app, s.emitted, t), Holds(s, t))
  }

  /** A request keeps the events about a topic truthful unless, and only unless, it misinforms about that very topic. */
  lemma TopicStep(app: AppId, cfg: Config, s: State, r: Request, t: Topic)
    requires Grounded(s) && Enabled(s, r) && t.app == app && Told(app, s, t)
    ensures Told(app, Step(cfg, s, r), t) <==> !Misinforms(cfg, s, r, t)
  {
    var s' := Step(cfg, s, r);
    StepMoves(app, cfg, s, r, t);
    TurnFollows(Turns(app, s.emitted, t), Holds(s, t), StepTurn(cfg, s, r, t), Holds(s', t));
    hide Holds, Turns, StepTurn, Misinforms, Step, Truthful, Balance;
  }

  /** Occupied and vacated events of a channel: resubscribing to it alone, or leaving it alone without presence data. */
  lemma OccupancyStep(app: AppId, cfg: Config, s: State, r: Request, c: ChannelName)
    requires Grounded(s) && Enabled(s, r)
    requires Truthful(Turns(app, s.emitted, Topic.Occupancy(app, c)), c in s.channels)
    ensures var s' := Step(cfg, s, r);
      (Truthful(Turns(app, s'.emitted, Topic.Occupancy(app, c)), c in s'.channels)
       <==> !Reoccupies(cfg, s, r, c) && !VacatesSilently(s, r, c))
  {
    OccupiedIsListed(s, c);
    GroundedStep(cfg, s, r);
    OccupiedIsListed(Step(cfg, s, r), c);
    TopicStep(app, cfg, s, r, Topic.Occupancy(app, c));
  }

  /** Added and removed events of a user in a channel, however many sockets the user has there. */
  lemma MemberEventsStep(app: AppId, cfg: Config, s: State, r: Request, c: ChannelName, u: UserId)
    requires Grounded(s) && Enabled(s, r)
    requires Truthful(Turns(app, s.emitted, Topic.Membership(app, c, u)), u in MemberIds(s, c))
    ensures var s' := Step(cfg, s, r);
      Truthful(Turns(app, s'.emitted, Topic.Membership(app, c, u)), u in MemberIds(s', c)) <==>
        !AbandonsUser(cfg, s, r, c, u)
  {
    TopicStep(app, cfg, s, r, Topic.Membership(app, c, u));
  }

  // ---------- whole runs ----------

  /** How many requests of the run misinformed about t. */
  function Misinformations(cfg: Config, rs: seq<Request>, t: Topic): nat {
    if rs == [] then 0
    else
      var s, r := Run(cfg, rs[..|rs| - 1]), rs[|rs| - 1];
      Misinformations(cfg, rs[..|rs| - 1], t) + (if Enabled(s, r) && Misinforms(cfg, s, r, t) then 1 else 0)
  }

  /** Events about a topic: how often "on" was announced more than "off", compared with how things are. */
  function Excess(app: AppId, s: State, t: Topic): int {
    Balance(Turns(app, s.emitted, t)) - AsInt(Holds(s, t))
  }

  lemma ExcessStep(app: AppId, cfg: Config, s: State, r: Request, t: Topic)
    requires Grounded(s) && Enabled(s, r) && t.app == app
    ensures Excess(app, Step(cfg, s, r), t) == Excess(app, s, t) + (if Misinforms(cfg, s, r, t) then 1 else 0)
  {
    StepMoves(app, cfg, s, r, t);
    TurnFollows(Turns(app, s.emitted, t), Holds(s, t), StepTurn(cfg, s, r, t), Holds(Step(cfg, s, r), t));
    hide Holds, Turns, StepTurn, Misinforms, Step, Truthful, Balance;
  }

  lemma NothingTold(app: AppId, t: Topic)
    ensures Told(app, EMPTY, t) && Excess(app, EMPTY, t) == 0
  {
    assert ChannelSockets(EMPTY, t.channel) == {} && MemberIds(EMPTY, t.channel) == {};
  }

  lemma ToldHasNoExcess(app: AppId, s: State, t: Topic)
    requires Told(app, s, t)
    ensures Excess(app, s, t) == 0
  {
    TruthfulBalances(Turns(app, s.emitted, t), Holds(s, t));
  }

  /** In every run, "on" was announced for a topic more often than "off" by one for each request that misinformed about
      that very topic, and one more if it is on. Hence the events about it alternate and end with the truth if and only
      if there was no such request: what happens on other channels and to other users does not matter, and events that
      went wrong once never come right again. */
  lemma {:induction false} RunTells(app: AppId, cfg: Config, rs: seq<Request>, t: Topic)
    requires t.app == app
    ensures Excess(app, Run(cfg, rs), t) == Misinformations(cfg, rs, t)
    ensures Told(app, Run(cfg, rs), t) <==> Misinformations(cfg, rs, t) == 0
  {
    if rs == [] {
      NothingTold(app, t);
    } else {
      var s, r := Run(cfg, rs[..|rs| - 1]), rs[|rs| - 1];
      RunTells(app, cfg, rs[..|rs| - 1], t);
      RunKeepsGround(cfg, rs[..|rs| - 1]);
      if Enabled(s, r) {
        ExcessStep(app, cfg, s, r, t);
        if Told(app, s, t) { TopicStep(app, cfg, s, r, t); }
      }
    }
    hide Excess, Told, Misinforms, Step;
    if Told(app, Run(cfg, rs), t) { ToldHasNoExcess(app, Run(cfg, rs), t); }
  }
}
