/** The request handlers of internal/websocket.go and internal/channels.go over the mutable namespace of one app,
    proved against the functions of Membership.dfy. */
module WebSocketHandlers {
  import opened Wrappers
  import opened Names
  import opened Membership
  import opened NamespaceClass
  import Cache
  import opened LocalCacheClass
  import I = MembershipCore
  import L = NamespaceLists
  import A = Admissions
  import R = Replies

  lemma ChannelKeepsItsName(c: ChannelName)
    ensures CreateChannel(c).name == c
  {
  }

  ghost predicate Visited(order: seq<ChannelName>, all: set<ChannelName>, todo: set<ChannelName>) {
    Enumerates(order, all - todo)
  }

  lemma LeaveNone(s: State, id: SocketId, all: set<ChannelName>)
    requires id in s.sockets
    ensures LeaveAll(s, id, []) == s && Visited([], all, all)
  {
  }

  lemma LeaveAllNext(s: State, id: SocketId, order: seq<ChannelName>, all: set<ChannelName>, todo: set<ChannelName>,
                     c: ChannelName)
    requires id in s.sockets && Visited(order, all, todo) && c in todo && c in all
    ensures LeaveAll(s, id, order + [c]) == LeaveChannel(LeaveAll(s, id, order), id, c)
    ensures Visited(order + [c], all, todo - {c})
  {
    assert (order + [c])[..|order|] == order;
    assert NoRepeats(order + [c]);
  }

  lemma EnumeratesAll(order: seq<ChannelName>, all: set<ChannelName>)
    requires Visited(order, all, {})
    ensures Enumerates(order, all)
  {
    assert all - {} == all;
  }

  lemma DeliverNone(s: State, m: Message)
    ensures DeliverAll(s, [], m) == s && DeliverEach(s, {}, m) == s
  {
    assert DeliverEach(s, {}, m).sockets == s.sockets;
  }

  lemma DeliverAllNext(s: State, ids: seq<SocketId>, i: nat, m: Message)
    requires i < |ids|
    ensures DeliverAll(s, ids[..i + 1], m) == Deliver(DeliverAll(s, ids[..i], m), ids[i], m)
  {
    assert ids[..i + 1][..i] == ids[..i];
  }

  ghost function Except(all: set<SocketId>, except: Option<SocketId>): set<SocketId> {
    all - (if except.Some? then {except.value} else {})
  }

  lemma TakeNone(all: set<SocketId>, except: Option<SocketId>)
    ensures Except(all - all, except) == {} && Except(all - {}, except) == Except(all, except)
  {
    assert all - {} == all;
  }

  lemma TakeOne(all: set<SocketId>, todo: set<SocketId>, except: Option<SocketId>, id: SocketId)
    requires id in todo && id in all
    ensures id !in Except(all - todo, except)
    ensures Except(all - (todo - {id}), except) ==
      Except(all - todo, except) + (if except == Some(id) then {} else {id})
  {
  }

  lemma DeliverEachNext(s: State, reached: set<SocketId>, id: SocketId, m: Message)
    requires id !in reached
    ensures DeliverEach(s, reached + {id}, m) == Deliver(DeliverEach(s, reached, m), id, m)
  {
  }

  lemma DepartureKeepsSockets(s: State, id: SocketId, c: ChannelName, user: UserId)
    ensures ChannelSockets(AnnounceDeparture(s, id, c, user), c) == ChannelSockets(s, c)
  {
    I.SendSameCore(Emit(s, UserRemoved(c, user)), c, MemberRemoved(c, user), id);
  }

  lemma {:induction false} LeaveAllKeepsUsers(s: State, id: SocketId, order: seq<ChannelName>)
    requires id in s.sockets
    ensures LeaveAll(s, id, order).users == s.users
  {
    if order != [] {
      var init := order[..|order| - 1];
      LeaveAllKeepsUsers(s, id, init);
      I.LeaveCore(LeaveAll(s, id, init), id, order[|order| - 1]);
    }
  }

  /** What the handlers of one app's sockets reach: the app's limits and namespace, the cache and the queue manager, and
      whether the server is shutting down. */
  class Server {
    const cfg: Config
    const app: AppId
    const ns: Namespace
    const cache: LocalCache
    var closing: bool
    var emitted: seq<Hook>

    constructor (cfg: Config, app: AppId, cache: LocalCache)
      ensures this.cfg == cfg && this.app == app && this.cache == cache && !closing
      ensures Valid() && View() == EMPTY && fresh(ns)
    {
      this.cfg, this.app, this.cache, closing := cfg, app, cache, false;
      ns := new Namespace();
      emitted := [];
    }

    /** What a subscribe request finds when it is handled at time `now`. */
    predicate Finds(sub: Subscription, now: int)
      reads this`closing, cache
    {
      sub.closing == closing && sub.cached == Cache.Lookup(cache.items, ChannelCacheKey(app, sub.channel), now)
    }

    /** Sockets are filed under their own ids, and the channel record kept for a subscription is the one its name
        determines. */
    ghost predicate Valid()
      reads this, ns, ns.sockets.Values
    {
      && ns.Valid()
      && forall id | id in ns.sockets :: ns.sockets[id].RecordsMatch()
    }

    function View(): State
      reads this, ns, ns.sockets.Values
    {
      ns.Index(emitted)
    }

    ghost predicate Registered(ws: WebSocket)
      reads this, ns
    {
      ws.id in ns.sockets && ns.sockets[ws.id] == ws
    }

    /** No socket is filed under two ids, so a change of one socket changes one entry of the view. */
    twostate lemma OnlyThisChanged(ws: WebSocket)
      requires Valid() && Registered(ws) && unchanged(this) && unchanged(ns)
      requires forall id | id in ns.sockets && id != ws.id :: unchanged(ns.sockets[id])
      ensures View() == old(View()).(sockets := old(View()).sockets[ws.id := ws.View()])
    {
    }

    // ---------- sending ----------

    method SendTo(ws: WebSocket, m: Message)
      requires Valid() && Registered(ws)
      modifies ws`inbox
      ensures Valid() && View() == Deliver(old(View()), ws.id, m)
    {
      ws.Send(m);
      OnlyThisChanged(ws);
    }

    /** LocalAdapter.Send. */
    method Send(c: ChannelName, m: Message, except: SocketId)
      requires Valid()
      modifies ns.sockets.Values
      ensures Valid() && View() == LocalSend(old(View()), c, m, except)
    {
      if IsUserChannel(c) {
        SendToUser(c[|USER_PREFIX|..], m);
      } else {
        SendToChannel(c, m, except);
      }
    }

    method FindUserSockets(user: UserId) returns (sockets: seq<WebSocket>, ghost ids: seq<SocketId>)
      requires Valid()
      ensures ids == UserSockets(View(), user) && |sockets| == |ids|
      ensures forall i | 0 <= i < |sockets| :: Registered(sockets[i]) && sockets[i].id == ids[i]
      ensures forall i | 0 <= i < |sockets| :: sockets[i] in ns.sockets.Values
    {
      sockets := ns.GetUserSockets(user);
      ids := UserSockets(ns.Index([]), user);
      assert ns.Index([]).sockets == View().sockets && ns.Index([]).users == View().users;
    }

    method FindChannelSockets(c: ChannelName, ghost except: SocketId) returns (sockets: map<SocketId, WebSocket>)
      requires Valid()
      ensures sockets.Keys == ChannelSockets(View(), c)
      ensures Recipients(View(), c, except) == Except(sockets.Keys, if except != "" then Some(except) else None)
      ensures sockets.Values <= ns.sockets.Values && forall id | id in sockets :: Filed(id, sockets[id])
    {
      sockets := ns.GetChannelSockets(c);
      SameMembers(c);
    }

    method SendToUser(user: UserId, m: Message)
      requires Valid()
      modifies ns.sockets.Values
      ensures Valid() && View() == DeliverAll(old(View()), UserSockets(old(View()), user), m)
    {
      hide *;
      ghost var s := View();
      var sockets, ids := FindUserSockets(user);
      DeliverNone(s, m);
      assert ids[..0] == [];
      for i := 0 to |sockets|
        invariant Valid() && View() == DeliverAll(s, ids[..i], m)
      {
        DeliverAllNext(s, ids, i, m);
        SendTo(sockets[i], m);
      }
      assert ids[..|sockets|] == ids;
    }

    method SendToChannel(c: ChannelName, m: Message, except: SocketId)
      requires Valid()
      modifies ns.sockets.Values
      ensures Valid() && View() == DeliverEach(old(View()), Recipients(old(View()), c, except), m)
    {
      hide *;
      var sockets := FindChannelSockets(c, except);
      SendToEach(sockets, if except != "" then Some(except) else None, m);
    }

    method SendToEach(sockets: map<SocketId, WebSocket>, except: Option<SocketId>, m: Message)
      requires Valid() && forall id | id in sockets :: Filed(id, sockets[id])
      modifies sockets.Values
      ensures Valid() && View() == DeliverEach(old(View()), Except(sockets.Keys, except), m)
    {
      ghost var s, all := View(), sockets.Keys;
      DeliverNone(s, m);
      TakeNone(all, except);
      hide *;
      var todo := sockets.Keys;
      while todo != {}
        invariant todo <= sockets.Keys
        invariant Valid() && View() == DeliverEach(s, Except(all - todo, except), m)
        decreases |todo|
      {
        var id :| id in todo;
        TakeOne(all, todo, except, id);
        if except != Some(id) {
          SendNext(id, sockets[id], m, s, Except(all - todo, except));
        }
        todo := todo - {id};
      }
    }

    method SendNext(id: SocketId, ws: WebSocket, m: Message, ghost s: State, ghost reached: set<SocketId>)
      requires Valid() && Filed(id, ws) && id !in reached && View() == DeliverEach(s, reached, m)
      modifies ws
      ensures Valid() && View() == DeliverEach(s, reached + {id}, m)
    {
      FiledSocket(id, ws);
      DeliverEachNext(s, reached, id, m);
      hide *;
      SendTo(ws, m);
    }

    ghost predicate Filed(id: SocketId, ws: WebSocket)
      reads this, ns
    {
      id in ns.sockets && ns.sockets[id] == ws
    }

    lemma FiledSocket(id: SocketId, ws: WebSocket)
      requires Valid() && Filed(id, ws)
      ensures Registered(ws) && ws.id == id && ws in ns.sockets.Values && id in View().sockets
    {
    }

    method Notify(h: Hook)
      requires Valid()
      modifies this`emitted
      ensures Valid() && View() == Emit(old(View()), h)
    {
      emitted := emitted + [h];
    }

    // ---------- joining ----------

    /** Channel.Join up to the point where the socket is listed. */
    method Join(ws: WebSocket, ch: Channel, sub: Subscription) returns (verdict: Verdict, connections: int)
      requires Valid() && Registered(ws) && ch == CreateChannel(sub.channel)
      modifies ns`channels
      ensures Valid() && verdict == Admission(cfg, old(View()), sub)
      ensures var c := sub.channel;
        verdict.Joined? <==>
          && ("private-" <= c || "presence-" <= c || "#server-to-user-" <= c ==> sub.authOk)
          && ("presence-" <= c ==>
                && (cfg.maxMembers <= 0 || |MemberIds(old(View()), c)| < cfg.maxMembers)
                && sub.dataLength < 1024 * (cfg.maxMemberKb + 1))
      ensures verdict.Refused? ==> View() == old(View())
      ensures verdict.Joined? ==> View() == old(View()).(channels := Append(old(View()).channels, sub.channel, ws.id))
      ensures verdict.Joined? ==> connections == ChannelConnections(View(), sub.channel)
    {
      A.JoinedMeans(cfg, sub, |MemberIds(View(), sub.channel)|);
      if ch.requiresAuth && !sub.authOk {
        return Refused("AuthError", SubscriptionAccessDenied), 0;
      }
      if ch.kind == Presence {
        verdict, connections := JoinPresence(ws, sub);
      } else {
        connections := AddToList(ws, sub.channel);
        verdict := Joined;
      }
    }

    method AddToList(ws: WebSocket, c: ChannelName) returns (count: int)
      requires Valid()
      modifies ns`channels
      ensures Valid() && View() == old(View()).(channels := Append(old(View()).channels, c, ws.id))
      ensures count == |Listed(View().channels, c)|
    {
      count := ns.AddToChannel(ws, c);
    }

    method JoinPresence(ws: WebSocket, sub: Subscription) returns (verdict: Verdict, connections: int)
      requires Valid() && Registered(ws)
      modifies ns`channels
      ensures Valid()
      ensures verdict ==
        if 0 < cfg.maxMembers <= |MemberIds(old(View()), sub.channel)| then Refused("LimitReached", OverCapacity)
        else if sub.dataLength >= 1024 * (cfg.maxMemberKb + 1) then Refused("LimitReached", ClientEventRejected)
        else Joined
      ensures verdict.Refused? ==> View() == old(View())
      ensures verdict.Joined? ==> View() == old(View()).(channels := Append(old(View()).channels, sub.channel, ws.id))
      ensures verdict.Joined? ==> connections == |ChannelSockets(View(), sub.channel)|
    {
      hide MemberIds, ChannelSockets, CreateChannel, Append, Valid, View;
      if cfg.maxMembers > 0 {
        var memberCount := ns.CountMembers(sub.channel);
        SameMembers(sub.channel);
        if memberCount + 1 > cfg.maxMembers {
          return Refused("LimitReached", OverCapacity), 0;
        }
      }
      if sub.dataLength / 1024 > cfg.maxMemberKb {
        return Refused("LimitReached", ClientEventRejected), 0;
      }
      var _ := AddToList(ws, sub.channel);
      var sockets := ns.GetChannelSockets(sub.channel);
      SameMembers(sub.channel);
      return Joined, |sockets.Keys|;
    }

    /** The queries do not look at what was emitted. */
    lemma SameMembers(c: ChannelName)
      ensures ChannelSockets(ns.Index([]), c) == ChannelSockets(View(), c)
      ensures MemberIds(ns.Index([]), c) == MemberIds(View(), c)
    {
      assert ChannelSockets(ns.Index([]), c) == ChannelSockets(View(), c);
    }

    /** SubscribedChannels, and the identity of a socket that still has to authenticate. */
    method TrackOnSocket(ws: WebSocket, ch: Channel, sub: Subscription)
      requires ch == CreateChannel(sub.channel) && ws.RecordsMatch()
      modifies ws
      ensures ws.RecordsMatch() && ws.View() == Track(old(ws.View()), sub)
    {
      ChannelKeepsItsName(sub.channel);
      hide CreateChannel;
      if ch.name !in ws.subscribedChannels {
        ws.subscribedChannels := ws.subscribedChannels[ch.name := ch];
      }
      assert ws.subscribedChannels.Keys == old(ws.subscribedChannels.Keys) + {sub.channel};
      var needsAuth := ch.requiresAuth && ws.awaitingAuth;
      if needsAuth {
        if ws.userId == "" && ch.kind == Presence && sub.member.userId != "" {
          ws.userId := sub.member.userId;
        }
        ws.awaitingAuth := false;
      }
    }

    method TrackSubscription(ws: WebSocket, ch: Channel, sub: Subscription)
      requires Valid() && Registered(ws) && ch == CreateChannel(sub.channel)
      modifies ws
      ensures Valid()
      ensures View() == old(View()).(sockets := old(View()).sockets[ws.id := Track(old(View()).sockets[ws.id], sub)])
    {
      hide Track, CreateChannel;
      TrackOnSocket(ws, ch, sub);
      OnlyThisChanged(ws);
    }

    /** handleSubscribeRequest. */
    method HandleSubscribe(ws: WebSocket, sub: Subscription, now: int) returns (error: Option<ErrorCode>)
      requires Valid() && Registered(ws) && Finds(sub, now)
      modifies this`emitted, ns`channels, ns.sockets.Values
      ensures Valid() && Outcome(View(), error) == Subscribe(cfg, old(View()), ws.id, sub)
    {
      assert ws.id in View().sockets && View().sockets[ws.id].userId == ws.userId;
      hide Deliver, AdmissionAt, ValidName, JoinChannel, Refuse, MemberIds, CreateChannel, View, Valid;
      if closing {
        return Some(GenericReconnect);
      }
      if ws.userId != "" && sub.channel == USER_PREFIX + ws.userId {
        SendTo(ws, SubscriptionSucceeded(sub.channel, None));
        return None;
      }
      if !ValidName(sub.channel, cfg.maxNameLength) {
        SendTo(ws, ErrorEvent(UnauthorizedConnection));
        return Some(InvalidChannel);
      }
      var ch := CreateChannel(sub.channel);
      ghost var s := View();
      var verdict, connections := Join(ws, ch, sub);
      if verdict.Refused? {
        error := SendRefusal(ws, sub.channel, verdict.reason, verdict.code);
        return;
      }
      Enter(ws, ch, sub, connections, s);
      error := FinishJoin(ws, ch, sub, now, s);
    }

    /** A socket that is listed under the channel becomes a tracked subscriber. */
    method Enter(ws: WebSocket, ch: Channel, sub: Subscription, connections: int, ghost s: State)
      requires Valid() && Registered(ws) && ch == CreateChannel(sub.channel) && ws.id in s.sockets
      requires View() == s.(channels := Append(s.channels, sub.channel, ws.id))
      requires connections == ChannelConnections(View(), sub.channel)
      modifies this`emitted, ws
      ensures Valid() && View() == EnterChannel(s, ws.id, sub)
    {
      hide CreateChannel, ChannelConnections, Track, View, Valid;
      TrackSubscription(ws, ch, sub);
      if connections == 1 {
        Notify(ChannelOccupied(sub.channel));
      }
    }

    method FinishJoin(ws: WebSocket, ch: Channel, sub: Subscription, now: int, ghost s: State)
      returns (error: Option<ErrorCode>)
      requires Valid() && Registered(ws) && ch == CreateChannel(sub.channel) && ws.id in s.sockets && Finds(sub, now)
      requires View() == EnterChannel(s, ws.id, sub)
      modifies this`emitted, ns.sockets.Values
      ensures Valid() && Outcome(View(), error) == JoinChannel(s, ws.id, sub)
    {
      assert ws.id in View().sockets;
      hide CreateChannel, EnterChannel, AnnounceMember, MemberIds, SendCache, Deliver, View, Valid;
      if ch.kind != Presence {
        SendTo(ws, SubscriptionSucceeded(sub.channel, None));
        SendCacheIfNeeded(ws, ch, sub, now);
        return None;
      }
      error := HandlePresenceSubscription(ws, ch, sub, now);
    }

    method SendRefusal(ws: WebSocket, c: ChannelName, reason: string, code: ErrorCode)
      returns (error: Option<ErrorCode>)
      requires Valid() && Registered(ws)
      modifies ws`inbox
      ensures Valid() && Outcome(View(), error) == Refuse(old(View()), ws.id, c, reason, code)
    {
      SendTo(ws, SubscriptionError(c, reason, code));
      if code == SubscriptionAccessDenied {
        SendTo(ws, SubscriptionError(c, "AuthError", code));
        return Some(SubscriptionAccessDenied);
      }
      SendTo(ws, SubscriptionError(c, "Unknown", code));
      return Some(GenericReconnect);
    }

    /** handlePresenceChannelSubscription, for a socket that has entered the channel. */
    method HandlePresenceSubscription(ws: WebSocket, ch: Channel, sub: Subscription, now: int)
      returns (error: Option<ErrorCode>)
      requires Valid() && Registered(ws) && ch == CreateChannel(sub.channel) && ws.id in View().sockets
      requires Finds(sub, now)
      modifies this`emitted, ns.sockets.Values
      ensures Valid()
      ensures var s1, c, v := old(View()), sub.channel, sub.member.userId;
        if v == "" then View() == s1 && error == Some(InvalidPayload)
        else
          && error == None
          && View() == SendCache(Deliver(AnnounceMember(s1, ws.id, sub, MemberIds(s1, c)), ws.id,
                                         SubscriptionSucceeded(c, Some(MemberIds(s1, c) + {v}))), ws.id, sub)
    {
      hide *;
      if sub.member.userId == "" {
        return Some(InvalidPayload);
      }
      var members := ns.GetChannelMembers(sub.channel);
      SameMembers(sub.channel);
      members := HandleMemberAdded(ws, sub, members);
      SendTo(ws, SubscriptionSucceeded(sub.channel, Some(members.Keys)));
      SendCacheIfNeeded(ws, ch, sub, now);
      return None;
    }

    /** Presence data is stored first; a user that is a member already is not announced again. */
    method HandleMemberAdded(ws: WebSocket, sub: Subscription, before: map<UserId, Member>)
      returns (members: map<UserId, Member>)
      requires Valid() && Registered(ws) && ws.id in View().sockets
      modifies this`emitted, ns.sockets.Values
      ensures Valid() && Registered(ws) && ws in ns.sockets.Values
      ensures View() == AnnounceMember(old(View()), ws.id, sub, before.Keys)
      ensures members.Keys == before.Keys + {sub.member.userId}
    {
      hide LocalSend, Emit, View, Valid;
      StorePresence(ws, sub);
      members := before;
      if sub.member.userId !in members {
        Notify(UserAdded(sub.channel, sub.member.userId));
        Send(sub.channel, MemberAdded(sub.channel, sub.member), ws.id);
        members := members[sub.member.userId := sub.member];
      }
    }

    method StorePresence(ws: WebSocket, sub: Subscription)
      requires Valid() && Registered(ws)
      modifies ws`presenceData
      ensures Valid()
      ensures var s, c := old(View()), sub.channel;
        View() ==
          s.(sockets := s.sockets[ws.id := s.sockets[ws.id].(presence := s.sockets[ws.id].presence[c := sub.member])])
    {
      ws.presenceData := ws.presenceData[sub.channel := sub.member];
      OnlyThisChanged(ws);
    }

    /** sendCacheIfNeeded: the cache is asked under the key of this channel of this app. */
    method SendCacheIfNeeded(ws: WebSocket, ch: Channel, sub: Subscription, now: int)
      requires Valid() && Registered(ws) && ch == CreateChannel(sub.channel) && Finds(sub, now)
      modifies this`emitted, ws`inbox
      ensures Valid() && View() == SendCache(old(View()), ws.id, sub)
    {
      hide CreateChannel, ChannelCacheKey, Cache.Lookup, View, Valid;
      if !ch.isCache {
        return;
      }
      var cachedData, found := cache.Get(ChannelCacheKey(app, sub.channel), now);
      if found {
        SendTo(ws, CachedEvent(cachedData));
      } else {
        SendTo(ws, CacheMiss);
        Notify(CacheMissed(sub.channel));
      }
    }

    // ---------- leaving ----------

    /** Channel.Leave. */
    method Leave(ws: WebSocket, ch: Channel) returns (remaining: int, member: Option<Member>)
      requires Valid() && Registered(ws) && NoEmptyList(ns.channels)
      modifies ns`channels
      ensures Valid() && NoEmptyList(ns.channels)
      ensures View() == old(View()).(channels := Drop(old(View()).channels, ch.name, ws.id))
      ensures remaining == |ChannelSockets(View(), ch.name)|
      ensures member ==
        if ch.kind == Presence && ch.name in ws.presenceData then Some(ws.presenceData[ch.name]) else None
    {
      RemoveFromList(ws, ch.name);
      var sockets := ns.GetChannelSockets(ch.name);
      SameMembers(ch.name);
      remaining := |sockets.Keys|;
      member := None;
      if ch.kind == Presence {
        member := ws.GetPresenceData(ch.name);
      }
    }

    method RemoveFromList(ws: WebSocket, c: ChannelName)
      requires Valid() && NoEmptyList(ns.channels)
      modifies ns`channels
      ensures Valid() && NoEmptyList(ns.channels)
      ensures View() == old(View()).(channels := Drop(old(View()).channels, c, ws.id))
    {
      var _ := ns.RemoveFromChannel(ws.id, [c]);
      DropManyOne(old(ns.channels), c, ws.id);
    }

    method UnsubscribeFromChannel(ws: WebSocket, ch: Channel)
      requires Valid() && Registered(ws) && ch == CreateChannel(ch.name) && NoEmptyList(ns.channels)
      modifies this`emitted, ns`channels, ns.sockets.Values
      ensures Valid() && NoEmptyList(ns.channels)
      ensures View() == LeaveChannel(old(View()), ws.id, ch.name)
    {
      var remaining, member := Leave(ws, ch);
      if ch.kind == Presence {
        ForgetPresence(ws, ch.name);
        if member == None {
          return;
        }
        AnnounceRemoval(ws, ch.name, member.value.userId);
      }
      FinishLeaving(ws, ch.name, remaining);
    }

    /** The user stays a member while another of its sockets is in the channel. */
    method AnnounceRemoval(ws: WebSocket, c: ChannelName, user: UserId)
      requires Valid() && Registered(ws)
      modifies this`emitted, ns.sockets.Values
      ensures Valid() && View() == AnnounceDeparture(old(View()), ws.id, c, user)
      ensures ChannelSockets(View(), c) == ChannelSockets(old(View()), c)
    {
      var members := ns.GetChannelMembers(c);
      SameMembers(c);
      if user !in members {
        Notify(UserRemoved(c, user));
        Send(c, MemberRemoved(c, user), ws.id);
      }
      DepartureKeepsSockets(old(View()), ws.id, c, user);
    }

    method FinishLeaving(ws: WebSocket, c: ChannelName, remaining: int)
      requires Valid() && Registered(ws) && remaining == |ChannelSockets(View(), c)|
      modifies this`emitted, ws`subscribedChannels
      ensures Valid() && View() == ForgetChannel(AnnounceVacancy(old(View()), c), ws.id, c)
    {
      if remaining == 0 {
        Notify(ChannelVacated(c));
      }
      ForgetSubscription(ws, c);
    }

    method ForgetPresence(ws: WebSocket, c: ChannelName)
      requires Valid() && Registered(ws)
      modifies ws`presenceData
      ensures Valid()
      ensures var s := old(View());
        View() == s.(sockets := s.sockets[ws.id := s.sockets[ws.id].(presence := s.sockets[ws.id].presence - {c})])
    {
      ws.presenceData := ws.presenceData - {c};
      OnlyThisChanged(ws);
    }

    method ForgetSubscription(ws: WebSocket, c: ChannelName)
      requires Valid() && Registered(ws)
      modifies ws`subscribedChannels
      ensures Valid() && View() == ForgetChannel(old(View()), ws.id, c)
    {
      ws.subscribedChannels := ws.subscribedChannels - {c};
      assert ws.subscribedChannels.Keys == old(ws.subscribedChannels).Keys - {c};
      OnlyThisChanged(ws);
    }

    method HandleUnsubscribe(ws: WebSocket, c: ChannelName) returns (error: Option<ErrorCode>)
      requires Valid() && Registered(ws) && NoEmptyList(ns.channels)
      modifies this`emitted, ns`channels, ns.sockets.Values
      ensures Valid() && NoEmptyList(ns.channels)
      ensures Outcome(View(), error) == Unsubscribe(old(View()), ws.id, c)
    {
      if c !in ws.subscribedChannels {
        return Some(InvalidPayload);
      }
      var ch := ws.subscribedChannels[c];
      ChannelKeepsItsName(c);
      UnsubscribeFromChannel(ws, ch);
      return None;
    }

    /** Visits the channels in some order, which it returns. */
    method UnsubscribeFromAllChannels(ws: WebSocket) returns (order: seq<ChannelName>)
      requires Valid() && Registered(ws) && NoEmptyList(ns.channels) && ws.id in View().sockets
      modifies this`emitted, ns`channels, ns.sockets.Values
      ensures Valid() && NoEmptyList(ns.channels)
      ensures Enumerates(order, old(ws.subscribedChannels).Keys)
      ensures View() == LeaveAll(old(View()), ws.id, order)
    {
      ghost var s, all := View(), ws.subscribedChannels.Keys;
      SubscriptionsKeepTheirNames(ws);
      LeaveNone(s, ws.id, all);
      hide *;
      var channels := ws.subscribedChannels;
      var todo := channels.Keys;
      order := [];
      while todo != {}
        invariant todo <= channels.Keys && Visited(order, all, todo)
        invariant Valid() && Registered(ws) && NoEmptyList(ns.channels)
        invariant View() == LeaveAll(s, ws.id, order)
        decreases |todo|
      {
        var c :| c in todo;
        UnsubscribeFromChannel(ws, channels[c]);
        LeaveAllNext(s, ws.id, order, all, todo, c);
        order := order + [c];
        todo := todo - {c};
      }
      EnumeratesAll(order, all);
    }

    lemma SubscriptionsKeepTheirNames(ws: WebSocket)
      requires Valid() && Registered(ws)
      ensures ws in ns.sockets.Values
      ensures forall c | c in ws.subscribedChannels ::
        CreateChannel(c) == ws.subscribedChannels[c] && ws.subscribedChannels[c].name == c
    {
      forall c | c in ws.subscribedChannels
        ensures CreateChannel(c) == ws.subscribedChannels[c] && ws.subscribedChannels[c].name == c
      {
        ChannelKeepsItsName(c);
      }
    }

    // ---------- opening, closing, signing in ----------

    method Connect(ws: WebSocket) returns (added: bool)
      requires Valid() && ws.View() == Socket({}, map[], "", cfg.requireAuthorization, [])
      modifies ns`sockets
      ensures Valid() && added == (ws.id !in old(ns.sockets)) && (added ==> Registered(ws))
      ensures View() == AddSocket(cfg, old(View()), ws.id)
    {
      added := ns.AddSocket(ws);
    }

    method CloseConnection(ws: WebSocket) returns (order: seq<ChannelName>)
      requires Valid() && Registered(ws) && NoEmptyList(ns.channels) && NoEmptyList(ns.users) && ws.id in View().sockets
      modifies this`emitted, ns, ns.sockets.Values
      ensures Valid() && ws.id !in ns.sockets && Enumerates(order, old(ws.subscribedChannels).Keys)
      ensures View() == CloseSocket(old(View()), ws.id, order)
    {
      order := UnsubscribeFromAllChannels(ws);
      LeaveAllKeepsUsers(old(View()), ws.id, order);
      assert ns.users == View().users == old(View()).users == old(ns.users);
      assert View().sockets[ws.id].userId == ws.userId;
      hide *;
      RemoveSocketAndUser(ws);
      Cleanup(ws);
    }

    method RemoveSocketAndUser(ws: WebSocket)
      requires Valid() && Registered(ws) && NoEmptyList(ns.channels) && NoEmptyList(ns.users)
      modifies ns
      ensures Valid() && ws.id !in ns.sockets && ns.sockets == old(ns.sockets) - {ws.id}
      ensures View() == Membership.RemoveUser(Membership.RemoveSocket(old(View()), ws.id), ws.id, ws.userId)
    {
      RemoveSocket(ws);
      ns.RemoveUser(ws);
    }

    method RemoveSocket(ws: WebSocket)
      requires Valid() && Registered(ws) && NoEmptyList(ns.channels) && NoEmptyList(ns.users)
      modifies ns
      ensures Valid() && ns.sockets == old(ns.sockets) - {ws.id} && NoEmptyList(ns.users)
      ensures View() == Membership.RemoveSocket(old(View()), ws.id)
    {
      ns.RemoveSocket(ws.id);
      assert View().sockets == old(View()).sockets - {ws.id};
    }

    /** The state of a socket that is filed nowhere any more. */
    method Cleanup(ws: WebSocket)
      requires Valid() && ws.id !in ns.sockets
      modifies ws
      ensures Valid() && View() == old(View())
    {
      ws.presenceData, ws.subscribedChannels, ws.userId := map[], map[], "";
      assert forall id | id in ns.sockets :: ns.sockets[id] != ws;
    }

    method HandleSignin(ws: WebSocket, tokenOk: bool, user: UserId)
      returns (error: Option<ErrorCode>, order: seq<ChannelName>)
      requires Valid() && Registered(ws) && NoEmptyList(ns.channels) && NoEmptyList(ns.users) && ws.id in View().sockets
      modifies this`emitted, ns, ns.sockets.Values
      ensures Valid() && (!tokenOk && user != "" ==> Enumerates(order, old(ws.subscribedChannels).Keys))
      ensures ws.id in ns.sockets ==> Registered(ws)
      ensures Outcome(View(), error) == Signin(old(View()), ws.id, tokenOk, user, order)
    {
      order := [];
      if user == "" {
        return Some(InvalidPayload), order;
      }
      if !tokenOk {
        order := CloseConnection(ws);
        return Some(UnauthorizedConnection), order;
      }
      SetUser(ws, user);
      ns.AddUser(ws);
      SendTo(ws, SigninSuccess);
      ClearAwaiting(ws);
      return None, order;
    }

    method SetUser(ws: WebSocket, user: UserId)
      requires Valid() && Registered(ws)
      modifies ws`userId
      ensures Valid() && ws.userId == user
      ensures var s := old(View()); View() == s.(sockets := s.sockets[ws.id := s.sockets[ws.id].(userId := user)])
    {
      ws.userId := user;
      OnlyThisChanged(ws);
    }

    method ClearAwaiting(ws: WebSocket)
      requires Valid() && Registered(ws)
      modifies ws`awaitingAuth
      ensures Valid()
      ensures var s := old(View());
        View() == s.(sockets := s.sockets[ws.id := s.sockets[ws.id].(awaitingAuth := false)])
    {
      ws.awaitingAuth := false;
      OnlyThisChanged(ws);
    }

    // ---------- the read loop ----------

    /** A failed request is answered with an error event; a socket that was closed meanwhile is filed nowhere. */
    method Reply(ws: WebSocket, error: Option<ErrorCode>)
      requires Valid() && (ws.id in ns.sockets ==> Registered(ws))
      modifies ws`inbox
      ensures Valid() && View() == Answer(Outcome(old(View()), error), ws.id)
    {
      if error.Some? {
        if ws.id in ns.sockets {
          SendTo(ws, ErrorEvent(error.value));
        }
      }
    }

    method OnSubscribe(ws: WebSocket, sub: Subscription, now: int)
      requires Valid() && Registered(ws) && ws.id in View().sockets && L.ListsInv(View()) && Finds(sub, now)
      modifies this`emitted, ns`channels, ns.sockets.Values
      ensures Valid() && View() == Step(cfg, old(View()), Subscribing(ws.id, sub)) && L.ListsInv(View())
      ensures var s, c := old(View()), sub.channel;
        match R.TurnedAway(cfg, s.sockets[ws.id], sub, |MemberIds(s, c)|)
        case Some(told) => View() == R.Told(s, ws.id, told)
        case None => View().channels == s.channels[c := Listed(s.channels, c) + [ws.id]]
    {
      R.TurnedAwayHere(cfg, View(), ws.id, sub);
      A.JoinsExactlyIf(cfg, View(), ws.id, sub);
      L.ListsStep(cfg, View(), Subscribing(ws.id, sub));
      RegisteredIsFiled(ws);
      hide Subscribe, Answer, View, Valid, L.ListsInv, R.TurnedAway, R.Told, A.MayJoin, MemberIds;
      var error := HandleSubscribe(ws, sub, now);
      Reply(ws, error);
    }

    method OnUnsubscribe(ws: WebSocket, c: ChannelName)
      requires Valid() && Registered(ws) && ws.id in View().sockets && L.ListsInv(View())
      modifies this`emitted, ns`channels, ns.sockets.Values
      ensures Valid() && View() == Step(cfg, old(View()), Unsubscribing(ws.id, c)) && L.ListsInv(View())
    {
      L.ListsStep(cfg, View(), Unsubscribing(ws.id, c));
      RegisteredIsFiled(ws);
      hide Unsubscribe, Answer, View, Valid, L.ListsInv;
      var error := HandleUnsubscribe(ws, c);
      Reply(ws, error);
    }

    method OnSignin(ws: WebSocket, tokenOk: bool, user: UserId) returns (order: seq<ChannelName>)
      requires Valid() && Registered(ws) && L.ListsInv(View())
      modifies this`emitted, ns, ns.sockets.Values
      ensures Valid() && Enabled(old(View()), SigningIn(ws.id, tokenOk, user, order))
      ensures View() == Step(cfg, old(View()), SigningIn(ws.id, tokenOk, user, order)) && L.ListsInv(View())
    {
      ghost var s := View();
      RegisteredIsFiled(ws);
      hide Signin, Answer, View, Valid, L.ListsInv;
      var error;
      error, order := HandleSignin(ws, tokenOk, user);
      Reply(ws, error);
      L.ListsStep(cfg, s, SigningIn(ws.id, tokenOk, user, order));
    }

    lemma RegisteredIsFiled(ws: WebSocket)
      requires Registered(ws)
      ensures ws in ns.sockets.Values && ws.id in View().sockets && View().sockets[ws.id] == ws.View()
      ensures View().sockets[ws.id].subscribed == ws.subscribedChannels.Keys && View().channels == ns.channels
      ensures View().users == ns.users
      ensures L.ListsInv(View()) ==> NoEmptyList(ns.channels) && NoEmptyList(ns.users)
    {
    }
  }
}
