/** Who gets into a channel, and what that makes of the channel lists and of the sockets' identities over whole runs:
    said of names, signatures and numbers, not of the functions that decide (internal/channels.go,
    internal/websocket.go). */
module Admissions {
  import opened Wrappers
  import opened Names
  import opened Membership
  import opened MembershipCore
  import opened MembershipIndex
  import opened ClusterMembership

  // ---------- what a request must meet ----------

  /** Channels that need a signature. */
  predicate IsGuarded(c: ChannelName) {
    "private-" <= c || "presence-" <= c || "#server-to-user-" <= c
  }

  /** The subscriber is let in when the adapter counts `memberCount` members. */
  predicate MayJoin(cfg: Config, sock: Socket, sub: Subscription, memberCount: int) {
    var c := sub.channel;
    && !sub.closing
    && (sock.userId == "" || c != "#server-to-user-" + sock.userId)
    && ValidName(c, cfg.maxNameLength)
    && (IsGuarded(c) ==> sub.authOk)
    && ("presence-" <= c ==>
          && (cfg.maxMembers <= 0 || memberCount < cfg.maxMembers)
          && sub.dataLength < 1024 * (cfg.maxMemberKb + 1))
  }

  /** The checks of a join: a signature where one is needed, and for a presence channel room and a size limit. */
  lemma JoinedMeans(cfg: Config, sub: Subscription, memberCount: int)
    ensures AdmissionAt(cfg, memberCount, sub).Joined? <==>
      && ("private-" <= sub.channel || "presence-" <= sub.channel || "#server-to-user-" <= sub.channel ==> sub.authOk)
      && ("presence-" <= sub.channel ==>
            && (cfg.maxMembers <= 0 || memberCount < cfg.maxMembers)
            && sub.dataLength < 1024 * (cfg.maxMemberKb + 1))
  {
    hide CreateChannel;
    KindByPrefix(sub.channel);
  }

  lemma AdmissionMeans(cfg: Config, sock: Socket, sub: Subscription, memberCount: int)
    ensures MayJoin(cfg, sock, sub, memberCount) <==>
      && !sub.closing && !IsOwnUserChannel(sock, sub.channel) && ValidName(sub.channel, cfg.maxNameLength)
      && AdmissionAt(cfg, memberCount, sub).Joined?
  {
    hide ValidName, AdmissionAt;
    JoinedMeans(cfg, sub, memberCount);
  }

  /** On one node: a subscribe adds the socket to the channel if it meets the conditions, and otherwise changes nothing
      but the inbox of the socket. */
  lemma JoinsExactlyIf(cfg: Config, s: State, id: SocketId, sub: Subscription)
    requires id in s.sockets
    ensures var r, c := Step(cfg, s, Subscribing(id, sub)), sub.channel;
      if MayJoin(cfg, s.sockets[id], sub, |MemberIds(s, c)|) then
        && r.channels == s.channels[c := Listed(s.channels, c) + [id]]
        && id in r.sockets && c in r.sockets[id].subscribed
        && r.sockets[id].presence ==
             if "presence-" <= c && sub.member.userId != "" then s.sockets[id].presence[c := sub.member]
             else s.sockets[id].presence
      else SameCore(s, r)
  {
    hide Step, MayJoin, Admitted, CreateChannel, MemberIds, IsPresence;
    SubscribingCore(cfg, s, id, sub);
    AdmissionMeans(cfg, s.sockets[id], sub, |MemberIds(s, sub.channel)|);
    AdmittedIf(cfg, s, id, sub);
    PresenceByPrefix(sub.channel);
  }

  lemma AdmittedIf(cfg: Config, s: State, id: SocketId, sub: Subscription)
    requires id in s.sockets
    ensures Admitted(cfg, s, id, sub) <==> MayJoin(cfg, s.sockets[id], sub, |MemberIds(s, sub.channel)|)
  {
    hide MemberIds, ValidName, AdmissionAt, MayJoin;
    AdmissionMeans(cfg, s.sockets[id], sub, |MemberIds(s, sub.channel)|);
  }

  lemma PresenceByPrefix(c: ChannelName)
    ensures IsPresence(c) <==> "presence-" <= c
  {
    KindByPrefix(c);
    CacheFlagsAgree(c);
  }

  /** A presence channel admits while there is room, and only then: a signed, valid request with a user id makes the
      user a member if and only if the limit is not reached, or the user is a member already. */
  lemma RoomMeansAdmitted(cfg: Config, s: State, id: SocketId, sub: Subscription)
    requires id in s.sockets && "presence-" <= sub.channel && !sub.closing && sub.authOk && sub.member.userId != ""
    requires ValidName(sub.channel, cfg.maxNameLength) && sub.dataLength < 1024 * (cfg.maxMemberKb + 1)
    ensures var r, c, u := Step(cfg, s, Subscribing(id, sub)), sub.channel, sub.member.userId;
      && (u in MemberIds(r, c) <==> u in MemberIds(s, c) || cfg.maxMembers <= 0 || |MemberIds(s, c)| < cfg.maxMembers)
      && (id in Listed(r.channels, c) <==>
            id in Listed(s.channels, c) || cfg.maxMembers <= 0 || |MemberIds(s, c)| < cfg.maxMembers)
  {
    hide Step, ValidName;
    var r, c := Step(cfg, s, Subscribing(id, sub)), sub.channel;
    JoinsExactlyIf(cfg, s, id, sub);
    assert c[0] == 'p';
    if MayJoin(cfg, s.sockets[id], sub, |MemberIds(s, c)|) {
      SubscribingCore(cfg, s, id, sub);
      assert id in ChannelSockets(r, c);
    }
  }

  // ---------- on several nodes ----------

  /** The same for the sum of the members counted on all nodes; the other nodes never change. */
  lemma JoinsExactlyIfInCluster(cfg: Config, nodes: seq<State>, i: nat, id: SocketId, sub: Subscription)
    requires i < |nodes| && id in nodes[i].sockets
    ensures var r, c := ClusterStep(cfg, nodes, i, Subscribing(id, sub)), sub.channel;
      && OthersSame(nodes, r, i)
      && if MayJoin(cfg, nodes[i].sockets[id], sub, GatheredCount(nodes, c)) then
           && r[i].channels == nodes[i].channels[c := Listed(nodes[i].channels, c) + [id]]
           && id in r[i].sockets && c in r[i].sockets[id].subscribed
           && r[i].sockets[id].presence ==
                if "presence-" <= c && sub.member.userId != "" then nodes[i].sockets[id].presence[c := sub.member]
                else nodes[i].sockets[id].presence
         else SameCore(nodes[i], r[i])
  {
    hide ClusterStep, MayJoin, AdmittedInCluster, CreateChannel, GatheredCount, IsPresence;
    SubscribeInClusterCore(cfg, nodes, i, id, sub);
    AdmittedInClusterIf(cfg, nodes, i, id, sub);
    PresenceByPrefix(sub.channel);
  }

  lemma AdmittedInClusterIf(cfg: Config, nodes: seq<State>, i: nat, id: SocketId, sub: Subscription)
    requires i < |nodes| && id in nodes[i].sockets
    ensures AdmittedInCluster(cfg, nodes, i, id, sub) <==>
      MayJoin(cfg, nodes[i].sockets[id], sub, GatheredCount(nodes, sub.channel))
  {
    hide GatheredCount, ValidName, AdmissionAt, MayJoin;
    AdmissionMeans(cfg, nodes[i].sockets[id], sub, GatheredCount(nodes, sub.channel));
  }

  /** A presence channel of the cluster admits exactly while the gathered count is below the limit. */
  lemma RoomMeansAdmittedInCluster(cfg: Config, nodes: seq<State>, i: nat, id: SocketId, sub: Subscription)
    requires i < |nodes| && id in nodes[i].sockets
    requires "presence-" <= sub.channel && !sub.closing && sub.authOk && sub.member.userId != ""
    requires ValidName(sub.channel, cfg.maxNameLength) && sub.dataLength < 1024 * (cfg.maxMemberKb + 1)
    ensures var s, r := nodes[i], ClusterStep(cfg, nodes, i, Subscribing(id, sub))[i];
      var c, u := sub.channel, sub.member.userId;
      var room := cfg.maxMembers <= 0 || GatheredCount(nodes, c) < cfg.maxMembers;
      && (u in MemberIds(r, c) <==> u in MemberIds(s, c) || room)
      && (id in Listed(r.channels, c) <==> id in Listed(s.channels, c) || room)
  {
    hide ClusterStep, ValidName, GatheredCount;
    var s, r, c := nodes[i], ClusterStep(cfg, nodes, i, Subscribing(id, sub))[i], sub.channel;
    JoinsExactlyIfInCluster(cfg, nodes, i, id, sub);
    assert c[0] == 'p';
    if MayJoin(cfg, s.sockets[id], sub, GatheredCount(nodes, c)) {
      assert id in ChannelSockets(r, c);
    } else {
      assert MemberIds(r, c) == MemberIds(s, c);
    }
  }

  // ---------- who is listed, in any run ----------

  /** How often socket `id` got into c since it last left c or was closed. */
  function Admissions(cfg: Config, rs: seq<Request>, id: SocketId, c: ChannelName): nat {
    if rs == [] then 0
    else
      var s, before := Run(cfg, rs[..|rs| - 1]), Admissions(cfg, rs[..|rs| - 1], id, c);
      match rs[|rs| - 1]
      case Subscribing(j, sub) =>
        if j == id && sub.channel == c && id in s.sockets && MayJoin(cfg, s.sockets[id], sub, |MemberIds(s, c)|)
        then before + 1 else before
      case Unsubscribing(j, left) => if j == id && left == c then 0 else before
      case SigningIn(j, tokenOk, user, _) =>
        if j == id && !tokenOk && user != "" && Enabled(s, rs[|rs| - 1]) then 0 else before
      case Closing(j, _) => if j == id && Enabled(s, rs[|rs| - 1]) then 0 else before
      case _ => before
  }

  lemma {:induction false} CopiesWithout(ids: seq<SocketId>, x: SocketId, id: SocketId)
    ensures multiset(Without(ids, x))[id] == if x == id then 0 else multiset(ids)[id]
  {
    if ids != [] {
      assert ids == ids[..|ids| - 1] + [ids[|ids| - 1]];
      CopiesWithout(ids[..|ids| - 1], x, id);
    }
  }

  /** How often a socket stands in the list of a channel. */
  function Entries(lists: map<string, seq<SocketId>>, c: ChannelName, id: SocketId): nat {
    multiset(Listed(lists, c))[id]
  }

  lemma EntriesAfter(lists: map<string, seq<SocketId>>, key: string, x: SocketId, c: ChannelName, id: SocketId)
    ensures Entries(Append(lists, key, x), c, id) == Entries(lists, c, id) + (if key == c && x == id then 1 else 0)
    ensures Entries(Drop(lists, key, x), c, id) == if key == c && x == id then 0 else Entries(lists, c, id)
    ensures Entries(DropEverywhere(lists, x), c, id) == if x == id then 0 else Entries(lists, c, id)
    ensures Entries(NonEmpty(lists), c, id) == Entries(lists, c, id)
  {
    CopiesWithout(Listed(lists, c), x, id);
  }

  lemma NoEntries(lists: map<string, seq<SocketId>>, c: ChannelName, id: SocketId)
    requires id !in Listed(lists, c)
    ensures Entries(lists, c, id) == 0
  {
  }

  /** In every run a socket stands in the list of a channel as often as it was let in since it last left or closed. */
  lemma {:induction false} ListedAsAdmitted(cfg: Config, rs: seq<Request>, id: SocketId, c: ChannelName)
    ensures multiset(Listed(Run(cfg, rs).channels, c))[id] == Admissions(cfg, rs, id, c)
  {
    if rs != [] {
      var before, r := rs[..|rs| - 1], rs[|rs| - 1];
      ListedAsAdmitted(cfg, before, id, c);
      RunKeepsGround(cfg, before);
      assert rs == before + [r];
      RunNext(cfg, before, r);
      if Enabled(Run(cfg, before), r) { EntriesStep(cfg, Run(cfg, before), r, id, c); }
    }
  }

  lemma EntriesStep(cfg: Config, s: State, r: Request, id: SocketId, c: ChannelName)
    requires Grounded(s) && Enabled(s, r)
    ensures Entries(Step(cfg, s, r).channels, c, id) ==
      match r
      case Subscribing(j, sub) =>
        if j == id && sub.channel == c && MayJoin(cfg, s.sockets[id], sub, |MemberIds(s, c)|)
        then Entries(s.channels, c, id) + 1 else Entries(s.channels, c, id)
      case Unsubscribing(j, left) => if j == id && left == c then 0 else Entries(s.channels, c, id)
      case SigningIn(j, tokenOk, user, _) =>
        if j == id && !tokenOk && user != "" then 0 else Entries(s.channels, c, id)
      case Closing(j, _) => if j == id then 0 else Entries(s.channels, c, id)
      case _ => Entries(s.channels, c, id)
  {
    hide MayJoin, Entries, MemberIds;
    match r
    case Connect(j) =>
    case Subscribing(j, sub) =>
      JoinsExactlyIf(cfg, s, j, sub);
      EntriesAfter(s.channels, sub.channel, j, c, id);
    case Unsubscribing(j, left) =>
      UnsubscribingCore(cfg, s, j, left);
      EntriesAfter(s.channels, left, j, c, id);
      if left !in s.sockets[j].subscribed && j == id && left == c { NoEntries(s.channels, c, id); }
    case SigningIn(j, tokenOk, user, order) =>
      SigningInCore(cfg, s, j, tokenOk, user, order);
      EntriesAfter(s.channels, "", j, c, id);
    case Closing(j, order) =>
      CloseCore(s, j, order);
      EntriesAfter(s.channels, "", j, c, id);
    case Compacting => EntriesAfter(s.channels, "", "", c, id);
  }

  /** In every run whatsoever, whoever is listed under a private, presence or user channel got there by a request with a
      valid signature. */
  lemma {:induction false} ListedWithSignature(cfg: Config, rs: seq<Request>, id: SocketId, c: ChannelName)
    requires "private-" <= c || "presence-" <= c || "#server-to-user-" <= c
    requires id in Listed(Run(cfg, rs).channels, c)
    ensures exists i: nat ::
      i < |rs| && rs[i].Subscribing? && rs[i].id == id && rs[i].sub.channel == c && rs[i].sub.authOk
  {
    ListedAsAdmitted(cfg, rs, id, c);
    AdmittedWithSignature(cfg, rs, id, c);
  }

  lemma {:induction false} AdmittedWithSignature(cfg: Config, rs: seq<Request>, id: SocketId, c: ChannelName)
    requires IsGuarded(c) && Admissions(cfg, rs, id, c) > 0
    ensures exists i: nat ::
      i < |rs| && rs[i].Subscribing? && rs[i].id == id && rs[i].sub.channel == c && rs[i].sub.authOk
  {
    var before, last := rs[..|rs| - 1], rs[|rs| - 1];
    if !(last.Subscribing? && last.id == id && last.sub.channel == c && last.sub.authOk) {
      AdmittedWithSignature(cfg, before, id, c);
      var i: nat :| i < |before| && before[i].Subscribing? && before[i].id == id && before[i].sub.channel == c
        && before[i].sub.authOk;
      assert rs[i] == before[i];
    }
  }

  // ---------- identities ----------

  /** The request makes socket `id` an authorised one. */
  predicate Authorises(cfg: Config, s: State, r: Request, id: SocketId)
    requires id in s.sockets
  {
    match r
    case Subscribing(j, sub) =>
      j == id && IsGuarded(sub.channel) && MayJoin(cfg, s.sockets[id], sub, |MemberIds(s, sub.channel)|)
    case SigningIn(j, tokenOk, user, _) => j == id && tokenOk && user != ""
    case _ => false
  }

  /** The socket has authorised since it connected. */
  function Authorised(cfg: Config, rs: seq<Request>, id: SocketId): bool {
    if rs == [] then false
    else
      var s, before, r := Run(cfg, rs[..|rs| - 1]), Authorised(cfg, rs[..|rs| - 1], id), rs[|rs| - 1];
      id in s.sockets && (before || Authorises(cfg, s, r, id))
  }

  /** What one request makes of the identity of a socket: it is the user it signed in as, or, while it still has to
      authorise and is nobody, the user of the presence channel that authorises it; no other request touches it. */
  lemma IdentityStep(cfg: Config, s: State, r: Request, id: SocketId)
    requires Enabled(s, r) && id in s.sockets && id in Step(cfg, s, r).sockets
    ensures var sock, sock' := s.sockets[id], Step(cfg, s, r).sockets[id];
      && sock'.awaitingAuth == (sock.awaitingAuth && !Authorises(cfg, s, r, id))
      && sock'.userId ==
           if !Authorises(cfg, s, r, id) then sock.userId
           else if r.SigningIn? then r.user
           else if "presence-" <= r.sub.channel && sock.awaitingAuth && sock.userId == "" then r.sub.member.userId
           else sock.userId
  {
    hide MayJoin, Admitted, CreateChannel, MemberIds, IsPresence, AddSocket, CompactMaps, Subscribe, Unsubscribe,
         Signin, CloseSocket;
    match r
    case Connect(j) => ConnectMeans(cfg, s, j);
    case Subscribing(j, sub) =>
      SubscribingCore(cfg, s, j, sub);
      AdmittedIf(cfg, s, j, sub);
      KindByPrefix(sub.channel);
    case Unsubscribing(j, c) => UnsubscribingCore(cfg, s, j, c);
    case SigningIn(j, tokenOk, user, order) => SigningInCore(cfg, s, j, tokenOk, user, order);
    case Closing(j, order) => CloseCore(s, j, order);
    case Compacting => CompactKeeps(s);
  }

  lemma CompactKeeps(s: State)
    ensures CompactMaps(s).sockets == s.sockets
  {
  }

  /** A new socket is nobody, listens to nothing, has been told nothing, and has to authorise if the server asks for it;
      an id in use is left alone, and so is everything else. */
  lemma ConnectMeans(cfg: Config, s: State, id: SocketId)
    ensures var r := Step(cfg, s, Connect(id));
      && r.channels == s.channels && r.users == s.users && r.emitted == s.emitted
      && r.sockets == if id in s.sockets then s.sockets
           else s.sockets[id := Socket({}, map[], "", cfg.requireAuthorization, [])]
  {
  }

  /** In every run a socket still has to authorise exactly if the server asks for it and the socket, since it connected,
      was neither let into a channel that needs a signature nor signed in. */
  lemma {:induction false} AwaitsUntilAuthorised(cfg: Config, rs: seq<Request>, id: SocketId)
    requires id in Run(cfg, rs).sockets
    ensures Run(cfg, rs).sockets[id].awaitingAuth == (cfg.requireAuthorization && !Authorised(cfg, rs, id))
  {
    var before, r := rs[..|rs| - 1], rs[|rs| - 1];
    var s := Run(cfg, before);
    assert rs == before + [r];
    RunNext(cfg, before, r);
    hide Step, MayJoin;
    if id in s.sockets {
      AwaitsUntilAuthorised(cfg, before, id);
      if Enabled(s, r) { IdentityStep(cfg, s, r, id); }
    } else {
      OnlyConnectAdds(cfg, s, r, id);
    }
  }

  lemma OnlyConnectAdds(cfg: Config, s: State, r: Request, id: SocketId)
    requires Enabled(s, r) && id !in s.sockets && id in Step(cfg, s, r).sockets
    ensures r == Connect(id) && Step(cfg, s, r).sockets[id].awaitingAuth == cfg.requireAuthorization
  {
    match r
    case Connect(j) =>
    case Subscribing(j, sub) => SubscribingCore(cfg, s, j, sub);
    case Unsubscribing(j, c) => UnsubscribingCore(cfg, s, j, c);
    case SigningIn(j, tokenOk, user, order) => SigningInCore(cfg, s, j, tokenOk, user, order);
    case Closing(j, order) => CloseCore(s, j, order);
    case Compacting => CompactKeeps(s);
  }
}
