/** The occupancy and member events of a whole cluster, per topic: exactly when they tell the truth about all nodes
    together. */
module ClusterEvents {
  import opened Wrappers
  import opened Names
  import opened Alternation
  import opened Membership
  import opened MembershipCore
  import opened MembershipIndex
  import opened MembershipEvents
  import opened ClusterMembership

  // ---------- members of the whole cluster ----------

  /** The members of a channel on the nodes other than i. */
  function Elsewhere(nodes: seq<State>, i: nat, c: ChannelName): set<UserId>
    requires i < |nodes|
  {
    ClusterMembers(nodes[i := EMPTY], c)
  }

  lemma HereAndElsewhere(nodes: seq<State>, i: nat, r: State, c: ChannelName)
    requires i < |nodes|
    ensures ClusterMembers(nodes[i := r], c) == Elsewhere(nodes, i, c) + MemberIds(r, c)
  {
    ClusterMembersAre(nodes[i := r], c);
    ClusterMembersAre(nodes[i := EMPTY], c);
    assert MemberIds(EMPTY, c) == {};
    hide MemberIds, ClusterMembers;
    forall u | u in ClusterMembers(nodes[i := r], c) ensures u in Elsewhere(nodes, i, c) || u in MemberIds(r, c) {
      var j :| 0 <= j < |nodes| && u in MemberIds(nodes[i := r][j], c);
      if j != i { assert u in MemberIds(nodes[i := EMPTY][j], c); }
    }
    forall u | u in Elsewhere(nodes, i, c) ensures u in ClusterMembers(nodes[i := r], c) {
      var j :| 0 <= j < |nodes| && u in MemberIds(nodes[i := EMPTY][j], c);
      assert u in MemberIds(nodes[i := r][j], c);
    }
    forall u | u in MemberIds(r, c) ensures u in ClusterMembers(nodes[i := r], c) {
      assert u in MemberIds(nodes[i := r][i], c);
    }
  }

  lemma SameCoreMembers(s: State, r: State, c: ChannelName)
    requires SameCore(s, r)
    ensures MemberIds(r, c) == MemberIds(s, c) && SameAt(s, r, c)
  {
    SameAtHolds(s, r, Topic.Occupancy("", c));
  }

  lemma {:induction false} SameMembers(a: seq<State>, b: seq<State>, c: ChannelName)
    requires |a| == |b| && forall j | 0 <= j < |a| :: MemberIds(b[j], c) == MemberIds(a[j], c)
    ensures ClusterMembers(b, c) == ClusterMembers(a, c)
  {
    if a != [] { SameMembers(a[..|a| - 1], b[..|b| - 1], c); }
  }

  lemma ElsewhereSame(nodes: seq<State>, nodes': seq<State>, i: nat, c: ChannelName)
    requires i < |nodes| && OthersSame(nodes, nodes', i)
    ensures Elsewhere(nodes', i, c) == Elsewhere(nodes, i, c)
  {
    var a, b := nodes[i := EMPTY], nodes'[i := EMPTY];
    forall j | 0 <= j < |a| ensures MemberIds(b[j], c) == MemberIds(a[j], c) {
      if j != i { SameCoreMembers(nodes[j], nodes'[j], c); }
    }
    SameMembers(a, b, c);
  }

  /** Node i of r is what its members say, the other nodes are as before. */
  lemma MembersNow(nodes: seq<State>, r: seq<State>, i: nat, c: ChannelName)
    requires i < |nodes| && OthersSame(nodes, r, i)
    ensures ClusterMembers(nodes, c) == Elsewhere(nodes, i, c) + MemberIds(nodes[i], c)
    ensures ClusterMembers(r, c) == Elsewhere(nodes, i, c) + MemberIds(r[i], c)
  {
    HereAndElsewhere(nodes, i, nodes[i], c);
    HereAndElsewhere(r, i, r[i], c);
    ElsewhereSame(nodes, r, i, c);
    assert nodes[i := nodes[i]] == nodes && r[i := r[i]] == r;
  }

  /** The users carried by sockets of the cluster other than this one. */
  function Others(nodes: seq<State>, i: nat, id: SocketId, c: ChannelName): set<UserId>
    requires i < |nodes|
  {
    Elsewhere(nodes, i, c) + OtherMembers(nodes[i], id, c)
  }

  // ---------- sockets of the whole cluster ----------

  /** How many sockets are in a channel on the nodes other than i. */
  function SocketsElsewhere(nodes: seq<State>, i: nat, c: ChannelName): nat
    requires i < |nodes|
  {
    Connections(nodes[i := EMPTY], c)
  }

  lemma {:induction false} ConnectionsDiffer(nodes: seq<State>, i: nat, r: State, c: ChannelName)
    requires i < |nodes|
    ensures Connections(nodes[i := r], c) + |ChannelSockets(nodes[i], c)|
      == Connections(nodes, c) + |ChannelSockets(r, c)|
  {
    var n := |nodes| - 1;
    if i == n {
      assert nodes[i := r][..n] == nodes[..n];
    } else {
      ConnectionsDiffer(nodes[..n], i, r, c);
      assert nodes[i := r][..n] == nodes[..n][i := r];
    }
  }

  lemma {:induction false} SameConnections(a: seq<State>, b: seq<State>, c: ChannelName)
    requires |a| == |b| && forall j | 0 <= j < |a| :: ChannelSockets(b[j], c) == ChannelSockets(a[j], c)
    ensures Connections(b, c) == Connections(a, c)
  {
    if a != [] { SameConnections(a[..|a| - 1], b[..|b| - 1], c); }
  }

  lemma ConnectionsHere(nodes: seq<State>, i: nat, r: State, c: ChannelName)
    requires i < |nodes|
    ensures Connections(nodes[i := r], c) == SocketsElsewhere(nodes, i, c) + |ChannelSockets(r, c)|
  {
    assert ChannelSockets(EMPTY, c) == {};
    hide ChannelSockets;
    ConnectionsDiffer(nodes, i, r, c);
    ConnectionsDiffer(nodes, i, EMPTY, c);
  }

  lemma ConnectionsNow(nodes: seq<State>, r: seq<State>, i: nat, c: ChannelName)
    requires i < |nodes| && OthersSame(nodes, r, i)
    ensures Connections(nodes, c) == SocketsElsewhere(nodes, i, c) + |ChannelSockets(nodes[i], c)|
    ensures Connections(r, c) == SocketsElsewhere(nodes, i, c) + |ChannelSockets(r[i], c)|
  {
    var a, b := nodes[i := EMPTY], r[i := EMPTY];
    forall j | 0 <= j < |a| ensures ChannelSockets(b[j], c) == ChannelSockets(a[j], c) {
      if j != i { assert SameCore(nodes[j], r[j]); }
    }
    SameConnections(a, b, c);
    ConnectionsHere(nodes, i, nodes[i], c);
    ConnectionsHere(r, i, r[i], c);
    assert nodes[i := nodes[i]] == nodes && r[i := r[i]] == r;
  }

  // ---------- how a request moves a topic ----------

  /** Some node has a subscriber of the channel; the user is a member on some node. */
  predicate ClusterHolds(nodes: seq<State>, t: Topic) {
    match t
    case Occupancy(_, c) => Connections(nodes, c) > 0
    case Membership(_, c, u) => u in ClusterMembers(nodes, c)
  }

  /** A node on which nobody entered or left the channel. */
  lemma SameHolds(nodes: seq<State>, r: seq<State>, i: nat, t: Topic)
    requires i < |nodes| && OthersSame(nodes, r, i)
    requires ChannelSockets(r[i], t.channel) == ChannelSockets(nodes[i], t.channel)
    requires MemberIds(r[i], t.channel) == MemberIds(nodes[i], t.channel)
    ensures ClusterHolds(r, t) <==> ClusterHolds(nodes, t)
  {
    hide ClusterMembers, Elsewhere, MemberIds, ChannelSockets, Connections, SocketsElsewhere, OthersSame;
    MembersNow(nodes, r, i, t.channel);
    ConnectionsNow(nodes, r, i, t.channel);
  }

  /** The history of a topic grew by `turn`, which follows the change of the topic, and misleads just if `bad`. */
  ghost predicate ClusterMoves(app: AppId, nodes: seq<State>, r: seq<State>, i: nat, t: Topic, turn: seq<bool>,
                               bad: bool)
    requires i < |nodes| == |r|
  {
    && nodes[i].emitted <= r[i].emitted
    && Turns(app, r[i].emitted, t) == Turns(app, nodes[i].emitted, t) + turn
    && Follows(turn, ClusterHolds(nodes, t), ClusterHolds(r, t))
    && (Misleads(turn, ClusterHolds(nodes, t), ClusterHolds(r, t)) <==> bad)
  }

  lemma NothingMoves(app: AppId, nodes: seq<State>, r: seq<State>, i: nat, t: Topic)
    requires i < |nodes| && OthersSame(nodes, r, i) && r[i].emitted == nodes[i].emitted
    requires ChannelSockets(r[i], t.channel) == ChannelSockets(nodes[i], t.channel)
    requires MemberIds(r[i], t.channel) == MemberIds(nodes[i], t.channel)
    ensures ClusterMoves(app, nodes, r, i, t, [], false)
  {
    hide ClusterHolds, MemberIds, ChannelSockets, Turns, OthersSame;
    SameHolds(nodes, r, i, t);
    assert Turns(app, nodes[i].emitted, t) + [] == Turns(app, nodes[i].emitted, t);
  }

  // ---------- joining ----------

  lemma JoinAtEmits(s: State, id: SocketId, sub: Subscription, count: int, members: set<UserId>)
    requires id in s.sockets
    ensures var c, v := sub.channel, sub.member.userId;
      JoinAt(s, id, sub, count, members).state.emitted == s.emitted
        + (When(count == 1, ChannelOccupied(c)) + When(IsPresence(c) && v != "" && v !in members, UserAdded(c, v))
           + When(MissesCache(sub), CacheMissed(c)))
  {
    CacheFlagsAgree(sub.channel);
    hide CreateChannel, IsPresence, AnnounceMember, SendCache, Deliver, EnterAt;
    var c, v, s1 := sub.channel, sub.member.userId, EnterAt(s, id, sub, count);
    assert s1.emitted == s.emitted + When(count == 1, ChannelOccupied(c)) by { EnterAtEmits(s, id, sub, count); }
    if CreateChannel(c).kind != Presence {
      FinishEmits(s1, id, SubscriptionSucceeded(c, None), sub);
    } else if v != "" {
      AnnounceEmits(s1, id, sub, members);
      FinishEmits(AnnounceMember(s1, id, sub, members), id, SubscriptionSucceeded(c, Some(members + {v})), sub);
    }
  }

  lemma EnterAtEmits(s: State, id: SocketId, sub: Subscription, count: int)
    requires id in s.sockets
    ensures EnterAt(s, id, sub, count).emitted == s.emitted + When(count == 1, ChannelOccupied(sub.channel))
  {
  }

  /** What a socket finds when it joins are the members before. */
  lemma FindsMembers(nodes: seq<State>, i: nat, id: SocketId, sub: Subscription)
    requires i < |nodes| && id in nodes[i].sockets && Held(nodes[i])
    ensures MembersOnJoin(nodes, i, id, sub) == ClusterMembers(nodes, sub.channel)
  {
    var c, s := sub.channel, nodes[i];
    var s1 := EnterAt(s, id, sub, CountOnJoin(nodes, i, id, c));
    assert MemberIds(s1, c) == MemberIds(s, c) by {
      MembersOnEntering(s, id, sub);
      EnterCore(s, id, sub);
      assert ChannelSockets(s1, c) == ChannelSockets(EnterChannel(s, id, sub), c);
      assert MemberIds(s1, c) == MemberIds(EnterChannel(s, id, sub), c);
    }
    hide MemberIds, EnterAt, CountOnJoin, ClusterMembers;
    HereAndElsewhere(nodes, i, s1, c);
    HereAndElsewhere(nodes, i, s, c);
    assert nodes[i := s] == nodes;
  }

  /** The last socket of u in c, on any node, subscribes to it again under another user id. */
  predicate LosesInCluster(nodes: seq<State>, i: nat, id: SocketId, c: ChannelName, v: UserId, u: UserId)
    requires i < |nodes| && id in nodes[i].sockets
  {
    && IsPresence(c) && c in nodes[i].sockets[id].presence && nodes[i].sockets[id].presence[c].userId == u
    && u !in Others(nodes, i, id, c) && v != "" && v != u
  }

  /** A join that is taken for a first connection although it is none: the only subscriber of a presence channel in the
      cluster joins again, or somebody joins any other channel that has subscribers on other nodes only. */
  predicate ReoccupiesInCluster(nodes: seq<State>, i: nat, id: SocketId, c: ChannelName)
    requires i < |nodes|
  {
    if IsPresence(c) then SocketsElsewhere(nodes, i, c) == 0 && ChannelSockets(nodes[i], c) == {id}
    else SocketsElsewhere(nodes, i, c) > 0 && ChannelSockets(nodes[i], c) == {}
  }

  predicate JoinMisleadsInCluster(nodes: seq<State>, i: nat, id: SocketId, sub: Subscription, t: Topic)
    requires i < |nodes| && id in nodes[i].sockets
  {
    t.channel == sub.channel &&
    match t
    case Occupancy(_, c) => ReoccupiesInCluster(nodes, i, id, c)
    case Membership(_, c, u) => LosesInCluster(nodes, i, id, c, sub.member.userId, u)
  }

  lemma JoinAtTurns(app: AppId, s: State, id: SocketId, sub: Subscription, count: int, members: set<UserId>, t: Topic)
    requires id in s.sockets && t.app == app
    ensures var r, v := JoinAt(s, id, sub, count, members).state, sub.member.userId;
      && s.emitted <= r.emitted
      && Turns(app, r.emitted, t) == Turns(app, s.emitted, t)
           + if t.channel != sub.channel then []
             else match t
               case Occupancy(_, _) => When(count == 1, true)
               case Membership(_, c, u) => When(IsPresence(c) && v != "" && v !in members && v == u, true)
  {
    hide JoinAt, IsPresence, MissesCache, Turns;
    var c', v := sub.channel, sub.member.userId;
    var joins, miss := IsPresence(c') && v != "" && v !in members, MissesCache(sub);
    var hooks := When(count == 1, ChannelOccupied(c')) + When(joins, UserAdded(c', v)) + When(miss, CacheMissed(c'));
    JoinAtEmits(s, id, sub, count, members);
    TurnsOfThree(app, count == 1, joins, miss, c', v, t);
    TurnsConcat(app, s.emitted, hooks, t);
  }

  /** The members before and after a join: what others carry, and what this socket carried or carries. */
  lemma JoinedMembers(nodes: seq<State>, i: nat, id: SocketId, sub: Subscription)
    requires i < |nodes| && id in nodes[i].sockets && Held(nodes[i])
    ensures var c, sock := sub.channel, nodes[i].sockets[id];
      && ClusterMembers(nodes, c) ==
           Others(nodes, i, id, c) + (if c in sock.presence then {sock.presence[c].userId} else {})
      && ClusterMembers(JoinInCluster(nodes, i, id, sub).nodes, c) ==
           if IsPresence(c) && sub.member.userId != "" then Others(nodes, i, id, c) + {sub.member.userId}
           else ClusterMembers(nodes, c)
  {
    hide JoinInCluster, ClusterMembers, Elsewhere, IsPresence, OthersSame, MemberIds, OtherMembers, JoinRel, SameAt;
    var c, r := sub.channel, JoinInCluster(nodes, i, id, sub).nodes;
    JoinInClusterCore(nodes, i, id, sub);
    MembersNow(nodes, r, i, c);
    MembersAfterJoining(nodes[i], r[i], id, sub);
    OwnAndOthers(nodes[i], id, c);
  }

  lemma JoinedElsewhere(nodes: seq<State>, i: nat, id: SocketId, sub: Subscription, t: Topic)
    requires i < |nodes| && id in nodes[i].sockets && Held(nodes[i]) && sub.channel != t.channel
    ensures ClusterHolds(JoinInCluster(nodes, i, id, sub).nodes, t) <==> ClusterHolds(nodes, t)
  {
    hide JoinInCluster, ClusterHolds, IsPresence, OthersSame, MemberIds, JoinRel, ChannelSockets;
    var r := JoinInCluster(nodes, i, id, sub).nodes;
    JoinInClusterCore(nodes, i, id, sub);
    MembersAfterJoining(nodes[i], r[i], id, sub);
    SameAtHolds(nodes[i], r[i], Topic.Occupancy("", t.channel));
    SameHolds(nodes, r, i, t);
  }

  /** The sockets before and after a join, and what the join takes for the number of connections. */
  lemma JoinedSockets(nodes: seq<State>, i: nat, id: SocketId, sub: Subscription)
    requires i < |nodes| && id in nodes[i].sockets && Grounded(nodes[i])
    ensures var c, here := sub.channel, ChannelSockets(nodes[i], sub.channel);
      && Connections(nodes, c) == SocketsElsewhere(nodes, i, c) + |here|
      && Connections(JoinInCluster(nodes, i, id, sub).nodes, c) == SocketsElsewhere(nodes, i, c) + |here + {id}|
      && (CountOnJoin(nodes, i, id, c) == 1 <==>
            if IsPresence(c) then SocketsElsewhere(nodes, i, c) + |here + {id}| == 1 else here == {})
  {
    assert Held(nodes[i]) && ListedSubscribe(nodes[i]);
    hide JoinInCluster, Connections, SocketsElsewhere, OthersSame, MemberIds, OtherMembers, JoinRel, SameAt, Grounded,
         CreateChannel, IsPresence, ChannelSockets, Held, ListedSubscribe, CountOnJoin;
    var c, r := sub.channel, JoinInCluster(nodes, i, id, sub).nodes;
    JoinInClusterCore(nodes, i, id, sub);
    ConnectionsNow(nodes, r, i, c);
    MembersAfterJoining(nodes[i], r[i], id, sub);
    CountedOnJoin(nodes, i, id, c);
  }

  lemma CountedOnJoin(nodes: seq<State>, i: nat, id: SocketId, c: ChannelName)
    requires i < |nodes| && id in nodes[i].sockets && ListedSubscribe(nodes[i])
    ensures CountOnJoin(nodes, i, id, c) == 1 <==>
      if IsPresence(c) then SocketsElsewhere(nodes, i, c) + |ChannelSockets(nodes[i], c) + {id}| == 1
      else ChannelSockets(nodes[i], c) == {}
  {
    var s := nodes[i];
    var s1 := s.(channels := Append(s.channels, c, id));
    assert ChannelSockets(s1, c) == ChannelSockets(s, c) + {id};
    assert Listed(s.channels, c) != [] ==> s.channels[c][0] in ChannelSockets(s, c);
    assert |Listed(s1.channels, c)| == |Listed(s.channels, c)| + 1;
    CacheFlagsAgree(c);
    hide Connections, SocketsElsewhere, CreateChannel, IsPresence;
    ConnectionsHere(nodes, i, s1, c);
  }

  /** Nothing but the counting of a join. */
  lemma CountLogic(elsewhere: nat, here: set<SocketId>, id: SocketId, presence: bool, first: bool)
    requires first <==> if presence then elsewhere + |here + {id}| == 1 else here == {}
    ensures var was, now := elsewhere + |here| > 0, elsewhere + |here + {id}| > 0;
      && Follows(When(first, true), was, now)
      && (Misleads(When(first, true), was, now) <==>
            if presence then elsewhere == 0 && here == {id} else elsewhere > 0 && here == {})
  {
    assert id in here + {id} && |here + {id}| > 0;
    SingletonIs(here + {id}, id);
    assert here + {id} == {id} <==> here == {} || here == {id};
    assert here != {} ==> |here| > 0;
  }

  /** Nothing but the logic of a join: `others` says that another socket carries u, `owned` that this one did. */
  lemma JoinLogic(was: bool, now: bool, others: bool, owned: bool, named: bool, asU: bool)
    requires was <==> others || owned
    requires now <==> if named then others || asU else was
    ensures var turn := When(named && asU && !was, true);
      Follows(turn, was, now) && (Misleads(turn, was, now) <==> named && owned && !others && !asU)
  {
  }

  function JoinTurnAt(nodes: seq<State>, i: nat, id: SocketId, sub: Subscription, t: Topic): seq<bool>
    requires i < |nodes| && id in nodes[i].sockets
  {
    if t.channel != sub.channel then []
    else
      match t
      case Occupancy(_, c) => When(CountOnJoin(nodes, i, id, c) == 1, true)
      case Membership(_, c, u) =>
        When(IsPresence(c) && sub.member.userId != "" && sub.member.userId == u && u !in ClusterMembers(nodes, c), true)
  }

  lemma JoinTurns(app: AppId, nodes: seq<State>, i: nat, id: SocketId, sub: Subscription, t: Topic)
    requires i < |nodes| && id in nodes[i].sockets && Held(nodes[i]) && t.app == app
    ensures var r := JoinInCluster(nodes, i, id, sub).nodes;
      && nodes[i].emitted <= r[i].emitted
      && Turns(app, r[i].emitted, t) == Turns(app, nodes[i].emitted, t) + JoinTurnAt(nodes, i, id, sub, t)
  {
    hide JoinAt, CountOnJoin, MembersOnJoin, IsPresence, ClusterMembers, Turns, CreateChannel, TellOthers;
    FindsMembers(nodes, i, id, sub);
    JoinAtTurns(app, nodes[i], id, sub, CountOnJoin(nodes, i, id, sub.channel), MembersOnJoin(nodes, i, id, sub), t);
  }

  lemma JoinInClusterShape(nodes: seq<State>, i: nat, id: SocketId, sub: Subscription, t: Topic)
    requires i < |nodes| && id in nodes[i].sockets && Grounded(nodes[i]) && t.channel == sub.channel
    ensures var turn, r := JoinTurnAt(nodes, i, id, sub, t), JoinInCluster(nodes, i, id, sub).nodes;
      && Follows(turn, ClusterHolds(nodes, t), ClusterHolds(r, t))
      && (Misleads(turn, ClusterHolds(nodes, t), ClusterHolds(r, t)) <==> JoinMisleadsInCluster(nodes, i, id, sub, t))
  {
    var c, s, r, v := sub.channel, nodes[i], JoinInCluster(nodes, i, id, sub).nodes, sub.member.userId;
    assert Held(s);
    hide JoinInCluster, CountOnJoin, ClusterMembers, Connections, SocketsElsewhere, IsPresence, Others, Held, Grounded,
         ChannelSockets;
    match t
    case Occupancy(_, _) =>
      JoinedSockets(nodes, i, id, sub);
      CountLogic(SocketsElsewhere(nodes, i, c), ChannelSockets(s, c), id, IsPresence(c),
                 CountOnJoin(nodes, i, id, c) == 1);
    case Membership(_, _, u) =>
      JoinedMembers(nodes, i, id, sub);
      JoinLogic(u in ClusterMembers(nodes, c), u in ClusterMembers(r, c), u in Others(nodes, i, id, c),
                c in s.sockets[id].presence && s.sockets[id].presence[c].userId == u, IsPresence(c) && v != "", v == u);
  }

  lemma JoinInClusterMoves(app: AppId, nodes: seq<State>, i: nat, id: SocketId, sub: Subscription, t: Topic)
    requires i < |nodes| && id in nodes[i].sockets && Grounded(nodes[i]) && t.app == app
    ensures ClusterMoves(app, nodes, JoinInCluster(nodes, i, id, sub).nodes, i, t, JoinTurnAt(nodes, i, id, sub, t),
                         JoinMisleadsInCluster(nodes, i, id, sub, t))
  {
    assert Held(nodes[i]);
    hide JoinInCluster, ClusterHolds, Turns, Grounded, Held, Others, IsPresence, ClusterMembers, Connections,
         CountOnJoin, SocketsElsewhere, ChannelSockets;
    JoinTurns(app, nodes, i, id, sub, t);
    if t.channel != sub.channel {
      JoinedElsewhere(nodes, i, id, sub, t);
    } else {
      JoinInClusterShape(nodes, i, id, sub, t);
    }
  }

  // ---------- leaving ----------

  /** Leaving c with the last socket of u. */
  predicate LeavesLast(nodes: seq<State>, i: nat, id: SocketId, c: ChannelName, u: UserId)
    requires i < |nodes| && id in nodes[i].sockets
  {
    && c in nodes[i].sockets[id].presence && nodes[i].sockets[id].presence[c].userId == u
    && u !in Others(nodes, i, id, c)
  }

  lemma StaysIfCarried(nodes: seq<State>, i: nat, id: SocketId, c: ChannelName)
    requires i < |nodes| && id in nodes[i].sockets && c in nodes[i].sockets[id].presence
    ensures StaysMember(nodes, i, id, c) <==> nodes[i].sockets[id].presence[c].userId in Others(nodes, i, id, c)
  {
    var s := nodes[i];
    LeaversSockets(s, Unlisted(s, id, c), id, c);
    MembersWithoutData(s, Unlisted(s, id, c), id, c);
    hide MemberIds, OtherMembers, ChannelSockets, ClusterMembers;
    HereAndElsewhere(nodes, i, Unlisted(s, id, c), c);
  }

  lemma LeaveAtEmits(s: State, id: SocketId, c: ChannelName, vacant: bool, stays: bool)
    requires Held(s) && id in s.sockets
    ensures var has := c in s.sockets[id].presence;
      LeaveAt(s, id, c, vacant, stays).emitted == s.emitted
        + ((if has && !stays then [UserRemoved(c, s.sockets[id].presence[c].userId)] else [])
           + When(vacant && (IsPresence(c) ==> has), ChannelVacated(c)))
  {
    CacheFlagsAgree(c);
    if c in s.sockets[id].presence {
      var user := s.sockets[id].presence[c].userId;
      var s1 := s.(channels := Drop(s.channels, c, id));
      var s2 := s1.(sockets := s1.sockets[id := s1.sockets[id].(presence := s1.sockets[id].presence - {c})]);
      SendSameCore(Emit(s2, UserRemoved(c, user)), c, MemberRemoved(c, user), id);
      hide CreateChannel, IsPresence, LocalSend;
    }
  }

  lemma LeaveAtTurns(app: AppId, s: State, id: SocketId, left: ChannelName, vacant: bool, stays: bool, t: Topic)
    requires Held(s) && id in s.sockets && t.app == app
    ensures var r, has := LeaveAt(s, id, left, vacant, stays), left in s.sockets[id].presence;
      && s.emitted <= r.emitted
      && Turns(app, r.emitted, t) == Turns(app, s.emitted, t)
           + if t.channel != left then []
             else match t
               case Occupancy(_, _) => When(vacant && (IsPresence(left) ==> has), false)
               case Membership(_, _, u) => When(has && s.sockets[id].presence[left].userId == u && !stays, false)
  {
    hide LeaveAt, IsPresence, Turns, Held;
    var has := left in s.sockets[id].presence;
    var gone := if has && !stays then [UserRemoved(left, s.sockets[id].presence[left].userId)] else [];
    var empty := When(vacant && (IsPresence(left) ==> has), ChannelVacated(left));
    LeaveAtEmits(s, id, left, vacant, stays);
    TurnsConcat(app, s.emitted, gone + empty, t);
    TurnsConcat(app, gone, empty, t);
    TurnsOfWhen(app, vacant && (IsPresence(left) ==> has), ChannelVacated(left), t);
    if has { TurnsOfWhen(app, !stays, UserRemoved(left, s.sockets[id].presence[left].userId), t); }
    if gone == [] { assert gone + empty == empty; }
  }

  /** Nobody is left in c in the whole cluster once this socket is off the list. */
  predicate VacatesInCluster(nodes: seq<State>, i: nat, id: SocketId, c: ChannelName)
    requires i < |nodes|
  {
    SocketsElsewhere(nodes, i, c) == 0 && ChannelSockets(nodes[i], c) <= {id}
  }

  /** What leaving c adds to the history of a topic. */
  function LeaveTurnAt(nodes: seq<State>, i: nat, id: SocketId, left: ChannelName, t: Topic): seq<bool>
    requires i < |nodes| && id in nodes[i].sockets
  {
    if t.channel != left then []
    else
      match t
      case Occupancy(_, c) =>
        When(VacatesInCluster(nodes, i, id, c) && (IsPresence(c) ==> c in nodes[i].sockets[id].presence), false)
      case Membership(_, c, u) => When(LeavesLast(nodes, i, id, c, u), false)
  }

  /** The only subscriber of a presence channel in the cluster, one without presence data, leaves it. */
  predicate LeavesSilentlyInCluster(nodes: seq<State>, i: nat, id: SocketId, c: ChannelName)
    requires i < |nodes| && id in nodes[i].sockets
  {
    && c in nodes[i].sockets[id].subscribed && IsPresence(c) && c !in nodes[i].sockets[id].presence
    && SocketsElsewhere(nodes, i, c) == 0 && ChannelSockets(nodes[i], c) == {id}
  }

  lemma VacantIfAlone(nodes: seq<State>, i: nat, id: SocketId, c: ChannelName)
    requires i < |nodes|
    ensures Connections(nodes[i := nodes[i].(channels := Drop(nodes[i].channels, c, id))], c) == 0
      <==> VacatesInCluster(nodes, i, id, c)
  {
    var s1 := nodes[i].(channels := Drop(nodes[i].channels, c, id));
    LeaversSockets(nodes[i], s1, id, c);
    hide ChannelSockets, Connections, SocketsElsewhere;
    ConnectionsHere(nodes, i, s1, c);
    assert ChannelSockets(nodes[i], c) - {id} == {} <==> ChannelSockets(nodes[i], c) <= {id};
  }

  lemma LeaveTurns(app: AppId, nodes: seq<State>, i: nat, id: SocketId, left: ChannelName, t: Topic)
    requires i < |nodes| && id in nodes[i].sockets && Held(nodes[i]) && t.app == app
    ensures var r := LeaveInCluster(nodes, i, id, left);
      && nodes[i].emitted <= r[i].emitted
      && Turns(app, r[i].emitted, t) == Turns(app, nodes[i].emitted, t) + LeaveTurnAt(nodes, i, id, left, t)
  {
    hide LeaveAt, Others, IsPresence, Turns, CreateChannel, TellOthers, StaysMember, Connections, VacatesInCluster;
    var s, stays := nodes[i], StaysMember(nodes, i, id, left);
    var vacant := Connections(nodes[i := s.(channels := Drop(s.channels, left, id))], left) == 0;
    LeaveAtTurns(app, s, id, left, vacant, stays, t);
    VacantIfAlone(nodes, i, id, left);
    if left in s.sockets[id].presence { StaysIfCarried(nodes, i, id, left); }
  }

  /** What leaving several channels did, seen from one topic. */
  ghost predicate LeftInCluster(app: AppId, nodes: seq<State>, r: seq<State>, i: nat, id: SocketId, t: Topic,
                                left: bool)
    requires i < |nodes| && id in nodes[i].sockets
  {
    && OthersSame(nodes, r, i) && Grounded(r[i]) && id in r[i].sockets
    && (!left ==> SameAt(nodes[i], r[i], t.channel))
    && Grew(app, nodes[i].emitted, r[i].emitted, t, if left then LeaveTurnAt(nodes, i, id, t.channel, t) else [])
  }

  /** Events were only added, and to the history of t just `turn`. */
  ghost predicate Grew(app: AppId, before: seq<Hook>, after: seq<Hook>, t: Topic, turn: seq<bool>) {
    before <= after && Turns(app, after, t) == Turns(app, before, t) + turn
  }

  lemma GrewTwice(app: AppId, a: seq<Hook>, b: seq<Hook>, d: seq<Hook>, t: Topic, x: seq<bool>, y: seq<bool>)
    requires Grew(app, a, b, t, x) && Grew(app, b, d, t, y)
    ensures Grew(app, a, d, t, x + y)
  {
    hide Turns;
  }

  lemma {:induction false} LeaveAllInClusterTurns(app: AppId, nodes: seq<State>, i: nat, id: SocketId,
                                                  order: seq<ChannelName>, t: Topic)
    requires i < |nodes| && id in nodes[i].sockets && Grounded(nodes[i]) && NoRepeats(order) && t.app == app
    ensures LeftInCluster(app, nodes, LeaveAllInCluster(nodes, i, id, order), i, id, t, t.channel in order)
  {
    hide Grounded, Turns, LeaveInCluster, LeftInCluster;
    if order == [] {
      LeftNothing(app, nodes, i, id, t);
    } else {
      var init, last := order[..|order| - 1], order[|order| - 1];
      InLastOrInit(order, t.channel);
      assert NoRepeats(init) && last !in init;
      LeaveAllInClusterTurns(app, nodes, i, id, init, t);
      LeftOneMoreInCluster(app, nodes, LeaveAllInCluster(nodes, i, id, init), i, id, t, t.channel in init, last);
    }
  }

  lemma LeftNothing(app: AppId, nodes: seq<State>, i: nat, id: SocketId, t: Topic)
    requires i < |nodes| && id in nodes[i].sockets && Grounded(nodes[i])
    ensures LeftInCluster(app, nodes, nodes, i, id, t, false)
  {
    hide Grounded, Turns;
    assert Turns(app, nodes[i].emitted, t) + [] == Turns(app, nodes[i].emitted, t);
  }

  lemma LeftOneMoreInCluster(app: AppId, nodes: seq<State>, mid: seq<State>, i: nat, id: SocketId, t: Topic, left: bool,
                             last: ChannelName)
    requires i < |nodes| && id in nodes[i].sockets && LeftInCluster(app, nodes, mid, i, id, t, left) && t.app == app
    requires left ==> last != t.channel
    ensures LeftInCluster(app, nodes, LeaveInCluster(mid, i, id, last), i, id, t, left || last == t.channel)
  {
    var r := LeaveInCluster(mid, i, id, last);
    assert Held(mid[i]);
    hide LeaveInCluster, Turns, Grounded, SameAt, OthersSame, LeaveTurnAt, Held;
    LeaveKeepsRest(nodes, mid, i, id, last, t.channel);
    LeaveTurns(app, mid, i, id, last, t);
    NoTurnElsewhere(mid, i, id, last, t);
    var turn, more := if left then LeaveTurnAt(nodes, i, id, t.channel, t) else [], LeaveTurnAt(mid, i, id, last, t);
    assert Grew(app, mid[i].emitted, r[i].emitted, t, more);
    hide Grew;
    GrewTwice(app, nodes[i].emitted, mid[i].emitted, r[i].emitted, t, turn, more);
    assert turn + [] == turn && [] + more == more;
    if !left {
      SameTurn(nodes, mid, i, id, t);
      if last != t.channel { SameAtTrans(nodes[i], mid[i], r[i], t.channel); }
    }
  }

  lemma LeaveKeepsRest(nodes: seq<State>, mid: seq<State>, i: nat, id: SocketId, last: ChannelName, c: ChannelName)
    requires i < |nodes| && OthersSame(nodes, mid, i) && id in mid[i].sockets && Grounded(mid[i])
    ensures var r := LeaveInCluster(mid, i, id, last);
      OthersSame(nodes, r, i) && Grounded(r[i]) && (last != c ==> SameAt(mid[i], r[i], c))
  {
    var r := LeaveInCluster(mid, i, id, last);
    assert Held(mid[i]);
    hide LeaveInCluster, Grounded, SameAt, LeaveRel, Held;
    LeaveInClusterCore(mid, i, id, last);
    LeaveGrounded(mid[i], r[i], id, last);
    OthersSameTrans(nodes, mid, r, i);
    if last != c { LeftElsewhere(mid[i], r[i], id, last, c); }
  }

  lemma LeftElsewhere(s: State, r: State, id: SocketId, left: ChannelName, c: ChannelName)
    requires Held(s) && id in s.sockets && LeaveRel(s, r, id, left) && left != c
    ensures SameAt(s, r, c) && ChannelSockets(r, c) == ChannelSockets(s, c) && MemberIds(r, c) == MemberIds(s, c)
  {
    hide LeaveRel, Held;
    MembersAfterLeaving(s, r, id, left);
    SameAtHolds(s, r, Topic.Occupancy("", c));
  }

  lemma NoTurnElsewhere(nodes: seq<State>, i: nat, id: SocketId, left: ChannelName, t: Topic)
    requires i < |nodes| && id in nodes[i].sockets
    ensures left != t.channel ==> LeaveTurnAt(nodes, i, id, left, t) == []
  {
  }

  lemma SameTurn(nodes: seq<State>, mid: seq<State>, i: nat, id: SocketId, t: Topic)
    requires i < |nodes| && id in nodes[i].sockets && OthersSame(nodes, mid, i) && SameAt(nodes[i], mid[i], t.channel)
    ensures LeaveTurnAt(mid, i, id, t.channel, t) == LeaveTurnAt(nodes, i, id, t.channel, t)
  {
    var c := t.channel;
    assert OtherMembers(mid[i], id, c) == OtherMembers(nodes[i], id, c);
    hide OtherMembers, ClusterMembers, Connections, IsPresence, ChannelSockets;
    ElsewhereSame(nodes, mid, i, c);
    SocketsElsewhereSame(nodes, mid, i, c);
  }

  lemma SocketsElsewhereSame(nodes: seq<State>, mid: seq<State>, i: nat, c: ChannelName)
    requires i < |nodes| && OthersSame(nodes, mid, i)
    ensures SocketsElsewhere(mid, i, c) == SocketsElsewhere(nodes, i, c)
  {
    assert |mid| == |nodes|;
    hide Connections, ChannelSockets, OthersSame;
    ConnectionsNow(nodes, mid, i, c);
    ConnectionsHere(mid, i, mid[i], c);
    assert mid[i := mid[i]] == mid;
  }

  /** Nothing but the logic of a leave. */
  lemma LeaveLogic(was: bool, now: bool, others: bool, owned: bool)
    requires (was <==> others || owned) && (now <==> others)
    ensures Follows(When(owned && !others, false), was, now) && !Misleads(When(owned && !others, false), was, now)
  {
  }

  lemma LeftMembers(nodes: seq<State>, r: seq<State>, i: nat, id: SocketId, c: ChannelName)
    requires i < |nodes| == |r| && id in nodes[i].sockets && Held(nodes[i]) && OthersSame(nodes, r, i)
    requires LeaveRel(nodes[i], r[i], id, c) || CloseRel(nodes[i], r[i], id)
    ensures ClusterMembers(nodes, c) ==
      Others(nodes, i, id, c)
      + (if c in nodes[i].sockets[id].presence then {nodes[i].sockets[id].presence[c].userId} else {})
    ensures ClusterMembers(r, c) == Others(nodes, i, id, c)
  {
    hide ClusterMembers, Elsewhere, OthersSame, MemberIds, OtherMembers, LeaveRel, CloseRel, SameAt, Held;
    MembersNow(nodes, r, i, c);
    OwnAndOthers(nodes[i], id, c);
    if LeaveRel(nodes[i], r[i], id, c) {
      MembersAfterLeaving(nodes[i], r[i], id, c);
    } else {
      MembersAfterClosing(nodes[i], r[i], id, c);
    }
  }

  lemma LeftSockets(nodes: seq<State>, r: seq<State>, i: nat, id: SocketId, c: ChannelName)
    requires i < |nodes| == |r| && id in nodes[i].sockets && Held(nodes[i]) && OthersSame(nodes, r, i)
    requires LeaveRel(nodes[i], r[i], id, c) || CloseRel(nodes[i], r[i], id)
    ensures Connections(nodes, c) == SocketsElsewhere(nodes, i, c) + |ChannelSockets(nodes[i], c)|
    ensures Connections(r, c) == SocketsElsewhere(nodes, i, c) + |ChannelSockets(nodes[i], c) - {id}|
  {
    hide Connections, SocketsElsewhere, OthersSame, MemberIds, OtherMembers, LeaveRel, CloseRel, SameAt, Held,
         ChannelSockets;
    ConnectionsNow(nodes, r, i, c);
    if LeaveRel(nodes[i], r[i], id, c) {
      MembersAfterLeaving(nodes[i], r[i], id, c);
    } else {
      MembersAfterClosing(nodes[i], r[i], id, c);
    }
  }

  /** Leaving or closing a subscribed channel follows its topics, and misleads only if it is silent. */
  lemma LeaveInClusterShape(nodes: seq<State>, r: seq<State>, i: nat, id: SocketId, t: Topic)
    requires i < |nodes| == |r| && id in nodes[i].sockets && Grounded(nodes[i]) && OthersSame(nodes, r, i)
    requires LeaveRel(nodes[i], r[i], id, t.channel) || CloseRel(nodes[i], r[i], id)
    requires t.channel in nodes[i].sockets[id].subscribed
    ensures var turn := LeaveTurnAt(nodes, i, id, t.channel, t);
      && Follows(turn, ClusterHolds(nodes, t), ClusterHolds(r, t))
      && (Misleads(turn, ClusterHolds(nodes, t), ClusterHolds(r, t)) <==>
            t.Occupancy? && LeavesSilentlyInCluster(nodes, i, id, t.channel))
  {
    var c, s := t.channel, nodes[i];
    assert Held(s);
    assert c in s.sockets[id].presence || !IsPresence(c) ==> id in ChannelSockets(s, c);
    hide ClusterMembers, Connections, SocketsElsewhere, OthersSame, LeaveRel, CloseRel, Others, Held, Grounded,
         ChannelSockets, IsPresence;
    match t
    case Occupancy(_, _) =>
      LeftSockets(nodes, r, i, id, c);
      AloneLogic(SocketsElsewhere(nodes, i, c), ChannelSockets(s, c), id);
    case Membership(_, _, u) =>
      LeftMembers(nodes, r, i, id, c);
      LeaveLogic(u in ClusterMembers(nodes, c), u in ClusterMembers(r, c), u in Others(nodes, i, id, c),
                 c in s.sockets[id].presence && s.sockets[id].presence[c].userId == u);
  }

  lemma AloneLogic(elsewhere: nat, here: set<SocketId>, id: SocketId)
    ensures elsewhere + |here - {id}| == 0 <==> elsewhere == 0 && here <= {id}
    ensures elsewhere + |here| == 0 <==> elsewhere == 0 && here == {}
    ensures here <= {id} <==> here == {} || here == {id}
  {
    assert here - {id} == {} <==> here <= {id};
    assert here <= {id} ==> here == {} || here == {id};
  }

  lemma LeaveInClusterMoves(app: AppId, nodes: seq<State>, i: nat, id: SocketId, left: ChannelName, t: Topic)
    requires i < |nodes| && id in nodes[i].sockets && Grounded(nodes[i]) && left in nodes[i].sockets[id].subscribed
    requires t.app == app
    ensures ClusterMoves(app, nodes, LeaveInCluster(nodes, i, id, left), i, t, LeaveTurnAt(nodes, i, id, left, t),
                         t.Occupancy? && t.channel == left && LeavesSilentlyInCluster(nodes, i, id, left))
  {
    var s, r := nodes[i], LeaveInCluster(nodes, i, id, left);
    assert Held(s);
    hide LeaveInCluster, ClusterHolds, OthersSame, MemberIds, LeaveRel, Held, Turns, Grounded, ChannelSockets,
         LeavesSilentlyInCluster, Others, SocketsElsewhere, IsPresence;
    LeaveInClusterCore(nodes, i, id, left);
    LeaveTurns(app, nodes, i, id, left, t);
    if left == t.channel {
      LeaveInClusterShape(nodes, r, i, id, t);
    } else {
      LeftElsewhere(s, r[i], id, left, t.channel);
      SameHolds(nodes, r, i, t);
    }
  }

  /** What closing adds to the history of a topic. */
  function CloseTurnAt(nodes: seq<State>, i: nat, id: SocketId, t: Topic): seq<bool>
    requires i < |nodes| && id in nodes[i].sockets
  {
    if t.channel in nodes[i].sockets[id].subscribed then LeaveTurnAt(nodes, i, id, t.channel, t) else []
  }

  lemma CloseInClusterMoves(app: AppId, nodes: seq<State>, i: nat, id: SocketId, order: seq<ChannelName>, t: Topic)
    requires i < |nodes| && Grounded(nodes[i]) && t.app == app
    requires id in nodes[i].sockets && Enumerates(order, nodes[i].sockets[id].subscribed)
    ensures ClusterMoves(app, nodes, CloseInCluster(nodes, i, id, order), i, t, CloseTurnAt(nodes, i, id, t),
                         t.Occupancy? && LeavesSilentlyInCluster(nodes, i, id, t.channel))
  {
    var s, r, c := nodes[i], CloseInCluster(nodes, i, id, order), t.channel;
    LeaveAllInClusterTurns(app, nodes, i, id, order, t);
    CloseInClusterCore(nodes, i, id, order);
    assert r[i].emitted == LeaveAllInCluster(nodes, i, id, order)[i].emitted;
    assert c in order <==> c in s.sockets[id].subscribed;
    hide CloseInCluster, LeaveAllInCluster, ClusterHolds, OthersSame, CloseRel, Turns, LeaveTurnAt, SocketsElsewhere;
    if c in s.sockets[id].subscribed {
      LeaveInClusterShape(nodes, r, i, id, t);
    } else {
      NotThere(s, r[i], id, c);
      SameHolds(nodes, r, i, t);
    }
  }

  lemma NotThere(s: State, r: State, id: SocketId, c: ChannelName)
    requires Grounded(s) && id in s.sockets && CloseRel(s, r, id) && c !in s.sockets[id].subscribed
    ensures ChannelSockets(r, c) == ChannelSockets(s, c) && MemberIds(r, c) == MemberIds(s, c)
  {
    MembersAfterClosing(s, r, id, c);
    OwnAndOthers(s, id, c);
    assert id !in Listed(s.channels, c);
    assert c !in s.sockets[id].presence;
    assert ChannelSockets(s, c) - {id} == ChannelSockets(s, c);
  }

  // ---------- one request ----------

  function ClusterTurn(cfg: Config, nodes: seq<State>, i: nat, r: Request, t: Topic): seq<bool>
    requires i < |nodes| && Enabled(nodes[i], r)
  {
    match r
    case Subscribing(id, sub) =>
      if AdmittedInCluster(cfg, nodes, i, id, sub) then JoinTurnAt(nodes, i, id, sub, t) else []
    case Unsubscribing(id, left) =>
      if left in nodes[i].sockets[id].subscribed then LeaveTurnAt(nodes, i, id, left, t) else []
    case SigningIn(id, tokenOk, user, _) => if user != "" && !tokenOk then CloseTurnAt(nodes, i, id, t) else []
    case Closing(id, _) => CloseTurnAt(nodes, i, id, t)
    case _ => []
  }

  /** The requests after which the events of the cluster about t are wrong. */
  predicate MisinformsInCluster(cfg: Config, nodes: seq<State>, i: nat, r: Request, t: Topic)
    requires i < |nodes| && Enabled(nodes[i], r)
  {
    match r
    case Subscribing(id, sub) =>
      AdmittedInCluster(cfg, nodes, i, id, sub) && JoinMisleadsInCluster(nodes, i, id, sub, t)
    case Unsubscribing(id, left) =>
      t.Occupancy? && t.channel == left && LeavesSilentlyInCluster(nodes, i, id, left)
    case SigningIn(id, tokenOk, user, _) =>
      t.Occupancy? && user != "" && !tokenOk && LeavesSilentlyInCluster(nodes, i, id, t.channel)
    case Closing(id, _) => t.Occupancy? && LeavesSilentlyInCluster(nodes, i, id, t.channel)
    case _ => false
  }

  lemma AnswerInClusterMoves(app: AppId, nodes: seq<State>, h: Handled, i: nat, id: SocketId, t: Topic, turn: seq<bool>,
                    bad: bool)
    requires i < |nodes| == |h.nodes| && OthersSame(nodes, h.nodes, i)
    requires ClusterMoves(app, nodes, h.nodes, i, t, turn, bad)
    ensures ClusterMoves(app, nodes, AnswerInCluster(h, i, id), i, t, turn, bad)
  {
    hide ClusterHolds, MemberIds, Turns, OthersSame, SameCore, ChannelSockets;
    var r := AnswerInCluster(h, i, id);
    AnswerInClusterCore(h, i, id);
    SameCoreMembers(h.nodes[i], r[i], t.channel);
    SameHolds(h.nodes, r, i, t);
  }

  lemma SubscribingInClusterMoves(app: AppId, cfg: Config, nodes: seq<State>, i: nat, id: SocketId, sub: Subscription,
                                  t: Topic)
    requires i < |nodes| && id in nodes[i].sockets && Grounded(nodes[i]) && t.app == app
    ensures var r := Subscribing(id, sub);
      ClusterMoves(app, nodes, ClusterStep(cfg, nodes, i, r), i, t, ClusterTurn(cfg, nodes, i, r, t),
                   MisinformsInCluster(cfg, nodes, i, r, t))
  {
    var h := SubscribeInCluster(cfg, nodes, i, id, sub);
    var bad := MisinformsInCluster(cfg, nodes, i, Subscribing(id, sub), t);
    hide ClusterMoves, SubscribeAt, JoinInCluster, JoinTurnAt, JoinMisleadsInCluster, OthersSame, GatheredCount,
         ValidName, Grounded, SameCore, MemberIds, ChannelSockets;
    if AdmittedInCluster(cfg, nodes, i, id, sub) {
      JoinInClusterMoves(app, nodes, i, id, sub, t);
      JoinInClusterCore(nodes, i, id, sub);
    } else {
      TurnedAwayCore(cfg, nodes[i], id, sub, GatheredCount(nodes, sub.channel));
      StaysLocal(nodes, i, h.nodes[i]);
      SameCoreMembers(nodes[i], h.nodes[i], t.channel);
      NothingMoves(app, nodes, h.nodes, i, t);
    }
    AnswerInClusterMoves(app, nodes, h, i, id, t, ClusterTurn(cfg, nodes, i, Subscribing(id, sub), t), bad);
  }

  /** Requests that stay on their node and change nobody's membership. */
  predicate StaysOnNode(s: State, r: Request)
    requires Enabled(s, r)
  {
    match r
    case Unsubscribing(id, left) => left !in s.sockets[id].subscribed
    case SigningIn(_, tokenOk, user, _) => user == "" || tokenOk
    case Connect(_) => true
    case Compacting => true
    case _ => false
  }

  lemma LocalMoves(app: AppId, cfg: Config, nodes: seq<State>, i: nat, r: Request, t: Topic)
    requires i < |nodes| && Enabled(nodes[i], r) && Grounded(nodes[i]) && StaysOnNode(nodes[i], r)
    ensures ClusterMoves(app, nodes, nodes[i := Step(cfg, nodes[i], r)], i, t, [], false)
  {
    var s, s' := nodes[i], Step(cfg, nodes[i], r);
    StaysLocal(nodes, i, s');
    LocalMembers(cfg, s, r, t.channel);
    hide Step, MemberIds, ClusterMoves, OthersSame, Grounded, StaysOnNode, ChannelSockets;
    NothingMoves(app, nodes, nodes[i := s'], i, t);
  }

  lemma LocalMembers(cfg: Config, s: State, r: Request, c: ChannelName)
    requires Enabled(s, r) && Grounded(s) && StaysOnNode(s, r)
    ensures Step(cfg, s, r).emitted == s.emitted
    ensures MemberIds(Step(cfg, s, r), c) == MemberIds(s, c)
    ensures ChannelSockets(Step(cfg, s, r), c) == ChannelSockets(s, c)
  {
    match r
    case Connect(id) => ConnectMembers(cfg, s, id, c);
    case Unsubscribing(id, left) =>
      UnsubscribingCore(cfg, s, id, left);
      SameCoreMembers(s, Step(cfg, s, r), c);
    case SigningIn(id, tokenOk, user, order) => SigninMembers(cfg, s, id, tokenOk, user, order, c);
    case Compacting =>
      CompactIsIdentity(s);
      SameAtHolds(s, CompactMaps(s), Topic.Occupancy("", c));
  }

  lemma SigninMembers(cfg: Config, s: State, id: SocketId, tokenOk: bool, user: UserId, order: seq<ChannelName>,
                      c: ChannelName)
    requires id in s.sockets && (user == "" || tokenOk)
    ensures var r := Step(cfg, s, SigningIn(id, tokenOk, user, order));
      r.emitted == s.emitted && MemberIds(r, c) == MemberIds(s, c) && ChannelSockets(r, c) == ChannelSockets(s, c)
  {
    SigningInCore(cfg, s, id, tokenOk, user, order);
    SameAtHolds(s, Step(cfg, s, SigningIn(id, tokenOk, user, order)), Topic.Occupancy("", c));
  }

  lemma ConnectMembers(cfg: Config, s: State, id: SocketId, c: ChannelName)
    requires ListedSubscribe(s)
    ensures MemberIds(AddSocket(cfg, s, id), c) == MemberIds(s, c)
    ensures ChannelSockets(AddSocket(cfg, s, id), c) == ChannelSockets(s, c)
  {
    var r := AddSocket(cfg, s, id);
    assert ChannelSockets(r, c) == ChannelSockets(s, c);
    assert forall j | j in s.sockets :: r.sockets[j] == s.sockets[j];
  }

  /** Every request moves every topic, and misleads about it exactly as named. */
  lemma ClusterStepMoves(app: AppId, cfg: Config, nodes: seq<State>, i: nat, r: Request, t: Topic)
    requires i < |nodes| && Enabled(nodes[i], r) && Grounded(nodes[i]) && t.app == app
    ensures ClusterMoves(app, nodes, ClusterStep(cfg, nodes, i, r), i, t, ClusterTurn(cfg, nodes, i, r, t),
                         MisinformsInCluster(cfg, nodes, i, r, t))
  {
    hide ClusterMoves, SubscribeInCluster, JoinTurnAt, JoinMisleadsInCluster, LeaveTurnAt, CloseTurnAt, Grounded,
         LeaveInCluster, CloseInCluster, OthersSame, AdmittedInCluster, AnswerInCluster, Step, SocketsElsewhere;
    match r
    case Subscribing(id, sub) => SubscribingInClusterMoves(app, cfg, nodes, i, id, sub, t);
    case Unsubscribing(id, left) =>
      if left in nodes[i].sockets[id].subscribed {
        LeaveInClusterMoves(app, nodes, i, id, left, t);
      } else {
        LocalMoves(app, cfg, nodes, i, r, t);
      }
    case SigningIn(id, tokenOk, user, order) =>
      if user != "" && !tokenOk {
        var h := Handled(CloseInCluster(nodes, i, id, order), Some(UnauthorizedConnection));
        CloseInClusterMoves(app, nodes, i, id, order, t);
        CloseInClusterCore(nodes, i, id, order);
        AnswerInClusterMoves(app, nodes, h, i, id, t, CloseTurnAt(nodes, i, id, t),
                    t.Occupancy? && LeavesSilentlyInCluster(nodes, i, id, t.channel));
      } else {
        LocalMoves(app, cfg, nodes, i, r, t);
      }
    case Closing(id, order) => CloseInClusterMoves(app, nodes, i, id, order, t);
    case _ => LocalMoves(app, cfg, nodes, i, r, t);
  }

  // ---------- truth ----------

  /** What all nodes together announced about t alternates, and the last of it says how things are in the cluster. */
  ghost predicate ClusterTold(app: AppId, w: World, t: Topic) {
    Truthful(Turns(app, w.log, t), ClusterHolds(w.nodes, t))
  }

  lemma LogTurns(app: AppId, cfg: Config, w: World, i: nat, r: Request, t: Topic)
    requires i < |w.nodes| && Enabled(w.nodes[i], r) && Grounded(w.nodes[i]) && t.app == app
    ensures Turns(app, Advance(cfg, w, i, r).log, t) == Turns(app, w.log, t) + ClusterTurn(cfg, w.nodes, i, r, t)
  {
    hide Turns, ClusterTurn, MisinformsInCluster, ClusterStep, ClusterHolds, Grounded;
    var s, s' := w.nodes[i], ClusterStep(cfg, w.nodes, i, r)[i];
    ClusterStepMoves(app, cfg, w.nodes, i, r, t);
    TurnsOfSuffix(app, w.log, s.emitted, s'.emitted, t, ClusterTurn(cfg, w.nodes, i, r, t));
  }

  lemma TurnsOfSuffix(app: AppId, log: seq<Hook>, before: seq<Hook>, after: seq<Hook>, t: Topic, turn: seq<bool>)
    requires before <= after && Turns(app, after, t) == Turns(app, before, t) + turn
    ensures Turns(app, log + after[|before|..], t) == Turns(app, log, t) + turn
  {
    hide Turns;
    var more := after[|before|..];
    assert after == before + more;
    TurnsConcat(app, before, more, t);
    TurnsConcat(app, log, more, t);
    SameTail(Turns(app, before, t), Turns(app, more, t), turn);
  }

  lemma SameTail(a: seq<bool>, b: seq<bool>, d: seq<bool>)
    requires a + b == a + d
    ensures b == d
  {
    assert b == (a + b)[|a|..];
    assert d == (a + d)[|a|..];
  }

  /** One request anywhere in the cluster keeps the events about a topic truthful if and only if it does not misinform
      about that very topic. */
  lemma ClusterTopicStep(app: AppId, cfg: Config, w: World, i: nat, r: Request, t: Topic)
    requires i < |w.nodes| && Enabled(w.nodes[i], r) && Grounded(w.nodes[i]) && t.app == app && ClusterTold(app, w, t)
    ensures ClusterTold(app, Advance(cfg, w, i, r), t) <==> !MisinformsInCluster(cfg, w.nodes, i, r, t)
  {
    hide Turns, ClusterTurn, MisinformsInCluster, ClusterStep, ClusterHolds, Grounded, Truthful, Balance;
    LogTurns(app, cfg, w, i, r, t);
    ClusterStepMoves(app, cfg, w.nodes, i, r, t);
    TurnFollows(Turns(app, w.log, t), ClusterHolds(w.nodes, t), ClusterTurn(cfg, w.nodes, i, r, t),
                ClusterHolds(ClusterStep(cfg, w.nodes, i, r), t));
  }

  /** member_added and member_removed: on which nodes the sockets of the user are does not matter. */
  lemma ClusterMembersStep(app: AppId, cfg: Config, w: World, i: nat, r: Request, c: ChannelName, u: UserId)
    requires i < |w.nodes| && Enabled(w.nodes[i], r) && Grounded(w.nodes[i])
    requires Truthful(Turns(app, w.log, Topic.Membership(app, c, u)), u in ClusterMembers(w.nodes, c))
    ensures var w', t := Advance(cfg, w, i, r), Topic.Membership(app, c, u);
      Truthful(Turns(app, w'.log, t), u in ClusterMembers(w'.nodes, c)) <==>
        !(r.Subscribing? && r.sub.channel == c && AdmittedInCluster(cfg, w.nodes, i, r.id, r.sub)
          && LosesInCluster(w.nodes, i, r.id, c, r.sub.member.userId, u))
  {
    ClusterTopicStep(app, cfg, w, i, r, Topic.Membership(app, c, u));
    hide Turns, Truthful, Advance, ClusterMembers, LosesInCluster, AdmittedInCluster;
  }

  // ---------- whole runs ----------

  lemma ClusterStepGrounded(cfg: Config, nodes: seq<State>, i: nat, r: Request)
    requires i < |nodes| && Enabled(nodes[i], r) && forall j | 0 <= j < |nodes| :: Grounded(nodes[j])
    ensures forall j | 0 <= j < |nodes| :: Grounded(ClusterStep(cfg, nodes, i, r)[j])
  {
    var nodes', s := ClusterStep(cfg, nodes, i, r), nodes[i];
    hide Grounded;
    HandlerGrounded(cfg, nodes, i, r);
    hide ClusterStep;
    forall j | 0 <= j < |nodes| ensures Grounded(nodes'[j]) {
      if j != i {
        assert SameCore(nodes[j], nodes'[j]);
        SameCoreGrounded(nodes[j], nodes'[j]);
      }
    }
  }

  lemma HandlerGrounded(cfg: Config, nodes: seq<State>, i: nat, r: Request)
    requires i < |nodes| && Enabled(nodes[i], r) && Grounded(nodes[i])
    ensures OthersSame(nodes, ClusterStep(cfg, nodes, i, r), i) && Grounded(ClusterStep(cfg, nodes, i, r)[i])
  {
    hide Grounded, SubscribeInCluster, LeaveInCluster, CloseInCluster, AdmittedInCluster, AnswerInCluster, JoinRel,
         LeaveRel, CloseRel, SigninRel, SameCore, Step, AddSocket;
    var s, r' := nodes[i], ClusterStep(cfg, nodes, i, r)[i];
    match r
    case Subscribing(id, sub) =>
      SubscribeInClusterCore(cfg, nodes, i, id, sub);
      if AdmittedInCluster(cfg, nodes, i, id, sub) { JoinGrounded(s, r', id, sub); } else { SameCoreGrounded(s, r'); }
    case Unsubscribing(id, c) =>
      if c in s.sockets[id].subscribed {
        LeaveInClusterCore(nodes, i, id, c);
        LeaveGrounded(s, r', id, c);
      } else {
        StaysLocal(nodes, i, r');
        GroundedStep(cfg, s, r);
      }
    case SigningIn(id, tokenOk, user, order) =>
      SigninInClusterCore(cfg, nodes, i, id, tokenOk, user, order);
      if user == "" { SameCoreGrounded(s, r'); }
      else if !tokenOk { CloseGrounded(s, r', id); }
      else { SigninGrounded(s, r', id, user); }
    case Closing(id, order) =>
      CloseInClusterCore(nodes, i, id, order);
      CloseGrounded(s, r', id);
    case _ =>
      StaysLocal(nodes, i, r');
      GroundedStep(cfg, s, r);
  }

  /** How many requests of the run misinformed about t. */
  function ClusterMisinformations(cfg: Config, size: nat, steps: seq<(nat, Request)>, t: Topic): nat {
    if steps == [] then 0
    else
      var w, step := ClusterRun(cfg, size, steps[..|steps| - 1]), steps[|steps| - 1];
      ClusterMisinformations(cfg, size, steps[..|steps| - 1], t)
      + (if step.0 < size && Enabled(w.nodes[step.0], step.1) && MisinformsInCluster(cfg, w.nodes, step.0, step.1, t)
         then 1 else 0)
  }

  function ClusterExcess(app: AppId, w: World, t: Topic): int {
    Balance(Turns(app, w.log, t)) - AsInt(ClusterHolds(w.nodes, t))
  }

  lemma ClusterExcessStep(app: AppId, cfg: Config, w: World, i: nat, r: Request, t: Topic)
    requires i < |w.nodes| && Enabled(w.nodes[i], r) && Grounded(w.nodes[i]) && t.app == app
    ensures ClusterExcess(app, Advance(cfg, w, i, r), t) ==
      ClusterExcess(app, w, t) + (if MisinformsInCluster(cfg, w.nodes, i, r, t) then 1 else 0)
  {
    hide Turns, ClusterTurn, MisinformsInCluster, ClusterStep, ClusterHolds, Grounded, Truthful, Balance;
    LogTurns(app, cfg, w, i, r, t);
    ClusterStepMoves(app, cfg, w.nodes, i, r, t);
    TurnFollows(Turns(app, w.log, t), ClusterHolds(w.nodes, t), ClusterTurn(cfg, w.nodes, i, r, t),
                ClusterHolds(ClusterStep(cfg, w.nodes, i, r), t));
  }

  lemma {:induction false} NoConnections(size: nat, c: ChannelName)
    ensures Connections(seq(size, _ => EMPTY), c) == 0
  {
    if size > 0 {
      NoConnections(size - 1, c);
      assert seq(size, _ => EMPTY)[..size - 1] == seq(size - 1, _ => EMPTY);
      assert ChannelSockets(EMPTY, c) == {};
    }
  }

  lemma NothingToldYet(app: AppId, cfg: Config, size: nat, t: Topic)
    ensures var w := ClusterRun(cfg, size, []);
      ClusterTold(app, w, t) && ClusterExcess(app, w, t) == 0
      && forall j | 0 <= j < size :: Grounded(w.nodes[j])
  {
    ClusterMembersAre(ClusterRun(cfg, size, []).nodes, t.channel);
    NoConnections(size, t.channel);
    assert MemberIds(EMPTY, t.channel) == {};
  }

  /** In every run of any number of nodes with serialised requests, "on" was announced for a topic, by whichever nodes,
      more often than "off" by one for each request that misinformed about that very topic, and one more if it is on. So
      the events about it alternate and end with the truth if and only if there was none. */
  lemma {:induction false} ClusterRunTells(app: AppId, cfg: Config, size: nat, steps: seq<(nat, Request)>, t: Topic)
    requires t.app == app
    ensures var w := ClusterRun(cfg, size, steps);
      && (forall j | 0 <= j < size :: Grounded(w.nodes[j]))
      && ClusterExcess(app, w, t) == ClusterMisinformations(cfg, size, steps, t)
      && (ClusterTold(app, w, t) <==> ClusterMisinformations(cfg, size, steps, t) == 0)
  {
    hide ClusterExcess, ClusterTold, MisinformsInCluster, Advance, Grounded;
    if steps == [] {
      NothingToldYet(app, cfg, size, t);
    } else {
      var w, step := ClusterRun(cfg, size, steps[..|steps| - 1]), steps[|steps| - 1];
      ClusterRunTells(app, cfg, size, steps[..|steps| - 1], t);
      if step.0 < size && Enabled(w.nodes[step.0], step.1) {
        AdvanceGrounded(cfg, w, step.0, step.1);
        ClusterExcessStep(app, cfg, w, step.0, step.1, t);
        if ClusterTold(app, w, t) { ClusterTopicStep(app, cfg, w, step.0, step.1, t); }
      }
    }
    if ClusterTold(app, ClusterRun(cfg, size, steps), t) {
      ClusterToldHasNoExcess(app, ClusterRun(cfg, size, steps), t);
    }
  }

  lemma AdvanceGrounded(cfg: Config, w: World, i: nat, r: Request)
    requires i < |w.nodes| && Enabled(w.nodes[i], r) && forall j | 0 <= j < |w.nodes| :: Grounded(w.nodes[j])
    ensures forall j | 0 <= j < |w.nodes| :: Grounded(Advance(cfg, w, i, r).nodes[j])
  {
    hide Grounded, ClusterStep;
    ClusterStepGrounded(cfg, w.nodes, i, r);
  }

  lemma ClusterToldHasNoExcess(app: AppId, w: World, t: Topic)
    requires ClusterTold(app, w, t)
    ensures ClusterExcess(app, w, t) == 0
  {
    TruthfulBalances(Turns(app, w.log, t), ClusterHolds(w.nodes, t));
  }
}
