/** Several nodes, with requests handled one after another: every query that the program sends to the whole cluster is
    answered completely, and every message that it sends to a channel is delivered on all nodes
    (internal/adaptersHorizontal.go, internal/channels.go, internal/websocket.go). */
module ClusterMembership {
  import opened Wrappers
  import opened Names
  import opened Membership
  import opened MembershipCore
  import opened MembershipIndex

  // ---------- what a gather over all nodes returns ----------

  /** The distinct members of a channel over all nodes: the keys of a gathered GetChannelMembers (see
      GatheredQueries.ReturnsMembers). */
  function ClusterMembers(nodes: seq<State>, c: ChannelName): set<UserId> {
    if nodes == [] then {} else ClusterMembers(nodes[..|nodes| - 1], c) + MemberIds(nodes[|nodes| - 1], c)
  }

  /** What gathering GetChannelMembersCount returns: the sum of the nodes' counts (see
      GatheredQueries.ReturnsMemberCount). */
  function GatheredCount(nodes: seq<State>, c: ChannelName): nat {
    if nodes == [] then 0 else GatheredCount(nodes[..|nodes| - 1], c) + |MemberIds(nodes[|nodes| - 1], c)|
  }

  /** What gathering GetChannelSocketsCount returns (see GatheredQueries.ReturnsConnections). */
  function Connections(nodes: seq<State>, c: ChannelName): nat {
    if nodes == [] then 0 else Connections(nodes[..|nodes| - 1], c) + |ChannelSockets(nodes[|nodes| - 1], c)|
  }

  lemma {:induction false} ClusterMembersAre(nodes: seq<State>, c: ChannelName)
    ensures forall u :: u in ClusterMembers(nodes, c) <==> exists i :: 0 <= i < |nodes| && u in MemberIds(nodes[i], c)
  {
    if nodes != [] {
      var init, last := nodes[..|nodes| - 1], nodes[|nodes| - 1];
      ClusterMembersAre(init, c);
      forall u ensures u in ClusterMembers(nodes, c) <==> exists i :: 0 <= i < |nodes| && u in MemberIds(nodes[i], c) {
        if i :| 0 <= i < |nodes| && u in MemberIds(nodes[i], c) {
          if i < |init| { assert u in MemberIds(init[i], c); }
        }
        if u in ClusterMembers(init, c) {
          var i :| 0 <= i < |init| && u in MemberIds(init[i], c);
          assert nodes[i] == init[i];
        }
        if u in MemberIds(last, c) { assert nodes[|nodes| - 1] == last; }
      }
    }
  }

  // ---------- one request on node i ----------

  /** What a send to a channel does on the nodes that only receive it; the exclusion gets lost on the way. */
  function TellOthers(nodes: seq<State>, i: nat, c: ChannelName, m: Message): (r: seq<State>)
    ensures |r| == |nodes|
  {
    seq(|nodes|, j requires 0 <= j < |nodes| => if j == i then nodes[j] else LocalSend(nodes[j], c, m, ""))
  }

  datatype Handled = Handled(nodes: seq<State>, error: Option<ErrorCode>)

  /** The part of a join shared by all channel kinds, for a connection count. */
  function EnterAt(s: State, id: SocketId, sub: Subscription, count: int): (r: State)
    requires id in s.sockets
    ensures r.sockets.Keys == s.sockets.Keys
  {
    var c := sub.channel;
    var s1 := s.(channels := Append(s.channels, c, id));
    var s2 := s1.(sockets := s1.sockets[id := Track(s1.sockets[id], sub)]);
    if count == 1 then Emit(s2, ChannelOccupied(c)) else s2
  }

  /** A join on its own node, for the connection count and the members that were gathered. */
  function JoinAt(s: State, id: SocketId, sub: Subscription, count: int, members: set<UserId>): Outcome
    requires id in s.sockets
  {
    var c, s1 := sub.channel, EnterAt(s, id, sub, count);
    if CreateChannel(c).kind != Presence then
      Outcome(SendCache(Deliver(s1, id, SubscriptionSucceeded(c, None)), id, sub), None)
    else if sub.member.userId == "" then
      Outcome(s1, Some(InvalidPayload))
    else
      var s2 := AnnounceMember(s1, id, sub, members);
      Outcome(SendCache(Deliver(s2, id, SubscriptionSucceeded(c, Some(members + {sub.member.userId}))), id, sub), None)
  }

  /** A presence join counts the sockets of the whole cluster, any other the entries of the node's own list. */
  function CountOnJoin(nodes: seq<State>, i: nat, id: SocketId, c: ChannelName): int
    requires i < |nodes|
  {
    var s1 := nodes[i].(channels := Append(nodes[i].channels, c, id));
    if CreateChannel(c).kind == Presence then Connections(nodes[i := s1], c) else |Listed(s1.channels, c)|
  }

  /** The members that a joining socket finds. */
  function MembersOnJoin(nodes: seq<State>, i: nat, id: SocketId, sub: Subscription): set<UserId>
    requires i < |nodes| && id in nodes[i].sockets
  {
    ClusterMembers(nodes[i := EnterAt(nodes[i], id, sub, CountOnJoin(nodes, i, id, sub.channel))], sub.channel)
  }

  function JoinInCluster(nodes: seq<State>, i: nat, id: SocketId, sub: Subscription): (h: Handled)
    requires i < |nodes| && id in nodes[i].sockets
    ensures |h.nodes| == |nodes|
  {
    var c, members := sub.channel, MembersOnJoin(nodes, i, id, sub);
    var o := JoinAt(nodes[i], id, sub, CountOnJoin(nodes, i, id, c), members);
    var announced :=
      CreateChannel(c).kind == Presence && sub.member.userId != "" && sub.member.userId !in members;
    var told := if announced then TellOthers(nodes, i, c, MemberAdded(c, sub.member)) else nodes;
    Handled(told[i := o.state], o.error)
  }

  /** Leaving on its own node: `vacant` says that no connection is left, `stays` that another socket carries the
      user. */
  function LeaveAt(s: State, id: SocketId, c: ChannelName, vacant: bool, stays: bool): (r: State)
    requires id in s.sockets
    ensures r.sockets.Keys == s.sockets.Keys
  {
    var s1 := s.(channels := Drop(s.channels, c, id));
    if CreateChannel(c).kind != Presence then
      ForgetChannel(if vacant then Emit(s1, ChannelVacated(c)) else s1, id, c)
    else
      var s2 := s1.(sockets := s1.sockets[id := s1.sockets[id].(presence := s1.sockets[id].presence - {c})]);
      if c !in s.sockets[id].presence then s2
      else
        var user := s.sockets[id].presence[c].userId;
        var s3 := if stays then s2 else LocalSend(Emit(s2, UserRemoved(c, user)), c, MemberRemoved(c, user), id);
        ForgetChannel(if vacant then Emit(s3, ChannelVacated(c)) else s3, id, c)
  }

  /** The node after the socket is off the list and its presence data is gone. */
  function Unlisted(s: State, id: SocketId, c: ChannelName): State
    requires id in s.sockets
  {
    s.(channels := Drop(s.channels, c, id),
       sockets := s.sockets[id := s.sockets[id].(presence := s.sockets[id].presence - {c})])
  }

  predicate StaysMember(nodes: seq<State>, i: nat, id: SocketId, c: ChannelName)
    requires i < |nodes| && id in nodes[i].sockets
  {
    && c in nodes[i].sockets[id].presence
    && nodes[i].sockets[id].presence[c].userId in ClusterMembers(nodes[i := Unlisted(nodes[i], id, c)], c)
  }

  function LeaveInCluster(nodes: seq<State>, i: nat, id: SocketId, c: ChannelName): (r: seq<State>)
    requires i < |nodes| && id in nodes[i].sockets
    ensures |r| == |nodes| && r[i].sockets.Keys == nodes[i].sockets.Keys
  {
    var s := nodes[i];
    var vacant := Connections(nodes[i := s.(channels := Drop(s.channels, c, id))], c) == 0;
    var stays := StaysMember(nodes, i, id, c);
    var announced := CreateChannel(c).kind == Presence && c in s.sockets[id].presence && !stays;
    var told :=
      if announced then TellOthers(nodes, i, c, MemberRemoved(c, s.sockets[id].presence[c].userId)) else nodes;
    told[i := LeaveAt(s, id, c, vacant, stays)]
  }

  function LeaveAllInCluster(nodes: seq<State>, i: nat, id: SocketId, order: seq<ChannelName>): (r: seq<State>)
    requires i < |nodes| && id in nodes[i].sockets
    ensures |r| == |nodes| && r[i].sockets.Keys == nodes[i].sockets.Keys
  {
    if order == [] then nodes
    else LeaveInCluster(LeaveAllInCluster(nodes, i, id, order[..|order| - 1]), i, id, order[|order| - 1])
  }

  function CloseInCluster(nodes: seq<State>, i: nat, id: SocketId, order: seq<ChannelName>): (r: seq<State>)
    requires i < |nodes| && id in nodes[i].sockets
    ensures |r| == |nodes|
  {
    var n1 := LeaveAllInCluster(nodes, i, id, order);
    n1[i := RemoveUser(RemoveSocket(n1[i], id), id, n1[i].sockets[id].userId)]
  }

  /** The request gets as far as adding the socket to the channel. */
  predicate AdmittedInCluster(cfg: Config, nodes: seq<State>, i: nat, id: SocketId, sub: Subscription)
    requires i < |nodes| && id in nodes[i].sockets
  {
    && !sub.closing && !IsOwnUserChannel(nodes[i].sockets[id], sub.channel)
    && ValidName(sub.channel, cfg.maxNameLength)
    && AdmissionAt(cfg, GatheredCount(nodes, sub.channel), sub).Joined?
  }

  /** Everything but a join stays on the node. */
  function SubscribeInCluster(cfg: Config, nodes: seq<State>, i: nat, id: SocketId, sub: Subscription): (h: Handled)
    requires i < |nodes| && id in nodes[i].sockets
    ensures |h.nodes| == |nodes|
  {
    if AdmittedInCluster(cfg, nodes, i, id, sub) then JoinInCluster(nodes, i, id, sub)
    else
      var o := SubscribeAt(cfg, nodes[i], id, sub, GatheredCount(nodes, sub.channel));
      Handled(nodes[i := o.state], o.error)
  }

  function AnswerInCluster(h: Handled, i: nat, id: SocketId): (r: seq<State>)
    requires i < |h.nodes|
    ensures |r| == |h.nodes|
  {
    h.nodes[i := Answer(Outcome(h.nodes[i], h.error), id)]
  }

  function ClusterStep(cfg: Config, nodes: seq<State>, i: nat, r: Request): (nodes': seq<State>)
    requires i < |nodes| && Enabled(nodes[i], r)
    ensures |nodes'| == |nodes|
  {
    match r
    case Subscribing(id, sub) => AnswerInCluster(SubscribeInCluster(cfg, nodes, i, id, sub), i, id)
    case Unsubscribing(id, c) =>
      if c !in nodes[i].sockets[id].subscribed then nodes[i := Step(cfg, nodes[i], r)]
      else LeaveInCluster(nodes, i, id, c)
    case SigningIn(id, tokenOk, user, order) =>
      if user == "" || tokenOk then nodes[i := Step(cfg, nodes[i], r)]
      else AnswerInCluster(Handled(CloseInCluster(nodes, i, id, order), Some(UnauthorizedConnection)), i, id)
    case Closing(id, order) => CloseInCluster(nodes, i, id, order)
    case _ => nodes[i := Step(cfg, nodes[i], r)]
  }

  // ---------- runs ----------

  /** The nodes, and everything they emitted, in order. */
  datatype World = World(nodes: seq<State>, log: seq<Hook>)

  function Advance(cfg: Config, w: World, i: nat, r: Request): World
    requires i < |w.nodes| && Enabled(w.nodes[i], r)
  {
    var nodes := ClusterStep(cfg, w.nodes, i, r);
    World(nodes, w.log + NewHooks(w.nodes[i], nodes[i]))
  }

  /** The cluster after a list of (node, request) pairs; those that are not enabled are skipped. */
  function ClusterRun(cfg: Config, size: nat, steps: seq<(nat, Request)>): (w: World)
    ensures |w.nodes| == size
  {
    if steps == [] then World(seq(size, _ => EMPTY), [])
    else
      var w, step := ClusterRun(cfg, size, steps[..|steps| - 1]), steps[|steps| - 1];
      if step.0 < size && Enabled(w.nodes[step.0], step.1) then Advance(cfg, w, step.0, step.1) else w
  }

  // ---------- what a request does, apart from inboxes ----------

  /** The nodes other than i only received messages. */
  ghost predicate OthersSame(nodes: seq<State>, nodes': seq<State>, i: nat) {
    && |nodes'| == |nodes|
    && forall j | 0 <= j < |nodes| && j != i :: SameCore(nodes[j], nodes'[j])
  }

  lemma TellOthersSame(nodes: seq<State>, i: nat, c: ChannelName, m: Message)
    requires i < |nodes|
    ensures OthersSame(nodes, TellOthers(nodes, i, c, m), i) && TellOthers(nodes, i, c, m)[i] == nodes[i]
  {
    forall j | 0 <= j < |nodes| && j != i ensures SameCore(nodes[j], TellOthers(nodes, i, c, m)[j]) {
      SendSameCore(nodes[j], c, m, "");
    }
  }

  lemma EnterAtCore(s: State, id: SocketId, sub: Subscription, count: int)
    requires id in s.sockets
    ensures var r := EnterAt(s, id, sub, count);
      && r.channels == Append(s.channels, sub.channel, id) && r.users == s.users
      && r.sockets == s.sockets[id := Track(s.sockets[id], sub)]
  {
  }

  lemma JoinAtCore(s: State, id: SocketId, sub: Subscription, count: int, members: set<UserId>)
    requires id in s.sockets
    ensures JoinRel(s, JoinAt(s, id, sub, count, members).state, id, sub)
  {
    CacheFlagsAgree(sub.channel);
    EnterAtCore(s, id, sub, count);
    var c, s1 := sub.channel, EnterAt(s, id, sub, count);
    if CreateChannel(c).kind != Presence {
      FinishCore(s1, id, SubscriptionSucceeded(c, None), sub);
    } else if sub.member.userId != "" {
      AnnounceCore(s1, id, sub, members);
      var roster := members + {sub.member.userId};
      FinishCore(AnnounceMember(s1, id, sub, members), id, SubscriptionSucceeded(c, Some(roster)), sub);
    }
  }

  lemma JoinInClusterCore(nodes: seq<State>, i: nat, id: SocketId, sub: Subscription)
    requires i < |nodes| && id in nodes[i].sockets
    ensures var r := JoinInCluster(nodes, i, id, sub).nodes;
      OthersSame(nodes, r, i) && JoinRel(nodes[i], r[i], id, sub)
  {
    hide JoinAt, MembersOnJoin, CountOnJoin, TellOthers, CreateChannel, JoinRel;
    JoinAtCore(nodes[i], id, sub, CountOnJoin(nodes, i, id, sub.channel), MembersOnJoin(nodes, i, id, sub));
    TellOthersSame(nodes, i, sub.channel, MemberAdded(sub.channel, sub.member));
  }

  lemma LeaveAtCore(s: State, id: SocketId, c: ChannelName, vacant: bool, stays: bool)
    requires id in s.sockets
    ensures LeaveRel(s, LeaveAt(s, id, c, vacant, stays), id, c)
  {
    CacheFlagsAgree(c);
    hide CreateChannel, IsPresence, LocalSend, Drop;
    if c in s.sockets[id].presence {
      var user := s.sockets[id].presence[c].userId;
      var s1 := s.(channels := Drop(s.channels, c, id));
      var s2 := s1.(sockets := s1.sockets[id := s1.sockets[id].(presence := s1.sockets[id].presence - {c})]);
      SendSameCore(Emit(s2, UserRemoved(c, user)), c, MemberRemoved(c, user), id);
    }
  }

  lemma LeaveInClusterCore(nodes: seq<State>, i: nat, id: SocketId, c: ChannelName)
    requires i < |nodes| && id in nodes[i].sockets
    ensures var r := LeaveInCluster(nodes, i, id, c);
      OthersSame(nodes, r, i) && LeaveRel(nodes[i], r[i], id, c)
  {
    hide LeaveAt, StaysMember, TellOthers, CreateChannel, LeaveRel, Connections;
    var s := nodes[i];
    LeaveAtCore(s, id, c, Connections(nodes[i := s.(channels := Drop(s.channels, c, id))], c) == 0,
                StaysMember(nodes, i, id, c));
    if c in s.sockets[id].presence { TellOthersSame(nodes, i, c, MemberRemoved(c, s.sockets[id].presence[c].userId)); }
  }

  lemma OthersSameTrans(a: seq<State>, b: seq<State>, d: seq<State>, i: nat)
    requires OthersSame(a, b, i) && OthersSame(b, d, i)
    ensures OthersSame(a, d, i)
  {
    forall j | 0 <= j < |a| && j != i ensures SameCore(a[j], d[j]) {
      assert SameCore(a[j], b[j]) && SameCore(b[j], d[j]);
    }
  }

  lemma {:induction false} LeaveAllInClusterCore(nodes: seq<State>, i: nat, id: SocketId, order: seq<ChannelName>)
    requires i < |nodes| && id in nodes[i].sockets
    ensures var r := LeaveAllInCluster(nodes, i, id, order);
      OthersSame(nodes, r, i) && LeaveAllRel(nodes[i], r[i], id)
  {
    hide LeaveInCluster;
    if order != [] {
      var init, last := order[..|order| - 1], order[|order| - 1];
      var mid := LeaveAllInCluster(nodes, i, id, init);
      LeaveAllInClusterCore(nodes, i, id, init);
      LeaveInClusterCore(mid, i, id, last);
      DropThenEverywhere(mid[i].channels, last, id);
      OthersSameTrans(nodes, mid, LeaveInCluster(mid, i, id, last), i);
    }
  }

  lemma CloseInClusterCore(nodes: seq<State>, i: nat, id: SocketId, order: seq<ChannelName>)
    requires i < |nodes| && id in nodes[i].sockets
    ensures var r := CloseInCluster(nodes, i, id, order);
      OthersSame(nodes, r, i) && CloseRel(nodes[i], r[i], id)
  {
    hide LeaveAllInCluster;
    LeaveAllInClusterCore(nodes, i, id, order);
  }

  lemma TurnedAwayCore(cfg: Config, s: State, id: SocketId, sub: Subscription, memberCount: int)
    requires id in s.sockets
    requires !(!sub.closing && !IsOwnUserChannel(s.sockets[id], sub.channel)
               && ValidName(sub.channel, cfg.maxNameLength) && AdmissionAt(cfg, memberCount, sub).Joined?)
    ensures SameCore(s, SubscribeAt(cfg, s, id, sub, memberCount).state)
    ensures SubscribeAt(cfg, s, id, sub, memberCount).state.emitted == s.emitted
  {
    hide CreateChannel, ValidName, JoinChannel, Refuse, AdmissionAt;
    if AdmissionAt(cfg, memberCount, sub).Refused? {
      var v := AdmissionAt(cfg, memberCount, sub);
      RefuseCore(s, id, sub.channel, v.reason, v.code);
      RefuseEmitsNothing(s, id, sub.channel, v.reason, v.code);
    }
  }

  lemma RefuseEmitsNothing(s: State, id: SocketId, c: ChannelName, reason: string, code: ErrorCode)
    ensures Refuse(s, id, c, reason, code).state.emitted == s.emitted
  {
  }

  lemma AnswerInClusterCore(h: Handled, i: nat, id: SocketId)
    requires i < |h.nodes|
    ensures var r := AnswerInCluster(h, i, id);
      OthersSame(h.nodes, r, i) && SameCore(h.nodes[i], r[i]) && r[i].emitted == h.nodes[i].emitted
  {
  }

  lemma SubscribeInClusterCore(cfg: Config, nodes: seq<State>, i: nat, id: SocketId, sub: Subscription)
    requires i < |nodes| && id in nodes[i].sockets
    ensures var r := ClusterStep(cfg, nodes, i, Subscribing(id, sub));
      && OthersSame(nodes, r, i)
      && if AdmittedInCluster(cfg, nodes, i, id, sub) then JoinRel(nodes[i], r[i], id, sub)
         else SameCore(nodes[i], r[i])
  {
    hide JoinInCluster, GatheredCount, SubscribeAt, ValidName, AdmissionAt;
    var h := SubscribeInCluster(cfg, nodes, i, id, sub);
    AnswerInClusterCore(h, i, id);
    if AdmittedInCluster(cfg, nodes, i, id, sub) {
      JoinInClusterCore(nodes, i, id, sub);
    } else {
      TurnedAwayCore(cfg, nodes[i], id, sub, GatheredCount(nodes, sub.channel));
    }
    OthersSameTrans(nodes, h.nodes, ClusterStep(cfg, nodes, i, Subscribing(id, sub)), i);
  }

  lemma SigninInClusterCore(cfg: Config, nodes: seq<State>, i: nat, id: SocketId, tokenOk: bool, user: UserId,
                            order: seq<ChannelName>)
    requires i < |nodes| && Enabled(nodes[i], SigningIn(id, tokenOk, user, order))
    ensures var r := ClusterStep(cfg, nodes, i, SigningIn(id, tokenOk, user, order));
      && OthersSame(nodes, r, i)
      && if user == "" then SameCore(nodes[i], r[i])
         else if !tokenOk then CloseRel(nodes[i], r[i], id)
         else SigninRel(nodes[i], r[i], id, user)
  {
    hide CloseInCluster;
    SigningInCore(cfg, nodes[i], id, tokenOk, user, order);
    if user != "" && !tokenOk {
      var h := Handled(CloseInCluster(nodes, i, id, order), Some(UnauthorizedConnection));
      CloseInClusterCore(nodes, i, id, order);
      AnswerInClusterCore(h, i, id);
      OthersSameTrans(nodes, h.nodes, AnswerInCluster(h, i, id), i);
    }
  }

  lemma StaysLocal(nodes: seq<State>, i: nat, r: State)
    requires i < |nodes|
    ensures OthersSame(nodes, nodes[i := r], i)
  {
  }

  // ---------- one node ----------

  lemma Alone(s: State, c: ChannelName)
    ensures ClusterMembers([s], c) == MemberIds(s, c) && GatheredCount([s], c) == |MemberIds(s, c)|
    ensures Connections([s], c) == |ChannelSockets(s, c)|
  {
    assert [s][..0] == [];
  }

  lemma JoinAlone(s: State, id: SocketId, sub: Subscription)
    requires id in s.sockets
    ensures var h, o := JoinInCluster([s], 0, id, sub), JoinChannel(s, id, sub);
      h.nodes == [o.state] && h.error == o.error
  {
    var c, s1 := sub.channel, s.(channels := Append(s.channels, sub.channel, id));
    Alone(s1, c);
    Alone(EnterChannel(s, id, sub), c);
    hide MemberIds, CreateChannel, Track, ChannelSockets, AnnounceMember, SendCache, Deliver;
    assert [s][0 := s1] == [s1];
    assert EnterAt(s, id, sub, CountOnJoin([s], 0, id, c)) == EnterChannel(s, id, sub);
    assert [s][0 := EnterChannel(s, id, sub)] == [EnterChannel(s, id, sub)];
  }

  lemma LeaveAlone(s: State, id: SocketId, c: ChannelName)
    requires id in s.sockets
    ensures LeaveInCluster([s], 0, id, c) == [LeaveChannel(s, id, c)]
  {
    var s1, s2 := s.(channels := Drop(s.channels, c, id)), Unlisted(s, id, c);
    Alone(s1, c);
    Alone(s2, c);
    assert [s][0 := s1] == [s1] && [s][0 := s2] == [s2];
    assert ChannelSockets(s1, c) == ChannelSockets(s2, c);
    var vacant := Connections([s1], c) == 0;
    assert vacant <==> ChannelSockets(s1, c) == {};
    if c in s.sockets[id].presence {
      var user := s.sockets[id].presence[c].userId;
      SendSameCore(Emit(s2, UserRemoved(c, user)), c, MemberRemoved(c, user), id);
      assert ChannelSockets(AnnounceDeparture(s2, id, c, user), c) == ChannelSockets(s2, c);
      hide MemberIds, ChannelSockets, LocalSend, ForgetChannel, CreateChannel, ClusterMembers, Connections;
      assert LeaveAt(s, id, c, vacant, StaysMember([s], 0, id, c)) == LeaveChannel(s, id, c);
    }
  }

  lemma {:induction false} LeaveAllAlone(s: State, id: SocketId, order: seq<ChannelName>)
    requires id in s.sockets
    ensures LeaveAllInCluster([s], 0, id, order) == [LeaveAll(s, id, order)]
  {
    hide LeaveInCluster, LeaveChannel;
    if order != [] {
      LeaveAllAlone(s, id, order[..|order| - 1]);
      LeaveAlone(LeaveAll(s, id, order[..|order| - 1]), id, order[|order| - 1]);
    }
  }

  lemma SubscribeAlone(cfg: Config, s: State, id: SocketId, sub: Subscription)
    requires id in s.sockets
    ensures var h, o := SubscribeInCluster(cfg, [s], 0, id, sub), Subscribe(cfg, s, id, sub);
      h.nodes == [o.state] && h.error == o.error
  {
    hide JoinInCluster, JoinChannel, MemberIds, ValidName, AdmissionAt, Refuse;
    Alone(s, sub.channel);
    if AdmittedInCluster(cfg, [s], 0, id, sub) { JoinAlone(s, id, sub); }
  }

  /** A cluster of one node is the single node of Membership.dfy. */
  lemma OneNode(cfg: Config, s: State, r: Request)
    requires Enabled(s, r)
    ensures ClusterStep(cfg, [s], 0, r) == [Step(cfg, s, r)]
  {
    hide SubscribeInCluster, Subscribe, LeaveInCluster, LeaveChannel, LeaveAllInCluster, LeaveAll, RemoveSocket,
         RemoveUser;
    match r
    case Subscribing(id, sub) => SubscribeAlone(cfg, s, id, sub);
    case Unsubscribing(id, c) => LeaveAlone(s, id, c);
    case SigningIn(id, tokenOk, user, order) => LeaveAllAlone(s, id, order);
    case Closing(id, order) => LeaveAllAlone(s, id, order);
    case _ =>
  }
}
