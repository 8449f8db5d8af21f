/** The member limit of presence channels, on one node and across a cluster. */
module Capacity {
  import opened Wrappers
  import opened Names
  import opened Membership
  import opened MembershipCore
  import opened MembershipIndex
  import opened ClusterMembership

  // ---------- members only appear by joining ----------

  /** r has no socket, listing or presence entry that s does not have. */
  ghost predicate Fewer(s: State, r: State) {
    && r.sockets.Keys <= s.sockets.Keys
    && (forall c, id | c in r.channels && id in r.channels[c] :: c in s.channels && id in s.channels[c])
    && (forall id | id in r.sockets :: r.sockets[id].presence.Items <= s.sockets[id].presence.Items)
  }

  lemma FewerMembers(s: State, r: State, c: ChannelName)
    requires Fewer(s, r)
    ensures MemberIds(r, c) <= MemberIds(s, c)
  {
    forall u | u in MemberIds(r, c) ensures u in MemberIds(s, c) {
      var id :| id in ChannelSockets(r, c) && c in r.sockets[id].presence && r.sockets[id].presence[c].userId == u;
      assert (c, r.sockets[id].presence[c]) in r.sockets[id].presence.Items;
      assert (c, r.sockets[id].presence[c]) in s.sockets[id].presence.Items;
      assert id in ChannelSockets(s, c);
    }
  }

  lemma FewerOfSameCore(s: State, r: State)
    requires SameCore(s, r)
    ensures Fewer(s, r) && (Held(s) ==> Held(r))
  {
  }

  lemma FewerOfLeave(s: State, r: State, id: SocketId, c: ChannelName)
    requires id in s.sockets && LeaveRel(s, r, id, c)
    ensures Fewer(s, r) && (Held(s) ==> Held(r))
  {
    assert (s.sockets[id].presence - {c}).Items <= s.sockets[id].presence.Items;
    forall j | j in r.sockets ensures r.sockets[j].presence.Items <= s.sockets[j].presence.Items {
      if j != id { assert SameSocket(s.sockets[j], r.sockets[j]); }
    }
    if Held(s) {
      forall j, c' | j in r.sockets && c' in r.sockets[j].presence
        ensures IsPresence(c') && j in Listed(r.channels, c')
      {
        if j != id { assert SameSocket(s.sockets[j], r.sockets[j]); }
        assert c' in s.sockets[j].presence;
        assert j == id ==> c' != c;
      }
    }
  }

  lemma FewerOfClose(s: State, r: State, id: SocketId)
    requires id in s.sockets && CloseRel(s, r, id)
    ensures Fewer(s, r) && (Held(s) ==> Held(r))
  {
    if Held(s) {
      forall j, c | j in r.sockets && c in r.sockets[j].presence ensures IsPresence(c) && j in Listed(r.channels, c) {
        assert c in s.sockets[j].presence;
        assert j in Listed(s.channels, c);
        assert j in Without(s.channels[c], id);
      }
    }
  }

  // ---------- one node ----------

  ghost predicate WithinLimit(cfg: Config, s: State) {
    cfg.maxMembers > 0 ==> forall c :: |MemberIds(s, c)| <= cfg.maxMembers
  }

  lemma SmallerSet<T>(a: set<T>, b: set<T>)
    requires a <= b
    ensures |a| <= |b|
  {
    assert b == a + (b - a);
  }

  /** A join adds at most the joining user to one channel's members. */
  lemma JoinAddsOne(s: State, r: State, id: SocketId, sub: Subscription, c: ChannelName)
    requires Held(s) && id in s.sockets && JoinRel(s, r, id, sub)
    ensures Held(r)
    ensures MemberIds(r, c) <= MemberIds(s, c) + (if c == sub.channel && IsPresence(c) then {sub.member.userId} else {})
  {
    hide IsPresence, CreateChannel;
    forall j, c' | j in r.sockets && c' in r.sockets[j].presence ensures IsPresence(c') && j in Listed(r.channels, c') {
      if j != id { assert SameSocket(s.sockets[j], r.sockets[j]); }
      assert c' in s.sockets[j].presence || (j == id && c' == sub.channel);
    }
    forall u | u in MemberIds(r, c)
      ensures u in MemberIds(s, c) || (c == sub.channel && IsPresence(c) && u == sub.member.userId)
    {
      var j :| j in ChannelSockets(r, c) && c in r.sockets[j].presence && r.sockets[j].presence[c].userId == u;
      if j != id { assert SameSocket(s.sockets[j], r.sockets[j]); }
      assert c in s.sockets[j].presence ==> j in ChannelSockets(s, c);
    }
  }

  /** The members after a subscribe request decided on the count `memberCount`: nobody new unless there was room. */
  lemma SubscribeRespectsCount(cfg: Config, s: State, id: SocketId, sub: Subscription, memberCount: int, c: ChannelName)
    requires Held(s) && id in s.sockets
    ensures var r := Answer(SubscribeAt(cfg, s, id, sub, memberCount), id);
      && Held(r) && r.sockets.Keys == s.sockets.Keys
      && (MemberIds(r, c) <= MemberIds(s, c)
          || (c == sub.channel && !OverLimit(cfg, memberCount)
              && MemberIds(r, c) <= MemberIds(s, c) + {sub.member.userId}))
  {
    var o := SubscribeAt(cfg, s, id, sub, memberCount);
    var r := Answer(o, id);
    AnswerCore(o, id);
    FewerOfSameCore(o.state, r);
    FewerMembers(o.state, r, c);
    if !sub.closing && !IsOwnUserChannel(s.sockets[id], sub.channel) && ValidName(sub.channel, cfg.maxNameLength) {
      match AdmissionAt(cfg, memberCount, sub)
      case Joined =>
        JoinCore(s, id, sub);
        JoinAddsOne(s, o.state, id, sub, c);
      case Refused(reason, code) =>
        RefuseCore(s, id, sub.channel, reason, code);
        FewerOfSameCore(s, o.state);
        FewerMembers(s, o.state, c);
    } else {
      FewerOfSameCore(s, o.state);
      FewerMembers(s, o.state, c);
    }
  }

  /** Every request other than a subscribe leaves the members of each channel as they are or fewer. */
  lemma OtherRequestsShrink(cfg: Config, s: State, r: Request)
    requires Held(s) && Enabled(s, r) && !r.Subscribing?
    ensures Held(Step(cfg, s, r)) && forall c :: MemberIds(Step(cfg, s, r), c) <= MemberIds(s, c)
  {
    var s' := Step(cfg, s, r);
    match r
    case Connect(id) => ConnectShrinks(cfg, s, id);
    case Unsubscribing(id, c) =>
      UnsubscribingCore(cfg, s, id, c);
      if c in s.sockets[id].subscribed { FewerOfLeave(s, s', id, c); } else { FewerOfSameCore(s, s'); }
      forall c' ensures MemberIds(s', c') <= MemberIds(s, c') { FewerMembers(s, s', c'); }
    case SigningIn(id, tokenOk, user, order) =>
      SigninShrinks(cfg, s, id, tokenOk, user, order);
    case Closing(id, order) =>
      CloseCore(s, id, order);
      FewerOfClose(s, s', id);
      forall c' ensures MemberIds(s', c') <= MemberIds(s, c') { FewerMembers(s, s', c'); }
    case Compacting =>
      assert Fewer(s, s');
      assert Held(s') by {
        forall j, c' | j in s'.sockets && c' in s'.sockets[j].presence
          ensures IsPresence(c') && j in Listed(s'.channels, c')
        {
          assert c' in s.sockets[j].presence;
          assert j in Listed(s.channels, c');
        }
      }
      forall c' ensures MemberIds(s', c') <= MemberIds(s, c') { FewerMembers(s, s', c'); }
  }

  lemma ConnectShrinks(cfg: Config, s: State, id: SocketId)
    requires Held(s)
    ensures var r := AddSocket(cfg, s, id); Held(r) && forall c :: MemberIds(r, c) <= MemberIds(s, c)
  {
    var r := AddSocket(cfg, s, id);
    forall c ensures MemberIds(r, c) <= MemberIds(s, c) {
      assert forall j | j in ChannelSockets(r, c) && c in r.sockets[j].presence ::
        j in ChannelSockets(s, c) && r.sockets[j] == s.sockets[j];
    }
  }

  lemma SigninShrinks(cfg: Config, s: State, id: SocketId, tokenOk: bool, user: UserId, order: seq<ChannelName>)
    requires Held(s) && Enabled(s, SigningIn(id, tokenOk, user, order))
    ensures var r := Step(cfg, s, SigningIn(id, tokenOk, user, order));
      Held(r) && forall c :: MemberIds(r, c) <= MemberIds(s, c)
  {
    var o := Signin(s, id, tokenOk, user, order);
    var r := Answer(o, id);
    if user != "" && !tokenOk {
      CloseCore(s, id, order);
      FewerOfClose(s, o.state, id);
    }
    assert Fewer(s, o.state) && Held(o.state);
    AnswerCore(o, id);
    FewerOfSameCore(o.state, r);
    forall c ensures MemberIds(r, c) <= MemberIds(s, c) {
      FewerMembers(s, o.state, c);
      FewerMembers(o.state, r, c);
    }
  }

  /** In every run, whatever the requests, no presence channel has more members than the configured limit. */
  lemma {:induction false} CapacityHolds(cfg: Config, rs: seq<Request>)
    ensures Held(Run(cfg, rs)) && WithinLimit(cfg, Run(cfg, rs))
  {
    if rs == [] {
      assert forall c :: MemberIds(EMPTY, c) == {};
    } else {
      CapacityHolds(cfg, rs[..|rs| - 1]);
      var s, r := Run(cfg, rs[..|rs| - 1]), rs[|rs| - 1];
      if Enabled(s, r) { CapacityStep(cfg, s, r); }
    }
  }

  lemma CapacityStep(cfg: Config, s: State, r: Request)
    requires Held(s) && WithinLimit(cfg, s) && Enabled(s, r)
    ensures Held(Step(cfg, s, r)) && WithinLimit(cfg, Step(cfg, s, r))
  {
    var s' := Step(cfg, s, r);
    if r.Subscribing? {
      var count := |MemberIds(s, r.sub.channel)|;
      SubscribeRespectsCount(cfg, s, r.id, r.sub, count, r.sub.channel);
      if cfg.maxMembers > 0 {
        forall c ensures |MemberIds(s', c)| <= cfg.maxMembers {
          SubscribeRespectsCount(cfg, s, r.id, r.sub, count, c);
          if MemberIds(s', c) <= MemberIds(s, c) {
            SmallerSet(MemberIds(s', c), MemberIds(s, c));
          } else {
            SmallerSet(MemberIds(s', c), MemberIds(s, c) + {r.sub.member.userId});
          }
        }
      }
    } else {
      OtherRequestsShrink(cfg, s, r);
      if cfg.maxMembers > 0 {
        forall c ensures |MemberIds(s', c)| <= cfg.maxMembers { SmallerSet(MemberIds(s', c), MemberIds(s, c)); }
      }
    }
  }

  // ---------- a cluster ----------

  /** The sum over-counts users present on several nodes, so it bounds the number of distinct members from above. */
  lemma {:induction false} GatheredCountBounds(nodes: seq<State>, c: ChannelName)
    ensures |ClusterMembers(nodes, c)| <= GatheredCount(nodes, c)
  {
    if nodes != [] {
      var init, last := ClusterMembers(nodes[..|nodes| - 1], c), MemberIds(nodes[|nodes| - 1], c);
      GatheredCountBounds(nodes[..|nodes| - 1], c);
      assert |init + last| + |init * last| == |init| + |last|;
    }
  }

  ghost predicate ClusterOk(cfg: Config, nodes: seq<State>) {
    && (forall i | 0 <= i < |nodes| :: Held(nodes[i]))
    && (cfg.maxMembers > 0 ==> forall c :: |ClusterMembers(nodes, c)| <= cfg.maxMembers)
  }

  /** What a request does to the members on the node that handles it: nobody new but an admitted user. */
  lemma HandlerRespectsCount(cfg: Config, nodes: seq<State>, i: nat, r: Request, c: ChannelName)
    requires i < |nodes| && Enabled(nodes[i], r) && Held(nodes[i])
    ensures var nodes' := ClusterStep(cfg, nodes, i, r);
      && OthersSame(nodes, nodes', i) && Held(nodes'[i])
      && (MemberIds(nodes'[i], c) <= MemberIds(nodes[i], c)
          || (r.Subscribing? && !OverLimit(cfg, GatheredCount(nodes, c))
              && MemberIds(nodes'[i], c) <= MemberIds(nodes[i], c) + {r.sub.member.userId}))
  {
    hide SubscribeInCluster, LeaveInCluster, CloseInCluster, AnswerInCluster, JoinRel, LeaveRel, CloseRel, SameCore,
         Step, MemberIds, Held, GatheredCount, CreateChannel, IsPresence, ValidName, Fewer;
    var s, s' := nodes[i], ClusterStep(cfg, nodes, i, r)[i];
    match r
    case Subscribing(id, sub) =>
      SubscribeInClusterCore(cfg, nodes, i, id, sub);
      if AdmittedInCluster(cfg, nodes, i, id, sub) {
        CacheFlagsAgree(sub.channel);
        JoinAddsOne(s, s', id, sub, c);
      } else {
        FewerOfSameCore(s, s');
        FewerMembers(s, s', c);
      }
    case Unsubscribing(id, left) =>
      if left in s.sockets[id].subscribed {
        LeaveInClusterCore(nodes, i, id, left);
        FewerOfLeave(s, s', id, left);
        FewerMembers(s, s', c);
      } else {
        StaysLocal(nodes, i, s');
        OtherRequestsShrink(cfg, s, r);
      }
    case SigningIn(id, tokenOk, user, order) =>
      if user != "" && !tokenOk {
        SigninInClusterCore(cfg, nodes, i, id, tokenOk, user, order);
        FewerOfClose(s, s', id);
        FewerMembers(s, s', c);
      } else {
        StaysLocal(nodes, i, s');
        OtherRequestsShrink(cfg, s, r);
      }
    case Closing(id, order) =>
      CloseInClusterCore(nodes, i, id, order);
      FewerOfClose(s, s', id);
      FewerMembers(s, s', c);
    case _ =>
      StaysLocal(nodes, i, s');
      OtherRequestsShrink(cfg, s, r);
  }

  /** Serialised requests keep the cluster-wide number of distinct members within the limit. */
  lemma ClusterCapacityStep(cfg: Config, nodes: seq<State>, i: nat, r: Request)
    requires ClusterOk(cfg, nodes) && i < |nodes| && Enabled(nodes[i], r)
    ensures ClusterOk(cfg, ClusterStep(cfg, nodes, i, r))
  {
    var nodes' := ClusterStep(cfg, nodes, i, r);
    var newcomer := if r.Subscribing? then r.sub.member.userId else "";
    hide ClusterStep, MemberIds, Held, ClusterMembers, GatheredCount;
    forall j | 0 <= j < |nodes| ensures Held(nodes'[j]) {
      HandlerRespectsCount(cfg, nodes, i, r, "");
      if j != i { FewerOfSameCore(nodes[j], nodes'[j]); }
    }
    if cfg.maxMembers > 0 {
      forall c ensures |ClusterMembers(nodes', c)| <= cfg.maxMembers {
        HandlerRespectsCount(cfg, nodes, i, r, c);
        NodeChange(cfg, nodes, nodes', i, c, newcomer);
      }
    }
  }

  /** One node has no new members, or one new member if the gathered count leaves room, and the others are as before. */
  lemma NodeChange(cfg: Config, nodes: seq<State>, nodes': seq<State>, i: nat, c: ChannelName, newcomer: UserId)
    requires i < |nodes| && OthersSame(nodes, nodes', i)
    requires cfg.maxMembers > 0 && |ClusterMembers(nodes, c)| <= cfg.maxMembers
    requires MemberIds(nodes'[i], c) <= MemberIds(nodes[i], c)
      || (!OverLimit(cfg, GatheredCount(nodes, c)) && MemberIds(nodes'[i], c) <= MemberIds(nodes[i], c) + {newcomer})
    ensures |ClusterMembers(nodes', c)| <= cfg.maxMembers
  {
    var extra := if MemberIds(nodes'[i], c) <= MemberIds(nodes[i], c) then {} else {newcomer};
    ClusterMembersAre(nodes, c);
    ClusterMembersAre(nodes', c);
    forall u | u in ClusterMembers(nodes', c) ensures u in ClusterMembers(nodes, c) + extra {
      var k :| 0 <= k < |nodes'| && u in MemberIds(nodes'[k], c);
      if k != i {
        FewerOfSameCore(nodes[k], nodes'[k]);
        FewerMembers(nodes[k], nodes'[k], c);
      }
    }
    SmallerSet(ClusterMembers(nodes', c), ClusterMembers(nodes, c) + extra);
    GatheredCountBounds(nodes, c);
  }

  lemma {:induction false} ClusterCapacityHolds(cfg: Config, size: nat, steps: seq<(nat, Request)>)
    ensures ClusterOk(cfg, ClusterRun(cfg, size, steps).nodes)
  {
    if steps == [] {
      var nodes := ClusterRun(cfg, size, steps).nodes;
      forall c ensures ClusterMembers(nodes, c) == {} {
        ClusterMembersAre(nodes, c);
        assert MemberIds(EMPTY, c) == {};
      }
    } else {
      hide ClusterStep, Enabled, ClusterOk;
      ClusterCapacityHolds(cfg, size, steps[..|steps| - 1]);
      var w, step := ClusterRun(cfg, size, steps[..|steps| - 1]), steps[|steps| - 1];
      if step.0 < size && Enabled(w.nodes[step.0], step.1) { ClusterCapacityStep(cfg, w.nodes, step.0, step.1); }
    }
  }
}
