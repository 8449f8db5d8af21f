/** What the clients of several nodes believe about the members of a presence channel: exactly which sockets of the
    cluster are wrong about which user in any run. */
module ClusterView {
  import opened Wrappers
  import opened Names
  import opened Membership
  import opened MembershipCore
  import opened MembershipIndex
  import opened MembershipEvents
  import opened ClientView
  import opened ClusterMembership
  import opened ClusterEvents

  // ---------- right and wrong beliefs ----------

  type Place = (nat, SocketId)

  /** The sockets of all nodes that take part in c with presence data. */
  function AllHolders(nodes: seq<State>, c: ChannelName): set<Place> {
    set j: nat, id | j < |nodes| && id in Holders(nodes[j], c) :: (j, id)
  }

  /** Every holder on node j has a roster, and takes u for a member if u is one or if it is misled. */
  ghost predicate NodeBelieves(s: State, j: nat, c: ChannelName, u: UserId, member: bool, misled: set<Place>) {
    forall id | id in Holders(s, c) :: Rostered(s, id, c) && (Sees(s, id, c, u) <==> member || (j, id) in misled)
  }

  /** Every holder of c on any node has a roster, and it is right about u for all but `misled`, who take u for a member
      of the cluster's channel although it is none. */
  ghost predicate AllBelieve(nodes: seq<State>, c: ChannelName, u: UserId, misled: set<Place>) {
    && misled <= AllHolders(nodes, c) && (u in ClusterMembers(nodes, c) ==> misled == {})
    && forall j: nat | j < |nodes| :: NodeBelieves(nodes[j], j, c, u, u in ClusterMembers(nodes, c), misled)
  }

  // ---------- requests that say nothing about c ----------

  ghost predicate SameAudience(s: State, r: State, c: ChannelName) {
    Holders(r, c) == Holders(s, c) && forall id | id in Holders(s, c) :: ViewOf(r, id, c) == ViewOf(s, id, c)
  }

  lemma AudienceKept(s: State, r: State, c: ChannelName)
    requires SameViews(s, r, c) && SameAt(s, r, c)
    ensures SameAudience(s, r, c)
  {
    hide View;
  }

  lemma NobodyNoticed(nodes: seq<State>, r: seq<State>, c: ChannelName, u: UserId, misled: set<Place>)
    requires |r| == |nodes| && AllBelieve(nodes, c, u, misled)
    requires forall j: nat | j < |nodes| :: SameAudience(nodes[j], r[j], c)
    requires u in ClusterMembers(r, c) <==> u in ClusterMembers(nodes, c)
    ensures AllBelieve(r, c, u, misled)
  {
    hide View, ClusterMembers, Holders;
    assert AllHolders(r, c) == AllHolders(nodes, c) by {
      assert forall j: nat | j < |nodes| :: SameAudience(nodes[j], r[j], c);
    }
    forall j: nat | j < |nodes| ensures NodeBelieves(r[j], j, c, u, u in ClusterMembers(r, c), misled) {
      assert SameAudience(nodes[j], r[j], c);
      assert NodeBelieves(nodes[j], j, c, u, u in ClusterMembers(nodes, c), misled);
    }
  }

  // ---------- the node that handles a join ----------

  lemma EnterAtViews(s: State, id: SocketId, sub: Subscription, count: int, c: ChannelName)
    requires id in s.sockets
    ensures SameViews(s, EnterAt(s, id, sub, count), c)
    ensures ChannelSockets(s, c) <= ChannelSockets(EnterAt(s, id, sub, count), c)
  {
    hide View, CreateChannel;
    EnterAtCore(s, id, sub, count);
  }

  lemma JoinAtViews(s: State, id: SocketId, sub: Subscription, count: int, members: set<UserId>)
    requires id in s.sockets && IsPresence(sub.channel) && sub.member.userId != ""
    ensures JoinedViews(s, JoinAt(s, id, sub, count, members).state, id, sub.channel, sub.member, members)
  {
    hide View;
    var c, v := sub.channel, sub.member.userId;
    CacheFlagsAgree(c);
    EnterAtViews(s, id, sub, count, c);
    var s1 := EnterAt(s, id, sub, count);
    var s2 := AnnounceMember(s1, id, sub, members);
    var s3 := Deliver(s2, id, SubscriptionSucceeded(c, Some(members + {v})));
    AnnounceViews(s1, id, sub, members);
    DeliverRoster(s2, id, c, members + {v});
    CacheSilent(s3, id, sub, c);
    hide EnterAt, AnnounceMember, SendCache, Deliver, ChannelSockets, CreateChannel, IsPresence;
    assert JoinAt(s, id, sub, count, members).state == SendCache(s3, id, sub);
  }

  lemma JoinAtSilent(s: State, id: SocketId, sub: Subscription, count: int, members: set<UserId>, c: ChannelName)
    requires id in s.sockets && (sub.channel != c || !IsPresence(c) || sub.member.userId == "")
    ensures SameViews(s, JoinAt(s, id, sub, count, members).state, c)
  {
    hide View;
    EnterAtViews(s, id, sub, count, c);
    CacheFlagsAgree(sub.channel);
    var s1 := EnterAt(s, id, sub, count);
    if !IsPresence(sub.channel) {
      FinishSilent(s1, id, sub, None, c);
    } else if sub.member.userId != "" {
      AnnounceSilent(s1, id, sub, members, c);
      FinishSilent(AnnounceMember(s1, id, sub, members), id, sub, Some(members + {sub.member.userId}), c);
    }
    hide EnterAt, AnnounceMember, SendCache, Deliver, CreateChannel, IsPresence;
  }

  // ---------- the nodes that only receive ----------

  /** A message about c reaches every holder on every other node. */
  lemma OthersHear(nodes: seq<State>, i: nat, to: ChannelName, m: Message, c: ChannelName, j: nat)
    requires i < |nodes| && j < |nodes| && j != i && IsPresence(to) && Held(nodes[j]) && (to != c ==> !About(m, c))
    ensures var s, r := nodes[j], TellOthers(nodes, i, to, m)[j];
      && Holders(r, c) == Holders(s, c)
      && forall id | id in Holders(s, c) ::
           ViewOf(r, id, c) == if to == c then Apply(ViewOf(s, id, c), m, c) else ViewOf(s, id, c)
  {
    hide View;
    var s, r := nodes[j], TellOthers(nodes, i, to, m)[j];
    SendViews(s, to, m, "", c);
    SendSameCore(s, to, m, "");
    assert forall id | id in Holders(s, c) :: id in ChannelSockets(s, c);
  }

  // ---------- beliefs after a join ----------

  /** Who is misled about u after socket `id` of node i joined c as user v. */
  function MisledByJoining(nodes: seq<State>, i: nat, id: SocketId, c: ChannelName, v: UserId, u: UserId,
                           misled: set<Place>): set<Place>
    requires i < |nodes| && id in nodes[i].sockets
  {
    if LosesInCluster(nodes, i, id, c, v, u) then AllHolders(nodes, c) else if u == v then {} else misled - {(i, id)}
  }

  /** The views on node j after a join of c as m on node i, when `members` were the members before. */
  ghost predicate HeardOfJoin(s: State, r: State, mine: bool, id: SocketId, c: ChannelName, m: Member,
                              members: set<UserId>)
  {
    && Holders(r, c) == Holders(s, c) + (if mine then {id} else {})
    && forall k | k in Holders(r, c) ::
         if mine && k == id then ViewOf(r, k, c) == Some(members + {m.userId})
         else k in Holders(s, c) && ViewOf(r, k, c) == AfterAdded(ViewOf(s, k, c), m, members, c)
  }

  lemma AllHearOfJoin(nodes: seq<State>, i: nat, id: SocketId, sub: Subscription, j: nat)
    requires i < |nodes| && id in nodes[i].sockets && j < |nodes| && Held(nodes[i]) && Held(nodes[j])
    requires IsPresence(sub.channel) && sub.member.userId != ""
    ensures HeardOfJoin(nodes[j], JoinInCluster(nodes, i, id, sub).nodes[j], j == i, id, sub.channel, sub.member,
                        ClusterMembers(nodes, sub.channel))
  {
    hide View, JoinRel, ClusterMembers, MembersOnJoin, CountOnJoin, JoinAt, TellOthers, Held, IsPresence, CreateChannel;
    var c, m := sub.channel, sub.member;
    CacheFlagsAgree(c);
    FindsMembers(nodes, i, id, sub);
    var members, count := ClusterMembers(nodes, c), CountOnJoin(nodes, i, id, c);
    if j == i {
      JoinAtViews(nodes[i], id, sub, count, members);
      JoinAtCore(nodes[i], id, sub, count, members);
      HoldersAfterJoining(nodes[i], JoinAt(nodes[i], id, sub, count, members).state, id, sub);
    } else if m.userId !in members {
      OthersHear(nodes, i, c, MemberAdded(c, m), c, j);
    }
  }

  lemma HoldersAfter(nodes: seq<State>, r: seq<State>, i: nat, id: SocketId, c: ChannelName, m: Member)
    requires i < |nodes| == |r|
    requires forall j: nat | j < |nodes| ::
      HeardOfJoin(nodes[j], r[j], j == i, id, c, m, ClusterMembers(nodes, c))
    ensures AllHolders(r, c) == AllHolders(nodes, c) + {(i, id)}
  {
    hide View, ClusterMembers, Holders;
    forall p ensures p in AllHolders(r, c) <==> p in AllHolders(nodes, c) || p == (i, id) {
      if p.0 < |nodes| {
        assert HeardOfJoin(nodes[p.0], r[p.0], p.0 == i, id, c, m, ClusterMembers(nodes, c));
      }
    }
  }

  /** One node that heard of a join is right about u but for the misled. */
  lemma HearsAndBelieves(s: State, r: State, j: nat, mine: bool, id: SocketId, c: ChannelName, m: Member, u: UserId,
                         members: set<UserId>, members': set<UserId>, misled: set<Place>, misled': set<Place>)
    requires NodeBelieves(s, j, c, u, u in members, misled) && HeardOfJoin(s, r, mine, id, c, m, members)
    requires u in members ==> misled == {}
    requires
      || (u != m.userId && u in members && u !in members' && forall k | k in Holders(r, c) :: (j, k) in misled')
      || (u == m.userId && u in members' && misled' == {})
      || (u != m.userId && (u in members <==> u in members')
          && forall k | k in Holders(r, c) :: (j, k) in misled' <==> (j, k) in misled && !(mine && k == id))
    ensures NodeBelieves(r, j, c, u, u in members', misled')
  {
    hide View, Holders;
  }

  lemma HoldsIf(s: State, id: SocketId, c: ChannelName)
    requires id in s.sockets
    ensures id in Holders(s, c) <==> c in s.sockets[id].presence
  {
  }

  lemma JoinMisleads(nodes: seq<State>, i: nat, id: SocketId, sub: Subscription, u: UserId, misled: set<Place>)
    requires i < |nodes| && id in nodes[i].sockets && forall j: nat | j < |nodes| :: Held(nodes[j])
    requires IsPresence(sub.channel) && sub.member.userId != "" && AllBelieve(nodes, sub.channel, u, misled)
    ensures AllBelieve(JoinInCluster(nodes, i, id, sub).nodes, sub.channel, u,
                       MisledByJoining(nodes, i, id, sub.channel, sub.member.userId, u, misled))
  {
    hide View, JoinInCluster, ClusterMembers, Others, Held, IsPresence, Holders, HeardOfJoin, NodeBelieves;
    var c, v, r := sub.channel, sub.member.userId, JoinInCluster(nodes, i, id, sub).nodes;
    var misled' := MisledByJoining(nodes, i, id, c, v, u, misled);
    JoinedMembers(nodes, i, id, sub);
    HoldsIf(nodes[i], id, c);
    forall j: nat | j < |nodes|
      ensures HeardOfJoin(nodes[j], r[j], j == i, id, c, sub.member, ClusterMembers(nodes, c))
    {
      AllHearOfJoin(nodes, i, id, sub, j);
    }
    HoldersAfter(nodes, r, i, id, c, sub.member);
    forall j: nat | j < |nodes| ensures NodeBelieves(r[j], j, c, u, u in ClusterMembers(r, c), misled') {
      assert NodeBelieves(nodes[j], j, c, u, u in ClusterMembers(nodes, c), misled);
      assert HeardOfJoin(nodes[j], r[j], j == i, id, c, sub.member, ClusterMembers(nodes, c));
      forall k | k in Holders(r[j], c) ensures (j, k) in AllHolders(r, c) {}
      HearsAndBelieves(nodes[j], r[j], j, j == i, id, c, sub.member, u, ClusterMembers(nodes, c), ClusterMembers(r, c),
                       misled, misled');
    }
  }

  /** A join of another channel, or one without a user id. */
  lemma JoinMisleadsNobody(nodes: seq<State>, i: nat, id: SocketId, sub: Subscription, c: ChannelName, u: UserId,
                           misled: set<Place>)
    requires i < |nodes| && id in nodes[i].sockets && forall j: nat | j < |nodes| :: Held(nodes[j])
    requires IsPresence(c) && (sub.channel != c || sub.member.userId == "") && AllBelieve(nodes, c, u, misled)
    ensures AllBelieve(JoinInCluster(nodes, i, id, sub).nodes, c, u, misled)
  {
    hide View, ClusterMembers, Others, Held, IsPresence, Holders, AllBelieve, SameAudience, SameAt, OthersSame,
         MemberIds, JoinRel, JoinInCluster;
    var r := JoinInCluster(nodes, i, id, sub).nodes;
    JoinInClusterCore(nodes, i, id, sub);
    MembersAfterJoining(nodes[i], r[i], id, sub);
    if sub.channel != c { SameAtHolds(nodes[i], r[i], Topic.Occupancy("", c)); }
    MembersNow(nodes, r, i, c);
    forall j: nat | j < |nodes| ensures SameAudience(nodes[j], r[j], c) { NobodyHears(nodes, i, id, sub, c, j); }
    NobodyNoticed(nodes, r, c, u, misled);
  }

  lemma NobodyHears(nodes: seq<State>, i: nat, id: SocketId, sub: Subscription, c: ChannelName, j: nat)
    requires i < |nodes| && id in nodes[i].sockets && j < |nodes| && Held(nodes[j])
    requires IsPresence(c) && (sub.channel != c || sub.member.userId == "")
    ensures SameAudience(nodes[j], JoinInCluster(nodes, i, id, sub).nodes[j], c)
  {
    hide View, MembersOnJoin, CountOnJoin, JoinAt, TellOthers, Held, IsPresence, CreateChannel;
    CacheFlagsAgree(sub.channel);
    var members, count := MembersOnJoin(nodes, i, id, sub), CountOnJoin(nodes, i, id, sub.channel);
    if j == i {
      JoinAtSilent(nodes[i], id, sub, count, members, c);
      JoinAtCore(nodes[i], id, sub, count, members);
      SameHolders(nodes[i], JoinAt(nodes[i], id, sub, count, members).state, id, sub, c);
    } else if IsPresence(sub.channel) && sub.member.userId != "" {
      OthersHear(nodes, i, sub.channel, MemberAdded(sub.channel, sub.member), c, j);
    }
  }

  lemma SameHolders(s: State, r: State, id: SocketId, sub: Subscription, c: ChannelName)
    requires id in s.sockets && JoinRel(s, r, id, sub) && (sub.channel != c || sub.member.userId == "")
    ensures Holders(r, c) == Holders(s, c)
  {
    hide CreateChannel, IsPresence;
    assert forall j | j in s.sockets && j != id :: SameSocket(s.sockets[j], r.sockets[j]);
  }

  // ---------- beliefs after a leave ----------

  /** The own node of a leave that is announced. */
  lemma LeaveAtTells(s: State, id: SocketId, left: ChannelName, vacant: bool, c: ChannelName)
    requires id in s.sockets && IsPresence(left) && left in s.sockets[id].presence
    ensures var r, user := LeaveAt(s, id, left, vacant, false), s.sockets[id].presence[left].userId;
      && r.sockets.Keys == s.sockets.Keys
      && (left != c ==> SameViews(s, r, c))
      && (left == c ==> forall j | j in ChannelSockets(s, c) && j != id ::
            ViewOf(r, j, c) == Apply(ViewOf(s, j, c), MemberRemoved(c, user), c))
  {
    hide View, LocalSend, IsPresence, CreateChannel, Apply, Drop;
    CacheFlagsAgree(left);
    var user, s2 := s.sockets[id].presence[left].userId, Unlisted(s, id, left);
    SendViews(Emit(s2, UserRemoved(left, user)), left, MemberRemoved(left, user), id, c);
    LeaversSockets(s, s2, id, left);
    SameSubscribers(s2, UserRemoved(left, user), left);
    var s3 := LocalSend(Emit(s2, UserRemoved(left, user)), left, MemberRemoved(left, user), id);
    assert forall j | j in s.sockets :: ViewOf(s2, j, c) == ViewOf(s, j, c);
    VacancySilent(s3, id, left, vacant, c);
    if left != c { ApplyElsewhere(c, left, user); }
    hide ForgetChannel, Emit;
    assert LeaveAt(s, id, left, vacant, false)
      == ForgetChannel(if vacant then Emit(s3, ChannelVacated(left)) else s3, id, left);
  }

  lemma VacancySilent(s: State, id: SocketId, left: ChannelName, vacant: bool, c: ChannelName)
    ensures SameViews(s, ForgetChannel(if vacant then Emit(s, ChannelVacated(left)) else s, id, left), c)
  {
    hide View;
  }

  lemma SameSubscribers(s: State, h: Hook, c: ChannelName)
    ensures ChannelSockets(Emit(s, h), c) == ChannelSockets(s, c)
  {
  }

  lemma ApplyElsewhere(c: ChannelName, left: ChannelName, user: UserId)
    requires left != c
    ensures forall view :: Apply(view, MemberRemoved(left, user), c) == view
  {
  }

  /** The own node of a leave that is not. */
  lemma LeaveAtSilent(s: State, id: SocketId, left: ChannelName, vacant: bool, stays: bool, c: ChannelName)
    requires id in s.sockets && (stays || left !in s.sockets[id].presence || !IsPresence(left))
    ensures SameViews(s, LeaveAt(s, id, left, vacant, stays), c)
  {
    hide View, LocalSend, IsPresence, CreateChannel, Drop;
    CacheFlagsAgree(left);
  }

  lemma HoldersLeft(s: State, r: State, id: SocketId, left: ChannelName, c: ChannelName)
    requires id in s.sockets && LeaveRel(s, r, id, left) && IsPresence(c)
    ensures Holders(r, c) == if left == c then Holders(s, c) - {id} else Holders(s, c)
  {
    hide IsPresence;
    assert forall j | j in s.sockets && j != id :: SameSocket(s.sockets[j], r.sockets[j]);
  }

  /** Leaving another channel, or c without presence data for it, says nothing about c. */
  lemma NobodyHearsLeave(nodes: seq<State>, i: nat, id: SocketId, left: ChannelName, c: ChannelName, j: nat)
    requires i < |nodes| && id in nodes[i].sockets && j < |nodes| && Held(nodes[i]) && Held(nodes[j])
    requires IsPresence(c) && (left != c || c !in nodes[i].sockets[id].presence)
    ensures SameAudience(nodes[j], LeaveInCluster(nodes, i, id, left)[j], c)
  {
    hide View, LeaveAt, StaysMember, TellOthers, Held, IsPresence, CreateChannel, Connections, LeaveRel;
    CacheFlagsAgree(left);
    var s, stays := nodes[i], StaysMember(nodes, i, id, left);
    var vacant := Connections(nodes[i := s.(channels := Drop(s.channels, left, id))], left) == 0;
    var tells := IsPresence(left) && left in s.sockets[id].presence && !stays;
    if j == i {
      LeaveAtCore(s, id, left, vacant, stays);
      HoldersLeft(s, LeaveAt(s, id, left, vacant, stays), id, left, c);
      if tells { LeaveAtTells(s, id, left, vacant, c); } else { LeaveAtSilent(s, id, left, vacant, stays, c); }
    } else if tells {
      OthersHear(nodes, i, left, MemberRemoved(left, s.sockets[id].presence[left].userId), c, j);
    }
  }

  /** The views on node j after socket `id` of node i left c as the last socket of `user`, or not as the last. */
  ghost predicate HeardOfLeave(s: State, r: State, mine: bool, id: SocketId, c: ChannelName, user: UserId, last: bool) {
    && Holders(r, c) == Holders(s, c) - (if mine then {id} else {})
    && forall k | k in Holders(r, c) ::
         ViewOf(r, k, c) == if last then Apply(ViewOf(s, k, c), MemberRemoved(c, user), c) else ViewOf(s, k, c)
  }

  lemma AllHearOfLeave(nodes: seq<State>, i: nat, id: SocketId, c: ChannelName, j: nat)
    requires i < |nodes| && id in nodes[i].sockets && j < |nodes| && Held(nodes[i]) && Held(nodes[j])
    requires IsPresence(c) && c in nodes[i].sockets[id].presence
    ensures var user := nodes[i].sockets[id].presence[c].userId;
      HeardOfLeave(nodes[j], LeaveInCluster(nodes, i, id, c)[j], j == i, id, c, user, user !in Others(nodes, i, id, c))
  {
    hide View, LeaveAt, StaysMember, TellOthers, IsPresence, CreateChannel, Connections, LeaveRel, Others;
    CacheFlagsAgree(c);
    var s, stays := nodes[i], StaysMember(nodes, i, id, c);
    var vacant := Connections(nodes[i := s.(channels := Drop(s.channels, c, id))], c) == 0;
    StaysIfCarried(nodes, i, id, c);
    if j == i {
      LeaveAtCore(s, id, c, vacant, stays);
      HoldersLeft(s, LeaveAt(s, id, c, vacant, stays), id, c, c);
      assert forall k | k in Holders(s, c) :: k in ChannelSockets(s, c);
      if stays { LeaveAtSilent(s, id, c, vacant, stays, c); } else { LeaveAtTells(s, id, c, vacant, c); }
    } else if !stays {
      OthersHear(nodes, i, c, MemberRemoved(c, s.sockets[id].presence[c].userId), c, j);
    }
  }

  lemma LeaveMisleads(nodes: seq<State>, i: nat, id: SocketId, left: ChannelName, c: ChannelName, u: UserId,
                      misled: set<Place>)
    requires i < |nodes| && id in nodes[i].sockets && forall j: nat | j < |nodes| :: Held(nodes[j])
    requires IsPresence(c) && AllBelieve(nodes, c, u, misled)
    ensures AllBelieve(LeaveInCluster(nodes, i, id, left), c, u, if left == c then misled - {(i, id)} else misled)
  {
    hide View, LeaveInCluster, ClusterMembers, Others, Held, IsPresence, Holders, HeardOfLeave, SameAudience,
         OthersSame, LeaveRel, MemberIds, AllBelieve;
    var r := LeaveInCluster(nodes, i, id, left);
    HoldsIf(nodes[i], id, c);
    LeaveInClusterCore(nodes, i, id, left);
    if left == c && c in nodes[i].sockets[id].presence {
      LastLeaveMisleads(nodes, i, id, c, u, misled);
    } else {
      forall j: nat | j < |nodes| ensures SameAudience(nodes[j], r[j], c) {
        NobodyHearsLeave(nodes, i, id, left, c, j);
      }
      MembersNow(nodes, r, i, c);
      if left == c {
        LeftMembers(nodes, r, i, id, c);
        NotMisled(nodes, i, id, c, u, misled);
      } else {
        LeftElsewhere(nodes[i], r[i], id, left, c);
      }
      NobodyNoticed(nodes, r, c, u, misled);
    }
  }

  lemma NotMisled(nodes: seq<State>, i: nat, id: SocketId, c: ChannelName, u: UserId, misled: set<Place>)
    requires i < |nodes| && id !in Holders(nodes[i], c) && AllBelieve(nodes, c, u, misled)
    ensures misled - {(i, id)} == misled
  {
    assert (i, id) !in AllHolders(nodes, c);
  }

  lemma LastLeaveMisleads(nodes: seq<State>, i: nat, id: SocketId, c: ChannelName, u: UserId, misled: set<Place>)
    requires i < |nodes| && id in nodes[i].sockets && forall j: nat | j < |nodes| :: Held(nodes[j])
    requires IsPresence(c) && c in nodes[i].sockets[id].presence && AllBelieve(nodes, c, u, misled)
    ensures AllBelieve(LeaveInCluster(nodes, i, id, c), c, u, misled - {(i, id)})
  {
    hide View, LeaveInCluster, ClusterMembers, Others, Held, IsPresence, Holders, HeardOfLeave, OthersSame, LeaveRel,
         NodeBelieves;
    var r, user := LeaveInCluster(nodes, i, id, c), nodes[i].sockets[id].presence[c].userId;
    var last := user !in Others(nodes, i, id, c);
    LeaveInClusterCore(nodes, i, id, c);
    LeftMembers(nodes, r, i, id, c);
    forall j: nat | j < |nodes| ensures HeardOfLeave(nodes[j], r[j], j == i, id, c, user, last) {
      AllHearOfLeave(nodes, i, id, c, j);
    }
    HoldersAfterLeave(nodes, r, i, id, c, user, last);
    forall j: nat | j < |nodes|
      ensures NodeBelieves(r[j], j, c, u, u in ClusterMembers(r, c), misled - {(i, id)})
    {
      assert NodeBelieves(nodes[j], j, c, u, u in ClusterMembers(nodes, c), misled);
      assert HeardOfLeave(nodes[j], r[j], j == i, id, c, user, last);
      HearsOfLeave(nodes[j], r[j], i, j, id, c, user, last, u, u in ClusterMembers(nodes, c), misled);
    }
  }

  lemma HoldersAfterLeave(nodes: seq<State>, r: seq<State>, i: nat, id: SocketId, c: ChannelName, user: UserId,
                          last: bool)
    requires i < |nodes| == |r|
    requires forall j: nat | j < |nodes| :: HeardOfLeave(nodes[j], r[j], j == i, id, c, user, last)
    ensures AllHolders(r, c) == AllHolders(nodes, c) - {(i, id)}
  {
    hide View, Holders;
    forall p ensures p in AllHolders(r, c) <==> p in AllHolders(nodes, c) && p != (i, id) {
      if p.0 < |nodes| { assert HeardOfLeave(nodes[p.0], r[p.0], p.0 == i, id, c, user, last); }
    }
  }

  lemma HearsOfLeave(s: State, r: State, i: nat, j: nat, id: SocketId, c: ChannelName, user: UserId, last: bool,
                     u: UserId, member: bool, misled: set<Place>)
    requires NodeBelieves(s, j, c, u, member, misled) && HeardOfLeave(s, r, j == i, id, c, user, last)
    requires member ==> misled == {}
    requires user == u ==> member
    ensures NodeBelieves(r, j, c, u, member && !(last && user == u), misled - {(i, id)})
  {
    hide View, Holders;
  }

  // ---------- closing ----------

  ghost predicate AllGrounded(nodes: seq<State>) {
    forall j: nat | j < |nodes| :: Grounded(nodes[j])
  }

  lemma OthersGrounded(nodes: seq<State>, r: seq<State>, i: nat)
    requires AllGrounded(nodes) && i < |nodes| && OthersSame(nodes, r, i) && Grounded(r[i])
    ensures AllGrounded(r)
  {
    hide Grounded;
    forall j: nat | j < |r| ensures Grounded(r[j]) {
      if j != i {
        assert SameCore(nodes[j], r[j]);
        SameCoreGrounded(nodes[j], r[j]);
      }
    }
  }

  lemma LeaveGroundsAll(nodes: seq<State>, i: nat, id: SocketId, left: ChannelName, c: ChannelName)
    requires i < |nodes| && id in nodes[i].sockets && AllGrounded(nodes) && IsPresence(c)
    ensures var r := LeaveInCluster(nodes, i, id, left);
      && AllGrounded(r) && id in r[i].sockets
      && (id in Holders(r[i], c) <==> id in Holders(nodes[i], c) && left != c)
  {
    hide View, LeaveInCluster, Grounded, Holders, LeaveRel, OthersSame;
    var r := LeaveInCluster(nodes, i, id, left);
    LeaveInClusterCore(nodes, i, id, left);
    LeaveGrounded(nodes[i], r[i], id, left);
    HoldersLeft(nodes[i], r[i], id, left, c);
    OthersGrounded(nodes, r, i);
  }

  lemma {:induction false} LeaveAllMisleads(nodes: seq<State>, i: nat, id: SocketId, order: seq<ChannelName>,
                                            c: ChannelName, u: UserId, misled: set<Place>)
    requires i < |nodes| && id in nodes[i].sockets && AllGrounded(nodes) && IsPresence(c)
    requires AllBelieve(nodes, c, u, misled)
    ensures var r := LeaveAllInCluster(nodes, i, id, order);
      && AllGrounded(r) && AllBelieve(r, c, u, if c in order then misled - {(i, id)} else misled)
      && (id in Holders(r[i], c) <==> id in Holders(nodes[i], c) && c !in order)
  {
    hide View, LeaveInCluster, AllBelieve, Grounded, Holders, IsPresence;
    if order != [] {
      var init, last := order[..|order| - 1], order[|order| - 1];
      InLastOrInit(order, c);
      LeaveAllMisleads(nodes, i, id, init, c, u, misled);
      var n1, misled1 := LeaveAllInCluster(nodes, i, id, init), if c in init then misled - {(i, id)} else misled;
      assert forall j: nat | j < |n1| :: Held(n1[j]) by { AreHeld(n1); }
      LeaveMisleads(n1, i, id, last, c, u, misled1);
      LeaveGroundsAll(n1, i, id, last, c);
      assert misled - {(i, id)} - {(i, id)} == misled - {(i, id)};
    }
  }

  lemma AreHeld(nodes: seq<State>)
    requires AllGrounded(nodes)
    ensures forall j: nat | j < |nodes| :: Held(nodes[j])
  {
    hide NoEmptyChannel, ListedSubscribe, Held, OrdinaryListed;
    forall j: nat | j < |nodes| ensures Held(nodes[j]) { assert Grounded(nodes[j]); }
  }

  lemma CloseMisleads(nodes: seq<State>, i: nat, id: SocketId, order: seq<ChannelName>, c: ChannelName, u: UserId,
                      misled: set<Place>)
    requires i < |nodes| && id in nodes[i].sockets && AllGrounded(nodes) && IsPresence(c)
    requires Enumerates(order, nodes[i].sockets[id].subscribed) && AllBelieve(nodes, c, u, misled)
    ensures AllBelieve(CloseInCluster(nodes, i, id, order), c, u, misled - {(i, id)})
  {
    hide View, AllBelieve, LeaveAllInCluster, RemoveUser, RemoveSocket;
    assert Grounded(nodes[i]);
    LeaveAllMisleads(nodes, i, id, order, c, u, misled);
    assert id in Holders(nodes[i], c) ==> c in order;
    if c !in order { NotMisled(nodes, i, id, c, u, misled); }
    EraseMisleads(LeaveAllInCluster(nodes, i, id, order), i, id, c, u, misled - {(i, id)});
  }

  /** Erasing a socket without presence data for c. */
  lemma EraseMisleads(nodes: seq<State>, i: nat, id: SocketId, c: ChannelName, u: UserId, misled: set<Place>)
    requires i < |nodes| && id in nodes[i].sockets && AllGrounded(nodes) && id !in Holders(nodes[i], c)
    requires AllBelieve(nodes, c, u, misled)
    ensures var r := RemoveUser(RemoveSocket(nodes[i], id), id, nodes[i].sockets[id].userId);
      AllBelieve(nodes[i := r], c, u, misled)
  {
    hide View, AllBelieve, MemberIds, SameAudience, Holders, RemoveUser, RemoveSocket;
    assert Held(nodes[i]) by { AreHeld(nodes); }
    var s := nodes[i];
    var r := RemoveUser(RemoveSocket(s, id), id, s.sockets[id].userId);
    ErasedUnnoticed(s, id, c);
    NobodyNoticedHere(nodes, i, r, c, u, misled);
  }

  lemma ErasedUnnoticed(s: State, id: SocketId, c: ChannelName)
    requires id in s.sockets && Held(s) && id !in Holders(s, c)
    ensures var r := RemoveUser(RemoveSocket(s, id), id, s.sockets[id].userId);
      SameAudience(s, r, c) && MemberIds(r, c) == MemberIds(s, c)
  {
    hide View, MemberIds, OtherMembers, CloseRel;
    var r := RemoveUser(RemoveSocket(s, id), id, s.sockets[id].userId);
    CloseCore(s, id, []);
    assert r == CloseSocket(s, id, []);
    MembersAfterClosing(s, r, id, c);
    OwnAndOthers(s, id, c);
    assert r.sockets == s.sockets - {id};
  }

  // ---------- one request ----------

  /** Who is misled about u after a request on node i. */
  function MisledAfterOn(cfg: Config, nodes: seq<State>, i: nat, r: Request, c: ChannelName, u: UserId,
                         misled: set<Place>): set<Place>
    requires i < |nodes| && Enabled(nodes[i], r)
  {
    match r
    case Subscribing(id, sub) =>
      if AdmittedInCluster(cfg, nodes, i, id, sub) && sub.channel == c && sub.member.userId != ""
      then MisledByJoining(nodes, i, id, c, sub.member.userId, u, misled)
      else misled
    case Unsubscribing(id, left) => if left == c then misled - {(i, id)} else misled
    case SigningIn(id, tokenOk, user, _) => if user != "" && !tokenOk then misled - {(i, id)} else misled
    case Closing(id, _) => misled - {(i, id)}
    case _ => misled
  }

  /** Node i changed, but nobody's view of c did. */
  lemma NobodyNoticedHere(nodes: seq<State>, i: nat, r: State, c: ChannelName, u: UserId, misled: set<Place>)
    requires i < |nodes| && SameAudience(nodes[i], r, c) && MemberIds(r, c) == MemberIds(nodes[i], c)
    requires AllBelieve(nodes, c, u, misled)
    ensures AllBelieve(nodes[i := r], c, u, misled)
  {
    hide View, MemberIds, AllBelieve, ClusterMembers;
    StaysLocal(nodes, i, r);
    MembersNow(nodes, nodes[i := r], i, c);
    assert forall j: nat | j < |nodes| :: SameAudience(nodes[j], nodes[i := r][j], c);
    NobodyNoticed(nodes, nodes[i := r], c, u, misled);
  }

  lemma AnswerMisleads(h: Handled, i: nat, id: SocketId, c: ChannelName, u: UserId, misled: set<Place>)
    requires i < |h.nodes| && AllBelieve(h.nodes, c, u, misled)
    ensures AllBelieve(AnswerInCluster(h, i, id), c, u, misled)
  {
    hide View, AllBelieve, MemberIds, Answer, SameAudience;
    var o := Outcome(h.nodes[i], h.error);
    AnswerViews(o, id, c);
    AnswerCore(o, id);
    SameCoreMembers(h.nodes[i], Answer(o, id), c);
    AudienceKept(h.nodes[i], Answer(o, id), c);
    NobodyNoticedHere(h.nodes, i, Answer(o, id), c, u, misled);
  }

  lemma TurnedAwaySilent(cfg: Config, s: State, id: SocketId, sub: Subscription, count: int, c: ChannelName)
    requires id in s.sockets
    requires !(!sub.closing && !IsOwnUserChannel(s.sockets[id], sub.channel)
               && ValidName(sub.channel, cfg.maxNameLength) && AdmissionAt(cfg, count, sub).Joined?)
    ensures SameViews(s, SubscribeAt(cfg, s, id, sub, count).state, c)
  {
    hide View;
    hide CreateChannel, ValidName, AdmissionAt;
    DeliverSilent(s, id, SubscriptionSucceeded(sub.channel, None), c);
    DeliverSilent(s, id, ErrorEvent(UnauthorizedConnection), c);
    var v := AdmissionAt(cfg, count, sub);
    if v.Refused? { RefusedViews(s, id, sub.channel, v.reason, v.code, c); }
  }

  lemma SubscribeMisleads(cfg: Config, nodes: seq<State>, i: nat, id: SocketId, sub: Subscription, c: ChannelName,
                          u: UserId, misled: set<Place>)
    requires i < |nodes| && id in nodes[i].sockets && AllGrounded(nodes) && IsPresence(c)
    requires AllBelieve(nodes, c, u, misled)
    ensures var r := Subscribing(id, sub);
      AllBelieve(ClusterStep(cfg, nodes, i, r), c, u, MisledAfterOn(cfg, nodes, i, r, c, u, misled))
  {
    hide View, AllBelieve, JoinInCluster, SubscribeAt, GatheredCount, ValidName, AdmissionAt, SameAudience, MemberIds,
         MisledByJoining, AnswerInCluster;
    var h, misled' := SubscribeInCluster(cfg, nodes, i, id, sub),
      MisledAfterOn(cfg, nodes, i, Subscribing(id, sub), c, u, misled);
    AreHeld(nodes);
    if AdmittedInCluster(cfg, nodes, i, id, sub) {
      if sub.channel == c && sub.member.userId != "" {
        JoinMisleads(nodes, i, id, sub, u, misled);
      } else {
        JoinMisleadsNobody(nodes, i, id, sub, c, u, misled);
      }
    } else {
      var count := GatheredCount(nodes, sub.channel);
      var s' := SubscribeAt(cfg, nodes[i], id, sub, count).state;
      TurnedAwaySilent(cfg, nodes[i], id, sub, count, c);
      TurnedAwayCore(cfg, nodes[i], id, sub, count);
      SameCoreMembers(nodes[i], s', c);
      AudienceKept(nodes[i], s', c);
      NobodyNoticedHere(nodes, i, s', c, u, misled);
    }
    AnswerMisleads(h, i, id, c, u, misled');
  }

  lemma LocalSilent(cfg: Config, s: State, r: Request, c: ChannelName)
    requires Enabled(s, r) && Grounded(s) && StaysOnNode(s, r)
    ensures SameAudience(s, Step(cfg, s, r), c) && MemberIds(Step(cfg, s, r), c) == MemberIds(s, c)
  {
    hide View, MemberIds, SameAudience, Signin, AddSocket, Grounded;
    LocalMembers(cfg, s, r, c);
    match r
    case Connect(id) => ConnectUnnoticed(cfg, s, id, c);
    case Unsubscribing(id, left) =>
      AnswerViews(Unsubscribe(s, id, left), id, c);
      UnsubscribingCore(cfg, s, id, left);
      SameCoreMembers(s, Step(cfg, s, r), c);
      AudienceKept(s, Step(cfg, s, r), c);
    case SigningIn(id, tokenOk, user, order) => SigninUnnoticed(cfg, s, id, tokenOk, user, order, c);
    case Compacting => CompactUnnoticed(s, c);
  }

  lemma CompactUnnoticed(s: State, c: ChannelName)
    ensures SameAudience(s, CompactMaps(s), c)
  {
    hide View;
  }

  lemma ConnectUnnoticed(cfg: Config, s: State, id: SocketId, c: ChannelName)
    ensures SameAudience(s, AddSocket(cfg, s, id), c)
  {
    hide View;
  }

  lemma SigninUnnoticed(cfg: Config, s: State, id: SocketId, tokenOk: bool, user: UserId, order: seq<ChannelName>,
                        c: ChannelName)
    requires id in s.sockets && (user == "" || tokenOk)
    ensures SameAudience(s, Step(cfg, s, SigningIn(id, tokenOk, user, order)), c)
  {
    hide View, MemberIds, Answer, Deliver, AddUser;
    AnswerViews(Signin(s, id, tokenOk, user, order), id, c);
    SignedInViews(s, id, user, order, c);
    SigningInCore(cfg, s, id, tokenOk, user, order);
  }

  /** Every request, on whichever node, turns who is misled about u anywhere into exactly those named. */
  lemma AllBelieveStep(cfg: Config, nodes: seq<State>, i: nat, r: Request, c: ChannelName, u: UserId,
                       misled: set<Place>)
    requires i < |nodes| && AllGrounded(nodes) && IsPresence(c) && Enabled(nodes[i], r)
    requires AllBelieve(nodes, c, u, misled)
    ensures AllBelieve(ClusterStep(cfg, nodes, i, r), c, u, MisledAfterOn(cfg, nodes, i, r, c, u, misled))
  {
    hide View, AllBelieve, SubscribeInCluster, LeaveInCluster, CloseInCluster, AnswerInCluster, Step,
         SameAudience, MemberIds, Grounded, AdmittedInCluster;
    assert Grounded(nodes[i]) && forall j: nat | j < |nodes| :: Held(nodes[j]) by { AreHeld(nodes); }
    match r
    case Subscribing(id, sub) => SubscribeMisleads(cfg, nodes, i, id, sub, c, u, misled);
    case Unsubscribing(id, left) =>
      if left in nodes[i].sockets[id].subscribed {
        LeaveMisleads(nodes, i, id, left, c, u, misled);
      } else {
        LocalSilent(cfg, nodes[i], r, c);
        NobodyNoticedHere(nodes, i, Step(cfg, nodes[i], r), c, u, misled);
        if left == c { UnsubscribedNotMisled(nodes, i, id, c, u, misled); }
      }
    case SigningIn(id, tokenOk, user, order) =>
      if user != "" && !tokenOk {
        CloseMisleads(nodes, i, id, order, c, u, misled);
        AnswerMisleads(Handled(CloseInCluster(nodes, i, id, order), Some(UnauthorizedConnection)), i, id, c, u,
                       misled - {(i, id)});
      } else {
        LocalSilent(cfg, nodes[i], r, c);
        NobodyNoticedHere(nodes, i, Step(cfg, nodes[i], r), c, u, misled);
      }
    case Closing(id, order) => CloseMisleads(nodes, i, id, order, c, u, misled);
    case _ =>
      LocalSilent(cfg, nodes[i], r, c);
      NobodyNoticedHere(nodes, i, Step(cfg, nodes[i], r), c, u, misled);
  }

  lemma UnsubscribedNotMisled(nodes: seq<State>, i: nat, id: SocketId, c: ChannelName, u: UserId, misled: set<Place>)
    requires i < |nodes| && id in nodes[i].sockets && Grounded(nodes[i]) && c !in nodes[i].sockets[id].subscribed
    requires AllBelieve(nodes, c, u, misled)
    ensures misled - {(i, id)} == misled
  {
    assert Held(nodes[i]) && ListedSubscribe(nodes[i]);
    hide AllBelieve, Grounded, IsPresence;
    assert id in Holders(nodes[i], c) ==> id in Listed(nodes[i].channels, c);
    NotMisled(nodes, i, id, c, u, misled);
  }

  /** Everybody in c is right about u, on every node. */
  ghost predicate AllKnow(nodes: seq<State>, c: ChannelName, u: UserId) {
    forall j: nat, id | j < |nodes| && id in Holders(nodes[j], c) ::
      Rostered(nodes[j], id, c) && (Sees(nodes[j], id, c, u) <==> u in ClusterMembers(nodes, c))
  }

  lemma AllKnowIf(nodes: seq<State>, c: ChannelName, u: UserId, misled: set<Place>)
    requires AllBelieve(nodes, c, u, misled)
    ensures AllKnow(nodes, c, u) <==> misled == {}
  {
    hide View, ClusterMembers;
    forall j: nat, id | j < |nodes| && id in Holders(nodes[j], c)
      ensures Rostered(nodes[j], id, c)
        && (Sees(nodes[j], id, c, u) <==> u in ClusterMembers(nodes, c) || (j, id) in misled)
    {
      assert NodeBelieves(nodes[j], j, c, u, u in ClusterMembers(nodes, c), misled);
    }
    if misled != {} {
      var p :| p in misled;
      assert p in AllHolders(nodes, c);
    }
  }

  /** Whatever the clients do on whichever node, a request keeps everybody in c right about u unless, and only unless,
      the last socket of u in c, anywhere, subscribes to it again as somebody else. */
  lemma ClusterViewStep(cfg: Config, nodes: seq<State>, i: nat, r: Request, c: ChannelName, u: UserId)
    requires i < |nodes| && AllGrounded(nodes) && IsPresence(c) && Enabled(nodes[i], r) && AllKnow(nodes, c, u)
    ensures AllKnow(ClusterStep(cfg, nodes, i, r), c, u) <==>
      !(r.Subscribing? && r.sub.channel == c && AdmittedInCluster(cfg, nodes, i, r.id, r.sub)
        && LosesInCluster(nodes, i, r.id, c, r.sub.member.userId, u))
  {
    hide View, ClusterStep, AdmittedInCluster, ClusterMembers, AllGrounded, IsPresence, Others;
    assert AllBelieve(nodes, c, u, {});
    AllBelieveStep(cfg, nodes, i, r, c, u, {});
    AllKnowIf(ClusterStep(cfg, nodes, i, r), c, u, MisledAfterOn(cfg, nodes, i, r, c, u, {}));
    if r.Subscribing? && LosesInCluster(nodes, i, r.id, c, r.sub.member.userId, u) {
      assert (i, r.id) in AllHolders(nodes, c);
    }
  }

  // ---------- whole runs ----------

  /** The sockets of the cluster that take u for a member of c although nobody there is u any more. */
  function MisledIn(cfg: Config, size: nat, steps: seq<(nat, Request)>, c: ChannelName, u: UserId): set<Place> {
    if steps == [] then {}
    else
      var w, step := ClusterRun(cfg, size, steps[..|steps| - 1]), steps[|steps| - 1];
      var misled := MisledIn(cfg, size, steps[..|steps| - 1], c, u);
      if step.0 < size && Enabled(w.nodes[step.0], step.1)
      then MisledAfterOn(cfg, w.nodes, step.0, step.1, c, u, misled) else misled
  }

  /** In every run of any number of nodes with serialised requests, every socket with presence data for c was sent a
      roster, and what it has made of it takes u for a member exactly if u is one somewhere in the cluster, except that
      the sockets named by MisledIn take it for one wrongly. */
  lemma {:induction false} ClusterRunBelieves(cfg: Config, size: nat, steps: seq<(nat, Request)>, c: ChannelName,
                                              u: UserId)
    requires IsPresence(c)
    ensures var nodes := ClusterRun(cfg, size, steps).nodes;
      && AllGrounded(nodes) && AllBelieve(nodes, c, u, MisledIn(cfg, size, steps, c, u))
      && (AllKnow(nodes, c, u) <==> MisledIn(cfg, size, steps, c, u) == {})
  {
    hide View, AllBelieve, AllKnow, ClusterStep, MisledAfterOn, AllGrounded;
    if steps == [] {
      NobodyBelievesYet(cfg, size, c, u);
    } else {
      var w, step := ClusterRun(cfg, size, steps[..|steps| - 1]), steps[|steps| - 1];
      ClusterRunBelieves(cfg, size, steps[..|steps| - 1], c, u);
      if step.0 < size && Enabled(w.nodes[step.0], step.1) {
        AllBelieveStep(cfg, w.nodes, step.0, step.1, c, u, MisledIn(cfg, size, steps[..|steps| - 1], c, u));
        StepGroundsAll(cfg, w.nodes, step.0, step.1);
      }
    }
    AllKnowIf(ClusterRun(cfg, size, steps).nodes, c, u, MisledIn(cfg, size, steps, c, u));
  }

  lemma StepGroundsAll(cfg: Config, nodes: seq<State>, i: nat, r: Request)
    requires i < |nodes| && Enabled(nodes[i], r) && AllGrounded(nodes)
    ensures AllGrounded(ClusterStep(cfg, nodes, i, r))
  {
    hide Grounded, ClusterStep;
    ClusterStepGrounded(cfg, nodes, i, r);
  }

  lemma NobodyBelievesYet(cfg: Config, size: nat, c: ChannelName, u: UserId)
    ensures var nodes := ClusterRun(cfg, size, []).nodes; AllGrounded(nodes) && AllBelieve(nodes, c, u, {})
  {
    var nodes := ClusterRun(cfg, size, []).nodes;
    ClusterMembersAre(nodes, c);
    assert forall j: nat | j < size :: nodes[j] == EMPTY && MemberIds(nodes[j], c) == {} && Holders(nodes[j], c) == {};
  }

  /** Every holder of c in the cluster takes exactly the cluster's members for members. */
  ghost predicate AllRostered(nodes: seq<State>, c: ChannelName) {
    forall j: nat, id | j < |nodes| && id in Holders(nodes[j], c) ::
      ViewOf(nodes[j], id, c) == Some(ClusterMembers(nodes, c))
  }

  lemma AllRosteredIfKnown(nodes: seq<State>, c: ChannelName)
    ensures AllRostered(nodes, c) <==> forall u :: AllKnow(nodes, c, u)
  {
    hide View, ClusterMembers;
    if forall u :: AllKnow(nodes, c, u) {
      forall j: nat, id | j < |nodes| && id in Holders(nodes[j], c)
        ensures ViewOf(nodes[j], id, c) == Some(ClusterMembers(nodes, c))
      {
        assert AllKnow(nodes, c, "");
        forall u ensures u in ViewOf(nodes[j], id, c).value <==> u in ClusterMembers(nodes, c) {
          assert AllKnow(nodes, c, u);
        }
        assert ViewOf(nodes[j], id, c).value == ClusterMembers(nodes, c);
      }
    }
  }

  ghost predicate NobodyMisledIn(cfg: Config, size: nat, steps: seq<(nat, Request)>, c: ChannelName) {
    forall u :: MisledIn(cfg, size, steps, c, u) == {}
  }

  /** All users together: every roster in the cluster is the cluster's member list if and only if nobody is misled about
      anybody. */
  lemma ClusterRosters(cfg: Config, size: nat, steps: seq<(nat, Request)>, c: ChannelName)
    requires IsPresence(c)
    ensures AllRostered(ClusterRun(cfg, size, steps).nodes, c) <==> NobodyMisledIn(cfg, size, steps, c)
  {
    hide View, ClusterRun, AllRostered, AllKnow;
    var nodes := ClusterRun(cfg, size, steps).nodes;
    AllRosteredIfKnown(nodes, c);
    if AllRostered(nodes, c) {
      forall u ensures MisledIn(cfg, size, steps, c, u) == {} {
        assert AllKnow(nodes, c, u);
        ClusterRunBelieves(cfg, size, steps, c, u);
      }
    }
    if NobodyMisledIn(cfg, size, steps, c) {
      forall u ensures AllKnow(nodes, c, u) {
        assert MisledIn(cfg, size, steps, c, u) == {};
        ClusterRunBelieves(cfg, size, steps, c, u);
      }
    }
  }
}
