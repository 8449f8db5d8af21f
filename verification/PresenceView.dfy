/** The clients of one node: a cluster of one. Everything is said of one channel and one user. */
module PresenceView {
  import opened Wrappers
  import opened Names
  import opened Membership
  import opened MembershipCore
  import opened MembershipIndex
  import opened MembershipEvents
  import opened ClientView
  import opened ClusterMembership
  import opened ClusterEvents
  import opened ClusterView

  // ---------- right and wrong beliefs ----------

  /** Every holder of c has a roster, and it is right about u for all but `misled`, who take u for a member although
      it is none. */
  ghost predicate Believes(s: State, c: ChannelName, u: UserId, misled: set<SocketId>) {
    && misled <= Holders(s, c) && (u in MemberIds(s, c) ==> misled == {})
    && forall id | id in Holders(s, c) ::
         Rostered(s, id, c) && (Sees(s, id, c, u) <==> u in MemberIds(s, c) || id in misled)
  }

  /** Every holder of c is right about u. */
  ghost predicate KnowsAt(s: State, c: ChannelName, u: UserId) {
    forall id | id in Holders(s, c) :: Rostered(s, id, c) && (Sees(s, id, c, u) <==> u in MemberIds(s, c))
  }

  /** Every holder of c takes exactly the members for members. */
  ghost predicate RostersAt(s: State, c: ChannelName) {
    forall id | id in Holders(s, c) :: ViewOf(s, id, c) == Some(MemberIds(s, c))
  }

  /** The same for every subscriber. */
  ghost predicate ViewsAt(s: State, c: ChannelName) {
    forall id | id in s.sockets && c in s.sockets[id].subscribed :: ViewOf(s, id, c) == Some(MemberIds(s, c))
  }

  lemma BelievesKnows(s: State, c: ChannelName, u: UserId, misled: set<SocketId>)
    requires Believes(s, c, u, misled)
    ensures KnowsAt(s, c, u) <==> misled == {}
  {
    hide View;
    if misled != {} {
      var id :| id in misled;
      assert id in Holders(s, c);
    }
  }

  lemma RostersAreKnown(s: State, c: ChannelName)
    ensures RostersAt(s, c) <==> forall u :: KnowsAt(s, c, u)
  {
    hide View, MemberIds;
    if forall u :: KnowsAt(s, c, u) {
      forall id | id in Holders(s, c) ensures ViewOf(s, id, c) == Some(MemberIds(s, c)) {
        assert KnowsAt(s, c, "");
        forall u ensures u in ViewOf(s, id, c).value <==> u in MemberIds(s, c) { assert KnowsAt(s, c, u); }
        assert ViewOf(s, id, c).value == MemberIds(s, c);
      }
    }
  }

  /** Every holder is a subscriber. */
  lemma ViewsGiveRosters(s: State, c: ChannelName)
    requires Grounded(s) && ViewsAt(s, c)
    ensures RostersAt(s, c)
  {
    hide View, MemberIds, IsPresence;
    forall id | id in Holders(s, c) ensures c in s.sockets[id].subscribed {
      assert id in Listed(s.channels, c);
    }
  }

  /** Where the index is whole, holders and subscribers are the same sockets. */
  lemma ViewsAreRosters(s: State, c: ChannelName)
    requires IndexAt(s, c) && IsPresence(c)
    ensures ViewsAt(s, c) <==> RostersAt(s, c)
  {
    hide View, MemberIds;
    assert forall id | id in s.sockets :: id in Holders(s, c) <==> c in s.sockets[id].subscribed;
  }

  // ---------- a cluster of one ----------

  function OnlyNode(ids: set<SocketId>): set<Place> {
    set id | id in ids :: (0, id)
  }

  lemma BelievesAlone(s: State, c: ChannelName, u: UserId, misled: set<SocketId>)
    ensures Believes(s, c, u, misled) <==> AllBelieve([s], c, u, OnlyNode(misled))
  {
    hide View, MemberIds;
    Alone(s, c);
    assert forall id :: id in misled <==> (0, id) in OnlyNode(misled);
    assert forall id :: id in Holders(s, c) <==> (0, id) in AllHolders([s], c);
  }

  lemma NobodyElsewhere(s: State, id: SocketId, c: ChannelName)
    ensures Others([s], 0, id, c) == OtherMembers(s, id, c)
  {
    assert [s][0 := EMPTY] == [EMPTY];
    Alone(EMPTY, c);
    assert MemberIds(EMPTY, c) == {};
  }

  // ---------- one request ----------

  /** The last socket of u in c subscribes to it again under another user id. */
  predicate LosesUser(s: State, id: SocketId, c: ChannelName, v: UserId, u: UserId)
    requires id in s.sockets
  {
    LastOfUser(s, id, c) && s.sockets[id].presence[c].userId == u && v != u
  }

  /** Who is misled about u after socket `id` joined c as user v. */
  function MisledByJoin(s: State, id: SocketId, c: ChannelName, v: UserId, u: UserId, misled: set<SocketId>)
    : set<SocketId>
    requires id in s.sockets
  {
    if LosesUser(s, id, c, v, u) then Holders(s, c) else if u == v then {} else misled - {id}
  }

  /** Who is misled about u after a request: everybody once its last socket changes names; nobody any more once somebody
      joins as u; and no more those who leave or are sent a new roster. */
  function MisledAfter(cfg: Config, s: State, r: Request, c: ChannelName, u: UserId, misled: set<SocketId>)
    : set<SocketId>
    requires Enabled(s, r)
  {
    match r
    case Subscribing(id, sub) =>
      if Admitted(cfg, s, id, sub) && sub.channel == c && sub.member.userId != ""
      then MisledByJoin(s, id, c, sub.member.userId, u, misled)
      else misled
    case Unsubscribing(id, left) => if left == c then misled - {id} else misled
    case SigningIn(id, tokenOk, user, _) => if user != "" && !tokenOk then misled - {id} else misled
    case Closing(id, _) => misled - {id}
    case _ => misled
  }

  lemma MisledAlone(cfg: Config, s: State, r: Request, c: ChannelName, u: UserId, misled: set<SocketId>)
    requires Enabled(s, r) && IsPresence(c)
    ensures MisledAfterOn(cfg, [s], 0, r, c, u, OnlyNode(misled)) == OnlyNode(MisledAfter(cfg, s, r, c, u, misled))
  {
    hide View, MemberIds, ValidName, AdmissionAt, OtherMembers, Others, IsPresence, Holders;
    if r.Subscribing? {
      Alone(s, r.sub.channel);
      NobodyElsewhere(s, r.id, c);
      assert AllHolders([s], c) == OnlyNode(Holders(s, c));
    }
    if r.Subscribing? || r.Unsubscribing? || r.SigningIn? || r.Closing? {
      assert OnlyNode(misled - {r.id}) == OnlyNode(misled) - {(0, r.id)};
    }
  }

  /** Every request turns who is misled about u into exactly those named. */
  lemma BeliefsStep(cfg: Config, s: State, r: Request, c: ChannelName, u: UserId, misled: set<SocketId>)
    requires Grounded(s) && IsPresence(c) && Enabled(s, r) && Believes(s, c, u, misled)
    ensures Believes(Step(cfg, s, r), c, u, MisledAfter(cfg, s, r, c, u, misled))
  {
    hide View, Step, ClusterStep, MisledAfterOn, MisledAfter, Believes, AllBelieve, Grounded, OnlyNode;
    BelievesAlone(s, c, u, misled);
    assert AllGrounded([s]);
    AllBelieveStep(cfg, [s], 0, r, c, u, OnlyNode(misled));
    OneNode(cfg, s, r);
    MisledAlone(cfg, s, r, c, u, misled);
    BelievesAlone(Step(cfg, s, r), c, u, MisledAfter(cfg, s, r, c, u, misled));
  }

  /** Whatever the clients do, a request keeps everybody in c right about u unless, and only unless, the last socket of
      u in c subscribes to it again as somebody else. */
  lemma ViewStep(cfg: Config, s: State, r: Request, c: ChannelName, u: UserId)
    requires Grounded(s) && IsPresence(c) && Enabled(s, r) && KnowsAt(s, c, u)
    ensures KnowsAt(Step(cfg, s, r), c, u) <==> !AbandonsUser(cfg, s, r, c, u)
  {
    hide View, Step, Admitted, MemberIds;
    assert Believes(s, c, u, {});
    BeliefsStep(cfg, s, r, c, u, {});
    var misled := MisledAfter(cfg, s, r, c, u, {});
    BelievesKnows(Step(cfg, s, r), c, u, misled);
    if AbandonsUser(cfg, s, r, c, u) { assert r.id in Holders(s, c); }
  }

  // ---------- whole runs ----------

  /** The sockets that take u for a member of c although nobody there is u any more. */
  function Misled(cfg: Config, rs: seq<Request>, c: ChannelName, u: UserId): set<SocketId> {
    if rs == [] then {}
    else
      var s, r, misled := Run(cfg, rs[..|rs| - 1]), rs[|rs| - 1], Misled(cfg, rs[..|rs| - 1], c, u);
      if Enabled(s, r) then MisledAfter(cfg, s, r, c, u, misled) else misled
  }

  /** In every run whatsoever, every socket with presence data for c was sent a roster, and what it has made of it takes
      u for a member exactly if u is one, except that the sockets named by Misled take it for one wrongly. */
  lemma {:induction false} RunBelieves(cfg: Config, rs: seq<Request>, c: ChannelName, u: UserId)
    requires IsPresence(c)
    ensures Believes(Run(cfg, rs), c, u, Misled(cfg, rs, c, u))
    ensures KnowsAt(Run(cfg, rs), c, u) <==> Misled(cfg, rs, c, u) == {}
  {
    hide View, Believes, Step, MisledAfter;
    if rs == [] {
      NobodyBelieves(c, u);
    } else {
      RunBelieves(cfg, rs[..|rs| - 1], c, u);
      RunKeepsGround(cfg, rs[..|rs| - 1]);
      var s, r := Run(cfg, rs[..|rs| - 1]), rs[|rs| - 1];
      if Enabled(s, r) { BeliefsStep(cfg, s, r, c, u, Misled(cfg, rs[..|rs| - 1], c, u)); }
    }
    BelievesKnows(Run(cfg, rs), c, u, Misled(cfg, rs, c, u));
  }

  lemma NobodyBelieves(c: ChannelName, u: UserId)
    ensures Believes(EMPTY, c, u, {})
  {
    assert MemberIds(EMPTY, c) == {} && Holders(EMPTY, c) == {};
  }

  /** The last socket of u in c never changed names. */
  predicate NeverAbandoned(cfg: Config, rs: seq<Request>, c: ChannelName, u: UserId) {
    rs == [] || (
      var s, r := Run(cfg, rs[..|rs| - 1]), rs[|rs| - 1];
      NeverAbandoned(cfg, rs[..|rs| - 1], c, u) && (Enabled(s, r) ==> !AbandonsUser(cfg, s, r, c, u)))
  }

  lemma {:induction false} NobodyMisled(cfg: Config, rs: seq<Request>, c: ChannelName, u: UserId)
    requires NeverAbandoned(cfg, rs, c, u) && IsPresence(c)
    ensures Misled(cfg, rs, c, u) == {}
  {
    if rs != [] { NobodyMisled(cfg, rs[..|rs| - 1], c, u); }
  }

  /** If u was never abandoned in c, everybody there is right about u, whatever happened to others and elsewhere. */
  lemma RunKeepsViews(cfg: Config, rs: seq<Request>, c: ChannelName, u: UserId)
    requires IsPresence(c) && NeverAbandoned(cfg, rs, c, u)
    ensures KnowsAt(Run(cfg, rs), c, u)
  {
    NobodyMisled(cfg, rs, c, u);
    RunBelieves(cfg, rs, c, u);
  }

  ghost predicate NobodyMisledAt(cfg: Config, rs: seq<Request>, c: ChannelName) {
    forall u :: Misled(cfg, rs, c, u) == {}
  }

  /** All users together: every roster is the member list if and only if nobody is misled about anybody; and if nobody
      joined c anonymously this is so for every subscriber. */
  lemma RunRosters(cfg: Config, rs: seq<Request>, c: ChannelName)
    requires IsPresence(c)
    ensures RostersAt(Run(cfg, rs), c) <==> NobodyMisledAt(cfg, rs, c)
    ensures NamedAt(cfg, rs, c) ==> (ViewsAt(Run(cfg, rs), c) <==> NobodyMisledAt(cfg, rs, c))
  {
    hide View, Run, KnowsAt, RostersAt, ViewsAt;
    var s := Run(cfg, rs);
    RostersAreKnown(s, c);
    if RostersAt(s, c) {
      forall u ensures Misled(cfg, rs, c, u) == {} {
        assert KnowsAt(s, c, u);
        RunBelieves(cfg, rs, c, u);
      }
    }
    if NobodyMisledAt(cfg, rs, c) {
      forall u ensures KnowsAt(s, c, u) {
        assert Misled(cfg, rs, c, u) == {};
        RunBelieves(cfg, rs, c, u);
      }
    }
    if NamedAt(cfg, rs, c) {
      RunKeepsIndex(cfg, rs, c);
      ViewsAreRosters(s, c);
    }
  }
}
