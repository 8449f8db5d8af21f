/** The subscription index: what ties Channels, Sockets, Users, SubscribedChannels and PresenceData together in every
    reachable state, and exactly which requests break it. */
module MembershipIndex {
  import opened Wrappers
  import opened Names
  import opened Membership
  import opened MembershipCore

  // ---------- what every run keeps ----------

  ghost predicate NoEmptyChannel(s: State) {
    forall c | c in s.channels :: s.channels[c] != []
  }

  ghost predicate ListedSubscribe(s: State) {
    forall c, id | c in s.channels && id in s.channels[c] :: id in s.sockets && c in s.sockets[id].subscribed
  }

  /** Presence data is kept for presence channels only, and only by sockets listed under them. */
  ghost predicate Held(s: State) {
    forall id, c | id in s.sockets && c in s.sockets[id].presence :: IsPresence(c) && id in Listed(s.channels, c)
  }

  ghost predicate OrdinaryListed(s: State) {
    forall id, c | id in s.sockets && c in s.sockets[id].subscribed && !IsPresence(c) :: id in Listed(s.channels, c)
  }

  /** The part of the index that no request breaks. */
  ghost predicate Grounded(s: State) {
    NoEmptyChannel(s) && ListedSubscribe(s) && Held(s) && OrdinaryListed(s)
  }

  lemma JoinGrounded(s: State, r: State, id: SocketId, sub: Subscription)
    requires Grounded(s) && id in s.sockets && JoinRel(s, r, id, sub)
    ensures Grounded(r)
  {
    hide IsPresence, CreateChannel;
    assert r.sockets[id].subscribed == s.sockets[id].subscribed + {sub.channel};
    assert NoEmptyChannel(r);
    assert ListedSubscribe(r);
    forall j, c | j in r.sockets && c in r.sockets[j].presence ensures IsPresence(c) && j in Listed(r.channels, c) {
      if j != id { assert SameSocket(s.sockets[j], r.sockets[j]); }
      assert c in s.sockets[j].presence || (j == id && c == sub.channel);
    }
    assert OrdinaryListed(r);
  }

  lemma ListedAfterDrop(lists: map<string, seq<SocketId>>, key: string, id: SocketId)
    ensures forall k, j ::
      j in Listed(Drop(lists, key, id), k) <==> j in Listed(lists, k) && !(k == key && j == id)
    ensures (forall k | k in lists :: lists[k] != []) ==>
      forall k | k in Drop(lists, key, id) :: k in lists && Drop(lists, key, id)[k] != []
  {
  }

  lemma LeaveGrounded(s: State, r: State, id: SocketId, c: ChannelName)
    requires Grounded(s) && id in s.sockets && LeaveRel(s, r, id, c)
    ensures Grounded(r)
  {
    ListedAfterDrop(s.channels, c, id);
    hide IsPresence, Drop;
    forall k, j | k in r.channels && j in r.channels[k] ensures j in r.sockets && k in r.sockets[j].subscribed {
      assert j in Listed(r.channels, k);
      assert j in Listed(s.channels, k);
    }
    forall j, k | j in r.sockets && k in r.sockets[j].presence ensures IsPresence(k) && j in Listed(r.channels, k) {
      assert k in s.sockets[j].presence;
      assert IsPresence(k) && j in Listed(s.channels, k);
    }
    assert OrdinaryListed(r);
  }

  lemma CloseGrounded(s: State, r: State, id: SocketId)
    requires Grounded(s) && id in s.sockets && CloseRel(s, r, id)
    ensures Grounded(r)
  {
    hide IsPresence;
    assert ListedSubscribe(r);
    forall j, c | j in r.sockets && c in r.sockets[j].presence ensures IsPresence(c) && j in Listed(r.channels, c) {
      assert c in s.sockets[j].presence;
      assert j in Listed(s.channels, c);
      assert j in Without(s.channels[c], id);
    }
    assert OrdinaryListed(r);
  }

  lemma SigninGrounded(s: State, r: State, id: SocketId, user: UserId)
    requires Grounded(s) && id in s.sockets && SigninRel(s, r, id, user)
    ensures Grounded(r)
  {
    hide IsPresence;
  }

  lemma SameCoreGrounded(s: State, r: State)
    requires Grounded(s) && SameCore(s, r)
    ensures Grounded(r)
  {
    hide IsPresence;
  }

  lemma ConnectGrounded(cfg: Config, s: State, id: SocketId)
    requires Grounded(s)
    ensures Grounded(AddSocket(cfg, s, id))
  {
    assert forall j | j in s.sockets :: AddSocket(cfg, s, id).sockets[j] == s.sockets[j];
  }

  /** On maps without empty lists compaction changes nothing. */
  lemma CompactIsIdentity(s: State)
    requires NoEmptyChannel(s)
    ensures CompactMaps(s).channels == s.channels
    ensures (forall u | u in s.users :: s.users[u] != []) ==> CompactMaps(s) == s
  {
  }

  lemma GroundedStep(cfg: Config, s: State, r: Request)
    requires Grounded(s) && Enabled(s, r)
    ensures Grounded(Step(cfg, s, r))
  {
    var s' := Step(cfg, s, r);
    match r
    case Connect(id) => ConnectGrounded(cfg, s, id);
    case Subscribing(id, sub) =>
      SubscribingCore(cfg, s, id, sub);
      if Admitted(cfg, s, id, sub) { JoinGrounded(s, s', id, sub); } else { SameCoreGrounded(s, s'); }
    case Unsubscribing(id, c) =>
      UnsubscribingCore(cfg, s, id, c);
      if c in s.sockets[id].subscribed { LeaveGrounded(s, s', id, c); } else { SameCoreGrounded(s, s'); }
    case SigningIn(id, tokenOk, user, order) =>
      SigningInCore(cfg, s, id, tokenOk, user, order);
      if user == "" { SameCoreGrounded(s, s'); }
      else if !tokenOk { CloseGrounded(s, s', id); }
      else { SigninGrounded(s, s', id, user); }
    case Closing(id, order) =>
      CloseCore(s, id, order);
      CloseGrounded(s, s', id);
    case Compacting => CompactIsIdentity(s);
  }

  lemma {:induction false} RunKeepsGround(cfg: Config, rs: seq<Request>)
    ensures Grounded(Run(cfg, rs))
  {
    if rs != [] {
      RunKeepsGround(cfg, rs[..|rs| - 1]);
      var s, r := Run(cfg, rs[..|rs| - 1]), rs[|rs| - 1];
      if Enabled(s, r) { GroundedStep(cfg, s, r); }
    }
  }

  // ---------- the two-sided index of one channel ----------

  /** The subscribers of c are exactly the sockets listed under it, and, if it is a presence channel, exactly the
      sockets with presence data for it. */
  ghost predicate IndexAt(s: State, c: ChannelName) {
    && (forall id | id in Listed(s.channels, c) :: id in s.sockets)
    && (forall id | id in s.sockets :: c in s.sockets[id].subscribed <==> id in Listed(s.channels, c))
    && (forall id | id in s.sockets :: c in s.sockets[id].presence <==> IsPresence(c) && c in s.sockets[id].subscribed)
  }

  /** Every subscriber of c has presence data if c is a presence channel. */
  ghost predicate Full(s: State, c: ChannelName) {
    IsPresence(c) ==> forall id | id in s.sockets && c in s.sockets[id].subscribed :: c in s.sockets[id].presence
  }

  lemma FullIsIndex(s: State, c: ChannelName)
    requires Grounded(s)
    ensures Full(s, c) <==> IndexAt(s, c)
  {
  }

  /** A presence join without a user id: the socket is listed before the missing id is noticed. */
  predicate JoinsAnonymously(cfg: Config, s: State, r: Request, c: ChannelName)
    requires Enabled(s, r)
  {
    && r.Subscribing? && r.sub.channel == c && Admitted(cfg, s, r.id, r.sub) && IsPresence(c)
    && r.sub.member.userId == "" && c !in s.sockets[r.id].subscribed
  }

  lemma JoinFull(s: State, r: State, id: SocketId, sub: Subscription, c: ChannelName)
    requires Grounded(s) && Full(s, c) && id in s.sockets && JoinRel(s, r, id, sub)
    ensures Full(r, c) <==>
      !(sub.channel == c && IsPresence(c) && sub.member.userId == "" && c !in s.sockets[id].subscribed)
  {
    hide IsPresence, CreateChannel;
    assert r.sockets[id].subscribed == s.sockets[id].subscribed + {sub.channel};
    if sub.channel == c && IsPresence(c) && sub.member.userId == "" && c !in s.sockets[id].subscribed {
      assert c !in s.sockets[id].presence;
      assert c in r.sockets[id].subscribed && c !in r.sockets[id].presence;
    }
  }

  /** A request keeps the index of a channel unless, and only unless, it is an anonymous first join of that channel. */
  lemma IndexStep(cfg: Config, s: State, r: Request, c: ChannelName)
    requires Grounded(s) && IndexAt(s, c) && Enabled(s, r)
    ensures Grounded(Step(cfg, s, r))
    ensures IndexAt(Step(cfg, s, r), c) <==> !JoinsAnonymously(cfg, s, r, c)
  {
    hide IndexAt, Grounded, IsPresence;
    var s' := Step(cfg, s, r);
    GroundedStep(cfg, s, r);
    FullIsIndex(s, c);
    FullIsIndex(s', c);
    match r
    case Connect(id) =>
    case Subscribing(id, sub) =>
      SubscribingCore(cfg, s, id, sub);
      hide Step;
      if Admitted(cfg, s, id, sub) { JoinFull(s, s', id, sub, c); }
    case Unsubscribing(id, c') =>
      UnsubscribingCore(cfg, s, id, c');
      hide Step;
    case SigningIn(id, tokenOk, user, order) =>
      SigningInCore(cfg, s, id, tokenOk, user, order);
      hide Step;
    case Closing(id, order) => CloseCore(s, id, order);
    case Compacting =>
  }

  /** No request of the run was an anonymous first join of c. */
  ghost predicate NamedAt(cfg: Config, rs: seq<Request>, c: ChannelName) {
    rs == [] || (
      var s, r := Run(cfg, rs[..|rs| - 1]), rs[|rs| - 1];
      NamedAt(cfg, rs[..|rs| - 1], c) && (Enabled(s, r) ==> !JoinsAnonymously(cfg, s, r, c)))
  }

  lemma {:induction false} RunKeepsIndex(cfg: Config, rs: seq<Request>, c: ChannelName)
    requires NamedAt(cfg, rs, c)
    ensures Grounded(Run(cfg, rs)) && IndexAt(Run(cfg, rs), c)
  {
    if rs != [] {
      RunKeepsIndex(cfg, rs[..|rs| - 1], c);
      var s, r := Run(cfg, rs[..|rs| - 1]), rs[|rs| - 1];
      if Enabled(s, r) { IndexStep(cfg, s, r, c); }
    }
  }

  // ---------- user lists ----------

  /** User lists are non-empty, free of repeats, and list only live sockets that carry that user id. */
  ghost predicate UsersInv(s: State) {
    && (forall u | u in s.users :: u != "" && s.users[u] != [] && NoRepeats(s.users[u]))
    && (forall u, id | u in s.users && id in s.users[u] :: id in s.sockets && s.sockets[id].userId == u)
  }

  /** A sign-in under a second identity by a socket already listed under a first one. */
  predicate SwitchesIdentity(s: State, r: Request)
    requires Enabled(s, r)
  {
    r.SigningIn? && r.tokenOk && r.user != "" && r.user != s.sockets[r.id].userId
    && r.id in Listed(s.users, s.sockets[r.id].userId)
  }

  lemma DropsUser(users: map<UserId, seq<SocketId>>, user: UserId, id: SocketId)
    requires forall u | u in users :: users[u] != [] && NoRepeats(users[u])
    ensures var r := Drop(users, user, id);
      && (forall u | u in r :: u in users && r[u] != [] && NoRepeats(r[u]) && forall j | j in r[u] :: j in users[u])
      && (user in r ==> id !in r[user])
      && (forall u | u in users && u != user :: u in r && r[u] == users[u])
  {
    if user in users { WithoutKeepsNoRepeats(users[user], id); }
  }

  lemma CloseUsers(s: State, r: State, id: SocketId)
    requires UsersInv(s) && id in s.sockets && CloseRel(s, r, id)
    ensures UsersInv(r)
    ensures forall u | u in r.users :: id !in r.users[u]
  {
    var user := s.sockets[id].userId;
    DropsUser(s.users, user, id);
    DropsUser(Drop(s.users, user, id), user, id);
    forall u, j | u in r.users && j in r.users[u] ensures j != id && j in s.sockets && s.sockets[j].userId == u {
      assert u in s.users && j in s.users[u];
    }
  }

  lemma JoinUsers(s: State, r: State, id: SocketId, sub: Subscription)
    requires UsersInv(s) && id in s.sockets && JoinRel(s, r, id, sub)
    ensures UsersInv(r)
  {
  }

  lemma SigninUsers(s: State, r: State, id: SocketId, user: UserId)
    requires UsersInv(s) && id in s.sockets && user != "" && SigninRel(s, r, id, user)
    ensures UsersInv(r) <==> !(user != s.sockets[id].userId && id in Listed(s.users, s.sockets[id].userId))
  {
    var prior := s.sockets[id].userId;
    if user != prior && id in Listed(s.users, prior) {
      assert prior in r.users && id in r.users[prior];
    } else {
      assert forall u | u in s.users && id in s.users[u] :: u == user;
    }
  }

  lemma LeaveUsers(s: State, r: State, id: SocketId, c: ChannelName)
    requires UsersInv(s) && id in s.sockets && LeaveRel(s, r, id, c)
    ensures UsersInv(r)
  {
  }

  lemma SameCoreUsers(s: State, r: State)
    requires UsersInv(s) && SameCore(s, r)
    ensures UsersInv(r)
  {
  }

  lemma CompactUsers(s: State)
    requires UsersInv(s)
    ensures CompactMaps(s).users == s.users
  {
  }

  /** A request keeps the user lists unless, and only unless, a listed socket signs in under another id. */
  lemma UsersStep(cfg: Config, s: State, r: Request)
    requires UsersInv(s) && Enabled(s, r)
    ensures UsersInv(Step(cfg, s, r)) <==> !SwitchesIdentity(s, r)
  {
    var s' := Step(cfg, s, r);
    match r
    case Connect(_) =>
    case Subscribing(id, sub) =>
      SubscribingCore(cfg, s, id, sub);
      if Admitted(cfg, s, id, sub) { JoinUsers(s, s', id, sub); } else { SameCoreUsers(s, s'); }
    case Unsubscribing(id, c) =>
      UnsubscribingCore(cfg, s, id, c);
      if c in s.sockets[id].subscribed { LeaveUsers(s, s', id, c); } else { SameCoreUsers(s, s'); }
    case SigningIn(id, tokenOk, user, order) =>
      SigningInCore(cfg, s, id, tokenOk, user, order);
      if user == "" { SameCoreUsers(s, s'); }
      else if !tokenOk { CloseUsers(s, s', id); }
      else { SigninUsers(s, s', id, user); }
    case Closing(id, order) =>
      CloseCore(s, id, order);
      CloseUsers(s, s', id);
    case Compacting => CompactUsers(s);
  }

  /** No listed socket of the run changed its identity. */
  ghost predicate OneIdentity(cfg: Config, rs: seq<Request>) {
    rs == [] || (
      var s, r := Run(cfg, rs[..|rs| - 1]), rs[|rs| - 1];
      OneIdentity(cfg, rs[..|rs| - 1]) && (Enabled(s, r) ==> !SwitchesIdentity(s, r)))
  }

  lemma {:induction false} RunKeepsUsers(cfg: Config, rs: seq<Request>)
    requires OneIdentity(cfg, rs)
    ensures UsersInv(Run(cfg, rs))
  {
    if rs != [] {
      RunKeepsUsers(cfg, rs[..|rs| - 1]);
      var s, r := Run(cfg, rs[..|rs| - 1]), rs[|rs| - 1];
      if Enabled(s, r) { UsersStep(cfg, s, r); }
    }
  }

  /** After closeConnection, in any state, the id occurs neither in Sockets nor in Channels, and in Users exactly where
      it was listed under an id other than the one it carried. If the user lists were right it occurs nowhere. */
  lemma CloseErases(s: State, id: SocketId, order: seq<ChannelName>)
    requires id in s.sockets
    ensures var r, user := CloseSocket(s, id, order), s.sockets[id].userId;
      && r.sockets.Keys == s.sockets.Keys - {id}
      && (forall c | c in r.channels :: id !in r.channels[c])
      && (forall u :: id in Listed(r.users, u) <==> id in Listed(s.users, u) && (u == "" || u != user))
      && (UsersInv(s) ==> forall u | u in r.users :: id !in r.users[u])
  {
    var r, user := CloseSocket(s, id, order), s.sockets[id].userId;
    CloseCore(s, id, order);
    ListedAfterDrop(s.users, user, id);
    ListedAfterDrop(Drop(s.users, user, id), user, id);
    if UsersInv(s) { CloseUsers(s, r, id); }
  }
}
