/** What a client believes about the members of a presence channel, computed from the messages it was sent, and how
    sends change it. */
module ClientView {
  import opened Wrappers
  import opened Names
  import opened Membership
  import opened MembershipCore
  import opened MembershipIndex
  import opened MembershipEvents

  // ---------- the client ----------

  /** How a client updates its roster of channel c: replaced on subscription, then kept up to date by member events. */
  function Apply(view: Option<set<UserId>>, m: Message, c: ChannelName): Option<set<UserId>> {
    match m
    case SubscriptionSucceeded(ch, Some(roster)) => if ch == c then Some(roster) else view
    case MemberAdded(ch, member) => if ch == c && view.Some? then Some(view.value + {member.userId}) else view
    case MemberRemoved(ch, user) => if ch == c && view.Some? then Some(view.value - {user}) else view
    case _ => view
  }

  function View(inbox: seq<Message>, c: ChannelName): Option<set<UserId>> {
    if inbox == [] then None else Apply(View(inbox[..|inbox| - 1], c), inbox[|inbox| - 1], c)
  }

  lemma ViewReceives(inbox: seq<Message>, m: Message, c: ChannelName)
    ensures View(inbox + [m], c) == Apply(View(inbox, c), m, c)
  {
    assert (inbox + [m])[..|inbox|] == inbox;
  }

  function ViewOf(s: State, id: SocketId, c: ChannelName): Option<set<UserId>>
    requires id in s.sockets
  {
    View(s.sockets[id].inbox, c)
  }

  /** Socket `id` was sent a roster of c, and takes u for a member. */
  predicate Rostered(s: State, id: SocketId, c: ChannelName)
    requires id in s.sockets
  {
    ViewOf(s, id, c).Some?
  }

  predicate Sees(s: State, id: SocketId, c: ChannelName, u: UserId)
    requires id in s.sockets
  {
    Rostered(s, id, c) && u in ViewOf(s, id, c).value
  }

  /** The sockets that take part in c with presence data. */
  function Holders(s: State, c: ChannelName): set<SocketId> {
    set id | id in s.sockets && c in s.sockets[id].presence
  }

  // ---------- how sends change views ----------

  ghost predicate SameViews(s: State, r: State, c: ChannelName) {
    r.sockets.Keys == s.sockets.Keys && forall id | id in s.sockets :: ViewOf(r, id, c) == ViewOf(s, id, c)
  }

  /** A message that says something about the members of c. */
  predicate About(m: Message, c: ChannelName) {
    match m
    case SubscriptionSucceeded(ch, roster) => ch == c && roster.Some?
    case MemberAdded(ch, _) => ch == c
    case MemberRemoved(ch, _) => ch == c
    case _ => false
  }

  lemma DeliverSilent(s: State, id: SocketId, m: Message, c: ChannelName)
    requires !About(m, c)
    ensures SameViews(s, Deliver(s, id, m), c)
  {
    hide View;
    if id in s.sockets { ViewReceives(s.sockets[id].inbox, m, c); }
  }

  lemma CacheSilent(s: State, id: SocketId, sub: Subscription, c: ChannelName)
    ensures SameViews(s, SendCache(s, id, sub), c)
  {
    hide View;
    match sub.cached
    case Some(data) => DeliverSilent(s, id, CachedEvent(data), c);
    case None => DeliverSilent(s, id, CacheMiss, c);
  }

  lemma PresenceIsOrdinary(c: ChannelName)
    requires IsPresence(c)
    ensures !IsUserChannel(c)
  {
    assert c[0] == 'p';
  }

  lemma SendViews(s: State, to: ChannelName, m: Message, except: SocketId, c: ChannelName)
    requires IsPresence(to)
    ensures var r := LocalSend(s, to, m, except);
      && r.sockets.Keys == s.sockets.Keys
      && forall j | j in s.sockets :: ViewOf(r, j, c) ==
           if j in Recipients(s, to, except) then Apply(ViewOf(s, j, c), m, c) else ViewOf(s, j, c)
  {
    hide View;
    PresenceIsOrdinary(to);
    var r := LocalSend(s, to, m, except);
    forall j | j in s.sockets
      ensures ViewOf(r, j, c) ==
        if j in Recipients(s, to, except) then Apply(ViewOf(s, j, c), m, c) else ViewOf(s, j, c)
    {
      ViewReceives(s.sockets[j].inbox, m, c);
    }
  }

  lemma RefusedViews(s: State, id: SocketId, to: ChannelName, reason: string, code: ErrorCode, c: ChannelName)
    ensures SameViews(s, Refuse(s, id, to, reason, code).state, c)
  {
    hide View;
    var first := SubscriptionError(to, reason, code);
    var second := SubscriptionError(to, if code == SubscriptionAccessDenied then "AuthError" else "Unknown", code);
    DeliverSilent(s, id, first, c);
    DeliverSilent(Deliver(s, id, first), id, second, c);
  }

  lemma SignedInViews(s: State, id: SocketId, user: UserId, order: seq<ChannelName>, c: ChannelName)
    requires id in s.sockets
    ensures SameViews(s, Signin(s, id, true, user, order).state, c)
  {
    hide View;
    if user != "" {
      var s1 := AddUser(s.(sockets := s.sockets[id := s.sockets[id].(userId := user)]), id, user);
      DeliverSilent(s1, id, SigninSuccess, c);
      assert SameViews(s, s1, c);
    }
  }

  lemma AnswerViews(o: Outcome, id: SocketId, c: ChannelName)
    ensures SameViews(o.state, Answer(o, id), c)
  {
    hide View;
    if o.error.Some? { DeliverSilent(o.state, id, ErrorEvent(o.error.value), c); }
  }

  // ---------- joining ----------

  /** A view once user m.userId was announced, unless it was among the members already. */
  function AfterAdded(view: Option<set<UserId>>, m: Member, members: set<UserId>, c: ChannelName): Option<set<UserId>> {
    if m.userId in members then view else Apply(view, MemberAdded(c, m), c)
  }

  /** What announcing a user to a channel does to the views of the other subscribers. */
  lemma AnnounceViews(s: State, id: SocketId, sub: Subscription, members: set<UserId>)
    requires id in s.sockets && IsPresence(sub.channel)
    ensures var r, c, m := AnnounceMember(s, id, sub, members), sub.channel, sub.member;
      && r.sockets.Keys == s.sockets.Keys
      && forall j | j in ChannelSockets(s, c) && j != id ::
           ViewOf(r, j, c) == AfterAdded(ViewOf(s, j, c), m, members, c)
  {
    hide View;
    var c, v := sub.channel, sub.member.userId;
    var s1 := WithPresence(s, id, c, sub.member);
    assert forall j | j in s.sockets :: ViewOf(s1, j, c) == ViewOf(s, j, c);
    if v !in members {
      var s2 := Emit(s1, UserAdded(c, v));
      SendViews(s2, c, MemberAdded(c, sub.member), id, c);
      assert ChannelSockets(s2, c) == ChannelSockets(s, c);
    }
  }

  lemma AnnounceSilent(s: State, id: SocketId, sub: Subscription, members: set<UserId>, c: ChannelName)
    requires id in s.sockets && IsPresence(sub.channel) && c != sub.channel
    ensures SameViews(s, AnnounceMember(s, id, sub, members), c)
  {
    hide View;
    var c', m := sub.channel, sub.member;
    var s1 := WithPresence(s, id, c', m);
    SendViews(Emit(s1, UserAdded(c', m.userId)), c', MemberAdded(c', m), id, c);
  }

  /** The views after a join of c as member m, when `members` were the members before. */
  ghost predicate JoinedViews(s: State, r: State, id: SocketId, c: ChannelName, m: Member, members: set<UserId>)
    requires id in s.sockets
  {
    && r.sockets.Keys == s.sockets.Keys
    && ViewOf(r, id, c) == Some(members + {m.userId})
    && forall j | j in ChannelSockets(s, c) && j != id ::
         ViewOf(r, j, c) == AfterAdded(ViewOf(s, j, c), m, members, c)
  }

  lemma DeliverRoster(s: State, id: SocketId, c: ChannelName, roster: set<UserId>)
    requires id in s.sockets
    ensures var r := Deliver(s, id, SubscriptionSucceeded(c, Some(roster)));
      ViewOf(r, id, c) == Some(roster) && forall j | j in s.sockets && j != id :: ViewOf(r, j, c) == ViewOf(s, j, c)
  {
    hide View;
    ViewReceives(s.sockets[id].inbox, SubscriptionSucceeded(c, Some(roster)), c);
  }

  lemma FinishSilent(s: State, id: SocketId, sub: Subscription, roster: Option<set<UserId>>, c: ChannelName)
    requires sub.channel != c || roster.None?
    ensures SameViews(s, SendCache(Deliver(s, id, SubscriptionSucceeded(sub.channel, roster)), id, sub), c)
  {
    hide View;
    var m := SubscriptionSucceeded(sub.channel, roster);
    DeliverSilent(s, id, m, c);
    CacheSilent(Deliver(s, id, m), id, sub, c);
  }

  lemma HoldersAfterJoining(s: State, r: State, id: SocketId, sub: Subscription)
    requires Held(s) && id in s.sockets && JoinRel(s, r, id, sub) && IsPresence(sub.channel) && sub.member.userId != ""
    ensures Holders(r, sub.channel) == Holders(s, sub.channel) + {id}
    ensures Holders(s, sub.channel) <= ChannelSockets(s, sub.channel)
  {
    hide View, CreateChannel, IsPresence;
    assert forall j | j in s.sockets && j != id :: SameSocket(s.sockets[j], r.sockets[j]);
  }
}
