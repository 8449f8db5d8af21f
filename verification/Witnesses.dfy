/** Concrete short runs that reach each condition under which the program breaks a property: none of them is vacuous. */
module Witnesses {
  import opened Wrappers
  import opened Names
  import opened Alternation
  import opened Membership
  import opened MembershipCore
  import opened MembershipIndex
  import opened MembershipEvents
  import opened ClientView
  import opened PresenceView
  import opened ClusterMembership
  import opened ClusterEvents
  import F = Flap
  import B = FlapBursts
  import W = Webhooks

  const CFG: Config := Config(100, 0, 10, false)
  const ROOM: ChannelName := "presence-x"
  const HALL: ChannelName := "x"

  function Entry(user: UserId): Request {
    Subscribing("a", Subscription(ROOM, true, Member(user, ""), 0, None, false))
  }

  lemma RoomIsPresence()
    ensures IsPresence(ROOM) && ValidName(ROOM, 100) && CreateChannel(ROOM).kind == Presence
  {
    assert forall i | 0 <= i < |ROOM| :: NameChar(ROOM[i]);
    assert NameBody(ROOM);
  }

  /** One connected socket and nothing else. */
  const ALONE: State := State(map[], map["a" := Socket({}, map[], "", false, [])], map[], [])

  lemma Connected()
    ensures Run(CFG, [Connect("a")]) == ALONE
  {
    RunNext(CFG, [], Connect("a"));
    assert [] + [Connect("a")] == [Connect("a")];
  }

  lemma AloneIsSound(t: Topic)
    ensures Grounded(ALONE) && IndexAt(ALONE, ROOM) && Told(t.app, ALONE, t) && forall u :: KnowsAt(ALONE, ROOM, u)
    ensures ChannelSockets(ALONE, t.channel) == {} && MemberIds(ALONE, t.channel) == {}
  {
    assert ChannelSockets(ALONE, t.channel) == {};
  }

  lemma EntryAdmitted(s: State, user: UserId)
    requires "a" in s.sockets
    ensures Admitted(CFG, s, "a", Entry(user).sub)
  {
    RoomIsPresence();
    assert s.sockets["a"].userId != "" ==> ROOM[0] != (USER_PREFIX + s.sockets["a"].userId)[0];
  }

  function Entered(user: UserId): State {
    Step(CFG, ALONE, Entry(user))
  }

  lemma EnteredIsReached(user: UserId, more: seq<Request>)
    ensures Run(CFG, [Connect("a"), Entry(user)]) == Entered(user)
    ensures |more| == 1 && Enabled(Entered(user), more[0]) ==>
      Run(CFG, [Connect("a"), Entry(user)] + more) == Step(CFG, Entered(user), more[0])
  {
    Connected();
    var rs := [Connect("a"), Entry(user)];
    RunNext(CFG, [Connect("a")], Entry(user));
    assert [Connect("a")] + [Entry(user)] == rs;
    if |more| == 1 {
      assert more == [more[0]];
      RunNext(CFG, rs, more[0]);
    }
  }

  /** What entering the room does to a lone connected socket. */
  lemma Enters(user: UserId)
    ensures var r := Entered(user);
      && r.sockets.Keys == {"a"} && ROOM in r.sockets["a"].subscribed && ChannelSockets(r, ROOM) == {"a"}
      && r.sockets["a"].presence == if user == "" then map[] else map[ROOM := Member(user, "")]
  {
    RoomIsPresence();
    EntryAdmitted(ALONE, user);
    hide Step, Admitted;
    SubscribingCore(CFG, ALONE, "a", Entry(user).sub);
    assert Entered(user).channels[ROOM] == ["a"];
  }

  /** The socket is the only one in the room, and nothing is wrong yet. */
  lemma EnteredIsSound(user: UserId, t: Topic)
    requires t.channel == ROOM
    ensures var r := Entered(user);
      Grounded(r) && Told(t.app, r, t) && (user != "" ==> IndexAt(r, ROOM)) && KnowsAt(r, ROOM, user)
  {
    RoomIsPresence();
    EntryAdmitted(ALONE, user);
    AloneIsSound(t);
    hide Step, Admitted, ChannelSockets, MemberIds;
    GroundedStep(CFG, ALONE, Entry(user));
    TopicStep(t.app, CFG, ALONE, Entry(user), t);
    ViewStep(CFG, ALONE, Entry(user), ROOM, user);
    if user != "" { IndexStep(CFG, ALONE, Entry(user), ROOM); }
  }

  /** A presence subscribe without a user id leaves a subscriber of a presence channel without presence data. */
  lemma AnonymousJoinBreaksIndex()
    ensures !IndexAt(Run(CFG, [Connect("a"), Entry("")]), ROOM)
  {
    EnteredIsReached("", []);
    Enters("");
    RoomIsPresence();
  }

  /** A lone subscriber without presence data leaves its channel without a word. */
  lemma AnonymousLeaveIsSilent(app: AppId)
    ensures !Told(app, Run(CFG, [Connect("a"), Entry("")] + [Unsubscribing("a", ROOM)]), Topic.Occupancy(app, ROOM))
  {
    var t := Topic.Occupancy(app, ROOM);
    EnteredIsReached("", [Unsubscribing("a", ROOM)]);
    EnteredIsSound("", t);
    Enters("");
    RoomIsPresence();
    TopicStep(app, CFG, Entered(""), Unsubscribing("a", ROOM), t);
  }

  /** A sole presence subscriber that subscribes again is announced as a first connection twice. */
  lemma ResubscribeBreaksOccupancy(app: AppId, user: UserId)
    requires user != ""
    ensures !Told(app, Run(CFG, [Connect("a"), Entry(user)] + [Entry(user)]), Topic.Occupancy(app, ROOM))
  {
    var t := Topic.Occupancy(app, ROOM);
    EnteredIsReached(user, [Entry(user)]);
    EnteredIsSound(user, t);
    Enters(user);
    RoomIsPresence();
    EntryAdmitted(Entered(user), user);
    TopicStep(app, CFG, Entered(user), Entry(user), t);
  }

  lemma NotKnown(s: State, user: UserId)
    requires Grounded(s) && !KnowsAt(s, ROOM, user)
    ensures !RostersAt(s, ROOM) && !ViewsAt(s, ROOM)
  {
    RostersAreKnown(s, ROOM);
    hide View, MemberIds, Grounded, KnowsAt, RostersAt, ViewsAt;
    if ViewsAt(s, ROOM) { ViewsGiveRosters(s, ROOM); }
  }

  /** A subscriber that subscribes again under another user id leaves the first user announced as a member for good, and
      its own roster wrong. */
  lemma RenamingBreaksMembers(app: AppId, user: UserId, other: UserId)
    requires user != "" && other != "" && user != other
    ensures var s := Run(CFG, [Connect("a"), Entry(user)] + [Entry(other)]);
      && !Told(app, s, Topic.Membership(app, ROOM, user))
      && !KnowsAt(s, ROOM, user) && !RostersAt(s, ROOM) && !ViewsAt(s, ROOM)
  {
    var t := Topic.Membership(app, ROOM, user);
    EnteredIsReached(user, [Entry(other)]);
    EnteredIsSound(user, t);
    Enters(user);
    RoomIsPresence();
    EntryAdmitted(Entered(user), other);
    assert LastOfUser(Entered(user), "a", ROOM);
    hide Step, Admitted, Entered;
    TopicStep(app, CFG, Entered(user), Entry(other), t);
    ViewStep(CFG, Entered(user), Entry(other), ROOM, user);
    GroundedStep(CFG, Entered(user), Entry(other));
    NotKnown(Step(CFG, Entered(user), Entry(other)), user);
  }

  function Sign(user: UserId): Request {
    SigningIn("a", true, user, [])
  }

  lemma Signs(s: State, user: UserId)
    requires "a" in s.sockets && user != ""
    ensures var r := Step(CFG, s, Sign(user));
      && r.users == (if "a" in Listed(s.users, user) then s.users else Append(s.users, user, "a"))
      && "a" in r.sockets && r.sockets["a"].userId == user && r.sockets["a"].subscribed == s.sockets["a"].subscribed
  {
    SigningInCore(CFG, s, "a", true, user, []);
  }

  /** A socket that signs in under two user ids stays listed under the first one even after it is gone. */
  lemma SecondSigninLeavesStaleUser(user: UserId, other: UserId)
    requires user != "" && other != "" && user != other
    ensures var s := Run(CFG, [Connect("a")] + [Sign(user)] + [Sign(other)] + [Closing("a", [])]);
      "a" !in s.sockets && user in s.users && "a" in s.users[user]
  {
    Connected();
    RunNext(CFG, [Connect("a")], Sign(user));
    RunNext(CFG, [Connect("a")] + [Sign(user)], Sign(other));
    RunNext(CFG, [Connect("a")] + [Sign(user)] + [Sign(other)], Closing("a", []));
    var s1 := Step(CFG, ALONE, Sign(user));
    assert Enabled(ALONE, Sign(user));
    Signs(ALONE, user);
    assert Enabled(s1, Sign(other));
    Signs(s1, other);
    hide Run, Signin, CloseSocket;
    var s2 := Step(CFG, s1, Sign(other));
    assert Enabled(s2, Closing("a", []));
    ClosesStale(s2, user, other);
  }

  lemma ClosesStale(s: State, user: UserId, other: UserId)
    requires "a" in s.sockets && s.sockets["a"].userId == other && other != "" && user != other
    requires user in s.users && "a" in s.users[user]
    ensures var r := CloseSocket(s, "a", []);
      "a" !in r.sockets && user in r.users && "a" in r.users[user]
  {
    CloseCore(s, "a", []);
  }

  // ---------- webhooks ----------

  /** The detector after two "on" events for one key, the second before the first was dispatched. */
  lemma Overwritten(window: int, e: F.Event)
    requires e.kind == F.EventKind.Connect
    ensures F.After(window, [F.Arrive(e, 0, 0), F.Arrive(e, 0, 1)]) ==
      F.Detector(window, map[e.key := F.Pending(e.kind, 1)], map[0 := F.Timer(e, window), 1 := F.Timer(e, window)], [])
  {
    var a0, a1 := F.Arrive(e, 0, 0), F.Arrive(e, 0, 1);
    F.ExtendTrace(window, [], a0);
    assert [] + [a0] == [a0];
    F.ExtendTrace(window, [a0], a1);
    assert [a0] + [a1] == [a0, a1];
    assert F.After(window, []) == F.Start(window);
    hide F.After;
    assert F.After(window, [a0]) ==
      F.Detector(window, map[e.key := F.Pending(e.kind, 0)], map[0 := F.Timer(e, window)], []);
  }

  /** Both are dispatched when their timers fire. */
  lemma OverwrittenBothFire(window: int, e: F.Event)
    requires window >= 0 && e.kind == F.EventKind.Connect
    ensures var trace := [F.Arrive(e, 0, 0), F.Arrive(e, 0, 1)];
      && F.Possible(F.After(window, trace), F.Fire(e.key, window, 0))
      && F.Possible(F.After(window, trace + [F.Fire(e.key, window, 0)]), F.Fire(e.key, window, 1))
      && var d := F.After(window, trace + [F.Fire(e.key, window, 0)] + [F.Fire(e.key, window, 1)]);
         F.LiveTimers(d, e.key) == {} && !Alternates(B.Ups(F.SentFor(d.sent, e.key)))
  {
    var trace, f0, f1 := [F.Arrive(e, 0, 0), F.Arrive(e, 0, 1)], F.Fire(e.key, window, 0), F.Fire(e.key, window, 1);
    Overwritten(window, e);
    F.ExtendTrace(window, trace, f0);
    F.ExtendTrace(window, trace + [f0], f1);
    SentTwice(e);
    hide F.After, F.SentFor, Alternates, B.Ups;
    assert F.After(window, trace + [f0]).timers == map[1 := F.Timer(e, window)];
    assert F.After(window, trace + [f0]).sent == [e];
    assert F.After(window, trace + [f0] + [f1]).timers == map[];
    assert F.After(window, trace + [f0] + [f1]).sent == [e, e];
  }

  lemma SentTwice(e: F.Event)
    requires e.kind == F.EventKind.Connect
    ensures !Alternates(B.Ups(F.SentFor([e, e], e.key)))
  {
    F.SentForAppend([], e, e.key);
    F.SentForAppend([e], e, e.key);
    assert [] + [e] == [e] && [e] + [e] == [e, e];
    assert F.SentFor([e, e], e.key) == [e, e];
    assert B.Ups([e, e])[1];
  }

  lemma HistoryNext(env: map<AppId, W.Settings>, window: int, actions: seq<W.Action>, a: W.Action)
    ensures W.History(env, window, actions + [a]) ==
      var sys := W.History(env, window, actions);
      if W.CanHappen(window, sys, a) then W.Happen(env, window, sys, a) else sys
  {
    assert (actions + [a])[..|actions|] == actions;
  }

  /** If the detector has just received two "on" events of a topic, the history goes on to dispatch both. */
  lemma BothDispatched(env: map<AppId, W.Settings>, window: int, actions: seq<W.Action>, t: Topic, e: F.Event)
    requires window >= 0 && e.kind == F.EventKind.Connect && e.key == FlapKey(t)
    requires W.History(env, window, actions).trace == [F.Arrive(e, 0, 0), F.Arrive(e, 0, 1)]
    ensures var all := actions + [W.TimerFires(e.key, 0, window)] + [W.TimerFires(e.key, 1, window)];
      var sys := W.History(env, window, all);
      W.NonePending(window, sys, t) && !Alternates(W.Dispatched(window, sys, t))
  {
    OverwrittenBothFire(window, e);
    var f0, f1 := W.TimerFires(e.key, 0, window), W.TimerFires(e.key, 1, window);
    HistoryNext(env, window, actions, f0);
    HistoryNext(env, window, actions + [f0], f1);
    hide F.After, F.SentFor, W.History, Alternates, FlapKey;
  }

  function Client(r: Request): W.Action {
    W.Client("app", r, 0)
  }

  /** Only the occupancy switches matter here. */
  function Env(hasVacated: bool): map<AppId, W.Settings> {
    map["app" := W.Settings(CFG, true, true, hasVacated, false, false)]
  }

  lemma Offers(g: W.Settings, hooks: seq<Hook>, h: Hook, trace: seq<F.FlapStep>)
    ensures W.Offer(g, "app", [], 0, trace) == trace
    ensures W.Offer(g, "app", hooks + [h], 0, trace) ==
      var rest := W.Offer(g, "app", hooks, 0, trace);
      if W.Offered(g, h) then rest + [F.Arrive(W.FlapEvent("app", h), 0, |rest|)] else rest
  {
    assert (hooks + [h])[..|hooks|] == hooks;
  }

  /** The system after one more client request that emitted these events. */
  lemma ClientNext(env: map<AppId, W.Settings>, window: int, actions: seq<W.Action>, r: Request, hooks: seq<Hook>)
    requires "app" in env
    requires Enabled(W.History(env, window, actions).apps["app"], r)
    requires var s := W.History(env, window, actions).apps["app"];
      Step(env["app"].limits, s, r).emitted == s.emitted + hooks
    ensures var sys, sys' := W.History(env, window, actions), W.History(env, window, actions + [Client(r)]);
      && sys'.apps["app"] == Step(env["app"].limits, sys.apps["app"], r)
      && sys'.trace == W.Offer(env["app"], "app", hooks, 0, sys.trace)
  {
    HistoryNext(env, window, actions, Client(r));
    var s := W.History(env, window, actions).apps["app"];
    var s' := Step(env["app"].limits, s, r);
    assert NewHooks(s, s') == hooks;
    hide W.History, Step, W.Offer;
  }

  lemma FirstConnect(hasVacated: bool, window: int)
    ensures var sys := W.History(Env(hasVacated), window, [Client(Connect("a"))]);
      sys.apps["app"] == ALONE && sys.trace == []
  {
    Connected();
    RunNext(CFG, [], Connect("a"));
    assert [] + [Connect("a")] == [Connect("a")];
    ClientNext(Env(hasVacated), window, [], Connect("a"), []);
    Offers(Env(hasVacated)["app"], [], CacheMissed(""), []);
    assert [] + [Client(Connect("a"))] == [Client(Connect("a"))];
  }

  /** Entering the room twice, and what the switches let through of it. */
  lemma TwoEntries(user: UserId, e: F.Event)
    requires user != "" && e == W.FlapEvent("app", ChannelOccupied(ROOM))
    ensures var g, sub := Env(true)["app"], Entry(user).sub;
      && Entered(user).emitted == ALONE.emitted + JoinHooks(ALONE, "a", sub)
      && W.Offer(g, "app", JoinHooks(ALONE, "a", sub), 0, []) == [F.Arrive(e, 0, 0)]
      && Enabled(Entered(user), Entry(user))
      && Step(CFG, Entered(user), Entry(user)).emitted == Entered(user).emitted + JoinHooks(Entered(user), "a", sub)
      && W.Offer(g, "app", JoinHooks(Entered(user), "a", sub), 0, [F.Arrive(e, 0, 0)]) ==
        [F.Arrive(e, 0, 0), F.Arrive(e, 0, 1)]
  {
    var g := Env(true)["app"];
    AloneIsSound(Topic.Occupancy("app", ROOM));
    Enters(user);
    EnteredIsSound(user, Topic.Occupancy("app", ROOM));
    EntryHooks(ALONE, user);
    EntryHooks(Entered(user), user);
    hide Step, Entered, JoinHooks, W.Offer, W.FlapEvent;
    OccupiedOnly(g, ALONE, user, []);
    OccupiedOnly(g, Entered(user), user, [F.Arrive(e, 0, 0)]);
  }

  /** Both occupancy webhooks on, and a sole presence subscriber subscribes again: channel_occupied is dispatched
      twice. */
  lemma ResubscribeBreaksWebhooks(window: int, user: UserId)
    requires window >= 0 && user != ""
    ensures var t := Topic.Occupancy("app", ROOM);
      var actions := [Client(Connect("a"))] + [Client(Entry(user))] + [Client(Entry(user))]
        + [W.TimerFires(FlapKey(t), 0, window)] + [W.TimerFires(FlapKey(t), 1, window)];
      var sys := W.History(Env(true), window, actions);
      W.NonePending(window, sys, t) && !Alternates(W.Dispatched(window, sys, t))
  {
    var t, env, e := Topic.Occupancy("app", ROOM), Env(true), W.FlapEvent("app", ChannelOccupied(ROOM));
    var sub := Entry(user).sub;
    FirstConnect(true, window);
    TwoEntries(user, e);
    assert Enabled(ALONE, Entry(user)) && e.kind == F.EventKind.Connect && e.key == FlapKey(t);
    hide W.History, Step, W.Offer, FlapKey, W.FlapEvent, Alternates, W.Dispatched, W.NonePending, Enabled, JoinHooks;
    ClientNext(env, window, [Client(Connect("a"))], Entry(user), JoinHooks(ALONE, "a", sub));
    var first := [Client(Connect("a"))] + [Client(Entry(user))];
    ClientNext(env, window, first, Entry(user), JoinHooks(Entered(user), "a", sub));
    BothDispatched(env, window, [Client(Connect("a"))] + [Client(Entry(user))] + [Client(Entry(user))], t, e);
  }

  /** What an entry emits. */
  lemma EntryHooks(s: State, user: UserId)
    requires "a" in s.sockets
    ensures Step(CFG, s, Entry(user)).emitted == s.emitted + JoinHooks(s, "a", Entry(user).sub)
  {
    EntryAdmitted(s, user);
    AdmittedEmits(CFG, s, "a", Entry(user).sub);
  }

  /** Of what an entry emits, only the occupied event passes the switches. */
  lemma OccupiedOnly(g: W.Settings, s: State, user: UserId, trace: seq<F.FlapStep>)
    requires "a" in s.sockets && ListedSubscribe(s) && ChannelSockets(s, ROOM) <= {"a"}
    requires g == Env(true)["app"]
    ensures W.Offer(g, "app", JoinHooks(s, "a", Entry(user).sub), 0, trace)
      == trace + [F.Arrive(W.FlapEvent("app", ChannelOccupied(ROOM)), 0, |trace|)]
  {
    RoomIsPresence();
    JoinOccupies(s, "a", ROOM);
    assert ChannelSockets(s, ROOM) == {} || ChannelSockets(s, ROOM) == {"a"};
    var sub := Entry(user).sub;
    var a := When(BecomesOnly(s, "a", ROOM), ChannelOccupied(ROOM));
    var b := When(NewMember(s, "a", sub), UserAdded(ROOM, user));
    var c := When(MissesCache(sub), CacheMissed(ROOM));
    assert JoinHooks(s, "a", sub) == a + b + c;
    hide BecomesOnly, NewMember, MissesCache, JoinHooks, W.FlapEvent;
    Offers(g, [], ChannelOccupied(ROOM), trace);
    Offers(g, a, UserAdded(ROOM, user), trace);
    Offers(g, a + b, CacheMissed(ROOM), trace);
    assert [] + a == a && a + [] == a && a + b + [] == a + b;
  }

  // ---------- one switch off ----------

  function Visit(): Request {
    Subscribing("a", Subscription(HALL, true, Member("", ""), 0, None, false))
  }

  function Leave(): Request {
    Unsubscribing("a", HALL)
  }

  lemma HallIsPublic()
    ensures !IsPresence(HALL) && ValidName(HALL, 100)
    ensures CreateChannel(HALL) == Channel(HALL, Public, false, false, false)
  {
    assert NameBody(HALL);
  }

  /** What visiting the empty hall does and emits. */
  lemma Visits(s: State)
    requires "a" in s.sockets && ListedSubscribe(s) && ChannelSockets(s, HALL) == {}
    requires s.sockets["a"].userId == ""
    ensures var r := Step(CFG, s, Visit());
      && r.emitted == s.emitted + [ChannelOccupied(HALL)]
      && "a" in r.sockets && HALL in r.sockets["a"].subscribed && ChannelSockets(r, HALL) == {"a"}
      && r.sockets["a"].userId == ""
  {
    HallIsPublic();
    var sub := Visit().sub;
    assert Admitted(CFG, s, "a", sub);
    SubscribingCore(CFG, s, "a", sub);
    AdmittedEmits(CFG, s, "a", sub);
    JoinOccupies(s, "a", HALL);
    var r := Step(CFG, s, Visit());
    hide Step, Admitted, CreateChannel, IsPresence, BecomesOnly;
    assert JoinHooks(s, "a", sub) == [ChannelOccupied(HALL)];
    assert ChannelSockets(r, HALL) == ChannelSockets(s, HALL) + {"a"};
  }

  lemma LeavesHall(s: State)
    requires "a" in s.sockets && Grounded(s) && HALL in s.sockets["a"].subscribed && ChannelSockets(s, HALL) == {"a"}
    ensures var r := Step(CFG, s, Leave());
      && r.emitted == s.emitted + [ChannelVacated(HALL)]
      && "a" in r.sockets && ChannelSockets(r, HALL) == {} && r.sockets["a"].userId == s.sockets["a"].userId
  {
    HallIsPublic();
    UnsubscribingCore(CFG, s, "a", HALL);
    LeaveEmits(s, "a", HALL);
    assert HALL !in s.sockets["a"].presence;
    assert LeaveHooks(s, "a", HALL) == [ChannelVacated(HALL)];
    MembersAfterLeaving(s, Step(CFG, s, Leave()), "a", HALL);
  }

  function AfterVisit(): State {
    Step(CFG, ALONE, Visit())
  }

  function AfterLeave(): State
    requires Enabled(AfterVisit(), Leave())
  {
    Step(CFG, AfterVisit(), Leave())
  }

  /** One visit after another. */
  lemma TwoVisits()
    ensures AfterVisit().emitted == ALONE.emitted + [ChannelOccupied(HALL)] && Enabled(AfterVisit(), Leave())
    ensures AfterLeave().emitted == AfterVisit().emitted + [ChannelVacated(HALL)] && Enabled(AfterLeave(), Visit())
    ensures Step(CFG, AfterLeave(), Visit()).emitted == AfterLeave().emitted + [ChannelOccupied(HALL)]
  {
    AloneIsSound(Topic.Occupancy("app", HALL));
    Visits(ALONE);
    hide Step, ChannelSockets;
    GroundedStep(CFG, ALONE, Visit());
    LeavesHall(AfterVisit());
    GroundedStep(CFG, AfterVisit(), Leave());
    Visits(AfterLeave());
  }

  /** Of the three occupancy events, the two "on" ones pass. */
  lemma OnsPass(e: F.Event)
    requires e == W.FlapEvent("app", ChannelOccupied(HALL))
    ensures var g := Env(false)["app"];
      && W.Offer(g, "app", [ChannelOccupied(HALL)], 0, []) == [F.Arrive(e, 0, 0)]
      && W.Offer(g, "app", [ChannelVacated(HALL)], 0, [F.Arrive(e, 0, 0)]) == [F.Arrive(e, 0, 0)]
      && W.Offer(g, "app", [ChannelOccupied(HALL)], 0, [F.Arrive(e, 0, 0)]) == [F.Arrive(e, 0, 0), F.Arrive(e, 0, 1)]
  {
    var g := Env(false)["app"];
    Offers(g, [], ChannelOccupied(HALL), []);
    Offers(g, [], ChannelVacated(HALL), [F.Arrive(e, 0, 0)]);
    Offers(g, [], ChannelOccupied(HALL), [F.Arrive(e, 0, 0)]);
    assert [] + [ChannelOccupied(HALL)] == [ChannelOccupied(HALL)];
    assert [] + [ChannelVacated(HALL)] == [ChannelVacated(HALL)];
  }

  /** Only the channel_occupied webhook on: a channel that is used twice is announced twice, although no request
      misinformed anybody. */
  lemma OneSwitchBreaksWebhooks(window: int)
    requires window >= 0
    ensures var t := Topic.Occupancy("app", HALL);
      var actions := [Client(Connect("a"))] + [Client(Visit())] + [Client(Leave())] + [Client(Visit())]
        + [W.TimerFires(FlapKey(t), 0, window)] + [W.TimerFires(FlapKey(t), 1, window)];
      var sys := W.History(Env(false), window, actions);
      W.NonePending(window, sys, t) && !Alternates(W.Dispatched(window, sys, t))
  {
    var t, env, e := Topic.Occupancy("app", HALL), Env(false), W.FlapEvent("app", ChannelOccupied(HALL));
    FirstConnect(false, window);
    TwoVisits();
    OnsPass(e);
    assert Enabled(ALONE, Visit());
    assert e.kind == F.EventKind.Connect && e.key == FlapKey(t);
    hide W.History, Step, W.Offer, FlapKey, W.FlapEvent, Alternates, W.Dispatched, W.NonePending, Enabled;
    ClientNext(env, window, [Client(Connect("a"))], Visit(), [ChannelOccupied(HALL)]);
    ClientNext(env, window, [Client(Connect("a"))] + [Client(Visit())], Leave(), [ChannelVacated(HALL)]);
    var first := [Client(Connect("a"))] + [Client(Visit())] + [Client(Leave())];
    ClientNext(env, window, first, Visit(), [ChannelOccupied(HALL)]);
    BothDispatched(env, window, first + [Client(Visit())], t, e);
  }

  // ---------- two nodes ----------

  lemma ClusterNext(steps: seq<(nat, Request)>, i: nat, r: Request)
    ensures var w := ClusterRun(CFG, 2, steps);
      ClusterRun(CFG, 2, steps + [(i, r)])
        == if i < 2 && Enabled(w.nodes[i], r) then Advance(CFG, w, i, r) else w
  {
    hide Enabled, Advance;
    assert (steps + [(i, r)])[..|steps|] == steps;
  }

  /** One socket connected to each of two nodes. */
  const CONNECTS: seq<(nat, Request)> := [(0, Connect("a"))] + [(1, Connect("b"))]

  lemma TwoConnected()
    ensures var w := ClusterRun(CFG, 2, CONNECTS);
      && w.nodes[0] == ALONE && w.nodes[1] == AddSocket(CFG, EMPTY, "b")
  {
    ClusterNext([], 0, Connect("a"));
    ClusterNext([(0, Connect("a"))], 1, Connect("b"));
    assert [] + [(0, Connect("a"))] == [(0, Connect("a"))];
    assert ClusterRun(CFG, 2, []).nodes[0] == EMPTY;
  }

  /** The hall is visited on node 0, and on node 1 nobody is there. */
  lemma VisitedOnNodeZero()
    ensures var w := ClusterRun(CFG, 2, CONNECTS + [(0, Visit())]);
      && "b" in w.nodes[1].sockets && w.nodes[1].sockets["b"].userId == ""
      && ChannelSockets(w.nodes[0], HALL) == {"a"} && ChannelSockets(w.nodes[1], HALL) == {}
  {
    var w, sub := ClusterRun(CFG, 2, CONNECTS), Visit().sub;
    TwoConnected();
    ClusterNext(CONNECTS, 0, Visit());
    HallIsPublic();
    assert AdmittedInCluster(CFG, w.nodes, 0, "a", sub);
    SubscribeInClusterCore(CFG, w.nodes, 0, "a", sub);
    var nodes := ClusterStep(CFG, w.nodes, 0, Visit());
    assert ClusterRun(CFG, 2, CONNECTS + [(0, Visit())]).nodes == nodes;
    hide ClusterStep, ClusterRun, Advance, AdmittedInCluster;
    assert "a" in Listed(nodes[0].channels, HALL);
    assert SameCore(w.nodes[1], nodes[1]);
    assert Listed(nodes[1].channels, HALL) == [];
  }

  /** A public channel that already has a subscriber on one node is announced as occupied again by another node. */
  lemma OtherNodeBreaksOccupancy(app: AppId)
    ensures var again := Subscribing("b", Visit().sub);
      !ClusterTold(app, ClusterRun(CFG, 2, CONNECTS + [(0, Visit())] + [(1, again)]), Topic.Occupancy(app, HALL))
  {
    var t, again, steps := Topic.Occupancy(app, HALL), Subscribing("b", Visit().sub), CONNECTS + [(0, Visit())];
    var w := ClusterRun(CFG, 2, steps);
    VisitedOnNodeZero();
    HallIsPublic();
    assert AdmittedInCluster(CFG, w.nodes, 1, "b", Visit().sub);
    ConnectionsNow(w.nodes, w.nodes, 1, HALL);
    SomebodyElsewhere(w.nodes);
    assert MisinformsInCluster(CFG, w.nodes, 1, again, t);
    ClusterRunTells(app, CFG, 2, steps + [(1, again)], t);
    assert (steps + [(1, again)])[..|steps|] == steps;
    hide ClusterRun, MisinformsInCluster, ClusterTold;
    assert ClusterMisinformations(CFG, 2, steps + [(1, again)], t) > 0;
  }

  lemma SomebodyElsewhere(nodes: seq<State>)
    requires |nodes| == 2 && ChannelSockets(nodes[0], HALL) == {"a"} && ChannelSockets(nodes[1], HALL) == {}
    ensures SocketsElsewhere(nodes, 1, HALL) == 1
  {
    ConnectionsNow(nodes, nodes, 1, HALL);
    assert nodes[..1] == [nodes[0]] && nodes == [nodes[0]] + [nodes[1]];
    Alone(nodes[0], HALL);
  }
}
