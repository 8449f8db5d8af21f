/** From client requests to dispatched webhooks: the queue manager's gates and keys (internal/queues/queueAbstract.go)
    between the membership machine and the flap detector, for any number of apps sharing one detector. */
module Webhooks {
  import opened Wrappers
  import opened Names
  import opened Alternation
  import opened Membership
  import opened MembershipCore
  import opened MembershipIndex
  import opened MembershipEvents
  import opened Flap
  import opened FlapBursts

  // ---------- gates and routing ----------

  /** Per-app switches; `enabled` stands for a webhook sender being present and webhooks being on for the app. */
  datatype Settings = Settings(
    limits: Config, enabled: bool, hasOccupied: bool, hasVacated: bool, hasAdded: bool, hasRemoved: bool)

  /** The Send* gates. */
  predicate Offered(g: Settings, h: Hook) {
    g.enabled &&
    match h
    case ChannelOccupied(_) => g.hasOccupied
    case ChannelVacated(_) => g.hasVacated
    case UserAdded(_, _) => g.hasAdded
    case UserRemoved(_, _) => g.hasRemoved
    case _ => false // dispatched without flap detection
  }

  function FlapEvent(app: AppId, h: Hook): Event
    requires HookTopic(app, h).Some?
  {
    Event(FlapKey(HookTopic(app, h).value), if TurnsOn(h) then EventKind.Connect else EventKind.Disconnect, app, h)
  }

  /** Hand the new events to the detector in order; each one would start a timer with a new handle. */
  function Offer(g: Settings, app: AppId, hooks: seq<Hook>, now: int, trace: seq<FlapStep>): seq<FlapStep> {
    if hooks == [] then trace
    else
      var rest, h := Offer(g, app, hooks[..|hooks| - 1], now, trace), hooks[|hooks| - 1];
      if Offered(g, h) then rest + [Arrive(FlapEvent(app, h), now, |rest|)] else rest
  }

  // ---------- the composed system ----------

  datatype System = System(apps: map<AppId, State>, trace: seq<FlapStep>)

  datatype Action = Client(app: AppId, request: Request, at: int) | TimerFires(key: string, handle: nat, when: int)

  predicate CanHappen(window: int, sys: System, a: Action) {
    match a
    case Client(app, r, _) => app in sys.apps && Enabled(sys.apps[app], r)
    case TimerFires(key, handle, now) => Possible(After(window, sys.trace), Fire(key, now, handle))
  }

  function Happen(env: map<AppId, Settings>, window: int, sys: System, a: Action): System
    requires CanHappen(window, sys, a) && sys.apps.Keys == env.Keys
  {
    match a
    case Client(app, r, now) =>
      var s := sys.apps[app];
      var s' := Step(env[app].limits, s, r);
      System(sys.apps[app := s'], Offer(env[app], app, NewHooks(s, s'), now, sys.trace))
    case TimerFires(key, handle, now) => sys.(trace := sys.trace + [Fire(key, now, handle)])
  }

  function Begin(env: map<AppId, Settings>): System {
    System(map app | app in env :: EMPTY, [])
  }

  /** The system after a list of actions; those that cannot happen are skipped. */
  function History(env: map<AppId, Settings>, window: int, actions: seq<Action>): (sys: System)
    ensures sys.apps.Keys == env.Keys
  {
    if actions == [] then Begin(env)
    else
      var sys, a := History(env, window, actions[..|actions| - 1]), actions[|actions| - 1];
      if CanHappen(window, sys, a) then Happen(env, window, sys, a) else sys
  }

  // ---------- events only ever concern valid channel names ----------

  predicate CleanHook(h: Hook) {
    ':' !in h.channel
  }

  /** Every subscribed channel and every channel an event was emitted for passed name validation. */
  ghost predicate Clean(s: State) {
    && (forall id, c | id in s.sockets && c in s.sockets[id].subscribed :: ':' !in c)
    && (forall h | h in s.emitted :: CleanHook(h))
  }

  /** r continues s: events were only added. */
  ghost predicate Extends(s: State, r: State) {
    s.emitted <= r.emitted && (Clean(s) ==> Clean(r))
  }

  lemma SubscribedCarries(s: State, r: State)
    requires r.emitted == s.emitted
    requires forall id | id in r.sockets :: id in s.sockets && r.sockets[id].subscribed <= s.sockets[id].subscribed
    ensures Extends(s, r)
  {
  }

  lemma LeaveExtends(s: State, id: SocketId, c: ChannelName)
    requires Held(s) && id in s.sockets && ':' !in c
    ensures Extends(s, LeaveChannel(s, id, c))
  {
    var r := LeaveChannel(s, id, c);
    LeaveEmits(s, id, c);
    LeaveCore(s, id, c);
    assert forall h | h in LeaveHooks(s, id, c) :: h.channel == c;
    assert forall j | j in s.sockets && j != id :: r.sockets[j].subscribed == s.sockets[j].subscribed;
  }

  lemma {:induction false} LeaveAllExtends(s: State, id: SocketId, order: seq<ChannelName>)
    requires Grounded(s) && id in s.sockets && forall c | c in order :: ':' !in c
    ensures Extends(s, LeaveAll(s, id, order)) && Grounded(LeaveAll(s, id, order))
  {
    if order != [] {
      var init, last := order[..|order| - 1], order[|order| - 1];
      assert last in order && forall c | c in init :: c in order;
      LeaveAllExtends(s, id, init);
      var mid := LeaveAll(s, id, init);
      LeaveExtends(mid, id, last);
      LeaveCore(mid, id, last);
      hide LeaveChannel, Clean, Grounded;
      LeaveGrounded(mid, LeaveChannel(mid, id, last), id, last);
    }
  }

  lemma CloseExtends(s: State, id: SocketId, order: seq<ChannelName>)
    requires Grounded(s) && id in s.sockets && Enumerates(order, s.sockets[id].subscribed)
    ensures Extends(s, CloseSocket(s, id, order))
  {
    var r := CloseSocket(s, id, order);
    CloseCore(s, id, order);
    if Clean(s) {
      LeaveAllExtends(s, id, order);
      assert r.emitted == LeaveAll(s, id, order).emitted;
    } else {
      LeaveAllEmits(s, id, order);
    }
  }

  lemma {:induction false} LeaveAllEmits(s: State, id: SocketId, order: seq<ChannelName>)
    requires Grounded(s) && id in s.sockets
    ensures s.emitted <= LeaveAll(s, id, order).emitted && Grounded(LeaveAll(s, id, order))
  {
    if order != [] {
      var init, last := order[..|order| - 1], order[|order| - 1];
      LeaveAllEmits(s, id, init);
      var mid := LeaveAll(s, id, init);
      LeaveEmits(mid, id, last);
      LeaveCore(mid, id, last);
      hide LeaveChannel, Grounded, LeaveHooks;
      LeaveGrounded(mid, LeaveChannel(mid, id, last), id, last);
    }
  }

  lemma JoinExtends(cfg: Config, s: State, r: State, id: SocketId, sub: Subscription)
    requires id in s.sockets && JoinRel(s, r, id, sub) && ValidName(sub.channel, cfg.maxNameLength)
    requires r.emitted == s.emitted + JoinHooks(s, id, sub)
    ensures Extends(s, r)
  {
    ValidNameHasNoColon(sub.channel, cfg.maxNameLength);
    assert forall h | h in JoinHooks(s, id, sub) :: h.channel == sub.channel;
    forall j, c | Clean(s) && j in r.sockets && c in r.sockets[j].subscribed ensures ':' !in c {
      if j != id { assert SameSocket(s.sockets[j], r.sockets[j]); }
      assert c in s.sockets[j].subscribed || c == sub.channel;
    }
  }

  lemma SubscribingExtends(cfg: Config, s: State, id: SocketId, sub: Subscription)
    requires id in s.sockets
    ensures Extends(s, Step(cfg, s, Subscribing(id, sub)))
  {
    var r := Step(cfg, s, Subscribing(id, sub));
    SubscribingCore(cfg, s, id, sub);
    if Admitted(cfg, s, id, sub) {
      AdmittedEmits(cfg, s, id, sub);
      hide Step, JoinHooks, Clean;
      JoinExtends(cfg, s, r, id, sub);
    } else {
      NotAdmittedEmits(cfg, s, id, sub);
      hide Step, Clean;
      SubscribedCarries(s, r);
    }
  }

  lemma SigningInExtends(cfg: Config, s: State, id: SocketId, tokenOk: bool, user: UserId, order: seq<ChannelName>)
    requires Grounded(s) && Enabled(s, SigningIn(id, tokenOk, user, order))
    ensures Extends(s, Step(cfg, s, SigningIn(id, tokenOk, user, order)))
  {
    hide CloseSocket, Grounded;
    var o := Signin(s, id, tokenOk, user, order);
    AnswerCore(o, id);
    SubscribedCarries(o.state, Step(cfg, s, SigningIn(id, tokenOk, user, order)));
    if user != "" && !tokenOk { CloseExtends(s, id, order); } else { SubscribedCarries(s, o.state); }
  }

  lemma StepExtends(cfg: Config, s: State, r: Request)
    requires Grounded(s) && Enabled(s, r)
    ensures Extends(s, Step(cfg, s, r))
  {
    var s' := Step(cfg, s, r);
    match r
    case Connect(id) => assert forall j | j in s.sockets :: s'.sockets[j] == s.sockets[j];
    case Subscribing(id, sub) => SubscribingExtends(cfg, s, id, sub);
    case Unsubscribing(id, c) => UnsubscribingExtends(cfg, s, id, c);
    case SigningIn(id, tokenOk, user, order) => SigningInExtends(cfg, s, id, tokenOk, user, order);
    case Closing(id, order) => CloseExtends(s, id, order);
    case Compacting => SubscribedCarries(s, s');
  }

  lemma UnsubscribingExtends(cfg: Config, s: State, id: SocketId, c: ChannelName)
    requires Grounded(s) && id in s.sockets
    ensures Extends(s, Step(cfg, s, Unsubscribing(id, c)))
  {
    var r := Step(cfg, s, Unsubscribing(id, c));
    if c in s.sockets[id].subscribed {
      LeaveEmits(s, id, c);
      if Clean(s) { LeaveExtends(s, id, c); }
    } else {
      SubscribedCarries(s, r);
    }
  }

  // ---------- what reaches the detector ----------

  /** The switches for "on" and "off" events about a topic. */
  predicate OnGate(g: Settings, t: Topic) {
    g.enabled && if t.Occupancy? then g.hasOccupied else g.hasAdded
  }

  predicate OffGate(g: Settings, t: Topic) {
    g.enabled && if t.Occupancy? then g.hasVacated else g.hasRemoved
  }

  predicate Gate(g: Settings, t: Topic, on: bool) {
    if on then OnGate(g, t) else OffGate(g, t)
  }

  /** The part of a topic's history that passes the switches. */
  function Through(g: Settings, t: Topic, turns: seq<bool>): seq<bool> {
    if turns == [] then []
    else
      var rest, last := Through(g, t, turns[..|turns| - 1]), turns[|turns| - 1];
      if Gate(g, t, last) then rest + [last] else rest
  }

  lemma {:induction false} ThroughConcat(g: Settings, t: Topic, a: seq<bool>, b: seq<bool>)
    ensures Through(g, t, a + b) == Through(g, t, a) + Through(g, t, b)
  {
    if b == [] {
      assert a + b == a;
    } else {
      var init := b[..|b| - 1];
      ThroughConcat(g, t, a, init);
      assert (a + b)[..|a + b| - 1] == a + init;
    }
  }

  lemma {:induction false} ThroughBoth(g: Settings, t: Topic, turns: seq<bool>)
    requires OnGate(g, t) && OffGate(g, t)
    ensures Through(g, t, turns) == turns
  {
    if turns != [] { ThroughBoth(g, t, turns[..|turns| - 1]); }
  }

  lemma ThroughLast(g: Settings, t: Topic, turns: seq<bool>)
    requires turns != []
    ensures var init, last := turns[..|turns| - 1], turns[|turns| - 1];
      Through(g, t, turns) == if Gate(g, t, last) then Through(g, t, init) + [last] else Through(g, t, init)
  {
    hide Gate;
  }

  lemma {:induction false} ThroughCounts(g: Settings, t: Topic, turns: seq<bool>, b: bool)
    ensures Count(Through(g, t, turns), b) == if Gate(g, t, b) then Count(turns, b) else 0
  {
    if turns != [] {
      hide Count, Through, Gate;
      var init, last := turns[..|turns| - 1], turns[|turns| - 1];
      assert turns == init + [last];
      ThroughLast(g, t, turns);
      ThroughCounts(g, t, init, b);
      CountMore(Through(g, t, init), b, last);
      CountMore(init, b, last);
    }
  }

  lemma ArrivalsExtend(trace: seq<FlapStep>, step: FlapStep, k: string)
    ensures Arrivals(trace + [step], k) == Arrivals(trace, k) +
      (if step.Arrive? && step.event.key == k then [Arrival(step.event, step.now)] else [])
  {
    assert (trace + [step])[..|trace|] == trace;
  }

  /** Of new events, the detector receives under a topic's key exactly those about the topic that pass the switches. */
  lemma {:induction false} OfferDelivers(g: Settings, app: AppId, hooks: seq<Hook>, now: int, trace: seq<FlapStep>,
                                         t: Topic)
    requires ':' !in app && t.Separable() && forall h | h in hooks :: CleanHook(h)
    ensures ArrivalUps(Arrivals(Offer(g, app, hooks, now, trace), FlapKey(t)))
      == ArrivalUps(Arrivals(trace, FlapKey(t))) + Through(g, t, Turns(app, hooks, t))
  {
    if hooks != [] {
      hide Turns, Through, Arrivals, ArrivalUps, FlapKey, FlapEvent, Offered, HookTopic;
      var init, h := hooks[..|hooks| - 1], hooks[|hooks| - 1];
      assert hooks == init + [h];
      OfferDelivers(g, app, init, now, trace, t);
      assert CleanHook(h);
      OfferOneMore(g, app, h, now, Offer(g, app, init, now, trace), t);
      HookThrough(g, app, init, h, t);
    }
  }

  lemma HookThrough(g: Settings, app: AppId, log: seq<Hook>, h: Hook, t: Topic)
    ensures Through(g, t, Turns(app, log + [h], t)) == Through(g, t, Turns(app, log, t))
      + (if HookTopic(app, h) == Some(t) && Offered(g, h) then [TurnsOn(h)] else [])
  {
    TurnsEmit(app, log, h, t);
    if HookTopic(app, h) == Some(t) {
      ThroughConcat(g, t, Turns(app, log, t), [TurnsOn(h)]);
      assert [TurnsOn(h)][..0] == [];
      assert Through(g, t, []) == [];
    }
  }

  lemma OfferOneMore(g: Settings, app: AppId, h: Hook, now: int, trace: seq<FlapStep>, t: Topic)
    requires ':' !in app && t.Separable() && CleanHook(h)
    ensures var more := if Offered(g, h) then trace + [Arrive(FlapEvent(app, h), now, |trace|)] else trace;
      ArrivalUps(Arrivals(more, FlapKey(t))) == ArrivalUps(Arrivals(trace, FlapKey(t)))
        + (if HookTopic(app, h) == Some(t) && Offered(g, h) then [TurnsOn(h)] else [])
  {
    hide FlapKey, Arrivals;
    if Offered(g, h) {
      var t' := HookTopic(app, h).value;
      ArrivalsExtend(trace, Arrive(FlapEvent(app, h), now, |trace|), FlapKey(t));
      if FlapKey(t') == FlapKey(t) { FlapKeyInjective(t', t); }
      assert ArrivalUps(Arrivals(trace, FlapKey(t)) + [Arrival(FlapEvent(app, h), now)])
          == ArrivalUps(Arrivals(trace, FlapKey(t))) + [TurnsOn(h)];
    }
  }

  /** Offered events and firings keep the trace one the detector can produce. */
  ghost predicate TraceOk(window: int, trace: seq<FlapStep>) {
    Legal(window, trace) && forall h | h in After(window, trace).timers :: h < |trace|
  }

  lemma {:induction false} OfferKeepsTrace(window: int, g: Settings, app: AppId, hooks: seq<Hook>, now: int,
                                           trace: seq<FlapStep>)
    requires TraceOk(window, trace)
    ensures TraceOk(window, Offer(g, app, hooks, now, trace))
  {
    if hooks != [] {
      var init, h := hooks[..|hooks| - 1], hooks[|hooks| - 1];
      OfferKeepsTrace(window, g, app, init, now, trace);
      var rest := Offer(g, app, init, now, trace);
      if Offered(g, h) { ExtendTrace(window, rest, Arrive(FlapEvent(app, h), now, |rest|)); }
    }
  }

  // ---------- every history ----------

  /** App ids have no ':'. Nothing in the program checks them, so this is an assumption. */
  predicate ColonFree(env: map<AppId, Settings>) {
    forall app | app in env :: ':' !in app
  }

  /** The detector received, under a topic's key, what passed the switches of the topic's history. */
  ghost predicate Delivered(env: map<AppId, Settings>, sys: System, t: Topic)
    requires t.app in env && t.app in sys.apps
  {
    ArrivalUps(Arrivals(sys.trace, FlapKey(t))) == Through(env[t.app], t, Turns(t.app, sys.apps[t.app].emitted, t))
  }

  ghost predicate SystemInv(env: map<AppId, Settings>, window: int, sys: System) {
    && sys.apps.Keys == env.Keys
    && TraceOk(window, sys.trace)
    && (forall app | app in env :: Grounded(sys.apps[app]) && Clean(sys.apps[app]))
    && (forall t: Topic | t.app in env && t.Separable() :: Delivered(env, sys, t))
  }

  /** What a client request makes of one app: the state stays sound and its events grow by the new ones. */
  lemma ClientKeepsState(g: Settings, s: State, r: Request)
    requires Grounded(s) && Clean(s) && Enabled(s, r)
    ensures var s' := Step(g.limits, s, r);
      && Grounded(s') && Clean(s') && s'.emitted == s.emitted + NewHooks(s, s')
      && forall h | h in NewHooks(s, s') :: CleanHook(h)
  {
    GroundedStep(g.limits, s, r);
    StepExtends(g.limits, s, r);
    hide Step, Grounded;
  }

  lemma ClientDelivers(g: Settings, app: AppId, before: seq<Hook>, hooks: seq<Hook>, now: int, trace: seq<FlapStep>,
                       t: Topic)
    requires ':' !in app && t.Separable() && forall h | h in hooks :: CleanHook(h)
    requires t.app == app ==> ArrivalUps(Arrivals(trace, FlapKey(t))) == Through(g, t, Turns(app, before, t))
    ensures var ups := ArrivalUps(Arrivals(Offer(g, app, hooks, now, trace), FlapKey(t)));
      ups ==
        if t.app == app then Through(g, t, Turns(app, before + hooks, t)) else ArrivalUps(Arrivals(trace, FlapKey(t)))
  {
    OfferDelivers(g, app, hooks, now, trace, t);
    if t.app == app {
      TurnsConcat(app, before, hooks, t);
      ThroughConcat(g, t, Turns(app, before, t), Turns(app, hooks, t));
    } else {
      TurnsOfOtherApp(app, hooks, t);
    }
  }

  lemma ClientKeepsSystem(env: map<AppId, Settings>, window: int, sys: System, app: AppId, r: Request, now: int)
    requires ColonFree(env) && SystemInv(env, window, sys) && app in env && Enabled(sys.apps[app], r)
    ensures SystemInv(env, window, Happen(env, window, sys, Client(app, r, now)))
  {
    var s, g := sys.apps[app], env[app];
    var s' := Step(g.limits, s, r);
    var sys' := Happen(env, window, sys, Client(app, r, now));
    ClientKeepsState(g, s, r);
    OfferKeepsTrace(window, g, app, NewHooks(s, s'), now, sys.trace);
    hide Step, Grounded, Clean, TraceOk, NewHooks, Offer, Arrivals, ArrivalUps, Turns, Through, FlapKey;
    forall t: Topic | t.app in env && t.Separable() ensures Delivered(env, sys', t) {
      assert Delivered(env, sys, t);
      ClientDelivers(g, app, s.emitted, NewHooks(s, s'), now, sys.trace, t);
    }
  }

  lemma {:induction false} TurnsOfOtherApp(app: AppId, hooks: seq<Hook>, t: Topic)
    requires t.app != app
    ensures Turns(app, hooks, t) == []
  {
    if hooks != [] { TurnsOfOtherApp(app, hooks[..|hooks| - 1], t); }
  }

  lemma TimerKeepsSystem(env: map<AppId, Settings>, window: int, sys: System, key: string, handle: nat, now: int)
    requires SystemInv(env, window, sys) && Possible(After(window, sys.trace), Fire(key, now, handle))
    ensures SystemInv(env, window, sys.(trace := sys.trace + [Fire(key, now, handle)]))
  {
    var sys' := sys.(trace := sys.trace + [Fire(key, now, handle)]);
    ExtendTrace(window, sys.trace, Fire(key, now, handle));
    assert TraceOk(window, sys'.trace);
    hide Grounded, Clean, TraceOk;
    forall t: Topic | t.app in env && t.Separable() ensures Delivered(env, sys', t) {
      assert Delivered(env, sys, t);
      ArrivalsExtend(sys.trace, Fire(key, now, handle), FlapKey(t));
    }
  }

  lemma BeginInv(env: map<AppId, Settings>, window: int)
    ensures SystemInv(env, window, Begin(env))
  {
    assert After(window, []).timers == map[];
    forall t: Topic | t.app in env && t.Separable() ensures Delivered(env, Begin(env), t) {}
  }

  /** In every history of any number of apps sharing one detector, whatever the clients and the timers do, the detector
      has received under the key of a channel, or of a user in a channel, exactly the events emitted about it whose
      switch is on, in order. */
  lemma {:induction false} HistoryDelivers(env: map<AppId, Settings>, window: int, actions: seq<Action>)
    requires ColonFree(env)
    ensures SystemInv(env, window, History(env, window, actions))
  {
    if actions == [] {
      BeginInv(env, window);
    } else {
      var before, a := actions[..|actions| - 1], actions[|actions| - 1];
      HistoryDelivers(env, window, before);
      var sys := History(env, window, before);
      if CanHappen(window, sys, a) {
        match a
        case Client(app, r, now) => ClientKeepsSystem(env, window, sys, app, r, now);
        case TimerFires(key, handle, now) => TimerKeepsSystem(env, window, sys, key, handle, now);
      }
    }
  }

  /** How many requests of the history misinformed about t. */
  function Misreports(env: map<AppId, Settings>, window: int, actions: seq<Action>, t: Topic): nat {
    if actions == [] then 0
    else
      var sys, a := History(env, window, actions[..|actions| - 1]), actions[|actions| - 1];
      Misreports(env, window, actions[..|actions| - 1], t)
      + (if a.Client? && a.app == t.app && CanHappen(window, sys, a)
            && Misinforms(env[a.app].limits, sys.apps[a.app], a.request, t) then 1 else 0)
  }

  /** The events emitted about a topic: exactly one "on" too many for each request that misinformed about it. */
  lemma {:induction false} HistoryTells(env: map<AppId, Settings>, window: int, actions: seq<Action>, t: Topic)
    requires ColonFree(env) && t.app in env
    ensures var s := History(env, window, actions).apps[t.app];
      && Excess(t.app, s, t) == Misreports(env, window, actions, t)
      && (Told(t.app, s, t) <==> Misreports(env, window, actions, t) == 0)
  {
    if actions == [] {
      NothingTold(t.app, t);
    } else {
      var before, a := actions[..|actions| - 1], actions[|actions| - 1];
      HistoryTells(env, window, before, t);
      HistoryDelivers(env, window, before);
      var sys := History(env, window, before);
      if CanHappen(window, sys, a) && a.Client? && a.app == t.app {
        var s, cfg := sys.apps[t.app], env[t.app].limits;
        ExcessStep(t.app, cfg, s, a.request, t);
        if Told(t.app, s, t) { TopicStep(t.app, cfg, s, a.request, t); }
      }
    }
    hide Excess, Told, Misinforms, Step;
    var s := History(env, window, actions).apps[t.app];
    if Told(t.app, s, t) { ToldHasNoExcess(t.app, s, t); }
  }

  // ---------- end to end ----------

  /** What was dispatched about a topic. */
  function Dispatched(window: int, sys: System, t: Topic): seq<bool> {
    Ups(SentFor(After(window, sys.trace).sent, FlapKey(t)))
  }

  predicate NonePending(window: int, sys: System, t: Topic) {
    LiveTimers(After(window, sys.trace), FlapKey(t)) == {}
  }

  /** With both switches of a topic on, in every history: if no request misinformed about this very topic, the webhooks
      that get past the detector strictly alternate, whatever the timer delays; and whenever no timer of the topic is
      live they alternate and the last one says how things are if and only if no request misinformed about it. Every
      request that did leaves one "on" too many in what was dispatched. */
  lemma TopicEndToEnd(env: map<AppId, Settings>, window: int, actions: seq<Action>, t: Topic)
    requires ColonFree(env) && t.app in env && t.Separable() && OnGate(env[t.app], t) && OffGate(env[t.app], t)
    ensures var sys := History(env, window, actions);
      && (Misreports(env, window, actions, t) == 0 ==> Alternates(Dispatched(window, sys, t)))
      && (NonePending(window, sys, t) ==>
            && (Truthful(Dispatched(window, sys, t), Holds(sys.apps[t.app], t))
                <==> Misreports(env, window, actions, t) == 0)
            && Balance(Dispatched(window, sys, t)) ==
              AsInt(Holds(sys.apps[t.app], t)) + Misreports(env, window, actions, t))
  {
    var sys, k := History(env, window, actions), FlapKey(t);
    var s := sys.apps[t.app];
    HistoryDelivers(env, window, actions);
    HistoryTells(env, window, actions, t);
    assert Delivered(env, sys, t);
    ThroughBoth(env[t.app], t, Turns(t.app, s.emitted, t));
    hide Misreports, History, Turns, FlapKey, Grounded, Clean, Holds, Balance, Through;
    if Misreports(env, window, actions, t) == 0 { OutputAlternates(window, sys.trace, k, Holds(s, t)); }
    if NonePending(window, sys, t) {
      OutputBalances(window, sys.trace, k);
      if Truthful(Dispatched(window, sys, t), Holds(s, t)) {
        TruthfulBalances(Dispatched(window, sys, t), Holds(s, t));
      }
    }
  }

  /** channel_occupied and channel_vacated of one channel of one app. */
  lemma OccupancyEndToEnd(env: map<AppId, Settings>, window: int, actions: seq<Action>, app: AppId, c: ChannelName)
    requires ColonFree(env) && app in env && ':' !in c
    requires env[app].enabled && env[app].hasOccupied && env[app].hasVacated
    ensures var sys, t := History(env, window, actions), Topic.Occupancy(app, c);
      && (Misreports(env, window, actions, t) == 0 ==> Alternates(Dispatched(window, sys, t)))
      && (NonePending(window, sys, t) ==>
            (Truthful(Dispatched(window, sys, t), c in sys.apps[app].channels)
             <==> Misreports(env, window, actions, t) == 0))
  {
    var sys, t := History(env, window, actions), Topic.Occupancy(app, c);
    HistoryDelivers(env, window, actions);
    TopicEndToEnd(env, window, actions, t);
    OccupiedIsListed(sys.apps[app], c);
  }

  /** member_added and member_removed of one user in one channel of one app. */
  lemma MembersEndToEnd(env: map<AppId, Settings>, window: int, actions: seq<Action>, app: AppId, c: ChannelName,
                        u: UserId)
    requires ColonFree(env) && app in env && ':' !in c
    requires env[app].enabled && env[app].hasAdded && env[app].hasRemoved
    ensures var sys, t := History(env, window, actions), Topic.Membership(app, c, u);
      && (Misreports(env, window, actions, t) == 0 ==> Alternates(Dispatched(window, sys, t)))
      && (NonePending(window, sys, t) ==>
            (Truthful(Dispatched(window, sys, t), u in MemberIds(sys.apps[app], c))
             <==> Misreports(env, window, actions, t) == 0))
  {
    TopicEndToEnd(env, window, actions, Topic.Membership(app, c, u));
  }
}
