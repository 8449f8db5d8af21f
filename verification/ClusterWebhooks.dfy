/** From client requests on several nodes to dispatched webhooks: every node has a flap detector of its own, and still
    all of them together tell the truth about the cluster (internal/queues/queueAbstract.go,
    internal/queues/flapDetector.go). */
module ClusterWebhooks {
  import opened Wrappers
  import opened Names
  import opened Alternation
  import opened Membership
  import opened MembershipCore
  import opened MembershipIndex
  import opened MembershipEvents
  import opened ClusterMembership
  import opened ClusterEvents
  import opened Flap
  import opened FlapBursts
  import opened Webhooks

  // ---------- only the handling node emits ----------

  ghost predicate QuietElsewhere(nodes: seq<State>, r: seq<State>, i: nat) {
    |r| == |nodes| && forall j: nat | j < |nodes| && j != i :: r[j].emitted == nodes[j].emitted
  }

  lemma TellOthersQuiet(nodes: seq<State>, i: nat, c: ChannelName, m: Message)
    ensures QuietElsewhere(nodes, TellOthers(nodes, i, c, m), i)
  {
    forall j: nat | j < |nodes| && j != i ensures TellOthers(nodes, i, c, m)[j].emitted == nodes[j].emitted {
      SendSameCore(nodes[j], c, m, "");
    }
  }

  lemma JoinQuiet(nodes: seq<State>, i: nat, id: SocketId, sub: Subscription)
    requires i < |nodes| && id in nodes[i].sockets
    ensures QuietElsewhere(nodes, JoinInCluster(nodes, i, id, sub).nodes, i)
  {
    hide JoinAt, MembersOnJoin, CountOnJoin, TellOthers, CreateChannel;
    TellOthersQuiet(nodes, i, sub.channel, MemberAdded(sub.channel, sub.member));
  }

  lemma LeaveQuiet(nodes: seq<State>, i: nat, id: SocketId, c: ChannelName)
    requires i < |nodes| && id in nodes[i].sockets
    ensures QuietElsewhere(nodes, LeaveInCluster(nodes, i, id, c), i)
  {
    hide LeaveAt, StaysMember, TellOthers, CreateChannel, Connections;
    if c in nodes[i].sockets[id].presence {
      TellOthersQuiet(nodes, i, c, MemberRemoved(c, nodes[i].sockets[id].presence[c].userId));
    }
  }

  lemma {:induction false} LeaveAllQuiet(nodes: seq<State>, i: nat, id: SocketId, order: seq<ChannelName>)
    requires i < |nodes| && id in nodes[i].sockets
    ensures QuietElsewhere(nodes, LeaveAllInCluster(nodes, i, id, order), i)
  {
    hide LeaveInCluster;
    if order != [] {
      var init := order[..|order| - 1];
      LeaveAllQuiet(nodes, i, id, init);
      LeaveQuiet(LeaveAllInCluster(nodes, i, id, init), i, id, order[|order| - 1]);
    }
  }

  lemma StepQuiet(cfg: Config, nodes: seq<State>, i: nat, r: Request)
    requires i < |nodes| && Enabled(nodes[i], r)
    ensures QuietElsewhere(nodes, ClusterStep(cfg, nodes, i, r), i)
  {
    hide JoinInCluster, LeaveInCluster, LeaveAllInCluster, SubscribeAt, Step, AdmittedInCluster, GatheredCount;
    match r
    case Subscribing(id, sub) => JoinQuiet(nodes, i, id, sub);
    case Unsubscribing(id, c) => LeaveQuiet(nodes, i, id, c);
    case SigningIn(id, tokenOk, user, order) => LeaveAllQuiet(nodes, i, id, order);
    case Closing(id, order) => LeaveAllQuiet(nodes, i, id, order);
    case _ =>
  }

  // ---------- events only ever concern valid channel names ----------

  lemma JoinClean(cfg: Config, nodes: seq<State>, i: nat, id: SocketId, sub: Subscription)
    requires i < |nodes| && id in nodes[i].sockets && ValidName(sub.channel, cfg.maxNameLength)
    ensures Clean(nodes[i]) ==> Clean(JoinInCluster(nodes, i, id, sub).nodes[i])
  {
    hide JoinAt, MembersOnJoin, CountOnJoin, TellOthers, CreateChannel, ValidName, IsPresence;
    var s, r, c := nodes[i], JoinInCluster(nodes, i, id, sub).nodes[i], sub.channel;
    ValidNameHasNoColon(c, cfg.maxNameLength);
    JoinInClusterCore(nodes, i, id, sub);
    JoinAtEmits(s, id, sub, CountOnJoin(nodes, i, id, c), MembersOnJoin(nodes, i, id, sub));
    forall j, k | Clean(s) && j in r.sockets && k in r.sockets[j].subscribed ensures ':' !in k {
      if j != id { assert SameSocket(s.sockets[j], r.sockets[j]); }
      assert k in s.sockets[j].subscribed || k == c;
    }
  }

  lemma LeaveClean(nodes: seq<State>, i: nat, id: SocketId, c: ChannelName)
    requires i < |nodes| && id in nodes[i].sockets && Held(nodes[i]) && ':' !in c
    ensures Clean(nodes[i]) ==> Clean(LeaveInCluster(nodes, i, id, c)[i])
  {
    hide LeaveAt, StaysMember, TellOthers, CreateChannel, Connections, IsPresence, Drop;
    var s, r, stays := nodes[i], LeaveInCluster(nodes, i, id, c)[i], StaysMember(nodes, i, id, c);
    LeaveInClusterCore(nodes, i, id, c);
    LeaveAtEmits(s, id, c, Connections(nodes[i := s.(channels := Drop(s.channels, c, id))], c) == 0, stays);
    forall j, k | Clean(s) && j in r.sockets && k in r.sockets[j].subscribed ensures ':' !in k {
      if j != id { assert SameSocket(s.sockets[j], r.sockets[j]); }
      assert k in s.sockets[j].subscribed;
    }
  }

  lemma {:induction false} LeaveAllClean(nodes: seq<State>, i: nat, id: SocketId, order: seq<ChannelName>)
    requires i < |nodes| && id in nodes[i].sockets && Grounded(nodes[i]) && forall c | c in order :: ':' !in c
    ensures var r := LeaveAllInCluster(nodes, i, id, order)[i];
      Grounded(r) && (Clean(nodes[i]) ==> Clean(r))
  {
    hide LeaveInCluster, Clean, NoEmptyChannel, ListedSubscribe, Held, OrdinaryListed, LeaveRel;
    if order != [] {
      var init, last := order[..|order| - 1], order[|order| - 1];
      assert last in order && forall c | c in init :: c in order;
      LeaveAllClean(nodes, i, id, init);
      var mid := LeaveAllInCluster(nodes, i, id, init);
      LeaveClean(mid, i, id, last);
      LeaveInClusterCore(mid, i, id, last);
      LeaveGrounded(mid[i], LeaveInCluster(mid, i, id, last)[i], id, last);
    }
  }

  lemma CloseClean(nodes: seq<State>, i: nat, id: SocketId, order: seq<ChannelName>)
    requires i < |nodes| && id in nodes[i].sockets && Grounded(nodes[i])
    requires Enumerates(order, nodes[i].sockets[id].subscribed)
    ensures Clean(nodes[i]) ==> Clean(CloseInCluster(nodes, i, id, order)[i])
  {
    hide LeaveAllInCluster, Grounded;
    if Clean(nodes[i]) { LeaveAllClean(nodes, i, id, order); }
  }

  lemma StepClean(cfg: Config, nodes: seq<State>, i: nat, r: Request)
    requires i < |nodes| && Enabled(nodes[i], r) && Grounded(nodes[i]) && Clean(nodes[i])
    ensures Clean(ClusterStep(cfg, nodes, i, r)[i])
  {
    hide JoinInCluster, LeaveInCluster, CloseInCluster, SubscribeAt, Step, ValidName, AdmissionAt, GatheredCount, Clean,
         Answer, NoEmptyChannel, ListedSubscribe, OrdinaryListed, Held;
    var s := nodes[i];
    match r
    case Subscribing(id, sub) =>
      var h := SubscribeInCluster(cfg, nodes, i, id, sub);
      if AdmittedInCluster(cfg, nodes, i, id, sub) {
        JoinClean(cfg, nodes, i, id, sub);
      } else {
        TurnedAwayCore(cfg, s, id, sub, GatheredCount(nodes, sub.channel));
        CleanCarries(s, h.nodes[i]);
      }
      AnswerClean(h.nodes[i], h.error, id);
    case Unsubscribing(id, c) =>
      if c in s.sockets[id].subscribed {
        SubscribedClean(s, id, c);
        LeaveClean(nodes, i, id, c);
      } else {
        StayClean(cfg, s, r);
      }
    case SigningIn(id, tokenOk, user, order) =>
      if user != "" && !tokenOk {
        CloseClean(nodes, i, id, order);
        AnswerClean(CloseInCluster(nodes, i, id, order)[i], Some(UnauthorizedConnection), id);
      } else {
        StayClean(cfg, s, r);
      }
    case Closing(id, order) => CloseClean(nodes, i, id, order);
    case _ => StayClean(cfg, s, r);
  }

  lemma CleanCarries(s: State, r: State)
    requires Clean(s) && SameCore(s, r) && r.emitted == s.emitted
    ensures Clean(r)
  {
    assert forall id | id in s.sockets :: SameSocket(s.sockets[id], r.sockets[id]);
  }

  lemma AnswerClean(s: State, error: Option<ErrorCode>, id: SocketId)
    requires Clean(s)
    ensures Clean(Answer(Outcome(s, error), id))
  {
    AnswerCore(Outcome(s, error), id);
    CleanCarries(s, Answer(Outcome(s, error), id));
  }

  lemma StayClean(cfg: Config, s: State, r: Request)
    requires Grounded(s) && Clean(s) && Enabled(s, r)
    ensures Clean(Step(cfg, s, r))
  {
    hide Step;
    StepExtends(cfg, s, r);
  }

  lemma SubscribedClean(s: State, id: SocketId, c: ChannelName)
    requires Clean(s) && id in s.sockets && c in s.sockets[id].subscribed
    ensures ':' !in c
  {
  }

  // ---------- the composed system ----------

  /** The nodes' states of each app, and one detector trace per node. */
  datatype Fleet = Fleet(apps: map<AppId, seq<State>>, traces: seq<seq<FlapStep>>)

  datatype Deed =
    | ClientOn(node: nat, app: AppId, request: Request, at: int)
    | TimerOn(node: nat, key: string, handle: nat, when: int)

  predicate CanBeDone(window: int, f: Fleet, a: Deed) {
    match a
    case ClientOn(i, app, r, _) =>
      i < |f.traces| && app in f.apps && i < |f.apps[app]| && Enabled(f.apps[app][i], r)
    case TimerOn(i, key, handle, now) => i < |f.traces| && Possible(After(window, f.traces[i]), Fire(key, now, handle))
  }

  function Done(env: map<AppId, Settings>, window: int, f: Fleet, a: Deed): Fleet
    requires CanBeDone(window, f, a) && f.apps.Keys == env.Keys
  {
    match a
    case ClientOn(i, app, r, now) =>
      var nodes := f.apps[app];
      var nodes' := ClusterStep(env[app].limits, nodes, i, r);
      Fleet(f.apps[app := nodes'],
            f.traces[i := Offer(env[app], app, NewHooks(nodes[i], nodes'[i]), now, f.traces[i])])
    case TimerOn(i, key, handle, now) => f.(traces := f.traces[i := f.traces[i] + [Fire(key, now, handle)]])
  }

  function NewFleet(env: map<AppId, Settings>, size: nat): Fleet {
    Fleet(map app | app in env :: seq(size, _ => EMPTY), seq(size, _ => []))
  }

  /** Any number of nodes and apps after a list of actions; those that cannot happen are skipped. */
  function FleetHistory(env: map<AppId, Settings>, window: int, size: nat, actions: seq<Deed>): (f: Fleet)
    ensures f.apps.Keys == env.Keys && |f.traces| == size && forall app | app in f.apps :: |f.apps[app]| == size
  {
    if actions == [] then NewFleet(env, size)
    else
      var f, a := FleetHistory(env, window, size, actions[..|actions| - 1]), actions[|actions| - 1];
      if CanBeDone(window, f, a) then Done(env, window, f, a) else f
  }

  // ---------- what reaches the detectors ----------

  /** The detector of node j received, under a topic's key, what passed the switches of what the node emitted. */
  ghost predicate DeliveredOn(env: map<AppId, Settings>, f: Fleet, j: nat, t: Topic)
    requires t.app in env && t.app in f.apps && j < |f.traces| && j < |f.apps[t.app]|
  {
    ArrivalUps(Arrivals(f.traces[j], FlapKey(t)))
      == Through(env[t.app], t, Turns(t.app, f.apps[t.app][j].emitted, t))
  }

  ghost predicate NodeOk(s: State) {
    Grounded(s) && Clean(s)
  }

  ghost predicate Sized(env: map<AppId, Settings>, size: nat, f: Fleet) {
    f.apps.Keys == env.Keys && |f.traces| == size && forall app | app in f.apps :: |f.apps[app]| == size
  }

  ghost predicate FleetInv(env: map<AppId, Settings>, window: int, size: nat, f: Fleet) {
    && Sized(env, size, f)
    && (forall j: nat | j < size :: TraceOk(window, f.traces[j]))
    && (forall app, j: nat | app in env && j < size :: NodeOk(f.apps[app][j]))
    && (forall t: Topic, j: nat | t.app in env && t.Separable() && j < size :: DeliveredOn(env, f, j, t))
  }

  lemma NewAreClean(s: State, r: State)
    requires Clean(r) && s.emitted <= r.emitted
    ensures r.emitted == s.emitted + NewHooks(s, r) && forall h | h in NewHooks(s, r) :: CleanHook(h)
  {
  }

  /** What a request makes of all the nodes of one app. */
  lemma StepKeepsNodes(g: Settings, nodes: seq<State>, i: nat, r: Request)
    requires i < |nodes| && Enabled(nodes[i], r) && forall j: nat | j < |nodes| :: NodeOk(nodes[j])
    ensures var nodes' := ClusterStep(g.limits, nodes, i, r);
      && (forall j: nat | j < |nodes| :: NodeOk(nodes'[j]))
      && (forall j: nat | j < |nodes| && j != i :: nodes'[j].emitted == nodes[j].emitted)
      && nodes'[i].emitted == nodes[i].emitted + NewHooks(nodes[i], nodes'[i])
      && forall h | h in NewHooks(nodes[i], nodes'[i]) :: CleanHook(h)
  {
    hide ClusterStep, Grounded, Clean, Turns, ClusterTurn, MisinformsInCluster, ClusterHolds, SameCore, NewHooks,
         CleanHook, Enabled;
    var nodes' := ClusterStep(g.limits, nodes, i, r);
    StepQuiet(g.limits, nodes, i, r);
    assert NodeOk(nodes[i]);
    StepClean(g.limits, nodes, i, r);
    HandlerGrounded(g.limits, nodes, i, r);
    ClusterStepMoves("", g.limits, nodes, i, r, Topic.Occupancy("", ""));
    NewAreClean(nodes[i], nodes'[i]);
    forall j: nat | j < |nodes| ensures NodeOk(nodes'[j]) {
      if j != i {
        assert NodeOk(nodes[j]) && SameCore(nodes[j], nodes'[j]);
        SameCoreGrounded(nodes[j], nodes'[j]);
        CleanCarries(nodes[j], nodes'[j]);
      }
    }
  }

  lemma ClientKeepsFleet(env: map<AppId, Settings>, window: int, size: nat, f: Fleet, i: nat, app: AppId, r: Request,
                         now: int)
    requires ColonFree(env) && FleetInv(env, window, size, f) && CanBeDone(window, f, ClientOn(i, app, r, now))
    ensures FleetInv(env, window, size, Done(env, window, f, ClientOn(i, app, r, now)))
  {
    hide ClusterStep, NodeOk, TraceOk, NewHooks, Offer, Arrivals, ArrivalUps, Turns, Through, FlapKey, DeliveredOn,
         Enabled;
    var g, nodes := env[app], f.apps[app];
    var nodes', f' := ClusterStep(g.limits, nodes, i, r), Done(env, window, f, ClientOn(i, app, r, now));
    assert forall j: nat | j < size :: NodeOk(nodes[j]);
    StepKeepsNodes(g, nodes, i, r);
    OfferKeepsTrace(window, g, app, NewHooks(nodes[i], nodes'[i]), now, f.traces[i]);
    forall t: Topic, j: nat | t.app in env && t.Separable() && j < size ensures DeliveredOn(env, f', j, t) {
      assert DeliveredOn(env, f, j, t);
      NodeDelivers(env, f, f', i, app, NewHooks(nodes[i], nodes'[i]), now, j, t);
    }
  }

  lemma NodeDelivers(env: map<AppId, Settings>, f: Fleet, f': Fleet, i: nat, app: AppId, hooks: seq<Hook>, now: int,
                     j: nat, t: Topic)
    requires app in env && t.app in env && ':' !in app && t.Separable() && forall h | h in hooks :: CleanHook(h)
    requires Sized(env, |f.traces|, f) && Sized(env, |f.traces|, f') && i < |f.traces| && j < |f.traces|
    requires DeliveredOn(env, f, j, t)
    requires f'.traces == f.traces[i := Offer(env[app], app, hooks, now, f.traces[i])]
    requires f'.apps == f.apps[app := f'.apps[app]]
    requires forall k: nat | k < |f.traces| && k != i :: f'.apps[app][k].emitted == f.apps[app][k].emitted
    requires f'.apps[app][i].emitted == f.apps[app][i].emitted + hooks
    ensures DeliveredOn(env, f', j, t)
  {
    hide Arrivals, ArrivalUps, Turns, Through, FlapKey, Offer, CleanHook;
    if j == i { ClientDelivers(env[app], app, f.apps[app][i].emitted, hooks, now, f.traces[i], t); }
  }

  lemma TimerKeepsFleet(env: map<AppId, Settings>, window: int, size: nat, f: Fleet, i: nat, key: string, handle: nat,
                        now: int)
    requires FleetInv(env, window, size, f) && CanBeDone(window, f, TimerOn(i, key, handle, now))
    ensures FleetInv(env, window, size, Done(env, window, f, TimerOn(i, key, handle, now)))
  {
    hide NodeOk;
    var f' := Done(env, window, f, TimerOn(i, key, handle, now));
    ExtendTrace(window, f.traces[i], Fire(key, now, handle));
    forall j: nat | j < size ensures TraceOk(window, f'.traces[j]) { assert TraceOk(window, f.traces[j]); }
    hide TraceOk;
    forall t: Topic, j: nat | t.app in env && t.Separable() && j < size ensures DeliveredOn(env, f', j, t) {
      assert DeliveredOn(env, f, j, t);
      ArrivalsExtend(f.traces[i], Fire(key, now, handle), FlapKey(t));
    }
  }

  lemma NewFleetOk(env: map<AppId, Settings>, window: int, size: nat)
    ensures FleetInv(env, window, size, NewFleet(env, size))
  {
    var f := NewFleet(env, size);
    assert After(window, []).timers == map[];
    assert NodeOk(EMPTY);
    forall t: Topic, j: nat | t.app in env && t.Separable() && j < size ensures DeliveredOn(env, f, j, t) {
      assert f.apps[t.app][j] == EMPTY && f.traces[j] == [];
    }
  }

  /** In every history of any number of nodes and apps, the detector of each node has received under the key of a topic
      exactly the events that its node emitted about it and whose switch is on, in order. */
  lemma {:induction false} FleetDelivers(env: map<AppId, Settings>, window: int, size: nat, actions: seq<Deed>)
    requires ColonFree(env)
    ensures FleetInv(env, window, size, FleetHistory(env, window, size, actions))
  {
    hide FleetInv, CanBeDone, Done;
    if actions == [] {
      NewFleetOk(env, window, size);
    } else {
      var before, a := actions[..|actions| - 1], actions[|actions| - 1];
      FleetDelivers(env, window, size, before);
      var f := FleetHistory(env, window, size, before);
      if CanBeDone(window, f, a) {
        match a
        case ClientOn(i, app, r, now) => ClientKeepsFleet(env, window, size, f, i, app, r, now);
        case TimerOn(i, key, handle, now) => TimerKeepsFleet(env, window, size, f, i, key, handle, now);
      }
    }
  }

  // ---------- what all nodes together emitted ----------

  /** How much more often "on" was emitted about t than "off", over all nodes. */
  function Announced(nodes: seq<State>, t: Topic): int {
    if nodes == [] then 0
    else Announced(nodes[..|nodes| - 1], t) + Balance(Turns(t.app, nodes[|nodes| - 1].emitted, t))
  }

  lemma {:induction false} AnnouncedOnOne(nodes: seq<State>, r: seq<State>, i: nat, t: Topic)
    requires i < |nodes| && QuietElsewhere(nodes, r, i)
    ensures Announced(r, t) - Announced(nodes, t)
      == Balance(Turns(t.app, r[i].emitted, t)) - Balance(Turns(t.app, nodes[i].emitted, t))
  {
    hide Balance, Turns;
    var n := |nodes| - 1;
    if i < n {
      AnnouncedOnOne(nodes[..n], r[..n], i, t);
    } else {
      AnnouncedSame(nodes[..n], r[..n], t);
    }
  }

  lemma {:induction false} AnnouncedSame(nodes: seq<State>, r: seq<State>, t: Topic)
    requires |r| == |nodes| && forall j: nat | j < |nodes| :: r[j].emitted == nodes[j].emitted
    ensures Announced(r, t) == Announced(nodes, t)
  {
    hide Balance, Turns;
    if nodes != [] { AnnouncedSame(nodes[..|nodes| - 1], r[..|r| - 1], t); }
  }

  lemma AnnouncedStep(cfg: Config, nodes: seq<State>, i: nat, r: Request, t: Topic)
    requires i < |nodes| && Enabled(nodes[i], r) && Grounded(nodes[i])
    ensures var nodes' := ClusterStep(cfg, nodes, i, r);
      Announced(nodes', t) - AsInt(ClusterHolds(nodes', t))
        == Announced(nodes, t) - AsInt(ClusterHolds(nodes, t)) + AsInt(MisinformsInCluster(cfg, nodes, i, r, t))
  {
    hide ClusterStep, Turns, Balance, ClusterHolds, MisinformsInCluster, ClusterTurn, Grounded;
    var nodes' := ClusterStep(cfg, nodes, i, r);
    StepQuiet(cfg, nodes, i, r);
    ClusterStepMoves(t.app, cfg, nodes, i, r, t);
    TurnFollows(Turns(t.app, nodes[i].emitted, t), ClusterHolds(nodes, t), ClusterTurn(cfg, nodes, i, r, t),
                ClusterHolds(nodes', t));
    AnnouncedOnOne(nodes, nodes', i, t);
  }

  /** How many requests of the history misinformed about t. */
  function FleetMisreports(env: map<AppId, Settings>, window: int, size: nat, actions: seq<Deed>, t: Topic): nat {
    if actions == [] then 0
    else
      var f, a := FleetHistory(env, window, size, actions[..|actions| - 1]), actions[|actions| - 1];
      FleetMisreports(env, window, size, actions[..|actions| - 1], t)
      + (if a.ClientOn? && a.app == t.app && CanBeDone(window, f, a)
            && MisinformsInCluster(env[a.app].limits, f.apps[a.app], a.node, a.request, t) then 1 else 0)
  }

  lemma {:induction false} FleetTells(env: map<AppId, Settings>, window: int, size: nat, actions: seq<Deed>, t: Topic)
    requires ColonFree(env) && t.app in env
    ensures var nodes := FleetHistory(env, window, size, actions).apps[t.app];
      Announced(nodes, t) == AsInt(ClusterHolds(nodes, t)) + FleetMisreports(env, window, size, actions, t)
  {
    hide ClusterHolds, MisinformsInCluster, ClusterStep, Enabled, Announced;
    if actions == [] {
      NothingAnnounced(size, t);
    } else {
      var before, a := actions[..|actions| - 1], actions[|actions| - 1];
      FleetTells(env, window, size, before, t);
      FleetDelivers(env, window, size, before);
      var f := FleetHistory(env, window, size, before);
      if CanBeDone(window, f, a) && a.ClientOn? && a.app == t.app {
        assert NodeOk(f.apps[t.app][a.node]);
        AnnouncedStep(env[t.app].limits, f.apps[t.app], a.node, a.request, t);
      }
    }
  }

  lemma {:induction false} NothingAnnounced(size: nat, t: Topic)
    ensures Announced(seq(size, _ => EMPTY), t) == 0 && !ClusterHolds(seq(size, _ => EMPTY), t)
  {
    NoConnections(size, t.channel);
    ClusterMembersAre(seq(size, _ => EMPTY), t.channel);
    assert MemberIds(EMPTY, t.channel) == {};
    if size > 0 {
      NothingAnnounced(size - 1, t);
      assert seq(size, _ => EMPTY)[..size - 1] == seq(size - 1, _ => EMPTY);
    }
  }

  // ---------- end to end ----------

  /** How much more often "on" was dispatched about t than "off", by all detectors together. */
  function DispatchedInAll(window: int, traces: seq<seq<FlapStep>>, t: Topic): int {
    if traces == [] then 0
    else
      DispatchedInAll(window, traces[..|traces| - 1], t)
      + Balance(Ups(SentFor(After(window, traces[|traces| - 1]).sent, FlapKey(t))))
  }

  predicate NonePendingAnywhere(window: int, traces: seq<seq<FlapStep>>, t: Topic) {
    forall j | 0 <= j < |traces| :: LiveTimers(After(window, traces[j]), FlapKey(t)) == {}
  }

  lemma {:induction false} DetectorsPassOn(window: int, traces: seq<seq<FlapStep>>, nodes: seq<State>, t: Topic)
    requires |traces| == |nodes| && NonePendingAnywhere(window, traces, t)
    requires forall j: nat | j < |traces| ::
      TraceOk(window, traces[j]) && ArrivalUps(Arrivals(traces[j], FlapKey(t))) == Turns(t.app, nodes[j].emitted, t)
    ensures DispatchedInAll(window, traces, t) == Announced(nodes, t)
  {
    hide Balance, Turns, Arrivals, ArrivalUps, FlapKey, LiveTimers, SentFor, Ups;
    if traces != [] {
      var n := |traces| - 1;
      assert NonePendingAnywhere(window, traces[..n], t);
      DetectorsPassOn(window, traces[..n], nodes[..n], t);
      assert TraceOk(window, traces[n]);
      OutputBalances(window, traces[n], FlapKey(t));
    }
  }

  /** In every history of any number of nodes, each with a detector of its own, and with both switches of a topic on:
      whenever no timer of the topic is live anywhere, the detectors together have dispatched "on" more often than "off"
      exactly once if the channel has a subscriber, or the user a socket, anywhere in the cluster, and once more for
      each request that misinformed about that very topic. */
  lemma ClusterEndToEnd(env: map<AppId, Settings>, window: int, size: nat, actions: seq<Deed>, t: Topic)
    requires ColonFree(env) && t.app in env && t.Separable() && OnGate(env[t.app], t) && OffGate(env[t.app], t)
    requires NonePendingAnywhere(window, FleetHistory(env, window, size, actions).traces, t)
    ensures var f := FleetHistory(env, window, size, actions);
      DispatchedInAll(window, f.traces, t)
        == AsInt(ClusterHolds(f.apps[t.app], t)) + FleetMisreports(env, window, size, actions, t)
  {
    hide FleetHistory, Turns, Through, Arrivals, ArrivalUps, FlapKey, ClusterHolds, NonePendingAnywhere, NodeOk,
         TraceOk;
    var f := FleetHistory(env, window, size, actions);
    FleetDelivers(env, window, size, actions);
    FleetTells(env, window, size, actions, t);
    forall j: nat | j < size
      ensures ArrivalUps(Arrivals(f.traces[j], FlapKey(t))) == Turns(t.app, f.apps[t.app][j].emitted, t)
    {
      assert DeliveredOn(env, f, j, t);
      ThroughBoth(env[t.app], t, Turns(t.app, f.apps[t.app][j].emitted, t));
    }
    DetectorsPassOn(window, f.traces, f.apps[t.app], t);
  }
}
