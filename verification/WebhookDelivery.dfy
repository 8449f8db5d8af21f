/** From the flap detector through the work queue to the webhook endpoints: how often each endpoint is posted an event,
    and what that says about a channel (internal/queues/queueAbstract.go, internal/queues/queueRedis.go). */
module WebhookDelivery {
  import opened Wrappers
  import opened Names
  import opened Alternation
  import opened Membership
  import opened MembershipEvents
  import opened Flap
  import opened FlapBursts
  import opened Webhooks
  import opened ClusterMembership
  import opened ClusterEvents
  import opened ClusterWebhooks
  import Q = AbstractQueueClass
  import R = RedisQueue

  // ---------- jobs ----------

  /** How many jobs there are of an event for a webhook. */
  lemma {:induction false} JobCount(apps: map<AppId, Q.App>, events: seq<Q.Dispatch>, job: Q.Job)
    ensures multiset(Q.JobsOf(apps, events))[job] ==
      if job.app in apps && Q.Accepts(job.webhook, job.hook.channel)
      then multiset(events)[Q.Dispatch(job.app, job.hook)] * Q.Configured(apps[job.app].webhooks, job.webhook) else 0
  {
    if events != [] {
      var init, last := events[..|events| - 1], events[|events| - 1];
      assert events == init + [last];
      JobCount(apps, init, job);
      if last.app in apps { Q.EachMatchingWebhookOnce(last.app, apps[last.app].webhooks, last.hook, job); }
      hide Q.Accepts, Q.JobsFor, Q.Configured;
      if job.app in apps {
        OneMoreTimes(multiset(init)[Q.Dispatch(job.app, job.hook)], Q.Configured(apps[job.app].webhooks, job.webhook));
      }
    }
  }

  lemma OneMoreTimes(n: nat, m: nat)
    ensures (n + 1) * m == n * m + m
  {
  }

  /** What addToQueue pushes: the payloads of the jobs. */
  function Payloads(jobs: seq<Q.Job>, encode: Q.Job -> R.Job): seq<R.Job> {
    seq(|jobs|, i requires 0 <= i < |jobs| => encode(jobs[i]))
  }

  /** Different jobs have different payloads. */
  ghost predicate Injective(encode: Q.Job -> R.Job) {
    forall a, b | encode(a) == encode(b) :: a == b
  }

  lemma {:induction false} PayloadCount(jobs: seq<Q.Job>, encode: Q.Job -> R.Job, job: Q.Job)
    requires Injective(encode)
    ensures R.Copies(Payloads(jobs, encode), encode(job)) == multiset(jobs)[job]
  {
    if jobs != [] {
      var init, last := jobs[..|jobs| - 1], jobs[|jobs| - 1];
      assert jobs == init + [last];
      assert Payloads(jobs, encode) == Payloads(init, encode) + [encode(last)];
      PayloadCount(init, encode, job);
      assert encode(last) == encode(job) <==> last == job;
    }
  }

  /** Whatever the workers did and whichever of them died: once both lists are drained, each endpoint has been posted an
      event exactly as often as it was handed on, times the number of its matching webhooks; in whatever order the jobs
      were pushed. */
  lemma EveryDispatchIsPosted(apps: map<AppId, Q.App>, events: seq<Q.Dispatch>, encode: Q.Job -> R.Job,
                              wellFormed: R.Job -> bool, k: nat, steps: seq<R.Step>, job: Q.Job)
    requires Injective(encode) && wellFormed(encode(job))
    requires var s := R.Run(wellFormed, k, steps);
      s.queue == [] && s.working == [] && multiset(s.pushed) == multiset(Payloads(Q.JobsOf(apps, events), encode))
    ensures R.Run(wellFormed, k, steps).sent[encode(job)] ==
      if job.app in apps && Q.Accepts(job.webhook, job.hook.channel)
      then multiset(events)[Q.Dispatch(job.app, job.hook)] * Q.Configured(apps[job.app].webhooks, job.webhook) else 0
  {
    R.DrainedMeansSent(wellFormed, k, steps, encode(job));
    PayloadCount(Q.JobsOf(apps, events), encode, job);
    JobCount(apps, events, job);
  }

  // ---------- what the detector dispatched about a topic ----------

  /** The event that says that a topic went on or off. */
  function HookOf(t: Topic, on: bool): Hook {
    match t
    case Occupancy(_, c) => if on then ChannelOccupied(c) else ChannelVacated(c)
    case Membership(_, c, u) => if on then UserAdded(c, u) else UserRemoved(c, u)
  }

  lemma HookOfTopic(app: AppId, h: Hook, t: Topic, on: bool)
    ensures HookTopic(app, h) == Some(t) && TurnsOn(h) == on <==> app == t.app && h == HookOf(t, on)
  {
  }

  /** The event came from the app under its own key, and about a valid channel name. */
  ghost predicate Genuine(e: Event) {
    && HookTopic(e.app, e.hook).Some? && e == FlapEvent(e.app, e.hook)
    && HookTopic(e.app, e.hook).value.Separable()
  }

  ghost predicate AllGenuine(trace: seq<FlapStep>) {
    forall i | 0 <= i < |trace| && trace[i].Arrive? :: Genuine(trace[i].event)
  }

  ghost predicate HoldsGenuine(d: Detector) {
    && (forall i | 0 <= i < |d.sent| :: Genuine(d.sent[i]))
    && (forall h | h in d.timers :: Genuine(d.timers[h].event))
  }

  lemma {:induction false} OfferGenuine(g: Settings, app: AppId, hooks: seq<Hook>, now: int, trace: seq<FlapStep>)
    requires ':' !in app && AllGenuine(trace) && forall h | h in hooks :: CleanHook(h)
    ensures AllGenuine(Offer(g, app, hooks, now, trace))
  {
    if hooks != [] {
      assert hooks[|hooks| - 1] in hooks;
      OfferGenuine(g, app, hooks[..|hooks| - 1], now, trace);
    }
  }

  lemma {:induction false} TraceGenuine(env: map<AppId, Settings>, window: int, actions: seq<Action>)
    requires ColonFree(env)
    ensures AllGenuine(History(env, window, actions).trace)
  {
    if actions != [] {
      var before, a := actions[..|actions| - 1], actions[|actions| - 1];
      TraceGenuine(env, window, before);
      HistoryDelivers(env, window, before);
      var sys := History(env, window, before);
      if CanHappen(window, sys, a) && a.Client? {
        var s := sys.apps[a.app];
        ClientKeepsState(env[a.app], s, a.request);
        OfferGenuine(env[a.app], a.app, NewHooks(s, Step(env[a.app].limits, s, a.request)), a.at, sys.trace);
      }
    }
  }

  lemma {:induction false} DetectorGenuine(window: int, trace: seq<FlapStep>)
    requires AllGenuine(trace)
    ensures HoldsGenuine(After(window, trace))
  {
    hide Genuine;
    if trace != [] {
      var before, step := trace[..|trace| - 1], trace[|trace| - 1];
      assert forall i | 0 <= i < |before| :: before[i] == trace[i];
      DetectorGenuine(window, before);
    }
  }

  lemma DispatchesCountMore(init: seq<Event>, e: Event, d: Q.Dispatch)
    ensures multiset(Q.DispatchesOf(init + [e]))[d]
      == multiset(Q.DispatchesOf(init))[d] + (if Q.Dispatch(e.app, e.hook) == d then 1 else 0)
  {
    hide Q.DispatchesOf;
    Q.DispatchesMore(init, e);
  }

  lemma SentCountMore(init: seq<Event>, e: Event, k: string, on: bool)
    ensures Count(Ups(SentFor(init + [e], k)), on) == Count(Ups(SentFor(init, k)), on)
      + (if e.key == k && (e.kind == EventKind.Connect) == on then 1 else 0)
  {
    hide Count, SentFor;
    var ours := SentFor(init, k);
    SentForAppend(init, e, k);
    if e.key == k {
      assert Ups(ours + [e]) == Ups(ours) + [e.kind == EventKind.Connect];
      CountMore(Ups(ours), on, e.kind == EventKind.Connect);
    } else {
      assert ours + [] == ours;
    }
  }

  /** As many of the events are about t as stand under its key. */
  ghost predicate CountsAgree(sent: seq<Event>, t: Topic, on: bool) {
    multiset(Q.DispatchesOf(sent))[Q.Dispatch(t.app, HookOf(t, on))] == Count(Ups(SentFor(sent, FlapKey(t))), on)
  }

  lemma NothingAgrees(t: Topic, on: bool)
    ensures CountsAgree([], t, on)
  {
    hide FlapKey, HookOf;
  }

  lemma OneMoreAgrees(init: seq<Event>, e: Event, t: Topic, on: bool)
    requires Genuine(e) && t.Separable() && CountsAgree(init, t, on)
    ensures CountsAgree(init + [e], t, on)
  {
    hide Genuine, FlapKey, SentFor, Count, Ups, Q.DispatchesOf, HookOf;
    DispatchesCountMore(init, e, Q.Dispatch(t.app, HookOf(t, on)));
    SentCountMore(init, e, FlapKey(t), on);
    OneMoreDispatch(e, t, on);
  }

  /** Among genuine events, those under the key of a topic are those about it. */
  lemma {:induction false} DispatchCount(sent: seq<Event>, t: Topic, on: bool)
    requires t.Separable() && forall i | 0 <= i < |sent| :: Genuine(sent[i])
    ensures CountsAgree(sent, t, on)
  {
    hide Genuine, CountsAgree;
    if sent == [] {
      NothingAgrees(t, on);
    } else {
      var init, e := sent[..|sent| - 1], sent[|sent| - 1];
      assert Genuine(e) && forall i | 0 <= i < |init| :: init[i] == sent[i];
      DispatchCount(init, t, on);
      assert sent == init + [e];
      OneMoreAgrees(init, e, t, on);
    }
  }

  lemma OneMoreDispatch(e: Event, t: Topic, on: bool)
    requires Genuine(e) && t.Separable()
    ensures e.key == FlapKey(t) && (e.kind == EventKind.Connect) == on <==> e.app == t.app && e.hook == HookOf(t, on)
  {
    HookOfTopic(e.app, e.hook, t, on);
    if e.key == FlapKey(t) { FlapKeyInjective(HookTopic(e.app, e.hook).value, t); }
  }

  lemma {:induction false} DetectableCount(events: seq<Q.Dispatch>, d: Q.Dispatch)
    requires HookTopic(d.app, d.hook).Some?
    ensures multiset(events)[d] == multiset(Q.Detectable(events))[d]
  {
    if events != [] {
      var init, last := events[..|events| - 1], events[|events| - 1];
      assert events == init + [last];
      DetectableCount(init, d);
    }
  }

  // ---------- end to end ----------

  /** How often the endpoint of webhook w was posted that t went on, or off. */
  function Posts(s: R.Queue, encode: Q.Job -> R.Job, w: Q.Webhook, t: Topic, on: bool): nat {
    s.sent[encode(Q.Job(t.app, w, HookOf(t, on)))]
  }

  /** The whole way: in every history, with both switches of a topic on, no timer of the topic live, and the work queue
      drained by any number of workers, each endpoint whose filters accept the channel has been posted "on" more often
      than "off" exactly once if the thing is on, and once more for each request that misinformed about this very topic,
      per configured webhook. `events` is what the queue manager handed on, other kinds of events included. */
  lemma PostsTellTheTruth(env: map<AppId, Settings>, window: int, actions: seq<Action>, t: Topic,
                          apps: map<AppId, Q.App>, events: seq<Q.Dispatch>, encode: Q.Job -> R.Job,
                          wellFormed: R.Job -> bool, k: nat, steps: seq<R.Step>, w: Q.Webhook)
    requires ColonFree(env) && t.app in env && t.Separable() && OnGate(env[t.app], t) && OffGate(env[t.app], t)
    requires NonePending(window, History(env, window, actions), t)
    requires Q.Detectable(events) == Q.DispatchesOf(After(window, History(env, window, actions).trace).sent)
    requires t.app in apps && Q.Accepts(w, t.channel) && Injective(encode) && forall job :: wellFormed(encode(job))
    requires var q := R.Run(wellFormed, k, steps);
      q.queue == [] && q.working == [] && multiset(q.pushed) == multiset(Payloads(Q.JobsOf(apps, events), encode))
    ensures var sys, q := History(env, window, actions), R.Run(wellFormed, k, steps);
      Posts(q, encode, w, t, true) - Posts(q, encode, w, t, false) ==
        (AsInt(Holds(sys.apps[t.app], t)) + Misreports(env, window, actions, t))
        * Q.Configured(apps[t.app].webhooks, w)
  {
    hide History, Dispatched, Holds, Misreports, R.Run, Posts, Q.Configured, Count, Q.DispatchesOf, Q.Detectable, After,
         Q.Accepts, Payloads, Q.JobsOf, Injective;
    var sys, n := History(env, window, actions), Q.Configured(apps[t.app].webhooks, w);
    TopicEndToEnd(env, window, actions, t);
    PostsAreDispatches(env, window, actions, t, apps, events, encode, wellFormed, k, steps, w, true);
    PostsAreDispatches(env, window, actions, t, apps, events, encode, wellFormed, k, steps, w, false);
    Distribute(Count(Dispatched(window, sys, t), true), Count(Dispatched(window, sys, t), false), n);
  }

  lemma Distribute(a: int, b: int, n: int)
    ensures a * n - b * n == (a - b) * n
  {
  }

  /** Each endpoint is posted an event as often as the detector let it through, per configured webhook. */
  lemma PostsAreDispatches(env: map<AppId, Settings>, window: int, actions: seq<Action>, t: Topic,
                           apps: map<AppId, Q.App>, events: seq<Q.Dispatch>, encode: Q.Job -> R.Job,
                           wellFormed: R.Job -> bool, k: nat, steps: seq<R.Step>, w: Q.Webhook, on: bool)
    requires ColonFree(env) && t.Separable()
    requires Q.Detectable(events) == Q.DispatchesOf(After(window, History(env, window, actions).trace).sent)
    requires t.app in apps && Q.Accepts(w, t.channel) && Injective(encode) && forall job :: wellFormed(encode(job))
    requires var q := R.Run(wellFormed, k, steps);
      q.queue == [] && q.working == [] && multiset(q.pushed) == multiset(Payloads(Q.JobsOf(apps, events), encode))
    ensures Posts(R.Run(wellFormed, k, steps), encode, w, t, on) ==
      Count(Dispatched(window, History(env, window, actions), t), on) * Q.Configured(apps[t.app].webhooks, w)
  {
    hide Q.Accepts, History, R.Run, Injective, After, HookOf, Q.JobsOf, Payloads, Posts, Q.Configured;
    var d, trace := Q.Dispatch(t.app, HookOf(t, on)), History(env, window, actions).trace;
    HookOfTopic(t.app, d.hook, t, on);
    PostsPerEvent(apps, events, encode, wellFormed, k, steps, w, t, on);
    TraceGenuine(env, window, actions);
    DetectorGenuine(window, trace);
    DispatchCount(After(window, trace).sent, t, on);
    DetectableCount(events, d);
  }

  // ---------- several nodes ----------

  lemma {:induction false} FleetGenuine(env: map<AppId, Settings>, window: int, size: nat, actions: seq<Deed>)
    requires ColonFree(env)
    ensures forall j: nat | j < size :: AllGenuine(FleetHistory(env, window, size, actions).traces[j])
  {
    hide Genuine, ClusterStep, NodeOk;
    if actions != [] {
      var before, a := actions[..|actions| - 1], actions[|actions| - 1];
      FleetGenuine(env, window, size, before);
      FleetDelivers(env, window, size, before);
      var f := FleetHistory(env, window, size, before);
      if CanBeDone(window, f, a) && a.ClientOn? {
        var nodes := f.apps[a.app];
        var hooks := NewHooks(nodes[a.node], ClusterStep(env[a.app].limits, nodes, a.node, a.request)[a.node]);
        assert forall j: nat | j < size :: NodeOk(nodes[j]);
        StepKeepsNodes(env[a.app], nodes, a.node, a.request);
        OfferGenuine(env[a.app], a.app, hooks, a.at, f.traces[a.node]);
      }
    }
  }

  /** How often the detectors of all nodes together dispatched an event. */
  function Dispatches(window: int, traces: seq<seq<FlapStep>>, d: Q.Dispatch): nat {
    if traces == [] then 0
    else
      Dispatches(window, traces[..|traces| - 1], d)
      + multiset(Q.DispatchesOf(After(window, traces[|traces| - 1]).sent))[d]
  }

  lemma {:induction false} DispatchesBalance(window: int, traces: seq<seq<FlapStep>>, t: Topic)
    requires t.Separable() && forall j: nat | j < |traces| :: AllGenuine(traces[j])
    ensures Dispatches(window, traces, Q.Dispatch(t.app, HookOf(t, true)))
      - Dispatches(window, traces, Q.Dispatch(t.app, HookOf(t, false))) == DispatchedInAll(window, traces, t)
  {
    hide AllGenuine, Q.DispatchesOf, Ups, SentFor, FlapKey, HookOf, Count;
    if traces != [] {
      var n := |traces| - 1;
      DispatchesBalance(window, traces[..n], t);
      assert AllGenuine(traces[n]);
      DetectorGenuine(window, traces[n]);
      DispatchCount(After(window, traces[n]).sent, t, true);
      DispatchCount(After(window, traces[n]).sent, t, false);
    }
  }

  /** The whole way through a cluster: every node has a detector of its own, all of them push to one work queue, and any
      number of workers drain it. Whenever no timer of the topic is live anywhere, each endpoint whose filters accept
      the channel has been posted "on" more often than "off" exactly once if the channel has a subscriber, or the user a
      socket, anywhere in the cluster, and once more for each request that misinformed about this very topic, per
      configured webhook. `events` is what the queue managers of all nodes handed on, in any order. */
  lemma ClusterPostsTellTheTruth(env: map<AppId, Settings>, window: int, size: nat, actions: seq<Deed>, t: Topic,
                                 apps: map<AppId, Q.App>, events: seq<Q.Dispatch>, encode: Q.Job -> R.Job,
                                 wellFormed: R.Job -> bool, k: nat, steps: seq<R.Step>, w: Q.Webhook)
    requires ColonFree(env) && t.app in env && t.Separable() && OnGate(env[t.app], t) && OffGate(env[t.app], t)
    requires NonePendingAnywhere(window, FleetHistory(env, window, size, actions).traces, t)
    requires forall d: Q.Dispatch | HookTopic(d.app, d.hook).Some? ::
      multiset(events)[d] == Dispatches(window, FleetHistory(env, window, size, actions).traces, d)
    requires t.app in apps && Q.Accepts(w, t.channel) && Injective(encode) && forall job :: wellFormed(encode(job))
    requires var q := R.Run(wellFormed, k, steps);
      q.queue == [] && q.working == [] && multiset(q.pushed) == multiset(Payloads(Q.JobsOf(apps, events), encode))
    ensures var f, q := FleetHistory(env, window, size, actions), R.Run(wellFormed, k, steps);
      Posts(q, encode, w, t, true) - Posts(q, encode, w, t, false) ==
        (AsInt(ClusterHolds(f.apps[t.app], t)) + FleetMisreports(env, window, size, actions, t))
        * Q.Configured(apps[t.app].webhooks, w)
  {
    hide FleetHistory, ClusterHolds, FleetMisreports, R.Run, Posts, Q.Configured, Q.Accepts, Payloads, Q.JobsOf,
         Injective, HookOf, NonePendingAnywhere, AllGenuine, Dispatches, DispatchedInAll;
    var traces, n := FleetHistory(env, window, size, actions).traces, Q.Configured(apps[t.app].webhooks, w);
    ClusterEndToEnd(env, window, size, actions, t);
    FleetGenuine(env, window, size, actions);
    DispatchesBalance(window, traces, t);
    PostsPerEvent(apps, events, encode, wellFormed, k, steps, w, t, true);
    PostsPerEvent(apps, events, encode, wellFormed, k, steps, w, t, false);
    var on, off := Q.Dispatch(t.app, HookOf(t, true)), Q.Dispatch(t.app, HookOf(t, false));
    HookOfTopic(t.app, on.hook, t, true);
    HookOfTopic(t.app, off.hook, t, false);
    assert multiset(events)[on] == Dispatches(window, traces, on);
    assert multiset(events)[off] == Dispatches(window, traces, off);
    Distribute(multiset(events)[on], multiset(events)[off], n);
  }

  lemma PostsPerEvent(apps: map<AppId, Q.App>, events: seq<Q.Dispatch>, encode: Q.Job -> R.Job,
                      wellFormed: R.Job -> bool, k: nat, steps: seq<R.Step>, w: Q.Webhook, t: Topic, on: bool)
    requires t.app in apps && Q.Accepts(w, t.channel) && Injective(encode) && forall job :: wellFormed(encode(job))
    requires var q := R.Run(wellFormed, k, steps);
      q.queue == [] && q.working == [] && multiset(q.pushed) == multiset(Payloads(Q.JobsOf(apps, events), encode))
    ensures Posts(R.Run(wellFormed, k, steps), encode, w, t, on)
      == multiset(events)[Q.Dispatch(t.app, HookOf(t, on))] * Q.Configured(apps[t.app].webhooks, w)
  {
    var h := HookOf(t, on);
    HookOfTopic(t.app, h, t, on);
    assert h.channel == t.channel;
    hide Q.Accepts, R.Run, Injective, HookOf, Q.JobsOf, Payloads;
    EveryDispatchIsPosted(apps, events, encode, wellFormed, k, steps, Q.Job(t.app, w, h));
  }
}
