/** What the per-app switches let through in every history, what happens when only one of a pair is on, and exactly
    which events of a topic get past the detector (internal/queues/queueAbstract.go,
    internal/queues/flapDetector.go). */
module WebhookGates {
  import opened Wrappers
  import opened Names
  import opened Alternation
  import opened Membership
  import opened MembershipEvents
  import opened Flap
  import opened FlapBursts
  import opened Webhooks

  // ---------- nothing passes a closed gate ----------

  ghost predicate Gated(env: map<AppId, Settings>, e: Event) {
    e.app in env && Offered(env[e.app], e.hook) && e == FlapEvent(e.app, e.hook)
  }

  ghost predicate AllGated(env: map<AppId, Settings>, trace: seq<FlapStep>) {
    forall i | 0 <= i < |trace| && trace[i].Arrive? :: Gated(env, trace[i].event)
  }

  ghost predicate HoldsGated(env: map<AppId, Settings>, d: Detector) {
    && (forall i | 0 <= i < |d.sent| :: Gated(env, d.sent[i]))
    && (forall h | h in d.timers :: Gated(env, d.timers[h].event))
  }

  lemma {:induction false} OfferGated(env: map<AppId, Settings>, app: AppId, hooks: seq<Hook>, now: int,
                                      trace: seq<FlapStep>)
    requires app in env && AllGated(env, trace)
    ensures AllGated(env, Offer(env[app], app, hooks, now, trace))
  {
    if hooks != [] {
      OfferGated(env, app, hooks[..|hooks| - 1], now, trace);
    }
  }

  lemma {:induction false} TraceGated(env: map<AppId, Settings>, window: int, actions: seq<Action>)
    ensures AllGated(env, History(env, window, actions).trace)
  {
    if actions != [] {
      var before, a := actions[..|actions| - 1], actions[|actions| - 1];
      TraceGated(env, window, before);
      var sys := History(env, window, before);
      if CanHappen(window, sys, a) && a.Client? {
        var s := sys.apps[a.app];
        OfferGated(env, a.app, NewHooks(s, Step(env[a.app].limits, s, a.request)), a.at, sys.trace);
      }
    }
  }

  lemma {:induction false} DetectorGated(env: map<AppId, Settings>, window: int, trace: seq<FlapStep>)
    requires AllGated(env, trace)
    ensures HoldsGated(env, After(window, trace))
  {
    if trace != [] {
      var before, step := trace[..|trace| - 1], trace[|trace| - 1];
      assert forall i | 0 <= i < |before| :: before[i] == trace[i];
      DetectorGated(env, window, before);
    }
  }

  /** In every history, whatever the clients do, a dispatched webhook is one that its app has switched on, both webhooks
      as such and the type of the event. */
  lemma GatesRespected(env: map<AppId, Settings>, window: int, actions: seq<Action>, i: nat)
    requires i < |After(window, History(env, window, actions).trace).sent|
    ensures var e := After(window, History(env, window, actions).trace).sent[i];
      && e.app in env && env[e.app].enabled
      && (match e.hook
          case ChannelOccupied(_) => env[e.app].hasOccupied && e.kind == EventKind.Connect
          case ChannelVacated(_) => env[e.app].hasVacated && e.kind == EventKind.Disconnect
          case UserAdded(_, _) => env[e.app].hasAdded && e.kind == EventKind.Connect
          case UserRemoved(_, _) => env[e.app].hasRemoved && e.kind == EventKind.Disconnect
          case _ => false)
  {
    TraceGated(env, window, actions);
    DetectorGated(env, window, History(env, window, actions).trace);
    assert Gated(env, After(window, History(env, window, actions).trace).sent[i]);
  }

  // ---------- one of two switches ----------

  lemma {:induction false} NoneOtherwise(turns: seq<bool>, b: bool)
    requires Count(turns, !b) == 0
    ensures Count(turns, b) == |turns| && forall i | 0 <= i < |turns| :: turns[i] == b
  {
    if turns != [] { NoneOtherwise(turns[..|turns| - 1], b); }
  }

  lemma ConstantAlternates(turns: seq<bool>, b: bool)
    requires forall i | 0 <= i < |turns| :: turns[i] == b
    ensures Alternates(turns) <==> |turns| <= (if b then 1 else 0)
  {
    assert |turns| > 0 ==> turns[0] == b;
    assert |turns| > 1 ==> turns[1] == b;
  }

  /** In every history: if only one of the two switches of a topic is on, the detector cancels nothing for it, and once
      no timer of the topic is live every event of the one type that was emitted was dispatched. So the webhooks
      alternate if and only if at most one "on" event, or no "off" event, was emitted; the detector then smooths
      nothing. */
  lemma OneSwitch(env: map<AppId, Settings>, window: int, actions: seq<Action>, t: Topic)
    requires ColonFree(env) && t.app in env && t.Separable() && OnGate(env[t.app], t) != OffGate(env[t.app], t)
    ensures var sys, on := History(env, window, actions), OnGate(env[t.app], t);
      var turns := Turns(t.app, sys.apps[t.app].emitted, t);
      && CancelledPairs(window, sys.trace, FlapKey(t)) == 0
      && Count(Dispatched(window, sys, t), !on) == 0
      && (NonePending(window, sys, t) ==>
            && Count(Dispatched(window, sys, t), on) == Count(turns, on)
            && (Alternates(Dispatched(window, sys, t)) <==> Count(turns, on) <= (if on then 1 else 0)))
  {
    var sys, on := History(env, window, actions), OnGate(env[t.app], t);
    var turns := Turns(t.app, sys.apps[t.app].emitted, t);
    HistoryDelivers(env, window, actions);
    assert Delivered(env, sys, t);
    ThroughCounts(env[t.app], t, turns, on);
    ThroughCounts(env[t.app], t, turns, !on);
    hide Count, Through, History, Turns, FlapKey, Alternates;
    OneKindNeverCancels(window, sys.trace, FlapKey(t), on);
    NoneOtherwise(Dispatched(window, sys, t), on);
    ConstantAlternates(Dispatched(window, sys, t), on);
  }

  // ---------- exactly which events get past ----------

  lemma AlternatingToggles(a: seq<Arrival>)
    requires Alternates(ArrivalUps(a))
    ensures Toggles(a)
  {
    forall i | 0 < i < |a| ensures a[i].event.kind != a[i - 1].event.kind {
      assert ArrivalUps(a)[i] == (a[i].event.kind == EventKind.Connect);
      assert ArrivalUps(a)[i - 1] == (a[i - 1].event.kind == EventKind.Connect);
    }
  }

  lemma WellInformedToggles(env: map<AppId, Settings>, window: int, actions: seq<Action>, t: Topic)
    requires ColonFree(env) && t.app in env && t.Separable() && OnGate(env[t.app], t) && OffGate(env[t.app], t)
    requires Misreports(env, window, actions, t) == 0
    ensures var trace := History(env, window, actions).trace;
      Legal(window, trace) && Toggles(Arrivals(trace, FlapKey(t)))
  {
    var sys := History(env, window, actions);
    HistoryDelivers(env, window, actions);
    HistoryTells(env, window, actions, t);
    assert Delivered(env, sys, t);
    ThroughBoth(env[t.app], t, Turns(t.app, sys.apps[t.app].emitted, t));
    hide Misreports, History, Turns, FlapKey, Clean, Holds, Through, Alternates;
    AlternatingToggles(Arrivals(sys.trace, FlapKey(t)));
  }

  /** Unless a request misinformed about the topic, and whatever the timer delays, the dispatched events are exactly
      those kept by the one-slot scan of what the detector received and of when the timers of the topic fired. */
  lemma TopicScanned(env: map<AppId, Settings>, window: int, actions: seq<Action>, t: Topic)
    requires ColonFree(env) && t.app in env && t.Separable() && OnGate(env[t.app], t) && OffGate(env[t.app], t)
    requires Misreports(env, window, actions, t) == 0
    ensures var trace, k := History(env, window, actions).trace, FlapKey(t);
      && SentFor(After(window, trace).sent, k) == Scan(trace, k).kept
      && Waiting(After(window, trace), k) == Scan(trace, k).waiting
  {
    WellInformedToggles(env, window, actions, t);
    DetectorScans(window, History(env, window, actions).trace, FlapKey(t));
  }

  /** If moreover the timers of the topic are prompt, the webhooks are the last changes of its bursts of odd length: a
      burst that ends where it began is never seen, and no change that lasts longer than the window is lost. */
  lemma TopicPrompt(env: map<AppId, Settings>, window: int, actions: seq<Action>, t: Topic)
    requires ColonFree(env) && t.app in env && t.Separable() && OnGate(env[t.app], t) && OffGate(env[t.app], t)
    requires Misreports(env, window, actions, t) == 0
    requires window > 0 && PromptFor(window, History(env, window, actions).trace, FlapKey(t))
    ensures var trace, k := History(env, window, actions).trace, FlapKey(t);
      var d, a := After(window, trace), Arrivals(trace, k);
      && SentFor(d.sent, k) + Waiting(d, k) == OddBurstEnds(a, window, |a|)
      && (LiveTimers(d, k) == {} ==> SentFor(d.sent, k) == OddBurstEnds(a, window, |a|))
  {
    WellInformedToggles(env, window, actions, t);
    DispatchesOddBurstEnds(window, History(env, window, actions).trace, FlapKey(t));
  }
}
