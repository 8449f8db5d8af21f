/** The queue manager as the program keeps it (internal/queues/queueAbstract.go): its gates, the choice of event type
    and key, and the jobs it enqueues for the webhooks of an app. */
module AbstractQueueClass {
  import opened Wrappers
  import opened Names
  import opened Membership
  import opened MembershipEvents
  import opened Flap
  import opened FlapDetectorClass
  import opened Webhooks

  datatype Webhook = Webhook(startsWith: string, endsWith: string)

  datatype App = App(id: AppId, settings: Settings, hasCacheMiss: bool, hasClientEvents: bool, webhooks: seq<Webhook>)

  /** QueuedJobData, without the credentials. */
  datatype Job = Job(app: AppId, webhook: Webhook, hook: Hook)

  predicate EndsWith(s: string, suffix: string) {
    |suffix| <= |s| && s[|s| - |suffix|..] == suffix
  }

  /** An empty filter lets every channel through. */
  predicate Matches(w: Webhook, c: ChannelName) {
    (w.startsWith == "" || w.startsWith <= c) && (w.endsWith == "" || EndsWith(c, w.endsWith))
  }

  /** The channel begins with the one filter and ends with the other. */
  ghost predicate Accepts(w: Webhook, c: ChannelName) {
    (exists rest: string :: c == w.startsWith + rest) && (exists front: string :: c == front + w.endsWith)
  }

  lemma MatchesAccepts(w: Webhook, c: ChannelName)
    ensures Matches(w, c) <==> Accepts(w, c)
  {
    if Matches(w, c) {
      assert c == w.startsWith + c[|w.startsWith|..];
      assert c == c[..|c| - |w.endsWith|] + w.endsWith;
    }
    if Accepts(w, c) {
      var rest: string :| c == w.startsWith + rest;
      var front: string :| c == front + w.endsWith;
      assert c[|c| - |w.endsWith|..] == w.endsWith;
    }
  }

  /** One job for each webhook whose filter accepts the channel, in the order of the app's webhooks. */
  function JobsFor(app: AppId, webhooks: seq<Webhook>, h: Hook): seq<Job> {
    if webhooks == [] then []
    else
      var rest, w := JobsFor(app, webhooks[..|webhooks| - 1], h), webhooks[|webhooks| - 1];
      if Matches(w, h.channel) then rest + [Job(app, w, h)] else rest
  }

  function Configured(webhooks: seq<Webhook>, w: Webhook): nat {
    multiset(webhooks)[w]
  }

  /** Each webhook gets the event as often as it is configured if the channel begins and ends as its filters say, and
      otherwise never. */
  lemma {:induction false} EachMatchingWebhookOnce(app: AppId, webhooks: seq<Webhook>, h: Hook, j: Job)
    ensures multiset(JobsFor(app, webhooks, h))[j] ==
      if j.app == app && j.hook == h && Accepts(j.webhook, h.channel) then Configured(webhooks, j.webhook) else 0
  {
    hide Matches, Accepts;
    if webhooks != [] {
      var init, w := webhooks[..|webhooks| - 1], webhooks[|webhooks| - 1];
      assert webhooks == init + [w];
      EachMatchingWebhookOnce(app, init, h, j);
      MatchesAccepts(w, h.channel);
    }
  }

  /** A job is enqueued for exactly those configured webhooks whose filters begin and end the channel's name. */
  lemma JobIffAccepted(app: AppId, webhooks: seq<Webhook>, h: Hook, w: Webhook)
    ensures Job(app, w, h) in JobsFor(app, webhooks, h) <==>
      && w in webhooks
      && (exists rest: string :: h.channel == w.startsWith + rest)
      && (exists front: string :: h.channel == front + w.endsWith)
  {
    EachMatchingWebhookOnce(app, webhooks, h, Job(app, w, h));
    assert w in webhooks <==> w in multiset(webhooks);
    assert Job(app, w, h) in JobsFor(app, webhooks, h) <==> Job(app, w, h) in multiset(JobsFor(app, webhooks, h));
  }

  /** An event that goes to the webhooks of an app. */
  datatype Dispatch = Dispatch(app: AppId, hook: Hook)

  /** The jobs of these events, in order. */
  function JobsOf(apps: map<AppId, App>, events: seq<Dispatch>): seq<Job> {
    if events == [] then []
    else
      var init, last := events[..|events| - 1], events[|events| - 1];
      JobsOf(apps, init) + (if last.app in apps then JobsFor(last.app, apps[last.app].webhooks, last.hook) else [])
  }

  lemma JobsOfMore(apps: map<AppId, App>, events: seq<Dispatch>, app: AppId, h: Hook)
    requires app in apps
    ensures JobsOf(apps, events + [Dispatch(app, h)]) == JobsOf(apps, events) + JobsFor(app, apps[app].webhooks, h)
  {
    assert (events + [Dispatch(app, h)])[..|events|] == events;
  }

  /** Those of the kinds that the flap detector handles. */
  function Detectable(events: seq<Dispatch>): seq<Dispatch> {
    if events == [] then []
    else
      var rest, last := Detectable(events[..|events| - 1]), events[|events| - 1];
      if HookTopic(last.app, last.hook).Some? then rest + [last] else rest
  }

  lemma DetectableMore(events: seq<Dispatch>, d: Dispatch)
    ensures Detectable(events + [d]) == Detectable(events) + (if HookTopic(d.app, d.hook).Some? then [d] else [])
  {
    assert (events + [d])[..|events|] == events;
  }

  /** What the detector dispatched. */
  function DispatchesOf(sent: seq<Event>): seq<Dispatch> {
    seq(|sent|, i requires 0 <= i < |sent| => Dispatch(sent[i].app, sent[i].hook))
  }

  lemma DispatchesMore(sent: seq<Event>, e: Event)
    ensures DispatchesOf(sent + [e]) == DispatchesOf(sent) + [Dispatch(e.app, e.hook)]
  {
  }

  class AbstractQueue {
    const flapDetector: FlapDetector
    const hasSender: bool
    const apps: map<AppId, App>
    var queue: seq<Job> // what addToQueue received
    ghost var trace: seq<FlapStep>
    ghost var handed: seq<Dispatch> // the events whose jobs were enqueued

    constructor (hasSender: bool, apps: map<AppId, App>, enableFlapDetection: bool, windowInSeconds: int)
      requires forall id | id in apps :: apps[id].id == id
      ensures Valid() && queue == [] && trace == [] && handed == [] && fresh(flapDetector)
      ensures this.hasSender == hasSender && this.apps == apps && flapDetector.enabled == enableFlapDetection
    {
      this.hasSender, this.apps := hasSender, apps;
      flapDetector := new FlapDetector(enableFlapDetection, windowInSeconds);
      queue, trace, handed := [], [], [];
    }

    /** The detector is where its trace leads, every event it holds belongs to a known app; the queue holds the jobs of
        the events handed on so far; and with detection on those of its kinds are what it dispatched, in order. */
    ghost predicate Valid()
      reads this, flapDetector
    {
      && (forall id | id in apps :: apps[id].id == id)
      && flapDetector.HandlesIssued() && flapDetector.steps == |trace|
      && TraceOk(flapDetector.window, trace) && flapDetector.View() == After(flapDetector.window, trace)
      && (forall handle | handle in flapDetector.timers :: Detects(flapDetector.timers[handle].event))
      && (!flapDetector.enabled ==> trace == [])
      && queue == JobsOf(apps, handed)
      && (flapDetector.enabled ==> Detectable(handed) == DispatchesOf(flapDetector.dispatched))
    }

    predicate Detects(e: Event) {
      e.app in apps && HookTopic(e.app, e.hook).Some?
    }

    /** A closed gate lets nothing through. An event that passes goes to the detector if it is one of the four it
        handles, and straight to the queue otherwise. */
    twostate predicate HandedOver(app: App, h: Hook, open: bool, now: int)
      reads this, flapDetector
    {
      if !open then
        queue == old(queue) && handed == old(handed) && trace == old(trace)
      else if flapDetector.enabled && HookTopic(app.id, h).Some? then
        && queue == old(queue) && handed == old(handed)
        && trace == old(trace) + [Arrive(FlapEvent(app.id, h), now, |old(trace)|)]
      else
        && queue == old(queue) + JobsFor(app.id, app.webhooks, h) && handed == old(handed) + [Dispatch(app.id, h)]
        && trace == old(trace)
    }

    // ---------- the Send* methods ----------

    method SendChannelOccupied(app: App, c: ChannelName, now: int)
      requires Valid() && app.id in apps && apps[app.id] == app
      modifies this, flapDetector
      ensures Valid()
      ensures HandedOver(app, ChannelOccupied(c), hasSender && app.settings.enabled && app.settings.hasOccupied, now)
    {
      if app.settings.hasOccupied {
        Send(app, ChannelOccupied(c), now);
      }
    }

    method SendChannelVacated(app: App, c: ChannelName, now: int)
      requires Valid() && app.id in apps && apps[app.id] == app
      modifies this, flapDetector
      ensures Valid()
      ensures HandedOver(app, ChannelVacated(c), hasSender && app.settings.enabled && app.settings.hasVacated, now)
    {
      if app.settings.hasVacated {
        Send(app, ChannelVacated(c), now);
      }
    }

    method SendMemberAdded(app: App, c: ChannelName, user: UserId, now: int)
      requires Valid() && app.id in apps && apps[app.id] == app
      modifies this, flapDetector
      ensures Valid()
      ensures HandedOver(app, UserAdded(c, user), hasSender && app.settings.enabled && app.settings.hasAdded, now)
    {
      if app.settings.hasAdded {
        Send(app, UserAdded(c, user), now);
      }
    }

    method SendMemberRemoved(app: App, c: ChannelName, user: UserId, now: int)
      requires Valid() && app.id in apps && apps[app.id] == app
      modifies this, flapDetector
      ensures Valid()
      ensures HandedOver(app, UserRemoved(c, user), hasSender && app.settings.enabled && app.settings.hasRemoved, now)
    {
      if app.settings.hasRemoved {
        Send(app, UserRemoved(c, user), now);
      }
    }

    method SendCacheMissed(app: App, c: ChannelName, now: int)
      requires Valid() && app.id in apps && apps[app.id] == app
      modifies this, flapDetector
      ensures Valid()
      ensures HandedOver(app, CacheMissed(c), hasSender && app.settings.enabled && app.hasCacheMiss, now)
    {
      if app.hasCacheMiss {
        Send(app, CacheMissed(c), now);
      }
    }

    method SendClientEvent(app: App, c: ChannelName, event: string, data: string, socket: SocketId, user: UserId,
                           now: int)
      requires Valid() && app.id in apps && apps[app.id] == app
      modifies this, flapDetector
      ensures Valid()
      ensures HandedOver(app, ClientEvent(c, event, data, socket, user),
                         hasSender && app.settings.enabled && app.hasClientEvents, now)
    {
      if app.hasClientEvents {
        Send(app, ClientEvent(c, event, data, socket, user), now);
      }
    }

    // ---------- routing ----------

    method Send(app: App, h: Hook, now: int)
      requires Valid() && app.id in apps && apps[app.id] == app
      modifies this, flapDetector
      ensures Valid() && HandedOver(app, h, hasSender && app.settings.enabled, now)
    {
      if !hasSender || !app.settings.enabled {
        return;
      }
      var eventType := EventKind.Connect;
      var key := "";
      var useFlapDetection := true;
      if flapDetector.enabled {
        match h {
          case ChannelOccupied(c) =>
            eventType := EventKind.Connect;
            key := OccupancyKey(app.id, c);
          case ChannelVacated(c) =>
            eventType := EventKind.Disconnect;
            key := OccupancyKey(app.id, c);
          case UserAdded(c, u) =>
            eventType := EventKind.Connect;
            key := MemberKey(app.id, c, u);
          case UserRemoved(c, u) =>
            eventType := EventKind.Disconnect;
            key := MemberKey(app.id, c, u);
          case _ =>
            useFlapDetection := false;
        }
      } else {
        useFlapDetection := false;
      }
      if useFlapDetection {
        KeysAsFormatted(app.id, h);
        Detect(app, h, Event(key, eventType, app.id, h), now);
      } else {
        JobsOfMore(apps, handed, app.id, h);
        DetectableMore(handed, Dispatch(app.id, h));
        PrepareQueuedMessages(app, h);
        handed := handed + [Dispatch(app.id, h)];
      }
    }

    method Detect(app: App, h: Hook, e: Event, now: int)
      requires Valid() && app.id in apps && apps[app.id] == app && flapDetector.enabled
      requires HookTopic(app.id, h).Some? && e == FlapEvent(app.id, h)
      modifies this`trace, flapDetector
      ensures Valid() && HandedOver(app, h, true, now)
    {
      ExtendTrace(flapDetector.window, trace, Arrive(e, now, |trace|));
      flapDetector.CheckForFlapping(e, now);
      trace := trace + [Arrive(e, now, |trace|)];
    }

    /** One job for each webhook whose channel filters accept the event. */
    method PrepareQueuedMessages(app: App, h: Hook)
      modifies this`queue
      ensures queue == old(queue) + JobsFor(app.id, app.webhooks, h)
      ensures forall w: Webhook ::
        Job(app.id, w, h) in queue[|old(queue)|..] <==> w in app.webhooks && Accepts(w, h.channel)
    {
      for i := 0 to |app.webhooks|
        invariant queue == old(queue) + JobsFor(app.id, app.webhooks[..i], h)
      {
        var webhook := app.webhooks[i];
        assert app.webhooks[..i + 1][..i] == app.webhooks[..i];
        if webhook.startsWith != "" && !(webhook.startsWith <= h.channel) {
          continue;
        }
        if webhook.endsWith != "" && !EndsWith(h.channel, webhook.endsWith) {
          continue;
        }
        queue := queue + [Job(app.id, webhook, h)];
      }
      assert app.webhooks[..|app.webhooks|] == app.webhooks;
      forall w: Webhook
        ensures Job(app.id, w, h) in queue[|old(queue)|..] <==> w in app.webhooks && Accepts(w, h.channel)
      {
        JobIffAccepted(app.id, app.webhooks, h, w);
      }
    }

    /** A timer goes off: the event is enqueued and whatever waits under its key is forgotten. */
    method TimerFires(handle: nat, ghost now: int)
      requires Valid() && flapDetector.enabled && handle in flapDetector.timers
      requires flapDetector.timers[handle].deadline <= now
      modifies this, flapDetector
      ensures Valid()
      ensures var e := old(flapDetector.timers)[handle].event;
        && trace == old(trace) + [Fire(e.key, now, handle)]
        && handed == old(handed) + [Dispatch(e.app, e.hook)]
        && queue == old(queue) + JobsFor(e.app, apps[e.app].webhooks, e.hook)
    {
      ghost var key := flapDetector.timers[handle].event.key;
      ExtendTrace(flapDetector.window, trace, Fire(key, now, handle));
      ghost var sent := flapDetector.dispatched;
      var e := flapDetector.TimerCallback(handle);
      trace := trace + [Fire(key, now, handle)];
      JobsOfMore(apps, handed, e.app, e.hook);
      DetectableMore(handed, Dispatch(e.app, e.hook));
      DispatchesMore(sent, e);
      PrepareQueuedMessages(apps[e.app], e.hook);
      handed := handed + [Dispatch(e.app, e.hook)];
    }
  }

  function OccupancyKey(app: AppId, c: ChannelName): string {
    "app:" + app + ":channel:" + c
  }

  function MemberKey(app: AppId, c: ChannelName, u: UserId): string {
    "app:" + app + ":channel:" + c + ":member:" + u
  }

  lemma Regrouped(p: string, a: string, s: string, b: string, t: string, c: string)
    ensures p + (a + s + b + t + c) == p + a + s + b + t + c
  {
    assert p + (a + s) == p + a + s;
    assert p + (a + s + b) == p + (a + s) + b;
    assert p + (a + s + b + t) == p + (a + s + b) + t;
  }

  /** Where an app id may contain ':' two different topics share a key, since user ids are arbitrary. */
  lemma ColonsCollide(app: AppId, c: ChannelName, u: UserId, c': ChannelName, v: UserId)
    ensures MemberKey(app, c, u + ":channel:" + c' + ":member:" + v)
      == MemberKey(app + ":channel:" + c + ":member:" + u, c', v)
  {
    var s, t := ":channel:", ":member:";
    Regrouped("app:" + app + s + c + t, u, s, c', t, v);
    Regrouped("app:", app, s, c, t, u);
  }

  /** The two formats are those of FlapKey. */
  lemma KeysAsFormatted(app: AppId, h: Hook)
    requires HookTopic(app, h).Some?
    ensures FlapKey(HookTopic(app, h).value) ==
      if h.ChannelOccupied? || h.ChannelVacated? then OccupancyKey(app, h.channel)
      else MemberKey(app, h.channel, h.user)
  {
    AfterAppFormatted(app, h.channel);
    if !(h.ChannelOccupied? || h.ChannelVacated?) {
      AfterAppFormatted(app, h.channel + [':'] + ("member:" + h.user));
      assert h.channel + [':'] + ("member:" + h.user) == h.channel + ":member:" + h.user;
      assert "app:" + app + ":channel:" + (h.channel + ":member:" + h.user) == MemberKey(app, h.channel, h.user);
    }
  }

  lemma AfterAppFormatted(app: AppId, rest: string)
    ensures "app:" + (app + [':'] + ("channel:" + rest)) == "app:" + app + ":channel:" + rest
  {
    assert [':'] + ("channel:" + rest) == ":channel:" + rest;
  }

  /** The traces of Webhooks.dfy grow in the same way: the detector is offered an event if the gates of its type are
      open. */
  lemma OfferOne(g: Settings, app: AppId, h: Hook, now: int, trace: seq<FlapStep>)
    ensures Offer(g, app, [h], now, trace) ==
      if g.enabled && ((h.ChannelOccupied? && g.hasOccupied) || (h.ChannelVacated? && g.hasVacated)
                       || (h.UserAdded? && g.hasAdded) || (h.UserRemoved? && g.hasRemoved))
      then trace + [Arrive(FlapEvent(app, h), now, |trace|)] else trace
  {
    assert [h][..0] == [];
    assert Offer(g, app, [], now, trace) == trace;
  }
}
