/** The flap detector (internal/queues/flapDetector.go): an event waits for a window before it is dispatched, and the
    opposite event for the same key arriving meanwhile cancels both. The clock and the runtime's timers are explicit. */
module Flap {
  import opened Names
  import opened Membership

  datatype EventKind = Connect | Disconnect

  datatype Event = Event(key: string, kind: EventKind, app: AppId, hook: Hook)

  datatype Timer = Timer(event: Event, deadline: int)

  datatype Pending = Pending(kind: EventKind, timer: nat)

  /** `timers` are the runtime's live timers by handle, `sent` the events dispatched so far. */
  datatype Detector = Detector(window: int, pending: map<string, Pending>, timers: map<nat, Timer>, sent: seq<Event>)

  function Opposite(kind: EventKind): EventKind {
    if kind == EventKind.Disconnect then EventKind.Connect else EventKind.Disconnect
  }

  // ---------- the two atomic steps ----------

  predicate Flaps(d: Detector, e: Event) {
    e.key in d.pending && d.pending[e.key].kind == Opposite(e.kind)
  }

  /** CheckForFlapping with detection enabled; `handle` names the timer the runtime would start. */
  function Check(d: Detector, e: Event, now: int, handle: nat): Detector {
    if Flaps(d, e) then
      d.(pending := d.pending - {e.key}, timers := d.timers - {d.pending[e.key].timer})
    else
      d.(pending := d.pending[e.key := Pending(e.kind, handle)], timers := d.timers[handle := Timer(e, now + d.window)])
  }

  /** The timer callback: dispatch, then delete whatever is pending for the key. */
  function Expire(d: Detector, handle: nat): Detector
    requires handle in d.timers
  {
    var e := d.timers[handle].event;
    d.(sent := d.sent + [e], timers := d.timers - {handle}, pending := d.pending - {e.key})
  }

  // ---------- runs ----------

  datatype FlapStep = Arrive(event: Event, now: int, handle: nat) | Fire(key: string, now: int, handle: nat)

  function KeyOf(step: FlapStep): string {
    if step.Arrive? then step.event.key else step.key
  }

  /** A new timer gets a handle no live timer has; a timer fires at or after its deadline. */
  predicate Possible(d: Detector, step: FlapStep) {
    match step
    case Arrive(_, _, handle) => handle !in d.timers
    case Fire(key, now, handle) =>
      handle in d.timers && d.timers[handle].event.key == key && d.timers[handle].deadline <= now
  }

  function Apply(d: Detector, step: FlapStep): Detector
    requires Possible(d, step)
  {
    match step
    case Arrive(e, now, handle) => Check(d, e, now, handle)
    case Fire(_, _, handle) => Expire(d, handle)
  }

  function Start(window: int): Detector {
    Detector(window, map[], map[], [])
  }

  /** The detector after a trace; impossible steps are skipped. */
  function After(window: int, trace: seq<FlapStep>): Detector {
    if trace == [] then Start(window)
    else
      var d, step := After(window, trace[..|trace| - 1]), trace[|trace| - 1];
      if Possible(d, step) then Apply(d, step) else d
  }

  predicate Legal(window: int, trace: seq<FlapStep>) {
    trace == []
    || (Legal(window, trace[..|trace| - 1]) && Possible(After(window, trace[..|trace| - 1]), trace[|trace| - 1]))
  }

  lemma ExtendTrace(window: int, trace: seq<FlapStep>, step: FlapStep)
    ensures After(window, trace + [step]) ==
      if Possible(After(window, trace), step) then Apply(After(window, trace), step) else After(window, trace)
    ensures Legal(window, trace + [step]) <==> Legal(window, trace) && Possible(After(window, trace), step)
  {
    assert (trace + [step])[..|trace|] == trace;
  }

  // ---------- pending entries are backed by live timers ----------

  ghost predicate Backed(d: Detector) {
    forall k | k in d.pending ::
      && d.pending[k].timer in d.timers
      && d.timers[d.pending[k].timer].event.key == k
      && d.timers[d.pending[k].timer].event.kind == d.pending[k].kind
  }

  /** On every trace, even one where an entry was overwritten or deleted by an older timer. */
  lemma {:induction false} AlwaysBacked(window: int, trace: seq<FlapStep>)
    ensures Backed(After(window, trace)) && After(window, trace).window == window
  {
    if trace != [] { AlwaysBacked(window, trace[..|trace| - 1]); }
  }

  // ---------- conservation ----------

  /** How many events of one type were accepted for a key. */
  function Accepted(trace: seq<FlapStep>, k: string, kind: EventKind): nat {
    if trace == [] then 0
    else
      var step := trace[|trace| - 1];
      Accepted(trace[..|trace| - 1], k, kind)
      + (if step.Arrive? && step.event.key == k && step.event.kind == kind then 1 else 0)
  }

  /** How many accepted events cancelled a waiting one. */
  function CancelledPairs(window: int, trace: seq<FlapStep>, k: string): nat {
    if trace == [] then 0
    else
      var d, step := After(window, trace[..|trace| - 1]), trace[|trace| - 1];
      CancelledPairs(window, trace[..|trace| - 1], k)
      + (if step.Arrive? && step.event.key == k && Flaps(d, step.event) then 1 else 0)
  }

  function SentFor(sent: seq<Event>, k: string): seq<Event> {
    if sent == [] then []
    else
      var rest := SentFor(sent[..|sent| - 1], k);
      if sent[|sent| - 1].key == k then rest + [sent[|sent| - 1]] else rest
  }

  lemma SentForAppend(sent: seq<Event>, e: Event, k: string)
    ensures SentFor(sent + [e], k) == SentFor(sent, k) + (if e.key == k then [e] else [])
  {
    assert (sent + [e])[..|sent|] == sent;
  }

  /** How many of these events are of one type. */
  function CountKind(events: seq<Event>, kind: EventKind): nat {
    if events == [] then 0
    else CountKind(events[..|events| - 1], kind) + (if events[|events| - 1].kind == kind then 1 else 0)
  }

  lemma CountKindAppend(events: seq<Event>, e: Event, kind: EventKind)
    ensures CountKind(events + [e], kind) == CountKind(events, kind) + (if e.kind == kind then 1 else 0)
  {
    assert (events + [e])[..|events|] == events;
  }

  function LiveTimers(d: Detector, k: string): set<nat> {
    set h | h in d.timers && d.timers[h].event.key == k
  }

  function LiveOf(d: Detector, k: string, kind: EventKind): set<nat> {
    set h | h in d.timers && d.timers[h].event.key == k && d.timers[h].event.kind == kind
  }

  function InHand(d: Detector, k: string, kind: EventKind): nat {
    CountKind(SentFor(d.sent, k), kind) + |LiveOf(d, k, kind)|
  }

  lemma ArriveConserves(d: Detector, e: Event, now: int, handle: nat, k: string, kind: EventKind)
    requires Backed(d) && handle !in d.timers
    ensures InHand(Check(d, e, now, handle), k, kind) + (if e.key == k && Flaps(d, e) then 1 else 0)
      == InHand(d, k, kind) + (if e.key == k && e.kind == kind then 1 else 0)
  {
    var d' := Check(d, e, now, handle);
    assert d'.sent == d.sent;
    if Flaps(d, e) {
      TimerRemoved(d, d', d.pending[e.key].timer, k, kind);
    } else {
      TimerAdded(d, d', handle, Timer(e, now + d.window), k, kind);
    }
  }

  lemma TimerAdded(d: Detector, d': Detector, h: nat, t: Timer, k: string, kind: EventKind)
    requires h !in d.timers && d'.timers == d.timers[h := t]
    ensures |LiveOf(d', k, kind)| == |LiveOf(d, k, kind)| + (if t.event.key == k && t.event.kind == kind then 1 else 0)
  {
    OneMore(LiveOf(d, k, kind), LiveOf(d', k, kind), h, t.event.key == k && t.event.kind == kind);
  }

  lemma OneMore(before: set<nat>, after: set<nat>, h: nat, added: bool)
    requires h !in before && forall x: nat :: x in after <==> x in before || (x == h && added)
    ensures |after| == |before| + (if added then 1 else 0)
  {
    assert after == before + (if added then {h} else {});
  }

  lemma TimerRemoved(d: Detector, d': Detector, h: nat, k: string, kind: EventKind)
    requires h in d.timers && d'.timers == d.timers - {h}
    ensures var e := d.timers[h].event;
      |LiveOf(d, k, kind)| == |LiveOf(d', k, kind)| + (if e.key == k && e.kind == kind then 1 else 0)
  {
    assert d.timers == d'.timers[h := d.timers[h]];
    TimerAdded(d', d, h, d.timers[h], k, kind);
  }

  lemma FireConserves(d: Detector, handle: nat, k: string, kind: EventKind)
    requires handle in d.timers
    ensures InHand(Expire(d, handle), k, kind) == InHand(d, k, kind)
  {
    var e := d.timers[handle].event;
    SentForAppend(d.sent, e, k);
    CountKindAppend(SentFor(d.sent, k), e, kind);
    TimerRemoved(d, Expire(d, handle), handle, k, kind);
  }

  /** No event is lost or duplicated, on arbitrary input: each accepted event of a type was dispatched, still has a live
      timer (whether or not its pending entry survives), or went away in a cancelled pair, one of each type. */
  lemma {:induction false} ConservationByKind(window: int, trace: seq<FlapStep>, k: string, kind: EventKind)
    requires Legal(window, trace)
    ensures var d := After(window, trace);
      Accepted(trace, k, kind)
        == CountKind(SentFor(d.sent, k), kind) + |LiveOf(d, k, kind)| + CancelledPairs(window, trace, k)
  {
    if trace != [] {
      var before, step := trace[..|trace| - 1], trace[|trace| - 1];
      ConservationByKind(window, before, k, kind);
      AlwaysBacked(window, before);
      var d := After(window, before);
      match step
      case Arrive(e, now, handle) => ArriveConserves(d, e, now, handle, k, kind);
      case Fire(_, _, handle) => FireConserves(d, handle, k, kind);
    }
  }

  lemma {:induction false} BothKinds(events: seq<Event>)
    ensures |events| == CountKind(events, EventKind.Connect) + CountKind(events, EventKind.Disconnect)
  {
    if events != [] { BothKinds(events[..|events| - 1]); }
  }

  /** Both types together: accepted = dispatched + live timers + 2 x cancelled pairs. */
  lemma Conservation(window: int, trace: seq<FlapStep>, k: string)
    requires Legal(window, trace)
    ensures var d := After(window, trace);
      Accepted(trace, k, EventKind.Connect) + Accepted(trace, k, EventKind.Disconnect)
        == |SentFor(d.sent, k)| + |LiveTimers(d, k)| + 2 * CancelledPairs(window, trace, k)
  {
    var d := After(window, trace);
    ConservationByKind(window, trace, k, EventKind.Connect);
    ConservationByKind(window, trace, k, EventKind.Disconnect);
    BothKinds(SentFor(d.sent, k));
    assert LiveTimers(d, k) == LiveOf(d, k, EventKind.Connect) + LiveOf(d, k, EventKind.Disconnect);
  }

  // ---------- keys do not interfere ----------

  /** The part of a trace that concerns one key. */
  function OnKey(trace: seq<FlapStep>, k: string): seq<FlapStep> {
    if trace == [] then []
    else
      var rest := OnKey(trace[..|trace| - 1], k);
      if KeyOf(trace[|trace| - 1]) == k then rest + [trace[|trace| - 1]] else rest
  }

  /** The part of a detector that concerns one key. */
  function Restrict(d: Detector, k: string): Detector {
    Detector(d.window,
      map key | key in d.pending && key == k :: d.pending[key],
      map h | h in d.timers && d.timers[h].event.key == k :: d.timers[h],
      SentFor(d.sent, k))
  }

  lemma RestrictMine(d: Detector, step: FlapStep)
    requires Backed(d) && Possible(d, step)
    ensures Possible(Restrict(d, KeyOf(step)), step)
    ensures Restrict(Apply(d, step), KeyOf(step)) == Apply(Restrict(d, KeyOf(step)), step)
  {
    var k := KeyOf(step);
    match step
    case Arrive(e, now, handle) =>
      var d' := Check(d, e, now, handle);
      assert Flaps(d, e) <==> Flaps(Restrict(d, k), e);
      assert Restrict(d', k).pending == Check(Restrict(d, k), e, now, handle).pending;
      assert Restrict(d', k).timers == Check(Restrict(d, k), e, now, handle).timers;
    case Fire(key, now, handle) =>
      SentForAppend(d.sent, d.timers[handle].event, k);
      assert Restrict(Expire(d, handle), k).pending == Expire(Restrict(d, k), handle).pending;
      assert Restrict(Expire(d, handle), k).timers == Expire(Restrict(d, k), handle).timers;
  }

  lemma RestrictOther(d: Detector, step: FlapStep, k: string)
    requires Backed(d) && Possible(d, step) && KeyOf(step) != k
    ensures Restrict(Apply(d, step), k) == Restrict(d, k)
  {
    match step
    case Arrive(e, now, handle) =>
      var d' := Check(d, e, now, handle);
      assert Restrict(d', k).pending == Restrict(d, k).pending;
      assert Restrict(d', k).timers == Restrict(d, k).timers;
    case Fire(key, now, handle) =>
      SentForAppend(d.sent, d.timers[handle].event, k);
      assert Restrict(Expire(d, handle), k).pending == Restrict(d, k).pending;
      assert Restrict(Expire(d, handle), k).timers == Restrict(d, k).timers;
  }

  /** An interleaved run, seen from one key, is the run of that key alone. */
  lemma {:induction false} Projects(window: int, trace: seq<FlapStep>, k: string)
    requires Legal(window, trace)
    ensures Legal(window, OnKey(trace, k))
    ensures After(window, OnKey(trace, k)) == Restrict(After(window, trace), k)
  {
    if trace == [] {
      assert Restrict(Start(window), k) == Start(window);
    } else {
      var before, step := trace[..|trace| - 1], trace[|trace| - 1];
      Projects(window, before, k);
      AlwaysBacked(window, before);
      var d := After(window, before);
      if KeyOf(step) == k {
        RestrictMine(d, step);
        ExtendTrace(window, OnKey(before, k), step);
      } else {
        RestrictOther(d, step, k);
      }
    }
  }

  lemma {:induction false} OnKeyIsUniform(trace: seq<FlapStep>, k: string)
    ensures forall i | 0 <= i < |OnKey(trace, k)| :: KeyOf(OnKey(trace, k)[i]) == k
  {
    if trace != [] { OnKeyIsUniform(trace[..|trace| - 1], k); }
  }
}

/** The detector as the program keeps it. */
module FlapDetectorClass {
  import opened Flap

  class FlapDetector {
    const enabled: bool
    const window: int
    var pending: map<string, Pending>
    // The runtime's live timers, the dispatch function's calls, and how many steps were taken; each timer is named
    // by the number of the step that started it.
    var timers: map<nat, Timer>
    var dispatched: seq<Event>
    var steps: nat

    /** Init: the window defaults to three seconds. */
    constructor (enabled: bool, windowInSeconds: int)
      ensures this.enabled == enabled && HandlesIssued() && steps == 0
      ensures window == if enabled && windowInSeconds == 0 then 3 else windowInSeconds
      ensures View() == Start(window)
    {
      this.enabled := enabled;
      this.window := if enabled && windowInSeconds == 0 then 3 else windowInSeconds;
      pending, timers, dispatched, steps := map[], map[], [], 0;
    }

    function View(): Detector
      reads this
    {
      Detector(window, pending, timers, dispatched)
    }

    /** Names of live timers were all given out already. */
    ghost predicate HandlesIssued()
      reads this
    {
      forall h | h in timers :: h < steps
    }

    /** CheckForFlapping; with detection disabled the event is dispatched at once. */
    method CheckForFlapping(e: Event, now: int)
      requires HandlesIssued()
      modifies this
      ensures HandlesIssued()
      ensures !enabled ==> View() == old(View()).(sent := old(dispatched) + [e])
      ensures enabled ==> Possible(old(View()), Arrive(e, now, old(steps))) && steps == old(steps) + 1
      ensures enabled ==> View() == Check(old(View()), e, now, old(steps))
    {
      if !enabled {
        dispatched := dispatched + [e];
        return;
      }
      var handle := steps;
      steps := steps + 1;
      var opposite := Disconnect;
      if e.kind == Disconnect {
        opposite := Connect;
      }
      if e.key in pending && pending[e.key].kind == opposite {
        // Flap detected: stop the timer and forget both events.
        timers := timers - {pending[e.key].timer};
        pending := pending - {e.key};
        return;
      }
      timers := timers[handle := Timer(e, now + window)];
      pending := pending[e.key := Pending(e.kind, handle)];
    }

    method TimerCallback(handle: nat) returns (e: Event)
      requires HandlesIssued() && handle in timers
      modifies this
      ensures HandlesIssued() && View() == Expire(old(View()), handle) && steps == old(steps) + 1
      ensures e == old(timers)[handle].event
    {
      e := timers[handle].event;
      steps := steps + 1;
      timers := timers - {handle};
      dispatched := dispatched + [e];
      pending := pending - {e.key};
    }
  }
}
