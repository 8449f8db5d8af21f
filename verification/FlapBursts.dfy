/** What the flap detector lets through: when the events of a key toggle it is exactly what a scan with a single slot
    keeps, whatever the timer delays; when they alternate so does the output, and it ends up truthful; with prompt
    timers it is the last event of every burst of odd length; and when they are all of one kind, all of them. */
module FlapBursts {
  import opened Alternation
  import opened Flap

  // ---------- the events that reached one key ----------

  datatype Arrival = Arrival(event: Event, at: int)

  function Arrivals(trace: seq<FlapStep>, k: string): seq<Arrival> {
    if trace == [] then []
    else
      var rest, step := Arrivals(trace[..|trace| - 1], k), trace[|trace| - 1];
      if step.Arrive? && step.event.key == k then rest + [Arrival(step.event, step.now)] else rest
  }

  function Ups(events: seq<Event>): seq<bool> {
    seq(|events|, i requires 0 <= i < |events| => events[i].kind == Connect)
  }

  function ArrivalUps(arrivals: seq<Arrival>): seq<bool> {
    seq(|arrivals|, i requires 0 <= i < |arrivals| => arrivals[i].event.kind == Connect)
  }

  /** The event waiting for a key, if any. */
  function Waiting(d: Detector, k: string): seq<Event> {
    if k in d.pending && d.pending[k].timer in d.timers then [d.timers[d.pending[k].timer].event] else []
  }

  lemma {:induction false} ArrivalsOnKey(trace: seq<FlapStep>, k: string)
    ensures Arrivals(OnKey(trace, k), k) == Arrivals(trace, k)
  {
    if trace != [] {
      var before, step := trace[..|trace| - 1], trace[|trace| - 1];
      ArrivalsOnKey(before, k);
      if KeyOf(step) == k { assert (OnKey(before, k) + [step])[..|OnKey(before, k)|] == OnKey(before, k); }
    }
  }

  // ---------- any timer delays ----------

  /** The only live timer of the key is the one its pending entry points to. */
  ghost predicate OneSlot(d: Detector, k: string) {
    && Backed(d)
    && forall h | h in d.timers && d.timers[h].event.key == k :: k in d.pending && d.pending[k].timer == h
  }

  /** Dispatched plus waiting equals accepted, up to cancelled pairs, and what is waiting is the latest change. */
  ghost predicate InStep(d: Detector, k: string, accepted: nat) {
    && OneSlot(d, k)
    && Alternates(Ups(SentFor(d.sent, k)))
    && (|SentFor(d.sent, k)| + |Waiting(d, k)|) % 2 == accepted % 2
    && (Waiting(d, k) != [] ==> (Waiting(d, k)[0].kind == Connect <==> accepted % 2 == 1))
  }

  lemma ArriveInStep(d: Detector, e: Event, now: int, handle: nat, k: string, accepted: nat)
    requires InStep(d, k, accepted) && e.key == k && handle !in d.timers
    requires e.kind == Connect <==> accepted % 2 == 0
    ensures InStep(Check(d, e, now, handle), k, accepted + 1)
  {
    var d' := Check(d, e, now, handle);
    if k in d.pending {
      assert Waiting(d, k)[0].kind == d.pending[k].kind;
      assert Flaps(d, e);
    }
  }

  lemma FireInStep(d: Detector, handle: nat, k: string, accepted: nat)
    requires InStep(d, k, accepted) && handle in d.timers && d.timers[handle].event.key == k
    ensures InStep(Expire(d, handle), k, accepted)
  {
    hide SentFor, Alternates;
    var e := d.timers[handle].event;
    SentForAppend(d.sent, e, k);
    assert Waiting(d, k) == [e];
    var sent := SentFor(d.sent, k);
    assert Ups(sent + [e]) == Ups(sent) + [e.kind == Connect];
    AlternatesMore(Ups(sent), e.kind == Connect);
  }

  lemma OtherInStep(d: Detector, step: FlapStep, k: string, accepted: nat)
    requires InStep(d, k, accepted) && Possible(d, step) && KeyOf(step) != k
    ensures InStep(Flap.Apply(d, step), k, accepted)
  {
    var d' := Flap.Apply(d, step);
    if step.Fire? { SentForAppend(d.sent, d.timers[step.handle].event, k); }
    assert k in d'.pending <==> k in d.pending;
    assert Backed(d');
    assert Waiting(d', k) == Waiting(d, k);
    assert SentFor(d'.sent, k) == SentFor(d.sent, k);
  }

  lemma {:induction false} AlternatingInputInStep(window: int, trace: seq<FlapStep>, k: string)
    requires Legal(window, trace) && Alternates(ArrivalUps(Arrivals(trace, k)))
    ensures InStep(After(window, trace), k, |Arrivals(trace, k)|)
  {
    if trace != [] {
      hide InStep, Alternates;
      var before, step := trace[..|trace| - 1], trace[|trace| - 1];
      var d, a := After(window, before), Arrivals(before, k);
      ArrivalsMore(trace, k);
      if step.Arrive? && step.event.key == k {
        assert ArrivalUps(a + [Arrival(step.event, step.now)]) == ArrivalUps(a) + [step.event.kind == Connect];
        AlternatesMore(ArrivalUps(a), step.event.kind == Connect);
      }
      AlternatingInputInStep(window, before, k);
      if KeyOf(step) != k {
        OtherInStep(d, step, k, |a|);
      } else {
        match step
        case Arrive(e, now, handle) => ArriveInStep(d, e, now, handle, k, |a|);
        case Fire(_, _, handle) => FireInStep(d, handle, k, |a|);
      }
    }
  }

  /** If the events of a key alternate, so do the dispatched ones, whatever the timer delays, and once no timer of the
      key is live the last dispatched event is in the state the last accepted one left things in. */
  lemma OutputAlternates(window: int, trace: seq<FlapStep>, k: string, now: bool)
    requires Legal(window, trace) && Truthful(ArrivalUps(Arrivals(trace, k)), now)
    ensures var d := After(window, trace);
      && Alternates(Ups(SentFor(d.sent, k)))
      && (LiveTimers(d, k) == {} ==> Truthful(Ups(SentFor(d.sent, k)), now))
      && |LiveTimers(d, k)| <= 1
  {
    AlternatingInputInStep(window, trace, k);
    var d := After(window, trace);
    if k in d.pending {
      assert d.pending[k].timer in LiveTimers(d, k);
      assert LiveTimers(d, k) == {d.pending[k].timer};
    } else {
      assert LiveTimers(d, k) == {};
    }
  }

  // ---------- the one-slot scan ----------

  /** Neighbouring events differ in type. */
  predicate Toggles(a: seq<Arrival>) {
    forall i | 0 < i < |a| :: a[i].event.kind != a[i - 1].event.kind
  }

  datatype Slot = Slot(kept: seq<Event>, waiting: seq<Event>)

  /** An arriving event takes the free slot, or goes away together with the one that waits there; when the timer fires
      the waiting event is kept. */
  function Scan(trace: seq<FlapStep>, k: string): Slot {
    if trace == [] then Slot([], [])
    else
      var slot, step := Scan(trace[..|trace| - 1], k), trace[|trace| - 1];
      if KeyOf(step) != k then slot
      else if step.Fire? then Slot(slot.kept + slot.waiting, [])
      else slot.(waiting := if slot.waiting == [] then [step.event] else [])
  }

  /** The detector is at this slot, and what waits is of the type that arrived last. */
  ghost predicate AtSlot(d: Detector, k: string, slot: Slot, a: seq<Arrival>) {
    && OneSlot(d, k)
    && SentFor(d.sent, k) == slot.kept && Waiting(d, k) == slot.waiting
    && (Waiting(d, k) != [] ==> a != [] && Waiting(d, k)[0].kind == a[|a| - 1].event.kind)
  }

  lemma ArriveAtSlot(d: Detector, e: Event, now: int, handle: nat, k: string, slot: Slot, a: seq<Arrival>)
    requires AtSlot(d, k, slot, a) && e.key == k && handle !in d.timers
    requires a != [] ==> e.kind != a[|a| - 1].event.kind
    ensures var slot' := slot.(waiting := if slot.waiting == [] then [e] else []);
      AtSlot(Check(d, e, now, handle), k, slot', a + [Arrival(e, now)])
  {
    hide SentFor;
    if k in d.pending {
      assert Waiting(d, k)[0].kind == d.pending[k].kind;
      assert Flaps(d, e);
    }
  }

  lemma FireAtSlot(d: Detector, handle: nat, k: string, slot: Slot, a: seq<Arrival>)
    requires AtSlot(d, k, slot, a) && handle in d.timers && d.timers[handle].event.key == k
    ensures AtSlot(Expire(d, handle), k, Slot(slot.kept + slot.waiting, []), a)
  {
    SentForAppend(d.sent, d.timers[handle].event, k);
    assert Waiting(d, k) == [d.timers[handle].event];
  }

  lemma OtherAtSlot(d: Detector, step: FlapStep, k: string, slot: Slot, a: seq<Arrival>)
    requires AtSlot(d, k, slot, a) && Possible(d, step) && KeyOf(step) != k
    ensures AtSlot(Flap.Apply(d, step), k, slot, a)
  {
    RestrictOther(d, step, k);
    var d' := Flap.Apply(d, step);
    if step.Fire? { SentForAppend(d.sent, d.timers[step.handle].event, k); }
    hide SentFor;
    assert k in d'.pending <==> k in d.pending;
    assert Backed(d');
    assert Waiting(d', k) == Waiting(d, k);
  }

  lemma ArrivalsMore(trace: seq<FlapStep>, k: string)
    requires trace != []
    ensures var step, a := trace[|trace| - 1], Arrivals(trace[..|trace| - 1], k);
      Arrivals(trace, k) == if step.Arrive? && step.event.key == k then a + [Arrival(step.event, step.now)] else a
  {
  }

  lemma TogglesSoFar(a: seq<Arrival>, t: Arrival)
    requires Toggles(a + [t])
    ensures Toggles(a) && (a != [] ==> t.event.kind != a[|a| - 1].event.kind)
  {
    var b := a + [t];
    assert forall i | 0 <= i < |a| :: b[i] == a[i];
    assert a != [] ==> b[|a|].event.kind != b[|a| - 1].event.kind;
  }

  /** Whenever the events that arrived for a key toggle, and however late its timers or those of other keys fire, the
      dispatched events are exactly those kept by the scan, and the detector holds exactly what waits in its slot. */
  lemma {:induction false} DetectorScans(window: int, trace: seq<FlapStep>, k: string)
    requires Legal(window, trace) && Toggles(Arrivals(trace, k))
    ensures AtSlot(After(window, trace), k, Scan(trace, k), Arrivals(trace, k))
    ensures var d := After(window, trace);
      SentFor(d.sent, k) == Scan(trace, k).kept && Waiting(d, k) == Scan(trace, k).waiting
  {
    if trace != [] {
      var before, step := trace[..|trace| - 1], trace[|trace| - 1];
      var d, a := After(window, before), Arrivals(before, k);
      ArrivalsMore(trace, k);
      if step.Arrive? && step.event.key == k { TogglesSoFar(a, Arrival(step.event, step.now)); }
      DetectorScans(window, before, k);
      AlwaysBacked(window, before);
      if KeyOf(step) != k {
        OtherAtSlot(d, step, k, Scan(before, k), a);
      } else {
        match step
        case Arrive(e, now, handle) => ArriveAtSlot(d, e, now, handle, k, Scan(before, k), a);
        case Fire(_, _, handle) => FireAtSlot(d, handle, k, Scan(before, k), a);
      }
    }
  }

  // ---------- counting what is dispatched ----------

  lemma {:induction false} UpsCount(events: seq<Event>, b: bool)
    ensures Count(Ups(events), b) == CountKind(events, if b then EventKind.Connect else EventKind.Disconnect)
  {
    if events != [] {
      var init := events[..|events| - 1];
      UpsCount(init, b);
      assert Ups(events)[..|init|] == Ups(init);
    }
  }

  lemma {:induction false} ArrivalUpsCount(trace: seq<FlapStep>, k: string, b: bool)
    ensures Count(ArrivalUps(Arrivals(trace, k)), b) ==
      Accepted(trace, k, if b then EventKind.Connect else EventKind.Disconnect)
  {
    if trace != [] {
      var before, step := trace[..|trace| - 1], trace[|trace| - 1];
      ArrivalUpsCount(before, k, b);
      ArrivalsMore(trace, k);
      if step.Arrive? && step.event.key == k {
        var a := Arrivals(before, k);
        assert ArrivalUps(a + [Arrival(step.event, step.now)]) ==
          ArrivalUps(a) + [step.event.kind == EventKind.Connect];
        CountMore(ArrivalUps(a), b, step.event.kind == EventKind.Connect);
      }
    }
  }

  /** On arbitrary input, what the detector lets through differs from what it took in, event type by event type, by what
      still waits and by the cancelled pairs. */
  lemma OutputCounts(window: int, trace: seq<FlapStep>, k: string, b: bool)
    requires Legal(window, trace)
    ensures var d, kind := After(window, trace), if b then EventKind.Connect else EventKind.Disconnect;
      Count(ArrivalUps(Arrivals(trace, k)), b)
        == Count(Ups(SentFor(d.sent, k)), b) + |LiveOf(d, k, kind)| + CancelledPairs(window, trace, k)
  {
    var kind := if b then EventKind.Connect else EventKind.Disconnect;
    ConservationByKind(window, trace, k, kind);
    ArrivalUpsCount(trace, k, b);
    UpsCount(SentFor(After(window, trace).sent, k), b);
  }

  lemma NoneLive(d: Detector, k: string)
    requires LiveTimers(d, k) == {}
    ensures LiveOf(d, k, EventKind.Connect) == {} && LiveOf(d, k, EventKind.Disconnect) == {}
  {
    assert forall kind :: LiveOf(d, k, kind) <= LiveTimers(d, k);
  }

  /** Once no timer of the key is live, the balance of what was dispatched is that of what arrived. */
  lemma OutputBalances(window: int, trace: seq<FlapStep>, k: string)
    requires Legal(window, trace) && LiveTimers(After(window, trace), k) == {}
    ensures Balance(Ups(SentFor(After(window, trace).sent, k))) == Balance(ArrivalUps(Arrivals(trace, k)))
  {
    NoneLive(After(window, trace), k);
    OutputCounts(window, trace, k, true);
    OutputCounts(window, trace, k, false);
  }

  /** If only one of the two types ever arrives for a key, nothing is cancelled, and once no timer of the key is live
      exactly as many events were dispatched, all of that type. */
  lemma OneKindNeverCancels(window: int, trace: seq<FlapStep>, k: string, b: bool)
    requires Legal(window, trace) && Count(ArrivalUps(Arrivals(trace, k)), !b) == 0
    ensures var d := After(window, trace);
      && CancelledPairs(window, trace, k) == 0
      && Count(Ups(SentFor(d.sent, k)), !b) == 0
      && (LiveTimers(d, k) == {} ==> Count(Ups(SentFor(d.sent, k)), b) == Count(ArrivalUps(Arrivals(trace, k)), b))
  {
    OutputCounts(window, trace, k, true);
    OutputCounts(window, trace, k, false);
    if LiveTimers(After(window, trace), k) == {} { NoneLive(After(window, trace), k); }
  }

  // ---------- prompt timers ----------

  /** Time does not go backwards, and when an event arrives every timer that is due has fired. Asked of the steps of one
      key only (see PromptFor), it says nothing about the timers of other keys. */
  predicate Prompt(window: int, trace: seq<FlapStep>) {
    trace == [] || (
      var before, step := trace[..|trace| - 1], trace[|trace| - 1];
      && Prompt(window, before)
      && (before != [] ==> before[|before| - 1].now <= step.now)
      && (step.Arrive? ==> Due(After(window, before), step.now) == {}))
  }

  /** The live timers whose deadline is reached. */
  function Due(d: Detector, now: int): set<nat> {
    set h | h in d.timers && d.timers[h].deadline <= now
  }

  /** A burst goes on while the gap to the previous event is shorter than the window. */
  predicate StartsBurst(a: seq<Arrival>, window: int, i: nat)
    requires i < |a|
  {
    i == 0 || a[i].at - a[i - 1].at >= window
  }

  /** The position of an event in its burst, counted from one. */
  function Position(a: seq<Arrival>, window: int, i: nat): nat
    requires i < |a|
  {
    if StartsBurst(a, window, i) then 1 else Position(a, window, i - 1) + 1
  }

  /** The last event of a burst of odd length. */
  predicate EndsOddBurst(a: seq<Arrival>, window: int, i: nat)
    requires i < |a|
  {
    Position(a, window, i) % 2 == 1 && (i + 1 < |a| ==> StartsBurst(a, window, i + 1))
  }

  /** The ends of odd bursts among the first n events, in order. */
  function OddBurstEnds(a: seq<Arrival>, window: int, n: nat): seq<Event>
    requires n <= |a|
  {
    if n == 0 then []
    else OddBurstEnds(a, window, n - 1) + (if EndsOddBurst(a, window, n - 1) then [a[n - 1].event] else [])
  }

  lemma {:induction false} PositionStable(a: seq<Arrival>, t: Arrival, window: int, i: nat)
    requires i < |a|
    ensures Position(a + [t], window, i) == Position(a, window, i)
  {
    if !StartsBurst(a, window, i) { PositionStable(a, t, window, i - 1); }
  }

  lemma {:induction false} EarlierEndsStable(a: seq<Arrival>, t: Arrival, window: int, n: nat)
    requires n < |a|
    ensures OddBurstEnds(a + [t], window, n) == OddBurstEnds(a, window, n)
  {
    if n > 0 {
      EarlierEndsStable(a, t, window, n - 1);
      PositionStable(a, t, window, n - 1);
    }
  }

  /** How one more event changes the survivors: it withdraws the last one if it continues an odd burst, else it adds
      itself. */
  lemma OneMoreEvent(a: seq<Arrival>, t: Arrival, window: int)
    ensures var b := a + [t];
      OddBurstEnds(b, window, |b|) ==
        if a != [] && t.at - a[|a| - 1].at < window && Position(a, window, |a| - 1) % 2 == 1
        then OddBurstEnds(a, window, |a| - 1)
        else OddBurstEnds(a, window, |a|) + [t.event]
    ensures Position(a + [t], window, |a|) ==
      if a != [] && t.at - a[|a| - 1].at < window then Position(a, window, |a| - 1) + 1 else 1
  {
    var b, n := a + [t], |a|;
    if a != [] {
      PositionStable(a, t, window, n - 1);
      EarlierEndsStable(a, t, window, n - 1);
      assert OddBurstEnds(b, window, n) == OddBurstEnds(b, window, n - 1)
        + (if EndsOddBurst(b, window, n - 1) then [b[n - 1].event] else []);
      assert OddBurstEnds(a, window, n) == OddBurstEnds(a, window, n - 1)
        + (if Position(a, window, n - 1) % 2 == 1 then [a[n - 1].event] else []);
    }
    assert OddBurstEnds(b, window, n + 1) ==
      OddBurstEnds(b, window, n) + (if EndsOddBurst(b, window, n) then [b[n].event] else []);
  }

  /** Dispatched plus waiting events are the ends of odd bursts so far; the latest event waits exactly while its
      position is odd and its window is open. */
  ghost predicate BurstInv(d: Detector, k: string, a: seq<Arrival>, clock: int) {
    && OneSlot(d, k)
    && SentFor(d.sent, k) + Waiting(d, k) == OddBurstEnds(a, d.window, |a|)
    && (Waiting(d, k) != [] ==>
          && a != [] && Position(a, d.window, |a| - 1) % 2 == 1
          && Waiting(d, k)[0] == a[|a| - 1].event
          && d.timers[d.pending[k].timer].deadline == a[|a| - 1].at + d.window)
    && (Waiting(d, k) == [] && a != [] && Position(a, d.window, |a| - 1) % 2 == 1 ==> a[|a| - 1].at + d.window <= clock)
  }

  /** The timers of one key are prompt. */
  predicate PromptFor(window: int, trace: seq<FlapStep>, k: string) {
    Prompt(window, OnKey(trace, k))
  }

  /** An arrival in the window of a waiting event withdraws it. */
  lemma ArriveWithdraws(d: Detector, e: Event, now: int, handle: nat, k: string, a: seq<Arrival>, clock: int)
    requires BurstInv(d, k, a, clock) && e.key == k && k in d.pending
    requires clock <= now && Due(d, now) == {} && a != [] && e.kind != a[|a| - 1].event.kind
    ensures BurstInv(Check(d, e, now, handle), k, a + [Arrival(e, now)], now)
  {
    var d' := Check(d, e, now, handle);
    OneMoreEvent(a, Arrival(e, now), d.window);
    assert d.pending[k].timer !in Due(d, now);
    assert Flaps(d, e) && Waiting(d', k) == [] && OneSlot(d', k);
    hide SentFor, Position, OddBurstEnds, Due;
    LastGone(SentFor(d.sent, k), OddBurstEnds(a, d.window, |a|), Waiting(d, k)[0]);
    OddBurstLast(a, d.window);
  }

  lemma LastGone<T>(front: seq<T>, all: seq<T>, last: T)
    requires front + [last] == all
    ensures front == all[..|all| - 1]
  {
  }

  lemma OddBurstLast(a: seq<Arrival>, window: int)
    requires a != [] && Position(a, window, |a| - 1) % 2 == 1
    ensures OddBurstEnds(a, window, |a|) == OddBurstEnds(a, window, |a| - 1) + [a[|a| - 1].event]
    ensures OddBurstEnds(a, window, |a| - 1) == OddBurstEnds(a, window, |a|)[..|OddBurstEnds(a, window, |a|)| - 1]
  {
  }

  /** An arrival when nothing waits is the new survivor. */
  lemma ArriveWaits(d: Detector, e: Event, now: int, handle: nat, k: string, a: seq<Arrival>, clock: int)
    requires BurstInv(d, k, a, clock) && e.key == k && k !in d.pending && handle !in d.timers && clock <= now
    ensures BurstInv(Check(d, e, now, handle), k, a + [Arrival(e, now)], now)
  {
    hide SentFor, OddBurstEnds;
    var d' := Check(d, e, now, handle);
    OneMoreEvent(a, Arrival(e, now), d.window);
    assert Waiting(d, k) == [] && Waiting(d', k) == [e] && OneSlot(d', k);
    assert (a + [Arrival(e, now)])[|a|] == Arrival(e, now);
  }

  lemma FireBurst(d: Detector, handle: nat, now: int, k: string, a: seq<Arrival>, clock: int)
    requires BurstInv(d, k, a, clock) && handle in d.timers && d.timers[handle].event.key == k
    requires clock <= now && d.timers[handle].deadline <= now
    ensures BurstInv(Expire(d, handle), k, a, now)
  {
    SentForAppend(d.sent, d.timers[handle].event, k);
    assert Waiting(d, k) == [d.timers[handle].event];
    assert Waiting(Expire(d, handle), k) == [];
    hide SentFor, Position, OddBurstEnds;
  }

  function Clock(trace: seq<FlapStep>): int
    requires trace != []
  {
    trace[|trace| - 1].now
  }

  predicate Uniform(trace: seq<FlapStep>, k: string) {
    forall i | 0 <= i < |trace| :: KeyOf(trace[i]) == k
  }

  /** On a trace of one key. */
  lemma {:induction false} BurstsHold(window: int, trace: seq<FlapStep>, k: string)
    requires window > 0 && trace != [] && Legal(window, trace) && Prompt(window, trace) && Uniform(trace, k)
    requires Toggles(Arrivals(trace, k))
    ensures BurstInv(After(window, trace), k, Arrivals(trace, k), Clock(trace))
  {
    var before, step := trace[..|trace| - 1], trace[|trace| - 1];
    var d, a, clock := After(window, before), Arrivals(before, k), step.now;
    assert KeyOf(step) == k && forall i | 0 <= i < |before| :: KeyOf(before[i]) == k;
    AlwaysBacked(window, before);
    ArrivalsMore(trace, k);
    if step.Arrive? { TogglesSoFar(a, Arrival(step.event, step.now)); }
    if before == [] {
      assert BurstInv(d, k, a, clock);
    } else {
      BurstsHold(window, before, k);
      clock := Clock(before);
    }
    BurstStep(d, step, k, a, clock);
  }

  lemma BurstStep(d: Detector, step: FlapStep, k: string, a: seq<Arrival>, clock: int)
    requires BurstInv(d, k, a, clock) && Possible(d, step) && KeyOf(step) == k && clock <= step.now
    requires step.Arrive? ==> Due(d, step.now) == {} && (a != [] ==> step.event.kind != a[|a| - 1].event.kind)
    ensures BurstInv(Flap.Apply(d, step), k, if step.Arrive? then a + [Arrival(step.event, step.now)] else a, step.now)
  {
    match step
    case Arrive(e, now, handle) =>
      if k in d.pending {
        ArriveWithdraws(d, e, now, handle, k, a, clock);
      } else {
        ArriveWaits(d, e, now, handle, k, a, clock);
      }
    case Fire(_, now, handle) => FireBurst(d, handle, now, k, a, clock);
  }

  lemma {:induction false} SentForTwice(sent: seq<Event>, k: string)
    ensures SentFor(SentFor(sent, k), k) == SentFor(sent, k)
  {
    if sent != [] {
      var init := sent[..|sent| - 1];
      SentForTwice(init, k);
      SentForAppend(SentFor(init, k), sent[|sent| - 1], k);
    }
  }

  /** If the timers of the key are prompt, whatever those of other keys do, the events dispatched for it, together with
      the one still waiting, are the last events of its bursts of odd length: an even burst vanishes, an odd one leaves
      its last change. */
  lemma DispatchesOddBurstEnds(window: int, trace: seq<FlapStep>, k: string)
    requires window > 0 && Legal(window, trace) && PromptFor(window, trace, k) && Toggles(Arrivals(trace, k))
    ensures var d, a := After(window, trace), Arrivals(trace, k);
      && SentFor(d.sent, k) + Waiting(d, k) == OddBurstEnds(a, window, |a|)
      && (LiveTimers(d, k) == {} ==> SentFor(d.sent, k) == OddBurstEnds(a, window, |a|))
  {
    var d, own := After(window, trace), OnKey(trace, k);
    Projects(window, trace, k);
    ArrivalsOnKey(trace, k);
    OnKeyIsUniform(trace, k);
    SentForTwice(d.sent, k);
    AlwaysBacked(window, trace);
    assert Waiting(Restrict(d, k), k) == Waiting(d, k);
    if k in d.pending { assert d.pending[k].timer in LiveTimers(d, k); }
    if own != [] {
      BurstsHold(window, own, k);
    }
  }
}
