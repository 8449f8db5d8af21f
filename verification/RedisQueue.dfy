/** The webhook queue on two shared Redis lists (internal/queues/queueRedis.go): producers push, k workers move an event
    to the working list, send it, and remove it. Workers may die at any point. */
module RedisQueue {
  import opened Wrappers

  type Job = string

  /** What a worker is doing, or was doing when it died. */
  datatype Worker = Idle | Holding(job: Job) | SentIt(job: Job) | Dead(last: Worker)

  /** `pushed` and `taken` list every event enqueued and moved, `sent` and `removed` count what happened to them. */
  datatype Queue = Queue(
    queue: seq<Job>, working: seq<Job>, workers: seq<Worker>,
    pushed: seq<Job>, taken: seq<Job>, sent: multiset<Job>, removed: multiset<Job>)

  // ---------- the list commands ----------

  function LPush(list: seq<Job>, job: Job): seq<Job> {
    [job] + list
  }

  /** LREM with count 1: drop the first occurrence from the head. */
  function LRem(list: seq<Job>, job: Job): seq<Job> {
    if list == [] then []
    else if list[0] == job then list[1..]
    else [list[0]] + LRem(list[1..], job)
  }

  lemma {:induction false} LRemRemovesOne(list: seq<Job>, job: Job)
    requires job in list
    ensures multiset(LRem(list, job)) == multiset(list) - multiset{job}
  {
    assert list == [list[0]] + list[1..];
    if list[0] != job { LRemRemovesOne(list[1..], job); }
  }

  // ---------- steps ----------

  datatype Step =
    | Push(job: Job)
    | Take(w: nat)          // BRPOPLPUSH by an idle worker
    | SendWebhook(w: nat)   // the payload parses, send it
    | Remove(w: nat)        // after sending
    | Discard(w: nat)       // the payload is malformed
    | Die(w: nat)

  predicate Possible(wellFormed: Job -> bool, s: Queue, step: Step) {
    match step
    case Push(_) => true
    case Take(w) => w < |s.workers| && s.workers[w].Idle? && s.queue != []
    case SendWebhook(w) => w < |s.workers| && s.workers[w].Holding? && wellFormed(s.workers[w].job)
    case Remove(w) => w < |s.workers| && s.workers[w].SentIt?
    case Discard(w) => w < |s.workers| && s.workers[w].Holding? && !wellFormed(s.workers[w].job)
    case Die(w) => w < |s.workers| && !s.workers[w].Dead?
  }

  function Apply(wellFormed: Job -> bool, s: Queue, step: Step): Queue
    requires Possible(wellFormed, s, step)
  {
    match step
    case Push(job) => s.(queue := LPush(s.queue, job), pushed := s.pushed + [job])
    case Take(w) =>
      var job := s.queue[|s.queue| - 1];
      s.(queue := s.queue[..|s.queue| - 1], working := LPush(s.working, job),
         workers := s.workers[w := Holding(job)], taken := s.taken + [job])
    case SendWebhook(w) =>
      var job := s.workers[w].job;
      s.(workers := s.workers[w := SentIt(job)], sent := s.sent + multiset{job})
    case Remove(w) => RemoveJob(s, w)
    case Discard(w) => RemoveJob(s, w)
    case Die(w) => s.(workers := s.workers[w := Dead(s.workers[w])])
  }

  function RemoveJob(s: Queue, w: nat): Queue
    requires w < |s.workers| && (s.workers[w].Holding? || s.workers[w].SentIt?)
  {
    var job := s.workers[w].job;
    s.(working := LRem(s.working, job), workers := s.workers[w := Idle], removed := s.removed + multiset{job})
  }

  function Run(wellFormed: Job -> bool, k: nat, steps: seq<Step>): Queue {
    if steps == [] then Queue([], [], seq(k, _ => Idle), [], [], multiset{}, multiset{})
    else
      var s, step := Run(wellFormed, k, steps[..|steps| - 1]), steps[|steps| - 1];
      if Possible(wellFormed, s, step) then Apply(wellFormed, s, step) else s
  }

  // ---------- what is in the workers' hands ----------

  /** One if the worker holds the event, sent or not, dead or alive. */
  function InHand(w: Worker, job: Job): nat {
    match w
    case Idle => 0
    case Holding(j) => if j == job then 1 else 0
    case SentIt(j) => if j == job then 1 else 0
    case Dead(last) => InHand(last, job)
  }

  function JustSent(w: Worker, job: Job): nat {
    match w
    case SentIt(j) => if j == job then 1 else 0
    case Dead(last) => JustSent(last, job)
    case _ => 0
  }

  function InHands(workers: seq<Worker>, job: Job): nat {
    if workers == [] then 0 else InHands(workers[..|workers| - 1], job) + InHand(workers[|workers| - 1], job)
  }

  function SentNotRemoved(workers: seq<Worker>, job: Job): nat {
    if workers == [] then 0 else SentNotRemoved(workers[..|workers| - 1], job) + JustSent(workers[|workers| - 1], job)
  }

  lemma {:induction false} HandsChange(workers: seq<Worker>, i: nat, x: Worker, job: Job)
    requires i < |workers|
    ensures InHands(workers[i := x], job) == InHands(workers, job) - InHand(workers[i], job) + InHand(x, job)
    ensures SentNotRemoved(workers[i := x], job) ==
      SentNotRemoved(workers, job) - JustSent(workers[i], job) + JustSent(x, job)
    ensures InHand(workers[i], job) <= InHands(workers, job)
  {
    var n := |workers| - 1;
    if i == n {
      assert workers[i := x][..n] == workers[..n];
    } else {
      HandsChange(workers[..n], i, x, job);
      assert workers[i := x][..n] == workers[..n][i := x];
    }
  }

  lemma {:induction false} IdleHoldNothing(k: nat, job: Job)
    ensures InHands(seq(k, _ => Idle), job) == 0 && SentNotRemoved(seq(k, _ => Idle), job) == 0
  {
    if k > 0 {
      IdleHoldNothing(k - 1, job);
      assert seq(k, _ => Idle)[..k - 1] == seq(k - 1, _ => Idle);
    }
  }

  // ---------- conservation and order ----------

  function Reverse(list: seq<Job>): seq<Job> {
    if list == [] then [] else Reverse(list[1..]) + [list[0]]
  }

  function Copies(list: seq<Job>, job: Job): nat {
    multiset(list)[job]
  }

  /** For each payload: every pushed event is queued, working or removed; the entries of the working list are exactly
      those some worker holds or held when it died, even if payloads are equal; and exactly what was removed, or is
      still to be removed after sending, was sent, but nothing malformed. */
  ghost predicate Balanced(wellFormed: Job -> bool, s: Queue, job: Job) {
    && Copies(s.pushed, job) == Copies(s.queue, job) + Copies(s.working, job) + s.removed[job]
    && InHands(s.workers, job) == Copies(s.working, job)
    && (if wellFormed(job) then s.sent[job] == s.removed[job] + SentNotRemoved(s.workers, job)
        else s.sent[job] == 0 && SentNotRemoved(s.workers, job) == 0)
  }

  ghost predicate Inv(wellFormed: Job -> bool, s: Queue) {
    && (forall job :: Balanced(wellFormed, s, job))
    && s.pushed == s.taken + Reverse(s.queue)
  }

  lemma {:induction false} ReverseInit(list: seq<Job>)
    requires list != []
    ensures Reverse(list) == [list[|list| - 1]] + Reverse(list[..|list| - 1])
  {
    if |list| > 1 {
      ReverseInit(list[1..]);
      assert list[1..][..|list| - 2] == list[..|list| - 1][1..];
    }
  }

  lemma TakeKeeps(wellFormed: Job -> bool, s: Queue, w: nat, job: Job)
    requires Balanced(wellFormed, s, job) && Possible(wellFormed, s, Take(w))
    ensures Balanced(wellFormed, Apply(wellFormed, s, Take(w)), job)
  {
    hide InHands, SentNotRemoved;
    var taken := s.queue[|s.queue| - 1];
    HandsChange(s.workers, w, Holding(taken), job);
    assert s.queue == s.queue[..|s.queue| - 1] + [taken];
  }

  lemma RemoveKeeps(wellFormed: Job -> bool, s: Queue, w: nat, job: Job)
    requires Balanced(wellFormed, s, job) && w < |s.workers| && (s.workers[w].Holding? || s.workers[w].SentIt?)
    requires Balanced(wellFormed, s, s.workers[w].job)
    requires s.workers[w].Holding? ==> !wellFormed(s.workers[w].job)
    ensures Balanced(wellFormed, RemoveJob(s, w), job)
  {
    hide InHands, SentNotRemoved;
    var gone := s.workers[w].job;
    HandsChange(s.workers, w, Idle, job);
    HandsChange(s.workers, w, Idle, gone);
    assert Copies(s.working, gone) >= 1;
    LRemRemovesOne(s.working, gone);
  }

  lemma BalanceKept(wellFormed: Job -> bool, s: Queue, step: Step, job: Job)
    requires Inv(wellFormed, s) && Possible(wellFormed, s, step)
    ensures Balanced(wellFormed, Apply(wellFormed, s, step), job)
  {
    assert Balanced(wellFormed, s, job);
    match step
    case Push(_) =>
    case Take(w) => TakeKeeps(wellFormed, s, w, job);
    case SendWebhook(w) => HandsChange(s.workers, w, SentIt(s.workers[w].job), job);
    case Remove(w) => RemoveKeeps(wellFormed, s, w, job);
    case Discard(w) => RemoveKeeps(wellFormed, s, w, job);
    case Die(w) => HandsChange(s.workers, w, Dead(s.workers[w]), job);
  }

  lemma OrderKept(wellFormed: Job -> bool, s: Queue, step: Step)
    requires s.pushed == s.taken + Reverse(s.queue) && Possible(wellFormed, s, step)
    ensures var s' := Apply(wellFormed, s, step); s'.pushed == s'.taken + Reverse(s'.queue)
  {
    var s' := Apply(wellFormed, s, step);
    match step
    case Push(job) => assert s'.queue[1..] == s.queue;
    case Take(w) =>
      ReverseInit(s.queue);
      assert s'.taken + Reverse(s'.queue) == s.taken + ([s.queue[|s.queue| - 1]] + Reverse(s'.queue));
    case _ =>
  }

  /** Over any interleaving of producers and k workers, whichever of them die: no event is lost, none is removed twice,
      and events are taken in the order they were pushed. */
  lemma {:induction false} NothingIsLost(wellFormed: Job -> bool, k: nat, steps: seq<Step>)
    ensures Inv(wellFormed, Run(wellFormed, k, steps))
  {
    if steps == [] {
      forall job ensures Balanced(wellFormed, Run(wellFormed, k, []), job) { IdleHoldNothing(k, job); }
    } else {
      NothingIsLost(wellFormed, k, steps[..|steps| - 1]);
      var s, step := Run(wellFormed, k, steps[..|steps| - 1]), steps[|steps| - 1];
      if Possible(wellFormed, s, step) {
        forall job
          ensures Balanced(wellFormed, Apply(wellFormed, s, step), job)
        {
          BalanceKept(wellFormed, s, step, job);
        }
        OrderKept(wellFormed, s, step);
      }
    }
  }

  lemma {:induction false} SentIsHeld(workers: seq<Worker>, job: Job)
    ensures SentNotRemoved(workers, job) <= InHands(workers, job)
  {
    if workers != [] {
      SentIsHeld(workers[..|workers| - 1], job);
      JustSentIsInHand(workers[|workers| - 1], job);
    }
  }

  lemma {:induction false} JustSentIsInHand(w: Worker, job: Job)
    ensures JustSent(w, job) <= InHand(w, job)
  {
    if w.Dead? { JustSentIsInHand(w.last, job); }
  }

  /** A well-formed event is removed at most as often as it was sent, and sent at most once more for each copy in the
      working list; once both lists are empty every event was sent exactly as often as it was pushed, or never if it is
      malformed; and the events taken so far are the first ones pushed. */
  lemma DrainedMeansSent(wellFormed: Job -> bool, k: nat, steps: seq<Step>, job: Job)
    ensures var s := Run(wellFormed, k, steps);
      && (wellFormed(job) ==> s.removed[job] <= s.sent[job])
      && s.sent[job] <= s.removed[job] + Copies(s.working, job) && s.sent[job] <= Copies(s.pushed, job)
      && (s.queue == [] && s.working == [] ==> s.sent[job] == if wellFormed(job) then Copies(s.pushed, job) else 0)
      && s.taken <= s.pushed
  {
    NothingIsLost(wellFormed, k, steps);
    assert Balanced(wellFormed, Run(wellFormed, k, steps), job);
    SentIsHeld(Run(wellFormed, k, steps).workers, job);
  }

  // ---------- progress ----------

  lemma RunNext(wellFormed: Job -> bool, k: nat, steps: seq<Step>, step: Step)
    requires Possible(wellFormed, Run(wellFormed, k, steps), step)
    ensures Run(wellFormed, k, steps + [step]) == Apply(wellFormed, Run(wellFormed, k, steps), step)
  {
    assert (steps + [step])[..|steps|] == steps;
  }

  /** How many steps a worker is away from being idle. */
  function Busy(w: Worker): nat {
    match w
    case Holding(_) => 2
    case SentIt(_) => 1
    case _ => 0
  }

  /** How often the event was sent or is bound to be sent by worker w alone. */
  function Due(s: Queue, w: nat, job: Job): nat
    requires w < |s.workers|
  {
    s.sent[job] + Copies(s.queue, job) + (if s.workers[w] == Holding(job) then 1 else 0)
  }

  /** What a living worker does next. */
  function NextOf(wellFormed: Job -> bool, s: Queue, w: nat): (step: Step)
    requires w < |s.workers| && !s.workers[w].Dead? && (s.workers[w].Idle? ==> s.queue != [])
    ensures Possible(wellFormed, s, step)
  {
    match s.workers[w]
    case Idle => Take(w)
    case Holding(job) => if wellFormed(job) then SendWebhook(w) else Discard(w)
    case SentIt(_) => Remove(w)
  }

  lemma WorkerMovesOn(wellFormed: Job -> bool, s: Queue, w: nat)
    requires w < |s.workers| && !s.workers[w].Dead? && (s.workers[w].Idle? ==> s.queue != [])
    ensures var s' := Apply(wellFormed, s, NextOf(wellFormed, s, w));
      && |s'.workers| == |s.workers| && s'.workers == s.workers[w := s'.workers[w]] && !s'.workers[w].Dead?
      && 3 * |s'.queue| + Busy(s'.workers[w]) < 3 * |s.queue| + Busy(s.workers[w])
      && s'.pushed == s.pushed && forall job | wellFormed(job) :: Due(s', w, job) == Due(s, w, job)
  {
    if s.workers[w].Idle? { assert s.queue == s.queue[..|s.queue| - 1] + [s.queue[|s.queue| - 1]]; }
  }

  /** From wherever the others left things, one living worker alone can empty the queue: it has then sent every
      well-formed event that was queued, and the one it was holding, once more each. */
  lemma {:induction false} OneWorkerDrains(wellFormed: Job -> bool, k: nat, steps: seq<Step>, w: nat)
    returns (more: seq<Step>)
    requires w < |Run(wellFormed, k, steps).workers| && !Run(wellFormed, k, steps).workers[w].Dead?
    ensures var s, s' := Run(wellFormed, k, steps), Run(wellFormed, k, steps + more);
      && s'.queue == [] && s'.workers == s.workers[w := Idle] && s'.pushed == s.pushed
      && forall job | wellFormed(job) ::
           s'.sent[job] == s.sent[job] + Copies(s.queue, job) + (if s.workers[w] == Holding(job) then 1 else 0)
    decreases 3 * |Run(wellFormed, k, steps).queue| + Busy(Run(wellFormed, k, steps).workers[w])
  {
    hide Run, Apply, NextOf, Busy, Possible;
    var s := Run(wellFormed, k, steps);
    if s.workers[w].Idle? && s.queue == [] {
      more := [];
      assert steps + more == steps && s.workers[w := Idle] == s.workers;
    } else {
      var step := NextOf(wellFormed, s, w);
      WorkerMovesOn(wellFormed, s, w);
      RunNext(wellFormed, k, steps, step);
      var rest := OneWorkerDrains(wellFormed, k, steps + [step], w);
      more := [step] + rest;
      assert steps + more == steps + [step] + rest;
      assert forall job | wellFormed(job) :: Due(Apply(wellFormed, s, step), w, job) == Due(s, w, job);
    }
  }
}

/** The shared lists and the worker loop body as the program runs them. */
module RedisQueueClass {
  import opened RedisQueue

  /** What a worker did for an event, in order. */
  datatype Effect = WebhookSent(job: Job) | Removed(job: Job)

  class RedisLists {
    var queue: seq<Job>
    var working: seq<Job>
    var effects: seq<Effect>

    constructor ()
      ensures queue == [] && working == [] && effects == []
    {
      queue, working, effects := [], [], [];
    }

    method AddToQueue(job: Job)
      modifies this`queue
      ensures queue == LPush(old(queue), job)
    {
      queue := [job] + queue;
    }

    /** BRPOPLPUSH; `found` is false when the poll times out on an empty queue. */
    method PopPush() returns (job: Job, found: bool)
      modifies this`queue, this`working
      ensures found <==> old(queue) != []
      ensures found ==> old(queue) == queue + [job] && working == LPush(old(working), job)
      ensures !found ==> queue == old(queue) && working == old(working) && job == ""
    {
      if queue == [] {
        return "", false;
      }
      job, found := queue[|queue| - 1], true;
      queue := queue[..|queue| - 1];
      working := [job] + working;
    }

    /** LREM working 1 job. */
    method RemoveEventFromQueue(job: Job)
      modifies this`working, this`effects
      ensures working == LRem(old(working), job) && effects == old(effects) + [Removed(job)]
    {
      effects := effects + [Removed(job)];
      var i := 0;
      while i < |working| && working[i] != job
        invariant 0 <= i <= |working|
        invariant LRem(working, job) == working[..i] + LRem(working[i..], job)
        invariant effects == old(effects) + [Removed(job)] && working == old(working)
      {
        assert working[i..][1..] == working[i + 1..];
        assert working[..i + 1] == working[..i] + [working[i]];
        i := i + 1;
      }
      if i < |working| {
        assert working[i..][1..] == working[i + 1..];
        working := working[..i] + working[i + 1..];
      } else {
        assert working[..i] + LRem([], job) == working;
      }
    }

    /** processEvent: a well-formed event is sent and then removed, a malformed one is removed unsent. */
    method ProcessEvent(job: Job, wellFormed: bool)
      modifies this`working, this`effects
      ensures working == LRem(old(working), job)
      ensures effects == old(effects) + (if wellFormed then [WebhookSent(job), Removed(job)] else [Removed(job)])
    {
      if !wellFormed {
        RemoveEventFromQueue(job);
        return;
      }
      effects := effects + [WebhookSent(job)];
      RemoveEventFromQueue(job);
    }
  }
}
