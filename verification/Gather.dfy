/** Scatter/gather over pub/sub (internal/adaptersHorizontal.go, internal/adaptersRedis.go): any number of nodes, any
    number of gathers at once, every interleaving of deliveries, losses and timeouts. */
module Gather {
  import opened Merge

  type ReqId = string

  /** A registered request together with the state of its receive loop. `merged` records whose answers went in. */
  datatype Gathering = Gathering(kind: Kind, numSub: int, acc: Response, count: nat, merged: map<NodeId, Response>)

  datatype Result = Result(kind: Kind, numSub: int, response: Response, timedOut: bool, merged: map<NodeId, Response>)

  datatype Node = Node(requests: map<ReqId, Gathering>, results: map<ReqId, Result>)

  /** A message in flight to one subscriber. */
  datatype Envelope =
    | Ask(dest: NodeId, id: ReqId, kind: Kind)
    | Reply(dest: NodeId, from: NodeId, id: ReqId, response: Response)

  /** What a call of sendRequest was started with. */
  datatype Issued = Issued(node: NodeId, kind: Kind, numSub: int, own: Response)

  /** `issued` records how each id was issued, `answers` what each node answered to it. */
  datatype Cluster = Cluster(
    nodes: seq<Node>, wire: set<Envelope>, issued: map<ReqId, Issued>, answers: map<(ReqId, NodeId), Response>)

  // ---------- what a node does ----------

  function Register(node: Node, id: ReqId, kind: Kind, numSub: int, self: NodeId, own: Response): Node {
    node.(requests := node.requests[id := Gathering(kind, numSub, own, 0, map[self := own])])
  }

  /** A request is answered unless it is registered here; None means it is not processed. */
  predicate Answers(node: Node, id: ReqId) {
    id !in node.requests
  }

  function Finish(node: Node, id: ReqId, g: Gathering, timedOut: bool): Node {
    Node(node.requests - {id}, node.results[id := Result(g.kind, g.numSub, g.acc, timedOut, g.merged)])
  }

  function Receive(node: Node, id: ReqId, from: NodeId, r: Response): Node {
    if id !in node.requests then node
    else
      var g := node.requests[id];
      var g' := g.(acc := MergeInto(g.kind, g.acc, r), count := g.count + 1, merged := g.merged[from := r]);
      if g'.count == g'.numSub - 1 then Finish(node, id, g', false) else node.(requests := node.requests[id := g'])
  }

  // ---------- steps ----------

  datatype Step =
    | Issue(node: NodeId, id: ReqId, kind: Kind, numSub: int, own: Response)
    | DeliverAsk(ask: Envelope, answer: Response)
    | DeliverReply(reply: Envelope)
    | TimeOut(node: NodeId, id: ReqId)
    | Lose(lost: Envelope)

  /** Request ids are fresh; gathers are only started for at least two subscribers; nothing is delivered twice. */
  predicate Possible(s: Cluster, step: Step) {
    match step
    case Issue(r, id, _, numSub, _) => r < |s.nodes| && id !in s.issued && numSub >= 2
    case DeliverAsk(ask, _) => ask in s.wire && ask.Ask? && ask.dest < |s.nodes|
    case DeliverReply(reply) => reply in s.wire && reply.Reply? && reply.dest < |s.nodes|
    case TimeOut(r, id) => r < |s.nodes| && id in s.nodes[r].requests
    case Lose(lost) => lost in s.wire
  }

  function Asks(n: nat, id: ReqId, kind: Kind): set<Envelope> {
    set j | 0 <= j < n :: Ask(j, id, kind)
  }

  function Replies(n: nat, from: NodeId, id: ReqId, r: Response): set<Envelope> {
    set j | 0 <= j < n :: Reply(j, from, id, r)
  }

  function Apply(s: Cluster, step: Step): Cluster
    requires Possible(s, step)
  {
    var n := |s.nodes|;
    match step
    case Issue(r, id, kind, numSub, own) =>
      Cluster(s.nodes[r := Register(s.nodes[r], id, kind, numSub, r, own)],
              s.wire + Asks(n, id, kind), s.issued[id := Issued(r, kind, numSub, own)], s.answers)
    case DeliverAsk(ask, answer) =>
      if Answers(s.nodes[ask.dest], ask.id) then
        s.(wire := s.wire - {ask} + Replies(n, ask.dest, ask.id, answer),
           answers := s.answers[(ask.id, ask.dest) := answer])
      else s.(wire := s.wire - {ask})
    case DeliverReply(m) =>
      s.(nodes := s.nodes[m.dest := Receive(s.nodes[m.dest], m.id, m.from, m.response)], wire := s.wire - {m})
    case TimeOut(r, id) => s.(nodes := s.nodes[r := Finish(s.nodes[r], id, s.nodes[r].requests[id], true)])
    case Lose(m) => s.(wire := s.wire - {m})
  }

  function Init(n: nat): Cluster {
    Cluster(seq(n, _ => Node(map[], map[])), {}, map[], map[])
  }

  function Run(n: nat, steps: seq<Step>): (s: Cluster)
    ensures |s.nodes| == n
  {
    if steps == [] then Init(n)
    else
      var s, step := Run(n, steps[..|steps| - 1]), steps[|steps| - 1];
      if Possible(s, step) then Apply(s, step) else s
  }

  // ---------- the invariant ----------

  /** Messages in flight belong to issued requests; an answering node has consumed its copy of the request, so a
      reply and the request to its sender are never in flight together. */
  ghost predicate WireInv(s: Cluster) {
    && (forall m | m in s.wire :: m.id in s.issued && m.dest < |s.nodes|)
    && (forall m | m in s.wire && m.Reply? ::
          m.from < |s.nodes| && (m.id, m.from) in s.answers && s.answers[(m.id, m.from)] == m.response)
    && (forall m | m in s.wire && m.Ask? :: (m.id, m.dest) !in s.answers)
    && (forall id, j | (id, j) in s.answers :: id in s.issued && j < |s.nodes|)
  }

  /** While a request is registered its issuer has not answered it. */
  ghost predicate NotSelfAnswered(s: Cluster) {
    forall r, id | 0 <= r < |s.nodes| && id in s.nodes[r].requests ::
      id in s.issued && s.issued[id].node == r && (id, r) !in s.answers
  }

  /** A response is exact for the nodes that went in: the issuer once, with the part it started with, and others with
      the answer they gave; kind and number of subscribers are those of the call. */
  ghost predicate Exact(s: Cluster, r: NodeId, id: ReqId, kind: Kind, numSub: int, acc: Response,
                        merged: map<NodeId, Response>) {
    && r in merged
    && id in s.issued && s.issued[id] == Issued(r, kind, numSub, merged[r])
    && Combines(kind, acc, merged, |s.nodes|)
    && forall j | j in merged :: j < |s.nodes| && (j != r ==> (id, j) in s.answers && s.answers[(id, j)] == merged[j])
  }

  ghost predicate GatheringOk(s: Cluster, r: NodeId, id: ReqId, g: Gathering) {
    && Exact(s, r, id, g.kind, g.numSub, g.acc, g.merged)
    && |g.merged| == g.count + 1
    && g.count < g.numSub - 1
    && forall m | m in s.wire && m.Reply? && m.id == id && m.dest == r :: m.from !in g.merged
  }

  ghost predicate ResultOk(s: Cluster, r: NodeId, id: ReqId, res: Result) {
    && Exact(s, r, id, res.kind, res.numSub, res.response, res.merged)
    && (if res.timedOut then |res.merged| < res.numSub else |res.merged| == res.numSub)
  }

  ghost predicate RequestsOk(s: Cluster, r: NodeId)
    requires r < |s.nodes|
  {
    forall id | id in s.nodes[r].requests :: GatheringOk(s, r, id, s.nodes[r].requests[id])
  }

  ghost predicate ResultsOk(s: Cluster, r: NodeId)
    requires r < |s.nodes|
  {
    forall id | id in s.nodes[r].results :: id in s.issued && ResultOk(s, r, id, s.nodes[r].results[id])
  }

  ghost predicate NodesInv(s: Cluster) {
    forall r: NodeId | r < |s.nodes| :: RequestsOk(s, r) && ResultsOk(s, r)
  }

  ghost predicate Inv(s: Cluster) {
    WireInv(s) && NotSelfAnswered(s) && NodesInv(s)
  }

  // ---------- each step keeps it ----------

  /** Answers are only added, and nothing new in flight is addressed to a gathering that merged its sender. */
  ghost predicate Continues(s: Cluster, s': Cluster) {
    && |s'.nodes| == |s.nodes|
    && (forall k | k in s.answers :: k in s'.answers && s'.answers[k] == s.answers[k])
    && (forall id | id in s.issued :: id in s'.issued && s'.issued[id] == s.issued[id])
  }

  lemma GatheringCarries(s: Cluster, s': Cluster, r: NodeId, id: ReqId, g: Gathering)
    requires GatheringOk(s, r, id, g) && Continues(s, s')
    requires forall m | m in s'.wire && m.Reply? && m.id == id && m.dest == r :: m in s.wire || m.from !in g.merged
    ensures GatheringOk(s', r, id, g)
  {
  }

  lemma ResultCarries(s: Cluster, s': Cluster, r: NodeId, id: ReqId, res: Result)
    requires ResultOk(s, r, id, res) && Continues(s, s')
    ensures ResultOk(s', r, id, res)
  {
  }

  /** A node whose tables did not change. */
  lemma NodeCarries(s: Cluster, s': Cluster, r: NodeId)
    requires r < |s.nodes| && RequestsOk(s, r) && ResultsOk(s, r) && Continues(s, s') && s'.nodes[r] == s.nodes[r]
    requires forall id, m | id in s.nodes[r].requests && m in s'.wire && m.Reply? && m.id == id && m.dest == r ::
      m in s.wire || m.from !in s.nodes[r].requests[id].merged
    ensures RequestsOk(s', r) && ResultsOk(s', r)
  {
    forall id | id in s'.nodes[r].requests ensures GatheringOk(s', r, id, s'.nodes[r].requests[id]) {
      GatheringCarries(s, s', r, id, s.nodes[r].requests[id]);
    }
    forall id | id in s'.nodes[r].results ensures id in s'.issued && ResultOk(s', r, id, s'.nodes[r].results[id]) {
      ResultCarries(s, s', r, id, s.nodes[r].results[id]);
    }
  }

  lemma IssueKeepsRest(s: Cluster, s': Cluster, r: NodeId, id: ReqId, kind: Kind, g: Gathering, i: Issued)
    requires WireInv(s) && NotSelfAnswered(s) && r < |s.nodes| && id !in s.issued && i.node == r
    requires s' == Cluster(s.nodes[r := s.nodes[r].(requests := s.nodes[r].requests[id := g])],
                           s.wire + Asks(|s.nodes|, id, kind), s.issued[id := i], s.answers)
    ensures WireInv(s') && NotSelfAnswered(s')
  {
    assert forall j :: (id, j) !in s.answers;
  }

  lemma IssueKeeps(s: Cluster, r: NodeId, id: ReqId, kind: Kind, numSub: int, own: Response)
    requires Inv(s) && Possible(s, Issue(r, id, kind, numSub, own))
    ensures Inv(Apply(s, Issue(r, id, kind, numSub, own)))
  {
    hide Combines, Asks, WireInv, NotSelfAnswered, GatheringOk, ResultOk;
    var s' := Apply(s, Issue(r, id, kind, numSub, own));
    var g := Gathering(kind, numSub, own, 0, map[r := own]);
    IssueKeepsRest(s, s', r, id, kind, g, Issued(r, kind, numSub, own));
    CombinesOwn(kind, own, r, |s.nodes|);
    assert |map[r := own]| == 1;
    assert RequestsOk(s, r) && ResultsOk(s, r);
    NoReplyYet(s, s', id, kind);
    Advanced(s, s', r, id, g);
    forall q: NodeId | q < |s'.nodes| && q != r ensures RequestsOk(s', q) && ResultsOk(s', q) { NodeCarries(s, s', q); }
  }

  /** Issuing puts no reply on the wire, and none for a fresh id is there. */
  lemma NoReplyYet(s: Cluster, s': Cluster, id: ReqId, kind: Kind)
    requires WireInv(s) && id !in s.issued && s'.wire == s.wire + Asks(|s.nodes|, id, kind)
    ensures forall m | m in s'.wire && m.Reply? :: m in s.wire && m.id != id
  {
  }

  lemma ShrinkWireKeeps(s: Cluster, s': Cluster)
    requires Inv(s) && s' == s.(wire := s'.wire) && s'.wire <= s.wire
    ensures Inv(s')
  {
    forall q: NodeId | q < |s'.nodes| ensures RequestsOk(s', q) && ResultsOk(s', q) { NodeCarries(s, s', q); }
  }

  lemma AnswerKeeps(s: Cluster, ask: Envelope, answer: Response)
    requires Inv(s) && OneAsk(s) && Possible(s, DeliverAsk(ask, answer)) && Answers(s.nodes[ask.dest], ask.id)
    ensures Inv(Apply(s, DeliverAsk(ask, answer)))
  {
    var s' := Apply(s, DeliverAsk(ask, answer));
    assert (ask.id, ask.dest) !in s.answers;
    forall q: NodeId | q < |s'.nodes| ensures RequestsOk(s', q) && ResultsOk(s', q) {
      assert RequestsOk(s, q);
      forall i, m | i in s.nodes[q].requests && m in s'.wire && m.Reply? && m.id == i && m.dest == q
        ensures m in s.wire || m.from !in s.nodes[q].requests[i].merged
      {
        if m !in s.wire {
          assert m.from == ask.dest && i == ask.id;
          assert GatheringOk(s, q, i, s.nodes[q].requests[i]);
        }
      }
      NodeCarries(s, s', q);
    }
  }

  lemma MergedOk(s: Cluster, m: Envelope, g: Gathering)
    requires WireInv(s) && m in s.wire && m.Reply? && GatheringOk(s, m.dest, m.id, g) && m.from != m.dest
    ensures var merged := g.merged[m.from := m.response];
      && Exact(s, m.dest, m.id, g.kind, g.numSub, MergeInto(g.kind, g.acc, m.response), merged)
      && |merged| == g.count + 2
      && forall k | k in s.wire - {m} && k.Reply? && k.id == m.id && k.dest == m.dest :: k.from !in merged
  {
    CombinesMore(g.kind, g.acc, g.merged, m.from, m.response, |s.nodes|);
    var merged := g.merged[m.from := m.response];
    assert merged.Keys == g.merged.Keys + {m.from};
    forall k | k in s.wire - {m} && k.Reply? && k.id == m.id && k.dest == m.dest ensures k.from !in merged {
      assert k.from == m.from ==> k == m;
    }
  }

  lemma ReceiveKeepsRest(s: Cluster, s': Cluster, m: Envelope)
    requires WireInv(s) && NotSelfAnswered(s) && m in s.wire && m.Reply? && m.dest < |s.nodes|
    requires |s'.nodes| == |s.nodes| && s' == s.(nodes := s.nodes[m.dest := s'.nodes[m.dest]], wire := s.wire - {m})
    requires s'.nodes[m.dest].requests.Keys <= s.nodes[m.dest].requests.Keys
    ensures WireInv(s') && NotSelfAnswered(s')
  {
  }

  lemma ReceiveKeeps(s: Cluster, m: Envelope)
    requires Inv(s) && Possible(s, DeliverReply(m)) && m.id in s.nodes[m.dest].requests
    ensures Inv(Apply(s, DeliverReply(m)))
  {
    var s', r, id := Apply(s, DeliverReply(m)), m.dest, m.id;
    assert s' == s.(nodes := s.nodes[r := Receive(s.nodes[r], id, m.from, m.response)], wire := s.wire - {m});
    assert s'.nodes[r] == Receive(s.nodes[r], id, m.from, m.response);
    ReceiveKeepsRest(s, s', m);
    assert m.from != r;
    assert RequestsOk(s, r) && ResultsOk(s, r);
    ReceiverKeeps(s, s', m);
    forall q: NodeId | q < |s'.nodes| && q != r ensures RequestsOk(s', q) && ResultsOk(s', q) { NodeCarries(s, s', q); }
  }

  lemma ReceiverKeeps(s: Cluster, s': Cluster, m: Envelope)
    requires WireInv(s) && m in s.wire && m.Reply? && m.dest < |s.nodes| && m.id in s.nodes[m.dest].requests
    requires m.from != m.dest
    requires RequestsOk(s, m.dest) && ResultsOk(s, m.dest) && Continues(s, s') && s'.wire == s.wire - {m}
    requires s'.nodes[m.dest] == Receive(s.nodes[m.dest], m.id, m.from, m.response)
    ensures RequestsOk(s', m.dest) && ResultsOk(s', m.dest)
  {
    var r, id := m.dest, m.id;
    var g := s.nodes[r].requests[id];
    MergedOk(s, m, g);
    hide Combines, MergeInto;
    var g' := g.(acc := MergeInto(g.kind, g.acc, m.response), count := g.count + 1,
                 merged := g.merged[m.from := m.response]);
    ExactCarries(s, s', r, id, g'.kind, g'.numSub, g'.acc, g'.merged);
    if g'.count == g'.numSub - 1 {
      Finished(s, s', r, id, g', false);
    } else {
      Advanced(s, s', r, id, g');
    }
  }

  /** A gathering that took in one more answer and waits for others. */
  lemma Advanced(s: Cluster, s': Cluster, r: NodeId, id: ReqId, g: Gathering)
    requires r < |s.nodes| && RequestsOk(s, r) && ResultsOk(s, r) && Continues(s, s')
    requires forall m | m in s'.wire && m.Reply? :: m in s.wire
    requires s'.nodes[r] == s.nodes[r].(requests := s.nodes[r].requests[id := g])
    requires Exact(s', r, id, g.kind, g.numSub, g.acc, g.merged) && |g.merged| == g.count + 1 && g.count < g.numSub - 1
    requires forall m | m in s'.wire && m.Reply? && m.id == id && m.dest == r :: m.from !in g.merged
    ensures RequestsOk(s', r) && ResultsOk(s', r)
  {
    forall i | i in s'.nodes[r].requests ensures GatheringOk(s', r, i, s'.nodes[r].requests[i]) {
      if i == id { GatheringSteps(s, s', r, id, g); } else { GatheringCarries(s, s', r, i, s.nodes[r].requests[i]); }
    }
    forall i | i in s'.nodes[r].results ensures i in s'.issued && ResultOk(s', r, i, s'.nodes[r].results[i]) {
      ResultCarries(s, s', r, i, s.nodes[r].results[i]);
    }
  }

  /** A gathering that ended, completed or timed out. */
  lemma Finished(s: Cluster, s': Cluster, r: NodeId, id: ReqId, g: Gathering, timedOut: bool)
    requires r < |s.nodes| && RequestsOk(s, r) && ResultsOk(s, r) && Continues(s, s') && s'.wire <= s.wire
    requires id in s.issued
    requires s'.nodes[r] == Finish(s.nodes[r], id, g, timedOut)
    requires Exact(s', r, id, g.kind, g.numSub, g.acc, g.merged) && |g.merged| == g.count + 1
    requires if timedOut then g.count < g.numSub - 1 else g.count == g.numSub - 1
    ensures RequestsOk(s', r) && ResultsOk(s', r)
  {
    forall i | i in s'.nodes[r].requests ensures GatheringOk(s', r, i, s'.nodes[r].requests[i]) {
      GatheringCarries(s, s', r, i, s.nodes[r].requests[i]);
    }
    forall i | i in s'.nodes[r].results ensures i in s'.issued && ResultOk(s', r, i, s'.nodes[r].results[i]) {
      if i == id {
        assert s'.nodes[r].results[i] == Result(g.kind, g.numSub, g.acc, timedOut, g.merged);
      } else {
        ResultCarries(s, s', r, i, s.nodes[r].results[i]);
      }
    }
  }

  lemma GatheringSteps(s: Cluster, s': Cluster, r: NodeId, id: ReqId, g: Gathering)
    requires Exact(s', r, id, g.kind, g.numSub, g.acc, g.merged) && |g.merged| == g.count + 1 && g.count < g.numSub - 1
    requires Continues(s, s') && forall m | m in s'.wire && m.Reply? && m.id == id && m.dest == r :: m.from !in g.merged
    ensures GatheringOk(s', r, id, g)
  {
  }

  lemma ExactCarries(s: Cluster, s': Cluster, r: NodeId, id: ReqId, kind: Kind, numSub: int, acc: Response,
                     merged: map<NodeId, Response>)
    requires Exact(s, r, id, kind, numSub, acc, merged) && Continues(s, s')
    ensures Exact(s', r, id, kind, numSub, acc, merged)
  {
    hide Combines;
  }

  lemma TimeOutKeeps(s: Cluster, r: NodeId, id: ReqId)
    requires Inv(s) && Possible(s, TimeOut(r, id))
    ensures Inv(Apply(s, TimeOut(r, id)))
  {
    hide Combines, WireInv, NotSelfAnswered, ResultOk;
    var s', g := Apply(s, TimeOut(r, id)), s.nodes[r].requests[id];
    assert RequestsOk(s, r) && ResultsOk(s, r) && GatheringOk(s, r, id, g);
    ExactCarries(s, s', r, id, g.kind, g.numSub, g.acc, g.merged);
    TimeOutKeepsRest(s, s', r, id);
    Finished(s, s', r, id, g, true);
    forall q: NodeId | q < |s'.nodes| && q != r ensures RequestsOk(s', q) && ResultsOk(s', q) { NodeCarries(s, s', q); }
  }

  lemma TimeOutKeepsRest(s: Cluster, s': Cluster, r: NodeId, id: ReqId)
    requires WireInv(s) && NotSelfAnswered(s) && Possible(s, TimeOut(r, id)) && s' == Apply(s, TimeOut(r, id))
    ensures WireInv(s') && NotSelfAnswered(s')
  {
  }

  /** At most one request message per id and node, since all copies carry the issued kind. */
  ghost predicate OneAsk(s: Cluster) {
    forall m, k | m in s.wire && k in s.wire && m.Ask? && k.Ask? && m.id == k.id && m.dest == k.dest :: m == k
  }

  lemma StepKeeps(s: Cluster, step: Step)
    requires Inv(s) && OneAsk(s) && Possible(s, step)
    ensures Inv(Apply(s, step)) && OneAsk(Apply(s, step))
  {
    match step
    case Issue(r, id, kind, numSub, own) => IssueKeeps(s, r, id, kind, numSub, own);
    case DeliverAsk(ask, answer) =>
      if Answers(s.nodes[ask.dest], ask.id) {
        AnswerKeeps(s, ask, answer);
      } else {
        ShrinkWireKeeps(s, Apply(s, step));
      }
    case DeliverReply(m) =>
      if m.id in s.nodes[m.dest].requests {
        ReceiveKeeps(s, m);
      } else {
        assert Apply(s, step).nodes == s.nodes;
        ShrinkWireKeeps(s, Apply(s, step));
      }
    case TimeOut(r, id) => TimeOutKeeps(s, r, id);
    case Lose(m) => ShrinkWireKeeps(s, Apply(s, step));
  }

  lemma {:induction false} RunKeeps(n: nat, steps: seq<Step>)
    ensures Inv(Run(n, steps)) && OneAsk(Run(n, steps))
  {
    if steps != [] {
      RunKeeps(n, steps[..|steps| - 1]);
      var s, step := Run(n, steps[..|steps| - 1]), steps[|steps| - 1];
      if Possible(s, step) { StepKeeps(s, step); }
    }
  }

  // ---------- the main results ----------

  function AllNodes(n: nat): (all: set<NodeId>)
    ensures |all| == n && forall j: NodeId :: j in all <==> j < n
  {
    if n == 0 then {} else AllNodes(n - 1) + {n - 1}
  }

  lemma FullDomain(merged: map<NodeId, Response>, n: nat)
    requires (forall j | j in merged :: j < n) && |merged| == n
    ensures forall j: NodeId | j < n :: j in merged
  {
    var rest := AllNodes(n) - merged.Keys;
    assert AllNodes(n) == merged.Keys + rest;
    assert |rest| == 0;
  }

  /** The records are what the steps said: how a request was issued, and what a node answered. */
  lemma {:induction false} RecordsAreSteps(n: nat, steps: seq<Step>)
    ensures var s := Run(n, steps);
      && (forall id | id in s.issued ::
            var i := s.issued[id]; Issue(i.node, id, i.kind, i.numSub, i.own) in steps)
      && (forall id, j | (id, j) in s.answers ::
            exists kind :: DeliverAsk(Ask(j, id, kind), s.answers[(id, j)]) in steps)
  {
    if steps != [] {
      var init, last := steps[..|steps| - 1], steps[|steps| - 1];
      RecordsAreSteps(n, init);
      var s, s' := Run(n, init), Run(n, steps);
      assert steps == init + [last];
      forall id, j | (id, j) in s'.answers
        ensures exists kind :: DeliverAsk(Ask(j, id, kind), s'.answers[(id, j)]) in steps
      {
        if last.DeliverAsk? && Possible(s, last) && Answers(s.nodes[last.ask.dest], last.ask.id)
          && last.ask.id == id && last.ask.dest == j {
          assert DeliverAsk(Ask(j, id, last.ask.kind), s'.answers[(id, j)]) in steps;
        } else {
          var kind :| DeliverAsk(Ask(j, id, kind), s.answers[(id, j)]) in init;
          assert DeliverAsk(Ask(j, id, kind), s'.answers[(id, j)]) in steps;
        }
      }
    }
  }

  /** A gather that ends without a timeout has merged exactly numSub answers: with numSub equal to the number of nodes,
      the issuer's own part as it was passed in and the answer of every other node, each exactly once; on a timeout, the
      issuer's own part and the answers of the nodes that answered in time, fewer than numSub. Either way the response
      is the exact combination of those, for the kind and the number of subscribers the call was started with. */
  lemma GatherExactness(n: nat, steps: seq<Step>, r: NodeId, id: ReqId)
    requires r < n && id in Run(n, steps).nodes[r].results
    ensures var s := Run(n, steps);
      var res := s.nodes[r].results[id];
      && r in res.merged && Issue(r, id, res.kind, res.numSub, res.merged[r]) in steps
      && (forall j | j in res.merged && j != r :: (id, j) in s.answers && s.answers[(id, j)] == res.merged[j])
      && Combines(res.kind, res.response, res.merged, n)
      && (res.timedOut ==> |res.merged| < res.numSub)
      && (!res.timedOut ==> |res.merged| == res.numSub)
      && (!res.timedOut && res.numSub == n ==> forall j: NodeId | j < n :: j in res.merged)
  {
    RunKeeps(n, steps);
    RecordsAreSteps(n, steps);
    var s := Run(n, steps);
    var res := s.nodes[r].results[id];
    assert ResultsOk(s, r) && ResultOk(s, r, id, res);
    hide Run, Combines;
    assert s.issued[id] == Issued(r, res.kind, res.numSub, res.merged[r]);
    if !res.timedOut && res.numSub == n { FullDomain(res.merged, n); }
  }

  /** What that response is, kind by kind: each of the three counts the sum of the merged answers' counts, each of the
      two maps of counts their sum channel by channel, and the sockets and members those of any answer. */
  lemma GatherByKind(n: nat, steps: seq<Step>, r: NodeId, id: ReqId)
    requires r < n && id in Run(n, steps).nodes[r].results
    ensures var res := Run(n, steps).nodes[r].results[id];
      var response, answers := res.response, res.merged;
      && (res.kind == SocketsCount ==> response.totalCount == TotalOf(answers, n))
      && (res.kind == ChannelMembersCount ==> response.totalCount == TotalOf(answers, n))
      && (res.kind == ChannelSocketsCount ==> response.totalCount == TotalOf(answers, n))
      && (res.kind == ChannelsWithSocketsCount ==> IsPointwiseSum(response.counts, answers, n))
      && (res.kind == PresenceChannelsWithUsersCount ==> IsPointwiseSum(response.counts, answers, n))
      && (res.kind == ChannelSockets ==> IsUnion(response.entries, answers))
      && (res.kind == ChannelMembers ==> IsUnion(response.entries, answers))
  {
    hide Run, TotalOf, IsPointwiseSum, IsUnion;
    GatherExactness(n, steps, r, id);
  }

  /** In every interleaving, a node that gets back its own request or its own reply does nothing with it: the request is
      ignored while registered, and a reply it gave itself after deregistering finds nothing to merge into. */
  lemma SelfAnswersNeverMerged(n: nat, steps: seq<Step>, m: Envelope)
    requires m in Run(n, steps).wire
    ensures var s := Run(n, steps);
      && m.dest < n && m.id in s.issued
      && (m.Ask? && m.id in s.nodes[m.dest].requests ==>
            forall a :: Apply(s, DeliverAsk(m, a)) == s.(wire := s.wire - {m}))
      && (m.Reply? && m.from == m.dest ==>
            m.id !in s.nodes[m.dest].requests && Apply(s, DeliverReply(m)) == s.(wire := s.wire - {m}))
  {
    RunKeeps(n, steps);
    var s := Run(n, steps);
    if m.Reply? && m.from == m.dest {
      assert m.id !in s.nodes[m.dest].requests;
      assert Apply(s, DeliverReply(m)).nodes == s.nodes;
    }
  }

  /** Nothing that a registered request still waits for was lost. */
  predicate LosesNothingOf(steps: seq<Step>, r: NodeId, id: ReqId) {
    forall i | 0 <= i < |steps| && steps[i].Lose? && steps[i].lost.id == id ::
      steps[i].lost.Reply? && steps[i].lost.dest != r
  }

  /** Of every node whose answer a registered request has not merged, the request or the answer is on its way. */
  ghost predicate Outstanding(s: Cluster, r: NodeId, id: ReqId)
    requires r < |s.nodes| && id in s.nodes[r].requests
  {
    var g := s.nodes[r].requests[id];
    forall j: NodeId | j < |s.nodes| && j != r && j !in g.merged ::
      Ask(j, id, g.kind) in s.wire || ((id, j) in s.answers && Reply(r, j, id, s.answers[(id, j)]) in s.wire)
  }

  lemma OutstandingStep(s: Cluster, step: Step, r: NodeId, id: ReqId)
    requires Inv(s) && OneAsk(s) && Possible(s, step) && r < |s.nodes| && id in Apply(s, step).nodes[r].requests
    requires step.Lose? && step.lost.id == id ==> step.lost.Reply? && step.lost.dest != r
    requires id in s.nodes[r].requests ==> Outstanding(s, r, id)
    ensures Outstanding(Apply(s, step), r, id)
  {
    hide Combines, MergeInto;
  }

  lemma {:induction false} StaysOutstanding(n: nat, steps: seq<Step>, r: NodeId, id: ReqId)
    requires r < n && LosesNothingOf(steps, r, id) && id in Run(n, steps).nodes[r].requests
    ensures Outstanding(Run(n, steps), r, id)
  {
    var before, step := steps[..|steps| - 1], steps[|steps| - 1];
    assert forall i | 0 <= i < |before| :: before[i] == steps[i];
    var s := Run(n, before);
    RunKeeps(n, before);
    if id in s.nodes[r].requests { StaysOutstanding(n, before, r, id); }
    if Possible(s, step) { OutstandingStep(s, step, r, id); }
  }

  /** A gather is never stuck: as long as a request for no more subscribers than there are nodes is registered and
      nothing of it was lost, some node's answer is not in yet, and the request to it or its answer is on its way and
      can be delivered. */
  lemma NeverStuck(n: nat, steps: seq<Step>, r: NodeId, id: ReqId) returns (m: Envelope, j: NodeId)
    requires r < n && LosesNothingOf(steps, r, id) && id in Run(n, steps).nodes[r].requests
    requires Run(n, steps).nodes[r].requests[id].numSub <= n
    ensures var s := Run(n, steps);
      && m in s.wire && m.id == id && j != r && j < n && j !in s.nodes[r].requests[id].merged
      && if m.Ask?
         then m.dest == j && (forall a :: Possible(s, DeliverAsk(m, a))) && Answers(s.nodes[j], id)
         else m.dest == r && m.from == j && Possible(s, DeliverReply(m))
  {
    hide Run, Combines, Outstanding;
    RunKeeps(n, steps);
    StaysOutstanding(n, steps, r, id);
    m, j := Awaited(Run(n, steps), r, id);
  }

  lemma Awaited(s: Cluster, r: NodeId, id: ReqId) returns (m: Envelope, j: NodeId)
    requires Inv(s) && r < |s.nodes| && id in s.nodes[r].requests && s.nodes[r].requests[id].numSub <= |s.nodes|
    requires Outstanding(s, r, id)
    ensures m in s.wire && m.id == id && j != r && j < |s.nodes| && j !in s.nodes[r].requests[id].merged
    ensures if m.Ask? then m.dest == j && Answers(s.nodes[j], id) else m.dest == r && m.from == j
  {
    hide Combines, WireInv;
    var g := s.nodes[r].requests[id];
    assert RequestsOk(s, r) && GatheringOk(s, r, id, g);
    j := SomeoneMissing(g.merged, |s.nodes|);
    m := if Ask(j, id, g.kind) in s.wire then Ask(j, id, g.kind) else Reply(r, j, id, s.answers[(id, j)]);
    RegisteredOnce(s, r, j, id);
  }

  lemma SomeoneMissing(merged: map<NodeId, Response>, n: nat) returns (j: NodeId)
    requires |merged| < n && forall i | i in merged :: i < n
    ensures j < n && j !in merged
  {
    var missing := AllNodes(n) - merged.Keys;
    assert |merged.Keys| == |merged|;
    assert AllNodes(n) == missing + merged.Keys;
    j :| j in missing;
  }

  lemma RegisteredOnce(s: Cluster, r: NodeId, j: NodeId, id: ReqId)
    requires NotSelfAnswered(s) && r < |s.nodes| && j < |s.nodes| && j != r && id in s.nodes[r].requests
    ensures id !in s.nodes[j].requests
  {
    assert s.issued[id].node == r;
  }

  /** The receive loop never overshoots: as long as a request is registered fewer than numSub - 1 answers came in, and
      each further one either completes it or brings it strictly closer. */
  lemma NeverOvershoots(n: nat, steps: seq<Step>, m: Envelope)
    requires m in Run(n, steps).wire && m.Reply? && m.dest < n && m.id in Run(n, steps).nodes[m.dest].requests
    ensures var s := Run(n, steps);
      var g, node' := s.nodes[m.dest].requests[m.id], Apply(s, DeliverReply(m)).nodes[m.dest];
      && 0 < g.numSub - 1 - g.count
      && (if m.id in node'.requests
          then 0 < node'.requests[m.id].numSub - 1 - node'.requests[m.id].count < g.numSub - 1 - g.count
          else m.id in node'.results && !node'.results[m.id].timedOut)
  {
    RunKeeps(n, steps);
    var s := Run(n, steps);
    assert RequestsOk(s, m.dest);
  }
}
