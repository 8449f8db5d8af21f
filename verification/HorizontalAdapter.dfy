/** Issuing, answering and collecting a gather as the program does it (internal/adaptersHorizontal.go), proved against
    the protocol steps of Gather.dfy and the fold of Merge.dfy. */
module HorizontalAdapterClass {
  import opened Wrappers
  import opened Merge
  import opened Gather

  // ---------- merging one answer ----------

  /** The sum while some channels are still to be added. */
  ghost function SumBut(acc: map<string, int>, counts: map<string, int>, todo: set<string>): map<string, int> {
    AddCounts(acc, counts - todo)
  }

  lemma SumButAllOrNone(acc: map<string, int>, counts: map<string, int>)
    ensures SumBut(acc, counts, counts.Keys) == acc && SumBut(acc, counts, {}) == AddCounts(acc, counts)
  {
    assert counts - counts.Keys == map[] && counts - {} == counts;
  }

  lemma SumButOneLess(acc: map<string, int>, counts: map<string, int>, todo: set<string>, c: string)
    requires c in todo && c in counts
    ensures var sum := SumBut(acc, counts, todo);
      SumBut(acc, counts, todo - {c}) == sum[c := (if c in sum then sum[c] else 0) + counts[c]]
  {
    var sum, more := SumBut(acc, counts, todo), SumBut(acc, counts, todo - {c});
    assert more.Keys == sum.Keys + {c};
  }

  /** The loop over the counts of an answer. */
  method MergeCounts(acc: map<string, int>, counts: map<string, int>) returns (sum: map<string, int>)
    ensures sum == AddCounts(acc, counts)
  {
    hide *;
    SumButAllOrNone(acc, counts);
    sum := acc;
    var todo := counts.Keys;
    while todo != {}
      invariant todo <= counts.Keys && sum == SumBut(acc, counts, todo)
      decreases |todo|
    {
      var c :| c in todo;
      SumButOneLess(acc, counts, todo, c);
      if c in sum {
        sum := sum[c := sum[c] + counts[c]];
      } else {
        sum := sum[c := counts[c]];
      }
      todo := todo - {c};
    }
  }

  /** The loop over the members or sockets of an answer: a later answer replaces an entry. */
  method MergeEntries(acc: map<string, string>, entries: map<string, string>) returns (union: map<string, string>)
    ensures union == acc + entries
  {
    union := acc;
    var todo := entries.Keys;
    while todo != {}
      invariant todo <= entries.Keys
      invariant union.Keys == acc.Keys + (entries.Keys - todo)
      invariant forall k | k in acc && (k !in entries || k in todo) :: union[k] == acc[k]
      invariant forall k | k in entries.Keys - todo :: union[k] == entries[k]
      decreases |todo|
    {
      var k :| k in todo;
      union := union[k := entries[k]];
      todo := todo - {k};
    }
  }

  /** Counts add up, count maps add up channel by channel, members and sockets are put together. */
  method MergeAnswer(kind: Kind, acc: Response, answer: Response) returns (merged: Response)
    ensures merged == MergeInto(kind, acc, answer)
    ensures kind == SocketsCount || kind == ChannelMembersCount || kind == ChannelSocketsCount ==>
      merged == acc.(totalCount := acc.totalCount + answer.totalCount)
    ensures kind == ChannelsWithSocketsCount || kind == PresenceChannelsWithUsersCount ==>
      && merged == acc.(counts := merged.counts) && merged.counts.Keys == acc.counts.Keys + answer.counts.Keys
      && forall c | c in merged.counts ::
           merged.counts[c] == (if c in acc.counts then acc.counts[c] else 0)
             + (if c in answer.counts then answer.counts[c] else 0)
    ensures kind == ChannelSockets || kind == ChannelMembers ==>
      merged == acc.(entries := acc.entries + answer.entries)
  {
    merged := acc;
    match kind {
      case ChannelSockets =>
        var union := MergeEntries(acc.entries, answer.entries);
        merged := acc.(entries := union);
      case ChannelMembers =>
        var union := MergeEntries(acc.entries, answer.entries);
        merged := acc.(entries := union);
      case ChannelsWithSocketsCount =>
        var sum := MergeCounts(acc.counts, answer.counts);
        merged := acc.(counts := sum);
      case PresenceChannelsWithUsersCount =>
        var sum := MergeCounts(acc.counts, answer.counts);
        merged := acc.(counts := sum);
      case _ =>
        if answer.totalCount != 0 {
          merged := acc.(totalCount := acc.totalCount + answer.totalCount);
        }
    }
  }

  // ---------- the receive loop ----------

  /** What the select statement of the loop yields next. */
  datatype Input = Arrived(answer: Response) | Timeout

  function AnswersIn(inputs: seq<Input>): seq<Response>
    requires forall i | 0 <= i < |inputs| :: inputs[i].Arrived?
  {
    seq(|inputs|, i requires 0 <= i < |inputs| => inputs[i].answer)
  }

  lemma AnswersMore(inputs: seq<Input>, i: nat)
    requires i < |inputs| && forall j | 0 <= j <= i :: inputs[j].Arrived?
    ensures AnswersIn(inputs[..i + 1]) == AnswersIn(inputs[..i]) + [inputs[i].answer]
  {
  }

  lemma FoldMore(kind: Kind, own: Response, received: seq<Response>, r: Response)
    ensures Fold(kind, own, received + [r]) == MergeInto(kind, Fold(kind, own, received), r)
  {
    assert (received + [r])[..|received|] == received;
  }

  /** waitForResponse: returns the fold of the requester's own part and the answers taken, in the order taken; it takes
      exactly numSub - 1 answers, or all those before the first timeout if that comes earlier. The timer sees to it that
      the inputs are long enough. */
  method WaitForResponse(kind: Kind, numSub: int, own: Response, inputs: seq<Input>)
    returns (final: Response, taken: nat, timedOut: bool)
    requires numSub >= 2
    requires |inputs| >= numSub - 1 || Timeout in inputs
    ensures taken <= |inputs| && forall i | 0 <= i < taken :: inputs[i].Arrived?
    ensures final == Fold(kind, own, AnswersIn(inputs[..taken]))
    ensures if timedOut then taken < numSub - 1 && taken < |inputs| && inputs[taken].Timeout? else taken == numSub - 1
  {
    final := own;
    var countOfMessages := 0;
    while true
      invariant 0 <= countOfMessages < numSub - 1 && countOfMessages <= |inputs|
      invariant forall i | 0 <= i < countOfMessages :: inputs[i].Arrived?
      invariant final == Fold(kind, own, AnswersIn(inputs[..countOfMessages]))
      decreases numSub - 1 - countOfMessages
    {
      assert countOfMessages < |inputs|;
      var input := inputs[countOfMessages];
      if input.Timeout? {
        return final, countOfMessages, true;
      }
      AnswersMore(inputs, countOfMessages);
      FoldMore(kind, own, AnswersIn(inputs[..countOfMessages]), input.answer);
      countOfMessages := countOfMessages + 1;
      final := MergeAnswer(kind, final, input.answer);
      if countOfMessages == numSub - 1 {
        return final, countOfMessages, false;
      }
    }
  }

  // ---------- the loop against the protocol ----------

  /** A node's table after a registered request was handed these answers one by one. */
  function ReceiveAll(node: Node, id: ReqId, from: seq<NodeId>, answers: seq<Response>): Node
    requires |from| == |answers|
  {
    if answers == [] then node
    else
      var n := |answers| - 1;
      Receive(ReceiveAll(node, id, from[..n], answers[..n]), id, from[n], answers[n])
  }

  lemma {:induction false} ReceiveAllWaits(node: Node, id: ReqId, kind: Kind, numSub: int, self: NodeId, own: Response,
                                           from: seq<NodeId>, answers: seq<Response>)
    requires |from| == |answers| && |answers| < numSub - 1
    ensures var node' := ReceiveAll(Register(node, id, kind, numSub, self, own), id, from, answers);
      && id in node'.requests
      && node'.requests[id].kind == kind && node'.requests[id].numSub == numSub && node'.requests[id].count == |answers|
      && node'.requests[id].acc == Fold(kind, own, answers)
      && node'.requests - {id} == node.requests - {id} && node'.results == node.results
  {
    if answers != [] {
      var n := |answers| - 1;
      ReceiveAllWaits(node, id, kind, numSub, self, own, from[..n], answers[..n]);
    }
  }

  /** The loop refines the protocol: handing the same answers to a registered request, one message at a time, ends the
      gather after the same number of answers and with the response the loop returns; one answer fewer, or a timeout in
      between, leaves the request waiting with what the loop has folded so far. */
  lemma LoopRefinesProtocol(node: Node, id: ReqId, kind: Kind, numSub: int, self: NodeId, own: Response,
                            from: seq<NodeId>, answers: seq<Response>)
    requires numSub >= 2 && |from| == |answers| <= numSub - 1
    ensures var node' := ReceiveAll(Register(node, id, kind, numSub, self, own), id, from, answers);
      if |answers| == numSub - 1 then
        && id !in node'.requests && id in node'.results && !node'.results[id].timedOut
        && node'.results[id].response == Fold(kind, own, answers)
      else
        && id in node'.requests && node'.requests[id].acc == Fold(kind, own, answers)
        && Finish(node', id, node'.requests[id], true).results[id].response == Fold(kind, own, answers)
  {
    if |answers| == numSub - 1 {
      var n := |answers| - 1;
      ReceiveAllWaits(node, id, kind, numSub, self, own, from[..n], answers[..n]);
    } else {
      ReceiveAllWaits(node, id, kind, numSub, self, own, from, answers);
    }
  }

  // ---------- the adapter's table of requests ----------

  class HorizontalAdapter {
    const self: NodeId
    var requests: map<ReqId, Gathering>
    var results: map<ReqId, Result> // what the calls of sendRequest returned

    constructor (self: NodeId)
      ensures this.self == self && View() == Node(map[], map[])
    {
      this.self := self;
      requests, results := map[], map[];
    }

    function View(): Node
      reads this
    {
      Node(requests, results)
    }

    /** The first half of sendRequest; the request body then goes to every subscriber. */
    method SendRequest(id: ReqId, kind: Kind, numSub: int, own: Response)
      requires numSub >= 2
      modifies this
      ensures View() == Register(old(View()), id, kind, numSub, self, own)
    {
      requests := requests[id := Gathering(kind, numSub, own, 0, map[self := own])];
    }

    /** onRequest: `local` is this node's own part. A request registered here is not processed. */
    method OnRequest(id: ReqId, local: Response) returns (reply: Option<Response>)
      ensures reply == if Gather.Answers(View(), id) then Some(local) else None
    {
      if id in requests {
        return None;
      }
      return Some(local);
    }

    /** onResponse with the hand-over to the receive loop and one turn of the loop. */
    method OnResponse(id: ReqId, from: NodeId, answer: Response)
      modifies this
      ensures View() == Receive(old(View()), id, from, answer)
    {
      if id !in requests {
        return;
      }
      var g := requests[id];
      var acc := MergeAnswer(g.kind, g.acc, answer);
      var countOfMessages := g.count + 1;
      g := g.(acc := acc, count := countOfMessages, merged := g.merged[from := answer]);
      if countOfMessages == g.numSub - 1 {
        Resolve(id, g, false);
      } else {
        requests := requests[id := g];
      }
    }

    method OnTimeout(id: ReqId)
      requires id in requests
      modifies this
      ensures View() == Finish(old(View()), id, old(requests)[id], true)
    {
      Resolve(id, requests[id], true);
    }

    /** The response is returned and the request deregistered. */
    method Resolve(id: ReqId, g: Gathering, timedOut: bool)
      modifies this
      ensures View() == Finish(old(View()), id, g, timedOut)
    {
      results := results[id := Result(g.kind, g.numSub, g.acc, timedOut, g.merged)];
      requests := requests - {id};
    }

    /** The getters: the local part alone when asked for, when the number of subscribers is unknown, or when there is no
        other node; otherwise what a gather returns. */
    method Get(kind: Kind, local: Response, onlyLocal: bool, numSub: Option<int>, inputs: seq<Input>)
      returns (response: Response, taken: nat)
      requires !onlyLocal && numSub.Some? && numSub.value >= 2 ==> |inputs| >= numSub.value - 1 || Timeout in inputs
      ensures taken <= |inputs| && forall i | 0 <= i < taken :: inputs[i].Arrived?
      ensures response == Fold(kind, local, AnswersIn(inputs[..taken]))
      ensures if onlyLocal || numSub.None? || numSub.value <= 1 then taken == 0
        else taken == numSub.value - 1 || (taken < numSub.value - 1 && taken < |inputs| && inputs[taken].Timeout?)
    {
      if onlyLocal {
        return local, 0;
      }
      if numSub == None || numSub.value <= 1 {
        return local, 0;
      }
      var timedOut;
      response, taken, timedOut := WaitForResponse(kind, numSub.value, local, inputs);
    }
  }
}
