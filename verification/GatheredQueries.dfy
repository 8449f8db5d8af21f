/** What the queries about the whole cluster return: a completed gather, in any interleaving, in which every node
    answered for itself as its namespace does (internal/adaptersHorizontal.go, internal/namespace.go). */
module GatheredQueries {
  import opened Names
  import opened Membership
  import opened ClusterMembership
  import opened Merge
  import G = Gather

  /** The call returned without a timeout after hearing from as many subscribers as there are nodes. */
  ghost predicate Completed(n: nat, steps: seq<G.Step>, r: nat, id: G.ReqId, kind: Kind) {
    r < n && id in G.Run(n, steps).nodes[r].results &&
    var res := G.Run(n, steps).nodes[r].results[id];
    !res.timedOut && res.numSub == n && res.kind == kind
  }

  /** What node j said: the part the call was started with, or the node's answer (see Gather.GatherExactness). */
  ghost function Said(n: nat, steps: seq<G.Step>, r: nat, id: G.ReqId, kind: Kind, j: nat): Response
    requires Completed(n, steps, r, id, kind) && j < n
  {
    G.GatherExactness(n, steps, r, id);
    G.Run(n, steps).nodes[r].results[id].merged[j]
  }

  ghost function Returned(n: nat, steps: seq<G.Step>, r: nat, id: G.ReqId, kind: Kind): Response
    requires Completed(n, steps, r, id, kind)
  {
    G.Run(n, steps).nodes[r].results[id].response
  }

  /** The returned response combines what every node said. */
  lemma EveryoneSaid(n: nat, steps: seq<G.Step>, r: nat, id: G.ReqId, kind: Kind)
    returns (answers: map<NodeId, Response>)
    requires Completed(n, steps, r, id, kind)
    ensures Combines(kind, Returned(n, steps, r, id, kind), answers, n)
    ensures forall j: nat :: j in answers <==> j < n
    ensures forall j: nat | j < n :: answers[j] == Said(n, steps, r, id, kind, j)
  {
    G.GatherExactness(n, steps, r, id);
    G.RunKeeps(n, steps);
    answers := G.Run(n, steps).nodes[r].results[id].merged;
    assert G.ResultsOk(G.Run(n, steps), r);
    assert G.ResultOk(G.Run(n, steps), r, id, G.Run(n, steps).nodes[r].results[id]);
  }

  // ---------- counts ----------

  lemma {:induction false} TotalIsCount(answers: map<NodeId, Response>, nodes: seq<State>, c: ChannelName, n: nat)
    requires n <= |nodes|
    requires forall j: nat | j < n :: j in answers && answers[j].totalCount == |MemberIds(nodes[j], c)|
    ensures TotalOf(answers, n) == GatheredCount(nodes[..n], c)
  {
    if n > 0 {
      TotalIsCount(answers, nodes, c, n - 1);
      assert nodes[..n][..n - 1] == nodes[..n - 1];
    }
  }

  /** GetChannelMembersCount: the sum of the nodes' member counts, which a presence join compares with the limit. */
  lemma ReturnsMemberCount(nodes: seq<State>, c: ChannelName, steps: seq<G.Step>, r: nat, id: G.ReqId)
    requires Completed(|nodes|, steps, r, id, ChannelMembersCount)
    requires forall j: nat | j < |nodes| ::
      Said(|nodes|, steps, r, id, ChannelMembersCount, j).totalCount == |MemberIds(nodes[j], c)|
    ensures Returned(|nodes|, steps, r, id, ChannelMembersCount).totalCount == GatheredCount(nodes, c)
  {
    hide Completed, Said, Returned, MemberIds, TotalOf;
    var answers := EveryoneSaid(|nodes|, steps, r, id, ChannelMembersCount);
    TotalIsCount(answers, nodes, c, |nodes|);
    assert nodes[..|nodes|] == nodes;
  }

  lemma {:induction false} TotalIsConnections(answers: map<NodeId, Response>, nodes: seq<State>, c: ChannelName, n: nat)
    requires n <= |nodes|
    requires forall j: nat | j < n ::
      j in answers && answers[j].totalCount == |Membership.ChannelSockets(nodes[j], c)|
    ensures TotalOf(answers, n) == Connections(nodes[..n], c)
  {
    if n > 0 {
      TotalIsConnections(answers, nodes, c, n - 1);
      assert nodes[..n][..n - 1] == nodes[..n - 1];
    }
  }

  /** GetChannelSocketsCount: the number of connections in the cluster, which decides about first and last ones. */
  lemma ReturnsConnections(nodes: seq<State>, c: ChannelName, steps: seq<G.Step>, r: nat, id: G.ReqId)
    requires Completed(|nodes|, steps, r, id, ChannelSocketsCount)
    requires forall j: nat | j < |nodes| ::
      Said(|nodes|, steps, r, id, ChannelSocketsCount, j).totalCount == |Membership.ChannelSockets(nodes[j], c)|
    ensures Returned(|nodes|, steps, r, id, ChannelSocketsCount).totalCount == Connections(nodes, c)
  {
    hide Completed, Said, Returned, Membership.ChannelSockets, TotalOf;
    var answers := EveryoneSaid(|nodes|, steps, r, id, ChannelSocketsCount);
    TotalIsConnections(answers, nodes, c, |nodes|);
    assert nodes[..|nodes|] == nodes;
  }

  // ---------- members ----------

  /** GetChannelMembers: the users of the channel on any node, which a joining socket is sent and compared with. */
  lemma ReturnsMembers(nodes: seq<State>, c: ChannelName, steps: seq<G.Step>, r: nat, id: G.ReqId)
    requires Completed(|nodes|, steps, r, id, ChannelMembers)
    requires forall j: nat | j < |nodes| ::
      Said(|nodes|, steps, r, id, ChannelMembers, j).entries.Keys == MemberIds(nodes[j], c)
    ensures Returned(|nodes|, steps, r, id, ChannelMembers).entries.Keys == ClusterMembers(nodes, c)
  {
    hide Completed, Said, Returned, MemberIds, ClusterMembers;
    var answers := EveryoneSaid(|nodes|, steps, r, id, ChannelMembers);
    var entries := Returned(|nodes|, steps, r, id, ChannelMembers).entries;
    ClusterMembersAre(nodes, c);
    forall u ensures u in entries.Keys <==> u in ClusterMembers(nodes, c) {
      if j: nat :| j in answers && u in answers[j].entries { assert u in MemberIds(nodes[j], c); }
      if j: nat :| j < |nodes| && u in MemberIds(nodes[j], c) { assert j in answers && u in answers[j].entries; }
    }
  }

  // ---------- channels ----------

  lemma {:induction false} CountIsMembers(answers: map<NodeId, Response>, nodes: seq<State>, c: ChannelName, n: nat)
    requires n <= |nodes|
    requires forall j: nat | j < n ::
      j in answers && (if c in answers[j].counts then answers[j].counts[c] else 0) == |MemberIds(nodes[j], c)|
    ensures CountOf(answers, n, c) == GatheredCount(nodes[..n], c)
  {
    if n > 0 {
      CountIsMembers(answers, nodes, c, n - 1);
      assert nodes[..n][..n - 1] == nodes[..n - 1];
    }
  }

  /** GetPresenceChannelsWithUsersCount: the presence channels of all nodes, each with the sum of its member counts. */
  lemma ReturnsUserCounts(nodes: seq<State>, steps: seq<G.Step>, r: nat, id: G.ReqId, c: ChannelName)
    requires Completed(|nodes|, steps, r, id, PresenceChannelsWithUsersCount)
    requires forall j: nat | j < |nodes| ::
      var counts := Said(|nodes|, steps, r, id, PresenceChannelsWithUsersCount, j).counts;
      && (c in counts <==> c in nodes[j].channels && IsPresence(c))
      && (c in counts ==> counts[c] == |MemberIds(nodes[j], c)|)
    ensures var counts := Returned(|nodes|, steps, r, id, PresenceChannelsWithUsersCount).counts;
      && (c in counts <==> IsPresence(c) && exists j: nat :: j < |nodes| && c in nodes[j].channels)
      && (c in counts ==> counts[c] == GatheredCount(nodes, c))
  {
    hide Completed, Said, Returned, IsPresence, CountOf;
    var answers := EveryoneSaid(|nodes|, steps, r, id, PresenceChannelsWithUsersCount);
    var counts := Returned(|nodes|, steps, r, id, PresenceChannelsWithUsersCount).counts;
    assert nodes[..|nodes|] == nodes;
    forall j: nat | j < |nodes| && IsPresence(c)
      ensures (if c in answers[j].counts then answers[j].counts[c] else 0) == |MemberIds(nodes[j], c)|
    {
      if c !in nodes[j].channels { assert MemberIds(nodes[j], c) == {}; }
    }
    if c in counts { CountIsMembers(answers, nodes, c, |nodes|); }
    if IsPresence(c) {
      if j: nat :| j < |nodes| && c in nodes[j].channels { assert j in answers && c in answers[j].counts; }
    }
  }
}
