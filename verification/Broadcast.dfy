/** Cluster-wide sends (HorizontalAdapter.Send, RedisAdapter.onMessage): any number of sends in flight, membership
    changing meanwhile, every interleaving of receptions and losses. */
module Broadcast {
  import opened Names
  import opened Wrappers
  import opened Membership

  // ---------- what goes over the wire and how the pattern subscription reads it ----------

  /** Everything the pattern subscription of a node sees. */
  datatype Traffic =
    | Message(uuid: string, app: AppId, channel: ChannelName, data: string, exceptingId: SocketId)
    | RequestBody(requestId: string, appOfRequest: AppId)
    | ResponseBody(requestId: string)

  datatype Decoded = Decoded(
    uuid: string, app: AppId, channel: ChannelName, data: Option<string>, exceptingIds: SocketId)

  /** Decoding by field name: the sender writes ExceptingId, the receiver reads ExceptingIds, which therefore stays
      empty; requests and responses have no Channel field. */
  function Decode(t: Traffic): Decoded {
    match t
    case Message(uuid, app, channel, data, _) => Decoded(uuid, app, channel, Some(data), "")
    case RequestBody(_, app) => Decoded("", app, "", None, "")
    case ResponseBody(_) => Decoded("", "", "", None, "")
  }

  datatype Node = Node(uuid: string, apps: map<AppId, State>)

  predicate Ignored(node: Node, m: Decoded) {
    node.uuid == m.uuid || m.app == "" || m.channel == "" || m.data == Some("")
  }

  /** Whom a local send is meant for, with multiplicity: a user channel goes down the user's list of sockets, any other
      channel to its subscribers; nobody if the app has no namespace on this node. */
  function Audience(node: Node, app: AppId, c: ChannelName): multiset<SocketId> {
    if app !in node.apps then multiset{}
    else if IsUserChannel(c) then multiset(UserSockets(node.apps[app], c[|USER_PREFIX|..]))
    else multiset(ChannelSockets(node.apps[app], c))
  }

  /** Whom it reaches: the exclusion does not apply to user channels. */
  function Reached(node: Node, app: AppId, c: ChannelName, except: SocketId): multiset<SocketId> {
    if app !in node.apps || IsUserChannel(c) then Audience(node, app, c)
    else multiset(Recipients(node.apps[app], c, except))
  }

  /** What a receiver writes to the sockets. */
  function Payload(t: Traffic): string {
    match Decode(t).data
    case Some(data) => data
    case None => ""
  }

  function ReachedOnMessage(node: Node, t: Traffic): multiset<SocketId> {
    var m := Decode(t);
    if Ignored(node, m) then multiset{} else Reached(node, m.app, m.channel, m.exceptingIds)
  }

  lemma {:induction false} LiveCopies(ids: seq<SocketId>, live: set<SocketId>, socket: SocketId)
    ensures multiset(LiveOnly(ids, live))[socket] == if socket in live then multiset(ids)[socket] else 0
  {
    if ids != [] {
      assert ids == ids[..|ids| - 1] + [ids[|ids| - 1]];
      LiveCopies(ids[..|ids| - 1], live, socket);
    }
  }

  /** A local send reaches the registered sockets of the app only: on the channel of a user, as often as the user's list
      has them and whoever is excluded; on any other channel, each subscriber once but the excluded one. */
  lemma ReachedAre(node: Node, app: AppId, c: ChannelName, except: SocketId, socket: SocketId)
    ensures Reached(node, app, c, except)[socket] ==
      if app !in node.apps || socket !in node.apps[app].sockets then 0
      else if "#server-to-user-" <= c then multiset(Listed(node.apps[app].users, c[16..]))[socket]
      else if socket in Listed(node.apps[app].channels, c) && (except == "" || socket != except) then 1
      else 0
    ensures Audience(node, app, c) == Reached(node, app, c, "")
  {
    if app in node.apps && IsUserChannel(c) {
      LiveCopies(Listed(node.apps[app].users, c[16..]), node.apps[app].sockets.Keys, socket);
    }
  }

  /** Request and response traffic seen by the pattern subscription delivers nothing. */
  lemma GatherTrafficDeliversNothing(node: Node, t: Traffic)
    requires !t.Message?
    ensures ReachedOnMessage(node, t) == multiset{}
  {
  }

  // ---------- the cluster ----------

  datatype Sending = Sending(origin: nat, app: AppId, channel: ChannelName, data: string, except: SocketId)

  /** `audience` records whom message `mid` was meant for on node j when the node processed it, `delivered` how often
      which text was written to each socket on its account. */
  datatype Cluster = Cluster(
    nodes: seq<Node>, sendings: seq<Sending>, wire: set<(nat, nat)>,
    audience: map<(nat, nat), multiset<SocketId>>, delivered: map<(nat, nat, string), multiset<SocketId>>)

  datatype Step =
    | Send(sending: Sending)
    | Receive(node: nat, mid: nat)
    | SeeGatherTraffic(observer: nat, traffic: Traffic)
    | ChangeMembership(changed: nat, apps: map<AppId, State>)
    | Lose(loser: nat, lost: nat)

  function OnTheWire(s: Cluster, m: Sending): Traffic
    requires m.origin < |s.nodes|
  {
    Message(s.nodes[m.origin].uuid, m.app, m.channel, m.data, m.except)
  }

  function DeliveredAt(s: Cluster, j: nat, mid: nat, text: string): multiset<SocketId> {
    if (j, mid, text) in s.delivered then s.delivered[(j, mid, text)] else multiset{}
  }

  function WithDelivered(s: Cluster, j: nat, mid: nat, text: string, sockets: multiset<SocketId>)
    : map<(nat, nat, string), multiset<SocketId>>
  {
    s.delivered[(j, mid, text) := DeliveredAt(s, j, mid, text) + sockets]
  }

  predicate Possible(s: Cluster, step: Step) {
    match step
    case Send(m) => m.origin < |s.nodes|
    case Receive(j, mid) =>
      (j, mid) in s.wire && j < |s.nodes| && mid < |s.sendings| && s.sendings[mid].origin < |s.nodes|
    case SeeGatherTraffic(j, t) => j < |s.nodes| && !t.Message?
    case ChangeMembership(j, _) => j < |s.nodes|
    case Lose(j, mid) => true
  }

  function Everyone(n: nat, mid: nat): set<(nat, nat)> {
    set j: nat | j < n :: (j, mid)
  }

  function Apply(s: Cluster, step: Step): Cluster
    requires Possible(s, step)
  {
    match step
    case Send(m) =>
      var mid := |s.sendings|;
      var node := s.nodes[m.origin];
      s.(sendings := s.sendings + [m],
         wire := s.wire + Everyone(|s.nodes|, mid),
         audience := s.audience[(m.origin, mid) := Audience(node, m.app, m.channel)],
         delivered := WithDelivered(s, m.origin, mid, m.data, Reached(node, m.app, m.channel, m.except)))
    case Receive(j, mid) =>
      var m, t := s.sendings[mid], OnTheWire(s, s.sendings[mid]);
      s.(wire := s.wire - {(j, mid)},
         audience :=
           if j == m.origin then s.audience
           else s.audience[(j, mid) := Audience(s.nodes[j], m.app, m.channel)],
         delivered := WithDelivered(s, j, mid, Payload(t), ReachedOnMessage(s.nodes[j], t)))
    case SeeGatherTraffic(j, t) =>
      s.(delivered := WithDelivered(s, j, |s.sendings|, Payload(t), ReachedOnMessage(s.nodes[j], t)))
    case ChangeMembership(j, apps) => s.(nodes := s.nodes[j := s.nodes[j].(apps := apps)])
    case Lose(j, mid) => s.(wire := s.wire - {(j, mid)})
  }

  function Run(nodes: seq<Node>, steps: seq<Step>): Cluster {
    if steps == [] then Cluster(nodes, [], {}, map[], map[])
    else
      var s, step := Run(nodes, steps[..|steps| - 1]), steps[|steps| - 1];
      if Possible(s, step) then Apply(s, step) else s
  }

  // ---------- exactly once ----------

  /** What the onMessage guards let through. */
  predicate Forwarded(m: Sending) {
    m.app != "" && m.channel != "" && m.data != ""
  }

  /** How many copies of a message a socket is entitled to on node j: as many as it stands in the audience, but none if
      it is excluded, which works on the sending node and on ordinary channels only, and none elsewhere if the message
      is not forwarded. */
  function Entitled(m: Sending, j: nat, socket: SocketId, audience: multiset<SocketId>): nat {
    if j != m.origin then (if Forwarded(m) then audience[socket] else 0)
    else if !IsUserChannel(m.channel) && m.except != "" && socket == m.except then 0
    else audience[socket]
  }

  ghost predicate DistinctUuids(nodes: seq<Node>) {
    forall i, j | 0 <= i < |nodes| && 0 <= j < |nodes| && i != j :: nodes[i].uuid != nodes[j].uuid
  }

  ghost predicate Inv(s: Cluster) {
    && DistinctUuids(s.nodes)
    && (forall i | 0 <= i < |s.sendings| :: s.sendings[i].origin < |s.nodes|)
    && (forall i | 0 <= i < |s.sendings| :: (s.sendings[i].origin, i) in s.audience)
    && (forall j, mid | (j, mid) in s.wire ::
          mid < |s.sendings| && (j != s.sendings[mid].origin ==> (j, mid) !in s.audience))
    && (forall j, mid | (j, mid) in s.audience :: mid < |s.sendings|)
    && Delivered(s)
  }

  ghost predicate Delivered(s: Cluster) {
    forall j: nat, mid: nat, text, socket :: DeliveredAt(s, j, mid, text)[socket] == Expected(s, j, mid, text, socket)
  }

  function Expected(s: Cluster, j: nat, mid: nat, text: string, socket: SocketId): nat {
    if mid < |s.sendings| && (j, mid) in s.audience && text == s.sendings[mid].data
    then Entitled(s.sendings[mid], j, socket, s.audience[(j, mid)])
    else 0
  }

  /** On the sending node. */
  lemma ReachedIsEntitled(node: Node, m: Sending, socket: SocketId)
    ensures Reached(node, m.app, m.channel, m.except)[socket]
      == Entitled(m, m.origin, socket, Audience(node, m.app, m.channel))
  {
  }

  lemma SendOnce(s: Cluster, m: Sending)
    requires Inv(s) && Possible(s, Send(m))
    ensures Inv(Apply(s, Send(m)))
  {
    hide Audience, Reached, Entitled;
    var s', newest := Apply(s, Send(m)), |s.sendings|;
    forall j: nat, mid: nat, text, socket
      ensures DeliveredAt(s', j, mid, text)[socket] == Expected(s', j, mid, text, socket)
    {
      assert DeliveredAt(s, j, mid, text)[socket] == Expected(s, j, mid, text, socket);
      if mid == newest && j == m.origin { ReachedIsEntitled(s.nodes[j], m, socket); }
    }
  }

  /** On another node. */
  lemma ReceiveReaches(s: Cluster, j: nat, mid: nat)
    requires Inv(s) && Possible(s, Receive(j, mid))
    ensures var m := s.sendings[mid];
      && Payload(OnTheWire(s, m)) == m.data
      && ReachedOnMessage(s.nodes[j], OnTheWire(s, m)) ==
           if j != m.origin && Forwarded(m) then Audience(s.nodes[j], m.app, m.channel) else multiset{}
  {
    var m := s.sendings[mid];
    if j != m.origin { assert s.nodes[j].uuid != s.nodes[m.origin].uuid; }
  }

  lemma ReceiveOnce(s: Cluster, j: nat, mid: nat)
    requires Inv(s) && Possible(s, Receive(j, mid))
    ensures Inv(Apply(s, Receive(j, mid)))
  {
    hide Audience, ReachedOnMessage, WithDelivered, Expected, Payload;
    forall i: nat, k: nat, text, socket
      ensures DeliveredAt(Apply(s, Receive(j, mid)), i, k, text)[socket]
        == Expected(Apply(s, Receive(j, mid)), i, k, text, socket)
    {
      ReceiveDelivers(s, j, mid, i, k, text, socket);
    }
  }

  lemma ReceiveDelivers(s: Cluster, j: nat, mid: nat, i: nat, k: nat, text: string, socket: SocketId)
    requires Inv(s) && Possible(s, Receive(j, mid))
    ensures var s' := Apply(s, Receive(j, mid));
      DeliveredAt(s', i, k, text)[socket] == Expected(s', i, k, text, socket)
  {
    ReceiveReaches(s, j, mid);
    hide Audience, ReachedOnMessage, Payload, OnTheWire;
    assert DeliveredAt(s, i, k, text)[socket] == Expected(s, i, k, text, socket);
  }

  lemma StepOnce(s: Cluster, step: Step)
    requires Inv(s) && Possible(s, step)
    ensures Inv(Apply(s, step))
  {
    match step
    case Send(m) => SendOnce(s, m);
    case Receive(j, mid) => ReceiveOnce(s, j, mid);
    case SeeGatherTraffic(j, t) =>
      GatherTrafficDeliversNothing(s.nodes[j], t);
      SameDelivered(s, Apply(s, step));
    case ChangeMembership(_, _) => SameDelivered(s, Apply(s, step));
    case Lose(_, _) => SameDelivered(s, Apply(s, step));
  }

  lemma SameDelivered(s: Cluster, s': Cluster)
    requires Inv(s) && s'.sendings == s.sendings && s'.audience == s.audience
    requires forall j: nat, mid: nat, text :: DeliveredAt(s', j, mid, text) == DeliveredAt(s, j, mid, text)
    ensures Delivered(s')
  {
    forall j: nat, mid: nat, text, socket
      ensures DeliveredAt(s', j, mid, text)[socket] == Expected(s', j, mid, text, socket)
    {
      assert DeliveredAt(s, j, mid, text)[socket] == Expected(s, j, mid, text, socket);
    }
  }

  lemma {:induction false} RunOnce(nodes: seq<Node>, steps: seq<Step>)
    requires DistinctUuids(nodes)
    ensures Inv(Run(nodes, steps)) && |Run(nodes, steps).nodes| == |nodes|
  {
    if steps != [] {
      RunOnce(nodes, steps[..|steps| - 1]);
      var s, step := Run(nodes, steps[..|steps| - 1]), steps[|steps| - 1];
      if Possible(s, step) { StepOnce(s, step); }
    }
  }

  /** Whatever the interleaving, a socket was sent the text of message `mid` as often as it stood in the audience when
      its node processed the message, except the excluded socket on the sending node, and never otherwise; and it was
      never sent any other text on account of the message. Messages with an empty app, channel or payload stay on the
      sending node. */
  lemma ExactlyOnce(nodes: seq<Node>, steps: seq<Step>, mid: nat, j: nat, text: string, socket: SocketId)
    requires DistinctUuids(nodes) && mid < |Run(nodes, steps).sendings|
    ensures var s := Run(nodes, steps);
      var m := s.sendings[mid];
      && (m.origin, mid) in s.audience
      && DeliveredAt(s, j, mid, text)[socket] ==
           if text == m.data && (j, mid) in s.audience
              && (if j == m.origin then IsUserChannel(m.channel) || m.except == "" || socket != m.except
                  else m.app != "" && m.channel != "" && m.data != "")
           then s.audience[(j, mid)][socket] else 0
  {
    RunOnce(nodes, steps);
    var s := Run(nodes, steps);
    assert DeliveredAt(s, j, mid, text)[socket] == Expected(s, j, mid, text, socket);
  }

  /** The node has processed the message, or it is on its way. */
  predicate UnderWay(s: Cluster, mid: nat, j: nat) {
    (j, mid) in s.audience || (j, mid) in s.wire
  }

  lemma UnderWayStep(s: Cluster, step: Step, mid: nat, j: nat)
    requires Possible(s, step) && step != Lose(j, mid) && j < |s.nodes|
    requires (forall k | (k, mid) in s.wire :: mid < |s.sendings|) && (mid < |s.sendings| ==> UnderWay(s, mid, j))
    requires mid < |s.sendings| && s.sendings[mid].origin == j ==> (j, mid) in s.audience
    ensures var s' := Apply(s, step); mid < |s'.sendings| ==> UnderWay(s', mid, j)
  {
    hide Audience, Reached, ReachedOnMessage, WithDelivered, OnTheWire, Payload;
  }

  /** What is not lost arrives: unless the pub/sub system loses the copy of a message for a node, the node has processed
      it or it is still on its way and can be received. */
  lemma {:induction false} ArrivesUnlessLost(nodes: seq<Node>, steps: seq<Step>, mid: nat, j: nat)
    requires DistinctUuids(nodes) && j < |nodes| && mid < |Run(nodes, steps).sendings| && Lose(j, mid) !in steps
    ensures var s := Run(nodes, steps);
      (j, mid) in s.audience || ((j, mid) in s.wire && Possible(s, Receive(j, mid)))
  {
    hide Apply, Delivered;
    RunOnce(nodes, steps);
    if steps != [] {
      var before, step := steps[..|steps| - 1], steps[|steps| - 1];
      assert steps == before + [step];
      RunOnce(nodes, before);
      var s := Run(nodes, before);
      if mid < |s.sendings| { ArrivesUnlessLost(nodes, before, mid, j); }
      if Possible(s, step) { UnderWayStep(s, step, mid, j); }
    }
  }

  /** A message that a node receives is written to its audience there and then, the very text, unless the node sent it
      itself or it is not to be forwarded. */
  lemma ReceivedIsWritten(nodes: seq<Node>, steps: seq<Step>, mid: nat, j: nat)
    requires DistinctUuids(nodes) && Possible(Run(nodes, steps), Receive(j, mid))
    ensures var s := Run(nodes, steps);
      var m, s' := s.sendings[mid], Run(nodes, steps + [Receive(j, mid)]);
      m.app != "" && m.channel != "" && m.data != "" && j != m.origin ==>
        DeliveredAt(s', j, mid, m.data) == Audience(s.nodes[j], m.app, m.channel)
  {
    var s := Run(nodes, steps);
    assert (steps + [Receive(j, mid)])[..|steps|] == steps;
    RunOnce(nodes, steps);
    ReceiveReaches(s, j, mid);
    hide Audience, ReachedOnMessage, Payload, OnTheWire;
    var text := s.sendings[mid].data;
    assert forall socket :: DeliveredAt(s, j, mid, text)[socket] == Expected(s, j, mid, text, socket);
  }

  // ---------- at most once ----------

  /** What NamespaceLists.RunKeepsLists says of every state of an app. */
  ghost predicate ListedOnce(apps: map<AppId, State>) {
    forall app, u | app in apps && u in apps[app].users :: NoRepeats(apps[app].users[u])
  }

  lemma {:induction false} LiveOnce(ids: seq<SocketId>, live: set<SocketId>)
    requires NoRepeats(ids)
    ensures forall id :: multiset(LiveOnly(ids, live))[id] == if id in ids && id in live then 1 else 0
  {
    if ids != [] {
      var init, last := ids[..|ids| - 1], ids[|ids| - 1];
      assert ids == init + [last];
      assert NoRepeats(init) && last !in init;
      LiveOnce(init, live);
    }
  }

  /** On ordinary channels and, if no user list repeats a socket, on user channels. */
  lemma AudienceOnce(node: Node, app: AppId, c: ChannelName)
    requires ListedOnce(node.apps)
    ensures forall socket :: Audience(node, app, c)[socket] <= 1
  {
    if app in node.apps && IsUserChannel(c) {
      var s, u := node.apps[app], c[|USER_PREFIX|..];
      assert NoRepeats(Listed(s.users, u));
      LiveOnce(Listed(s.users, u), s.sockets.Keys);
    }
  }

  ghost predicate AllListedOnce(nodes: seq<Node>, steps: seq<Step>) {
    && (forall j | 0 <= j < |nodes| :: ListedOnce(nodes[j].apps))
    && (forall i | 0 <= i < |steps| && steps[i].ChangeMembership? :: ListedOnce(steps[i].apps))
  }

  ghost predicate OnceSoFar(s: Cluster) {
    && (forall j | 0 <= j < |s.nodes| :: ListedOnce(s.nodes[j].apps))
    && (forall k, socket | k in s.audience :: s.audience[k][socket] <= 1)
  }

  lemma OnceStep(s: Cluster, step: Step)
    requires OnceSoFar(s) && Possible(s, step) && (step.ChangeMembership? ==> ListedOnce(step.apps))
    ensures OnceSoFar(Apply(s, step))
  {
    hide Audience, ListedOnce, Reached, ReachedOnMessage, WithDelivered, Everyone;
    match step
    case Send(m) =>
      assert ListedOnce(s.nodes[m.origin].apps);
      AudienceOnce(s.nodes[m.origin], m.app, m.channel);
    case Receive(j, mid) =>
      assert ListedOnce(s.nodes[j].apps);
      AudienceOnce(s.nodes[j], s.sendings[mid].app, s.sendings[mid].channel);
    case _ =>
  }

  lemma {:induction false} AudiencesOnce(nodes: seq<Node>, steps: seq<Step>)
    requires AllListedOnce(nodes, steps)
    ensures OnceSoFar(Run(nodes, steps))
  {
    hide Apply, Possible, ListedOnce;
    if steps != [] {
      var init, step := steps[..|steps| - 1], steps[|steps| - 1];
      assert forall i | 0 <= i < |init| :: init[i] == steps[i];
      AudiencesOnce(nodes, init);
      if Possible(Run(nodes, init), step) { OnceStep(Run(nodes, init), step); }
    }
  }

  /** With user lists as the namespaces keep them, no socket ever has a message twice, on user channels as on others. */
  lemma NeverTwice(nodes: seq<Node>, steps: seq<Step>, mid: nat, j: nat, text: string, socket: SocketId)
    requires DistinctUuids(nodes) && AllListedOnce(nodes, steps) && mid < |Run(nodes, steps).sendings|
    ensures DeliveredAt(Run(nodes, steps), j, mid, text)[socket] <= 1
  {
    ExactlyOnce(nodes, steps, mid, j, text, socket);
    AudiencesOnce(nodes, steps);
  }

  // ---------- channel names ----------

  /** The request and response channels are told apart by prefix, and both match the broadcast pattern. */
  lemma DirectChannelsDiffer(base: string)
    ensures !(base + "#comms#res" <= base + "#comms#req") && !(base + "#comms#req" <= base + "#comms#res")
    ensures base <= base + "#comms#req" && base <= base + "#comms#res"
  {
    assert (base + "#comms#res")[|base| + 9] == 's';
    assert (base + "#comms#req")[|base| + 9] == 'q';
  }
}
