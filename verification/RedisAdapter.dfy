/** A node of the cluster as the program keeps it: sending to a channel everywhere, and dispatching what arrives on the
    pattern subscription and on the request and response channels (internal/adaptersRedis.go,
    internal/adaptersHorizontal.go). */
module RedisAdapterClass {
  import opened Wrappers
  import opened Names
  import opened Membership
  import opened WebSocketHandlers
  import opened HorizontalAdapterClass
  import Merge
  import G = Gather
  import B = Broadcast

  /** A message on the request or the response channel, as it reads either way: `from` and `answer` are sender and
      content if it is taken as a response, `local` is this node's own part of the answer if it is taken as a
      request. */
  datatype Direct = Direct(id: G.ReqId, from: Merge.NodeId, answer: Merge.Response, local: Merge.Response)

  /** What this node published. */
  datatype Outbound =
    | Broadcasted(on: string, traffic: B.Traffic)
    | Answered(on: string, id: G.ReqId, answer: Merge.Response)

  function Repeated(m: Message, times: nat): seq<Message> {
    if times == 0 then [] else Repeated(m, times - 1) + [m]
  }

  /** Every socket was sent m as often as it stands in `copies`, and nothing else happened. */
  ghost predicate Copied(s: State, r: State, copies: multiset<SocketId>, m: Message) {
    && r == s.(sockets := r.sockets) && r.sockets.Keys == s.sockets.Keys
    && forall id | id in s.sockets ::
         r.sockets[id] == s.sockets[id].(inbox := s.sockets[id].inbox + Repeated(m, copies[id]))
  }

  lemma {:induction false} CopiedToEach(s: State, ids: seq<SocketId>, m: Message)
    ensures Copied(s, DeliverAll(s, ids, m), multiset(ids), m)
  {
    if ids == [] {
      assert forall id | id in s.sockets :: s.sockets[id].inbox + [] == s.sockets[id].inbox;
    } else {
      var init, last := ids[..|ids| - 1], ids[|ids| - 1];
      assert ids == init + [last];
      CopiedToEach(s, init, m);
      OneMoreCopy(s, DeliverAll(s, init, m), multiset(init), last, m);
      assert multiset(ids) == multiset(init) + multiset{last};
    }
  }

  lemma OneMoreCopy(s: State, r: State, copies: multiset<SocketId>, id: SocketId, m: Message)
    requires Copied(s, r, copies, m)
    ensures Copied(s, Deliver(r, id, m), copies + multiset{id}, m)
  {
    if id in s.sockets {
      var inbox := s.sockets[id].inbox;
      assert inbox + (Repeated(m, copies[id]) + [m]) == inbox + Repeated(m, copies[id]) + [m];
    }
  }

  lemma CopiedToSet(s: State, ids: set<SocketId>, m: Message)
    ensures Copied(s, DeliverEach(s, ids, m), multiset(ids), m)
  {
    assert Repeated(m, 1) == Repeated(m, 0) + [m] == [m];
    assert forall id | id in s.sockets :: s.sockets[id].inbox + [] == s.sockets[id].inbox;
  }

  class RedisAdapter {
    const uuid: string
    const channel: string
    const requestChannel: string
    const responseChannel: string
    // The one app that has a namespace on this node, and its sockets.
    const app: AppId
    const local: Server
    const gathers: HorizontalAdapter
    var published: seq<Outbound>

    /** Init: the channel names come from the configured name and prefix. */
    constructor (uuid: string, name: string, prefix: string, local: Server, gathers: HorizontalAdapter)
      ensures this.uuid == uuid && app == local.app && this.local == local && this.gathers == gathers && published == []
      ensures channel == if prefix != "" then prefix + "#" + name else name
      ensures requestChannel == channel + "#comms#req" && responseChannel == channel + "#comms#res"
    {
      this.uuid, app, this.local, this.gathers := uuid, local.app, local, gathers;
      var full := if prefix != "" then prefix + "#" + name else name;
      channel, requestChannel, responseChannel := full, full + "#comms#req", full + "#comms#res";
      published := [];
    }

    predicate Named() {
      requestChannel == channel + "#comms#req" && responseChannel == channel + "#comms#res"
    }

    /** The node as Broadcast.dfy sees it. */
    function Node(): B.Node
      reads local, local.ns, local.ns.sockets.Values
    {
      B.Node(uuid, map[app := local.View()])
    }

    /** LocalAdapter.Send for any app: there is a namespace for one app only. */
    method SendLocally(to: AppId, c: ChannelName, data: string, except: SocketId)
      requires local.Valid()
      modifies local.ns.sockets.Values
      ensures local.Valid()
      ensures local.View() ==
        if to == app then LocalSend(old(local.View()), c, Published(data), except) else old(local.View())
    {
      if to == app {
        local.Send(c, Published(data), except);
      }
    }

    /** HorizontalAdapter.Send: publish for the other nodes, then deliver to this node's sockets. */
    method Send(to: AppId, c: ChannelName, data: string, except: SocketId)
      requires local.Valid()
      modifies this`published, local.ns.sockets.Values
      ensures local.Valid()
      ensures published == old(published) + [Broadcasted(channel, B.Message(uuid, to, c, data, except))]
      ensures local.View() ==
        if to == app then LocalSend(old(local.View()), c, Published(data), except) else old(local.View())
    {
      published := published + [Broadcasted(channel, B.Message(uuid, to, c, data, except))];
      SendLocally(to, c, data, except);
    }

    /** That is as many copies for each socket as Broadcast.dfy says reach it, on user channels too. */
    lemma SendReaches(s: State, c: ChannelName, m: Message, except: SocketId)
      ensures Copied(s, LocalSend(s, c, m, except), B.Reached(B.Node(uuid, map[app := s]), app, c, except), m)
    {
      hide Copied, DeliverAll, DeliverEach, UserSockets, Recipients;
      if IsUserChannel(c) {
        CopiedToEach(s, UserSockets(s, c[|USER_PREFIX|..]), m);
      } else {
        CopiedToSet(s, Recipients(s, c, except), m);
      }
    }

    lemma NobodyCopied(s: State, to: AppId, c: ChannelName, m: Message)
      ensures to != app ==> Copied(s, s, B.Reached(B.Node(uuid, map[app := s]), to, c, ""), m)
    {
      assert forall id | id in s.sockets :: s.sockets[id].inbox + Repeated(m, 0) == s.sockets[id].inbox;
    }

    /** onMessage: None stands for a payload that is not JSON. Messages of this node and gather traffic are dropped;
        what another node published to a channel is written to this node's sockets, the text as it was published. */
    method OnMessage(redisChannel: string, payload: Option<B.Traffic>)
      requires local.Valid()
      modifies local.ns.sockets.Values
      ensures local.Valid()
      ensures !(channel <= redisChannel) || payload.None? || !payload.value.Message? ==>
        local.View() == old(local.View())
      ensures channel <= redisChannel && payload.Some? && payload.value.Message? ==>
        var t := payload.value;
        local.View() ==
          if t.uuid != uuid && t.app == app && t.app != "" && t.channel != "" && t.data != ""
          then LocalSend(old(local.View()), t.channel, Published(t.data), "") else old(local.View())
      ensures channel <= redisChannel && payload.Some? ==>
        var m, s, n := B.Decode(payload.value), old(local.View()), old(Node());
        if B.Ignored(n, m) then local.View() == s
        else
          && m.data.Some?
          && Copied(s, local.View(), B.ReachedOnMessage(n, payload.value), Published(m.data.value))
          && local.View() == if m.app == app then LocalSend(s, m.channel, Published(m.data.value), "") else s
    {
      hide Copied, LocalSend, B.Audience;
      if !(channel <= redisChannel) {
        return;
      }
      if payload == None {
        return;
      }
      var decoded := B.Decode(payload.value);
      if uuid == decoded.uuid || decoded.app == "" || decoded.channel == "" || decoded.data == Some("") {
        return;
      }
      SendReaches(local.View(), decoded.channel, Published(decoded.data.value), "");
      NobodyCopied(local.View(), decoded.app, decoded.channel, Published(decoded.data.value));
      hide B.Reached;
      SendLocally(decoded.app, decoded.channel, decoded.data.value, decoded.exceptingIds);
    }

    /** What an unregistered request is answered with. */
    function Reply(message: Direct): seq<Outbound>
      reads gathers
    {
      if G.Answers(gathers.View(), message.id) then [Answered(responseChannel, message.id, message.local)] else []
    }

    /** processMessage: answers go to the loop that waits for them, requests are answered on the response channel. The
        channel decides how a message is read; None stands for one that cannot be read that way. */
    method ProcessMessage(redisChannel: string, message: Option<Direct>)
      modifies this`published, gathers
      ensures gathers.View() ==
        if responseChannel <= redisChannel && message.Some?
        then G.Receive(old(gathers.View()), message.value.id, message.value.from, message.value.answer)
        else old(gathers.View())
      ensures published == old(published) +
        (if !(responseChannel <= redisChannel) && requestChannel <= redisChannel && message.Some?
         then old(Reply(message.value)) else [])
    {
      if responseChannel <= redisChannel {
        if message.Some? {
          gathers.OnResponse(message.value.id, message.value.from, message.value.answer);
        }
      } else if requestChannel <= redisChannel {
        if message.Some? {
          var reply := gathers.OnRequest(message.value.id, message.value.local);
          if reply.Some? {
            published := published + [Answered(responseChannel, message.value.id, reply.value)];
          }
        }
      }
    }

    /** On the two channels themselves: a request is never taken for a response, and everything else is neither. */
    lemma ReadsByChannel(redisChannel: string)
      requires Named()
      ensures !(responseChannel <= requestChannel)
      ensures responseChannel <= redisChannel || requestChannel <= redisChannel ==> channel <= redisChannel
    {
      B.DirectChannelsDiffer(channel);
    }
  }
}
