/** Publishing through the HTTP API (internal/apiEvents.go): checking a message, sending it to each of its channels and
    remembering it for cache channels; and what a later subscriber to a cache channel is sent
    (internal/websocket.go). */
module ApiEventsClass {
  import opened Wrappers
  import opened Names
  import M = Membership
  import B = Broadcast
  import opened Cache
  import opened LocalCacheClass
  import opened RedisAdapterClass
  import opened NamespaceClass
  import L = NamespaceLists

  datatype Limits = Limits(maxNameLength: int, maxChannels: int, maxEventName: int, maxPayloadKb: int)

  datatype Rejection = InvalidChannel | TooManyChannels | NameTooLong | DataTooLarge

  predicate AllValid(channels: seq<ChannelName>, maxNameLength: int) {
    forall i | 0 <= i < |channels| :: ValidName(channels[i], maxNameLength)
  }

  /** checkMessageToBroadcast: a single channel stands in for a missing list, and the first failing check is
      reported. */
  method CheckMessage(limits: Limits, channel: ChannelName, list: seq<ChannelName>, name: string, data: string)
    returns (channels: seq<ChannelName>, rejection: Option<Rejection>)
    ensures channels == if channel != "" && list == [] then [channel] else list
    ensures rejection == Some(InvalidChannel) <==> !AllValid(channels, limits.maxNameLength)
    ensures rejection == None <==>
      && AllValid(channels, limits.maxNameLength) && |channels| <= limits.maxChannels
      && |name| <= limits.maxEventName && |data| <= limits.maxPayloadKb * 1024
    ensures rejection == Some(TooManyChannels) <==>
      AllValid(channels, limits.maxNameLength) && |channels| > limits.maxChannels
    ensures rejection == Some(NameTooLong) <==>
      && AllValid(channels, limits.maxNameLength) && |channels| <= limits.maxChannels
      && |name| > limits.maxEventName
    ensures rejection == Some(DataTooLarge) <==>
      && AllValid(channels, limits.maxNameLength) && |channels| <= limits.maxChannels
      && |name| <= limits.maxEventName && |data| > limits.maxPayloadKb * 1024
  {
    channels := list;
    if channel != "" && |list| == 0 {
      channels := [channel];
    }
    for i := 0 to |channels|
      invariant forall j | 0 <= j < i :: ValidName(channels[j], limits.maxNameLength)
    {
      if !ValidName(channels[i], limits.maxNameLength) {
        return channels, Some(InvalidChannel);
      }
    }
    if |channels| > limits.maxChannels {
      return channels, Some(TooManyChannels);
    }
    if |name| > limits.maxEventName {
      return channels, Some(NameTooLong);
    }
    if |data| > limits.maxPayloadKb * 1024 {
      return channels, Some(DataTooLarge);
    }
    return channels, None;
  }

  /** The events of one message; `encode` is the JSON event for a channel. */
  function Events(app: AppId, channels: seq<ChannelName>, encode: ChannelName -> string,
                  now: int): seq<Cache.Publication> {
    seq(|channels|, i requires 0 <= i < |channels| => Publish(app, channels[i], encode(channels[i]), now))
  }

  /** This node's sockets after one send per channel. */
  function SentEach(s: M.State, channels: seq<ChannelName>, encode: ChannelName -> string, except: SocketId): M.State {
    if channels == [] then s
    else
      var n := |channels| - 1;
      M.LocalSend(SentEach(s, channels[..n], encode, except), channels[n], M.Published(encode(channels[n])), except)
  }

  /** What the node publishes for the other nodes. */
  function Outgoing(on: string, uuid: string, app: AppId, channels: seq<ChannelName>, encode: ChannelName -> string,
                    except: SocketId)
    : seq<RedisAdapterClass.Outbound>
  {
    seq(|channels|, i requires 0 <= i < |channels| =>
      Broadcasted(on, B.Message(uuid, app, channels[i], encode(channels[i]), except)))
  }

  lemma OneMoreSend(on: string, uuid: string, app: AppId, channels: seq<ChannelName>, encode: ChannelName -> string,
                    except: SocketId, i: nat, before: seq<RedisAdapterClass.Outbound>)
    requires i < |channels|
    ensures before + Outgoing(on, uuid, app, channels[..i + 1], encode, except) ==
      before + Outgoing(on, uuid, app, channels[..i], encode, except)
      + [Broadcasted(on, B.Message(uuid, app, channels[i], encode(channels[i]), except))]
  {
    assert Outgoing(on, uuid, app, channels[..i + 1], encode, except) ==
      Outgoing(on, uuid, app, channels[..i], encode, except)
      + [Broadcasted(on, B.Message(uuid, app, channels[i], encode(channels[i]), except))];
  }

  lemma OneMoreEvent(app: AppId, channels: seq<ChannelName>, encode: ChannelName -> string, now: int, i: nat,
                     before: seq<Cache.Publication>)
    requires i < |channels|
    ensures before + Events(app, channels[..i + 1], encode, now)
      == before + Events(app, channels[..i], encode, now) + [Publish(app, channels[i], encode(channels[i]), now)]
  {
    assert Events(app, channels[..i + 1], encode, now)
      == Events(app, channels[..i], encode, now) + [Publish(app, channels[i], encode(channels[i]), now)];
  }

  lemma StaysValidated(limits: Limits, past: seq<Cache.Publication>, app: AppId, channels: seq<ChannelName>,
                       encode: ChannelName -> string, now: int)
    requires Validated(past) && AllValid(channels, limits.maxNameLength)
    ensures Validated(past + Events(app, channels, encode, now))
  {
    var events := Events(app, channels, encode, now);
    forall i | 0 <= i < |events| ensures NamePattern(events[i].channel) {
      assert ValidName(channels[i], limits.maxNameLength);
    }
  }

  lemma CacheLogMore(ps: seq<Cache.Publication>, p: Cache.Publication)
    ensures CacheLog(ps + [p]) == CacheLog(ps) + OpsOf(p)
  {
    assert (ps + [p])[..|ps|] == ps;
  }

  lemma AfterPublish(ps: seq<Cache.Publication>, app: AppId, c: ChannelName, event: string, now: int)
    ensures After(CacheLog(ps + [Publish(app, c, event, now)])) ==
      if IsCacheChannel(c) then Do(After(CacheLog(ps)), Op.SetEx(ChannelCacheKey(app, c), event, HALF_HOUR), now)
      else After(CacheLog(ps))
  {
    CacheLogMore(ps, Publish(app, c, event, now));
    assert CacheLog(ps) + [] == CacheLog(ps);
    AfterAppend(CacheLog(ps), Timed(Op.SetEx(ChannelCacheKey(app, c), event, HALF_HOUR), now));
  }

  class ApiServer {
    const redis: RedisAdapter
    ghost var history: seq<Cache.Publication>

    constructor (redis: RedisAdapter)
      requires redis.local.Valid() && redis.app == redis.local.app && redis.local.cache.items == map[]
      ensures Valid() && history == [] && this.redis == redis
    {
      this.redis := redis;
      history := [];
    }

    /** The cache that subscribers are served from is what the publications and cleanup passes so far make of an empty
        one. */
    ghost predicate Valid()
      reads this, redis, redis.local, redis.local.ns, redis.local.ns.sockets.Values, redis.local.cache
    {
      redis.local.Valid() && redis.app == redis.local.app && redis.local.cache.items == After(CacheLog(history))
    }

    /** Where the server is once the message has gone to these channels. */
    ghost predicate Sent(channels: seq<ChannelName>, encode: ChannelName -> string, except: SocketId, now: int,
                         s: M.State, published: seq<RedisAdapterClass.Outbound>, past: seq<Cache.Publication>)
      reads this, redis, redis.local, redis.local.ns, redis.local.ns.sockets.Values, redis.local.cache
    {
      && Valid()
      && history == past + Events(redis.app, channels, encode, now)
      && redis.local.View() == SentEach(s, channels, encode, except)
      && redis.published == published + Outgoing(redis.channel, redis.uuid, redis.app, channels, encode, except)
    }

    /** broadcastMessage, for an app whose sockets are on this node. */
    method BroadcastMessage(channels: seq<ChannelName>, encode: ChannelName -> string, except: SocketId, now: int)
      requires Valid()
      modifies this`history, redis`published, redis.local.ns.sockets.Values, redis.local.cache
      ensures Sent(channels, encode, except, now, old(redis.local.View()), old(redis.published), old(history))
    {
      hide *;
      ghost var s, published, past := redis.local.View(), redis.published, history;
      assert channels[..0] == [] && channels[..|channels|] == channels;
      NothingSent(encode, except, now);
      for i := 0 to |channels|
        invariant Sent(channels[..i], encode, except, now, s, published, past)
      {
        PublishNext(channels, i, encode, except, now, s, published, past);
      }
    }

    lemma NothingSent(encode: ChannelName -> string, except: SocketId, now: int)
      requires Valid()
      ensures Sent([], encode, except, now, redis.local.View(), redis.published, history)
    {
      assert Events(redis.app, [], encode, now) == [];
      Pack([], encode, except, now, redis.local.View(), redis.published, history);
      hide *;
    }

    method PublishNext(channels: seq<ChannelName>, i: nat, encode: ChannelName -> string, except: SocketId, now: int,
                       ghost s: M.State, ghost published: seq<RedisAdapterClass.Outbound>,
                       ghost past: seq<Cache.Publication>)
      requires i < |channels| && Sent(channels[..i], encode, except, now, s, published, past)
      modifies this`history, redis`published, redis.local.ns.sockets.Values, redis.local.cache
      ensures Sent(channels[..i + 1], encode, except, now, s, published, past)
    {
      hide *;
      OneMoreEvent(redis.app, channels, encode, now, i, past);
      OneMoreSend(redis.channel, redis.uuid, redis.app, channels, encode, except, i, published);
      SentEachMore(s, channels, encode, except, i);
      Unpack(channels[..i], encode, except, now, s, published, past);
      PublishOne(channels[i], encode(channels[i]), except, now);
      Pack(channels[..i + 1], encode, except, now, s, published, past);
    }

    lemma Unpack(channels: seq<ChannelName>, encode: ChannelName -> string, except: SocketId, now: int,
                 s: M.State, published: seq<RedisAdapterClass.Outbound>, past: seq<Cache.Publication>)
      requires Sent(channels, encode, except, now, s, published, past)
      ensures Valid() && history == past + Events(redis.app, channels, encode, now)
      ensures redis.local.View() == SentEach(s, channels, encode, except)
      ensures redis.published == published + Outgoing(redis.channel, redis.uuid, redis.app, channels, encode, except)
    {
    }

    lemma Pack(channels: seq<ChannelName>, encode: ChannelName -> string, except: SocketId, now: int,
               s: M.State, published: seq<RedisAdapterClass.Outbound>, past: seq<Cache.Publication>)
      requires Valid() && history == past + Events(redis.app, channels, encode, now)
      requires redis.local.View() == SentEach(s, channels, encode, except)
      requires redis.published == published + Outgoing(redis.channel, redis.uuid, redis.app, channels, encode, except)
      ensures Sent(channels, encode, except, now, s, published, past)
    {
    }

    method PublishOne(c: ChannelName, event: string, except: SocketId, now: int)
      requires Valid()
      modifies this`history, redis`published, redis.local.ns.sockets.Values, redis.local.cache
      ensures Valid() && history == old(history) + [Publish(redis.app, c, event, now)]
      ensures redis.local.View() == M.LocalSend(old(redis.local.View()), c, M.Published(event), except)
      ensures redis.published ==
        old(redis.published) + [Broadcasted(redis.channel, B.Message(redis.uuid, redis.app, c, event, except))]
    {
      hide *;
      SendOut(c, event, except);
      RememberIfCached(c, event, now);
    }

    method SendOut(c: ChannelName, event: string, except: SocketId)
      requires Valid()
      modifies redis`published, redis.local.ns.sockets.Values
      ensures Valid()
      ensures redis.local.View() == M.LocalSend(old(redis.local.View()), c, M.Published(event), except)
      ensures redis.published ==
        old(redis.published) + [Broadcasted(redis.channel, B.Message(redis.uuid, redis.app, c, event, except))]
    {
      hide After, CacheLog, M.LocalSend;
      redis.Send(redis.app, c, event, except);
    }

    method RememberIfCached(c: ChannelName, event: string, now: int)
      requires Valid()
      modifies this`history, redis.local.cache
      ensures Valid() && history == old(history) + [Publish(redis.app, c, event, now)]
    {
      AfterPublish(history, redis.app, c, event, now);
      hide After, CacheLog, Do, IsCacheChannel, ChannelCacheKey;
      if IsCacheChannel(c) {
        redis.local.cache.SetEx(ChannelCacheKey(redis.app, c), event, HALF_HOUR, now);
      }
      history := history + [Publish(redis.app, c, event, now)];
    }

    /** EventTrigger: a message that fails a check changes nothing; any other is broadcast to its channels, so that only
        valid names are ever published. */
    method EventTrigger(limits: Limits, channel: ChannelName, list: seq<ChannelName>, name: string, data: string,
                        encode: ChannelName -> string, except: SocketId, now: int)
      returns (rejection: Option<Rejection>)
      requires Valid() && Validated(history)
      modifies this`history, redis`published, redis.local.ns.sockets.Values, redis.local.cache
      ensures Valid() && Validated(history)
      ensures var channels := if channel != "" && list == [] then [channel] else list;
        && (rejection == None <==>
              && AllValid(channels, limits.maxNameLength) && |channels| <= limits.maxChannels
              && |name| <= limits.maxEventName && |data| <= limits.maxPayloadKb * 1024)
        && Sent(if rejection == None then channels else [], encode, except, now,
                old(redis.local.View()), old(redis.published), old(history))
    {
      hide *;
      var channels;
      channels, rejection := CheckMessage(limits, channel, list, name, data);
      if rejection.Some? {
        NothingSent(encode, except, now);
        return;
      }
      ghost var past := history;
      BroadcastMessage(channels, encode, except, now);
      Unpack(channels, encode, except, now, old(redis.local.View()), old(redis.published), past);
      StaysValidated(limits, past, redis.app, channels, encode, now);
    }

    /** A tick of the cleanup job. */
    method Cleanup(now: int)
      requires Valid()
      modifies this`history, redis.local.cache
      ensures Valid() && history == old(history) + [CleanupPass(now)]
      ensures old(Validated(history)) ==> Validated(history)
    {
      CacheLogMore(history, Cache.CleanupPass(now));
      AfterAppend(CacheLog(history), Timed(Op.Cleanup, now));
      redis.local.cache.CleanupPass(now);
      history := history + [Cache.CleanupPass(now)];
    }

    /** A subscribe frame for a cache channel, after this history of publications and cleanup passes. */
    method OnCacheSubscribe(ws: WebSocket, sub: M.Subscription, now: int)
      requires Valid() && redis.local.Registered(ws) && ws.id in redis.local.View().sockets
      requires L.ListsInv(redis.local.View()) && redis.local.Finds(sub, now)
      requires M.Admitted(redis.local.cfg, redis.local.View(), ws.id, sub) && CreateChannel(sub.channel).isCache
      requires InOrder(history) && Validated(history)
      requires history != [] ==> history[|history| - 1].when <= now
      modifies redis.local`emitted, redis.local.ns`channels, redis.local.ns.sockets.Values
      ensures Valid() && L.ListsInv(redis.local.View())
      ensures if Nameless(sub)
        then redis.local.View().sockets[ws.id].inbox ==
               old(redis.local.View().sockets[ws.id].inbox) + [M.ErrorEvent(M.InvalidPayload)]
        else Replayed(redis.local.View(), ws.id, sub.channel, Unexpired(Latest(history, redis.app, sub.channel), now))
    {
      hide After, CacheLog, Replayed, Latest, Unexpired, M.Subscribe, L.ListsInv, CreateChannel, M.Admitted, Nameless;
      SubscriberGetsLatest(redis.local.cfg, redis.local.View(), ws.id, sub, history, redis.app, now);
      redis.local.OnSubscribe(ws, sub, now);
    }
  }

  lemma SentEachMore(s: M.State, channels: seq<ChannelName>, encode: ChannelName -> string, except: SocketId, i: nat)
    requires i < |channels|
    ensures SentEach(s, channels[..i + 1], encode, except)
      == M.LocalSend(SentEach(s, channels[..i], encode, except), channels[i], M.Published(encode(channels[i])), except)
  {
    assert channels[..i + 1][..i] == channels[..i];
  }

  // ---------- replay ----------

  /** The request ends with the cached event, or with a cache miss announced to the client and to the webhooks. */
  predicate Replayed(r: M.State, id: SocketId, c: ChannelName, cached: Option<string>) {
    && id in r.sockets && |r.sockets[id].inbox| >= 2
    && var inbox := r.sockets[id].inbox;
    && inbox[|inbox| - 2].SubscriptionSucceeded? && inbox[|inbox| - 2].channel == c
    && match cached
       case Some(event) => inbox[|inbox| - 1] == M.CachedEvent(event)
       case None =>
         inbox[|inbox| - 1] == M.CacheMiss && r.emitted != [] && r.emitted[|r.emitted| - 1] == M.CacheMissed(c)
  }

  /** A presence subscribe without a user id. */
  predicate Nameless(sub: M.Subscription) {
    CreateChannel(sub.channel).kind == Presence && sub.member.userId == ""
  }

  /** The socket was sent nothing, and no cache miss was reported. */
  predicate Unserved(s: M.State, r: M.State, id: SocketId, c: ChannelName) {
    && id in s.sockets && id in r.sockets && r.sockets[id].inbox == s.sockets[id].inbox
    && (r.emitted == s.emitted || r.emitted == s.emitted + [M.ChannelOccupied(c)])
  }

  lemma FinishReplays(s: M.State, id: SocketId, roster: Option<set<UserId>>, sub: M.Subscription)
    requires id in s.sockets && CreateChannel(sub.channel).isCache
    ensures var r := M.SendCache(M.Deliver(s, id, M.SubscriptionSucceeded(sub.channel, roster)), id, sub);
      Replayed(r, id, sub.channel, sub.cached)
  {
  }

  lemma AnnounceKeepsSockets(s: M.State, id: SocketId, sub: M.Subscription, members: set<UserId>)
    requires id in s.sockets
    ensures M.AnnounceMember(s, id, sub, members).sockets.Keys == s.sockets.Keys
  {
  }

  lemma JoinReplays(s: M.State, id: SocketId, sub: M.Subscription)
    requires id in s.sockets && CreateChannel(sub.channel).isCache && !Nameless(sub)
    ensures Replayed(M.JoinChannel(s, id, sub).state, id, sub.channel, sub.cached)
  {
    var c, s1 := sub.channel, M.EnterChannel(s, id, sub);
    if CreateChannel(c).kind != Presence {
      FinishReplays(s1, id, None, sub);
    } else {
      var members := M.MemberIds(s1, c);
      AnnounceKeepsSockets(s1, id, sub, members);
      FinishReplays(M.AnnounceMember(s1, id, sub, members), id, Some(members + {sub.member.userId}), sub);
    }
  }

  /** An admitted subscriber to a cache channel is sent, right after the confirmation, the latest event published on
      that channel of its app if that is less than half an hour old, and a cache miss otherwise; whatever was published
      on other channels and by other apps, and whenever cleanup ran. A presence subscriber without a user id, and no
      other, gets neither. */
  lemma SubscriberGetsLatest(cfg: M.Config, s: M.State, id: SocketId, sub: M.Subscription,
                             ps: seq<Cache.Publication>, app: AppId, now: int)
    requires id in s.sockets && M.Admitted(cfg, s, id, sub) && CreateChannel(sub.channel).isCache
    requires InOrder(ps) && Validated(ps) && (ps != [] ==> ps[|ps| - 1].when <= now)
    requires sub.cached == Lookup(After(CacheLog(ps)), ChannelCacheKey(app, sub.channel), now)
    ensures var o := M.Subscribe(cfg, s, id, sub);
      if Nameless(sub) then o.error == Some(M.InvalidPayload) && Unserved(s, o.state, id, sub.channel)
      else o.error == None && Replayed(o.state, id, sub.channel, Unexpired(Latest(ps, app, sub.channel), now))
  {
    ReplaysLatest(ps, app, sub.channel, now);
    if !Nameless(sub) { JoinReplays(s, id, sub); }
  }
}
