/** The local cache with expiry and background cleanup (internal/cache/localCache.go), and replay on cache channels
    (internal/apiEvents.go, internal/websocket.go). Time is an explicit argument. */
module Cache {
  import opened Wrappers
  import opened Names

  /** `expireAt` None: never. */
  datatype Item = Item(data: string, expireAt: Option<int>)

  type Items = map<string, Item>

  predicate Alive(item: Item, now: int) {
    item.expireAt.None? || now < item.expireAt.value
  }

  function Lookup(items: Items, key: string, now: int): Option<string> {
    if key in items && Alive(items[key], now) then Some(items[key].data) else None
  }

  /** One pass of the cleanup job; it keeps an item at the very instant of its expiry. */
  predicate Stale(item: Item, now: int) {
    item.expireAt.Some? && item.expireAt.value < now
  }

  function Cleaned(items: Items, now: int): Items {
    map key | key in items && !Stale(items[key], now) :: items[key]
  }

  // ---------- operations in time ----------

  datatype Op =
    | Set(key: string, value: string)
    | SetEx(key: string, value: string, ttl: int)
    | Delete(key: string)
    | Update(key: string, value: string)
    | Remember(key: string, ttlSeconds: int, computed: Option<string>)
    | Cleanup

  /** A duration of one second in the clock's unit. */
  const SECOND: int := 1_000_000_000

  const HALF_HOUR: int := 30 * 60 * SECOND

  function Do(items: Items, op: Op, now: int): Items {
    match op
    case Set(key, value) => items[key := Item(value, None)]
    case SetEx(key, value, ttl) => items[key := Item(value, Some(now + ttl))]
    case Delete(key) => items - {key}
    case Update(key, value) => if Lookup(items, key, now).Some? then items[key := Item(value, None)] else items
    case Remember(key, ttl, computed) =>
      if Lookup(items, key, now).None? && computed.Some?
      then items[key := Item(computed.value, Some(now + ttl * SECOND))]
      else items
    case Cleanup => Cleaned(items, now)
  }

  /** What a key holds at any moment after one operation: the value written, until it expires if it was written with an
      expiry; nothing once deleted; and what it held before if the operation does not write. */
  lemma ReadBack(items: Items, op: Op, at: int, key: string, now: int)
    requires !op.Cleanup?
    ensures Lookup(Do(items, op, at), key, now) ==
      if op.key != key then Lookup(items, key, now)
      else
        var held := Lookup(items, key, at);
        match op
        case Set(_, value) => Some(value)
        case SetEx(_, value, ttl) => if now - at < ttl then Some(value) else None
        case Delete(_) => None
        case Update(_, value) => if held.Some? then Some(value) else Lookup(items, key, now)
        case Remember(_, ttlSeconds, computed) =>
          if held.Some? || computed.None? then Lookup(items, key, now)
          else if now - at < ttlSeconds * 1_000_000_000 then computed else None
  {
  }

  datatype Timed = Timed(op: Op, at: int)

  function After(log: seq<Timed>): Items {
    if log == [] then map[] else Do(After(log[..|log| - 1]), log[|log| - 1].op, log[|log| - 1].at)
  }

  predicate Monotone(log: seq<Timed>) {
    forall i, j | 0 <= i < j < |log| :: log[i].at <= log[j].at
  }

  // ---------- the reference: no cleanup, only the last effective write ----------

  /** The operations without the cleanup passes. */
  function WithoutCleanup(log: seq<Timed>): seq<Timed> {
    if log == [] then []
    else
      var rest := WithoutCleanup(log[..|log| - 1]);
      if log[|log| - 1].op.Cleanup? then rest else rest + [log[|log| - 1]]
  }

  /** Two stores that answer alike from time t on. */
  ghost predicate SameFrom(a: Items, b: Items, t: int) {
    forall key, now | t <= now :: Lookup(a, key, now) == Lookup(b, key, now)
  }

  lemma CleanupUnseen(items: Items, t: int)
    ensures SameFrom(Cleaned(items, t), items, t)
  {
    forall key, now | t <= now ensures Lookup(Cleaned(items, t), key, now) == Lookup(items, key, now) {
      if key in items && Alive(items[key], now) { assert key in Cleaned(items, t); }
    }
  }

  lemma DoRespects(a: Items, b: Items, op: Op, t: int)
    requires SameFrom(a, b, t) && !op.Cleanup?
    ensures SameFrom(Do(a, op, t), Do(b, op, t), t)
  {
    assert !op.Set? && !op.SetEx? && !op.Delete? ==> Lookup(a, op.key, t) == Lookup(b, op.key, t);
    forall key, now | t <= now ensures Lookup(Do(a, op, t), key, now) == Lookup(Do(b, op, t), key, now) {
      assert Lookup(a, key, now) == Lookup(b, key, now);
    }
  }

  /** Cleanup passes at any moments are invisible to every later lookup, as long as the clock does not go backwards. */
  lemma {:induction false} CleanupInvisible(log: seq<Timed>, t: int)
    requires Monotone(log) && (log != [] ==> log[|log| - 1].at <= t)
    ensures SameFrom(After(log), After(WithoutCleanup(log)), t)
  {
    if log != [] {
      var before, last := log[..|log| - 1], log[|log| - 1];
      assert forall i | 0 <= i < |before| :: log[i].at <= last.at;
      CleanupInvisible(before, last.at);
      if last.op.Cleanup? {
        CleanupUnseen(After(before), last.at);
        assert forall key, now | last.at <= now ::
          Lookup(Cleaned(After(before), last.at), key, now) == Lookup(After(before), key, now)
            == Lookup(After(WithoutCleanup(before)), key, now);
      } else {
        DoRespects(After(before), After(WithoutCleanup(before)), last.op, last.at);
        assert (WithoutCleanup(before) + [last])[..|WithoutCleanup(before)|] == WithoutCleanup(before);
      }
    }
  }

  // ---------- publishing to cache channels ----------

  /** An API broadcast of one event to one channel, or a cleanup pass. */
  datatype Publication = Publish(app: AppId, channel: ChannelName, event: string, when: int) | CleanupPass(when: int)

  /** What broadcastMessage does to the cache, per channel. */
  function OpsOf(p: Publication): seq<Timed> {
    match p
    case Publish(app, c, event, now) =>
      if IsCacheChannel(c) then [Timed(SetEx(ChannelCacheKey(app, c), event, HALF_HOUR), now)] else []
    case CleanupPass(now) => [Timed(Cleanup, now)]
  }

  function CacheLog(ps: seq<Publication>): seq<Timed> {
    if ps == [] then [] else CacheLog(ps[..|ps| - 1]) + OpsOf(ps[|ps| - 1])
  }

  /** The latest event published on a channel of an app. */
  function Latest(ps: seq<Publication>, app: AppId, c: ChannelName): Option<Publication> {
    if ps == [] then None
    else if ps[|ps| - 1].Publish? && ps[|ps| - 1].app == app && ps[|ps| - 1].channel == c then Some(ps[|ps| - 1])
    else Latest(ps[..|ps| - 1], app, c)
  }

  predicate InOrder(ps: seq<Publication>) {
    forall i, j | 0 <= i < j < |ps| :: ps[i].when <= ps[j].when
  }

  /** What the HTTP API checks before it publishes. */
  predicate Validated(ps: seq<Publication>) {
    forall i | 0 <= i < |ps| && ps[i].Publish? :: NamePattern(ps[i].channel)
  }

  /** The latest event if it is less than half an hour old, that is 1800 seconds or 1.8e12 nanoseconds. */
  function Unexpired(p: Option<Publication>, now: int): Option<string> {
    match p
    case Some(Publish(_, _, event, at)) => if now - at < 1_800_000_000_000 then Some(event) else None
    case _ => None
  }

  lemma AfterAppend(log: seq<Timed>, t: Timed)
    ensures After(log + [t]) == Do(After(log), t.op, t.at)
  {
    assert (log + [t])[..|log|] == log;
  }

  /** One publication more: only a write under the very key of the channel matters to its lookup. */
  lemma PublishStep(before: seq<Publication>, app: AppId, c: ChannelName, app': AppId, c': ChannelName, event: string,
                    at: int, now: int)
    requires NamePattern(c) && NamePattern(c') && IsCacheChannel(c)
    ensures var p := Publish(app', c', event, at);
      Lookup(After(CacheLog(before) + OpsOf(p)), ChannelCacheKey(app, c), now) ==
        if app == app' && c == c' then Unexpired(Some(p), now)
        else Lookup(After(CacheLog(before)), ChannelCacheKey(app, c), now)
  {
    hide ChannelCacheKey, CacheLog, IsCacheChannel, NamePattern;
    var items, key := After(CacheLog(before)), ChannelCacheKey(app, c);
    if IsCacheChannel(c') {
      var key' := ChannelCacheKey(app', c');
      AfterAppend(CacheLog(before), Timed(SetEx(key', event, HALF_HOUR), at));
      if key' == key {
        CacheNameHasNoHash(c);
        CacheNameHasNoHash(c');
        CacheKeyInjective(app', c', app, c);
      }
    } else {
      assert CacheLog(before) + [] == CacheLog(before);
    }
  }

  lemma CleanupStep(before: seq<Publication>, key: string, at: int, now: int)
    requires at <= now
    ensures Lookup(After(CacheLog(before) + OpsOf(CleanupPass(at))), key, now) ==
      Lookup(After(CacheLog(before)), key, now)
  {
    AfterAppend(CacheLog(before), Timed(Cleanup, at));
    CleanupUnseen(After(CacheLog(before)), at);
  }

  /** With a monotone clock and cleanup passes anywhere, a subscriber to a cache channel finds exactly the latest event
      published on that channel of that app if it has not expired, and nothing otherwise; other channels, other apps and
      non-cache channels do not interfere. */
  lemma {:induction false} ReplaysLatest(ps: seq<Publication>, app: AppId, c: ChannelName, now: int)
    requires InOrder(ps) && Validated(ps) && NamePattern(c) && CreateChannel(c).isCache
    requires ps != [] ==> ps[|ps| - 1].when <= now
    ensures Lookup(After(CacheLog(ps)), ChannelCacheKey(app, c), now) == Unexpired(Latest(ps, app, c), now)
  {
    if ps != [] {
      var before, p := ps[..|ps| - 1], ps[|ps| - 1];
      assert forall i | 0 <= i < |before| :: before[i] == ps[i] && ps[i].when <= p.when;
      ReplaysLatest(before, app, c, now);
      CacheFlagsAgree(c);
      match p
      case Publish(app', c', event, at) => PublishStep(before, app, c, app', c', event, at, now);
      case CleanupPass(at) => CleanupStep(before, ChannelCacheKey(app, c), at, now);
    }
  }
}

/** The cache as the program keeps it. */
module LocalCacheClass {
  import opened Wrappers
  import opened Cache

  class LocalCache {
    var items: Items

    constructor ()
      ensures items == map[]
    {
      items := map[];
    }

    method ExistsAndNotExpired(key: string, now: int) returns (alive: bool, item: Option<Item>)
      ensures alive <==> Lookup(items, key, now).Some?
      ensures item == if alive then Some(items[key]) else None
    {
      if key in items {
        var found := items[key];
        if found.expireAt == None || now < found.expireAt.value {
          return true, Some(found);
        }
      }
      return false, None;
    }

    method Get(key: string, now: int) returns (data: string, found: bool)
      ensures found <==> Lookup(items, key, now).Some?
      ensures found ==> Lookup(items, key, now) == Some(data)
      ensures !found ==> data == ""
    {
      var alive, item := ExistsAndNotExpired(key, now);
      if alive {
        return item.value.data, true;
      }
      return "", false;
    }

    method Set(key: string, value: string)
      modifies this
      ensures forall now :: items == Do(old(items), Op.Set(key, value), now)
    {
      items := items[key := Item(value, None)];
    }

    method SetEx(key: string, value: string, ttl: int, now: int)
      modifies this
      ensures items == Do(old(items), Op.SetEx(key, value, ttl), now)
    {
      var expTime := now + ttl;
      items := items[key := Item(value, Some(expTime))];
    }

    method Delete(key: string)
      modifies this
      ensures forall now :: items == Do(old(items), Op.Delete(key), now)
    {
      if key in items {
        items := items - {key};
      } else {
        assert items - {key} == items;
      }
    }

    /** `computed` is what the callback would return; None stands for its error. */
    method Remember(key: string, ttl: int, computed: Option<string>, now: int) returns (data: Option<string>)
      modifies this
      ensures items == Do(old(items), Op.Remember(key, ttl, computed), now)
      ensures data == if Lookup(old(items), key, now).Some? then Lookup(old(items), key, now) else computed
    {
      var alive, item := ExistsAndNotExpired(key, now);
      if alive {
        return Some(item.value.data);
      }
      if computed == None {
        return None;
      }
      SetEx(key, computed.value, ttl * SECOND, now);
      return computed;
    }

    method Update(key: string, value: string, now: int)
      modifies this
      ensures items == Do(old(items), Op.Update(key, value), now)
    {
      var alive, _ := ExistsAndNotExpired(key, now);
      if alive {
        Set(key, value);
        assert items == Do(old(items), Op.Set(key, value), now);
      }
    }

    /** One tick of the cleanup job. */
    method CleanupPass(now: int)
      modifies this
      ensures items == Do(old(items), Cleanup, now)
      ensures forall key :: key in items <==>
        key in old(items) && (old(items)[key].expireAt == None || old(items)[key].expireAt.value >= now)
      ensures forall key | key in items :: items[key] == old(items)[key]
    {
      var keys := items.Keys;
      while keys != {}
        invariant keys <= items.Keys <= old(items).Keys
        invariant forall key | key in items :: items[key] == old(items)[key]
        invariant forall key | key in old(items).Keys - keys :: key in items <==> !Stale(old(items)[key], now)
        decreases |keys|
      {
        var key :| key in keys;
        var item := items[key];
        if item.expireAt.Some? && item.expireAt.value < now {
          items := items - {key};
        }
        keys := keys - {key};
      }
    }
  }
}
