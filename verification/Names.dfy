/** Channel names, channel kinds and the string keys built from them
    (internal/util/utils.go, internal/channels.go, internal/cache/cache.go, internal/queues/queueAbstract.go). */
module Names {
  type ChannelName = string
  type AppId = string
  type UserId = string
  type SocketId = string

  const USER_PREFIX: string := "#server-to-user-"

  // ---------- predicates on channel names ----------

  predicate IsPresence(c: ChannelName) {
    "presence-" <= c || "presence-cache-" <= c
  }

  predicate IsPrivate(c: ChannelName) {
    "private-" <= c || "private-cache-" <= c || USER_PREFIX <= c
  }

  predicate IsPrivateEncrypted(c: ChannelName) {
    "private-encrypted-" <= c || "private-encrypted-cache-" <= c
  }

  predicate IsCacheChannel(c: ChannelName) {
    "cache-" <= c || "presence-cache-" <= c || "private-cache-" <= c || "private-encrypted-cache-" <= c
  }

  predicate IsUserChannel(c: ChannelName) {
    USER_PREFIX <= c
  }

  predicate NameChar(ch: char) {
    'a' <= ch <= 'z' || 'A' <= ch <= 'Z' || '0' <= ch <= '9' || ch in "-_=@,.;"
  }

  predicate NameBody(s: string) {
    s != "" && forall i | 0 <= i < |s| :: NameChar(s[i])
  }

  /** The pattern `^(#server-to-user-)?[-a-zA-Z0-9_=@,.;]+$`. */
  predicate NamePattern(c: ChannelName) {
    NameBody(c) || (USER_PREFIX <= c && NameBody(c[|USER_PREFIX|..]))
  }

  predicate ValidName(c: ChannelName, maxLength: int) {
    |c| <= maxLength && NamePattern(c)
  }

  // ---------- the channel record ----------

  datatype ChannelType = Presence | Private | PrivateEncrypted | Public

  datatype Channel = Channel(name: ChannelName, kind: ChannelType, requiresAuth: bool, isCache: bool, isEncrypted: bool)

  /** CreateChannelFromString: a channel is determined by its name alone. */
  function CreateChannel(c: ChannelName): Channel {
    if IsPresence(c) then
      Channel(c, Presence, true, "presence-cache-" <= c, false)
    else if IsPrivateEncrypted(c) then
      Channel(c, PrivateEncrypted, true, "private-encrypted-cache-" <= c, true)
    else if IsPrivate(c) then
      Channel(c, Private, true, "private-cache-" <= c, false)
    else
      Channel(c, Public, false, "cache-" <= c, false)
  }

  /** The subscriber side (IsCache) and the publisher side (IsCacheChannel) agree on every name,
      and so do the two ways of recognising a presence channel. */
  lemma CacheFlagsAgree(c: ChannelName)
    ensures CreateChannel(c).isCache <==> IsCacheChannel(c)
    ensures CreateChannel(c).kind == Presence <==> IsPresence(c)
    ensures CreateChannel(c).requiresAuth <==> CreateChannel(c).kind != Public
  {
    KindByPrefix(c);
  }

  /** What a name says about its channel, prefix by prefix. */
  lemma KindByPrefix(c: ChannelName)
    ensures var ch, encrypted := CreateChannel(c), "private-encrypted-" <= c;
      && ch.name == c
      && (ch.kind == Presence <==> "presence-" <= c)
      && (ch.kind == PrivateEncrypted <==> encrypted)
      && (ch.kind == Private <==> ("private-" <= c && !encrypted) || "#server-to-user-" <= c)
      && (ch.requiresAuth <==> "presence-" <= c || "private-" <= c || "#server-to-user-" <= c)
      && (ch.isEncrypted <==> encrypted)
      && (ch.isCache <==> "cache-" <= c || "presence-cache-" <= c || "private-cache-" <= c
                          || "private-encrypted-cache-" <= c)
  {
    Extends("presence-", "presence-cache-", c);
    Extends("private-", "private-cache-", c);
    Extends("private-", "private-encrypted-", c);
    Extends("private-encrypted-", "private-encrypted-cache-", c);
    Apart("presence-", "private-", 2, c);
    Apart("presence-", USER_PREFIX, 0, c);
    Apart("private-", USER_PREFIX, 0, c);
    Apart("cache-", "presence-", 0, c);
    Apart("cache-", "private-", 0, c);
    Apart("cache-", USER_PREFIX, 0, c);
    Apart("private-cache-", "private-encrypted-", 8, c);
  }

  lemma Extends(p: string, q: string, c: string)
    ensures p <= q <= c ==> p <= c
  {
  }

  lemma Apart(p: string, q: string, k: nat, c: string)
    requires k < |p| && k < |q| && p[k] != q[k]
    ensures !(p <= c && q <= c)
  {
  }

  /** The names that pass validation: short enough, and after an optional prefix a non-empty text over the alphabet. */
  lemma ValidNamesAre(c: ChannelName, maxLength: int)
    ensures var text := if "#server-to-user-" <= c then c[16..] else c;
      ValidName(c, maxLength) <==>
        && |c| <= maxLength && text != ""
        && forall x | x in text ::
             'a' <= x <= 'z' || 'A' <= x <= 'Z' || '0' <= x <= '9' || x in {'-', '_', '=', '@', ',', '.', ';'}
  {
    var text := if USER_PREFIX <= c then c[|USER_PREFIX|..] else c;
    assert USER_PREFIX <= c ==> !NameBody(c) by { assert USER_PREFIX[0] == '#'; }
    assert forall i | 0 <= i < |text| :: text[i] in text;
  }

  /** A name that passes validation has no ':'. */
  lemma ValidNameHasNoColon(c: ChannelName, maxLength: int)
    requires ValidName(c, maxLength)
    ensures ':' !in c
  {
    if NameBody(c) {
      assert forall i | 0 <= i < |c| :: NameChar(c[i]);
    } else {
      var tail := c[|USER_PREFIX|..];
      assert ':' !in tail by { assert forall i | 0 <= i < |tail| :: NameChar(tail[i]); }
      assert c == USER_PREFIX + tail;
    }
  }

  // ---------- separators ----------

  /** If `sep` does not occur in `b`, the first separator of the string comes no earlier than the end of `b`. */
  lemma SeparatorComesLater(a: string, x: string, b: string, y: string, sep: char)
    requires sep !in b
    requires a + [sep] + x == b + [sep] + y
    ensures |b| <= |a|
  {
    var s := a + [sep] + x;
    assert s[|a|] == sep;
    assert forall i | 0 <= i < |b| :: s[i] == b[i] && b[i] in b;
  }

  /** A separator that occurs in neither left part splits a string in one way only. */
  lemma SplitsOnce(a: string, x: string, b: string, y: string, sep: char)
    requires sep !in a && sep !in b
    requires a + [sep] + x == b + [sep] + y
    ensures a == b && x == y
  {
    SeparatorComesLater(a, x, b, y, sep);
    SeparatorComesLater(b, y, a, x, sep);
    var s := a + [sep] + x;
    assert a == s[..|a|] == b;
    assert x == s[|a| + 1..] == y;
  }

  // ---------- cache keys ----------

  function ChannelCacheKey(app: AppId, c: ChannelName): string {
    "app#" + app + "#channel#" + c
  }

  /** Cache channels have names without '#': only the names of user channels begin with one. */
  lemma CacheNameHasNoHash(c: ChannelName)
    requires NamePattern(c) && IsCacheChannel(c)
    ensures '#' !in c
  {
    assert c[0] != '#' && USER_PREFIX[0] == '#';
    assert forall i | 0 <= i < |c| :: NameChar(c[i]);
  }

  /** If `sep` does not occur in `x`, the last separator of the string comes no later than the end of `a`. */
  lemma SeparatorComesEarlier(a: string, x: string, b: string, y: string, sep: char)
    requires sep !in x
    requires a + [sep] + x == b + [sep] + y
    ensures |b| <= |a|
  {
    var s := b + [sep] + y;
    assert s[|b|] == sep;
    assert forall i | |a| < i < |s| :: s[i] == x[i - |a| - 1] && x[i - |a| - 1] in x;
  }

  /** A separator that occurs in neither right part splits a string in one way only. */
  lemma SplitsAtLast(a: string, x: string, b: string, y: string, sep: char)
    requires sep !in x && sep !in y
    requires a + [sep] + x == b + [sep] + y
    ensures a == b && x == y
  {
    SeparatorComesEarlier(a, x, b, y, sep);
    SeparatorComesEarlier(b, y, a, x, sep);
    var s := a + [sep] + x;
    assert a == s[..|a|] == b;
    assert x == s[|a| + 1..] == y;
  }

  /** For validated channels the key determines app and channel, whatever the app ids are. */
  lemma CacheKeyInjective(app: AppId, c: ChannelName, app': AppId, c': ChannelName)
    requires '#' !in c && '#' !in c'
    requires ChannelCacheKey(app, c) == ChannelCacheKey(app', c')
    ensures app == app' && c == c'
  {
    var k, k' := "app#" + app + "#channel", "app#" + app' + "#channel";
    assert ChannelCacheKey(app, c) == k + ['#'] + c;
    assert ChannelCacheKey(app', c') == k' + ['#'] + c';
    SplitsAtLast(k, c, k', c', '#');
    assert app == k[4..|k| - 8] && app' == k'[4..|k'| - 8];
  }

  // ---------- flap-detection keys ----------

  /** What a flap-detection key stands for. */
  datatype Topic =
    | Occupancy(app: AppId, channel: ChannelName)
    | Membership(app: AppId, channel: ChannelName, user: UserId)
  {
    /** The app id and the channel name, not the user id, are free of the separator. */
    predicate Separable() { ':' !in app && ':' !in channel }
  }

  /** The formats "app:%s:channel:%s" and "app:%s:channel:%s:member:%s". */
  function FlapKey(t: Topic): string {
    "app:" + (t.app + [':'] + ("channel:" + AfterApp(t)))
  }

  function AfterApp(t: Topic): string {
    match t
    case Occupancy(_, c) => c
    case Membership(_, c, u) => c + [':'] + ("member:" + u)
  }

  /** Both key forms are jointly injective, although user ids may contain ':' themselves. */
  lemma FlapKeyInjective(t: Topic, t': Topic)
    requires t.Separable() && t'.Separable()
    requires FlapKey(t) == FlapKey(t')
    ensures t == t'
  {
    var r, r' := AfterApp(t), AfterApp(t');
    assert FlapKey(t)[4..] == t.app + [':'] + ("channel:" + r);
    assert FlapKey(t')[4..] == t'.app + [':'] + ("channel:" + r');
    SplitsOnce(t.app, "channel:" + r, t'.app, "channel:" + r', ':');
    assert r == ("channel:" + r)[8..] && r' == ("channel:" + r')[8..];
    assert t.Membership? ==> r[|t.channel|] == ':' && ':' in r;
    assert t'.Membership? ==> r'[|t'.channel|] == ':' && ':' in r';
    if t.Membership? && t'.Membership? {
      SplitsOnce(t.channel, "member:" + t.user, t'.channel, "member:" + t'.user, ':');
      assert t.user == ("member:" + t.user)[7..] && t'.user == ("member:" + t'.user)[7..];
    }
  }
}
