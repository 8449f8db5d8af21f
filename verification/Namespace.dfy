/** Sockets and the three maps of a namespace as the program keeps them (internal/websocket.go, internal/namespace.go).
    `Index` is the value that Membership.dfy reasons about. */
module NamespaceClass {
  import opened Wrappers
  import opened Names
  import opened Membership

  class WebSocket {
    const id: SocketId
    var subscribedChannels: map<ChannelName, Channel>
    var presenceData: map<ChannelName, Member>
    var userId: UserId
    var awaitingAuth: bool
    var inbox: seq<Message> // what Send wrote to the connection

    constructor (id: SocketId, requireAuthorization: bool)
      ensures this.id == id && View() == Socket({}, map[], "", requireAuthorization, [])
    {
      this.id := id;
      subscribedChannels, presenceData, userId, awaitingAuth, inbox := map[], map[], "", requireAuthorization, [];
    }

    function View(): Socket
      reads this
    {
      Socket(subscribedChannels.Keys, presenceData, userId, awaitingAuth, inbox)
    }

    /** The record kept for a subscription is the one its name determines. */
    ghost predicate RecordsMatch()
      reads this
    {
      forall c | c in subscribedChannels :: subscribedChannels[c] == CreateChannel(c)
    }

    method Send(m: Message)
      modifies this`inbox
      ensures inbox == old(inbox) + [m]
    {
      inbox := inbox + [m];
    }

    method GetPresenceData(c: ChannelName) returns (member: Option<Member>)
      ensures member == if c in presenceData then Some(presenceData[c]) else None
    {
      if c in presenceData {
        return Some(presenceData[c]);
      }
      return None;
    }
  }

  /** The loop that copies a list without one id; its capacity len - 1 must not be negative. */
  method FilterOut(ids: seq<SocketId>, id: SocketId) returns (rest: seq<SocketId>)
    requires ids != []
    ensures rest == Without(ids, id)
  {
    rest := [];
    for i := 0 to |ids|
      invariant rest == Without(ids[..i], id)
    {
      assert ids[..i + 1][..i] == ids[..i];
      if ids[i] != id {
        rest := rest + [ids[i]];
      }
    }
    assert ids[..|ids|] == ids;
  }

  /** Dropping an id from several lists in turn. */
  function DropMany(lists: map<string, seq<SocketId>>, keys: seq<string>, id: SocketId): map<string, seq<SocketId>> {
    if keys == [] then lists else Drop(DropMany(lists, keys[..|keys| - 1], id), keys[|keys| - 1], id)
  }

  lemma DropManyOne(lists: map<string, seq<SocketId>>, key: string, id: SocketId)
    ensures DropMany(lists, [key], id) == Drop(lists, key, id)
  {
    assert [key][..0] == [];
    assert DropMany(lists, [], id) == lists;
  }

  ghost predicate NoEmptyList(lists: map<string, seq<SocketId>>) {
    forall k | k in lists :: lists[k] != []
  }

  class Namespace {
    var channels: map<ChannelName, seq<SocketId>>
    var sockets: map<SocketId, WebSocket>
    var users: map<UserId, seq<SocketId>>

    constructor ()
      ensures sockets == map[] && Index([]) == EMPTY && Valid()
    {
      channels, sockets, users := map[], map[], map[];
    }

    /** Sockets are filed under their own ids, so no socket is filed twice. */
    ghost predicate Valid()
      reads this
    {
      forall id | id in sockets :: sockets[id].id == id
    }

    function Index(emitted: seq<Hook>): State
      reads this, sockets.Values
    {
      State(channels, map id | id in sockets :: sockets[id].View(), users, emitted)
    }

    method AddSocket(ws: WebSocket) returns (added: bool)
      requires Valid()
      modifies this`sockets
      ensures Valid() && added == (ws.id !in old(sockets))
      ensures sockets == if added then old(sockets)[ws.id := ws] else old(sockets)
    {
      if ws.id in sockets {
        return false;
      }
      sockets := sockets[ws.id := ws];
      return true;
    }

    method RemoveSocket(wsId: SocketId)
      requires Valid() && NoEmptyList(channels) && NoEmptyList(users)
      modifies this
      ensures Valid() && sockets == old(sockets) - {wsId}
      ensures channels == if wsId in old(sockets) then DropEverywhere(old(channels), wsId) else old(channels)
      ensures users == if wsId in old(sockets) && old(sockets)[wsId].userId != ""
        then Drop(old(users), old(sockets)[wsId].userId, wsId) else old(users)
    {
      if wsId !in sockets {
        assert sockets - {wsId} == sockets;
        return;
      }
      var socket := sockets[wsId];
      sockets := sockets - {wsId};
      if socket.userId != "" && socket.userId in users {
        var rest := FilterOut(users[socket.userId], wsId);
        users := users[socket.userId := rest];
        if |users[socket.userId]| == 0 {
          users := users - {socket.userId};
        }
      }
      RemoveFromEveryChannel(wsId);
    }

    method RemoveFromEveryChannel(wsId: SocketId)
      requires NoEmptyList(channels)
      modifies this`channels
      ensures channels == DropEverywhere(old(channels), wsId)
    {
      var todo := channels.Keys;
      while todo != {}
        invariant todo <= channels.Keys <= old(channels).Keys
        invariant forall c | c in todo :: channels[c] == old(channels)[c]
        invariant forall c | c in old(channels).Keys - todo ::
          c in channels <==> Without(old(channels)[c], wsId) != []
        invariant forall c | c in channels.Keys - todo :: channels[c] == Without(old(channels)[c], wsId)
        decreases |todo|
      {
        var c :| c in todo;
        var rest := FilterOut(channels[c], wsId);
        channels := channels[c := rest];
        if |channels[c]| == 0 {
          channels := channels - {c};
        }
        todo := todo - {c};
      }
    }

    method AddToChannel(ws: WebSocket, c: ChannelName) returns (count: int)
      modifies this`channels
      ensures channels == Append(old(channels), c, ws.id) && count == |channels[c]|
    {
      if c !in channels {
        channels := channels[c := []];
      }
      channels := channels[c := channels[c] + [ws.id]];
      count := |channels[c]|;
    }

    method RemoveFromChannel(wsId: SocketId, from: seq<ChannelName>) returns (count: int)
      requires NoEmptyList(channels)
      modifies this`channels
      ensures channels == DropMany(old(channels), from, wsId) && NoEmptyList(channels)
      ensures count == if |from| == 1 then |Listed(channels, from[0])| else 0
    {
      var results: map<ChannelName, int> := map[];
      for i := 0 to |from|
        invariant NoEmptyList(channels)
        invariant channels == DropMany(old(channels), from[..i], wsId)
        invariant i == 1 ==> (if from[0] in results then results[from[0]] else 0) == |Listed(channels, from[0])|
        invariant i == 0 ==> results == map[]
      {
        var c := from[i];
        assert from[..i + 1][..i] == from[..i];
        if c in channels {
          var remaining := RemoveOne(wsId, c);
          results := results[c := remaining];
        }
      }
      assert from[..|from|] == from;
      if |from| > 1 {
        return 0;
      } else if |from| == 1 {
        return if from[0] in results then results[from[0]] else 0;
      } else {
        return 0;
      }
    }

    method RemoveOne(wsId: SocketId, c: ChannelName) returns (remaining: int)
      requires NoEmptyList(channels) && c in channels
      modifies this`channels
      ensures channels == Drop(old(channels), c, wsId) && NoEmptyList(channels)
      ensures remaining == |Listed(channels, c)|
    {
      var rest := FilterOut(channels[c], wsId);
      channels := channels[c := rest];
      if |channels[c]| == 0 {
        channels := channels - {c};
        return 0;
      }
      return |channels[c]|;
    }

    method GetChannelSockets(c: ChannelName) returns (found: map<SocketId, WebSocket>)
      ensures found.Keys == ChannelSockets(Index([]), c)
      ensures forall id | id in found :: found[id] == sockets[id]
    {
      found := map[];
      if c !in channels {
        return;
      }
      var ids := channels[c];
      for i := 0 to |ids|
        invariant found.Keys == set id | id in ids[..i] && id in sockets
        invariant forall id | id in found :: found[id] == sockets[id]
      {
        assert ids[..i + 1] == ids[..i] + [ids[i]];
        if ids[i] in sockets {
          found := found[ids[i] := sockets[ids[i]]];
        }
      }
      assert ids[..|ids|] == ids;
    }

    predicate Carries(id: SocketId, c: ChannelName, m: Member)
      reads this, sockets.Values
    {
      id in sockets && c in sockets[id].presenceData && sockets[id].presenceData[c] == m
    }

    predicate CarriesUser(id: SocketId, c: ChannelName, u: UserId)
      reads this, sockets.Values
    {
      id in sockets && c in sockets[id].presenceData && sockets[id].presenceData[c].userId == u
    }

    lemma MembersCarry(c: ChannelName)
      ensures forall u :: u in MemberIds(Index([]), c) <==>
        (exists id :: id in ChannelSockets(Index([]), c) && CarriesUser(id, c, u))
    {
      var index := Index([]);
      forall id | id in ChannelSockets(index, c) ensures index.sockets[id].presence == sockets[id].presenceData {}
      forall u | u in MemberIds(index, c) ensures exists id :: id in ChannelSockets(index, c) && CarriesUser(id, c, u) {
        var id :| id in ChannelSockets(index, c) && c in index.sockets[id].presence
                  && index.sockets[id].presence[c].userId == u;
        assert CarriesUser(id, c, u);
      }
    }

    /** The keys are the member ids; each value is the presence data of some socket in the channel. */
    method GetChannelMembers(c: ChannelName) returns (members: map<UserId, Member>)
      ensures members.Keys == MemberIds(Index([]), c)
      ensures forall u | u in members ::
        (exists id :: id in ChannelSockets(Index([]), c) && Carries(id, c, members[u])) && members[u].userId == u
    {
      var found := GetChannelSockets(c);
      members := CollectMembers(found, c);
      MembersCarry(c);
    }

    method CollectMembers(found: map<SocketId, WebSocket>, c: ChannelName) returns (members: map<UserId, Member>)
      requires forall id | id in found :: id in sockets && found[id] == sockets[id]
      ensures forall u :: u in members <==> (exists id :: id in found.Keys && CarriesUser(id, c, u))
      ensures forall u | u in members ::
        (exists id :: id in found.Keys && Carries(id, c, members[u])) && members[u].userId == u
    {
      members := map[];
      var todo := found.Keys;
      ghost var done: set<SocketId> := {};
      while todo != {}
        invariant todo + done == found.Keys
        invariant forall u :: u in members <==> (exists id :: id in done && CarriesUser(id, c, u))
        invariant forall u | u in members ::
          (exists id :: id in done && Carries(id, c, members[u])) && members[u].userId == u
        decreases |todo|
      {
        var id :| id in todo;
        ghost var before := members;
        var val := found[id].GetPresenceData(c);
        if val.Some? {
          members := members[val.value.userId := val.value];
        }
        todo := todo - {id};
        MemberCollected(before, members, done, id, c, val);
        done := done + {id};
      }
    }

    lemma MemberCollected(before: map<UserId, Member>, after: map<UserId, Member>, done: set<SocketId>, id: SocketId,
                          c: ChannelName, val: Option<Member>)
      requires id in sockets
      requires val == (if c in sockets[id].presenceData then Some(sockets[id].presenceData[c]) else None)
      requires after == if val.Some? then before[val.value.userId := val.value] else before
      requires forall u :: u in before <==> (exists j :: j in done && CarriesUser(j, c, u))
      requires forall u | u in before :: (exists j :: j in done && Carries(j, c, before[u])) && before[u].userId == u
      ensures forall u :: u in after <==> (exists j :: j in done + {id} && CarriesUser(j, c, u))
      ensures forall u | u in after :: (exists j :: j in done + {id} && Carries(j, c, after[u])) && after[u].userId == u
    {
      assert val.Some? ==> Carries(id, c, val.value) && CarriesUser(id, c, val.value.userId);
      forall u ensures u in after <==> (exists j :: j in done + {id} && CarriesUser(j, c, u)) {
        if u in before {
          var j :| j in done && CarriesUser(j, c, u);
          assert j in done + {id};
        }
        if j :| j in done + {id} && CarriesUser(j, c, u) {
          if j != id { assert j in done; }
        }
      }
      forall u | u in after ensures (exists j :: j in done + {id} && Carries(j, c, after[u])) && after[u].userId == u {
        if u in before && after[u] == before[u] {
          var j :| j in done && Carries(j, c, before[u]);
          assert j in done + {id};
        }
      }
    }

    method IsInChannel(wsId: SocketId, c: ChannelName) returns (yes: bool)
      ensures yes <==> wsId in Listed(channels, c)
    {
      if c !in channels {
        return false;
      }
      return wsId in channels[c];
    }

    method AddUser(ws: WebSocket)
      modifies this`users
      ensures forall emitted :: Index(emitted) == Membership.AddUser(old(Index(emitted)), ws.id, ws.userId)
    {
      if ws.userId == "" {
        return;
      }
      if ws.userId !in users {
        users := users[ws.userId := []];
      }
      if ws.id !in users[ws.userId] {
        users := users[ws.userId := users[ws.userId] + [ws.id]];
      } else {
        assert users == old(users);
      }
    }

    method RemoveUser(ws: WebSocket)
      requires NoEmptyList(users)
      modifies this`users
      ensures forall emitted :: Index(emitted) == Membership.RemoveUser(old(Index(emitted)), ws.id, ws.userId)
    {
      if ws.userId == "" {
        return;
      }
      if ws.userId in users {
        var rest := FilterOut(users[ws.userId], ws.id);
        users := users[ws.userId := rest];
        if |users[ws.userId]| == 0 {
          users := users - {ws.userId};
        }
      }
    }

    /** The live sockets of a user, in list order. */
    method GetUserSockets(user: UserId) returns (found: seq<WebSocket>)
      ensures |found| == |UserSockets(Index([]), user)|
      ensures forall i | 0 <= i < |found| ::
        UserSockets(Index([]), user)[i] in sockets && found[i] == sockets[UserSockets(Index([]), user)[i]]
    {
      assert Index([]).sockets.Keys == sockets.Keys;
      found := [];
      if user !in users {
        return;
      }
      var ids := users[user];
      for i := 0 to |ids|
        invariant |found| == |LiveOnly(ids[..i], sockets.Keys)|
        invariant forall j | 0 <= j < |found| ::
          LiveOnly(ids[..i], sockets.Keys)[j] in sockets && found[j] == sockets[LiveOnly(ids[..i], sockets.Keys)[j]]
      {
        assert ids[..i + 1][..i] == ids[..i];
        if ids[i] in sockets {
          found := found + [sockets[ids[i]]];
        }
      }
      assert ids[..|ids|] == ids;
    }

    method GetChannelsWithSocketsCount() returns (list: map<ChannelName, int>)
      ensures list == map c | c in channels :: |channels[c]|
    {
      list := map[];
      var todo := channels.Keys;
      while todo != {}
        invariant todo <= channels.Keys && list.Keys == channels.Keys - todo
        invariant forall c | c in list :: list[c] == |channels[c]|
        decreases |todo|
      {
        var c :| c in todo;
        list := list[c := |channels[c]|];
        todo := todo - {c};
      }
    }

    method CountMembers(c: ChannelName) returns (count: int)
      ensures count == |MemberIds(Index([]), c)|
    {
      var members := GetChannelMembers(c);
      count := |members.Keys|;
    }

    /** Presence channels with their numbers of distinct members. */
    method GetPresenceChannelsWithUsersCount() returns (list: map<ChannelName, int>)
      ensures forall c :: c in list <==> c in channels && IsPresence(c)
      ensures forall c | c in list :: list[c] == |MemberIds(Index([]), c)|
    {
      hide IsPresence, MemberIds;
      list := map[];
      var todo := channels.Keys;
      while todo != {}
        invariant todo <= channels.Keys
        invariant forall c :: c in list <==> c in channels && c !in todo && IsPresence(c)
        invariant forall c | c in list :: list[c] == |MemberIds(Index([]), c)|
        decreases |todo|
      {
        var c :| c in todo;
        todo := todo - {c};
        var presence := IsPresence(c);
        if presence {
          var count := CountMembers(c);
          list := list[c := count];
        }
      }
    }

    /** Rebuild the maps with only the non-empty lists. */
    method CompactMaps()
      modifies this
      ensures sockets == old(sockets)
      ensures forall emitted :: Index(emitted) == Membership.CompactMaps(old(Index(emitted)))
    {
      channels := Rebuilt(channels);
      users := Rebuilt(users);
    }
  }

  method Rebuilt(lists: map<string, seq<SocketId>>) returns (rebuilt: map<string, seq<SocketId>>)
    ensures rebuilt == NonEmpty(lists)
  {
    rebuilt := map[];
    var todo := lists.Keys;
    while todo != {}
      invariant todo <= lists.Keys
      invariant forall k :: k in rebuilt <==> k in lists.Keys - todo && lists[k] != []
      invariant forall k | k in rebuilt :: rebuilt[k] == lists[k]
      decreases |todo|
    {
      var k :| k in todo;
      if |lists[k]| > 0 {
        rebuilt := rebuilt[k := lists[k]];
      }
      todo := todo - {k};
    }
  }
}
