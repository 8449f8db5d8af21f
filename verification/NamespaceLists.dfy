/** What every sequence of requests keeps in the namespace, without any assumption on the clients. */
module NamespaceLists {
  import opened Wrappers
  import opened Names
  import opened Membership
  import opened MembershipCore
  import opened MembershipIndex

  /** Channels and Users hold no empty list, so no list is copied with a negative capacity. */
  ghost predicate NoEmptyUser(s: State) {
    forall u | u in s.users :: u != "" && s.users[u] != [] && NoRepeats(s.users[u])
  }

  ghost predicate ListedLive(s: State) {
    forall c, id | c in s.channels && id in s.channels[c] :: id in s.sockets
  }

  /** No empty list; every id listed under a channel is a registered socket; user lists are free of repeats. */
  ghost predicate ListsInv(s: State) {
    NoEmptyChannel(s) && ListedLive(s) && NoEmptyUser(s)
  }

  lemma DropLists(lists: map<string, seq<SocketId>>, key: string, id: SocketId)
    requires forall k | k in lists :: lists[k] != [] && NoRepeats(lists[k])
    ensures forall k | k in Drop(lists, key, id) ::
      k in lists && Drop(lists, key, id)[k] != [] && NoRepeats(Drop(lists, key, id)[k])
  {
    if key in lists { WithoutKeepsNoRepeats(lists[key], id); }
  }

  lemma SameCoreLists(s: State, r: State)
    requires ListsInv(s) && SameCore(s, r)
    ensures ListsInv(r)
  {
  }

  lemma JoinLists(s: State, r: State, id: SocketId, sub: Subscription)
    requires ListsInv(s) && id in s.sockets && JoinRel(s, r, id, sub)
    ensures ListsInv(r)
  {
  }

  lemma LeaveLists(s: State, r: State, id: SocketId, c: ChannelName)
    requires ListsInv(s) && id in s.sockets && LeaveRel(s, r, id, c)
    ensures ListsInv(r)
  {
  }

  /** Closing takes the socket out of Sockets and out of every channel list, whatever state it was in. */
  lemma CloseLists(s: State, id: SocketId, order: seq<ChannelName>)
    requires ListsInv(s) && id in s.sockets
    ensures var r := CloseSocket(s, id, order);
      && ListsInv(r) && r.sockets.Keys == s.sockets.Keys - {id}
      && (forall c | c in r.channels :: id !in r.channels[c])
  {
    CloseCore(s, id, order);
    var user := s.sockets[id].userId;
    DropLists(s.users, user, id);
    DropLists(Drop(s.users, user, id), user, id);
  }

  lemma SigninLists(s: State, id: SocketId, user: UserId)
    requires ListsInv(s) && id in s.sockets && user != ""
    ensures ListsInv(AddUser(s.(sockets := s.sockets[id := s.sockets[id].(userId := user)]), id, user))
  {
    var was := Listed(s.users, user);
    assert NoRepeats(was);
    assert id !in was ==> NoRepeats(was + [id]);
  }

  /** Every request keeps the lists well formed. */
  lemma ListsStep(cfg: Config, s: State, r: Request)
    requires ListsInv(s) && Enabled(s, r)
    ensures ListsInv(Step(cfg, s, r))
  {
    var s' := Step(cfg, s, r);
    match r
    case Connect(_) =>
    case Subscribing(id, sub) =>
      SubscribingCore(cfg, s, id, sub);
      if Admitted(cfg, s, id, sub) { JoinLists(s, s', id, sub); } else { SameCoreLists(s, s'); }
    case Unsubscribing(id, c) =>
      UnsubscribingCore(cfg, s, id, c);
      if c in s.sockets[id].subscribed { LeaveLists(s, s', id, c); } else { SameCoreLists(s, s'); }
    case SigningIn(id, tokenOk, user, order) =>
      var o := Signin(s, id, tokenOk, user, order);
      AnswerCore(o, id);
      if user != "" {
        if tokenOk { SigninLists(s, id, user); } else { CloseLists(s, id, order); }
      }
      assert ListsInv(o.state);
      SameCoreLists(o.state, s');
    case Closing(id, order) => CloseLists(s, id, order);
    case Compacting => CompactIsIdentity(s);
  }

  lemma {:induction false} RunKeepsLists(cfg: Config, rs: seq<Request>)
    ensures ListsInv(Run(cfg, rs))
  {
    if rs != [] {
      RunKeepsLists(cfg, rs[..|rs| - 1]);
      var s, r := Run(cfg, rs[..|rs| - 1]), rs[|rs| - 1];
      if Enabled(s, r) { ListsStep(cfg, s, r); }
    }
  }

  lemma CompactLast(cfg: Config, before: seq<Request>)
    ensures Run(cfg, before + [Compacting]) == Run(cfg, before)
  {
    RunKeepsLists(cfg, before);
    RunNext(cfg, before, Compacting);
    CompactIsIdentity(Run(cfg, before));
  }

  /** Compacting at any point of a run changes no state, hence no later query or update. */
  lemma {:induction false} CompactIsInvisible(cfg: Config, before: seq<Request>, after: seq<Request>)
    ensures Run(cfg, before + [Compacting] + after) == Run(cfg, before + after)
  {
    hide Step, Enabled, Run;
    if after == [] {
      CompactLast(cfg, before);
      assert before + [Compacting] + after == before + [Compacting] && before + after == before;
    } else {
      var init, last := after[..|after| - 1], after[|after| - 1];
      CompactIsInvisible(cfg, before, init);
      RunNext(cfg, before + init, last);
      RunNext(cfg, before + [Compacting] + init, last);
      assert before + after == before + init + [last];
      assert before + [Compacting] + after == before + [Compacting] + init + [last];
    }
  }
}
