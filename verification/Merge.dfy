/** Folding the nodes' answers into one response (waitForResponse in internal/adaptersHorizontal.go), and what the fold
    means independently of the order in which answers arrive. */
module Merge {
  /** The request types whose local part is a fresh value. */
  datatype Kind =
    | SocketsCount | ChannelMembersCount | ChannelSocketsCount
    | ChannelsWithSocketsCount | PresenceChannelsWithUsersCount
    | ChannelSockets | ChannelMembers

  /** `entries` stands for the keyed part: members by user id, or sockets by socket id. */
  datatype Response = Response(totalCount: int, counts: map<string, int>, entries: map<string, string>)

  function AddCounts(a: map<string, int>, b: map<string, int>): map<string, int> {
    map c | c in a.Keys + b.Keys :: (if c in a then a[c] else 0) + (if c in b then b[c] else 0)
  }

  /** One received answer merged into the accumulated response. */
  function MergeInto(kind: Kind, acc: Response, r: Response): Response {
    match kind
    case SocketsCount | ChannelMembersCount | ChannelSocketsCount =>
      acc.(totalCount := acc.totalCount + r.totalCount)
    case ChannelsWithSocketsCount | PresenceChannelsWithUsersCount => acc.(counts := AddCounts(acc.counts, r.counts))
    case ChannelSockets | ChannelMembers => acc.(entries := acc.entries + r.entries)
  }

  // ---------- the reference meaning ----------

  type NodeId = nat

  /** The sum of the total counts of the nodes below n that have an answer. */
  function TotalOf(answers: map<NodeId, Response>, n: nat): int {
    if n == 0 then 0
    else TotalOf(answers, n - 1) + (if n - 1 in answers then answers[n - 1].totalCount else 0)
  }

  /** The sum of one channel's counts. */
  function CountOf(answers: map<NodeId, Response>, n: nat, c: string): int {
    if n == 0 then 0
    else
      CountOf(answers, n - 1, c)
      + (if n - 1 in answers && c in answers[n - 1].counts then answers[n - 1].counts[c] else 0)
  }

  /** Channel by channel the sum of what the answers say of it; the channels are those of any answer. */
  ghost predicate IsPointwiseSum(counts: map<string, int>, answers: map<NodeId, Response>, n: nat) {
    && (forall c :: c in counts <==> exists i :: i in answers && c in answers[i].counts)
    && (forall c | c in counts :: counts[c] == CountOf(answers, n, c))
  }

  /** The keys are those of any answer, and each value is one that some answer has for the key. */
  ghost predicate IsUnion(entries: map<string, string>, answers: map<NodeId, Response>) {
    && (forall k :: k in entries <==> exists i :: i in answers && k in answers[i].entries)
    && (forall k | k in entries ::
          exists i :: i in answers && k in answers[i].entries && entries[k] == answers[i].entries[k])
  }

  /** `acc` is exactly the sum, the pointwise sum, or a keyed union of the answers, as the kind asks. */
  ghost predicate Combines(kind: Kind, acc: Response, answers: map<NodeId, Response>, n: nat) {
    match kind
    case SocketsCount => acc.totalCount == TotalOf(answers, n)
    case ChannelMembersCount => acc.totalCount == TotalOf(answers, n)
    case ChannelSocketsCount => acc.totalCount == TotalOf(answers, n)
    case ChannelsWithSocketsCount => IsPointwiseSum(acc.counts, answers, n)
    case PresenceChannelsWithUsersCount => IsPointwiseSum(acc.counts, answers, n)
    case ChannelSockets => IsUnion(acc.entries, answers)
    case ChannelMembers => IsUnion(acc.entries, answers)
  }

  lemma {:induction false} TotalOfMore(answers: map<NodeId, Response>, j: NodeId, r: Response, n: nat)
    requires j !in answers
    ensures TotalOf(answers[j := r], n) == TotalOf(answers, n) + (if j < n then r.totalCount else 0)
  {
    if n > 0 { TotalOfMore(answers, j, r, n - 1); }
  }

  lemma {:induction false} CountOfMore(answers: map<NodeId, Response>, j: NodeId, r: Response, n: nat, c: string)
    requires j !in answers
    ensures CountOf(answers[j := r], n, c) ==
      CountOf(answers, n, c) + (if j < n && c in r.counts then r.counts[c] else 0)
  {
    if n > 0 { CountOfMore(answers, j, r, n - 1, c); }
  }

  lemma {:induction false} CountOfNone(answers: map<NodeId, Response>, n: nat, c: string)
    requires forall i | i in answers :: c !in answers[i].counts
    ensures CountOf(answers, n, c) == 0
  {
    if n > 0 { CountOfNone(answers, n - 1, c); }
  }

  lemma {:induction false} TotalOfEmpty(n: nat)
    ensures TotalOf(map[], n) == 0
  {
    if n > 0 { TotalOfEmpty(n - 1); }
  }

  /** The requester's own answer alone. */
  lemma CombinesOwn(kind: Kind, own: Response, self: NodeId, n: nat)
    requires self < n
    ensures Combines(kind, own, map[self := own], n)
  {
    var answers: map<NodeId, Response> := map[self := own];
    assert answers == map[][self := own];
    match kind
    case SocketsCount | ChannelMembersCount | ChannelSocketsCount =>
      TotalOfEmpty(n);
      TotalOfMore(map[], self, own, n);
    case ChannelsWithSocketsCount | PresenceChannelsWithUsersCount =>
      forall c | c in own.counts ensures own.counts[c] == CountOf(answers, n, c) {
        CountOfNone(map[], n, c);
        CountOfMore(map[], self, own, n, c);
      }
      assert forall c :: c in own.counts ==> self in answers && c in answers[self].counts;
    case ChannelSockets | ChannelMembers =>
      assert forall k :: k in own.entries ==> self in answers && k in answers[self].entries;
  }

  /** Merging the answer of one more node, whichever it is, keeps the response exact. */
  lemma CombinesMore(kind: Kind, acc: Response, answers: map<NodeId, Response>, j: NodeId, r: Response, n: nat)
    requires Combines(kind, acc, answers, n) && j !in answers && j < n
    ensures Combines(kind, MergeInto(kind, acc, r), answers[j := r], n)
  {
    match kind
    case SocketsCount | ChannelMembersCount | ChannelSocketsCount => TotalOfMore(answers, j, r, n);
    case ChannelsWithSocketsCount | PresenceChannelsWithUsersCount => CountsMore(acc.counts, answers, j, r, n);
    case ChannelSockets | ChannelMembers => EntriesMore(acc.entries, answers, j, r);
  }

  lemma CountsMore(counts: map<string, int>, answers: map<NodeId, Response>, j: NodeId, r: Response, n: nat)
    requires IsPointwiseSum(counts, answers, n) && j !in answers && j < n
    ensures IsPointwiseSum(AddCounts(counts, r.counts), answers[j := r], n)
  {
    var sum, more := AddCounts(counts, r.counts), answers[j := r];
    forall c ensures c in sum <==> exists i :: i in more && c in more[i].counts {
      if c in counts {
        var i :| i in answers && c in answers[i].counts;
        assert i in more && c in more[i].counts;
      }
      if c in r.counts { assert j in more && c in more[j].counts; }
      if i :| i in more && c in more[i].counts {
        if i != j { assert i in answers && c in answers[i].counts; }
      }
    }
    forall c | c in sum ensures sum[c] == CountOf(more, n, c) {
      CountOfMore(answers, j, r, n, c);
      if c !in counts { CountOfNone(answers, n, c); }
    }
  }

  lemma EntriesMore(entries: map<string, string>, answers: map<NodeId, Response>, j: NodeId, r: Response)
    requires IsUnion(entries, answers) && j !in answers
    ensures IsUnion(entries + r.entries, answers[j := r])
  {
    var union, more := entries + r.entries, answers[j := r];
    forall k | k in union ensures exists i :: i in more && k in more[i].entries && union[k] == more[i].entries[k] {
      if k in r.entries {
        assert j in more && k in more[j].entries && union[k] == more[j].entries[k];
      } else {
        var i :| i in answers && k in answers[i].entries && entries[k] == answers[i].entries[k];
        assert i in more && k in more[i].entries && union[k] == more[i].entries[k];
      }
    }
    forall k | exists i :: i in more && k in more[i].entries ensures k in union {
      var i :| i in more && k in more[i].entries;
      if i != j { assert i in answers && k in answers[i].entries; }
    }
  }

  // ---------- order independence ----------

  /** Folding a list of answers into the requester's own. */
  function Fold(kind: Kind, own: Response, received: seq<Response>): Response {
    if received == [] then own
    else MergeInto(kind, Fold(kind, own, received[..|received| - 1]), received[|received| - 1])
  }

  /** Two responses that agree as far as the kind is concerned: same count, same counts, same keys. */
  predicate Agree(kind: Kind, a: Response, b: Response) {
    match kind
    case SocketsCount | ChannelMembersCount | ChannelSocketsCount => a.totalCount == b.totalCount
    case ChannelsWithSocketsCount | PresenceChannelsWithUsersCount => a.counts == b.counts
    case ChannelSockets | ChannelMembers => a.entries.Keys == b.entries.Keys
  }

  lemma CombinesIsUnique(kind: Kind, a: Response, b: Response, answers: map<NodeId, Response>, n: nat)
    requires Combines(kind, a, answers, n) && Combines(kind, b, answers, n)
    ensures Agree(kind, a, b)
  {
    hide TotalOf, CountOf;
    match kind
    case SocketsCount | ChannelMembersCount | ChannelSocketsCount =>
    case ChannelsWithSocketsCount | PresenceChannelsWithUsersCount =>
      assert forall c :: c in a.counts <==> c in b.counts;
      assert a.counts == b.counts;
    case ChannelSockets | ChannelMembers => assert forall k :: k in a.entries <==> k in b.entries;
  }

  /** Merging two answers in either order gives responses that agree. */
  lemma SwapAgrees(kind: Kind, acc: Response, acc': Response, x: Response, y: Response)
    requires Agree(kind, acc, acc')
    ensures Agree(kind, MergeInto(kind, MergeInto(kind, acc, x), y), MergeInto(kind, MergeInto(kind, acc', y), x))
  {
  }

  lemma MergeAgrees(kind: Kind, acc: Response, acc': Response, x: Response)
    requires Agree(kind, acc, acc')
    ensures Agree(kind, MergeInto(kind, acc, x), MergeInto(kind, acc', x))
  {
  }

  lemma {:induction false} FoldMovesLast(kind: Kind, own: Response, a: seq<Response>, x: Response, b: seq<Response>)
    ensures Agree(kind, Fold(kind, own, a + [x] + b), Fold(kind, own, a + b + [x]))
  {
    if b == [] {
      assert a + [x] + b == a + b + [x];
    } else {
      var init, y := b[..|b| - 1], b[|b| - 1];
      FoldMovesLast(kind, own, a, x, init);
      var left, right := a + [x] + b, a + b + [x];
      assert left[..|left| - 1] == a + [x] + init;
      assert right[..|right| - 1] == a + b && (a + b)[..|a + b| - 1] == a + init;
      assert (a + init + [x])[..|a + init|] == a + init;
      MergeAgrees(kind, Fold(kind, own, a + [x] + init), Fold(kind, own, a + init + [x]), y);
      SwapAgrees(kind, Fold(kind, own, a + init), Fold(kind, own, a + init), x, y);
    }
  }

  /** The last element of a list, found in a permutation of it. */
  lemma FindLast<T>(a: seq<T>, b: seq<T>) returns (front: seq<T>, back: seq<T>)
    requires a != [] && multiset(a) == multiset(b)
    ensures b == front + [a[|a| - 1]] + back
    ensures multiset(a[..|a| - 1]) == multiset(front + back)
  {
    var init, x := a[..|a| - 1], a[|a| - 1];
    assert a == init + [x];
    assert x in multiset(b);
    var i :| 0 <= i < |b| && b[i] == x;
    front, back := b[..i], b[i + 1..];
    assert b == front + [x] + back;
    assert multiset(front + [x] + back) == multiset(front + back) + multiset{x};
    assert multiset(a) == multiset(init) + multiset{x};
    assert multiset(init) == multiset(a) - multiset{x} == multiset(b) - multiset{x} == multiset(front + back);
  }

  /** Folding the same answers in any order gives responses that agree. */
  lemma {:induction false} FoldIgnoresOrder(kind: Kind, own: Response, a: seq<Response>, b: seq<Response>)
    requires multiset(a) == multiset(b)
    ensures Agree(kind, Fold(kind, own, a), Fold(kind, own, b))
  {
    if a == [] {
      assert |b| == |multiset(b)| == 0;
    } else {
      var init, x := a[..|a| - 1], a[|a| - 1];
      var front, back := FindLast(a, b);
      FoldIgnoresOrder(kind, own, init, front + back);
      FoldMovesLast(kind, own, front, x, back);
      var moved := front + back + [x];
      assert moved[..|moved| - 1] == front + back && moved[|moved| - 1] == x;
      MergeAgrees(kind, Fold(kind, own, init), Fold(kind, own, front + back), x);
      AgreeTrans(kind, Fold(kind, own, a), Fold(kind, own, moved), Fold(kind, own, b));
    }
  }

  lemma AgreeTrans(kind: Kind, x: Response, y: Response, z: Response)
    requires Agree(kind, x, y) && Agree(kind, z, y)
    ensures Agree(kind, x, z)
  {
  }
}
