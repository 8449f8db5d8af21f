/** Strictly alternating on/off sequences that start with "on". */
module Alternation {
  predicate Alternates(turns: seq<bool>) {
    forall i | 0 <= i < |turns| :: turns[i] == (i % 2 == 0)
  }

  /** The sequence alternates, and its last entry says whether the thing is on now. */
  predicate Truthful(turns: seq<bool>, now: bool) {
    Alternates(turns) && (|turns| % 2 == 1 <==> now)
  }

  // ---------- one entry at most at a time ----------

  /** The thing went from `was` to `now` and `turn` was entered: nothing unless it goes on, "on" only if it is on
      afterwards, "off" only if it went off. */
  predicate Follows(turn: seq<bool>, was: bool, now: bool) {
    && |turn| <= 1
    && (turn == [] ==> (now ==> was))
    && (turn == [true] ==> now)
    && (turn == [false] ==> was && !now)
  }

  /** It is reported on although it was on already, or goes off unreported. */
  predicate Misleads(turn: seq<bool>, was: bool, now: bool) {
    (turn == [true] && was) || (turn == [] && was && !now)
  }

  function Count(turns: seq<bool>, b: bool): nat {
    if turns == [] then 0 else Count(turns[..|turns| - 1], b) + (if turns[|turns| - 1] == b then 1 else 0)
  }

  /** How often "on" was entered more than "off". */
  function Balance(turns: seq<bool>): int {
    Count(turns, true) - Count(turns, false)
  }

  function AsInt(b: bool): int {
    if b then 1 else 0
  }

  lemma CountMore(turns: seq<bool>, b: bool, x: bool)
    ensures Count(turns + [x], b) == Count(turns, b) + (if x == b then 1 else 0)
  {
    assert (turns + [x])[..|turns|] == turns;
  }

  /** A truthful sequence has entered "on" once more than "off" if the thing is on, and equally often if not. */
  lemma {:induction false} TruthfulBalances(turns: seq<bool>, now: bool)
    requires Truthful(turns, now)
    ensures Balance(turns) == AsInt(now)
  {
    if turns != [] {
      var init := turns[..|turns| - 1];
      assert Alternates(init) && turns[|turns| - 1] == (|init| % 2 == 0);
      TruthfulBalances(init, |init| % 2 == 1);
    }
  }

  lemma AlternatesMore(turns: seq<bool>, x: bool)
    ensures Alternates(turns + [x]) <==> Alternates(turns) && (x <==> |turns| % 2 == 0)
  {
    var longer := turns + [x];
    assert longer[|turns|] == x && forall i | 0 <= i < |turns| :: longer[i] == turns[i];
  }

  /** A following entry keeps a truthful sequence truthful exactly when it does not mislead; and in any sequence it
      raises the balance above what it should be by one if it misleads, and not at all otherwise. */
  lemma TurnFollows(turns: seq<bool>, was: bool, turn: seq<bool>, now: bool)
    requires Follows(turn, was, now)
    ensures Truthful(turns, was) ==> (Truthful(turns + turn, now) <==> !Misleads(turn, was, now))
    ensures Balance(turns + turn) - AsInt(now) == Balance(turns) - AsInt(was) + AsInt(Misleads(turn, was, now))
  {
    hide Alternates, Count;
    if turn == [] {
      assert turns + turn == turns;
    } else {
      assert turn == [turn[0]];
      AlternatesMore(turns, turn[0]);
      CountMore(turns, true, turn[0]);
      CountMore(turns, false, turn[0]);
    }
  }
}
