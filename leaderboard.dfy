/** The ordering of the leaderboard: entries are sorted by their number of
    moves, and on equal moves a game won on the hard level (draw three)
    comes before one won on the easy level (draw one). Reading and writing
    the scores file is not part of this model. */
module Leaderboard {
  import opened Cards

  datatype Difficulty = Easy | Hard

  /** A stored score. Either key may be missing from the stored record, and
      a difficulty the game does not know reads as missing. */
  datatype ScoreEntry = ScoreEntry(moves: Option<int>, difficulty: Option<Difficulty>)

  /** The sort key: the number of moves (a missing count sorts as
      infinity, written None) and the difficulty order (hard 0, anything
      else 1). */
  datatype Key = Key(moves: Option<int>, order: int)

  function SortKey(e: ScoreEntry): Key {
    Key(e.moves, if e.difficulty == Some(Hard) then 0 else 1)
  }

  /** Python's ordering of the key tuples, with None above every number. */
  predicate MovesLess(a: Option<int>, b: Option<int>) {
    a.Some? && (b.None? || a.value < b.value)
  }

  predicate KeyLe(a: Key, b: Key) {
    MovesLess(a.moves, b.moves) || (a.moves == b.moves && a.order <= b.order)
  }

  /** An entry that SortKey places strictly before another. */
  predicate RanksBefore(a: ScoreEntry, b: ScoreEntry) {
    KeyLe(SortKey(a), SortKey(b)) && !KeyLe(SortKey(b), SortKey(a))
  }

  /** The key order is a total preorder, so sorting by it is well defined. */
  lemma KeyOrderIsTotalPreorder(a: Key, b: Key, c: Key)
    ensures KeyLe(a, a)
    ensures KeyLe(a, b) || KeyLe(b, a)
    ensures KeyLe(a, b) && KeyLe(b, c) ==> KeyLe(a, c)
  {
  }

  /** Fewer moves always rank first; on equal moves hard ranks before easy;
      an entry without a move count ranks after every entry with one. */
  lemma LeaderboardOrder(a: ScoreEntry, b: ScoreEntry)
    ensures a.moves.Some? && b.moves.Some? && a.moves.value < b.moves.value ==> RanksBefore(a, b)
    ensures a.moves == b.moves && a.difficulty == Some(Hard) && b.difficulty != Some(Hard) ==> RanksBefore(a, b)
    ensures a.moves.Some? && b.moves.None? ==> RanksBefore(a, b)
    ensures RanksBefore(a, b) <==>
      MovesLess(a.moves, b.moves) || (a.moves == b.moves && a.difficulty == Some(Hard) && b.difficulty != Some(Hard))
  {
  }
}
