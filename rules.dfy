/** The placement rules: what may go on a foundation pile and what may be
    dropped onto a tableau column. */
module Rules {
  import opened Cards

  /** _can_place_on_final: a card goes on an empty pile only if it is an
      Ace, and on a non-empty pile only if it has the top card's suit and
      the next rank. Missing cards and values outside the value list are
      refused. */
  function CanPlaceOnFinal(card: Option<Card>, pile: seq<Card>): (ok: bool)
    ensures ok <==>
      card.Some? &&
      ((pile == [] && card.value.rank == ACE) ||
       (pile != [] && card.value.suit == Last(pile).suit &&
        card.value.rank == Last(pile).rank + 1 && ACE < card.value.rank <= KING))
  {
    if card.None? then false
    else
      var c := card.value;
      if !ValidRank(c.rank) then false
      else if pile == [] then c.rank == ACE
      else
        var top := Last(pile);
        if !ValidRank(top.rank) then false
        else c.suit == top.suit && c.rank == top.rank + 1
  }

  /** The foundation invariant: a pile starts with an Ace and each card
      follows the one below it in suit and rank. */
  ghost predicate FoundationPile(p: seq<Card>) {
    (p != [] ==> p[0].rank == ACE) &&
    forall i :: 0 < i < |p| ==> p[i].suit == p[i - 1].suit && p[i].rank == p[i - 1].rank + 1
  }

  /** In a foundation pile the card at height i has rank i. */
  lemma {:induction false} FoundationRanks(p: seq<Card>)
    requires FoundationPile(p)
    ensures forall i :: 0 <= i < |p| ==> p[i].rank == i
  {
    if p != [] {
      var q := DropLast(p);
      assert FoundationPile(q) by {
        assert forall i :: 0 <= i < |q| ==> q[i] == p[i];
      }
      FoundationRanks(q);
      assert forall i :: 0 <= i < |q| ==> p[i] == q[i];
      if |p| > 1 {
        assert p[|p| - 1].rank == p[|p| - 2].rank + 1;
      }
    }
  }

  /** The placement rule is exactly the rule that keeps a pile a foundation
      pile: on a foundation pile, a card of a known value may be placed iff
      the pile with the card on top is again a foundation pile. */
  lemma FoundationPlacement(c: Card, pile: seq<Card>)
    requires FoundationPile(pile)
    ensures CanPlaceOnFinal(Some(c), pile) <==> FoundationPile(pile + [c]) && ValidRank(c.rank)
  {
    var q := pile + [c];
    assert forall i :: 0 <= i < |pile| ==> q[i] == pile[i];
    if pile != [] {
      FoundationRanks(pile);
      if FoundationPile(q) && ValidRank(c.rank) {
        assert q[|pile|] == c && q[|pile| - 1] == Last(pile);
      }
    }
  }

  /** A complete foundation pile (13 cards) has the King on top; this is
      what the win check looks at. */
  lemma CompletePileEndsWithKing(p: seq<Card>)
    requires FoundationPile(p) && |p| == RANK_COUNT
    ensures Last(p).rank == KING
  {
    FoundationRanks(p);
  }

  /** The test for a card dropped onto a face-up tableau card: the card
      underneath is face up, the colours differ, and the card underneath is
      exactly one rank higher. */
  predicate StacksOn(moved: Card, under: Card) {
    !under.hidden && ValidRank(moved.rank) && ValidRank(under.rank) &&
    IsRed(moved) != IsRed(under) && under.rank - moved.rank == 1
  }

  /** A run whose bottom card lands at row `start` of column `col` is
      accepted iff it is a King at the bottom of the column, or it stacks on
      the card underneath. */
  function AcceptsAt(col: seq<Card>, start: int): (ok: bool)
    requires 0 <= start < |col|
    ensures ok <==>
      (start == 0 && col[0].rank == KING) ||
      (start > 0 && !col[start - 1].hidden && IsRed(col[start]) != IsRed(col[start - 1]) &&
       col[start - 1].rank == col[start].rank + 1 && ACE <= col[start].rank < KING)
  {
    if start == 0 then col[start].rank == KING
    else StacksOn(col[start], col[start - 1])
  }
}
