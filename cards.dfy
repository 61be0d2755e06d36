/** Playing cards of the patience game.

    A rank is the index of the card's value in the game's value list
    ["A", "2", ..., "10", "J", "Q", "K"], so the Ace is 0 and the King 12;
    a value outside that list would have index -1, which is why ranks are
    plain integers checked by ValidRank. A card's `id` stands for the
    identity of the card object: two cards are the same card exactly when
    their ids agree, whatever their face-down flag says. */
module Cards {

  datatype Option<T> = None | Some(value: T)

  datatype Suit = Spades | Hearts | Diamonds | Clubs

  const ACE: int := 0
  const KING: int := 12
  const RANK_COUNT: int := 13

  /** The face of a card as the shuffled deck lists it: a value and a suit. */
  datatype Face = Face(rank: int, suit: Suit)

  datatype Card = Card(id: nat, rank: int, suit: Suit, hidden: bool)

  predicate ValidRank(r: int) {
    0 <= r < RANK_COUNT
  }

  /** Card.is_red: hearts and diamonds are red. */
  function IsRed(c: Card): (red: bool)
    ensures red <==> !(c.suit == Spades || c.suit == Clubs)
  {
    c.suit == Hearts || c.suit == Diamonds
  }

  /** Object identity of cards (`a is b`). */
  predicate SameCard(a: Card, b: Card) {
    a.id == b.id
  }

  /** True when the optional card is present and is the card `c`. */
  predicate HoldsCard(o: Option<Card>, c: Card) {
    o.Some? && SameCard(o.value, c)
  }

  /** No card occurs twice in the list. */
  predicate DistinctIds(cs: seq<Card>) {
    forall i, j :: 0 <= i < j < |cs| ==> cs[i].id != cs[j].id
  }

  function Last<T>(s: seq<T>): T
    requires |s| > 0
  {
    s[|s| - 1]
  }

  function DropLast<T>(s: seq<T>): seq<T>
    requires |s| > 0
  {
    s[..|s| - 1]
  }

  function Min(a: int, b: int): int {
    if a <= b then a else b
  }

  function OptionToSeq<T>(o: Option<T>): seq<T> {
    if o.Some? then [o.value] else []
  }
}
