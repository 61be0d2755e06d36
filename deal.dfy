/** Dealing a new game: the shuffled deck is laid out column by column,
    column i taking i + 1 cards of which only the last is face up, and the
    rest of the deck becomes the stock in deck order. The shuffle itself is
    not modelled: the deck is an input. Every dealt card is a new card
    object; here card k of the deck gets id k. */
module Deal {
  import opened Cards
  import opened Leaderboard
  import opened Table

  /** The index in the deck of the first card of column i. */
  function ColumnStart(i: nat): nat
    requires i <= COLUMNS
  {
    [0, 1, 3, 6, 10, 15, 21, 28][i]
  }

  /** Column i - 1 ends where column i starts. */
  lemma ColumnStartStep(i: nat)
    requires 0 < i <= COLUMNS
    ensures ColumnStart(i) == ColumnStart(i - 1) + i
  {
  }

  lemma ColumnStartBound(i: nat)
    requires i <= COLUMNS
    ensures ColumnStart(i) <= ColumnStart(COLUMNS)
  {
  }

  /** The number of cards dealt into a full tableau. */
  const TABLEAU_CARDS: nat := 28

  function DealtCard(deck: seq<Face>, k: nat, hidden: bool): Card
    requires k < |deck|
  {
    Card(k, deck[k].rank, deck[k].suit, hidden)
  }

  /** How many cards column i receives: i + 1, or what is left of the deck. */
  function ColumnSize(deck: seq<Face>, i: nat): nat
    requires i < COLUMNS
  {
    if ColumnStart(i) >= |deck| then 0 else Min(i + 1, |deck| - ColumnStart(i))
  }

  /** Column i: the next cards of the deck, all face down but the last of a
      full column. */
  function DealtColumn(deck: seq<Face>, i: nat): (col: seq<Card>)
    requires i < COLUMNS
    ensures |col| == ColumnSize(deck, i)
  {
    seq(ColumnSize(deck, i), j requires 0 <= j < ColumnSize(deck, i) =>
      DealtCard(deck, ColumnStart(i) + j, j != i))
  }

  /** The stock: every card past the tableau, face up, in deck order. */
  function DealtStock(deck: seq<Face>): (stock: seq<Card>)
    ensures |stock| == |deck| - Min(TABLEAU_CARDS, |deck|)
  {
    var first := Min(TABLEAU_CARDS, |deck|);
    seq(|deck| - first, k requires 0 <= k < |deck| - first => DealtCard(deck, first + k, false))
  }

  function DealtTableau(deck: seq<Face>): (t: seq<seq<Card>>)
    ensures |t| == COLUMNS
  {
    seq(COLUMNS, i requires 0 <= i < COLUMNS => DealtColumn(deck, i))
  }

  /** _initialize_game_state after the shuffle: the dealt zones, empty
      foundations, wastes and window, no active card, no draw made yet, the
      cursor at its starting place and a fresh history and counter. */
  function NewGame(deck: seq<Face>, difficulty: Difficulty): (s: GameState)
    ensures WellFormed(s)
  {
    var tableau := DealtTableau(deck);
    GameState(
      Zones(tableau, [[], [], [], []], DealtStock(deck), [], [], [None, None, None], None),
      DefaultCursor(tableau), false, None, None, 0, false, difficulty, false, [], Quiet)
  }

  /** The face a card shows when turned up. */
  function FaceOf(c: Card): Face {
    Face(c.rank, c.suit)
  }

  /** With a full deck, column i receives exactly i + 1 cards, of which only
      the last is face up, and the remaining 24 cards form the stock, face
      up, in deck order. Nothing else holds a card. */
  lemma DealLayout(deck: seq<Face>, difficulty: Difficulty)
    requires |deck| == 52
    ensures var s := NewGame(deck, difficulty);
      && (forall i :: 0 <= i < COLUMNS ==> |s.zones.tableau[i]| == i + 1)
      && (forall i, j :: 0 <= i < COLUMNS && 0 <= j < |s.zones.tableau[i]| ==>
            (s.zones.tableau[i][j].hidden <==> j != i))
      && |s.zones.stock| == 24
      && (forall k :: 0 <= k < 24 ==> FaceOf(s.zones.stock[k]) == deck[TABLEAU_CARDS + k] && !s.zones.stock[k].hidden)
      && s.zones.active.None? && s.zones.window == [None, None, None] && !s.firstRevealDone
      && s.zones.waste1 == [] && s.zones.waste3 == [] && forall f :: 0 <= f < FOUNDATIONS ==> s.zones.finals[f] == []
  {
    var t: seq<seq<Card>> := DealtTableau(deck);
    forall i: int | 0 <= i < COLUMNS
      ensures |t[i]| == i + 1 && forall j: int :: 0 <= j < |t[i]| ==> (t[i][j].hidden <==> j != i)
    {
      ColumnStartStep(i + 1);
      ColumnStartBound(i + 1);
      assert t[i] == DealtColumn(deck, i);
      forall j: int | 0 <= j < |t[i]|
        ensures t[i][j].hidden <==> j != i
      {
        assert t[i][j] == DealtCard(deck, ColumnStart(i) + j, j != i);
      }
    }
    var stock := DealtStock(deck);
    assert Min(TABLEAU_CARDS, |deck|) == TABLEAU_CARDS;
    forall k | 0 <= k < 24
      ensures FaceOf(stock[k]) == deck[TABLEAU_CARDS + k] && !stock[k].hidden
    {
      assert stock[k] == DealtCard(deck, TABLEAU_CARDS + k, false);
    }
  }

  /** Card j of column i is card ColumnStart(i) + j of the deck. */
  lemma DealtColumnAt(deck: seq<Face>, i: nat, j: nat)
    requires i < COLUMNS && j < ColumnSize(deck, i)
    ensures var c := DealtColumn(deck, i)[j];
      c.id == ColumnStart(i) + j && FaceOf(c) == deck[ColumnStart(i) + j]
  {
    assert DealtColumn(deck, i)[j] == DealtCard(deck, ColumnStart(i) + j, j != i);
  }

  /** The first i columns hold the first cards of the deck, in deck order. */
  lemma {:induction false} DealtPrefix(deck: seq<Face>, i: nat)
    requires i <= COLUMNS
    ensures var cs := Flatten(DealtTableau(deck)[..i]);
      |cs| == Min(ColumnStart(i), |deck|) &&
      forall k :: 0 <= k < |cs| ==> cs[k].id == k && FaceOf(cs[k]) == deck[k]
  {
    if i > 0 {
      var t := DealtTableau(deck);
      DealtPrefix(deck, i - 1);
      ColumnStartStep(i);
      assert t[..i] == t[..i - 1] + [t[i - 1]];
      FlattenAppend(t[..i - 1], t[i - 1]);
      var prev, col := Flatten(t[..i - 1]), t[i - 1];
      assert col == DealtColumn(deck, i - 1);
      var cs := prev + col;
      if col != [] {
        assert |prev| == ColumnStart(i - 1);
        forall k | |prev| <= k < |cs|
          ensures cs[k].id == k && FaceOf(cs[k]) == deck[k]
        {
          assert cs[k] == col[k - |prev|];
          DealtColumnAt(deck, i - 1, k - |prev|);
        }
      }
    }
  }

  /** Reading the columns one after the other and then the stock gives back
      the whole deck, card k having id k: every card is dealt exactly once,
      in deck order. */
  lemma DealUsesDeckInOrder(deck: seq<Face>, difficulty: Difficulty)
    ensures var s := NewGame(deck, difficulty);
      var cs := Flatten(s.zones.tableau) + s.zones.stock;
      |cs| == |deck| && forall k :: 0 <= k < |cs| ==> cs[k].id == k && FaceOf(cs[k]) == deck[k]
  {
    var t := DealtTableau(deck);
    DealtPrefix(deck, COLUMNS);
    assert t[..COLUMNS] == t;
    assert ColumnStart(COLUMNS) == TABLEAU_CARDS;
    var prev, stock := Flatten(t), DealtStock(deck);
    var cs := prev + stock;
    forall k | |prev| <= k < |cs|
      ensures cs[k].id == k && FaceOf(cs[k]) == deck[k]
    {
      assert |prev| == Min(TABLEAU_CARDS, |deck|);
      assert cs[k] == stock[k - |prev|] == DealtCard(deck, k, false);
    }
  }
}
