/** What the refill and the draw-three step guarantee about the window,
    the stock and the waste. */
module DrawThreeFacts {
  import opened Cards
  import opened Supply
  import opened DrawThree

  /** The cards in a window laid out as drawn cards, empty slots, then
      kept cards. */
  lemma SomesLayout(x: seq<Card>, k: nat, y: seq<Card>)
    ensures Somes(Filled(x) + Empty(k) + Filled(y)) == x + y
  {
    var a, b, c := Filled(x), Empty(k), Filled(y);
    assert Somes(a + b) == x by {
      SomesAppend(a, b);
      SomesFilled(x);
      SomesEmpty(k);
    }
    SomesFilled(y);
    SomesAppend(a + b, c);
  }

  /** How a refill lays out the window (the definition, spelled out for
      the lemmas below). */
  lemma RefillShape(w: seq<Option<Card>>, stock: seq<Card>, waste: seq<Card>, used: Option<Card>)
    requires |w| == 3
    ensures var packed := Kept(w, used);
      var d := Take(stock, waste, 3 - |packed|);
      var r := Refill(w, stock, waste, used);
      && r.slots == Filled(d.cards) + Empty(3 - |packed| - |d.cards|) + Filled(packed)
      && r.stock == d.stock && r.waste == d.waste && r.active == Rightmost(r.slots)
  {
  }

  /** A refill assembled from its steps: the kept cards, then the layout
      after drawing into the free slots, then the active card. */
  lemma RefillFromSteps(w: seq<Option<Card>>, stock: seq<Card>, waste: seq<Card>, used: Option<Card>,
                        cards: seq<Card>, d: Drawn, slots: seq<Option<Card>>)
    requires |w| == 3 && cards == Kept(w, used) && |cards| <= 3
    requires d == Take(stock, waste, 3 - |cards|)
    requires slots == Filled(d.cards) + Empty(3 - |cards| - |d.cards|) + Filled(cards)
    ensures Refill(w, stock, waste, used) == Window(slots, d.stock, d.waste, Rightmost(slots))
  {
    RefillShape(w, stock, waste, used);
  }

  /** The occupied slots after a refill: the newly drawn cards, then the
      kept ones. */
  lemma RefillOccupied(w: seq<Option<Card>>, stock: seq<Card>, waste: seq<Card>, used: Option<Card>)
    requires |w| == 3
    ensures Somes(Refill(w, stock, waste, used).slots) ==
      Take(stock, waste, 3 - |Kept(w, used)|).cards + Kept(w, used)
  {
    var packed := Kept(w, used);
    var d := Take(stock, waste, 3 - |packed|);
    RefillShape(w, stock, waste, used);
    SomesLayout(d.cards, 3 - |packed| - |d.cards|, packed);
  }

  /** The cards a refill keeps are the window's cards less the used one. */
  lemma KeptRemovesUsed(w: seq<Option<Card>>, used: Option<Card>)
    ensures multiset(Kept(w, used)) + multiset(OptionToSeq(UsedSlot(w, used))) == multiset(Somes(w))
  {
    if used.Some? {
      ClearFirstRemoves(w, used.value.id);
    }
  }

  /** Multiset bookkeeping shared by the conservation lemmas. */
  lemma MovedCards(drawn: seq<Card>, kept: seq<Card>, stock': seq<Card>, waste': seq<Card>,
                   removed: seq<Card>, window: seq<Card>, stock: seq<Card>, waste: seq<Card>)
    requires multiset(kept) + multiset(removed) == multiset(window)
    requires multiset(drawn) + multiset(stock') + multiset(waste') == multiset(stock) + multiset(waste)
    ensures multiset(drawn + kept) + multiset(stock') + multiset(waste') + multiset(removed) ==
      multiset(window) + multiset(stock) + multiset(waste)
  {
    var lhs := multiset(drawn + kept) + multiset(stock') + multiset(waste') + multiset(removed);
    var rhs := multiset(window) + multiset(stock) + multiset(waste);
    forall x | true
      ensures lhs[x] == rhs[x]
    {
      assert (multiset(kept) + multiset(removed))[x] == multiset(window)[x];
      assert (multiset(drawn) + multiset(stock') + multiset(waste'))[x] == (multiset(stock) + multiset(waste))[x];
    }
  }

  /** A refill takes the used card out of the window and neither loses nor
      creates any other card. */
  lemma RefillConserves(w: seq<Option<Card>>, stock: seq<Card>, waste: seq<Card>, used: Option<Card>)
    requires |w| == 3
    ensures WindowCards(Refill(w, stock, waste, used)) + multiset(OptionToSeq(UsedSlot(w, used))) ==
      multiset(Somes(w)) + multiset(stock) + multiset(waste)
  {
    var packed := Kept(w, used);
    var d := Take(stock, waste, 3 - |packed|);
    RefillShape(w, stock, waste, used);
    RefillOccupied(w, stock, waste, used);
    KeptRemovesUsed(w, used);
    TakeConserves(stock, waste, 3 - |packed|);
    MovedCards(d.cards, packed, d.stock, d.waste, OptionToSeq(UsedSlot(w, used)), Somes(w), stock, waste);
  }

  lemma SuffixOfLayout(x: seq<Option<Card>>, y: seq<Option<Card>>, z: seq<Option<Card>>)
    ensures (x + y + z)[|x| + |y|..] == z
  {
  }

  /** The layout after a refill: the kept cards occupy the rightmost slots
      in their order, the cards drawn are the next ones of the stock
      followed by the waste, and the active card is the rightmost occupied
      slot. */
  lemma RefillLayout(w: seq<Option<Card>>, stock: seq<Card>, waste: seq<Card>, used: Option<Card>)
    requires |w| == 3
    ensures var r := Refill(w, stock, waste, used);
      && r.slots[3 - |Kept(w, used)|..] == Filled(Kept(w, used))
      && Take(stock, waste, 3 - |Kept(w, used)|).cards == (stock + waste)[..Min(3 - |Kept(w, used)|, |stock| + |waste|)]
      && r.active == Rightmost(r.slots)
  {
    var packed := Kept(w, used);
    var d := Take(stock, waste, 3 - |packed|);
    TakePrefix(stock, waste, 3 - |packed|);
    var slots := Filled(d.cards) + Empty(3 - |packed| - |d.cards|) + Filled(packed);
    RefillFromSteps(w, stock, waste, used, packed, d, slots);
    SuffixOfLayout(Filled(d.cards), Empty(3 - |packed| - |d.cards|), Filled(packed));
  }

  /** The window has no gap unless the stock and waste ran out: when they
      hold at least as many cards as there are free slots, all three slots
      are occupied after a refill. */
  lemma RefillFillsWhenSupplied(w: seq<Option<Card>>, stock: seq<Card>, waste: seq<Card>, used: Option<Card>)
    requires |w| == 3
    requires |stock| + |waste| >= 3 - |Kept(w, used)|
    ensures forall i :: 0 <= i < 3 ==> Refill(w, stock, waste, used).slots[i].Some?
  {
    RefillOccupied(w, stock, waste, used);
    TakeSpec(stock, waste, 3 - |Kept(w, used)|);
    SomesFull(Refill(w, stock, waste, used).slots);
  }

  /** The gap the refill can leave: with the window [_, b, c], c just
      used, one card d in the stock and an empty waste, the window becomes
      [d, _, b]. */
  lemma RefillCanLeaveGap(b: Card, c: Card, d: Card)
    requires b.id != c.id
    ensures Refill([None, Some(b), Some(c)], [d], [], Some(c)).slots == [Some(d), None, Some(b)]
    ensures Refill([None, Some(b), Some(c)], [d], [], Some(c)).active == Some(b)
  {
    var w := [None, Some(b), Some(c)];
    var cleared := [None, Some(b), None];
    assert ClearFirst(w, c.id) == cleared by {
      assert w[1..] == [Some(b), Some(c)] && w[1..][1..] == [Some(c)];
      assert ClearFirst([Some(c)], c.id) == [None] by {
        assert [Some(c)][1..] == [];
      }
    }
    assert Kept(w, Some(c)) == [b] by {
      var tail: seq<Option<Card>> := [Some(b), None];
      var none: seq<Option<Card>> := [None];
      assert Somes(none) == [] by {
        assert none[1..] == [];
      }
      assert Somes(tail) == [b] by {
        assert tail[1..] == none;
      }
      assert cleared[1..] == tail;
    }
    assert Take([d], [], 2).cards == [d] by {
      assert [d][1..] == [];
    }
    var slots := [Some(d), None, Some(b)];
    assert Refill(w, [d], [], Some(c)).slots == slots by {
      assert Filled([d]) == [Some(d)] && Filled([b]) == [Some(b)] by {
        assert [d][1..] == [] && [b][1..] == [];
      }
      assert Empty(1) == [None];
    }
    assert Rightmost(slots) == Some(b);
  }

  /** The slots of a window whose first cards are filled and the rest
      empty hold exactly those cards. */
  lemma SomesFilledEmpty(x: seq<Card>, k: nat)
    ensures Somes(Filled(x) + Empty(k)) == x
  {
    SomesAppend(Filled(x), Empty(k));
    SomesFilled(x);
    SomesEmpty(k);
  }

  /** A window of cards followed by empty slots, refilled when there is
      nothing left to draw, has its cards packed to the right. */
  lemma RefillOfPacked(cards: seq<Card>, gap: nat, stock: seq<Card>, waste: seq<Card>)
    requires |cards| + gap == 3
    requires gap > 0 ==> stock == [] && waste == []
    ensures var slots := Empty(gap) + Filled(cards);
      Refill(Filled(cards) + Empty(gap), stock, waste, None) == Window(slots, stock, waste, Rightmost(slots))
  {
    var w := Filled(cards) + Empty(gap);
    SomesFilledEmpty(cards, gap);
    assert Kept(w, None) == cards;
    var d := Take(stock, waste, gap);
    assert d == Drawn([], stock, waste);
    assert Filled([]) + Empty(gap) + Filled(cards) == Empty(gap) + Filled(cards);
    RefillFromSteps(w, stock, waste, None, cards, d, Empty(gap) + Filled(cards));
  }

  /** After the draw loop of a draw-three step, the refill finds nothing
      more to draw: drawing stopped early only because stock and waste were
      both exhausted. So the drawn cards end up packed to the right. */
  lemma Draw3Packs(w: seq<Option<Card>>, stock: seq<Card>, waste: seq<Card>)
    requires |w| == 3
    ensures var d := Take(stock, waste + Retire(w), 3);
      var slots := Empty(3 - |d.cards|) + Filled(d.cards);
      Draw3(w, stock, waste) == Window(slots, d.stock, d.waste, Rightmost(slots))
  {
    var d := Take(stock, waste + Retire(w), 3);
    Draw3Steps(w, stock, waste, d);
    TakeSpec(stock, waste + Retire(w), 3);
    RefillOfPacked(d.cards, 3 - |d.cards|, d.stock, d.waste);
  }

  /** A draw-three step is a refill of the cards drawn. */
  lemma Draw3Steps(w: seq<Option<Card>>, stock: seq<Card>, waste: seq<Card>, d: Drawn)
    requires |w| == 3 && d == Take(stock, waste + Retire(w), 3)
    ensures Draw3(w, stock, waste) == Refill(Filled(d.cards) + Empty(3 - |d.cards|), d.stock, d.waste, None)
  {
  }

  /** In a window of empty slots followed by filled ones, the active card
      is the last card filled, and there is none when nothing is filled. */
  lemma RightmostOfPacked(j: nat, x: seq<Card>)
    ensures Rightmost(Empty(j) + Filled(x)) == if x == [] then None else Some(Last(x))
  {
    var slots := Empty(j) + Filled(x);
    if x == [] {
      assert slots == Empty(j);
      forall i | 0 <= i < |slots|
        ensures slots[i].None?
      {
        EmptyAt(j, i);
      }
      RightmostIsLastOccupied(slots);
    } else {
      FilledAt(x, |x| - 1);
      assert Last(slots) == Filled(x)[|x| - 1];
    }
  }

  lemma SomesOfPacked(j: nat, x: seq<Card>)
    ensures Somes(Empty(j) + Filled(x)) == x
  {
    SomesAppend(Empty(j), Filled(x));
    SomesEmpty(j);
    SomesFilled(x);
  }

  lemma RetiredCards(w: seq<Option<Card>>)
    ensures multiset(Retire(w)) == multiset(Somes(w))
  {
    RetireReverses(w);
    ReversePermutes(Somes(w));
  }

  /** Multiset bookkeeping for the draw-three step. */
  lemma RetiredAndDrawn(drawn: seq<Card>, stock': seq<Card>, waste': seq<Card>,
                        stock: seq<Card>, waste: seq<Card>, retired: seq<Card>, window: seq<Card>)
    requires multiset(retired) == multiset(window)
    requires multiset(drawn) + multiset(stock') + multiset(waste') == multiset(stock) + multiset(waste + retired)
    ensures multiset(drawn) + multiset(stock') + multiset(waste') == multiset(window) + multiset(stock) + multiset(waste)
  {
    assert multiset(waste + retired) == multiset(waste) + multiset(window);
  }

  /** A draw-three step neither loses nor creates a card. */
  lemma Draw3Conserves(w: seq<Option<Card>>, stock: seq<Card>, waste: seq<Card>)
    requires |w| == 3
    ensures WindowCards(Draw3(w, stock, waste)) == multiset(Somes(w)) + multiset(stock) + multiset(waste)
  {
    var rest := waste + Retire(w);
    var d := Take(stock, rest, 3);
    Draw3Packs(w, stock, waste);
    SomesOfPacked(3 - |d.cards|, d.cards);
    TakeConserves(stock, rest, 3);
    RetiredCards(w);
    RetiredAndDrawn(d.cards, d.stock, d.waste, stock, waste, Retire(w), Somes(w));
  }

  /** A draw-three step shows the next (up to) three cards of the stock
      followed by the waste and the retired window, packed to the right
      with no gap. */
  lemma Draw3Layout(w: seq<Option<Card>>, stock: seq<Card>, waste: seq<Card>)
    requires |w| == 3
    ensures var all := stock + (waste + Retire(w));
      var k := Min(3, |all|);
      Draw3(w, stock, waste).slots == Empty(3 - k) + Filled(all[..k])
  {
    Draw3Packs(w, stock, waste);
    TakePrefix(stock, waste + Retire(w), 3);
  }

  /** The active card after a draw-three step is the last card shown, and
      there is none only when no card was left to show. */
  lemma Draw3Active(w: seq<Option<Card>>, stock: seq<Card>, waste: seq<Card>)
    requires |w| == 3
    ensures var all := stock + (waste + Retire(w));
      var k := Min(3, |all|);
      && (k > 0 ==> Draw3(w, stock, waste).active == Some(all[k - 1]))
      && (k == 0 ==> Draw3(w, stock, waste).active.None?)
  {
    var rest := waste + Retire(w);
    var d := Take(stock, rest, 3);
    Draw3Packs(w, stock, waste);
    RightmostOfPacked(3 - |d.cards|, d.cards);
    assert Draw3(w, stock, waste).active == if d.cards == [] then None else Some(Last(d.cards));
    TakePrefix(stock, rest, 3);
  }

}
