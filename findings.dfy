/** Undo and card identity on the hard level. The refill of the draw
    window finds the card just used by object identity. An undo rebuilds
    every card as a new object, so the restored active card is no longer
    the object in its window slot. When that card is then played, the
    refill cannot find it and leaves it in the window: the card is in play
    twice. The game model keeps identities through an undo (Restore); the
    functions here model the rebuild as written. */
module Findings {
  import opened Cards
  import opened Supply
  import opened DrawThree
  import opened DrawThreeFacts
  import opened Table

  /** _restore_state_from_undo as written: as Restore, except that the
      rebuilt active card is a new object, told apart here by the id
      `newId`, so it no longer matches its copy in the window. */
  function RestoreAsWritten(s: GameState, snap: Snapshot, newId: nat): (r: GameState)
    requires WellFormed(s) && ZonesShape(snap.zones)
    ensures WellFormed(r)
    ensures r.zones.window == snap.zones.window
    ensures snap.zones.active.None? ==> r.zones.active.None?
    ensures snap.zones.active.Some? ==>
      r.zones.active == Some(snap.zones.active.value.(id := newId))
  {
    var r := Restore(s, snap);
    match snap.zones.active
    case Some(c) => r.(zones := r.zones.(active := Some(c.(id := newId))))
    case None => r
  }

  /** The active card of a draw-three window lies in one of its slots. */
  predicate ActiveInWindow(z: Zones) {
    z.active.Some? ==> FirstWithId(z.window, z.active.value.id) == z.active
  }

  /** As written: after an undo, playing the active card and refilling the
      window removes no card from the window, so the played card is still
      there. */
  lemma AsWrittenRefillKeepsPlayedCard(s: GameState, snap: Snapshot, newId: nat)
    requires WellFormed(s) && ZonesShape(snap.zones) && snap.zones.active.Some?
    requires ActiveInWindow(snap.zones)
    requires FirstWithId(snap.zones.window, newId).None?
    ensures var z := RestoreAsWritten(s, snap, newId).zones;
      var c := snap.zones.active.value;
      && WindowCards(Refill(z.window, z.stock, z.waste3, z.active)) ==
           multiset(Somes(z.window)) + multiset(z.stock) + multiset(z.waste3)
      && c in multiset(Somes(Refill(z.window, z.stock, z.waste3, z.active).slots))
  {
    var z := RestoreAsWritten(s, snap, newId).zones;
    var c := snap.zones.active.value;
    RefillConserves(z.window, z.stock, z.waste3, z.active);
    assert UsedSlot(z.window, z.active).None?;
    var w := z.window;
    assert Kept(w, z.active) == Somes(w) by {
      ClearFirstRemoves(w, newId);
    }
    FoundIsPresent(w, c.id);
    RefillKeepsPacked(w, z.stock, z.waste3, z.active);
  }

  /** A card found by id is one of the window's cards. */
  lemma {:induction false} FoundIsPresent(w: seq<Option<Card>>, id: nat)
    requires FirstWithId(w, id).Some?
    ensures FirstWithId(w, id).value in multiset(Somes(w))
  {
    if w != [] {
      assert Somes(w) == OptionToSeq(w[0]) + Somes(w[1..]);
      if !(w[0].Some? && w[0].value.id == id) {
        FoundIsPresent(w[1..], id);
      }
    }
  }

  /** The cards a refill keeps stay in the window. */
  lemma RefillKeepsPacked(w: seq<Option<Card>>, stock: seq<Card>, waste: seq<Card>, used: Option<Card>)
    requires |w| == 3
    ensures multiset(Kept(w, used)) <= multiset(Somes(Refill(w, stock, waste, used).slots))
  {
    var packed := Kept(w, used);
    var d := Take(stock, waste, 3 - |packed|);
    RefillShape(w, stock, waste, used);
    RefillOccupied(w, stock, waste, used);
  }

  /** The smallest case: the window holds one card, stock and waste are
      empty, and that card, rebuilt as a new object by an undo, has just
      been played. The refill leaves the card in the window and makes it
      the active card again. */
  lemma AsWrittenPlayedCardStaysActive(c: Card)
    ensures var w := [None, None, Some(c)];
      Refill(w, [], [], Some(c.(id := c.id + 1))).active == Some(c)
  {
    var w := [None, None, Some(c)];
    var id := c.id + 1;
    assert w[1..] == [None, Some(c)] && w[1..][1..] == [Some(c)] && w[1..][1..][1..] == [];
    assert FirstWithId([Some(c)], id) == FirstWithId([], id) == None;
    assert FirstWithId([None, Some(c)], id) == None;
    assert FirstWithId(w, id) == None;
    ClearFirstRemoves(w, id);
    assert Somes([Some(c)]) == [c] + Somes([]);
    assert Somes([None, Some(c)]) == [c];
    assert Somes(w) == [c];
    var slots := Filled([]) + Empty(2) + Filled([c]);
    assert Empty(2) == [None, None] && Filled([c]) == [Some(c)];
    assert Refill(w, [], [], Some(c.(id := id))).slots == slots;
    assert Last(slots) == Some(c);
  }

  /** Corrected: the same play with identities kept leaves the window
      empty and no active card. */
  lemma PlayedCardLeavesWindow(c: Card)
    ensures var w := [None, None, Some(c)];
      var r := Refill(w, [], [], Some(c));
      r.active.None? && Somes(r.slots) == []
  {
    var w := [None, None, Some(c)];
    var cleared := [None, None, None];
    assert w[1..] == [None, Some(c)] && w[1..][1..] == [Some(c)];
    assert ClearFirst(w[1..][1..], c.id) == [None];
    assert ClearFirst(w, c.id) == cleared;
    assert cleared[1..] == [None, None] && cleared[1..][1..] == [None] && cleared[1..][1..][1..] == [];
    assert Somes([None]) == [];
    assert Somes([None, None]) == [];
    assert Somes(cleared) == [];
    assert Kept(w, Some(c)) == [];
    var slots := Filled([]) + Empty(3) + Filled([]);
    assert Empty(3) == [None, None, None];
    assert slots == cleared;
    assert Refill(w, [], [], Some(c)).slots == slots;
    RightmostIsLastOccupied(slots);
  }

  /** Corrected: an undo keeps the active card in its window slot, so the
      refill after it is played takes exactly that card out of the window
      and loses or duplicates no other card. */
  lemma RestoreKeepsActiveInWindow(s: GameState, snap: Snapshot)
    requires WellFormed(s) && ZonesShape(snap.zones) && snap.zones.active.Some?
    requires ActiveInWindow(snap.zones)
    ensures var z := Restore(s, snap).zones;
      && ActiveInWindow(z)
      && WindowCards(Refill(z.window, z.stock, z.waste3, z.active)) + multiset{z.active.value} ==
           multiset(Somes(z.window)) + multiset(z.stock) + multiset(z.waste3)
  {
    var z := Restore(s, snap).zones;
    RefillConserves(z.window, z.stock, z.waste3, z.active);
    assert OptionToSeq(UsedSlot(z.window, z.active)) == [z.active.value];
  }
}
