/** The three-slot draw window of the hard (draw-three) level.

    A window is a sequence of three optional cards; the active card is the
    rightmost occupied slot. Cards enter the window from the front of the
    stock, continuing into the waste (copied in its own order) when the
    stock runs out. */
module DrawThree {
  import opened Cards
  import opened Supply

  /** The occupied slots of a window, left to right. */
  function Somes(w: seq<Option<Card>>): (cs: seq<Card>)
    ensures |cs| <= |w|
  {
    if w == [] then [] else OptionToSeq(w[0]) + Somes(w[1..])
  }

  lemma {:induction false} SomesAppend(a: seq<Option<Card>>, b: seq<Option<Card>>)
    ensures Somes(a + b) == Somes(a) + Somes(b)
  {
    if a != [] {
      assert (a + b)[0] == a[0];
      assert (a + b)[1..] == a[1..] + b;
      SomesAppend(a[1..], b);
      assert Somes(a + b) == OptionToSeq(a[0]) + Somes(a[1..] + b);
    } else {
      assert a + b == b;
    }
  }

  /** A window whose every slot is counted by Somes has no empty slot. */
  lemma {:induction false} SomesFull(w: seq<Option<Card>>)
    requires |Somes(w)| == |w|
    ensures forall i :: 0 <= i < |w| ==> w[i].Some?
  {
    if w != [] {
      assert |Somes(w[1..])| <= |w| - 1;
      SomesFull(w[1..]);
      assert forall i :: 1 <= i < |w| ==> w[i] == w[1..][i - 1];
    }
  }

  /** Slots holding the given cards, in order. */
  function Filled(cs: seq<Card>): (w: seq<Option<Card>>)
    ensures |w| == |cs|
  {
    if cs == [] then [] else [Some(cs[0])] + Filled(cs[1..])
  }

  function Empty(k: nat): (w: seq<Option<Card>>)
    ensures |w| == k
  {
    if k == 0 then [] else [None] + Empty(k - 1)
  }

  lemma {:induction false} FilledAt(cs: seq<Card>, i: nat)
    requires i < |cs|
    ensures Filled(cs)[i] == Some(cs[i])
  {
    if i > 0 {
      FilledAt(cs[1..], i - 1);
    }
  }

  lemma {:induction false} EmptyAt(k: nat, i: nat)
    requires i < k
    ensures Empty(k)[i].None?
  {
    if i > 0 {
      EmptyAt(k - 1, i - 1);
    }
  }

  lemma {:induction false} SomesFilled(cs: seq<Card>)
    ensures Somes(Filled(cs)) == cs
  {
    if cs != [] {
      assert Filled(cs)[1..] == Filled(cs[1..]);
      SomesFilled(cs[1..]);
      assert cs == [cs[0]] + cs[1..];
    }
  }

  lemma {:induction false} SomesEmpty(k: nat)
    ensures Somes(Empty(k)) == []
  {
    if k > 0 {
      assert Empty(k)[1..] == Empty(k - 1);
      SomesEmpty(k - 1);
    }
  }

  /** The active card of a window: its rightmost occupied slot. */
  function Rightmost(w: seq<Option<Card>>): (a: Option<Card>) {
    if w == [] then None
    else if Last(w).Some? then Last(w)
    else Rightmost(DropLast(w))
  }

  /** Rightmost finds the occupied slot that has only empty slots to its
      right, and finds nothing only in an empty window. */
  lemma {:induction false} RightmostIsLastOccupied(w: seq<Option<Card>>)
    ensures Rightmost(w).None? <==> forall i :: 0 <= i < |w| ==> w[i].None?
    ensures Rightmost(w).Some? ==>
      exists i :: 0 <= i < |w| && w[i] == Rightmost(w) && forall j :: i < j < |w| ==> w[j].None?
  {
    if w != [] {
      var q := DropLast(w);
      if Last(w).Some? {
        assert Rightmost(w) == w[|w| - 1];
      } else {
        assert Rightmost(w) == Rightmost(q);
        RightmostIsLastOccupied(q);
        assert forall i :: 0 <= i < |q| ==> q[i] == w[i];
        if Rightmost(q).Some? {
          var i :| 0 <= i < |q| && q[i] == Rightmost(q) && forall j :: i < j < |q| ==> q[j].None?;
          assert w[i] == Rightmost(w) && forall j :: i < j < |w| ==> w[j].None?;
        }
      }
    }
  }

  /** The first slot holding the card with this id, if any. */
  function FirstWithId(w: seq<Option<Card>>, id: nat): Option<Card> {
    if w == [] then None
    else if w[0].Some? && w[0].value.id == id then w[0]
    else FirstWithId(w[1..], id)
  }

  /** Empties the first slot that holds the card with this id. */
  function ClearFirst(w: seq<Option<Card>>, id: nat): (r: seq<Option<Card>>)
    ensures |r| == |w|
  {
    if w == [] then []
    else if w[0].Some? && w[0].value.id == id then [None] + w[1..]
    else [w[0]] + ClearFirst(w[1..], id)
  }

  /** Clearing removes exactly the card found, and nothing else. */
  lemma {:induction false} ClearFirstTakesFound(w: seq<Option<Card>>, id: nat)
    ensures multiset(Somes(ClearFirst(w, id))) + multiset(OptionToSeq(FirstWithId(w, id))) == multiset(Somes(w))
  {
    if w != [] {
      var rest := w[1..];
      var head := OptionToSeq(w[0]);
      assert Somes(w) == head + Somes(rest);
      if w[0].Some? && w[0].value.id == id {
        var r := [None] + rest;
        assert r[0] == None && r[1..] == rest;
        assert Somes(r) == Somes(rest);
        assert ClearFirst(w, id) == r;
      } else {
        ClearFirstTakesFound(rest, id);
        var r := [w[0]] + ClearFirst(rest, id);
        assert r[0] == w[0] && r[1..] == ClearFirst(rest, id);
        assert Somes(r) == head + Somes(ClearFirst(rest, id));
        assert ClearFirst(w, id) == r;
      }
    }
  }

  /** When no slot holds the card, clearing changes nothing. */
  lemma {:induction false} ClearFirstKeepsAll(w: seq<Option<Card>>, id: nat)
    requires FirstWithId(w, id).None?
    ensures ClearFirst(w, id) == w
  {
    if w != [] {
      ClearFirstKeepsAll(w[1..], id);
      assert w == [w[0]] + w[1..];
    }
  }

  /** Both together. */
  lemma ClearFirstRemoves(w: seq<Option<Card>>, id: nat)
    ensures multiset(Somes(ClearFirst(w, id))) + multiset(OptionToSeq(FirstWithId(w, id))) == multiset(Somes(w))
    ensures FirstWithId(w, id).None? ==> ClearFirst(w, id) == w
  {
    ClearFirstTakesFound(w, id);
    if FirstWithId(w, id).None? {
      ClearFirstKeepsAll(w, id);
    }
  }

  /** The window, stock, waste and active card after a window operation. */
  datatype Window = Window(slots: seq<Option<Card>>, stock: seq<Card>, waste: seq<Card>, active: Option<Card>)

  function WindowCards(w: Window): multiset<Card> {
    multiset(Somes(w.slots)) + multiset(w.stock) + multiset(w.waste)
  }

  /** The cards a refill keeps in the window, in their order. */
  function Kept(w: seq<Option<Card>>, used: Option<Card>): seq<Card> {
    Somes(if used.Some? then ClearFirst(w, used.value.id) else w)
  }

  /** _refill_draw3_window: empty the slot of the card just used (if
      given), pack the remaining cards into the rightmost slots in their
      order, fill the empty slots left to right with the next cards drawn
      (Take), and make the rightmost occupied slot the active card. */
  function Refill(w: seq<Option<Card>>, stock: seq<Card>, waste: seq<Card>, used: Option<Card>): (r: Window)
    requires |w| == 3
    ensures |r.slots| == 3
  {
    var packed := Kept(w, used);
    var d := Take(stock, waste, 3 - |packed|);
    var slots := Filled(d.cards) + Empty(3 - |packed| - |d.cards|) + Filled(packed);
    Window(slots, d.stock, d.waste, Rightmost(slots))
  }

  /** The card a refill takes out of the window: the used card's slot. */
  function UsedSlot(w: seq<Option<Card>>, used: Option<Card>): Option<Card> {
    if used.Some? then FirstWithId(w, used.value.id) else None
  }

  /** The cards the draw-three reveal retires to the waste: the window's
      cards taken from the rightmost slot to the leftmost. */
  function Retire(w: seq<Option<Card>>): (cs: seq<Card>) {
    if w == [] then [] else OptionToSeq(Last(w)) + Retire(DropLast(w))
  }

  lemma {:induction false} RetireReverses(w: seq<Option<Card>>)
    ensures Retire(w) == Reverse(Somes(w))
  {
    if w != [] {
      RetireReverses(DropLast(w));
      assert w == DropLast(w) + [Last(w)];
      var x, y := Somes(DropLast(w)), OptionToSeq(Last(w));
      assert Somes(w) == x + y by {
        SomesAppend(DropLast(w), [Last(w)]);
        assert [Last(w)][1..] == [];
      }
      ReverseAppend(x, y);
      assert Reverse(y) == y;
    }
  }

  /** The draw-three step of reveal_reserve_card: retire the window to the
      waste, draw up to three cards (Take) into the leftmost slots, then
      refill, which packs them to the right and sets the active card. */
  function Draw3(w: seq<Option<Card>>, stock: seq<Card>, waste: seq<Card>): (r: Window)
    requires |w| == 3
    ensures |r.slots| == 3
  {
    var d := Take(stock, waste + Retire(w), 3);
    Refill(Filled(d.cards) + Empty(3 - |d.cards|), d.stock, d.waste, None)
  }
}
