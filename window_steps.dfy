/** One step of each loop the game runs over the draw window, stated on
    the window as a sequence so that the loops in the Game class can keep
    their invariants slot by slot. */
module WindowSteps {
  import opened Cards
  import opened DrawThree

  /** Slot j of a window laid out as drawn cards, empty slots, kept cards. */
  lemma LayoutAt(a: seq<Card>, n: nat, b: seq<Card>, j: int)
    requires 0 <= j < |a| + n + |b|
    ensures (Filled(a) + Empty(n) + Filled(b))[j] ==
      if j < |a| then Some(a[j]) else if j < |a| + n then None else Some(b[j - |a| - n])
  {
    if j < |a| {
      FilledAt(a, j);
    } else if j < |a| + n {
      EmptyAt(n, j - |a|);
    } else {
      FilledAt(b, j - |a| - n);
    }
  }

  predicate Matches(slot: Option<Card>, id: nat) {
    slot.Some? && slot.value.id == id
  }

  /** The first slot holding the card is the one emptied. */
  lemma {:induction false} ClearFirstAt(w: seq<Option<Card>>, id: nat, i: nat)
    requires i < |w| && Matches(w[i], id)
    requires forall j :: 0 <= j < i ==> !Matches(w[j], id)
    ensures ClearFirst(w, id) == w[i := None]
  {
    if i > 0 {
      assert !Matches(w[0], id);
      ClearFirstAt(w[1..], id, i - 1);
      assert [w[0]] + w[1..][i - 1 := None] == w[i := None];
    }
  }

  /** Without a slot holding the card, nothing is emptied. */
  lemma {:induction false} ClearFirstMissing(w: seq<Option<Card>>, id: nat)
    requires forall j :: 0 <= j < |w| ==> !Matches(w[j], id)
    ensures ClearFirst(w, id) == w
  {
    if w != [] {
      assert !Matches(w[0], id);
      ClearFirstMissing(w[1..], id);
      assert w == [w[0]] + w[1..];
    }
  }

  /** Collecting the occupied slots one more slot to the right. */
  lemma SomesPrefix(w: seq<Option<Card>>, i: nat)
    requires i < |w|
    ensures Somes(w[..i + 1]) == Somes(w[..i]) + OptionToSeq(w[i])
  {
    assert w[..i + 1] == w[..i] + [w[i]];
    SomesAppend(w[..i], [w[i]]);
    assert Somes([w[i]]) == OptionToSeq(w[i]) + Somes([]);
  }

  /** Retiring the window one more slot to the left. */
  lemma RetirePrefix(w: seq<Option<Card>>, i: nat)
    requires 0 < i <= |w|
    ensures Retire(w[..i]) == OptionToSeq(w[i - 1]) + Retire(w[..i - 1])
  {
    assert DropLast(w[..i]) == w[..i - 1];
  }

  /** The rightmost occupied slot of three, looked for from the right. */
  lemma RightmostOfThree(w: seq<Option<Card>>)
    requires |w| == 3
    ensures Rightmost(w) == if w[2].Some? then w[2] else if w[1].Some? then w[1] else w[0]
  {
    var w2, w1 := DropLast(w), DropLast(DropLast(w));
    assert w2 == w[..2] && w1 == w[..1] && DropLast(w1) == [];
    assert Last(w) == w[2] && Last(w2) == w[1] && Last(w1) == w[0];
    assert Rightmost(w1) == w[0];
    assert Rightmost(w2) == if w[1].Some? then w[1] else w[0];
  }

  /** Drawing one more card into the first empty slot of a layout. */
  lemma LayoutFill(drawn: seq<Card>, gap: nat, cards: seq<Card>, c: Card)
    requires gap > 0
    ensures Filled(drawn + [c]) + Empty(gap - 1) + Filled(cards) ==
      (Filled(drawn) + Empty(gap) + Filled(cards))[|drawn| := Some(c)]
  {
    var a, b := Filled(drawn + [c]) + Empty(gap - 1) + Filled(cards), Filled(drawn) + Empty(gap) + Filled(cards);
    forall j | 0 <= j < |a|
      ensures a[j] == b[|drawn| := Some(c)][j]
    {
      LayoutAt(drawn + [c], gap - 1, cards, j);
      LayoutAt(drawn, gap, cards, j);
    }
  }
}
