/** Properties that relate several operations of the game: round trips,
    what undo and cancel restore, and how a drop's outcome follows the
    placement rules. */
module Theorems {
  import opened Cards
  import opened Rules
  import opened Leaderboard
  import opened Supply
  import opened DrawThree
  import opened DrawThreeFacts
  import opened Table
  import opened Navigation
  import opened Moves

  /** The history after a push followed by a pop: the pushed snapshot is
      gone, and so is the oldest one if the history was full. */
  lemma PushThenPop(h: seq<Snapshot>, x: Snapshot)
    requires |h| <= MAX_UNDO_HISTORY
    ensures DropLast(Push(h, x)) == if |h| < MAX_UNDO_HISTORY then h else h[1..]
    ensures Last(Push(h, x)) == x
  {
  }

  /** Picking a card up and cancelling at once gives back the state as it
      was, except that a full history has lost its oldest snapshot (the
      pickup's push evicted it before the cancel's pop). */
  lemma PickupThenCancel(s: GameState)
    requires WellFormed(s) && !s.gameOver && !s.confirmed && PickupAllowed(s)
    requires IsFinalSlot(s.sel) ==> DistinctIds(s.zones.finals[s.sel.slot - 1])
    ensures Cancel(Confirm(s)) ==
      s.(history := if |s.history| < MAX_UNDO_HISTORY then s.history else s.history[1..], outcome := Cancelled)
  {
    var p := Pickup(s.(outcome := Quiet));
    assert Confirm(s) == p;
    PushThenPop(s.history, Snapshot(s.zones, s.moveCount, s.firstRevealDone));
    var p1 := PopHistory(p.(outcome := Quiet));
    if IsFinalSlot(s.sel) {
      PutBackFoundationCard(s, p1);
    } else {
      assert PutBack(p1) == p1;
    }
  }

  /** After a foundation card is picked up, putting it back at once puts it
      back on its own pile. */
  lemma PutBackFoundationCard(s: GameState, p: GameState)
    requires WellFormed(s) && !s.confirmed && IsFinalSlot(s.sel) && DistinctIds(s.zones.finals[s.sel.slot - 1])
    requires var k := s.sel.slot - 1; var pile := s.zones.finals[k];
      && pile != [] && WellFormed(p) && p.confirmed && p.orig == Some(s.sel) && p.sel == s.sel
      && p.moving == Some(Last(pile)) && p.zones == s.zones.(finals := s.zones.finals[k := DropLast(pile)])
    ensures PutBack(p).zones == s.zones
  {
    var k := s.sel.slot - 1;
    var pile := s.zones.finals[k];
    var rest := DropLast(pile);
    if rest != [] {
      assert Last(rest) == pile[|pile| - 2];
    }
    assert rest + [Last(pile)] == pile;
    assert PutBack(p) == ReturnFoundationCard(p);
  }

  /** A drop that succeeds keeps the pickup's snapshot, so that the move
      can be undone; one that does not succeed removes it again. */
  lemma DropKeepsSnapshotIffMoved(s: GameState)
    requires WellFormed(s) && !s.gameOver && s.confirmed && s.history != []
    ensures var r := Confirm(s);
      && (r.moveCount == s.moveCount + 1 ==> r.history == s.history)
      && (r.moveCount == s.moveCount ==> r.history == DropLast(s.history))
  {
  }

  /** A reserve or foundation card dropped on a column is accepted exactly
      when the tableau rule accepts it as the column's last card. */
  lemma DropOnColumnFollowsRule(s: GameState)
    requires WellFormed(s) && !s.gameOver && s.confirmed && s.orig.value.TopRow? && s.sel.Run?
    requires s.zones.tableau[s.sel.col] != []
    ensures var col := s.zones.tableau[s.sel.col];
      Confirm(s).moveCount == s.moveCount + 1 <==> AcceptsAt(col, |col| - 1)
  {
    var s0 := s.(outcome := Quiet);
    assert DropAt(s0) == TopRowToTableau(s0);
  }

  /** A run dropped inside a column is accepted exactly when it covers
      cards there and the tableau rule accepts its bottom card at its row. */
  lemma DropRunFollowsRule(s: GameState)
    requires WellFormed(s) && !s.gameOver && s.confirmed && s.orig.value.Run? && s.sel.Run?
    ensures var col, start := s.zones.tableau[s.sel.col], s.sel.row;
      Confirm(s).moveCount == s.moveCount + 1 <==> start < |col| && AcceptsAt(col, start)
  {
    var s0 := s.(outcome := Quiet);
    assert DropAt(s0) == TableauToTableau(s0);
  }

  /** A reserve or tableau card dropped on a foundation is accepted exactly
      when the foundation rule accepts the card on top of it. */
  lemma DropOnFoundationFollowsRule(s: GameState)
    requires WellFormed(s) && !s.gameOver && s.confirmed && IsFinalSlot(s.sel)
    requires s.orig.value == TopRow(0) || s.orig.value.Run?
    ensures var pile := s.zones.finals[s.sel.slot - 1];
      Confirm(s).moveCount == s.moveCount + 1 <==>
        pile != [] && CanPlaceOnFinal(Some(Last(pile)), DropLast(pile))
  {
    var s0 := s.(outcome := Quiet);
    if s.orig.value == TopRow(0) {
      assert DropAt(s0) == ReserveToFoundation(s0);
    } else {
      assert DropAt(s0) == TableauToFoundation(s0);
    }
  }

  /** A foundation card dropped on a foundation is accepted exactly when
      the card in hand lies on top of the target pile and the foundation
      rule accepts it on the cards beneath. */
  lemma DropBetweenFoundationsFollowsRule(s: GameState)
    requires WellFormed(s) && !s.gameOver && s.confirmed && IsFinalSlot(s.orig.value) && IsFinalSlot(s.sel)
    ensures var pile := s.zones.finals[s.sel.slot - 1];
      Confirm(s).moveCount == s.moveCount + 1 <==>
        && pile != [] && s.moving.Some? && SameCard(Last(pile), s.moving.value)
        && CanPlaceOnFinal(s.moving, DropLast(pile))
  {
    var s0 := s.(outcome := Quiet);
    assert DropAt(s0) == FoundationToFoundation(s0);
  }

  /** A tableau card refused by a foundation leaves it and goes back into
      its column at the row it was picked up from; the cursor returns there
      and the hand is empty. */
  lemma RefusedFoundationDropReinserts(s: GameState)
    requires WellFormed(s) && !s.gameOver && s.confirmed && s.orig.value.Run? && IsFinalSlot(s.sel)
    requires var pile := s.zones.finals[s.sel.slot - 1];
      pile != [] && !CanPlaceOnFinal(Some(Last(pile)), DropLast(pile))
    ensures var r, o, k := Confirm(s), s.orig.value, s.sel.slot - 1;
      var pile, col := s.zones.finals[k], s.zones.tableau[o.col];
      && r.zones.finals[k] == DropLast(pile)
      && r.zones.tableau[o.col] == InsertAt(col, Min(o.row, |col|), Last(pile))
      && r.zones.tableau[o.col][Min(o.row, |col|)] == Last(pile)
      && r.sel == o && r.moveCount == s.moveCount && (r.confirmed <==> AllComplete(r.zones.finals))
  {
    var s0 := s.(outcome := Quiet);
    assert DropAt(s0) == TableauToFoundation(s0);
  }

  /** Carrying a run one column sideways neither loses nor creates a card
      of the tableau. */
  lemma CarryRunConserves(s: GameState, right: bool)
    requires WellFormed(s) && s.confirmed && s.sel.Run?
    ensures multiset(Flatten(MoveHorizontal(s, right).zones.tableau)) == multiset(Flatten(s.zones.tableau))
  {
    var d := if right then 1 else -1;
    if !s.gameOver {
      CarryRunMovesOneRun(s.(outcome := Quiet), d);
    }
  }

  lemma CarryRunMovesOneRun(s: GameState, d: int)
    requires WellFormed(s) && s.confirmed && s.sel.Run? && (d == 1 || d == -1)
    ensures multiset(Flatten(CarryRun(s, d).zones.tableau)) == multiset(Flatten(s.zones.tableau))
  {
    var t, c, row, n := s.zones.tableau, s.sel.col, s.sel.row, s.sel.len;
    if RunInColumn(t, s.sel) && 0 <= c + d < COLUMNS {
      var t1 := t[c := t[c][..row] + t[c][row + n..]];
      assert CarryRun(s, d).zones.tableau == t1[c + d := t1[c + d] + t[c][row..row + n]];
      MoveRunConserves(t, c, row, n, c + d);
    }
  }

  /** Splitting a column after a run that ends it and gluing the run back
      gives the column again. */
  lemma CutAndGlue(col: seq<Card>, row: int, n: int)
    requires 0 <= row && row + n == |col| && 0 <= n
    ensures col[..row] + col[row + n..] + col[row..row + n] == col
  {
  }

  /** A run that ends its column, carried one column sideways and back,
      leaves every zone and the cursor as they were. */
  lemma CarryRunThereAndBack(s: GameState, right: bool)
    requires WellFormed(s) && !s.gameOver && s.confirmed && s.sel.Run?
    requires RunInColumn(s.zones.tableau, s.sel)
    requires s.sel.row + s.sel.len == |s.zones.tableau[s.sel.col]|
    requires 0 <= s.sel.col + (if right then 1 else -1) < COLUMNS
    ensures MoveHorizontal(MoveHorizontal(s, right), !right) == s.(outcome := Quiet)
  {
    var d := if right then 1 else -1;
    var t, c, row, n := s.zones.tableau, s.sel.col, s.sel.row, s.sel.len;
    var nt := c + d;
    var run := t[c][row..row + n];
    var t1 := t[c := t[c][..row] + t[c][row + n..]];
    var t2 := t1[nt := t1[nt] + run];
    var m := MoveHorizontal(s, right);
    assert m.zones.tableau == t2 && m.sel == Run(nt, |t[nt]|, n);
    var back := t2[nt][|t[nt]|..|t[nt]| + n];
    assert back == run;
    assert t2[nt][..|t[nt]|] + t2[nt][|t[nt]| + n..] == t[nt];
    var t3 := t2[nt := t[nt]];
    CutAndGlue(t[c], row, n);
    assert t3[c] + run == t[c];
    assert t3[c := t3[c] + run] == t;
  }

  /** A reserve card carried onto the first foundation and back is on the
      reserve again, with every zone as it was. */
  lemma CarryReserveCardThereAndBack(s: GameState)
    requires WellFormed(s) && !s.gameOver && s.confirmed
    requires s.orig.value == TopRow(0) && s.sel == TopRow(0) && s.zones.active.Some?
    ensures MoveHorizontal(MoveHorizontal(s, true), false) == s.(outcome := Quiet)
  {
    var c, f := s.zones.active.value, s.zones.finals;
    var m := MoveHorizontal(s, true);
    assert m.zones.finals == f[0 := f[0] + [c]] && m.zones.active.None? && m.sel == TopRow(1);
    assert DropLast(f[0] + [c]) == f[0];
  }

  /** Without a card in hand, growing a run up by one card and shrinking it
      down again gives back the cursor. */
  lemma ExtendThenShrink(s: GameState)
    requires WellFormed(s) && !s.gameOver && !s.confirmed && CanExtendUp(s)
    ensures Extend(Extend(s, true), false) == s.(outcome := Quiet)
  {
  }

  /** Without a card in hand, left and right in the tableau go to the last
      card of the nearest non-empty column in that direction, passing only
      empty columns; the cursor stays put exactly when every column in that
      direction is empty. */
  lemma BrowseFindsNearestColumn(s: GameState, right: bool)
    requires WellFormed(s) && !s.gameOver && !s.confirmed && s.sel.Run?
    ensures var r, t, d := MoveHorizontal(s, right), s.zones.tableau, if right then 1 else -1;
      var from := s.sel.col + d;
      && (r.sel == s.sel <==> forall j :: 0 <= j < COLUMNS && Ahead(from, j, d) ==> t[j] == [])
      && (r.sel != s.sel ==>
            && r.sel.Run? && r.sel.len == 1 && t[r.sel.col] != [] && r.sel.row == |t[r.sel.col]| - 1
            && Ahead(from, r.sel.col, d)
            && forall j :: 0 <= j < COLUMNS && Ahead(from, j, d) && j != r.sel.col && Ahead(j, r.sel.col, d) ==> t[j] == [])
  {
    var d := if right then 1 else -1;
    SeekFindsNearest(s.zones.tableau, s.sel.col + d, d);
  }

  /** Undoing a draw gives back the zones as they were before it (every
      card of stock and wastes face up) and the first-draw flag, but not
      the move counter: the draw still counts as a move. */
  lemma UndoAfterReveal(s: GameState)
    requires WellFormed(s) && !s.gameOver && !s.confirmed
    ensures var r := Undo(Reveal(s));
      && r.zones == RestoredZones(s.zones)
      && r.firstRevealDone == s.firstRevealDone
      && r.moveCount == s.moveCount + 1
      && r.history == (if |s.history| < MAX_UNDO_HISTORY then s.history else s.history[1..])
      && r.sel == DefaultCursor(s.zones.tableau)
  {
    PushThenPop(s.history, Snapshot(s.zones, s.moveCount, s.firstRevealDone));
  }

  predicate FaceUp(cs: seq<Card>) {
    forall i :: 0 <= i < |cs| ==> !cs[i].hidden
  }

  lemma {:induction false} UnhideFaceUp(cs: seq<Card>)
    requires FaceUp(cs)
    ensures Unhide(cs) == cs
  {
    if cs != [] {
      UnhideFaceUp(cs[1..]);
      assert cs == [cs[0]] + cs[1..];
    }
  }

  /** When stock and wastes show their cards face up, as they always do in
      play, undoing a draw gives back exactly the zones before it. */
  lemma UndoAfterRevealRestoresZones(s: GameState)
    requires WellFormed(s) && !s.gameOver && !s.confirmed
    requires FaceUp(s.zones.stock) && FaceUp(s.zones.waste1) && FaceUp(s.zones.waste3)
    ensures Undo(Reveal(s)).zones == s.zones
  {
    UndoAfterReveal(s);
    UnhideFaceUp(s.zones.stock);
    UnhideFaceUp(s.zones.waste1);
    UnhideFaceUp(s.zones.waste3);
  }

  /** A draw neither loses nor creates a card of the reserve: on the easy
      level the stock, the draw-one waste and the active card together, on
      the hard level the window, the stock and the draw-three waste. */
  lemma RevealConserves(s: GameState)
    requires WellFormed(s) && !s.gameOver && !s.confirmed
    ensures var r, z := Reveal(s), s.zones;
      if s.difficulty == Easy then
        PileCards(Pile(r.zones.stock, r.zones.waste1, r.zones.active)) == PileCards(Pile(z.stock, z.waste1, z.active))
      else
        WindowCards(Window(r.zones.window, r.zones.stock, r.zones.waste3, r.zones.active)) ==
          multiset(Somes(z.window)) + multiset(z.stock) + multiset(z.waste3)
  {
    var z := s.zones;
    if s.difficulty == Easy {
      Draw1Conserves(Pile(z.stock, z.waste1, z.active));
    } else {
      Draw3Conserves(z.window, z.stock, z.waste3);
    }
  }

  /** On foundation piles, the win test reduces to every pile holding
      thirteen cards: a complete pile always ends with its King. */
  lemma WinMeansFullFoundations(finals: seq<seq<Card>>)
    requires forall i :: 0 <= i < |finals| ==> FoundationPile(finals[i])
    ensures AllComplete(finals) <==> forall i :: 0 <= i < |finals| ==> |finals[i]| == RANK_COUNT
  {
    forall i | 0 <= i < |finals| && |finals[i]| == RANK_COUNT
      ensures Last(finals[i]).rank == KING
    {
      CompletePileEndsWithKing(finals[i]);
    }
  }

  /** Once the game is over every key leaves the state unchanged. */
  lemma GameOverFreezes(s: GameState, flag: bool)
    requires WellFormed(s) && s.gameOver
    ensures MoveHorizontal(s, flag) == s && Extend(s, flag) == s && Confirm(s) == s
    ensures Cancel(s) == s && Reveal(s) == s && Undo(s) == s
    ensures WinCheck(s) == s
  {
  }
}
