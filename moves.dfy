/** The keys that act on cards: confirm_selection (Enter: pick up, then
    drop), cancel_selection (Esc), reveal_reserve_card (S) and
    undo_last_move (C). */
module Moves {
  import opened Cards
  import opened Rules
  import opened Leaderboard
  import opened Supply
  import opened DrawThree
  import opened Table

  /** What may be picked up under the cursor: the active card once the
      first draw is made, the top of a non-empty foundation, or a run of
      face-up cards inside its column. */
  predicate PickupAllowed(s: GameState)
    requires WellFormed(s)
  {
    var t := s.zones.tableau;
    match s.sel
    case TopRow(k) =>
      (k == 0 && s.firstRevealDone && s.zones.active.Some?) ||
      (1 <= k && s.zones.finals[k - 1] != [])
    case Run(c, row, n) =>
      row + n <= |t[c]| && forall i :: row <= i < row + n ==> !t[c][i].hidden
  }

  /** The first Enter: save a snapshot, remember where the card came from
      and, for a foundation card, take it off its pile into the hand. */
  function Pickup(s: GameState): (r: GameState)
    requires WellFormed(s) && !s.confirmed && !s.gameOver
    ensures WellFormed(r)
    ensures r.confirmed <==> PickupAllowed(s)
    ensures r.confirmed ==>
      && r.history == Push(s.history, Snapshot(s.zones, s.moveCount, s.firstRevealDone))
      && r.orig == Some(s.sel) && r.sel == s.sel
    ensures !r.confirmed ==> r == s.(outcome := CannotPickUp)
  {
    if PickupAllowed(s) then
      var s1 := SaveForUndo(s).(orig := Some(s.sel), confirmed := true, moving := None);
      if IsFinalSlot(s.sel) then
        var k := s.sel.slot - 1;
        var pile := s.zones.finals[k];
        s1.(zones := s1.zones.(finals := s1.zones.finals[k := DropLast(pile)]), moving := Some(Last(pile)))
      else s1
    else s.(outcome := CannotPickUp)
  }

  /** The result of a drop before the common ending: the state, whether the
      drop matched one of the five kinds of move, and whether it succeeded. */
  datatype Drop = Drop(state: GameState, taken: bool, success: bool)

  predicate Holding(s: GameState) {
    WellFormed(s) && s.confirmed
  }

  /** A reserve card dropped on a foundation, where it already lies on top.
      If the foundation rule refuses it, it goes back to the reserve. */
  function ReserveToFoundation(s: GameState): (d: Drop)
    requires Holding(s) && s.orig.value == TopRow(0) && IsFinalSlot(s.sel)
    ensures WellFormed(d.state) && d.taken
    ensures d.state.gameOver == s.gameOver && d.state.moveCount == s.moveCount && d.state.history == s.history
  {
    var z, k := s.zones, s.sel.slot - 1;
    var pile := z.finals[k];
    if pile == [] then Drop(s.(sel := TopRow(0)), true, false)
    else
      var c := Last(pile);
      if CanPlaceOnFinal(Some(c), DropLast(pile)) then
        Drop(s.(zones := RefillIfHard(z, s.difficulty, Some(c)), sel := TopRow(0)), true, true)
      else
        var z1 := z.(finals := z.finals[k := DropLast(pile)]);
        Drop(s.(zones := PutBackOnReserve(z1, s.difficulty, c), sel := TopRow(0), outcome := IllegalPlacement),
             true, false)
  }

  /** A foundation card dropped on a foundation. Unless the card in hand
      lies on top of the target, it goes back to its own pile. */
  function FoundationToFoundation(s: GameState): (d: Drop)
    requires Holding(s) && IsFinalSlot(s.orig.value) && IsFinalSlot(s.sel)
    ensures WellFormed(d.state) && d.taken
    ensures d.state.gameOver == s.gameOver && d.state.moveCount == s.moveCount && d.state.history == s.history
  {
    var f, o := s.zones.finals, s.orig.value;
    var src, tgt := o.slot - 1, s.sel.slot - 1;
    if !(f[tgt] != [] && s.moving.Some? && SameCard(Last(f[tgt]), s.moving.value)) then
      var f1 := f[src := f[src] + OptionToSeq(s.moving)];
      Drop(s.(zones := s.zones.(finals := f1), sel := o), true, false)
    else if CanPlaceOnFinal(s.moving, DropLast(f[tgt])) then Drop(s, true, true)
    else
      var f1 := f[tgt := DropLast(f[tgt])];
      var f2 := f1[src := f1[src] + [s.moving.value]];
      Drop(s.(zones := s.zones.(finals := f2), sel := o, outcome := IllegalPlacement), true, false)
  }

  /** A tableau card dropped on a foundation, where it already lies on top.
      On success the new last card of the origin column is turned face up;
      if refused, the card goes back into its column at the row it came
      from. */
  function TableauToFoundation(s: GameState): (d: Drop)
    requires Holding(s) && s.orig.value.Run? && IsFinalSlot(s.sel)
    ensures WellFormed(d.state) && d.taken
    ensures d.state.gameOver == s.gameOver && d.state.moveCount == s.moveCount && d.state.history == s.history
  {
    var z, o, k := s.zones, s.orig.value, s.sel.slot - 1;
    var t := z.tableau;
    if z.finals[k] == [] then Drop(s.(sel := o), true, false)
    else
      var c := Last(z.finals[k]);
      if CanPlaceOnFinal(Some(c), DropLast(z.finals[k])) then
        Drop(s.(zones := z.(tableau := t[o.col := FlipLast(t[o.col])])), true, true)
      else
        var col := t[o.col];
        Drop(s.(zones := z.(finals := z.finals[k := DropLast(z.finals[k])],
                            tableau := t[o.col := InsertAt(col, Min(o.row, |col|), c)]),
                sel := o, outcome := IllegalPlacement),
             true, false)
  }

  /** A run dropped on a tableau column, where it already lies at the
      cursor: accepted iff its bottom card is a King at the bottom of the
      column or stacks on the card beneath it; then the origin column's last
      card is turned face up, otherwise the run goes back. */
  function TableauToTableau(s: GameState): (d: Drop)
    requires Holding(s) && s.orig.value.Run? && s.sel.Run?
    ensures WellFormed(d.state) && d.taken
    ensures d.state.gameOver == s.gameOver && d.state.moveCount == s.moveCount && d.state.history == s.history
  {
    var t, o := s.zones.tableau, s.orig.value;
    var col, start := t[s.sel.col], s.sel.row;
    if start < |col| && AcceptsAt(col, start) then
      Drop(s.(zones := s.zones.(tableau := t[o.col := FlipLast(t[o.col])])), true, true)
    else
      Drop(UndoFailedTableauMove(s).(outcome := IllegalPlacement), true, false)
  }

  /** A reserve or foundation card dropped on a tableau column, where it
      already lies last: accepted iff it is a King alone in the column or
      stacks on the card beneath; if refused it goes back where it came
      from. */
  function TopRowToTableau(s: GameState): (d: Drop)
    requires Holding(s) && s.orig.value.TopRow? && s.sel.Run?
    ensures WellFormed(d.state) && d.taken
    ensures d.state.gameOver == s.gameOver && d.state.moveCount == s.moveCount && d.state.history == s.history
  {
    var z, o, tc := s.zones, s.orig.value, s.sel.col;
    var col := z.tableau[tc];
    if col == [] then Drop(s.(sel := o, outcome := Error), true, false)
    else
      var c := Last(col);
      if AcceptsAt(col, |col| - 1) then
        if o == TopRow(0) then Drop(s.(zones := RefillIfHard(z, s.difficulty, Some(c))), true, true)
        else Drop(s, true, true)
      else
        var z1 := z.(tableau := z.tableau[tc := DropLast(col)]);
        var z2 :=
          if o == TopRow(0) then PutBackOnReserve(z1, s.difficulty, c)
          else z1.(finals := z1.finals[o.slot - 1 := z1.finals[o.slot - 1] + [c]]);
        Drop(s.(zones := z2, sel := o, outcome := IllegalPlacement), true, false)
  }

  /** A drop on the reserve, which matches no kind of move: on the spot it
      came from the pickup is simply undone, anywhere else it is an invalid
      move; either way the pickup's snapshot is dropped. */
  function OffTarget(s: GameState): (d: Drop)
    requires Holding(s)
    ensures WellFormed(d.state) && !d.taken && !d.success
    ensures d.state.gameOver == s.gameOver && d.state.moveCount == s.moveCount
    ensures d.state.history == if s.history == [] then [] else DropLast(s.history)
  {
    var o := s.orig.value;
    if o == s.sel then Drop(PopHistory(s).(outcome := SelectionCleared), false, false)
    else
      var f := s.zones.finals;
      var z1 :=
        if IsFinalSlot(o) && s.moving.Some? then s.zones.(finals := f[o.slot - 1 := f[o.slot - 1] + [s.moving.value]])
        else s.zones;
      Drop(PopHistory(s.(zones := z1, sel := o, outcome := InvalidMove)), false, false)
  }

  /** The second Enter, up to the common ending: the kind of move is chosen
      by where the card came from and where the cursor is. */
  function DropAt(s: GameState): (d: Drop)
    requires Holding(s)
    ensures WellFormed(d.state)
    ensures d.taken <==> s.sel != TopRow(0)
    ensures d.state.confirmed && d.state.orig == s.orig && d.state.moving == s.moving
    ensures d.state.gameOver == s.gameOver && d.state.moveCount == s.moveCount
    ensures d.state.history == if d.taken || s.history == [] then s.history else DropLast(s.history)
  {
    var o, t := s.orig.value, s.sel;
    if o == TopRow(0) && IsFinalSlot(t) then ReserveToFoundation(s)
    else if IsFinalSlot(o) && IsFinalSlot(t) then FoundationToFoundation(s)
    else if o.Run? && IsFinalSlot(t) then TableauToFoundation(s)
    else if o.Run? && t.Run? then TableauToTableau(s)
    else if o.TopRow? && t.Run? then TopRowToTableau(s)
    else OffTarget(s)
  }

  /** The bookkeeping after a drop: a successful move is counted; a move
      that was tried and failed gives up the pickup's snapshot. */
  function CountDrop(d: Drop): (r: GameState)
    requires WellFormed(d.state)
    ensures WellFormed(r)
    ensures r == d.state.(moveCount := r.moveCount, history := r.history)
    ensures r.moveCount == d.state.moveCount + (if d.success then 1 else 0)
    ensures r.history ==
      if d.success || !d.taken || d.state.history == [] then d.state.history else DropLast(d.state.history)
  {
    var s := d.state;
    if d.success then s.(moveCount := s.moveCount + 1)
    else if d.taken then PopHistory(s)
    else s
  }

  /** The common ending of a drop: the bookkeeping, then the win test. A
      drop that completes the four foundations ends the game, and the key
      returns at once with the hand as it was; otherwise the hand is
      emptied. */
  function FinishDrop(d: Drop): (r: GameState)
    requires WellFormed(d.state) && !d.state.gameOver
    ensures WellFormed(r)
    ensures r.zones == d.state.zones
    ensures r.gameOver <==> AllComplete(r.zones.finals)
    ensures r.gameOver ==>
      && r.outcome == Won && r.confirmed == d.state.confirmed
      && r.orig == d.state.orig && r.moving == d.state.moving
    ensures !r.gameOver ==> !r.confirmed && r.orig.None? && r.moving.None?
    ensures r.moveCount == d.state.moveCount + (if d.success then 1 else 0)
  {
    var s2 := WinCheck(CountDrop(d));
    if s2.gameOver then s2 else s2.(confirmed := false, orig := None, moving := None)
  }

  /** confirm_selection. Nothing happens once the game is over. Without a
      card in hand it is a pickup; with one it is a drop, after which the
      game is over exactly when every foundation is complete. A winning
      drop leaves the card in hand; any other drop empties the hand. */
  function Confirm(s: GameState): (r: GameState)
    requires WellFormed(s)
    ensures WellFormed(r)
    ensures s.gameOver ==> r == s
    ensures !s.gameOver && s.confirmed ==> (r.gameOver <==> AllComplete(r.zones.finals))
    ensures !s.gameOver && s.confirmed && r.gameOver ==>
      r.confirmed && r.orig == s.orig && r.moving == s.moving && r.outcome == Won
    ensures !s.gameOver && s.confirmed && !r.gameOver ==> !r.confirmed
    ensures !s.gameOver && s.confirmed ==> r.moveCount == s.moveCount || r.moveCount == s.moveCount + 1
  {
    if s.gameOver then s
    else
      var s0 := s.(outcome := Quiet);
      if !s.confirmed then Pickup(s0) else FinishDrop(DropAt(s0))
  }

  /** Cancelling a tableau card carried onto a foundation: the top of that
      foundation goes back into its column at the row it came from. */
  function ReturnToColumn(s: GameState): (r: GameState)
    requires Holding(s) && s.orig.value.Run? && IsFinalSlot(s.sel)
    ensures WellFormed(r) && r == s.(zones := r.zones)
  {
    var z, o, k := s.zones, s.orig.value, s.sel.slot - 1;
    if z.finals[k] != [] then
      var col := z.tableau[o.col];
      s.(zones := z.(finals := z.finals[k := DropLast(z.finals[k])],
                     tableau := z.tableau[o.col := InsertAt(col, Min(o.row, |col|), Last(z.finals[k]))]))
    else s
  }

  /** Cancelling a card carried onto the tableau from the reserve or from a
      foundation: the card under the cursor leaves its column and goes back
      to the reserve, or onto the foundation it came from. */
  function ReturnFromColumn(s: GameState): (r: GameState)
    requires Holding(s) && s.orig.value.TopRow? && s.sel.Run?
    ensures WellFormed(r) && r == s.(zones := r.zones)
  {
    var z, o, t := s.zones, s.orig.value, s.sel;
    if t.row < |z.tableau[t.col]| then
      var c := z.tableau[t.col][t.row];
      var z1 := z.(tableau := z.tableau[t.col := RemoveAt(z.tableau[t.col], t.row)]);
      if o == TopRow(0) then s.(zones := PutBackOnReserve(z1, s.difficulty, c))
      else s.(zones := z1.(finals := z1.finals[o.slot - 1 := z1.finals[o.slot - 1] + [c]]))
    else s
  }

  /** Cancelling a foundation card in hand: it comes off the foundation the
      cursor is on, if it lies there, and goes back onto its own pile. */
  function ReturnFoundationCard(s: GameState): (r: GameState)
    requires Holding(s) && s.moving.Some? && IsFinalSlot(s.orig.value)
    ensures WellFormed(r) && r == s.(zones := r.zones)
  {
    var f, m, t, src := s.zones.finals, s.moving.value, s.sel, s.orig.value.slot - 1;
    var f1 :=
      if IsFinalSlot(t) && f[t.slot - 1] != [] && SameCard(Last(f[t.slot - 1]), m) then
        f[t.slot - 1 := DropLast(f[t.slot - 1])]
      else f;
    s.(zones := s.zones.(finals := f1[src := f1[src] + [m]]))
  }

  /** cancel_selection with a card in hand puts the carried card back where
      it came from, as far as the source's cases reach. */
  function PutBack(s: GameState): (r: GameState)
    requires Holding(s)
    ensures WellFormed(r)
    ensures r.history == s.history && r.moveCount == s.moveCount
  {
    var o, t := s.orig.value, s.sel;
    if o.Run? && IsFinalSlot(t) then ReturnToColumn(s)
    else if o.TopRow? && t.Run? then ReturnFromColumn(s)
    else if o.Run? && t.Run? && t != o then UndoFailedTableauMove(s)
    else if s.moving.Some? && IsFinalSlot(o) then ReturnFoundationCard(s)
    else s
  }

  /** cancel_selection. Nothing happens once the game is over or when no
      card is in hand. Otherwise the pickup's snapshot is dropped, the card
      is put back, the cursor returns to where the card was picked up and
      the hand is emptied; the move counter is unchanged. */
  function Cancel(s: GameState): (r: GameState)
    requires WellFormed(s)
    ensures WellFormed(r)
    ensures s.gameOver ==> r == s
    ensures !s.gameOver && !s.confirmed ==> r == s.(outcome := Quiet)
    ensures !s.gameOver && s.confirmed ==>
      && !r.confirmed && r.sel == s.orig.value && r.moveCount == s.moveCount && r.outcome == Cancelled
      && r.history == (if s.history == [] then [] else DropLast(s.history))
  {
    if s.gameOver then s
    else if !s.confirmed then s.(outcome := Quiet)
    else
      var s1 := PopHistory(s.(outcome := Quiet));
      PutBack(s1).(sel := s.orig.value, confirmed := false, orig := None, moving := None, outcome := Cancelled)
  }

  /** The draw-one reveal applied to the zones. */
  function RevealOne(z: Zones): (r: Zones)
    requires ZonesShape(z)
    ensures ZonesShape(r)
  {
    var p := Draw1(Pile(z.stock, z.waste1, z.active));
    z.(stock := p.stock, waste1 := p.waste, active := p.active)
  }

  /** The draw-three reveal applied to the zones. */
  function RevealThree(z: Zones): (r: Zones)
    requires ZonesShape(z)
    ensures ZonesShape(r)
  {
    var w := Draw3(z.window, z.stock, z.waste3);
    z.(window := w.slots, stock := w.stock, waste3 := w.waste, active := w.active)
  }

  /** reveal_reserve_card. Nothing happens once the game is over, and with a
      card in hand it only asks to finish the move. Otherwise it saves a
      snapshot, marks the first draw as made, counts a move, draws (one card
      on the easy level, three on the hard level) and puts the cursor on the
      reserve; it reports when no card is left to show. Only the reserve
      zones change. */
  function Reveal(s: GameState): (r: GameState)
    requires WellFormed(s)
    ensures WellFormed(r)
    ensures s.gameOver ==> r == s
    ensures !s.gameOver && s.confirmed ==> r == s.(outcome := FinishMove)
    ensures !s.gameOver && !s.confirmed ==>
      && r.history == Push(s.history, Snapshot(s.zones, s.moveCount, s.firstRevealDone))
      && r.moveCount == s.moveCount + 1 && r.firstRevealDone && r.sel == TopRow(0)
      && r.zones.tableau == s.zones.tableau && r.zones.finals == s.zones.finals
      && (r.outcome == NoCardsLeft <==>
            (r.zones.active.None? && r.zones.stock == [] &&
             if s.difficulty == Easy then r.zones.waste1 == [] else r.zones.waste3 == []))
  {
    if s.gameOver then s
    else if s.confirmed then s.(outcome := FinishMove)
    else DrawByLevel(SaveForUndo(s).(firstRevealDone := true, moveCount := s.moveCount + 1, outcome := Quiet))
  }

  /** The draw of reveal_reserve_card after its bookkeeping: one card on the
      easy level, three on the hard level, then the cursor goes to the
      reserve and the message tells whether any card is left to show. Only
      the reserve zones, the cursor and the message change. */
  function DrawByLevel(s: GameState): (r: GameState)
    requires ZonesShape(s.zones)
    ensures WellFormed(s) ==> WellFormed(r)
    ensures r == s.(zones := r.zones, sel := TopRow(0), outcome := r.outcome)
    ensures r.zones.tableau == s.zones.tableau && r.zones.finals == s.zones.finals
    ensures r.outcome == NoCardsLeft <==>
      (r.zones.active.None? && r.zones.stock == [] &&
       if s.difficulty == Easy then r.zones.waste1 == [] else r.zones.waste3 == [])
    ensures r.outcome != NoCardsLeft ==> r.outcome == Quiet
  {
    if s.difficulty == Easy then
      var z := RevealOne(s.zones);
      s.(zones := z, sel := TopRow(0), outcome := if z.active.None? then NoCardsLeft else Quiet)
    else
      var z := RevealThree(s.zones);
      s.(zones := z, sel := TopRow(0),
         outcome := if z.active.None? && z.stock == [] && z.waste3 == [] then NoCardsLeft else Quiet)
  }

  /** undo_last_move. Nothing happens once the game is over; with a card in
      hand undo is refused; with an empty history it only reports that;
      otherwise the latest snapshot is taken off the history and restored. */
  function Undo(s: GameState): (r: GameState)
    requires WellFormed(s)
    ensures WellFormed(r)
    ensures s.gameOver ==> r == s
    ensures !s.gameOver && s.confirmed ==> r == s.(outcome := FinishOrCancel)
    ensures !s.gameOver && !s.confirmed && s.history == [] ==> r == s.(outcome := NothingToUndo)
    ensures !s.gameOver && !s.confirmed && s.history != [] ==>
      && r.history == DropLast(s.history) && r.moveCount == s.moveCount
      && r.zones == RestoredZones(Last(s.history).zones)
      && r.firstRevealDone == Last(s.history).firstRevealDone
      && !r.confirmed && r.outcome == Undone
  {
    if s.gameOver then s
    else if s.confirmed then s.(outcome := FinishOrCancel)
    else if s.history != [] then Restore(s.(history := DropLast(s.history)), Last(s.history))
    else s.(outcome := NothingToUndo)
  }
}
