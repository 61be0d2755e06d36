/** The arrow keys: move_selection_horizontal (left and right) and
    extend_selection (up and down). Without a carried card they move the
    cursor; with one they carry it. */
module Navigation {
  import opened Cards
  import opened Leaderboard
  import opened Table

  /** The card carried along the top row: for a reserve card, the active
      card, or the top of the foundation the cursor is on once it has been
      put there; for a foundation card, the card in hand; for a tableau card,
      the top of the foundation under the cursor. */
  function CarriedCard(s: GameState): Option<Card>
    requires WellFormed(s) && s.confirmed && s.sel.TopRow?
  {
    var cc, o, f := s.sel.slot, s.orig.value, s.zones.finals;
    if o == TopRow(0) then
      if s.zones.active.Some? then s.zones.active
      else if cc > 0 && f[cc - 1] != [] then Some(Last(f[cc - 1]))
      else None
    else if IsFinalSlot(o) then s.moving
    else if cc > 0 && f[cc - 1] != [] then Some(Last(f[cc - 1]))
    else None
  }

  /** Carrying a card one slot along the top row: it leaves its slot (the
      reserve or the top of a foundation, if it is there) and goes on top of
      the next foundation, or back onto the reserve if it came from there.
      Anything else going left from the first foundation stays put. */
  function CarryAlongTopRow(s: GameState, d: int): (r: GameState)
    requires WellFormed(s) && s.confirmed && s.sel.TopRow? && (d == 1 || d == -1)
    ensures WellFormed(r)
    ensures r == s.(zones := r.zones, sel := r.sel)
    ensures r.zones == s.zones.(finals := r.zones.finals, active := r.zones.active)
  {
    var cc, nt, card := s.sel.slot, s.sel.slot + d, CarriedCard(s);
    if card.None? || !(0 <= nt <= FOUNDATIONS) then s
    else
      var c, z, fromReserve := card.value, s.zones, s.orig.value == TopRow(0);
      var z1 :=
        if cc == 0 && fromReserve && HoldsCard(z.active, c) then z.(active := None)
        else if cc > 0 && z.finals[cc - 1] != [] && SameCard(Last(z.finals[cc - 1]), c) then
          z.(finals := z.finals[cc - 1 := DropLast(z.finals[cc - 1])])
        else z;
      if nt == 0 then
        if fromReserve then s.(zones := z1.(active := Some(c)), sel := TopRow(0))
        // nt == 0 means a step left from the first foundation, cc == 1
        else s.(zones := z1.(finals := z1.finals[cc - 1 := z1.finals[cc - 1] + [c]]), sel := TopRow(cc))
      else s.(zones := z1.(finals := z1.finals[nt - 1 := z1.finals[nt - 1] + [c]]), sel := TopRow(nt))
  }

  /** Whether a run cursor covers cards of its column. */
  predicate RunInColumn(t: seq<seq<Card>>, sel: Selection)
    requires |t| == COLUMNS && SelOk(sel) && sel.Run?
  {
    t[sel.col] != [] && sel.row < |t[sel.col]| && sel.len <= |t[sel.col]| - sel.row
  }

  /** Carrying a run sideways: it is cut out of its column and appended to
      the neighbouring column, and the cursor follows it. At the edge of the
      tableau, or when the cursor covers no cards, nothing happens. */
  function CarryRun(s: GameState, d: int): (r: GameState)
    requires WellFormed(s) && s.confirmed && s.sel.Run? && (d == 1 || d == -1)
    ensures WellFormed(r)
    ensures r == s.(zones := r.zones, sel := r.sel)
    ensures r.zones == s.zones.(tableau := r.zones.tableau)
  {
    var t, cc, row, n := s.zones.tableau, s.sel.col, s.sel.row, s.sel.len;
    var nt := cc + d;
    if !RunInColumn(t, s.sel) || !(0 <= nt < COLUMNS) then s
    else
      var run := t[cc][row..row + n];
      var t1 := t[cc := t[cc][..row] + t[cc][row + n..]];
      s.(zones := s.zones.(tableau := t1[nt := t1[nt] + run]), sel := Run(nt, |t1[nt]|, n))
  }

  /** Moving the cursor along the top row: from the reserve to the first
      non-empty foundation on the right; from a foundation to the nearest
      non-empty foundation in that direction, or from the first foundation
      left onto the reserve when the reserve can be used. */
  function BrowseTopRow(s: GameState, d: int): (r: GameState)
    requires WellFormed(s) && !s.confirmed && s.sel.TopRow? && (d == 1 || d == -1)
    ensures WellFormed(r)
    ensures r == s.(sel := r.sel)
  {
    var k := s.sel.slot;
    if k == 0 then
      if d == 1 then
        match Seek(s.zones.finals, 0, 1)
        case Some(i) => s.(sel := TopRow(i + 1))
        case None => s
      else s
    else
      match Seek(s.zones.finals, k - 1 + d, d)
      case Some(i) => s.(sel := TopRow(i + 1))
      case None =>
        if d == -1 && k == 1 && CanReachReserve(s) then s.(sel := TopRow(0)) else s
  }

  /** Moving the cursor across the tableau: to the last card of the nearest
      non-empty column in that direction, if there is one. */
  function BrowseColumns(s: GameState, d: int): (r: GameState)
    requires WellFormed(s) && !s.confirmed && s.sel.Run? && (d == 1 || d == -1)
    ensures WellFormed(r)
    ensures r == s.(sel := r.sel)
  {
    match Seek(s.zones.tableau, s.sel.col + d, d)
    case Some(j) => s.(sel := Run(j, |s.zones.tableau[j]| - 1, 1))
    case None => s
  }

  /** move_selection_horizontal. Nothing happens once the game is over; the
      move counter, the history and the carried state are never changed, and
      without a carried card no card moves. */
  function MoveHorizontal(s: GameState, right: bool): (r: GameState)
    requires WellFormed(s)
    ensures WellFormed(r)
    ensures s.gameOver ==> r == s
    ensures r.history == s.history && r.moveCount == s.moveCount && r.gameOver == s.gameOver
    ensures r.confirmed == s.confirmed && r.orig == s.orig && r.moving == s.moving
    ensures !s.confirmed ==> r.zones == s.zones
  {
    if s.gameOver then s
    else
      var s0, d := s.(outcome := Quiet), if right then 1 else -1;
      if s.confirmed then
        if s.sel.TopRow? then CarryAlongTopRow(s0, d) else CarryRun(s0, d)
      else if s.sel.TopRow? then BrowseTopRow(s0, d)
      else BrowseColumns(s0, d)
  }

  /** A carried reserve card moved up from the tableau, where it must be
      under the cursor: over columns 0 to 2 it goes back to the reserve,
      over columns 3 to 6 onto the foundation above (on the easy level the
      reserve then has no active card). A cursor past the end of its column
      makes the source fail with an index error, which changes nothing. */
  function ReserveCardUp(s: GameState): (r: GameState)
    requires WellFormed(s) && s.confirmed && s.orig.value == TopRow(0) && s.sel.Run?
    ensures WellFormed(r)
    ensures r == s.(zones := r.zones, sel := r.sel, outcome := r.outcome)
  {
    var z, tc, tr := s.zones, s.sel.col, s.sel.row;
    if tr >= |z.tableau[tc]| then s.(outcome := Fault)
    else
      var c := z.tableau[tc][tr];
      var z1 := z.(tableau := z.tableau[tc := RemoveAt(z.tableau[tc], tr)]);
      if tc <= 2 then
        s.(zones := PutBackOnReserve(z1, s.difficulty, c), sel := TopRow(0), outcome := BackToReserve)
      else
        var f := tc - 3;
        s.(zones := z1.(finals := z1.finals[f := z1.finals[f] + [c]],
                        active := if s.difficulty == Easy then None else z1.active),
           sel := TopRow(tc - 2))
  }

  /** A carried tableau or foundation card moved up from the tableau: a
      single card over columns 3 to 6 goes onto the foundation above; a run
      of several cards is refused. */
  function TableauCardUp(s: GameState): (r: GameState)
    requires WellFormed(s) && s.confirmed && s.sel.Run? && s.orig.value != TopRow(0)
    ensures WellFormed(r)
    ensures r == s.(zones := r.zones, sel := r.sel, outcome := r.outcome)
    ensures r.zones == s.zones.(tableau := r.zones.tableau, finals := r.zones.finals)
  {
    var z, o, tc, tr := s.zones, s.orig.value, s.sel.col, s.sel.row;
    var single := (o.Run? && o.len == 1) || IsFinalSlot(o);
    if !single then s.(outcome := SingleCardOnly)
    else if tr >= |z.tableau[tc]| then s.(outcome := CardNotFound)
    else if tc >= 3 then
      var c, f := z.tableau[tc][tr], tc - 3;
      s.(zones := z.(tableau := z.tableau[tc := RemoveAt(z.tableau[tc], tr)],
                     finals := z.finals[f := z.finals[f] + [c]]),
         sel := TopRow(tc - 2))
    else s
  }

  function CarryUp(s: GameState): (r: GameState)
    requires WellFormed(s) && s.confirmed
    ensures WellFormed(r)
  {
    if s.orig.value == TopRow(0) && s.sel.Run? then ReserveCardUp(s)
    else if s.sel.Run? then TableauCardUp(s)
    else s
  }

  /** Appends a card to column f + 3, the column under foundation f, and
      puts the cursor on it. */
  function DropBelowFoundation(s: GameState, f: int, c: Card): (r: GameState)
    requires WellFormed(s) && 0 <= f < FOUNDATIONS
    ensures WellFormed(r)
  {
    var col := s.zones.tableau[f + 3] + [c];
    s.(zones := s.zones.(tableau := s.zones.tableau[f + 3 := col]), sel := Run(f + 3, |col| - 1, 1))
  }

  /** When a carried card sitting on a foundation is moved down. */
  predicate OverFoundationWithCard(s: GameState)
    requires WellFormed(s) && s.confirmed
  {
    var o, t := s.orig.value, s.sel;
    (IsFinalSlot(o) && t == o) || (o.Run? && IsFinalSlot(t)) ||
    (o == TopRow(0) && IsFinalSlot(t) && s.zones.active.None?)
  }

  /** A carried card moved down from the top row to the column under it:
      the card in hand when it is over its own foundation, otherwise the
      card on top of the foundation under the cursor. */
  function FoundationCardDown(s: GameState): (r: GameState)
    requires WellFormed(s) && s.confirmed && OverFoundationWithCard(s)
    ensures WellFormed(r)
  {
    var o, t, f := s.orig.value, s.sel, s.zones.finals;
    if s.moving.Some? && IsFinalSlot(o) && Col(t) == o.slot then
      DropBelowFoundation(s.(moving := None), o.slot - 1, s.moving.value)
    else if IsFinalSlot(t) && f[t.slot - 1] != [] then
      var k, c := t.slot - 1, Last(f[t.slot - 1]);
      var s1 := s.(zones := s.zones.(finals := f[k := DropLast(f[k])]),
                   moving := if s.moving.Some? && SameCard(s.moving.value, c) then None else s.moving);
      DropBelowFoundation(s1, k, c)
    else s.(sel := TopRow(Col(t)), outcome := Error)
  }

  /** A carried card moved down: a reserve card still on the reserve goes to
      the end of column 0; a card on a foundation goes to the column under
      it. */
  function CarryDown(s: GameState): (r: GameState)
    requires WellFormed(s) && s.confirmed
    ensures WellFormed(r)
  {
    if s.orig.value == TopRow(0) && s.zones.active.Some? then
      var col := s.zones.tableau[0] + [s.zones.active.value];
      s.(zones := s.zones.(tableau := s.zones.tableau[0 := col], active := None), sel := Run(0, |col| - 1, 1))
    else if OverFoundationWithCard(s) then FoundationCardDown(s)
    else s
  }

  /** Whether the card above a run cursor is face up, so that up extends the
      run by one card. */
  predicate CanExtendUp(s: GameState)
    requires WellFormed(s)
  {
    var t, sel := s.zones.tableau, s.sel;
    sel.Run? && sel.row > 0 && sel.row - 1 < |t[sel.col]| && !t[sel.col][sel.row - 1].hidden
  }

  /** Moving the cursor up and down without a carried card: up grows a run by
      the face-up card above it; otherwise up leaves the tableau for the
      reserve (columns 0 to 2, when the reserve can be used) or for the
      foundation above (columns 3 to 6), down shrinks a run or leaves the
      top row for the last card of the column under it. */
  function BrowseVertical(s: GameState, up: bool): (r: GameState)
    requires WellFormed(s) && !s.confirmed
    ensures WellFormed(r)
    ensures r == s.(sel := r.sel)
  {
    var t, f, sel, canReserve := s.zones.tableau, s.zones.finals, s.sel, CanReachReserve(s);
    if up && CanExtendUp(s) then s.(sel := Run(sel.col, sel.row - 1, sel.len + 1))
    else if canReserve && up && sel.Run? && sel.col <= 2 then s.(sel := TopRow(0))
    else if canReserve && !up && sel == TopRow(0) then
      s.(sel := Run(0, if t[0] != [] then |t[0]| - 1 else 0, 1))
    else if sel.Run? then
      if up then
        if sel.col > 2 then
          if f[sel.col - 3] != [] then s.(sel := TopRow(sel.col - 2))
          else if canReserve then s.(sel := TopRow(0))
          else s
        // columns 0 to 2 with a usable reserve were handled above
        else s
      else if sel.len > 1 then s.(sel := Run(sel.col, sel.row + 1, sel.len - 1))
      else s
    else if !up && IsFinalSlot(sel) then
      var c := sel.slot + 2;
      s.(sel := Run(c, if t[c] != [] then |t[c]| - 1 else 0, 1))
    else s
  }

  /** extend_selection. Nothing happens once the game is over; the move
      counter, the history and whether a card is carried are never changed,
      and without a carried card no card moves. */
  function Extend(s: GameState, up: bool): (r: GameState)
    requires WellFormed(s)
    ensures WellFormed(r)
    ensures s.gameOver ==> r == s
    ensures r.history == s.history && r.moveCount == s.moveCount && r.gameOver == s.gameOver
    ensures r.confirmed == s.confirmed && r.orig == s.orig
    ensures !s.confirmed ==> r.zones == s.zones && r.moving == s.moving
  {
    if s.gameOver then s
    else
      var s0 := s.(outcome := Quiet);
      if !s.confirmed then BrowseVertical(s0, up)
      else if up then CarryUp(s0)
      else CarryDown(s0)
  }
}
