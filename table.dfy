/** The state of a game of patience, as a value: the card zones, the
    cursor and what is being carried, the move counter, the flags and the
    undo history. The class Game in module Pasjans holds the same state in
    fields; this module and the ones built on it say what each operation
    does to it.

    Selections. The cursor is a list of (column, row) coordinates. In the
    top row it is the single pair (slot, -1): slot 0 is the reserve (the
    stock and its active card), slots 1 to 4 are the foundation piles 0 to
    3. In the tableau it is a run of consecutive rows of one column, listed
    from the lowest row up; `Run(col, row, len)` stands for the rows
    row, row + 1, ..., row + len - 1. Two cursors are equal exactly when the
    coordinate lists are equal. */
module Table {
  import opened Cards
  import opened Leaderboard
  import opened Supply
  import opened DrawThree

  const COLUMNS: int := 7
  const FOUNDATIONS: int := 4
  const WINDOW_SLOTS: int := 3
  const MAX_UNDO_HISTORY: int := 3

  datatype Selection = TopRow(slot: int) | Run(col: int, row: int, len: int)

  /** The message an operation leaves for the player, as a tag. */
  datatype Outcome =
    | Quiet               // no message
    | CannotPickUp        // nothing that may be picked up under the cursor
    | IllegalPlacement    // the placement rules refuse the drop
    | Error               // a drop target without the expected card
    | SingleCardOnly      // only a single card goes up to a foundation this way
    | CardNotFound        // the cursor points past the end of its column
    | BackToReserve       // a reserve card was carried back over the reserve
    | SelectionCleared    // a card was dropped where it was picked up
    | InvalidMove         // a drop that matches no kind of move
    | Won                 // all four foundations are complete
    | Cancelled           // the carried card went back where it came from
    | Undone              // a snapshot was restored
    | NothingToUndo       // undo with an empty history
    | FinishMove          // a draw while a card is carried
    | FinishOrCancel      // an undo while a card is carried
    | NoCardsLeft         // a draw found no card in stock or waste
    | Fault               // the source indexes past the end of a column here

  /** The zones that hold cards, which is what an undo snapshot saves. */
  datatype Zones = Zones(
    tableau: seq<seq<Card>>,
    finals: seq<seq<Card>>,
    stock: seq<Card>,
    waste1: seq<Card>,
    waste3: seq<Card>,
    window: seq<Option<Card>>,
    active: Option<Card>)

  /** An undo snapshot: the zones, the move counter and the first-draw flag. */
  datatype Snapshot = Snapshot(zones: Zones, moveCount: int, firstRevealDone: bool)

  datatype GameState = GameState(
    zones: Zones,
    sel: Selection,
    confirmed: bool,
    orig: Option<Selection>,
    moving: Option<Card>,
    moveCount: int,
    gameOver: bool,
    difficulty: Difficulty,
    firstRevealDone: bool,
    history: seq<Snapshot>,
    outcome: Outcome)

  predicate ZonesShape(z: Zones) {
    |z.tableau| == COLUMNS && |z.finals| == FOUNDATIONS && |z.window| == WINDOW_SLOTS
  }

  /** A cursor the operations can act on: a top-row slot, or a non-empty run
      in one of the seven columns. */
  predicate SelOk(s: Selection) {
    match s
    case TopRow(k) => 0 <= k <= FOUNDATIONS
    case Run(c, r, n) => 0 <= c < COLUMNS && 0 <= r && 1 <= n
  }

  /** The shape every operation keeps: seven columns, four foundations,
      three window slots, a usable cursor, an origin exactly while a card is
      carried, nothing in hand otherwise, and at most three snapshots. */
  predicate WellFormed(s: GameState) {
    && ZonesShape(s.zones)
    && SelOk(s.sel)
    && (s.confirmed ==> s.orig.Some? && SelOk(s.orig.value))
    && (!s.confirmed ==> s.orig.None? && s.moving.None?)
    && |s.history| <= MAX_UNDO_HISTORY
    && forall i :: 0 <= i < |s.history| ==> ZonesShape(s.history[i].zones)
  }

  predicate IsFinalSlot(s: Selection) {
    s.TopRow? && 1 <= s.slot <= FOUNDATIONS
  }

  predicate IsReserve(s: Selection) {
    s == TopRow(0)
  }

  /** The cursor after a deal or an undo: the second card of column 1 when
      that column has more than one card, otherwise the top of column 0. */
  function DefaultCursor(tableau: seq<seq<Card>>): (s: Selection)
    requires |tableau| == COLUMNS
    ensures SelOk(s) && s.Run? && s.len == 1
    ensures s.col == 1 <==> |tableau[1]| > 1
  {
    if |tableau[1]| > 1 then Run(1, 1, 1) else Run(0, 0, 1)
  }

  /** The undo history is a deque of at most three snapshots: pushing onto
      a full one drops the oldest. */
  function Push(h: seq<Snapshot>, x: Snapshot): (r: seq<Snapshot>)
    requires |h| <= MAX_UNDO_HISTORY
    ensures |r| <= MAX_UNDO_HISTORY && r != [] && Last(r) == x
    ensures |h| < MAX_UNDO_HISTORY ==> r == h + [x]
    ensures |h| == MAX_UNDO_HISTORY ==> r == h[1..] + [x]
  {
    if |h| == MAX_UNDO_HISTORY then h[1..] + [x] else h + [x]
  }

  /** _save_state_for_undo: push a snapshot of the zones, the move counter
      and the first-draw flag, unless the game is over. */
  function SaveForUndo(s: GameState): (r: GameState)
    requires WellFormed(s)
    ensures WellFormed(r)
  {
    if s.gameOver then s
    else s.(history := Push(s.history, Snapshot(s.zones, s.moveCount, s.firstRevealDone)))
  }

  /** Drops the most recent snapshot, if any. */
  function PopHistory(s: GameState): (r: GameState)
    requires WellFormed(s)
    ensures WellFormed(r)
    ensures r.history == if s.history == [] then [] else DropLast(s.history)
    ensures r == s.(history := r.history)
  {
    if s.history == [] then s else s.(history := DropLast(s.history))
  }

  function Unhide(cs: seq<Card>): (r: seq<Card>)
    ensures |r| == |cs|
  {
    if cs == [] then [] else [cs[0].(hidden := false)] + Unhide(cs[1..])
  }

  /** The zones an undo rebuilds from a snapshot: every card as saved, except
      that the stock and both wastes come back face up. */
  function RestoredZones(z: Zones): (r: Zones) {
    z.(stock := Unhide(z.stock), waste1 := Unhide(z.waste1), waste3 := Unhide(z.waste3))
  }

  /** _restore_state_from_undo: rebuild the zones and the first-draw flag,
      put the cursor back to its starting place and drop whatever is
      carried. The move counter is left as it is. */
  function Restore(s: GameState, snap: Snapshot): (r: GameState)
    requires WellFormed(s) && ZonesShape(snap.zones)
    ensures WellFormed(r)
    ensures r.zones == RestoredZones(snap.zones)
  {
    s.(zones := RestoredZones(snap.zones),
       firstRevealDone := snap.firstRevealDone,
       sel := DefaultCursor(snap.zones.tableau),
       confirmed := false, orig := None, moving := None,
       outcome := Undone)
  }

  /** The window slot a card returned to the reserve goes into: none if
      the card is already in the window, otherwise the rightmost empty slot,
      or the rightmost slot when all three are taken. */
  function PlaceInWindow(w: seq<Option<Card>>, c: Card): (r: seq<Option<Card>>)
    requires |w| == WINDOW_SLOTS
    ensures |r| == WINDOW_SLOTS
    ensures FirstWithId(w, c.id).Some? ==> r == w
    ensures FirstWithId(w, c.id).None? ==>
      exists i :: 0 <= i < WINDOW_SLOTS && r == w[i := Some(c)] && (w[i].None? || i == 2) &&
        forall j :: i < j < WINDOW_SLOTS ==> w[j].Some?
  {
    if FirstWithId(w, c.id).Some? then w
    else if w[2].None? then w[2 := Some(c)]
    else if w[1].None? then w[1 := Some(c)]
    else if w[0].None? then w[0 := Some(c)]
    else w[2 := Some(c)]
  }

  /** The refill of the draw window, which only the hard level has. */
  function RefillIfHard(z: Zones, d: Difficulty, used: Option<Card>): (r: Zones)
    requires ZonesShape(z)
    ensures ZonesShape(r)
    ensures r.tableau == z.tableau && r.finals == z.finals && r.waste1 == z.waste1
    ensures d == Easy ==> r == z
  {
    if d == Hard then
      var w := Refill(z.window, z.stock, z.waste3, used);
      z.(window := w.slots, stock := w.stock, waste3 := w.waste, active := w.active)
    else z
  }

  /** A reserve card coming back: it becomes the active card again; on the
      hard level it is also put back into the window, which is refilled. */
  function PutBackOnReserve(z: Zones, d: Difficulty, c: Card): (r: Zones)
    requires ZonesShape(z)
    ensures ZonesShape(r)
    ensures r.tableau == z.tableau && r.finals == z.finals && r.waste1 == z.waste1
    ensures d == Easy ==> r == z.(active := Some(c))
  {
    if d == Hard then
      RefillIfHard(z.(active := Some(c), window := PlaceInWindow(z.window, c)), d, None)
    else z.(active := Some(c))
  }

  /** Whether the cursor may go up to the reserve: after the first draw,
      when there is an active card or, on the hard level, a card in the
      window. */
  predicate CanReachReserve(s: GameState)
    requires ZonesShape(s.zones)
  {
    s.firstRevealDone &&
    (s.zones.active.Some? || (s.difficulty == Hard && Somes(s.zones.window) != []))
  }

  /** The first index from i on, stepping by d, whose pile is not empty. */
  function Seek(piles: seq<seq<Card>>, i: int, d: int): (r: Option<int>)
    requires d == 1 || d == -1
    ensures r.Some? ==> 0 <= r.value < |piles| && piles[r.value] != []
    decreases if d == 1 then |piles| - i else i + 1
  {
    if !(0 <= i < |piles|) then None
    else if piles[i] != [] then Some(i)
    else Seek(piles, i + d, d)
  }

  /** Whether index j lies from i on in direction d. */
  predicate Ahead(i: int, j: int, d: int) {
    if d == 1 then i <= j else j <= i
  }

  /** Seek finds the nearest non-empty pile in its direction, and finds
      none only when every pile in that direction is empty. */
  lemma {:induction false} SeekFindsNearest(piles: seq<seq<Card>>, i: int, d: int)
    requires d == 1 || d == -1
    requires d == 1 ==> 0 <= i
    requires d == -1 ==> i < |piles|
    ensures var r := Seek(piles, i, d);
      && (r.Some? ==>
            0 <= r.value < |piles| && piles[r.value] != [] && Ahead(i, r.value, d) &&
            forall j :: 0 <= j < |piles| && Ahead(i, j, d) && j != r.value && Ahead(j, r.value, d) ==> piles[j] == [])
      && (r.None? ==> forall j :: 0 <= j < |piles| && Ahead(i, j, d) ==> piles[j] == [])
    decreases if d == 1 then |piles| - i else i + 1
  {
    if 0 <= i < |piles| && piles[i] == [] {
      SeekFindsNearest(piles, i + d, d);
    }
  }

  /** Removes the card at index k, as list.pop(k). */
  function RemoveAt(s: seq<Card>, k: int): (r: seq<Card>)
    requires 0 <= k < |s|
    ensures |r| == |s| - 1
    ensures multiset(r) + multiset{s[k]} == multiset(s)
  {
    assert s == s[..k] + [s[k]] + s[k + 1..];
    s[..k] + s[k + 1..]
  }

  /** Inserts a card before index k, as list.insert(k, c) for 0 <= k <= len. */
  function InsertAt(s: seq<Card>, k: int, c: Card): (r: seq<Card>)
    requires 0 <= k <= |s|
    ensures |r| == |s| + 1 && r[k] == c
    ensures RemoveAt(r, k) == s
  {
    assert (s[..k] + [c] + s[k..])[..k] == s[..k];
    assert (s[..k] + [c] + s[k..])[k + 1..] == s[k..];
    s[..k] + [c] + s[k..]
  }

  /** The card a column shows face up on its last position, flipped if it
      was face down (the turn-over after cards leave a column). */
  function FlipLast(col: seq<Card>): (r: seq<Card>)
    ensures |r| == |col|
    ensures col != [] ==> DropLast(r) == DropLast(col) && Last(r) == Last(col).(hidden := false)
    ensures col == [] ==> r == []
  {
    if col != [] && Last(col).hidden then DropLast(col) + [Last(col).(hidden := false)] else col
  }

  /** All the cards of a list of piles, pile after pile. */
  function Flatten(piles: seq<seq<Card>>): (cs: seq<Card>)
    ensures piles == [] ==> cs == []
  {
    if piles == [] then [] else Flatten(DropLast(piles)) + Last(piles)
  }

  lemma {:induction false} FlattenAppend(piles: seq<seq<Card>>, p: seq<Card>)
    ensures Flatten(piles + [p]) == Flatten(piles) + p
  {
    assert DropLast(piles + [p]) == piles;
  }

  /** Replacing one pile changes the cards of all piles by exactly the cards
      that pile loses and gains. */
  lemma {:induction false} FlattenUpdate(piles: seq<seq<Card>>, i: int, p: seq<Card>)
    requires 0 <= i < |piles|
    ensures multiset(Flatten(piles[i := p])) + multiset(piles[i]) == multiset(Flatten(piles)) + multiset(p)
  {
    var q := piles[i := p];
    if i == |piles| - 1 {
      assert DropLast(q) == DropLast(piles);
    } else {
      FlattenUpdate(DropLast(piles), i, p);
      assert DropLast(q) == DropLast(piles)[i := p];
      assert Last(q) == Last(piles);
      assert Flatten(q) == Flatten(DropLast(q)) + Last(q);
      assert Flatten(piles) == Flatten(DropLast(piles)) + Last(piles);
      assert DropLast(piles)[i] == piles[i];
      var a, b, c := Flatten(DropLast(q)), Flatten(DropLast(piles)), Last(piles);
      assert multiset(a) + multiset(piles[i]) == multiset(b) + multiset(p);
      forall x | true
        ensures (multiset(a + c) + multiset(piles[i]))[x] == (multiset(b + c) + multiset(p))[x]
      {
        assert (multiset(a) + multiset(piles[i]))[x] == (multiset(b) + multiset(p))[x];
      }
      assert multiset(a + c) + multiset(piles[i]) == multiset(b + c) + multiset(p);
    }
  }

  /** The column a run sits in, or the top-row slot: the first coordinate. */
  function Col(sel: Selection): int {
    if sel.TopRow? then sel.slot else sel.col
  }

  /** _undo_failed_tableau_move: take the carried run out of the column it
      sits in and put it back on top of the column it came from; the cursor
      goes back to where the run was picked up. When the cursor does not
      cover cards of its column, only the cursor goes back. */
  function UndoFailedTableauMove(s: GameState): (r: GameState)
    requires WellFormed(s) && s.confirmed && s.sel.Run? && s.orig.value.Run?
    ensures WellFormed(r)
    ensures r.sel == s.orig.value
    ensures r == s.(zones := r.zones, sel := r.sel)
    ensures r.zones == s.zones.(tableau := r.zones.tableau)
  {
    var t := s.zones.tableau;
    var c, row, n := s.sel.col, s.sel.row, s.sel.len;
    if row + n <= |t[c]| then
      var run := t[c][row..row + n];
      var t1 := t[c := t[c][..row] + t[c][row + n..]];
      var oc := s.orig.value.col;
      s.(zones := s.zones.(tableau := t1[oc := t1[oc] + run]), sel := s.orig.value)
    else
      s.(sel := s.orig.value)
  }

  /** A column split around a run: the cards below it, the run, the cards
      above it. */
  lemma RunSplit(col: seq<Card>, row: int, n: int)
    requires 0 <= row && 0 <= n && row + n <= |col|
    ensures multiset(col[..row] + col[row + n..]) + multiset(col[row..row + n]) == multiset(col)
  {
    assert col == col[..row] + col[row..row + n] + col[row + n..];
  }

  /** Taking a run out of one column and appending it to another column
      neither loses nor creates a card of the tableau. */
  lemma MoveRunConserves(t: seq<seq<Card>>, c: int, row: int, n: int, oc: int)
    requires 0 <= c < |t| && 0 <= oc < |t| && 0 <= row && 0 <= n && row + n <= |t[c]|
    ensures var t1 := t[c := t[c][..row] + t[c][row + n..]];
      multiset(Flatten(t1[oc := t1[oc] + t[c][row..row + n]])) == multiset(Flatten(t))
  {
    var run := t[c][row..row + n];
    var rest := t[c][..row] + t[c][row + n..];
    var t1 := t[c := rest];
    RunSplit(t[c], row, n);
    FlattenUpdate(t, c, rest);
    FlattenUpdate(t1, oc, t1[oc] + run);
    var a, b := multiset(Flatten(t1)), multiset(Flatten(t1[oc := t1[oc] + run]));
    assert a + multiset(t[c]) == multiset(Flatten(t)) + multiset(rest);
    assert b + multiset(t1[oc]) == a + multiset(t1[oc] + run);
    forall x | true
      ensures b[x] == multiset(Flatten(t))[x]
    {
      assert (a + multiset(t[c]))[x] == (multiset(Flatten(t)) + multiset(rest))[x];
      assert (b + multiset(t1[oc]))[x] == (a + multiset(t1[oc] + run))[x];
      assert (multiset(rest) + multiset(run))[x] == multiset(t[c])[x];
    }
  }

  /** A rejected tableau-to-tableau drop loses and duplicates no card, and
      the run is on top of its origin column again. */
  lemma UndoFailedConserves(s: GameState)
    requires WellFormed(s) && s.confirmed && s.sel.Run? && s.orig.value.Run?
    ensures var r := UndoFailedTableauMove(s);
      && multiset(Flatten(r.zones.tableau)) == multiset(Flatten(s.zones.tableau))
      && (s.sel.row + s.sel.len <= |s.zones.tableau[s.sel.col]| ==>
            var oc := s.orig.value.col;
            var moved := r.zones.tableau[oc];
            |moved| >= s.sel.len &&
            moved[|moved| - s.sel.len..] == s.zones.tableau[s.sel.col][s.sel.row..s.sel.row + s.sel.len])
  {
    var t := s.zones.tableau;
    var c, row, n := s.sel.col, s.sel.row, s.sel.len;
    var r := UndoFailedTableauMove(s);
    if row + n <= |t[c]| {
      var oc := s.orig.value.col;
      var run := t[c][row..row + n];
      var t1 := t[c := t[c][..row] + t[c][row + n..]];
      assert r.zones.tableau == t1[oc := t1[oc] + run];
      MoveRunConserves(t, c, row, n, oc);
      EndsWith(t1[oc], run);
    } else {
      assert r.zones.tableau == t;
    }
  }

  lemma EndsWith(a: seq<Card>, b: seq<Card>)
    ensures (a + b)[|a + b| - |b|..] == b
  {
  }

  /** The win test: every foundation holds thirteen cards with a King on
      top. */
  predicate AllComplete(finals: seq<seq<Card>>) {
    forall i :: 0 <= i < |finals| ==> |finals[i]| == RANK_COUNT && Last(finals[i]).rank == KING
  }

  /** The logic of _check_win_condition: a finished game stays finished;
      otherwise the game ends, with the winning message, exactly when all
      foundations are complete. Nothing else changes. */
  function WinCheck(s: GameState): (r: GameState)
    ensures r.gameOver <==> s.gameOver || AllComplete(s.zones.finals)
    ensures !s.gameOver && r.gameOver ==> r.outcome == Won
    ensures r == s.(gameOver := r.gameOver, outcome := r.outcome)
    ensures s.gameOver || !r.gameOver ==> r == s
  {
    if s.gameOver then s
    else if AllComplete(s.zones.finals) then s.(gameOver := true, outcome := Won)
    else s
  }
}
