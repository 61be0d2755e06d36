/** The Game object: the zones, the cursor, the hand, the counters and the
    undo history as fields updated in place, the draw window as a
    three-slot array. Deal, refill, draw and the win test run the loops
    they run in the game; each method is proved against the value model
    (Deal, Table, Moves, Navigation), whose properties are proved there. */
module Pasjans {
  import opened Cards
  import opened Leaderboard
  import opened Supply
  import opened DrawThree
  import opened DrawThreeFacts
  import opened WindowSteps
  import opened Table
  import opened Deal
  import opened Navigation
  import opened Moves

  /** One round of the dealing loop of _generate_tableau_and_reserve:
      column i receives i + 1 cards from the deck counter on, all face down
      but the last, and dealing stops when the deck runs out. */
  method DealColumn(deck: seq<Face>, i: nat, counter: nat) returns (col: seq<Card>, next: nat)
    requires i < COLUMNS && counter == Min(ColumnStart(i), |deck|)
    ensures col == DealtColumn(deck, i) && next == Min(ColumnStart(i + 1), |deck|)
  {
    col, next := [], counter;
    ColumnStartStep(i + 1);
    var j := 0;
    while j < i + 1
      invariant 0 <= j <= i + 1 && j <= ColumnSize(deck, i)
      invariant next == counter + j && col == DealtColumn(deck, i)[..j]
    {
      if next < |deck| {
        assert DealtColumn(deck, i)[j] == DealtCard(deck, next, j != i);
        assert DealtColumn(deck, i)[..j + 1] == col + [DealtCard(deck, next, j != i)];
        col := col + [DealtCard(deck, next, j != i)];
        next := next + 1;
      } else {
        break;
      }
      j := j + 1;
    }
    assert j == ColumnSize(deck, i);
    assert col == DealtColumn(deck, i);
  }

  /** The dealing loop over the seven columns; the deck counter ends past
      the cards dealt. */
  method DealColumns(deck: seq<Face>) returns (t: seq<seq<Card>>, counter: nat)
    ensures t == DealtTableau(deck) && counter == Min(TABLEAU_CARDS, |deck|)
  {
    t, counter := [[], [], [], [], [], [], []], 0;
    for i := 0 to COLUMNS
      invariant |t| == COLUMNS && counter == Min(ColumnStart(i), |deck|)
      invariant forall k :: 0 <= k < i ==> t[k] == DealtColumn(deck, k)
      invariant forall k :: i <= k < COLUMNS ==> t[k] == []
    {
      var col;
      col, counter := DealColumn(deck, i, counter);
      t := t[i := col];
    }
    assert t == DealtTableau(deck);
  }

  class Game {
    var tableau: seq<seq<Card>>
    var finals: seq<seq<Card>>
    var stock: seq<Card>
    var waste1: seq<Card>
    var waste3: seq<Card>
    /** The three visible slots of the draw-three window. */
    const window: array<Option<Card>>
    var active: Option<Card>
    var sel: Selection
    var confirmed: bool
    var orig: Option<Selection>
    var moving: Option<Card>
    var moveCount: int
    var gameOver: bool
    var difficulty: Difficulty
    var firstRevealDone: bool
    var history: seq<Snapshot>
    var outcome: Outcome

    /** The zones as a value. */
    function Piles(): Zones
      reads this, window
    {
      Zones(tableau, finals, stock, waste1, waste3, window[..], active)
    }

    /** The whole game as a value. */
    function Model(): GameState
      reads this, window
    {
      GameState(Piles(), sel, confirmed, orig, moving, moveCount, gameOver, difficulty,
                firstRevealDone, history, outcome)
    }

    predicate Valid()
      reads this, window
    {
      window.Length == WINDOW_SLOTS && WellFormed(Model())
    }

    /** Sets the zones to the given ones. */
    method LoadZones(z: Zones)
      requires window.Length == WINDOW_SLOTS && |z.window| == WINDOW_SLOTS
      modifies window, this`tableau, this`finals, this`stock, this`waste1, this`waste3, this`active
      ensures Piles() == z
    {
      window[0] := z.window[0];
      window[1] := z.window[1];
      window[2] := z.window[2];
      assert window[..] == z.window;
      tableau, finals, stock := z.tableau, z.finals, z.stock;
      waste1, waste3, active := z.waste1, z.waste3, z.active;
    }

    /** Sets the cursor and the hand to those of the given game. */
    method LoadHand(g: GameState)
      modifies this`sel, this`confirmed, this`orig, this`moving
      ensures sel == g.sel && confirmed == g.confirmed && orig == g.orig && moving == g.moving
    {
      sel, confirmed, orig, moving := g.sel, g.confirmed, g.orig, g.moving;
    }

    /** Sets the counters, flags, history and message to those of the given
        game. */
    method LoadProgress(g: GameState)
      modifies this`moveCount, this`gameOver, this`difficulty, this`firstRevealDone, this`history, this`outcome
      ensures moveCount == g.moveCount && gameOver == g.gameOver && difficulty == g.difficulty
      ensures firstRevealDone == g.firstRevealDone && history == g.history && outcome == g.outcome
    {
      moveCount, gameOver, difficulty := g.moveCount, g.gameOver, g.difficulty;
      firstRevealDone, history, outcome := g.firstRevealDone, g.history, g.outcome;
    }

    /** Sets every field to the given game. */
    method Load(g: GameState)
      requires window.Length == WINDOW_SLOTS && |g.zones.window| == WINDOW_SLOTS
      modifies this, window
      ensures Model() == g
    {
      LoadZones(g.zones);
      LoadHand(g);
      LoadProgress(g);
    }

    /** A new game on the given deck: _initialize_game_state followed by
        _generate_tableau_and_reserve, which deals column i its i + 1 cards,
        all face down but the last, while the deck lasts, and puts the rest
        of the deck into the stock. */
    constructor (deck: seq<Face>, level: Difficulty)
      ensures Valid() && Model() == NewGame(deck, level)
    {
      var t, counter := DealColumns(deck);
      window := new Option<Card>[WINDOW_SLOTS][None, None, None];
      tableau := t;
      finals := [[], [], [], []];
      stock := seq(|deck| - counter, k requires 0 <= k < |deck| - counter => DealtCard(deck, counter + k, false));
      waste1, waste3, active := [], [], None;
      sel := DefaultCursor(t);
      confirmed, orig, moving := false, None, None;
      moveCount, gameOver, difficulty, firstRevealDone := 0, false, level, false;
      history, outcome := [], Quiet;
      new;
      assert window[..] == [None, None, None];
    }

    /** First step of the refill: empty the first slot holding the card
        just used, if it is in the window. */
    method ClearUsedSlot(used: Card)
      requires window.Length == WINDOW_SLOTS
      modifies window
      ensures window[..] == ClearFirst(old(window[..]), used.id)
    {
      ghost var w0 := window[..];
      var i := 0;
      while i < WINDOW_SLOTS
        invariant 0 <= i <= WINDOW_SLOTS && window[..] == w0
        invariant forall j :: 0 <= j < i ==> !Matches(w0[j], used.id)
      {
        if window[i].Some? && window[i].value.id == used.id {
          ClearFirstAt(w0, used.id, i);
          window[i] := None;
          assert window[..] == ClearFirst(w0, used.id);
          return;
        }
        i := i + 1;
      }
      ClearFirstMissing(w0, used.id);
    }

    /** The cards still in the window, left to right. */
    method CollectWindow() returns (cards: seq<Card>)
      requires window.Length == WINDOW_SLOTS
      ensures cards == Somes(window[..])
    {
      cards := [];
      for i := 0 to WINDOW_SLOTS
        invariant cards == Somes(window[..i])
      {
        SomesPrefix(window[..], i);
        if window[i].Some? {
          cards := cards + [window[i].value];
        }
      }
      assert window[..WINDOW_SLOTS] == window[..];
    }

    /** Clears the window and lays the kept cards into its rightmost slots,
        last card rightmost. */
    method PackRight(cards: seq<Card>)
      requires window.Length == WINDOW_SLOTS && |cards| <= WINDOW_SLOTS
      modifies window
      ensures window[..] == Filled([]) + Empty(WINDOW_SLOTS - |cards|) + Filled(cards)
    {
      window[0] := None;
      window[1] := None;
      window[2] := None;
      // The slot index goes down from 2 and never passes 0, as at most
      // three cards are kept.
      for n := 0 to |cards|
        invariant forall j :: 0 <= j < WINDOW_SLOTS ==>
          window[j] == if j < WINDOW_SLOTS - n then None else Some(cards[|cards| - WINDOW_SLOTS + j])
      {
        window[WINDOW_SLOTS - 1 - n] := Some(cards[|cards| - 1 - n]);
      }
      var m := WINDOW_SLOTS - |cards|;
      forall j | 0 <= j < WINDOW_SLOTS
        ensures window[j] == (Filled([]) + Empty(m) + Filled(cards))[j]
      {
        LayoutAt([], m, cards, j);
      }
    }

    /** One draw of the draw-three loops: the front of the stock; failing
        that, the waste goes into the stock and its front is drawn; failing
        that, nothing. The source checks again, after moving the waste,
        that the stock is empty and the waste is not, and that the stock is
        non-empty; both always hold there. */
    method NextCard() returns (next: Option<Card>)
      modifies this`stock, this`waste3
      ensures old(stock) != [] ==>
        next == Some(old(stock)[0]) && stock == old(stock)[1..] && waste3 == old(waste3)
      ensures old(stock) == [] && old(waste3) != [] ==>
        next == Some(old(waste3)[0]) && stock == old(waste3)[1..] && waste3 == []
      ensures old(stock) == [] && old(waste3) == [] ==> next.None? && stock == [] && waste3 == []
    {
      if stock != [] {
        next := Some(stock[0]);
        stock := stock[1..];
      } else if waste3 != [] {
        stock := waste3;
        waste3 := [];
        next := Some(stock[0]);
        stock := stock[1..];
      } else {
        next := None;
      }
    }

    /** A card drawn into slot i of the window. */
    method PutInSlot(i: nat, c: Card)
      requires window.Length == WINDOW_SLOTS && i < WINDOW_SLOTS
      modifies window
      ensures window[..] == old(window[..])[i := Some(c)]
    {
      window[i] := Some(c);
    }

    /** One round of the fill: draw the next card into the first free slot,
        slot i, or find that stock and waste are used up. */
    method DrawInto(i: nat, ghost drawn: seq<Card>, ghost m: nat, ghost cards: seq<Card>,
                    ghost s0: seq<Card>, ghost r0: seq<Card>) returns (placed: Option<Card>)
      requires window.Length == WINDOW_SLOTS && i == |drawn| < m && m + |cards| == WINDOW_SLOTS
      requires window[..] == Filled(drawn) + Empty(m - |drawn|) + Filled(cards)
      requires Take(s0, r0, |drawn|) == Drawn(drawn, stock, waste3)
      modifies window, this`stock, this`waste3
      ensures placed.Some? ==>
        && Take(s0, r0, |drawn| + 1) == Drawn(drawn + [placed.value], stock, waste3)
        && window[..] == Filled(drawn + [placed.value]) + Empty(m - |drawn| - 1) + Filled(cards)
      ensures placed.None? ==> Take(s0, r0, m) == Drawn(drawn, stock, waste3) && window[..] == old(window[..])
    {
      ghost var st, w := stock, waste3;
      placed := NextCard();
      DrawStep(s0, r0, |drawn|, drawn, st, w, placed, stock, waste3);
      if placed.None? {
        TakeStalls(s0, r0, |drawn|, m);
        return;
      }
      LayoutFill(drawn, m - |drawn|, cards, placed.value);
      PutInSlot(i, placed.value);
    }

    /** Fills the empty slots left of the kept cards, left to right, with
        cards drawn from the front of the stock, moving the waste into the
        stock when the stock runs out, until both are used up. */
    method FillFromStock(cards: seq<Card>) returns (ghost drawn: seq<Card>)
      requires window.Length == WINDOW_SLOTS && |cards| <= WINDOW_SLOTS
      requires window[..] == Filled([]) + Empty(WINDOW_SLOTS - |cards|) + Filled(cards)
      modifies window, this`stock, this`waste3
      ensures Take(old(stock), old(waste3), WINDOW_SLOTS - |cards|) == Drawn(drawn, stock, waste3)
      ensures window[..] == Filled(drawn) + Empty(WINDOW_SLOTS - |cards| - |drawn|) + Filled(cards)
    {
      ghost var s0, r0 := stock, waste3;
      ghost var m := WINDOW_SLOTS - |cards|;
      drawn := [];
      var i := 0;
      while i < WINDOW_SLOTS
        invariant 0 <= i <= WINDOW_SLOTS
        invariant |drawn| == if i < m then i else m
        invariant Take(s0, r0, |drawn|) == Drawn(drawn, stock, waste3)
        invariant window[..] == Filled(drawn) + Empty(m - |drawn|) + Filled(cards)
      {
        LayoutAt(drawn, m - |drawn|, cards, i);
        if window[i].None? {
          var placed := DrawInto(i, drawn, m, cards, s0, r0);
          if placed.None? {
            return;
          }
          drawn := drawn + [placed.value];
        }
        i := i + 1;
      }
    }

    /** The active card becomes the rightmost occupied slot. */
    method PickActive()
      requires window.Length == WINDOW_SLOTS
      modifies this`active
      ensures active == Rightmost(window[..])
    {
      RightmostOfThree(window[..]);
      if window[2].Some? {
        active := window[2];
      } else if window[1].Some? {
        active := window[1];
      } else if window[0].Some? {
        active := window[0];
      } else {
        active := None;
      }
    }

    /** The first half of the refill: empty the slot of the card just
        used and pack the remaining cards to the right. */
    method Compact(used: Option<Card>) returns (cards: seq<Card>)
      requires window.Length == WINDOW_SLOTS
      modifies window
      ensures cards == Kept(old(window[..]), used) && |cards| <= WINDOW_SLOTS
      ensures window[..] == Filled([]) + Empty(WINDOW_SLOTS - |cards|) + Filled(cards)
    {
      if used.Some? {
        ClearUsedSlot(used.value);
      }
      cards := CollectWindow();
      PackRight(cards);
    }

    /** The hard-level body of _refill_draw3_window: empty the slot of the
        card just used, pack the remaining cards to the right, fill the
        empty slots from the stock and the waste, and make the rightmost
        card active. */
    method RefillSteps(used: Option<Card>)
      requires window.Length == WINDOW_SLOTS
      modifies window, this`stock, this`waste3, this`active
      ensures Window(window[..], stock, waste3, active) == Refill(old(window[..]), old(stock), old(waste3), used)
    {
      ghost var w0, s0, r0 := window[..], stock, waste3;
      var cards := Compact(used);
      ghost var drawn := FillFromStock(cards);
      RefillFromSteps(w0, s0, r0, used, cards, Drawn(drawn, stock, waste3), window[..]);
      PickActive();
    }

    /** _refill_draw3_window: the refill on the hard level; on the easy
        level nothing happens. */
    method RefillWindow(used: Option<Card>)
      requires window.Length == WINDOW_SLOTS
      modifies window, this`stock, this`waste3, this`active
      ensures difficulty == Hard ==>
        Window(window[..], stock, waste3, active) == Refill(old(window[..]), old(stock), old(waste3), used)
      ensures difficulty == Easy ==>
        window[..] == old(window[..]) && stock == old(stock) && waste3 == old(waste3) && active == old(active)
    {
      if difficulty == Hard {
        RefillSteps(used);
      }
    }

    /** The draw-three reveal first moves the window's cards to the waste,
        rightmost first. */
    method RetireWindow()
      requires window.Length == WINDOW_SLOTS
      modifies this`waste3
      ensures waste3 == old(waste3) + Retire(window[..])
    {
      ghost var w0, r0 := window[..], waste3;
      var i := WINDOW_SLOTS;
      assert w0[..WINDOW_SLOTS] == w0;
      while i > 0
        invariant 0 <= i <= WINDOW_SLOTS
        invariant waste3 + Retire(w0[..i]) == r0 + Retire(w0)
      {
        RetirePrefix(w0, i);
        assert waste3 + Retire(w0[..i]) == waste3 + OptionToSeq(window[i - 1]) + Retire(w0[..i - 1]);
        if window[i - 1].Some? {
          waste3 := waste3 + [window[i - 1].value];
        }
        i := i - 1;
      }
      assert Retire(w0[..0]) == [];
    }

    /** Then it draws up to three cards from the front of the stock,
        moving the waste into the stock when the stock runs out. */
    method DrawUpToThree() returns (drawn: seq<Card>)
      modifies this`stock, this`waste3
      ensures Drawn(drawn, stock, waste3) == Take(old(stock), old(waste3), WINDOW_SLOTS)
    {
      ghost var s0, r0 := stock, waste3;
      drawn := [];
      var n := 0;
      while n < WINDOW_SLOTS
        invariant 0 <= n <= WINDOW_SLOTS && |drawn| == n
        invariant Take(s0, r0, n) == Drawn(drawn, stock, waste3)
      {
        ghost var st, w := stock, waste3;
        var next := NextCard();
        DrawStep(s0, r0, n, drawn, st, w, next, stock, waste3);
        if next.None? {
          TakeStalls(s0, r0, n, WINDOW_SLOTS);
          return;
        }
        drawn := drawn + [next.value];
        n := n + 1;
      }
    }

    /** The drawn cards go into the emptied window from the left. */
    method ShowDrawn(drawn: seq<Card>)
      requires window.Length == WINDOW_SLOTS && |drawn| <= WINDOW_SLOTS
      modifies window
      ensures window[..] == Filled(drawn) + Empty(WINDOW_SLOTS - |drawn|)
    {
      window[0] := None;
      window[1] := None;
      window[2] := None;
      for i := 0 to |drawn|
        invariant forall j :: 0 <= j < WINDOW_SLOTS ==> window[j] == if j < i then Some(drawn[j]) else None
      {
        window[i] := Some(drawn[i]);
      }
      forall j | 0 <= j < WINDOW_SLOTS
        ensures window[j] == (Filled(drawn) + Empty(WINDOW_SLOTS - |drawn|) + Filled([]))[j]
      {
        LayoutAt(drawn, WINDOW_SLOTS - |drawn|, [], j);
      }
      assert Filled(drawn) + Empty(WINDOW_SLOTS - |drawn|) + Filled([]) == Filled(drawn) + Empty(WINDOW_SLOTS - |drawn|);
    }

    /** The draw-three step of reveal_reserve_card: retire the window to
        the waste, draw up to three cards into the leftmost slots and refill
        the window. */
    method DrawThreeCards()
      requires window.Length == WINDOW_SLOTS && difficulty == Hard
      modifies window, this`stock, this`waste3, this`active
      ensures Window(window[..], stock, waste3, active) == Draw3(old(window[..]), old(stock), old(waste3))
    {
      RetireWindow();
      var drawn := DrawUpToThree();
      ShowDrawn(drawn);
      RefillWindow(None);
    }

    /** The draw-one step of reveal_reserve_card: the active card goes to
        the waste; an empty stock takes the waste back, reversed; the front
        of the stock becomes active. */
    method DrawOne()
      modifies this`stock, this`waste1, this`active
      ensures Pile(stock, waste1, active) == Draw1(old(Pile(stock, waste1, active)))
    {
      ghost var waste := waste1 + OptionToSeq(active);
      if active.Some? {
        waste1 := waste1 + [active.value];
        active := None;
      }
      assert waste1 == waste;
      if stock == [] && waste1 != [] {
        stock := Reverse(waste1);
        waste1 := [];
      }
      if stock != [] {
        active := Some(stock[0]);
        stock := stock[1..];
      }
    }

    /** _save_state_for_undo: push a snapshot onto the history, which keeps
        the three most recent. */
    method SaveStateForUndo()
      requires Valid()
      modifies this`history
      ensures Valid() && Model() == SaveForUndo(old(Model()))
    {
      if gameOver {
        return;
      }
      history := Push(history, Snapshot(Piles(), moveCount, firstRevealDone));
    }

    /** The draw itself, by level, and the report when no card is left to
        show. */
    method DrawAndReport()
      requires window.Length == WINDOW_SLOTS && ZonesShape(Piles())
      modifies window, this`stock, this`waste1, this`waste3, this`active, this`outcome
      ensures if difficulty == Easy then
          Piles() == RevealOne(old(Piles())) && outcome == if active.None? then NoCardsLeft else Quiet
        else
          && Piles() == RevealThree(old(Piles()))
          && outcome == if active.None? && stock == [] && waste3 == [] then NoCardsLeft else Quiet
    {
      ghost var z0 := Piles();
      outcome := Quiet;
      if difficulty == Easy {
        DrawOne();
        assert Piles() == RevealOne(z0);
        if active.None? {
          outcome := NoCardsLeft;
        }
      } else {
        DrawThreeCards();
        assert Piles() == RevealThree(z0);
        if active.None? && stock == [] && waste3 == [] {
          outcome := NoCardsLeft;
        }
      }
    }

    /** The bookkeeping before a draw: save for undo and count the draw. */
    method StartDraw()
      requires Valid() && !gameOver
      modifies this`history, this`firstRevealDone, this`moveCount, this`outcome
      ensures Valid() && ZonesShape(Piles())
      ensures Model() == SaveForUndo(old(Model())).(firstRevealDone := true, moveCount := old(moveCount) + 1, outcome := Quiet)
    {
      SaveStateForUndo();
      firstRevealDone := true;
      moveCount := moveCount + 1;
      outcome := Quiet;
    }

    /** reveal_reserve_card. */
    method RevealReserveCard()
      requires Valid()
      modifies this, window
      ensures Valid() && Model() == Reveal(old(Model()))
    {
      if gameOver {
        return;
      }
      if confirmed {
        outcome := FinishMove;
        return;
      }
      DrawFromReserve();
    }

    /** Puts the cursor on the reserve. */
    method PointAtReserve()
      modifies this`sel
      ensures Model() == old(Model()).(sel := TopRow(0))
    {
      sel := TopRow(0);
    }

    /** The draw proper, when the game is on and nothing is in hand. */
    method DrawFromReserve()
      requires Valid() && !gameOver && !confirmed
      modifies this, window
      ensures Valid() && Model() == Reveal(old(Model()))
    {
      StartDraw();
      DrawToReserve();
    }

    /** The draw by level after the bookkeeping. */
    method DrawToReserve()
      requires Valid()
      modifies window, this`stock, this`waste1, this`waste3, this`active, this`outcome, this`sel
      ensures Valid() && Model() == DrawByLevel(old(Model()))
    {
      ghost var s1 := Model();
      DrawAndReport();
      assert Model() == s1.(zones := Piles(), outcome := outcome);
      PointAtReserve();
    }

    /** _check_win_condition. A game already over answers true at once.
        Otherwise the foundations are checked one by one, and the first
        that does not hold thirteen cards with a King on top answers false;
        when all four do, the game ends with the winning message and the
        answer is true. */
    method CheckWinCondition() returns (over: bool)
      requires Valid()
      modifies this`gameOver, this`outcome
      ensures Valid() && Model() == WinCheck(old(Model()))
      ensures over <==> gameOver
    {
      if gameOver {
        return true;
      }
      over := false;
      for k := 0 to |finals|
        invariant forall j :: 0 <= j < k ==> |finals[j]| == RANK_COUNT && Last(finals[j]).rank == KING
      {
        if |finals[k]| != RANK_COUNT {
          return;
        }
        if Last(finals[k]).rank != KING {
          return;
        }
      }
      gameOver := true;
      outcome := Won;
      over := true;
    }

    /** The zones of _restore_state_from_undo: each pile rebuilt from the
        snapshot (stock and wastes face up), the window slot by slot, and
        the active card. */
    method RestoreZones(z: Zones)
      requires window.Length == WINDOW_SLOTS && |z.window| == WINDOW_SLOTS
      modifies window, this`tableau, this`finals, this`stock, this`waste1, this`waste3, this`active
      ensures Piles() == RestoredZones(z)
    {
      tableau, finals := z.tableau, z.finals;
      stock, waste1, waste3 := Unhide(z.stock), Unhide(z.waste1), Unhide(z.waste3);
      for i := 0 to WINDOW_SLOTS
        modifies window
        invariant window[..i] == z.window[..i]
      {
        window[i] := z.window[i];
      }
      assert window[..] == window[..WINDOW_SLOTS] && z.window == z.window[..WINDOW_SLOTS];
      active := z.active;
    }

    /** The end of _restore_state_from_undo: the first-draw flag comes
        back, the cursor goes to its starting place and nothing is
        carried. */
    method ResetCursor(flag: bool)
      requires |tableau| == COLUMNS
      modifies this`firstRevealDone, this`sel, this`confirmed, this`orig, this`moving, this`outcome
      ensures firstRevealDone == flag && sel == DefaultCursor(tableau)
      ensures !confirmed && orig.None? && moving.None? && outcome == Undone
    {
      firstRevealDone := flag;
      if |tableau[1]| > 1 {
        sel := Run(1, 1, 1);
      } else {
        sel := Run(0, 0, 1);
      }
      confirmed, orig, moving := false, None, None;
      outcome := Undone;
    }

    /** _restore_state_from_undo. The move counter and the history are
        left alone. */
    method RestoreStateFromUndo(snap: Snapshot)
      requires Valid() && ZonesShape(snap.zones)
      modifies this, window
      ensures Valid() && Model() == Restore(old(Model()), snap)
    {
      ghost var s0 := Model();
      RestoreZones(snap.zones);
      ResetCursor(snap.firstRevealDone);
      assert Model() == Restore(s0, snap);
    }

    /** undo_last_move. */
    method UndoLastMove()
      requires Valid()
      modifies this, window
      ensures Valid() && Model() == Undo(old(Model()))
    {
      if gameOver {
        return;
      }
      if confirmed {
        outcome := FinishOrCancel;
        return;
      }
      if history != [] {
        var last := Last(history);
        history := DropLast(history);
        RestoreStateFromUndo(last);
      } else {
        outcome := NothingToUndo;
      }
    }

    /** move_selection_horizontal: carrying a card or a run sideways, or
        moving the cursor. */
    method MoveSelectionHorizontal(right: bool)
      requires Valid()
      modifies this, window
      ensures Valid() && Model() == MoveHorizontal(old(Model()), right)
    {
      Load(MoveHorizontal(Model(), right));
    }

    /** extend_selection: growing or shrinking a run, carrying a card up or
        down, or moving the cursor between the rows. */
    method ExtendSelection(up: bool)
      requires Valid()
      modifies this, window
      ensures Valid() && Model() == Extend(old(Model()), up)
    {
      Load(Extend(Model(), up));
    }

    /** confirm_selection: a pickup without a card in hand, a drop with
        one. */
    method ConfirmSelection()
      requires Valid()
      modifies this, window
      ensures Valid() && Model() == Confirm(old(Model()))
    {
      if gameOver {
        return;
      }
      ClearMessage();
      if !confirmed {
        Load(Pickup(Model()));
        return;
      }
      DropSelection();
    }

    /** The message shown after the last key is cleared as this key starts. */
    method ClearMessage()
      requires Valid()
      modifies this`outcome
      ensures Valid() && Model() == old(Model()).(outcome := Quiet)
    {
      outcome := Quiet;
    }

    /** The second Enter: the drop and its bookkeeping, then the win test,
        which ends the key at once on a win; otherwise the hand is
        emptied. */
    method DropSelection()
      requires Valid() && !gameOver && confirmed
      modifies this, window
      ensures Valid() && Model() == FinishDrop(DropAt(old(Model())))
    {
      Load(CountDrop(DropAt(Model())));
      var won := CheckWinCondition();
      if won {
        return;
      }
      EmptyHand();
    }

    /** Empties the hand once a drop has not won the game. */
    method EmptyHand()
      requires Valid()
      modifies this`confirmed, this`orig, this`moving
      ensures Valid() && Model() == old(Model()).(confirmed := false, orig := None, moving := None)
    {
      confirmed, orig, moving := false, None, None;
    }

    /** cancel_selection: the carried card goes back where it came from. */
    method CancelSelection()
      requires Valid()
      modifies this, window
      ensures Valid() && Model() == Cancel(old(Model()))
    {
      Load(Cancel(Model()));
    }
  }
}
