# Pasjans: a model of the Klondike engine

`pasjans.py` is a terminal game of Klondike patience. Its engine is the
class `Game`. It holds seven tableau columns, four foundation piles (the
"final stacks"), a reserve made of a stock, a waste pile and an active card,
a cursor over the table, the card or run being carried, a move counter and an
undo history of at most three snapshots. The player moves the cursor and
carries cards with the arrow keys, and picks up and drops with Enter. Esc
cancels a carried card, S draws from the reserve and C undoes.

The game has two levels:

- **Easy** draws one card. The waste is turned over in reverse order when
  the stock runs out.
- **Hard** shows three cards in a three-slot window, and the rightmost
  occupied slot is the active card. The waste goes back into the stock in
  its own order. After every use of the active card the window is compacted
  and refilled.

This project models that engine in two layers.

- **The value model** states what each operation does to the whole game as
  a `GameState` value:
  - `Cards`: cards and colours.
  - `Rules`: the foundation and tableau placement rules.
  - `Leaderboard`: the score order.
  - `Supply`: drawing from stock and waste, and the draw-one step.
  - `DrawThree` and `DrawThreeFacts`: the window, its refill and the
    draw-three step.
  - `Table`: the state, undo snapshots, the history, the win test and the
    undo of a failed tableau move.
  - `Deal`: the deal.
  - `Navigation`: the arrow keys.
  - `Moves`: Enter, Esc, S and C.
  - `Theorems`: lemmas that relate several operations.
  - `Findings`: the undo and card-identity defect below.
- **The class `Pasjans.Game`** keeps the same state in fields updated in
  place, with the window as a three-slot array.
  - The deal, the window refill, the draw-three step, the win test and the
    restore run the loops the game runs.
  - Each method ensures that the new state, read back as a value
    (`Model()`), is the value-model operation applied to the old one.

Card identity matters in the source: it finds the card just played in the
window with `is`. Every card therefore carries an `id`. The deal gives card k
of the deck the id k. Until the first undo, two cards are the same card
object exactly when their ids agree. An undo in the game builds every card
anew, so after it no restored card is the object it was before. The value
model's undo keeps the ids instead; `Findings.RestoreAsWritten` models the
rebuild, and "## Findings" shows what it breaks.

## Model

| member | source | states |
|---|---|---|
| Cards.IsRed | pasjans.py:25-26 | A card is red exactly when it is neither a spade nor a club |
| Rules.CanPlaceOnFinal | pasjans.py:489-505 | A card may go on an empty foundation iff it is an Ace, and on a non-empty one iff it has the top card's suit and the next rank; a missing card is refused |
| Rules.FoundationRanks | pasjans.py:489-505 | On a pile built by the foundation rule, the card at height i has rank i |
| Rules.FoundationPlacement | pasjans.py:489-505 | The placement rule accepts a card exactly when the pile with that card on top is again a valid foundation pile |
| Rules.CompletePileEndsWithKing | pasjans.py:704-708 | A complete foundation pile of thirteen cards has a King on top, which is what the win test checks |
| Rules.AcceptsAt | pasjans.py:963-977 | A card landing at a row of a column is accepted iff it is a King at the bottom of the column, or the card beneath is face up, of the other colour and one rank higher |
| Leaderboard.KeyOrderIsTotalPreorder | pasjans.py:83-87 | The leaderboard key order is reflexive, total and transitive, so the sort is well defined |
| Leaderboard.LeaderboardOrder | pasjans.py:83-87 | Fewer moves rank first; on equal moves hard ranks before easy; an entry without a move count ranks last; and nothing else ranks one entry strictly before another |
| Supply.TakeKeepsOrder | pasjans.py:756-771 | The drawing loop never reorders: cards drawn, then stock, then waste, read as the old stock followed by the old waste |
| Supply.TakeCount | pasjans.py:756-771 | The drawing loop draws n cards unless fewer are left in stock and waste together |
| Supply.TakeLeavesWaste | pasjans.py:756-771 | While the stock lasts the waste is untouched; once the stock runs out, the waste has been moved into it |
| Supply.TakeSpec | pasjans.py:756-771 | The three facts above together |
| Supply.TakeConserves | pasjans.py:756-771 | Drawing neither loses nor creates a card |
| Supply.TakePrefix | pasjans.py:756-771 | The cards drawn are the first ones of the stock followed by the waste |
| Supply.TakeExhausts | pasjans.py:756-771 | Drawing stops short only when stock and waste are both empty |
| Supply.TakeStep | pasjans.py:756-771 | One more round of the loop takes the stock's front, or moves the waste into the stock and takes its front, or stops |
| Supply.DrawStep | pasjans.py:1256-1267 | The round of the loop a method has just run, given its outcome, extends the draw by that card |
| Supply.TakeStalls | pasjans.py:769-771 | After stock and waste are used up, further rounds draw nothing |
| Supply.ReversePermutes | pasjans.py:1239-1240 | Turning the waste over keeps its cards |
| Supply.Draw1Conserves | pasjans.py:1233-1246 | A draw-one step keeps every card of stock, waste and active card, and leaves no active card only when no card is left |
| Supply.Draw1Recycles | pasjans.py:1238-1244 | When the stock is empty, the waste comes back as stock and active card with the same cards |
| Supply.Draw1Draws | pasjans.py:1233-1246 | A draw-one step shows the stock's front; with the stock empty it shows the card retired last and puts the rest of the waste, reversed, behind it |
| DrawThree.RightmostIsLastOccupied | pasjans.py:773-781 | The active card is the occupied slot with only empty slots to its right, and there is none only in an empty window |
| DrawThree.ClearFirstTakesFound | pasjans.py:739-743 | Emptying the slot of the card just used removes exactly that card from the window |
| DrawThree.ClearFirstKeepsAll | pasjans.py:739-743 | When no slot holds that card object, the window is unchanged |
| DrawThree.ClearFirstRemoves | pasjans.py:739-743 | The two facts above together |
| DrawThree.RetireReverses | pasjans.py:1249-1251 | The window goes to the waste rightmost card first, that is in reverse order |
| DrawThreeFacts.RefillOccupied | pasjans.py:745-771 | After a refill the window holds the newly drawn cards followed by the kept ones |
| DrawThreeFacts.KeptRemovesUsed | pasjans.py:739-745 | The cards kept are the window's cards less the card just used |
| DrawThreeFacts.RefillConserves | pasjans.py:735-781 | A refill takes the used card out of play and neither loses nor creates any other card of window, stock and waste |
| DrawThreeFacts.RefillLayout | pasjans.py:745-781 | The kept cards occupy the rightmost slots in order, the drawn cards are the next ones of stock then waste, and the active card is the rightmost occupied slot |
| DrawThreeFacts.RefillFillsWhenSupplied | pasjans.py:756-771 | With enough cards in stock and waste, all three slots are occupied after a refill |
| DrawThreeFacts.RefillCanLeaveGap | pasjans.py:756-771 | The refill fills slots left to right before the kept cards, so with one card left the window [_, b, c] with c played becomes [d, _, b] with b active |
| DrawThreeFacts.Draw3Packs | pasjans.py:1248-1272 | After a draw-three step the shown cards are packed to the right, because drawing stopped early only when nothing was left |
| DrawThreeFacts.Draw3Conserves | pasjans.py:1248-1272 | A draw-three step neither loses nor creates a card of window, stock and waste |
| DrawThreeFacts.Draw3Layout | pasjans.py:1248-1272 | A draw-three step shows the next up to three cards of stock, waste and the retired window, packed right with no gap |
| DrawThreeFacts.Draw3Active | pasjans.py:1248-1272 | The active card after a draw-three step is the last card shown, and there is none only when no card was shown |
| Table.DefaultCursor | pasjans.py:548-554 | After a deal or an undo the cursor is a single card in column 1 exactly when that column holds more than one card |
| Table.Push | pasjans.py:62 | The history keeps at most three snapshots; pushing onto a full one drops the oldest, and the new snapshot is the latest |
| Table.SaveForUndo | pasjans.py:508-524 | Saving keeps the game well formed |
| Table.PopHistory | pasjans.py:1025-1027 | Dropping the latest snapshot, if any, changes nothing else |
| Table.Restore | pasjans.py:526-558 | An undo rebuilds the zones from the snapshot, with stock and wastes face up, and keeps the game well formed |
| Table.PlaceInWindow | pasjans.py:1362-1369 | A card returned to the reserve goes into the rightmost empty slot, or the rightmost slot when all are taken, and not at all if it is already there |
| Table.RefillIfHard | pasjans.py:735-737 | The refill changes only the reserve zones, and nothing on the easy level |
| Table.PutBackOnReserve | pasjans.py:1354-1371 | A card coming back becomes the active card; on the easy level nothing else changes |
| Table.SeekFindsNearest | pasjans.py:676-697 | The search finds the nearest non-empty pile in its direction, and none only when all piles that way are empty |
| Table.RemoveAt | pasjans.py:1355-1360 | Removing a card from a column loses exactly that card |
| Table.InsertAt | pasjans.py:913-914 | Inserting a card and removing it again gives back the column |
| Table.FlipLast | pasjans.py:906-907 | Turning over a column's last card changes only its face-down flag |
| Table.FlattenUpdate | pasjans.py:561-587 | Replacing one column changes the tableau's cards by exactly what that column loses and gains |
| Table.UndoFailedTableauMove | pasjans.py:561-587 | A rejected run move changes only the tableau and puts the cursor back where the run was picked up |
| Table.MoveRunConserves | pasjans.py:576-583 | Cutting a run out of one column and appending it to another keeps every card of the tableau |
| Table.UndoFailedConserves | pasjans.py:561-587 | A rejected run move loses and duplicates no card, and the run is again on top of its origin column |
| Table.WinCheck | pasjans.py:701-711 | The game ends exactly when it was over or every foundation is complete, with the winning message on the transition, and nothing else changes |
| Deal.NewGame | pasjans.py:172-198 | A new game is well formed |
| Deal.DealLayout | pasjans.py:470-486 | With a full deck, column i receives i + 1 cards with only the last face up, the other 24 cards form the face-up stock in deck order, and nothing else holds a card |
| Deal.DealtColumnAt | pasjans.py:475-482 | Card j of column i is deck card ColumnStart(i) + j |
| Deal.DealtPrefix | pasjans.py:475-482 | The first i columns hold the first cards of the deck in deck order |
| Deal.DealUsesDeckInOrder | pasjans.py:470-486 | Columns then stock give back the whole deck: every card is dealt exactly once, in order |
| Navigation.CarryAlongTopRow | pasjans.py:606-643 | Carrying a card along the top row changes only the foundations, the active card and the cursor |
| Navigation.CarryRun | pasjans.py:644-662 | Carrying a run sideways changes only the tableau and the cursor |
| Navigation.BrowseTopRow | pasjans.py:664-688 | Moving the cursor along the top row changes only the cursor |
| Navigation.BrowseColumns | pasjans.py:689-697 | Moving the cursor across the tableau changes only the cursor |
| Navigation.MoveHorizontal | pasjans.py:590-699 | Left or right never changes counter, history or what is carried; without a card in hand no card moves; after the game is over nothing changes |
| Navigation.ReserveCardUp | pasjans.py:1051-1082 | Carrying a reserve card up changes only zones, cursor and message |
| Navigation.TableauCardUp | pasjans.py:1083-1104 | Carrying a tableau or foundation card up changes only tableau, foundations, cursor and message |
| Navigation.CarryUp | pasjans.py:1050-1110 | Carrying a card up keeps the game well formed |
| Navigation.DropBelowFoundation | pasjans.py:1148-1152 | Putting a card into the column under a foundation keeps the game well formed |
| Navigation.FoundationCardDown | pasjans.py:1127-1164 | Carrying a card down from a foundation keeps the game well formed |
| Navigation.CarryDown | pasjans.py:1111-1164 | Carrying a card down keeps the game well formed |
| Navigation.BrowseVertical | pasjans.py:1165-1215 | Up and down without a card in hand change only the cursor |
| Navigation.Extend | pasjans.py:1038-1215 | Up or down never changes counter, history or whether a card is carried; without a card in hand no card moves; after the game is over nothing changes |
| Moves.Pickup | pasjans.py:791-827 | The first Enter picks up exactly when something may be picked up, then saves a snapshot and remembers the origin; otherwise only a message changes |
| Moves.ReserveToFoundation | pasjans.py:835-870 | Dropping a reserve card on a foundation is a move attempt that leaves counter, history and the game-over flag alone |
| Moves.FoundationToFoundation | pasjans.py:871-894 | Dropping a foundation card on a foundation is a move attempt that leaves counter, history and the game-over flag alone |
| Moves.TableauToFoundation | pasjans.py:895-916 | Dropping a tableau card on a foundation is a move attempt that leaves counter, history and the game-over flag alone |
| Moves.TableauToTableau | pasjans.py:917-953 | Dropping a run on a column is a move attempt that leaves counter, history and the game-over flag alone |
| Moves.TopRowToTableau | pasjans.py:954-1000 | Dropping a reserve or foundation card on a column is a move attempt that leaves counter, history and the game-over flag alone |
| Moves.OffTarget | pasjans.py:1001-1019 | A drop matching no kind of move fails and gives up the pickup's snapshot |
| Moves.DropAt | pasjans.py:828-1019 | A drop is a move attempt exactly when the cursor is off the reserve; otherwise the snapshot is given up |
| Moves.CountDrop | pasjans.py:1021-1027 | Only the counter and the history change: a successful drop counts one move, a failed move drops the pickup's snapshot |
| Moves.FinishDrop | pasjans.py:1021-1036 | After a drop the move is counted iff it succeeded and the game is over iff every foundation is complete; a winning drop keeps the hand as it was, any other drop empties it |
| Moves.Confirm | pasjans.py:784-1036 | Enter does nothing after the game is over; a drop counts at most one move and ends the game, with the win, exactly when every foundation is complete; the hand is kept on a win and emptied otherwise |
| Moves.ReturnToColumn | pasjans.py:1347-1353 | Cancelling a tableau card carried onto a foundation changes only the zones |
| Moves.ReturnFromColumn | pasjans.py:1354-1379 | Cancelling a card carried onto the tableau from the top row changes only the zones |
| Moves.ReturnFoundationCard | pasjans.py:1383-1388 | Cancelling a foundation card in hand changes only the zones |
| Moves.PutBack | pasjans.py:1334-1389 | Putting a carried card back leaves history and counter alone |
| Moves.Cancel | pasjans.py:1331-1397 | Esc does nothing without a card in hand or after the game is over; otherwise it gives up the snapshot, empties the hand and returns the cursor to the origin, without counting a move |
| Moves.RevealOne | pasjans.py:1233-1246 | The draw-one step keeps the zones' shape |
| Moves.RevealThree | pasjans.py:1248-1272 | The draw-three step keeps the zones' shape |
| Moves.Reveal | pasjans.py:1218-1278 | S saves a snapshot, marks the first draw, counts a move, changes only the reserve zones, puts the cursor on the reserve, and reports no cards exactly when nothing is left to show |
| Moves.DrawByLevel | pasjans.py:1233-1277 | The draw after the bookkeeping changes only the reserve zones, puts the cursor on the reserve, and reports no cards exactly when the active card, the stock and the level's waste are all empty; a well-formed game stays well-formed |
| Moves.Undo | pasjans.py:1400-1416 | C restores the latest snapshot's zones and first-draw flag and drops it from the history, keeping the move counter; it is refused with a card in hand |
| Theorems.PushThenPop | pasjans.py:521-523 | Popping after a push gives back the history, less its oldest snapshot if it was full |
| Theorems.PickupThenCancel | pasjans.py:784-827 | Picking up and cancelling at once gives back the state, except a full history's oldest snapshot |
| Theorems.PutBackFoundationCard | pasjans.py:1383-1388 | A foundation card picked up and put back lies on its own pile again |
| Theorems.DropKeepsSnapshotIffMoved | pasjans.py:1021-1027 | A successful drop keeps the pickup's snapshot; a failed one removes it |
| Theorems.DropOnColumnFollowsRule | pasjans.py:954-1000 | A reserve or foundation card dropped on a column is accepted exactly when the tableau rule accepts it |
| Theorems.DropRunFollowsRule | pasjans.py:917-953 | A run dropped in a column is accepted exactly when the tableau rule accepts its bottom card |
| Theorems.DropOnFoundationFollowsRule | pasjans.py:835-916 | A reserve or tableau card dropped on a foundation is accepted exactly when the foundation rule accepts it |
| Theorems.DropBetweenFoundationsFollowsRule | pasjans.py:871-894 | A foundation card dropped on a foundation counts as a move exactly when the carried card is on top of the target pile and the foundation rule accepts it on the cards beneath |
| Theorems.RefusedFoundationDropReinserts | pasjans.py:908-916 | A refused tableau card goes back into its column at its old row, the cursor returns, no move is counted, and the hand stays set only if the foundations are all complete |
| Theorems.CarryRunConserves | pasjans.py:644-662 | Carrying a run sideways keeps every card of the tableau |
| Theorems.CarryRunMovesOneRun | pasjans.py:644-662 | The same for one carry step |
| Theorems.CutAndGlue | pasjans.py:656-662 | Cutting off a run that ends a column and gluing it back gives the column |
| Theorems.CarryRunThereAndBack | pasjans.py:644-662 | A run carried one column over and back leaves every zone and the cursor as they were |
| Theorems.CarryReserveCardThereAndBack | pasjans.py:606-643 | A reserve card carried onto the first foundation and back is on the reserve again |
| Theorems.ExtendThenShrink | pasjans.py:1165-1215 | Growing a run up by a card and shrinking it again gives back the cursor |
| Theorems.BrowseFindsNearestColumn | pasjans.py:689-697 | Left and right go to the last card of the nearest non-empty column, and stay put exactly when none is left that way |
| Theorems.UndoAfterReveal | pasjans.py:1218-1278 | Undoing a draw restores zones and first-draw flag, but the draw still counts as a move |
| Theorems.UnhideFaceUp | pasjans.py:529-531 | Rebuilding face-up cards face up changes nothing |
| Theorems.UndoAfterRevealRestoresZones | pasjans.py:526-558 | With stock and wastes face up, as in play, undoing a draw gives back exactly the zones |
| Theorems.RevealConserves | pasjans.py:1218-1278 | A draw neither loses nor creates a card of the reserve, on either level |
| Theorems.WinMeansFullFoundations | pasjans.py:701-708 | On valid foundation piles the win test reduces to every pile holding thirteen cards |
| Theorems.GameOverFreezes | pasjans.py:590-592 | Once the game is over every key leaves the state unchanged |
| Findings.RestoreAsWritten | pasjans.py:526-546 | The undo as written: the restored active card is a new object, so it no longer matches its window slot |
| Findings.AsWrittenRefillKeepsPlayedCard | pasjans.py:739-745 | As written, after an undo the refill after playing the active card removes no card from the window, so the played card stays in play |
| Findings.FoundIsPresent | pasjans.py:739-743 | A card found by identity is one of the window's cards |
| Findings.RefillKeepsPacked | pasjans.py:745-755 | The cards a refill keeps stay in the window |
| Findings.AsWrittenPlayedCardStaysActive | pasjans.py:739-781 | The smallest case: a played card rebuilt by an undo stays in the window and becomes active again |
| Findings.PlayedCardLeavesWindow | pasjans.py:739-781 | With identities kept, the same play empties the window |
| Findings.RestoreKeepsActiveInWindow | pasjans.py:526-546 | With identities kept, the active card stays in its slot, and the refill takes out exactly that card |
| Pasjans.DealColumn | pasjans.py:476-482 | The inner dealing loop deals exactly column i and advances the deck counter past it |
| Pasjans.DealColumns | pasjans.py:470-482 | The dealing loop deals the whole tableau and the counter ends past the 28 dealt cards |
| Pasjans.Game.constructor | pasjans.py:172-198 | A new game object is valid and equals the dealt game |
| Pasjans.Game.ClearUsedSlot | pasjans.py:739-743 | The loop empties the first slot holding the card just used |
| Pasjans.Game.CollectWindow | pasjans.py:745 | The loop collects the occupied slots left to right |
| Pasjans.Game.PackRight | pasjans.py:746-754 | The loop packs the kept cards into the rightmost slots in order |
| Pasjans.Game.NextCard | pasjans.py:757-771 | One draw takes the stock's front, or moves the waste into the stock and takes its front, or finds nothing |
| Pasjans.Game.PutInSlot | pasjans.py:759 | A drawn card goes into its slot |
| Pasjans.Game.DrawInto | pasjans.py:757-765 | One round of the fill draws the next card into the first free slot, or finds stock and waste used up |
| Pasjans.Game.FillFromStock | pasjans.py:756-771 | The loop fills the free slots left to right exactly as the drawing loop specifies |
| Pasjans.Game.PickActive | pasjans.py:773-781 | The active card becomes the rightmost occupied slot |
| Pasjans.Game.Compact | pasjans.py:739-754 | The used card's slot is emptied and the kept cards are packed right |
| Pasjans.Game.RefillSteps | pasjans.py:739-781 | The window, stock, waste and active card become the refill of the old ones |
| Pasjans.Game.RefillWindow | pasjans.py:735-781 | On the hard level the refill as specified; on the easy level nothing changes |
| Pasjans.Game.RetireWindow | pasjans.py:1249-1251 | The loop moves the window's cards to the waste, rightmost first |
| Pasjans.Game.DrawUpToThree | pasjans.py:1254-1267 | The loop draws up to three cards exactly as the drawing loop specifies |
| Pasjans.Game.ShowDrawn | pasjans.py:1253-1270 | The drawn cards fill the window from the left |
| Pasjans.Game.DrawThreeCards | pasjans.py:1248-1272 | The hard-level draw gives the draw-three step of the old reserve |
| Pasjans.Game.DrawOne | pasjans.py:1233-1246 | The easy-level draw gives the draw-one step of the old reserve |
| Pasjans.Game.SaveStateForUndo | pasjans.py:508-524 | Saving gives the saved game |
| Pasjans.Game.DrawAndReport | pasjans.py:1233-1275 | The draw by level, with the no-cards message exactly when nothing is left |
| Pasjans.Game.StartDraw | pasjans.py:1226-1231 | Saves, marks the first draw and counts the move |
| Pasjans.Game.RevealReserveCard | pasjans.py:1218-1278 | The S key gives the reveal of the old game |
| Pasjans.Game.DrawFromReserve | pasjans.py:1226-1278 | The draw proper gives the reveal of the old game |
| Pasjans.Game.DrawToReserve | pasjans.py:1233-1277 | The draw by level and the cursor move give the draw step of the old game |
| Pasjans.Game.PointAtReserve | pasjans.py:1277 | The cursor goes to the reserve and nothing else changes |
| Pasjans.Game.CheckWinCondition | pasjans.py:701-732 | The loop gives the win check of the old game, and the answer is true exactly when the game is over afterwards, on a win as well as for a game already over |
| Pasjans.Game.RestoreZones | pasjans.py:527-544 | The zones become the snapshot's, rebuilt |
| Pasjans.Game.ResetCursor | pasjans.py:546-558 | The first-draw flag comes back, the cursor goes to its starting place and the hand is emptied |
| Pasjans.Game.RestoreStateFromUndo | pasjans.py:526-558 | The object becomes the restore of the old game |
| Pasjans.Game.UndoLastMove | pasjans.py:1400-1416 | The C key gives the undo of the old game |
| Pasjans.Game.MoveSelectionHorizontal | pasjans.py:590-699 | The arrow keys left and right give MoveHorizontal of the old game |
| Pasjans.Game.ExtendSelection | pasjans.py:1038-1215 | The arrow keys up and down give Extend of the old game |
| Pasjans.Game.ConfirmSelection | pasjans.py:784-1036 | Enter gives Confirm of the old game |
| Pasjans.Game.ClearMessage | pasjans.py:1328 | The message is cleared and nothing else changes |
| Pasjans.Game.DropSelection | pasjans.py:828-1036 | The second Enter gives the finished drop of the old game, returning early with the hand kept when the drop wins |
| Pasjans.Game.EmptyHand | pasjans.py:1032-1035 | The hand is emptied and nothing else changes |
| Pasjans.Game.CancelSelection | pasjans.py:1331-1397 | Esc gives Cancel of the old game |

## Left out

- Rendering (`display_tableau`, `display_reserve_and_final_stacks`, `display_game`, the card faces), the main menu, the keyboard loop and the console are not modelled. Each key is its own method of `Game`.
- Messages are modelled as an `Outcome` tag rather than Polish text. The game clears the message once the board has been drawn (pasjans.py:1328); since the board is drawn after every key, the model clears it at the start of the next key instead. The win message's move count and the "could not save the score" suffix are not modelled.
- The scores file is not modelled: reading, appending and writing `scores.json`, the timestamp and the leaderboard display. Only the leaderboard's sort order is modelled.
- The shuffle (`random.shuffle`) is not modelled. The deck is an input to `Deal.NewGame` and the constructor.
- The `deepcopy` of snapshots and `get_raw_data` are not modelled. A snapshot is a value, so copying is implicit.
- `undo_actions_available` is not a field. It always equals the history's length.
- Guards on states the engine never reaches are not modelled: an empty cursor list, a `difficulty` of `None`, and `isinstance` checks on cards. `WellFormed` states the shape every operation keeps, and each operation assumes it.
- Where the source would raise an index error (a cursor row past the end of its column when carrying a reserve card up), the model stops with the `Fault` outcome and changes nothing else.
- Pasjans.Game.MoveSelectionHorizontal, ExtendSelection and CancelSelection: these compute the new state with the value model and store it with `Load`. They do not update fields one branch at a time, so the order of the in-place updates within those keys is not captured.
- Pasjans.Game.ConfirmSelection: the pickup and the drop itself are computed with the value model and stored with `Load`; the win test (`CheckWinCondition`, with its loop) and the emptying of the hand then run in place. The deal (the constructor), the draw with its window refill (the S key) and the restore (the C key) also run their loops in place.
- Navigation.CarryUp, Navigation.DropBelowFoundation, Navigation.FoundationCardDown and Navigation.CarryDown: their own contracts state only that the game stays well formed. What Extend guarantees about them is stated on Navigation.Extend and Theorems.ExtendThenShrink.
- Table.SaveForUndo, Moves.RevealOne and Moves.RevealThree: their own contracts state only shape. Their content is stated by Moves.Reveal, Theorems.UndoAfterReveal and the Draw1 and Draw3 lemmas.
- Table.Restore: keeps every card's id, while pasjans.py:527-544 builds every card anew from the snapshot's raw data. `Findings.RestoreAsWritten` models the rebuild.
- Moves.Undo: restores through `Table.Restore`, so it keeps card identities where pasjans.py:527-544 rebuilds every card. `Findings.RestoreAsWritten` models the rebuild.
- Pasjans.Game.RestoreZones: keeps card identities where pasjans.py:527-544 rebuilds every card. `Findings.RestoreAsWritten` models the rebuild.
- Pasjans.Game.RestoreStateFromUndo: gives `Table.Restore` of the old game, so it keeps card identities where pasjans.py:527-544 rebuilds every card. `Findings.RestoreAsWritten` models the rebuild.
- Pasjans.Game.UndoLastMove: gives `Moves.Undo` of the old game, so it keeps card identities where pasjans.py:527-544 rebuilds every card. `Findings.RestoreAsWritten` models the rebuild.

Behaviours the game has that the model reproduces rather than corrects:

- The move counter is not restored by an undo.
- The draw-three recycle keeps the waste's order, while the draw-one recycle reverses it.
- A refill can leave a gap in the window (`DrawThreeFacts.RefillCanLeaveGap`).
- A reserve card carried along the top row onto a foundation and then cancelled with Esc stays on that foundation: the cancel has no branch for a reserve card over a foundation, so only the cursor goes back (pasjans.py:1347-1389).

## Findings

| source | as written | input that shows it | evidently intended | confidence | as-written member | corrected member |
|---|---|---|---|---|---|---|
| pasjans.py:526-546 with pasjans.py:739-743 | An undo rebuilds every card as a new object, so the restored active card is no longer the object in its window slot; the refill after that card is played finds no slot holding it (`is`), removes nothing, and the played card stays in the window and becomes active again | Hard level, window [_, _, c] with c active, stock and waste empty; draw-related move saved, then undo, then c played to the tableau | The undo keeps the active card identical to its window slot, so the refill removes exactly the played card | not executed | Findings.AsWrittenPlayedCardStaysActive | Findings.PlayedCardLeavesWindow |
