# Hex-grid strategy game: a verified model

This project models the rules of a browser hex-grid strategy game in Dafny. It covers two front ends.

The first is a Phaser scene, `HexGame`. Its rules work as follows:
- Players pick starting hexes in turn.
- On each turn a player rolls two dice and collects wood, stone and food from owned tiles that show a rolled number.
- A player can then build an army or a settlement, buy an adjacent hex, move an army, or attack a neighbour.
- The last action can be undone.

The second is an older canvas prototype. In it, armies are lists of units with health and damage, and combat trades random hits.

The model is split by source file:

- `Constants` (constants.js): the eight phases and the three prices.
- `HexBoard` (hexBoard.js): tiles, the tile lookup by hex, and the "borders an owned tile" test. The board's random draws and the Honeycomb neighbour function are parameters.
- `Players` (player.js): the wallet, the `Player` class (add or remove a hex, afford, spend, can-expand), and player records as values.
- `Text`: the decimal text of numbers that JavaScript template literals produce, with its inverse.
- `Interface` (ui.js): the HUD button states, the last-roll label, and the `UI` object whose fields the scene updates.
- `GameRules` (hexGame.js): the scene's state as a value (`Game`) and one function per handler. The lemmas cover:
  - the invariant every reachable state keeps;
  - conservation of armies by a move;
  - undo;
  - the players' hex lists;
  - the quirks of the source, stated as theorems.
- `Scene` (hexGame.js): the scene as an object.
  - Tiles are updated in place in an array, and players are `Player` objects.
  - Every handler is proved to leave the object in the state the matching `GameRules` function computes.
- `Canvas` (game.js): unit-by-unit combat, turn income and the canvas click handler. These come both as functions and as a class over the game's arrays.
- `StartScreen` (main.js): default colours, the `playersData` list the start button builds, and the uniqueness check on names and colours.

Several behaviours of the source are modelled as written and proved as lemmas:
- The build and expand handlers save the undo snapshot before they validate. A refused click therefore replaces the snapshot (`RefusedBuildLosesEarlierSnapshot`).
- A move's destination must already belong to the player.
- The moved-this-turn flag is never checked by the move handler (`MoveIgnoresMovedFlag`).
- An unowned tile is a valid attack target.
- A conquest changes the tile's owner but no player's hex list (`ConquestBreaksListsAccurate`).
- Undo keeps the snapshot. Ending the turn only disables the undo button; the undo handler would restore the previous turn (`UndoAfterEndTurn`), but the HUD keeps the button disabled until the next save replaces the slot.

Player ids equal their positions (hexGame.js:43). A tile reference is the tile's position in the board, as the source's snapshots already record it.

Random inputs are parameters of the operations that use them:
- the board's terrain and value draws;
- the two dice;
- the combat outcome `attackRoll > defendRoll`;
- the canvas game's target picks, given as functions `aim` from the striker's position to a number taken modulo the number of targets.

The DOM, Phaser rendering and alerts are not modelled.

## Model

| member | source | states |
|---|---|---|
| Constants.PhasesAreEightDistinctNames | constants.js:2-11 | there are eight phases and their names are pairwise different |
| HexBoard.InitializeTiles | hexBoard.js:13-29 | one tile per grid hex, in grid order, each unowned with no army and no settlement, taking its terrain from the table entry its terrain draw picks and its value, 1 to 6, from its value draw |
| HexBoard.GetTileAt | hexBoard.js:32-34 | the first tile on the hex when there is one, and none exactly when no tile is on it |
| HexBoard.IsAdjacentToOwned | hexBoard.js:42-48 | a bordering tile has an owned tile on a neighbour hex; conversely an owned tile on a neighbour hex that is the first tile there makes the tile bordering |
| HexBoard.AdjacentToOwnedIffOwnedNeighborTile | hexBoard.js:42-48 | a tile borders the player exactly when some neighbour hex carries a tile the player owns |
| Players.Wallet.Set | player.js:34 | writing one resource changes that resource only |
| Players.CanAfford | player.js:25-29 | a price is affordable exactly when spending it leaves every priced resource at zero or more, and, for a non-negative wallet, exactly when spending it leaves the wallet non-negative |
| Players.Spend | player.js:32-36 | each priced resource drops by its price and the others are unchanged |
| Players.SpendAffordableStaysNonNegative | player.js:25-36 | spending an affordable price from a non-negative wallet leaves it non-negative |
| Players.EmptyWalletAffordsNothing | player.js:25-29 | an empty wallet can afford neither an army, a settlement nor a territory |
| Players.Without | player.js:19-22 | removing a hex drops every copy of it and keeps every other entry as many times as it occurred; a list without the hex is returned unchanged |
| Players.WithoutAppend | player.js:19-22 | the filter keeps the order: removing from a concatenation removes from each part, in turn |
| Players.WithoutOne | player.js:19-22 | a single entry is dropped exactly when it is the removed hex |
| Players.CanExpandTo | player.js:39-41 | a tile the player can expand to is unowned and borders another tile the player owns |
| Players.Player.constructor | player.js:2-10 | a new player has the given id, name and colour, 5 wood, 5 stone and 5 food, no hexes, and the moved flag unset |
| Players.Player.AddHex | player.js:13-16 | the tile is appended to the player's hexes and its owner becomes the player; nothing else changes |
| Players.Player.RemoveHex | player.js:19-22 | the tile leaves the player's hexes and becomes unowned; nothing else changes |
| Players.Player.SpendResources | player.js:32-36 | the loop over the price leaves the wallet `Spend` describes |
| Players.Player.SetMoved | hexGame.js:374 | only the moved flag changes |
| Players.Player.Receive | hexGame.js:462-472 | only the wallet changes, by the amounts received |
| Players.Player.Restore | hexGame.js:551-556 | the wallet, hexes and moved flag take the saved values; id, name and colour are kept |
| Text.IntToString | ui.js:38-41 | the text of an integer is non-empty, has no comma or space, and is digits only for a non-negative integer |
| Text.ParseNatToString | main.js:37 | reading back the decimal text of a number gives the number |
| Text.NatToStringInjective | main.js:37 | different numbers have different texts |
| Text.IntToStringInjective | ui.js:38-41 | different integers have different texts |
| Interface.ButtonStates | ui.js:56-72 | for each button, the exact condition under which it is enabled: roll only in RESOURCE_COLLECTION; build and expand in ACTION, RESOURCE_COLLECTION or SETUP_SELECTION when affordable; move there when not yet moved; attack and end turn there; undo when available |
| Interface.LastRollText | ui.js:38-41 | the label is "-" exactly when a die is missing or zero, and holds a comma otherwise |
| Interface.LastRollTextDeterminesDice | ui.js:38-41 | two non-zero rolls with the same label are the same rolls |
| Interface.UI.constructor | ui.js:2-21 | the UI starts with the undo flag unset, which the constructor never initialises and so reads as false |
| Interface.UI.SetUndoAvailable | ui.js:75-78 | the flag and the undo button change together and nothing else does |
| Interface.UI.UpdateButtonStates | ui.js:56-72 | the buttons become `ButtonStates` of the phase, player and prices; flag and label are kept |
| Interface.UI.UpdateLastRoll | ui.js:38-41 | the label becomes `LastRollText` of the dice; the buttons and flag are kept |
| GameRules.InitialGame | hexGame.js:36-44 | the first state keeps the invariant: one player per entry with id = position and 5 of each resource, every player queued for setup, player 0 to pick, SETUP_SELECTION, pristine tiles, nothing saved |
| GameRules.SaveState | hexGame.js:499-534 | the slot holds the current state and undo is available; nothing else changes |
| GameRules.Undo | hexGame.js:537-592 | with an empty slot nothing changes; otherwise the state is exactly the saved one, with the slot and the undo flag kept |
| GameRules.RestoreIsSaved | hexGame.js:541-556 | the tile and player loops of undo leave exactly the saved tiles and players |
| GameRules.UndoIsIdempotent | hexGame.js:537-592 | undoing twice is undoing once |
| GameRules.UndoRevertsToSaved | hexGame.js:499-592 | undo right after a save gives back the saved state |
| GameRules.Shift | hexGame.js:280 | shifting drops the head of a non-empty queue and leaves an empty one empty |
| GameRules.HandleSetupSelection | hexGame.js:256-288 | refused, with no change, exactly when the tile is owned or borders an owned tile; otherwise the player takes it with one army and a settlement, appends it to their hexes, leaves the queue, and the next queued player picks, or player 0 in RESOURCE_COLLECTION once the queue is empty |
| GameRules.HandleBuildArmy | hexGame.js:291-307 | always saved first; on an own tile with the price affordable, exactly the army price is paid, the tile gains one army and the phase is ACTION; otherwise only the save happened |
| GameRules.HandleBuildSettlement | hexGame.js:310-329 | always saved first; on an own tile without a settlement and with the price affordable, the settlement price is paid, the settlement placed and the phase is ACTION; otherwise only the save happened |
| GameRules.HandleExpandTerritory | hexGame.js:332-348 | always saved first; an unowned tile bordering the player, with the price affordable, is paid for, owned by the player, appended to their hexes, and the phase is ACTION; otherwise only the save happened |
| GameRules.ApplyMove | hexGame.js:388-396 | one army moves, the two tiles' total is kept, other tiles are unchanged, and the source tile is given up exactly when it is left with no army and no settlement |
| GameRules.IsValidMove | hexGame.js:383-385 | on a board of distinct hexes, a valid move onto a tile owned by a player starts from a tile bordering that player |
| GameRules.HandleMoveArmy | hexGame.js:351-380 | first click selects an own tile with armies or changes nothing; second click is refused with no change unless the tile is a neighbour the player owns, and otherwise finishes the move |
| GameRules.FinishMove | hexGame.js:372-378 | the accepted move: saved, one army moved, the player marked as moved, no selection, ACTION |
| GameRules.CeilHalf | hexGame.js:443 | the rounded-up half of a number |
| GameRules.ThreeQuartersDown | hexGame.js:446 | three quarters of a number, rounded down |
| GameRules.PerformCombat | hexGame.js:437-450 | a win gives the defender tile to the attacker's owner and splits the attacker's armies between the tiles, the larger part staying; a loss halves the attacker (rounding up) and leaves the defender three quarters; other tiles and settlements are unchanged |
| GameRules.IsValidAttackTarget | hexGame.js:427-434 | a target is valid exactly when it is a valid move destination the current player does not own; so an own attacking tile never targets itself |
| GameRules.HandleCombat | hexGame.js:399-424 | first click as in moving; an invalid target changes nothing; a valid one saves, resolves the combat, clears the selection and returns to ACTION without touching the players |
| GameRules.TileYield | hexGame.js:461-473 | a tile pays the player exactly when they own it and it shows the roll; then it pays 2 with a settlement and 1 without, all of its terrain's resource (forest wood, mountain stone, grass food) and none of the others |
| GameRules.SettlementDoublesYield | hexGame.js:462-472 | a settlement doubles what a tile pays, of every resource |
| GameRules.CollectResources | hexGame.js:453-480 | the dice are recorded, the current player receives `Yield` of both rolls (the sum of `TileYield` over the tiles, in board order), the phase is ACTION, and nothing else changes |
| GameRules.EndTurn | hexGame.js:483-496 | the moved flag is cleared, the next player in a cycle plays, RESOURCE_COLLECTION, no selection or dice, undo disabled, slot kept |
| GameRules.HandleHexClick | hexGame.js:232-253 | a hex click leaves a well-formed game, and in RESOURCE_COLLECTION and ACTION it changes nothing |
| GameRules.HandleAction | hexGame.js:170-203 | every button press leaves a well-formed game; `ButtonGating` states which buttons act in which phase |
| GameRules.ActionTarget | hexGame.js:176-195 | the five action buttons, and only they, switch to their five phases |
| GameRules.ButtonGating | hexGame.js:170-203 | an action button changes the state exactly in ACTION, and only the phase; roll collects only in RESOURCE_COLLECTION; undo and end turn act in every phase |
| GameRules.SaveStateKeepsInv | hexGame.js:499-534 | saving keeps the invariant |
| GameRules.SetupSelectionKeepsInv | hexGame.js:256-288 | picking a start tile keeps the invariant |
| GameRules.BuildArmyKeepsInv | hexGame.js:291-307 | building an army keeps every stock non-negative and every tile consistent |
| GameRules.BuildSettlementKeepsInv | hexGame.js:310-329 | building a settlement keeps the invariant |
| GameRules.ExpandTerritoryKeepsInv | hexGame.js:332-348 | expanding keeps the invariant |
| GameRules.MoveArmyKeepsInv | hexGame.js:351-380 | moving keeps the invariant, including the tile given up |
| GameRules.ApplyMoveKeepsTilesConsistent | hexGame.js:388-396 | a move off a tile with armies onto an owned tile leaves every tile consistent |
| GameRules.CombatKeepsInv | hexGame.js:399-424 | combat keeps the invariant |
| GameRules.HexClickKeepsInv | hexGame.js:232-253 | every hex click keeps the invariant of reachable states |
| GameRules.ActionKeepsInv | hexGame.js:170-203 | every button press keeps the invariant of reachable states |
| GameRules.TotalArmiesUpdate | hexGame.js:389-390 | replacing one tile changes the army total by the difference |
| GameRules.MoveConservesArmies | hexGame.js:388-396 | a move neither creates nor destroys armies |
| GameRules.CombatLosesArmies | hexGame.js:437-450 | a won battle removes exactly the defender's armies from the board, and no battle adds armies |
| GameRules.YieldBounds | hexGame.js:459-476 | a roll pays between one and two resources per owned tile showing it |
| GameRules.NoMatchNoYield | hexGame.js:459-476 | a roll no owned tile shows pays nothing |
| GameRules.AccurateBySameOwnership | player.js:13-22 | whether the hex lists match the board depends on owners and lists alone |
| GameRules.SetupSelectionKeepsListsAccurate | hexGame.js:274-277 | picking a start tile keeps every player's list equal to the tiles they own |
| GameRules.BuildKeepsListsAccurate | hexGame.js:291-329 | building keeps the lists accurate |
| GameRules.ExpandKeepsListsAccurate | hexGame.js:332-348 | expanding keeps the lists accurate |
| GameRules.ClaimKeepsListsAccurate | hexGame.js:343-344 | paying and claiming an unowned tile keeps the lists accurate |
| GameRules.ApplyMoveKeepsListsAccurate | hexGame.js:388-396 | a move between own tiles keeps the lists accurate, also when the source is given up |
| GameRules.MoveKeepsListsAccurate | hexGame.js:351-380 | the move handler keeps the lists accurate |
| GameRules.FinishMoveKeepsListsAccurate | hexGame.js:372-378 | the accepted move keeps the lists accurate |
| GameRules.ConquestBreaksListsAccurate | hexGame.js:440-443 | a won battle makes the attacker the tile's owner without adding it to their list, so accurate lists stop being accurate |
| GameRules.CollectIgnoresHexLists | hexGame.js:459-476 | what a roll pays does not depend on the player's hex list |
| GameRules.UndoAfterEndTurn | hexGame.js:483-496 | after ending a turn undo is disabled but still restores the previous player's saved turn |
| GameRules.RefusedBuildLosesEarlierSnapshot | hexGame.js:291-301 | a refused build overwrites the slot with the refused state, so undo after it changes nothing |
| GameRules.MoveIgnoresMovedFlag | hexGame.js:351-380 | the moved flag has no influence on where armies go, on the selection or on the phase |
| GameRules.SameMoveOnSameTiles | hexGame.js:388-391 | where armies go depends on the tiles alone |
| Scene.RollButtonMatchesHandler | hexGame.js:172-175 | while the HUD enables the roll button a press collects; while it is disabled a press changes nothing |
| Scene.ActionButtonsEnabledButIgnored | hexGame.js:176-195 | in RESOURCE_COLLECTION and SETUP_SELECTION the HUD enables attack and end turn, but the action buttons do nothing there |
| Scene.HexGame.constructor | hexGame.js:2-44 | the scene starts in `InitialGame` of the grid, draws and player data, and keeps the invariant |
| Scene.HexGame.UpdateUI | hexGame.js:606-613 | the state is untouched and the HUD shows the current player's buttons and the dice |
| Scene.HexGame.SaveState | hexGame.js:499-534 | the object moves to `GameRules.SaveState` of its state |
| Scene.HexGame.HandleBuildArmy | hexGame.js:291-307 | the object moves to `GameRules.HandleBuildArmy` of its state |
| Scene.HexGame.PlaceArmy | hexGame.js:302-305 | the accepted build: pay, then one more army |
| Scene.HexGame.HandleBuildSettlement | hexGame.js:310-329 | the object moves to `GameRules.HandleBuildSettlement` of its state |
| Scene.HexGame.PlaceSettlement | hexGame.js:324-327 | the accepted build: pay, then the settlement |
| Scene.HexGame.HandleExpandTerritory | hexGame.js:332-348 | the object moves to `GameRules.HandleExpandTerritory` of its state |
| Scene.HexGame.TakeTerritory | hexGame.js:343-346 | the accepted expansion: pay, then `addHex` |
| Scene.HexGame.HandleSetupSelection | hexGame.js:256-288 | the object moves to `GameRules.HandleSetupSelection` of its state |
| Scene.HexGame.MoveArmy | hexGame.js:388-396 | the tile array and the player move to `GameRules.ApplyMove` of the state |
| Scene.HexGame.HandleMoveArmy | hexGame.js:351-380 | the object moves to `GameRules.HandleMoveArmy` of its state |
| Scene.HexGame.CompleteMove | hexGame.js:372-378 | the accepted second click moves the object to `GameRules.FinishMove` |
| Scene.HexGame.PerformCombat | hexGame.js:437-450 | the tile array becomes `GameRules.PerformCombat` of the old tiles |
| Scene.HexGame.HandleCombat | hexGame.js:399-424 | the object moves to `GameRules.HandleCombat` of its state |
| Scene.HexGame.CollectRoll | hexGame.js:460-475 | the tile loop of one roll pays the player exactly `Yield` of the tiles |
| Scene.HexGame.CollectResources | hexGame.js:453-480 | the object moves to `GameRules.CollectResources` of its state |
| Scene.HexGame.EndTurn | hexGame.js:483-496 | the object moves to `GameRules.EndTurn` of its state |
| Scene.HexGame.RestoreBoard | hexGame.js:541-548 | the tile loop of undo writes the saved fields into every tile |
| Scene.HexGame.RestoreRoster | hexGame.js:551-556 | the player loop of undo writes the saved fields into every player |
| Scene.HexGame.UndoLastAction | hexGame.js:537-592 | the object moves to `GameRules.Undo` of its state |
| Scene.HexGame.SetPhase | hexGame.js:206-210 | only the phase changes |
| Scene.HexGame.HandleHexClick | hexGame.js:232-253 | the object moves to `GameRules.HandleHexClick` of its state and keeps the invariant |
| Scene.HexGame.HandleAction | hexGame.js:170-203 | the object moves to `GameRules.HandleAction` of its state and keeps the invariant |
| Canvas.Strike | game.js:307-318 | one side's hits: the targets keep their number and damage, only health changes |
| Canvas.Survivors | game.js:321-322 | only units with health left remain, every live unit is kept, and nothing is added to the side |
| Canvas.SurvivorsCount | game.js:321-322 | each live unit is kept as many times as it occurs, and no unit without health is kept |
| Canvas.SurvivorsAppend | game.js:321-322 | the filter keeps the order: the survivors of a concatenation are those of each part, in turn |
| Canvas.SurvivorsOfOne | game.js:321-322 | a single unit survives exactly when it has health left |
| Canvas.Resolve | game.js:321-335 | defenders left: each tile keeps its survivors; none left: the attacker's owner takes the tile, and with more than one survivor the attacker keeps its first while the rest move in, in order; with at most one, all move in and the attacking tile is left unowned; no unit is lost or made |
| Canvas.Attack | game.js:302-336 | only the two tiles change, only live units remain on them, and neither side gains units |
| Canvas.TotalHealthUpdate | game.js:310 | changing one unit's health changes the total by the difference |
| Canvas.StrikeCostsTotalDamage | game.js:307-312 | a non-empty side loses exactly the strikers' total damage in health |
| Canvas.StrikeIgnoresStrikerHealth | game.js:307-318 | only the strikers' damage matters, not their health |
| Canvas.FallenDefendersStrikeBack | game.js:307-318 | the defenders strike back as they were before being hit, the fallen included |
| Canvas.Income | game.js:124-130 | only the three stocks change, none shrinks, each grows by at most the board size, and non-negative stocks stay non-negative |
| Canvas.TurnStarted | game.js:121-133 | only the current player's stocks change, the board is kept and the phase is building |
| Canvas.IncomeIsOnePerOwnedTile | game.js:124-130 | the income is one resource per owned tile |
| Canvas.StartTurnPaysOwnedTiles | game.js:121-133 | no stock of the current player shrinks, together they grow by exactly the number of tiles the player owns, and the hex list is kept |
| Canvas.FindTile | game.js:239 | the first tile on the hex, or none when no tile is on it |
| Canvas.BordersOwned | game.js:255-256 | a bordering tile has an owned tile on a neighbour hex; conversely an owned tile on a neighbour hex that is the first tile there makes the tile bordering |
| Canvas.ClickResult | game.js:242-281 | a click changes no other player, the current player or the phase |
| Canvas.AttackKeepsManned | game.js:302-336 | after an attack from an owned tile both tiles hold only live units and an unowned one holds none |
| Canvas.ClickKeepsSound | game.js:242-281 | every click keeps the stocks non-negative, the tiles manned and the selection valid |
| Canvas.BuildingClickPays | game.js:244-266 | a building click changes nothing, recruits one unit on an own tile for the army price, or claims a bordering free tile for the hex price; it recruits exactly when the tile is the player's and 2 food and 1 wood are there, claims exactly when the free tile borders the player and 2 stone are there, and otherwise changes nothing |
| Canvas.BuildingClickElsewhereIgnored | game.js:244-266 | a building click on a tile neither owned nor bordering and free changes nothing |
| Canvas.AttackingClickClearsSelection | game.js:267-281 | a second attacking click always clears the selection; the board becomes `Attack` from the selected tile exactly when the clicked tile neighbours it and is not the player's, and no other click changes the board; a first click selects an own tile with units and nothing else |
| Canvas.StartTurnKeepsSound | game.js:121-133 | starting a turn keeps the invariant |
| Canvas.CanvasGame.constructor | game.js:81-118 | the game holds the given board and players, player 0, building, nothing selected |
| Canvas.CanvasGame.StartTurn | game.js:121-133 | the board loop leaves `TurnStarted` of the state |
| Canvas.CanvasGame.StrikeAll | game.js:307-318 | the `forEach` loop computes `Strike` |
| Canvas.CanvasGame.PerformAttack | game.js:302-336 | the board becomes `Attack` of the old board |
| Canvas.CanvasGame.Click | game.js:242-281 | the object moves to `ClickResult` of its state |
| StartScreen.GetDefaultColor | main.js:19-21 | the palette entry for the first four indices, white for every other index |
| StartScreen.DefaultColorsClash | main.js:19-21 | two players get the same default colour exactly when both come after the fourth |
| StartScreen.DefaultNamesDiffer | main.js:35-37 | default names are equal exactly for equal positions |
| StartScreen.CollectPlayersData | main.js:33-40 | the loop builds `PlayersData`, one `{ name, color }` entry per player, in order; `PlayersDataShape` states what those entries are |
| StartScreen.PlayersDataShape | main.js:34-40 | there are `numPlayers` entries (none when it is not positive), each with a non-empty name and the field's colour |
| StartScreen.Elements | main.js:44-45 | the set of a list holds exactly its values and is no larger than the list |
| StartScreen.DistinctSnoc | main.js:44-45 | appending a value keeps a list free of repeats exactly when the value is new |
| StartScreen.SetSizeIsLengthIffDistinct | main.js:44-45 | the set of a list is as large as the list exactly when no value repeats |
| StartScreen.RejectedIffRepeat | main.js:43-49 | the start is refused exactly when two players share a name or a colour |
| StartScreen.HandleStart | main.js:29-74 | a refusal when names or colours repeat; otherwise a launch with the grid size and the player data |
| StartScreen.UntouchedFormAcceptedUpToFive | main.js:19-49 | a form left as it opens starts a game of up to five players |
| StartScreen.UntouchedColorsRefusedFromSix | main.js:19-49 | with six or more players, the untouched colours of players five and six are both white and the start is refused |

## Left out

- Rendering and display code is not modelled: Phaser sprites, `updateTileDisplay`, highlights, messages, `getPhaseInstruction`, `preload`, the camera set-up in `create`, `setupUIHandlers`, and the canvas `render`.
- The handlers' own `updateUI` and `setPhase` refreshes of the HUD are not modelled. `Scene.HexGame.UpdateUI` states what a refresh shows, and the handlers leave the HUD's button states as they were.
- `ui.updatePlayerInfo`, `ui.updatePhase` and `showMessage` are presentation and are not modelled.
- The page's initial button states come from HTML that is not part of this model.
- `Interface.UI.constructor` does not write the last-roll label. The `Interface.UI` class starts it as "-", which is what the first `updateUI` of `create()` (hexGame.js:148) writes through `updateLastRoll` (ui.js:38-41) while no dice have been rolled.
- Honeycomb geometry is not modelled. The neighbours of a hex are given as a function; game.js's `distance(a, b) === 1` is "b is one of a's neighbours".
- `Math.random` is not modelled. The terrain and value draws, the dice and the canvas target picks are parameters.
- `GameRules.PerformCombat`: the two random rolls are reduced to their comparison, given as `attackerWins`.
- `Scene.HexGame.CollectResources`: the dice are written after the payments rather than before. Nothing in between reads them, so the final state is the same.
- `Scene.HexGame.HandleHexClick` and `GameRules.HandleHexClick` require the invariant `Inv`, which the source does not check.
  - `Inv` holds of every reachable state: the constructor establishes it, and `HexClickKeepsInv` and `ActionKeepsInv` show that every handler keeps it.
  - It gives the combat handler an attacking tile different from the target.
  - `Scene.HexGame.HandleCombat` and `GameRules.HandleCombat` require the part of it they use.
- `Canvas.CanvasGame.Click`: it requires the invariant `Sound`, which `ClickKeepsSound` and `StartTurnKeepsSound` show is kept.
- `Canvas.CanvasGame.PerformAttack`: units are values and each tile is written once at the end. Shared unit objects are only written through the local copies before being filtered, so the result is the same.
- Canvas tile owners are positions in the player list, as `startGame` and the click handler use them; the players' own `id` fields (position + 1) are never compared.
- Other parts of game.js are not modelled:
  - the roll-dice, build-settlement, build-army and first end-turn handlers (game.js:180-231). The end-turn handler changes `currentPlayer` without clearing `selectedHex`, so it would break `Sound`;
  - the asset set-up, which throws at game.js:20 because `assets.wood` is undefined, so the script as written stops before any handler is installed;
  - the proceed-to-attack and end-turn buttons (game.js:285-299);
  - the start button wiring;
  - the board set up at load time (game.js:59-62);
  - `startGame`'s random board (its result is given to `Canvas.CanvasGame.constructor`).
- Snapshot details of `undoLastAction` are not modelled:
  - `selectedHex` is never set anywhere, so it is not part of the state;
  - `indexOf` gives -1 for a missing `moveFrom`, and restoring it reads `tiles[-1]`, which is undefined and so is the same as no selection.
- `parseInt` of the form fields is not modelled. A `numPlayers` that is not a number behaves like 0 (no players). The grid size is an integer here; a grid size that is not a number is not modelled.
- `StartScreen.HandleStart`: the DOM changes and the Phaser game construction on success are not modelled; a launch records the registry's `gridSize` and `playersData`.
- `GameRules.InitialGame` and `Scene.HexGame.constructor`: `requires |data| > 0` excludes an empty `playersData`, which main.js:33-49 does launch (the `Set` check passes for an empty list, and `numPlayers` can be 0 or not a number). `create()` then fails in `updateUI`, which reads the name of the missing current player (hexGame.js:148, hexGame.js:606-608, ui.js:25).
- Setup queue entries are player ids rather than `Player` objects; with ids equal to positions this is the same queue.
