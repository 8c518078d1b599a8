/**
 * The `HexGame` scene of hexGame.js as an object: tiles are updated in place in the board's tile
 * array, players are `Player` objects, and the scene's own fields hold the turn state. Every handler
 * is proved to leave the scene in the state the matching function of `GameRules` computes from the
 * state before, so the properties proved there hold of the scene.
 */
module Scene {
  import opened Wrappers
  import opened Constants
  import opened HexBoard
  import opened Players
  import opened GameRules
  import opened Interface

  /**
   * The HUD and `handleAction` agree on the roll button: while it is enabled a press collects, while it
   * is disabled a press would change nothing.
   */
  lemma RollButtonMatchesHandler(g: Game, die1: int, die2: int)
    requires WellFormed(g)
    ensures var d := ButtonStates(g.phase, Current(g), COSTS, g.undoAvailable);
      && (!d.rollDice ==> HandleAction(g, RollDiceButton, die1, die2) == GameRules.CollectResources(g, die1, die2))
      && (d.rollDice ==> HandleAction(g, RollDiceButton, die1, die2) == g)
  {
  }

  /**
   * The HUD enables the attack and end-turn buttons in RESOURCE_COLLECTION and SETUP_SELECTION as well,
   * but there `handleAction` ignores the five action buttons.
   */
  lemma ActionButtonsEnabledButIgnored(g: Game, b: Button, die1: int, die2: int)
    requires WellFormed(g) && ActionTarget(b).Some? && (g.phase == ResourceCollection || g.phase == SetupSelection)
    ensures var d := ButtonStates(g.phase, Current(g), COSTS, g.undoAvailable);
      && !d.attack && !d.endTurn
      && HandleAction(g, b, die1, die2) == g
  {
  }

  class HexGame {
    /** `board.tiles`. */
    const tiles: array<Tile>
    /** `board.getNeighbors`, the Honeycomb adjacency of the board's grid. */
    const neighbors: Neighbors
    const players: seq<Player>
    const ui: UI
    var currentPlayer: nat
    var phase: Phase
    var moveFrom: Option<nat>
    var dice: Dice
    var setupPlayers: seq<nat>
    var previousState: Option<Snapshot>

    /** The scene's state as a value. */
    function View(): Game
      reads this, tiles, ui, set p | p in players
    {
      Game(tiles[..], Records(players), currentPlayer, phase, moveFrom, dice, setupPlayers, previousState, ui.undoAvailable)
    }

    /** Distinct player objects, and a well-formed state. */
    predicate Shaped()
      reads this, tiles, ui, set p | p in players
    {
      && Distinct()
      && WellFormed(View())
    }

    /** `Shaped` and the rule invariant. */
    predicate Valid()
      reads this, tiles, ui, set p | p in players
    {
      Shaped() && Inv(View())
    }

    /** The HUD shows the current player's buttons and the dice, as `updateUI` leaves it. */
    predicate Displayed()
      reads this, ui, set p | p in players
    {
      && currentPlayer < |players|
      && ui.disabled == ButtonStates(phase, players[currentPlayer].Record(), COSTS, ui.undoAvailable)
      && ui.lastRoll == LastRollText(dice.die1, dice.die2)
    }

    /**
     * `constructor` and `create`: the board from the grid and its random draws, one player per entry
     * of the registry's `playersData` with id = index, every player queued for setup.
     */
    constructor(grid: seq<Hex>, neighbors: Neighbors, draws: seq<TileDraw>, data: seq<PlayerData>)
      requires |draws| == |grid| && forall i :: 0 <= i < |draws| ==> DrawInRange(draws[i])
      requires |data| > 0
      ensures Valid() && View() == InitialGame(grid, draws, data)
    {
      var ts := InitializeTiles(grid, draws);
      var ps: seq<Player> := [];
      for i := 0 to |data|
        invariant |ps| == i
        invariant forall j :: 0 <= j < i ==> ps[j].Record() == PlayerState(j, data[j].name, data[j].color, StartingWallet, [], false)
        invariant forall j, l :: 0 <= j < l < i ==> ps[j] != ps[l]
      {
        var p := new Player(i, data[i].name, data[i].color);
        ps := ps + [p];
      }
      this.tiles := new Tile[|ts|](i requires 0 <= i < |ts| => ts[i]);
      this.neighbors := neighbors;
      this.players := ps;
      this.ui := new UI();
      this.currentPlayer := 0;
      this.phase := SetupSelection;
      this.moveFrom := None;
      this.dice := NoDice;
      this.setupPlayers := seq(|data|, i => i);
      this.previousState := None;
      new;
      assert tiles[..] == ts;
      assert Records(players) == InitialGame(grid, draws, data).players;
    }

    /** `updateUI`: refreshes the buttons and the dice label from the state; the state is untouched. */
    method UpdateUI()
      requires Shaped()
      modifies ui
      ensures Shaped() && View() == old(View()) && Displayed()
    {
      ui.UpdateLastRoll(dice.die1, dice.die2);
      ui.UpdateButtonStates(phase, players[currentPlayer].Record(), COSTS);
    }

    /** `saveState`: the snapshot of the state goes into the slot and the undo button is enabled. */
    method SaveState()
      requires Shaped()
      modifies this, ui
      ensures Shaped() && View() == GameRules.SaveState(old(View()))
      ensures currentPlayer == old(currentPlayer) && phase == old(phase) && moveFrom == old(moveFrom)
      ensures dice == old(dice) && setupPlayers == old(setupPlayers)
    {
      previousState := Some(Snapshot(tiles[..], Records(players), currentPlayer, phase, moveFrom, dice, setupPlayers));
      ui.SetUndoAvailable(true);
    }
  
    /** The current player pays `cost` (`player.spendResources(cost)`). */
    method Pay(cost: Cost)
      requires Shaped()
      modifies players[currentPlayer]
      ensures Shaped() && View() == GameRules.Pay(old(View()), cost)
    {
      ghost var g := View();
      var player := players[currentPlayer];
      player.SpendResources(cost);
      assert Records(players) == GameRules.Pay(g, cost).players;
    }

    /**
     * `handleBuildArmy(tile)`: saves, then on an own tile with the army price affordable pays it,
     * adds an army and returns to ACTION; a refused click keeps only the save.
     */
    method HandleBuildArmy(k: nat)
      requires Shaped() && k < tiles.Length
      modifies this, ui, tiles, players[currentPlayer]
      ensures Shaped() && View() == GameRules.HandleBuildArmy(old(View()), k)
    {
      SaveState();
      var player := players[currentPlayer];
      if tiles[k].owner != Some(player.id) {
        return;  // "You can only build on your own hexes!"
      }
      if !CanAfford(player.resources, COSTS.army) {
        return;  // "Not enough resources for army!"
      }
      PlaceArmy(k);
    }

    /** The accepted branch of `handleBuildArmy`. */
    method PlaceArmy(k: nat)
      requires Shaped() && k < tiles.Length
      modifies this, tiles, players[currentPlayer]
      ensures Shaped() && View() == GameRules.PlaceArmy(old(View()), k)
    {
      Pay(COSTS.army);
      Reinforce(k);
    }

    /** One more army on tile `k`, and the return to ACTION. */
    method Reinforce(k: nat)
      requires Shaped() && k < tiles.Length
      modifies this, tiles
      ensures Shaped() && View() == GameRules.Reinforce(old(View()), k)
    {
      tiles[k] := tiles[k].(armies := tiles[k].armies + 1);
      phase := Action;
    }

    /**
     * `handleBuildSettlement(tile)`: saves, then on an own tile without a settlement and with the
     * settlement price affordable pays it, places the settlement and returns to ACTION.
     */
    method HandleBuildSettlement(k: nat)
      requires Shaped() && k < tiles.Length
      modifies this, ui, tiles, players[currentPlayer]
      ensures Shaped() && View() == GameRules.HandleBuildSettlement(old(View()), k)
    {
      SaveState();
      var player := players[currentPlayer];
      if tiles[k].owner != Some(player.id) || tiles[k].settlement {
        return;  // "You can only build settlements on your own empty hexes!"
      }
      if !CanAfford(player.resources, COSTS.settlement) {
        return;  // "Not enough resources for settlement!"
      }
      PlaceSettlement(k);
    }

    /** The accepted branch of `handleBuildSettlement`. */
    method PlaceSettlement(k: nat)
      requires Shaped() && k < tiles.Length
      modifies this, tiles, players[currentPlayer]
      ensures Shaped() && View() == GameRules.PlaceSettlement(old(View()), k)
    {
      Pay(COSTS.settlement);
      Settle(k);
    }

    /** The settlement on tile `k`, and the return to ACTION. */
    method Settle(k: nat)
      requires Shaped() && k < tiles.Length
      modifies this, tiles
      ensures Shaped() && View() == GameRules.Settle(old(View()), k)
    {
      tiles[k] := tiles[k].(settlement := true);
      phase := Action;
    }

    /**
     * `handleExpandTerritory(tile)`: saves, then for an unowned tile next to one of the player's tiles
     * and with the territory price affordable pays it, adds the tile to the player and returns to ACTION.
     */
    method HandleExpandTerritory(k: nat)
      requires Shaped() && k < tiles.Length
      modifies this, ui, tiles, players[currentPlayer]
      ensures Shaped() && View() == GameRules.HandleExpandTerritory(old(View()), neighbors, k)
    {
      SaveState();
      var player := players[currentPlayer];
      if !CanExpandTo(player.id, tiles[..], neighbors, k) {
        return;  // "Can only expand to adjacent unowned hexes!"
      }
      if !CanAfford(player.resources, COSTS.territory) {
        return;  // "Not enough resources to expand!"
      }
      TakeTerritory(k);
    }

    /** The accepted branch of `handleExpandTerritory`. */
    method TakeTerritory(k: nat)
      requires Shaped() && k < tiles.Length
      modifies this, tiles, players[currentPlayer]
      ensures Shaped() && View() == GameRules.TakeTerritory(old(View()), k)
    {
      Pay(COSTS.territory);
      Claim(k);
    }

    /** `player.addHex(tile)` followed by the return to ACTION. */
    method Claim(k: nat)
      requires Shaped() && k < tiles.Length
      modifies this, tiles, players[currentPlayer]
      ensures Shaped() && View() == GameRules.Claim(old(View()), k)
    {
      ghost var g := View();
      var player := players[currentPlayer];
      player.AddHex(tiles, k);
      ghost var owned := tiles[..];
      ghost var roster := Records(players);
      assert roster == g.players[currentPlayer := player.Record()];
      phase := Action;
      assert View() == g.(tiles := owned, players := roster, phase := Action);
    }

    /**
     * `handleSetupSelection(tile)`: an owned tile, or one next to an owned tile, is refused; otherwise
     * the current player takes it with an army and a settlement, leaves the setup queue, and the next
     * queued player (or, when none is left, player 0 in RESOURCE_COLLECTION) is to play.
     */
    method HandleSetupSelection(k: nat)
      requires Shaped() && k < tiles.Length
      modifies this, ui, tiles, players[currentPlayer]
      ensures Shaped() && View() == GameRules.HandleSetupSelection(old(View()), neighbors, k)
    {
      ghost var g := View();
      if tiles[k].owner.Some? {
        return;  // "This hex is already taken!"
      }
      if AnyNeighborOwned(tiles[..], neighbors, k) {
        return;  // "Cannot choose a hex adjacent to another player's starting hex!"
      }
      var player := players[currentPlayer];
      player.AddHex(tiles, k);
      ghost var roster := Records(players);
      assert roster == g.players[currentPlayer := player.Record()];
      tiles[k] := tiles[k].(armies := 1, settlement := true);
      ghost var board := tiles[..];
      assert board == g.tiles[k := g.tiles[k].(owner := Some(currentPlayer), armies := 1, settlement := true)];
      AdvanceSetup();
      assert View() == GameRules.HandleSetupSelection(g, neighbors, k);
    }

    /** The end of a setup pick: the queue is shifted and its next player, or player 0 in RESOURCE_COLLECTION, is to play. */
    method AdvanceSetup()
      modifies this
      ensures var queue := Shift(old(setupPlayers));
        View() == old(View()).(setupPlayers := queue,
          currentPlayer := if |queue| > 0 then queue[0] else 0,
          phase := if |queue| > 0 then old(phase) else ResourceCollection)
    {
      setupPlayers := Shift(setupPlayers);
      if |setupPlayers| > 0 {
        currentPlayer := setupPlayers[0];
      } else {
        phase := ResourceCollection;
        currentPlayer := 0;
      }
    }
  
    /**
     * `moveArmy(from, to)`: one army goes from `from` to `to`; a source tile left with no army and no
     * settlement is removed from the current player.
     */
    method MoveArmy(from: nat, to: nat)
      requires Shaped() && from < tiles.Length && to < tiles.Length
      modifies tiles, players[currentPlayer]
      ensures Shaped() && View() == ApplyMove(old(View()), from, to)
    {
      ghost var g := View();
      StepArmy(from, to);
      if tiles[from].armies == 0 && !tiles[from].settlement {
        Release(from);
      }
      assert View() == ApplyMove(g, from, to);
    }

    /** The two army counts of `moveArmy`: one more on `to`, then one fewer on `from`. */
    method StepArmy(from: nat, to: nat)
      requires Shaped() && from < tiles.Length && to < tiles.Length
      modifies tiles
      ensures Shaped() && View() == GameRules.StepArmy(old(View()), from, to)
    {
      tiles[to] := tiles[to].(armies := tiles[to].armies + 1);
      tiles[from] := tiles[from].(armies := tiles[from].armies - 1);
    }

    /** The source tile is given up: no owner, and off the current player's list (`removeHex`). */
    method Release(from: nat)
      requires Shaped() && from < tiles.Length
      modifies tiles, players[currentPlayer]
      ensures Shaped() && View() == GameRules.Release(old(View()), from)
    {
      ghost var g := View();
      var player := players[currentPlayer];
      player.RemoveHex(tiles, from);
      assert Records(players) == g.players[currentPlayer := player.Record()];
    }

    /**
     * `handleMoveArmy(tile)`: the first click picks an own tile with armies; the second moves one army
     * to an adjacent own tile, or is refused with `moveFrom` kept.
     */
    method HandleMoveArmy(k: nat)
      requires Shaped() && k < tiles.Length
      modifies this, ui, tiles, players[currentPlayer]
      ensures Shaped() && View() == GameRules.HandleMoveArmy(old(View()), neighbors, k)
    {
      ghost var g := View();
      var player := players[currentPlayer];
      if moveFrom.None? {
        if tiles[k].owner != Some(player.id) || tiles[k].armies == 0 {
          return;  // "Select a hex with your army to move from"
        }
        moveFrom := Some(k);
        assert View() == g.(moveFrom := Some(k));
      } else {
        var m := moveFrom.value;
        if !IsValidMove(tiles[..], neighbors, m, k) || tiles[k].owner != Some(player.id) {
          return;  // "Invalid move - hexes must be adjacent and owned!"
        }
        CompleteMove(m, k);
      }
    }

    /**
     * The accepted second click of `handleMoveArmy`: saves, moves one army from `moveFrom` to the
     * clicked tile, marks the player as having moved, clears `moveFrom` and returns to ACTION.
     */
    method CompleteMove(m: nat, k: nat)
      requires Shaped() && m < tiles.Length && k < tiles.Length
      modifies this, ui, tiles, players[currentPlayer]
      ensures Shaped() && View() == GameRules.FinishMove(old(View()), m, k)
    {
      SaveState();
      MoveArmy(m, k);
      MarkMoved();
    }

    /** `player.hasMovedArmy = true`, `moveFrom = null`, `phase = ACTION`. */
    method MarkMoved()
      requires Shaped()
      modifies this, players[currentPlayer]
      ensures Shaped() && View() == GameRules.MarkMoved(old(View()))
    {
      ghost var g := View();
      var player := players[currentPlayer];
      player.SetMoved(true);
      assert Records(players) == g.players[currentPlayer := g.players[currentPlayer].(hasMovedArmy := true)];
      moveFrom := None;
      phase := Action;
      assert View() == g.(players := Records(players), moveFrom := None, phase := Action);
    }

    /** `performCombat(attacker, defender)`, with the comparison of the two random rolls given as `attackerWins`. */
    method PerformCombat(a: nat, d: nat, attackerWins: bool)
      requires a < tiles.Length && d < tiles.Length && a != d
      modifies tiles
      ensures tiles[..] == GameRules.PerformCombat(old(tiles[..]), a, d, attackerWins)
    {
      if attackerWins {
        tiles[d] := tiles[d].(owner := tiles[a].owner, armies := tiles[a].armies / 2);
        tiles[a] := tiles[a].(armies := CeilHalf(tiles[a].armies));
      } else {
        tiles[a] := tiles[a].(armies := CeilHalf(tiles[a].armies));
        tiles[d] := tiles[d].(armies := ThreeQuartersDown(tiles[d].armies));
      }
    }

    /**
     * `handleCombat(tile)`: the first click picks an own tile with armies; the second, on a valid
     * target, saves, resolves the combat and returns to ACTION; an invalid target changes nothing.
     */
    method HandleCombat(k: nat, attackerWins: bool)
      requires Shaped() && k < tiles.Length
      requires moveFrom.Some? ==> tiles[moveFrom.value].owner == Some(currentPlayer)
      modifies this, ui, tiles
      ensures Shaped() && View() == GameRules.HandleCombat(old(View()), neighbors, k, attackerWins)
    {
      ghost var g := View();
      var player := players[currentPlayer];
      match moveFrom
      case None =>
        if tiles[k].owner != Some(player.id) || tiles[k].armies == 0 {
          return;  // "Select a hex with your army to attack from"
        }
        moveFrom := Some(k);
      case Some(m) =>
        if !IsValidAttackTarget(tiles[..], neighbors, currentPlayer, m, k) {
          return;  // "Invalid attack target - must be adjacent and enemy-owned!"
        }
        SaveState();
        PerformCombat(m, k, attackerWins);
        moveFrom := None;
        phase := Action;
        assert View() == GameRules.HandleCombat(g, neighbors, k, attackerWins);
      }

    /** One roll of `collectResources`: each of the player's tiles showing the roll pays its bonus, in board order. */
    method CollectRoll(player: Player, roll: int)
      modifies player
      ensures player.Record() == old(player.Record()).(resources := old(player.resources).Plus(Yield(tiles[..], player.id, roll)))
    {
      for i := 0 to tiles.Length
        invariant player.Record() == old(player.Record()).(resources := old(player.resources).Plus(Yield(tiles[..i], player.id, roll)))
      {
        var t := tiles[i];
        if t.owner == Some(player.id) && t.resourceValue == roll {
          var bonus := if t.settlement then 2 else 1;
          var gain := match t.terrain
            case Forest => Wallet(bonus, 0, 0)
            case Mountain => Wallet(0, bonus, 0)
            case Grass => Wallet(0, 0, bonus);
          player.Receive(gain);
        }
        assert tiles[..i + 1][..i] == tiles[..i];
      }
      assert tiles[..tiles.Length] == tiles[..];
    }

    /**
     * `collectResources()`, with the two dice drawn by the caller: records the dice, pays the current
     * player for each roll and moves to ACTION.
     */
    method CollectResources(die1: int, die2: int)
      requires Shaped()
      modifies this, players[currentPlayer]
      ensures Shaped() && View() == GameRules.CollectResources(old(View()), die1, die2)
    {
      ghost var g := View();
      var player := players[currentPlayer];
      CollectRoll(player, die1);
      CollectRoll(player, die2);
      ghost var paid := Records(players);
      assert paid == GameRules.CollectResources(g, die1, die2).players;
      RecordRoll(die1, die2);
      assert View() == g.(dice := Dice(Some(die1), Some(die2)), players := paid, phase := Action);
    }

    /** The end of `collectResources`: the dice are shown and the phase becomes ACTION. */
    method RecordRoll(die1: int, die2: int)
      modifies this
      ensures View() == old(View()).(dice := Dice(Some(die1), Some(die2)), phase := Action)
    {
      dice := Dice(Some(die1), Some(die2));
      phase := Action;
    }

    /**
     * `endTurn()`: clears the leaving player's moved flag, passes the turn on, returns to
     * RESOURCE_COLLECTION with no selection and no dice, and disables the undo button.
     */
    method EndTurn()
      requires Shaped()
      modifies this, ui, players[currentPlayer]
      ensures Shaped() && View() == GameRules.EndTurn(old(View()))
    {
      ghost var g := View();
      var player := players[currentPlayer];
      player.SetMoved(false);
      ghost var roster := Records(players);
      assert roster == g.players[currentPlayer := g.players[currentPlayer].(hasMovedArmy := false)];
      PassTurn();
      assert View() == GameRules.EndTurn(g);
    }

    /** The rest of `endTurn`: the next player, RESOURCE_COLLECTION, no selection, no dice, undo disabled. */
    method PassTurn()
      requires |players| > 0
      modifies this, ui
      ensures View() == old(View()).(currentPlayer := (old(currentPlayer) + 1) % |players|,
        phase := ResourceCollection, moveFrom := None, dice := NoDice, undoAvailable := false)
    {
      currentPlayer := (currentPlayer + 1) % |players|;
      phase := ResourceCollection;
      moveFrom := None;
      dice := NoDice;
      ui.SetUndoAvailable(false);
    }

    /** The tile loop of `undoLastAction`. */
    method RestoreBoard(saved: seq<Tile>)
      requires |saved| == tiles.Length
      modifies tiles
      ensures tiles[..] == RestoreTiles(old(tiles[..]), saved)
    {
      for i := 0 to tiles.Length
        invariant forall j :: 0 <= j < i ==> tiles[j] == RestoreTiles(old(tiles[..]), saved)[j]
        invariant forall j :: i <= j < tiles.Length ==> tiles[j] == old(tiles[j])
      {
        tiles[i] := Tile(tiles[i].hex, saved[i].terrain, saved[i].resourceValue, saved[i].owner, saved[i].armies, saved[i].settlement);
      }
    }

    /** Distinct player objects. */
    predicate Distinct()
    {
      forall i, j :: 0 <= i < j < |players| ==> players[i] != players[j]
    }

    /** The player loop of `undoLastAction`. */
    method RestoreRoster(saved: seq<PlayerState>)
      requires Distinct() && |saved| == |players|
      modifies set p | p in players
      ensures Records(players) == RestorePlayers(old(Records(players)), saved)
    {
      ghost var before := Records(players);
      ghost var after := RestorePlayers(before, saved);
      for i := 0 to |players|
        invariant forall j :: 0 <= j < |players| ==> players[j].Record() == if j < i then after[j] else before[j]
      {
        players[i].Restore(saved[i]);
      }
    }

    /**
     * `undoLastAction()`: without a saved state nothing happens; otherwise tiles, players, the current
     * player and the turn state are put back as saved. The slot and the undo button are left as they are.
     */
    method UndoLastAction()
      requires Shaped()
      modifies this, tiles, set p | p in players
      ensures Shaped() && View() == GameRules.Undo(old(View()))
    {
      if previousState.None? {
        return;
      }
      ghost var g := View();
      var s := previousState.value;
      RestoreIsSaved(g);
      RestoreBoard(s.tiles);
      assert tiles[..] == s.tiles;
      RestoreRoster(s.players);
      assert Records(players) == s.players;
      AdoptTurn(s);
      assert View() == FromSnapshot(s, g.previousState, g.undoAvailable);
    }

    /** The end of `undoLastAction`: the current player and the turn state are put back as saved. */
    method AdoptTurn(s: Snapshot)
      modifies this
      ensures View() == old(View()).(currentPlayer := s.currentPlayer, phase := s.phase, moveFrom := s.moveFrom,
        dice := s.dice, setupPlayers := s.setupPlayers)
    {
      currentPlayer := s.currentPlayer;
      phase := s.phase;
      moveFrom := s.moveFrom;
      dice := s.dice;
      setupPlayers := s.setupPlayers;
    }

    /** `setPhase(phase)`; the instruction message and the HUD refresh are presentation. */
    method SetPhase(p: Phase)
      requires Shaped()
      modifies this
      ensures Shaped() && View() == old(View()).(phase := p)
    {
      phase := p;
    }

    /**
     * `handleHexClick(tile)`: the click on tile `k` goes to the handler of the current phase and is
     * ignored in RESOURCE_COLLECTION and ACTION; the rule invariant is kept.
     */
    method HandleHexClick(k: nat, attackerWins: bool)
      requires Valid() && k < tiles.Length
      modifies this, ui, tiles, players[currentPlayer]
      ensures Valid() && View() == GameRules.HandleHexClick(old(View()), neighbors, k, attackerWins)
    {
      HexClickKeepsInv(View(), neighbors, k, attackerWins);
      match phase
      case SetupSelection => HandleSetupSelection(k);
      case BuildArmy => HandleBuildArmy(k);
      case BuildSettlement => HandleBuildSettlement(k);
      case ExpandTerritory => HandleExpandTerritory(k);
      case MoveArmy => HandleMoveArmy(k);
      case Combat => HandleCombat(k, attackerWins);
      case ResourceCollection =>
      case Action =>
    }

    /**
     * `handleAction(action)`, with the dice a roll would draw given as `die1` and `die2`: rolling acts only
     * in RESOURCE_COLLECTION, the five action buttons only in ACTION, undo and end turn always; the
     * rule invariant is kept.
     */
    method HandleAction(b: Button, die1: int, die2: int)
      requires Valid()
      modifies this, ui, tiles, set p | p in players
      ensures Valid() && View() == GameRules.HandleAction(old(View()), b, die1, die2)
    {
      ActionKeepsInv(View(), b, die1, die2);
      match b
      case RollDiceButton =>
        if phase == ResourceCollection {
          CollectResources(die1, die2);
        }
      case BuildArmyButton =>
        if phase == Action {
          SetPhase(BuildArmy);
        }
      case BuildSettlementButton =>
        if phase == Action {
          SetPhase(BuildSettlement);
        }
      case ExpandTerritoryButton =>
        if phase == Action {
          SetPhase(ExpandTerritory);
        }
      case MoveArmyButton =>
        if phase == Action {
          SetPhase(Phase.MoveArmy);
        }
      case AttackButton =>
        if phase == Action {
          SetPhase(Combat);
        }
      case UndoButton => UndoLastAction();
      case EndTurnButton => EndTurn();
    }
  }
}
