/**
 * The rules engine of hexGame.js as values: the whole game state is a `Game`, and every handler
 * of the `HexGame` scene is a function from the state before to the state after. The scene class
 * (module Scene) is proved to follow these functions; the properties of the rules are stated here.
 *
 * A tile is referred to by its position in the board's tile array, and a player by its id,
 * which is its position in the player array (`new Player(i, ...)`).
 */
module GameRules {
  import opened Wrappers
  import opened Constants
  import opened HexBoard
  import opened Players

  /** `state.dice`; `null` before the first roll of a turn. */
  datatype Dice = Dice(die1: Option<int>, die2: Option<int>)

  const NoDice: Dice := Dice(None, None)

  /** The `previousState` object `saveState` builds. */
  datatype Snapshot = Snapshot(
    tiles: seq<Tile>,
    players: seq<PlayerState>,
    currentPlayer: nat,
    phase: Phase,
    moveFrom: Option<nat>,
    dice: Dice,
    setupPlayers: seq<nat>)

  /**
   * Everything the rules read or write: the board's tiles, the players, `currentPlayer`,
   * `state.{phase, moveFrom, dice, setupPlayers}`, the undo slot `previousState` and the
   * UI's `undoAvailable` flag, which `saveState` and `endTurn` set.
   */
  datatype Game = Game(
    tiles: seq<Tile>,
    players: seq<PlayerState>,
    currentPlayer: nat,
    phase: Phase,
    moveFrom: Option<nat>,
    dice: Dice,
    setupPlayers: seq<nat>,
    previousState: Option<Snapshot>,
    undoAvailable: bool)

  /** The buttons `setupUIHandlers` wires to `handleAction`. */
  datatype Button =
    | RollDiceButton
    | BuildArmyButton
    | BuildSettlementButton
    | ExpandTerritoryButton
    | MoveArmyButton
    | AttackButton
    | UndoButton
    | EndTurnButton

  // ---------------------------------------------------------------------------
  // Shape and invariant
  // ---------------------------------------------------------------------------

  /** Two sequences agree everywhere except possibly at position `k`. */
  predicate AgreeExcept<T(==)>(a: seq<T>, b: seq<T>, k: nat)
  {
    |a| == |b| && forall i :: 0 <= i < |a| && i != k ==> a[i] == b[i]
  }

  /** The player array is non-empty and every player's id is its index. */
  predicate Roster(players: seq<PlayerState>)
  {
    |players| > 0 && forall i :: 0 <= i < |players| ==> players[i].id == i
  }

  /** The references a state holds (current player, selected tile, setup queue) point into it. */
  predicate Shaped(tiles: seq<Tile>, players: seq<PlayerState>, cur: nat, moveFrom: Option<nat>, setup: seq<nat>)
  {
    && Roster(players)
    && cur < |players|
    && (moveFrom.Some? ==> moveFrom.value < |tiles|)
    && (forall i :: 0 <= i < |setup| ==> setup[i] < |players|)
  }

  /** The same board: as many tiles, on the same hexes. */
  predicate SameLayout(a: seq<Tile>, b: seq<Tile>)
  {
    |a| == |b| && forall i :: 0 <= i < |a| ==> a[i].hex == b[i].hex
  }

  /** The same players: as many, with the same ids, names and colours. */
  predicate SameRoster(a: seq<PlayerState>, b: seq<PlayerState>)
  {
    |a| == |b| && forall i :: 0 <= i < |a| ==> a[i].id == b[i].id && a[i].name == b[i].name && a[i].color == b[i].color
  }

  /** A well-formed state, whose saved snapshot (if any) was taken of the same board and players. */
  predicate WellFormed(g: Game)
  {
    && Shaped(g.tiles, g.players, g.currentPlayer, g.moveFrom, g.setupPlayers)
    && (g.previousState.Some? ==>
          var s := g.previousState.value;
          && Shaped(s.tiles, s.players, s.currentPlayer, s.moveFrom, s.setupPlayers)
          && SameLayout(s.tiles, g.tiles)
          && SameRoster(s.players, g.players))
  }

  /** A tile never holds negative armies, and an unowned tile holds neither armies nor a settlement. */
  predicate TileConsistent(t: Tile)
  {
    t.armies >= 0 && (t.owner == None ==> t.armies == 0 && !t.settlement)
  }

  /**
   * The rule invariant of one state: every tile is consistent, no player's stock of any resource is
   * negative, and a pending `moveFrom` exists only in the move and combat phases and is a tile of the
   * current player with armies on it.
   */
  predicate RulesHold(tiles: seq<Tile>, players: seq<PlayerState>, cur: nat, phase: Phase, moveFrom: Option<nat>)
  {
    && (forall i :: 0 <= i < |tiles| ==> TileConsistent(tiles[i]))
    && (forall i :: 0 <= i < |players| ==> players[i].resources.NonNegative())
    && (moveFrom.Some? ==>
          && moveFrom.value < |tiles|
          && (phase == MoveArmy || phase == Combat)
          && tiles[moveFrom.value].owner == Some(cur)
          && tiles[moveFrom.value].armies > 0)
  }

  /** The invariant of every reachable state, and of the snapshot it holds. */
  predicate Inv(g: Game)
  {
    && WellFormed(g)
    && RulesHold(g.tiles, g.players, g.currentPlayer, g.phase, g.moveFrom)
    && (g.previousState.Some? ==>
          var s := g.previousState.value;
          RulesHold(s.tiles, s.players, s.currentPlayer, s.phase, s.moveFrom))
  }

  function Current(g: Game): PlayerState
    requires WellFormed(g)
  {
    g.players[g.currentPlayer]
  }

  // ---------------------------------------------------------------------------
  // Start of a game
  // ---------------------------------------------------------------------------

  /**
   * The state `create` sets up from the registry's player data: one player per entry with id = index,
   * every player queued for setup, player 0 to choose first.
   */
  function InitialGame(grid: seq<Hex>, draws: seq<TileDraw>, data: seq<PlayerData>): (g: Game)
    requires |draws| == |grid| && forall i :: 0 <= i < |draws| ==> DrawInRange(draws[i])
    requires |data| > 0
    ensures Inv(g)
    ensures g.phase == SetupSelection && g.currentPlayer == 0 && g.previousState == None
    ensures |g.setupPlayers| == |g.players| == |data| && forall i :: 0 <= i < |data| ==> g.setupPlayers[i] == i
    ensures forall i :: 0 <= i < |data| ==>
      g.players[i] == PlayerState(i, data[i].name, data[i].color, StartingWallet, [], false)
    ensures forall i :: 0 <= i < |g.tiles| ==> Pristine(g.tiles[i])
  {
    Game(
      InitializeTiles(grid, draws),
      seq(|data|, i requires 0 <= i < |data| => PlayerState(i, data[i].name, data[i].color, StartingWallet, [], false)),
      0,
      SetupSelection,
      None,
      NoDice,
      seq(|data|, i => i),
      None,
      false)
  }

  // ---------------------------------------------------------------------------
  // saveState and undoLastAction
  // ---------------------------------------------------------------------------

  /** The snapshot `saveState` takes of a state. */
  function Snap(g: Game): Snapshot
  {
    Snapshot(g.tiles, g.players, g.currentPlayer, g.phase, g.moveFrom, g.dice, g.setupPlayers)
  }

  /** `saveState`: overwrites the undo slot with the current state and enables the undo button. */
  function SaveState(g: Game): (r: Game)
    ensures WellFormed(g) ==> WellFormed(r)
    ensures r.previousState == Some(Snap(g)) && r.undoAvailable
    ensures r.(previousState := g.previousState, undoAvailable := g.undoAvailable) == g
  {
    g.(previousState := Some(Snap(g)), undoAvailable := true)
  }

  /** The tile loop of `undoLastAction`: every tile takes the saved type, value, owner, armies and settlement. */
  function RestoreTiles(current: seq<Tile>, saved: seq<Tile>): (r: seq<Tile>)
    requires |saved| == |current|
  {
    seq(|current|, i requires 0 <= i < |current| =>
      Tile(current[i].hex, saved[i].terrain, saved[i].resourceValue, saved[i].owner, saved[i].armies, saved[i].settlement))
  }

  /** The player loop of `undoLastAction`: every player takes the saved resources, hexes and moved flag. */
  function RestorePlayers(current: seq<PlayerState>, saved: seq<PlayerState>): (r: seq<PlayerState>)
    requires |saved| == |current|
  {
    seq(|current|, i requires 0 <= i < |current| =>
      current[i].(resources := saved[i].resources, hexes := saved[i].hexes, hasMovedArmy := saved[i].hasMovedArmy))
  }

  /** The state a snapshot describes, with the given undo slot and undo flag. */
  function FromSnapshot(s: Snapshot, slot: Option<Snapshot>, undoAvailable: bool): Game
  {
    Game(s.tiles, s.players, s.currentPlayer, s.phase, s.moveFrom, s.dice, s.setupPlayers, slot, undoAvailable)
  }

  /**
   * `undoLastAction`: nothing when the slot is empty; otherwise the state becomes exactly the saved
   * one. The slot is kept and the undo flag is not touched.
   */
  function Undo(g: Game): (r: Game)
    requires WellFormed(g)
    ensures g.previousState.None? ==> r == g
    ensures g.previousState.Some? ==> r == FromSnapshot(g.previousState.value, g.previousState, g.undoAvailable)
    ensures WellFormed(r)
  {
    match g.previousState
    case None => g
    case Some(s) =>
      var r := g.(
        tiles := RestoreTiles(g.tiles, s.tiles),
        players := RestorePlayers(g.players, s.players),
        currentPlayer := s.currentPlayer,
        phase := s.phase,
        moveFrom := s.moveFrom,
        dice := s.dice,
        setupPlayers := s.setupPlayers);
      assert r.tiles == s.tiles by {
        forall i | 0 <= i < |s.tiles| ensures r.tiles[i] == s.tiles[i] {
          assert s.tiles[i].hex == g.tiles[i].hex;
        }
      }
      assert r.players == s.players;
      r
  }

  /** The restoring loops of `undoLastAction` leave exactly the saved tiles and players. */
  lemma RestoreIsSaved(g: Game)
    requires WellFormed(g) && g.previousState.Some?
    ensures RestoreTiles(g.tiles, g.previousState.value.tiles) == g.previousState.value.tiles
    ensures RestorePlayers(g.players, g.previousState.value.players) == g.previousState.value.players
  {
    var s := g.previousState.value;
    forall i | 0 <= i < |s.tiles| ensures RestoreTiles(g.tiles, s.tiles)[i] == s.tiles[i] {
      assert s.tiles[i].hex == g.tiles[i].hex;
    }
  }

  /** Undo twice in a row is undo once: the kept snapshot restores the same state again. */
  lemma UndoIsIdempotent(g: Game)
    requires WellFormed(g)
    ensures Undo(Undo(g)) == Undo(g)
  {
  }

  /** Undoing right after a save restores the state as it was when saved; only the slot and flag differ. */
  lemma UndoRevertsToSaved(g: Game, r: Game)
    requires WellFormed(r) && r.previousState == Some(Snap(g))
    ensures Undo(r) == g.(previousState := r.previousState, undoAvailable := r.undoAvailable)
  {
  }

  // ---------------------------------------------------------------------------
  // Setup selection
  // ---------------------------------------------------------------------------

  /** The setup adjacency test: some neighbour hex of tile `k` carries a tile with any owner. */
  predicate AnyNeighborOwned(tiles: seq<Tile>, neighbors: Neighbors, k: nat)
    requires k < |tiles|
  {
    exists n :: n in neighbors(tiles[k].hex) && (var at := GetTileAt(tiles, n); at.Some? && tiles[at.value].owner.Some?)
  }

  /** The setup queue after `shift()`; shifting an empty queue leaves it empty. */
  function Shift(queue: seq<nat>): (r: seq<nat>)
    ensures |queue| > 0 ==> r == queue[1..]
    ensures |queue| == 0 ==> r == []
  {
    if |queue| > 0 then queue[1..] else []
  }

  /**
   * `handleSetupSelection`: a tile that is owned, or that borders an owned tile, is refused with no
   * change at all. Otherwise the current player takes it with one army and a settlement, leaves the
   * setup queue, and the turn passes to the next queued player, or, once the queue is empty, the
   * game moves to resource collection with player 0.
   */
  function HandleSetupSelection(g: Game, neighbors: Neighbors, k: nat): (r: Game)
    requires WellFormed(g) && k < |g.tiles|
    ensures WellFormed(r)
    ensures r == g <==> g.tiles[k].owner.Some? || AnyNeighborOwned(g.tiles, neighbors, k)
    ensures r != g ==>
      && r.tiles == g.tiles[k := g.tiles[k].(owner := Some(g.currentPlayer), armies := 1, settlement := true)]
      && AgreeExcept(r.players, g.players, g.currentPlayer)
      && r.players[g.currentPlayer] == Current(g).(hexes := Current(g).hexes + [k])
      && r.setupPlayers == Shift(g.setupPlayers)
      && (|r.setupPlayers| > 0 ==> r.currentPlayer == r.setupPlayers[0] && r.phase == g.phase)
      && (|r.setupPlayers| == 0 ==> r.currentPlayer == 0 && r.phase == ResourceCollection)
      && r.moveFrom == g.moveFrom && r.dice == g.dice
      && r.previousState == g.previousState && r.undoAvailable == g.undoAvailable
  {
    if g.tiles[k].owner.Some? then g  // "This hex is already taken!"
    else if AnyNeighborOwned(g.tiles, neighbors, k) then g
    else
      var p := Current(g);
      var tiles := g.tiles[k := g.tiles[k].(owner := Some(p.id))];
      var players := g.players[g.currentPlayer := p.(hexes := p.hexes + [k])];
      var tiles := tiles[k := tiles[k].(armies := 1, settlement := true)];
      var queue := Shift(g.setupPlayers);
      if |queue| > 0 then
        g.(tiles := tiles, players := players, setupPlayers := queue, currentPlayer := queue[0])
      else
        g.(tiles := tiles, players := players, setupPlayers := queue, phase := ResourceCollection, currentPlayer := 0)
  }

  // ---------------------------------------------------------------------------
  // Building and expanding
  // ---------------------------------------------------------------------------

  /** Only the current player's wallet may differ between the two states. */
  predicate OnlyWalletChanged(g: Game, r: Game)
    requires WellFormed(g)
  {
    && AgreeExcept(r.players, g.players, g.currentPlayer)
    && r.players[g.currentPlayer] == Current(g).(resources := r.players[g.currentPlayer].resources)
  }

  /** Current player, selection, dice and setup queue are the same in both states. */
  predicate SameControl(g: Game, r: Game)
  {
    r.currentPlayer == g.currentPlayer && r.moveFrom == g.moveFrom && r.dice == g.dice && r.setupPlayers == g.setupPlayers
  }

  /** The current player pays `cost` out of their wallet; nothing else changes. */
  function Pay(g: Game, cost: Cost): (r: Game)
    requires WellFormed(g)
    ensures WellFormed(r)
  {
    g.(players := g.players[g.currentPlayer := Current(g).(resources := Spend(Current(g).resources, cost))])
  }

  predicate BuildArmyAccepted(g: Game, k: nat)
    requires WellFormed(g) && k < |g.tiles|
  {
    g.tiles[k].owner == Some(Current(g).id) && CanAfford(Current(g).resources, COSTS.army)
  }

  /**
   * `handleBuildArmy`: the state is saved first, whatever follows. On the player's own tile and with
   * the army price affordable, exactly that price is paid, the tile gains one army and the phase returns
   * to ACTION; otherwise nothing but the undo slot changes.
   */
  function HandleBuildArmy(g: Game, k: nat): (r: Game)
    requires WellFormed(g) && k < |g.tiles|
    ensures WellFormed(r)
    ensures r.previousState == Some(Snap(g)) && r.undoAvailable && SameControl(g, r)
    ensures BuildArmyAccepted(g, k) ==>
      && OnlyWalletChanged(g, r)
      && r.players[g.currentPlayer].resources == Spend(Current(g).resources, COSTS.army)
      && r.tiles == g.tiles[k := g.tiles[k].(armies := g.tiles[k].armies + 1)]
      && r.phase == Action
    ensures !BuildArmyAccepted(g, k) ==> r == SaveState(g)
  {
    var s := SaveState(g);
    if g.tiles[k].owner != Some(Current(g).id) then s  // "You can only build on your own hexes!"
    else if !CanAfford(Current(g).resources, COSTS.army) then s  // "Not enough resources for army!"
    else PlaceArmy(s, k)
  }

  /** The accepted build: the army price is paid, the tile gains an army and the phase returns to ACTION. */
  function PlaceArmy(g: Game, k: nat): (r: Game)
    requires WellFormed(g) && k < |g.tiles|
    ensures WellFormed(r)
  {
    Reinforce(Pay(g, COSTS.army), k)
  }

  /** Tile `k` gains one army and the phase returns to ACTION. */
  function Reinforce(g: Game, k: nat): (r: Game)
    requires WellFormed(g) && k < |g.tiles|
    ensures WellFormed(r)
  {
    g.(tiles := g.tiles[k := g.tiles[k].(armies := g.tiles[k].armies + 1)], phase := Action)
  }

  predicate BuildSettlementAccepted(g: Game, k: nat)
    requires WellFormed(g) && k < |g.tiles|
  {
    g.tiles[k].owner == Some(Current(g).id) && !g.tiles[k].settlement && CanAfford(Current(g).resources, COSTS.settlement)
  }

  /**
   * `handleBuildSettlement`: saved first; on the player's own tile without a settlement and with the
   * settlement price affordable, exactly that price is paid, the tile gets its settlement and the phase
   * returns to ACTION; otherwise nothing but the undo slot changes.
   */
  function HandleBuildSettlement(g: Game, k: nat): (r: Game)
    requires WellFormed(g) && k < |g.tiles|
    ensures WellFormed(r)
    ensures r.previousState == Some(Snap(g)) && r.undoAvailable && SameControl(g, r)
    ensures BuildSettlementAccepted(g, k) ==>
      && OnlyWalletChanged(g, r)
      && r.players[g.currentPlayer].resources == Spend(Current(g).resources, COSTS.settlement)
      && r.tiles == g.tiles[k := g.tiles[k].(settlement := true)]
      && r.phase == Action
    ensures !BuildSettlementAccepted(g, k) ==> r == SaveState(g)
  {
    var s := SaveState(g);
    if g.tiles[k].owner != Some(Current(g).id) || g.tiles[k].settlement then s
    else if !CanAfford(Current(g).resources, COSTS.settlement) then s
    else PlaceSettlement(s, k)
  }

  /** The accepted build: the settlement price is paid, the tile gets its settlement and the phase returns to ACTION. */
  function PlaceSettlement(g: Game, k: nat): (r: Game)
    requires WellFormed(g) && k < |g.tiles|
    ensures WellFormed(r)
  {
    Settle(Pay(g, COSTS.settlement), k)
  }

  /** Tile `k` gets its settlement and the phase returns to ACTION. */
  function Settle(g: Game, k: nat): (r: Game)
    requires WellFormed(g) && k < |g.tiles|
    ensures WellFormed(r)
  {
    g.(tiles := g.tiles[k := g.tiles[k].(settlement := true)], phase := Action)
  }

  predicate ExpandAccepted(g: Game, neighbors: Neighbors, k: nat)
    requires WellFormed(g) && k < |g.tiles|
  {
    CanExpandTo(Current(g).id, g.tiles, neighbors, k) && CanAfford(Current(g).resources, COSTS.territory)
  }

  /**
   * `handleExpandTerritory`: saved first; an unowned tile bordering one of the player's tiles, with the
   * territory price affordable, is bought: exactly that price is paid, the tile's owner becomes the
   * current player, it is appended to the player's hexes and the phase returns to ACTION. Otherwise
   * nothing but the undo slot changes.
   */
  function HandleExpandTerritory(g: Game, neighbors: Neighbors, k: nat): (r: Game)
    requires WellFormed(g) && k < |g.tiles|
    ensures WellFormed(r)
    ensures r.previousState == Some(Snap(g)) && r.undoAvailable && SameControl(g, r)
    ensures ExpandAccepted(g, neighbors, k) ==>
      && AgreeExcept(r.players, g.players, g.currentPlayer)
      && r.players[g.currentPlayer] == Current(g).(
           resources := Spend(Current(g).resources, COSTS.territory),
           hexes := Current(g).hexes + [k])
      && r.tiles == g.tiles[k := g.tiles[k].(owner := Some(g.currentPlayer))]
      && r.phase == Action
    ensures !ExpandAccepted(g, neighbors, k) ==> r == SaveState(g)
  {
    var s := SaveState(g);
    if !CanExpandTo(Current(g).id, g.tiles, neighbors, k) then s  // "Can only expand to adjacent unowned hexes!"
    else if !CanAfford(Current(g).resources, COSTS.territory) then s
    else TakeTerritory(s, k)
  }

  /** The accepted expansion: the territory price is paid, the tile becomes the player's and the phase returns to ACTION. */
  function TakeTerritory(g: Game, k: nat): (r: Game)
    requires WellFormed(g) && k < |g.tiles|
    ensures WellFormed(r)
  {
    Claim(Pay(g, COSTS.territory), k)
  }

  /** The current player takes tile `k` (`addHex`) and the phase returns to ACTION. */
  function Claim(g: Game, k: nat): (r: Game)
    requires WellFormed(g) && k < |g.tiles|
    ensures WellFormed(r)
  {
    var p := Current(g);
    g.(players := g.players[g.currentPlayer := p.(hexes := p.hexes + [k])],
       tiles := g.tiles[k := g.tiles[k].(owner := Some(p.id))],
       phase := Action)
  }

  // ---------------------------------------------------------------------------
  // Moving armies
  // ---------------------------------------------------------------------------

  /** `isValidMove(from, to)`: the destination's hex is one of the source hex's neighbours. */
  predicate IsValidMove(tiles: seq<Tile>, neighbors: Neighbors, from: nat, to: nat)
    requires from < |tiles| && to < |tiles|
    ensures DistinctHexes(tiles) && IsValidMove(tiles, neighbors, from, to) && tiles[to].owner.Some? ==>
      IsAdjacentToOwned(tiles, neighbors, from, tiles[to].owner.value)
  {
    tiles[to].hex in neighbors(tiles[from].hex)
  }

  /**
   * `moveArmy(from, to)`: one army goes from `from` to `to`, so the two tiles' total is unchanged; the
   * current player gives up the source tile exactly when it is left with no army and no settlement.
   */
  function ApplyMove(g: Game, from: nat, to: nat): (r: Game)
    requires WellFormed(g) && from < |g.tiles| && to < |g.tiles|
    ensures WellFormed(r)
    ensures SameControl(g, r) && r.phase == g.phase && r.previousState == g.previousState && r.undoAvailable == g.undoAvailable
    ensures |r.tiles| == |g.tiles| && forall i :: 0 <= i < |g.tiles| && i != from && i != to ==> r.tiles[i] == g.tiles[i]
    ensures from == to ==> r.tiles[from].armies == g.tiles[from].armies
    ensures from != to ==> r.tiles[to] == g.tiles[to].(armies := g.tiles[to].armies + 1)
    ensures from != to ==> r.tiles[from].armies == g.tiles[from].armies - 1
    ensures r.tiles[from].armies + r.tiles[to].armies == g.tiles[from].armies + g.tiles[to].armies
    ensures from != to ==> var released := g.tiles[from].armies == 1 && !g.tiles[from].settlement;
      && (released ==> r.tiles[from] == g.tiles[from].(armies := 0, owner := None))
      && (!released ==> r.tiles[from] == g.tiles[from].(armies := g.tiles[from].armies - 1))
      && AgreeExcept(r.players, g.players, g.currentPlayer)
      && r.players[g.currentPlayer] ==
           if released then Current(g).(hexes := Without(Current(g).hexes, from)) else Current(g)
  {
    var s := StepArmy(g, from, to);
    if s.tiles[from].armies == 0 && !s.tiles[from].settlement then Release(s, from) else s
  }

  /** The two army counts of `moveArmy`: one more on `to`, then one fewer on `from`. */
  function StepArmy(g: Game, from: nat, to: nat): (r: Game)
    requires WellFormed(g) && from < |g.tiles| && to < |g.tiles|
    ensures WellFormed(r)
  {
    var t1 := g.tiles[to := g.tiles[to].(armies := g.tiles[to].armies + 1)];
    g.(tiles := t1[from := t1[from].(armies := t1[from].armies - 1)])
  }

  /** Tile `from` is given up: it loses its owner and leaves the current player's list (`removeHex`). */
  function Release(g: Game, from: nat): (r: Game)
    requires WellFormed(g) && from < |g.tiles|
    ensures WellFormed(r)
  {
    var p := Current(g);
    g.(tiles := g.tiles[from := g.tiles[from].(owner := None)],
       players := g.players[g.currentPlayer := p.(hexes := Without(p.hexes, from))])
  }

  /**
   * `handleMoveArmy`. First click (no `moveFrom`): an own tile with armies becomes `moveFrom`,
   * anything else changes nothing. Second click: accepted only for a neighbour of `moveFrom` that the
   * current player already owns; a refused click changes nothing and leaves `moveFrom` set. An accepted
   * click saves the state, moves one army, marks the player as having moved, clears `moveFrom` and
   * returns to ACTION. The moved flag is never consulted here.
   */
  function HandleMoveArmy(g: Game, neighbors: Neighbors, k: nat): (r: Game)
    requires WellFormed(g) && k < |g.tiles|
    ensures WellFormed(r)
    ensures g.moveFrom.None? ==>
      r == if g.tiles[k].owner != Some(g.currentPlayer) || g.tiles[k].armies == 0 then g else g.(moveFrom := Some(k))
    ensures g.moveFrom.Some? ==>
      var m := g.moveFrom.value;
      && (!IsValidMove(g.tiles, neighbors, m, k) || g.tiles[k].owner != Some(g.currentPlayer) ==> r == g)
      && (IsValidMove(g.tiles, neighbors, m, k) && g.tiles[k].owner == Some(g.currentPlayer) ==> r == FinishMove(g, m, k))
  {
    var p := Current(g);
    match g.moveFrom
    case None =>
      if g.tiles[k].owner != Some(p.id) || g.tiles[k].armies == 0 then g  // "Select a hex with your army to move from"
      else g.(moveFrom := Some(k))
    case Some(m) =>
      if !IsValidMove(g.tiles, neighbors, m, k) || g.tiles[k].owner != Some(p.id) then g  // "Invalid move"
      else FinishMove(g, m, k)
  }

  /** The accepted second click of `handleMoveArmy`: save, move, mark the player as having moved, back to ACTION. */
  function FinishMove(g: Game, m: nat, k: nat): (r: Game)
    requires WellFormed(g) && m < |g.tiles| && k < |g.tiles|
    ensures WellFormed(r)
    ensures r.previousState == Some(Snap(g)) && r.undoAvailable
    ensures r.tiles == ApplyMove(g, m, k).tiles
    ensures r.tiles[m].armies + r.tiles[k].armies == g.tiles[m].armies + g.tiles[k].armies
    ensures AgreeExcept(r.players, g.players, g.currentPlayer)
    ensures r.players[g.currentPlayer] == ApplyMove(g, m, k).players[g.currentPlayer].(hasMovedArmy := true)
    ensures r.moveFrom == None && r.phase == Action
    ensures r.currentPlayer == g.currentPlayer && r.dice == g.dice && r.setupPlayers == g.setupPlayers
  {
    MarkMoved(ApplyMove(SaveState(g), m, k))
  }

  /** The end of an accepted move: the current player has moved, no source is selected, the phase is ACTION. */
  function MarkMoved(g: Game): (r: Game)
    requires WellFormed(g)
    ensures WellFormed(r)
    ensures r.tiles == g.tiles && r.previousState == g.previousState
    ensures |r.players| == |g.players| && forall i :: 0 <= i < |g.players| ==> r.players[i].hexes == g.players[i].hexes
  {
    g.(players := g.players[g.currentPlayer := Current(g).(hasMovedArmy := true)], moveFrom := None, phase := Action)
  }

  // ---------------------------------------------------------------------------
  // Combat
  // ---------------------------------------------------------------------------

  /** `isValidAttackTarget`: a neighbour of `moveFrom` that the current player does not own (an unowned tile qualifies). */
  predicate IsValidAttackTarget(tiles: seq<Tile>, neighbors: Neighbors, cur: nat, from: nat, k: nat)
    requires from < |tiles| && k < |tiles|
    ensures IsValidAttackTarget(tiles, neighbors, cur, from, k) <==>
      tiles[k].owner != Some(cur) && IsValidMove(tiles, neighbors, from, k)
    ensures IsValidAttackTarget(tiles, neighbors, cur, from, k) && tiles[from].owner == Some(cur) ==> k != from
  {
    tiles[k].owner != Some(cur) && tiles[k].hex in neighbors(tiles[from].hex)
  }

  /** `Math.ceil(x / 2)` on an integer. */
  function CeilHalf(x: int): (r: int)
    ensures 2 * r - 1 <= x <= 2 * r
  {
    (x + 1) / 2
  }

  /** `Math.floor(x * 0.75)` on an integer (exact in floating point for army counts). */
  function ThreeQuartersDown(x: int): (r: int)
    ensures 4 * r <= 3 * x < 4 * r + 4
  {
    (3 * x) / 4
  }

  /**
   * `performCombat(attacker, defender)` with the dice comparison `attackRoll > defendRoll` given as
   * `attackerWins`. A win hands the defender tile to the attacker's owner and splits the attacking
   * armies between the two tiles, the larger half staying behind; the defender's armies are lost.
   * A loss halves the attacker (rounding up) and leaves the defender three quarters (rounding down).
   * No other tile changes, and settlements stay where they are.
   */
  function PerformCombat(tiles: seq<Tile>, a: nat, d: nat, attackerWins: bool): (r: seq<Tile>)
    requires a < |tiles| && d < |tiles| && a != d
    ensures |r| == |tiles| && forall i :: 0 <= i < |tiles| && i != a && i != d ==> r[i] == tiles[i]
    ensures r[a].hex == tiles[a].hex && r[a].owner == tiles[a].owner && r[a].settlement == tiles[a].settlement
    ensures r[d].hex == tiles[d].hex && r[d].settlement == tiles[d].settlement
    ensures r[a].terrain == tiles[a].terrain && r[a].resourceValue == tiles[a].resourceValue
    ensures r[d].terrain == tiles[d].terrain && r[d].resourceValue == tiles[d].resourceValue
    ensures attackerWins ==>
      && r[d].owner == tiles[a].owner
      && r[a].armies + r[d].armies == tiles[a].armies
      && r[d].armies <= r[a].armies <= r[d].armies + 1
    ensures !attackerWins ==>
      && r[d].owner == tiles[d].owner
      && 2 * r[a].armies - 1 <= tiles[a].armies <= 2 * r[a].armies
      && 4 * r[d].armies <= 3 * tiles[d].armies < 4 * r[d].armies + 4
  {
    var at := tiles[a];
    var de := tiles[d];
    if attackerWins then
      tiles[d := de.(owner := at.owner, armies := at.armies / 2)][a := at.(armies := CeilHalf(at.armies))]
    else
      tiles[a := at.(armies := CeilHalf(at.armies))][d := de.(armies := ThreeQuartersDown(de.armies))]
  }

  /**
   * `handleCombat`. The first click selects an own tile with armies as `moveFrom`, as in moving.
   * A second click on an invalid target changes nothing; on a valid one the state is saved, the
   * combat is resolved, `moveFrom` is cleared and the phase returns to ACTION. The players' hex lists
   * are not touched, not even on a conquest.
   */
  function HandleCombat(g: Game, neighbors: Neighbors, k: nat, attackerWins: bool): (r: Game)
    requires WellFormed(g) && k < |g.tiles|
    requires g.moveFrom.Some? ==> g.tiles[g.moveFrom.value].owner == Some(g.currentPlayer)
    ensures WellFormed(r)
    ensures g.moveFrom.None? ==>
      r == if g.tiles[k].owner != Some(g.currentPlayer) || g.tiles[k].armies == 0 then g else g.(moveFrom := Some(k))
    ensures g.moveFrom.Some? ==>
      var m := g.moveFrom.value;
      && (!IsValidAttackTarget(g.tiles, neighbors, g.currentPlayer, m, k) ==> r == g)
      && (IsValidAttackTarget(g.tiles, neighbors, g.currentPlayer, m, k) ==>
            && r.previousState == Some(Snap(g)) && r.undoAvailable
            && r.tiles == PerformCombat(g.tiles, m, k, attackerWins)
            && r.players == g.players
            && r.moveFrom == None && r.phase == Action
            && r.currentPlayer == g.currentPlayer && r.dice == g.dice && r.setupPlayers == g.setupPlayers)
  {
    var p := Current(g);
    match g.moveFrom
    case None =>
      if g.tiles[k].owner != Some(p.id) || g.tiles[k].armies == 0 then g  // "Select a hex with your army to attack from"
      else g.(moveFrom := Some(k))
    case Some(m) =>
      if !IsValidAttackTarget(g.tiles, neighbors, g.currentPlayer, m, k) then g
      else
        var g := SaveState(g);
        g.(tiles := PerformCombat(g.tiles, m, k, attackerWins), moveFrom := None, phase := Action)
  }

  // ---------------------------------------------------------------------------
  // Resource collection
  // ---------------------------------------------------------------------------

  const NoResources: Wallet := Wallet(0, 0, 0)

  /** The resource a terrain yields: forest gives wood, mountain stone and grass food. */
  function ResourceOf(terrain: Terrain): Resource
  {
    match terrain
    case Forest => Wood
    case Mountain => Stone
    case Grass => Food
  }

  /** What one tile gives player `id` on a roll: 2 with a settlement, otherwise 1, of its terrain's resource. */
  function TileYield(t: Tile, id: nat, roll: int): (w: Wallet)
    ensures w.NonNegative() && w.wood + w.stone + w.food <= 2
    ensures w != NoResources <==> t.owner == Some(id) && t.resourceValue == roll
    ensures t.owner == Some(id) && t.resourceValue == roll ==>
      && w.Get(ResourceOf(t.terrain)) == (if t.settlement then 2 else 1)
      && forall r :: r != ResourceOf(t.terrain) ==> w.Get(r) == 0
  {
    if t.owner == Some(id) && t.resourceValue == roll then
      var bonus := if t.settlement then 2 else 1;
      match t.terrain
      case Forest => Wallet(bonus, 0, 0)
      case Mountain => Wallet(0, bonus, 0)
      case Grass => Wallet(0, 0, bonus)
    else NoResources
  }

  /** A settlement doubles what a tile pays, of every resource, whether or not the tile pays at all. */
  lemma SettlementDoublesYield(t: Tile, id: nat, roll: int, res: Resource)
    ensures TileYield(t.(settlement := true), id, roll).Get(res) == 2 * TileYield(t.(settlement := false), id, roll).Get(res)
  {
    var paying := t.owner == Some(id) && t.resourceValue == roll;
    if paying && res != ResourceOf(t.terrain) {
      assert TileYield(t.(settlement := true), id, roll).Get(res) == 0;
    }
  }

  /** The sum of `TileYield` over the tiles, in board order. */
  function Yield(tiles: seq<Tile>, id: nat, roll: int): (w: Wallet)
    ensures w.NonNegative()
  {
    if |tiles| == 0 then NoResources
    else Yield(tiles[..|tiles| - 1], id, roll).Plus(TileYield(tiles[|tiles| - 1], id, roll))
  }

  /** The number of tiles that pay player `id` on a roll. */
  function Matching(tiles: seq<Tile>, id: nat, roll: int): (n: nat)
    ensures n <= |tiles|
  {
    if |tiles| == 0 then 0
    else Matching(tiles[..|tiles| - 1], id, roll) + (if tiles[|tiles| - 1].owner == Some(id) && tiles[|tiles| - 1].resourceValue == roll then 1 else 0)
  }

  /**
   * `collectResources` with the two dice drawn by the caller: the dice are recorded, the current player
   * receives the yield of both rolls, and the phase becomes ACTION.
   */
  function CollectResources(g: Game, die1: int, die2: int): (r: Game)
    requires WellFormed(g)
    ensures WellFormed(r)
    ensures r.dice == Dice(Some(die1), Some(die2)) && r.phase == Action
    ensures AgreeExcept(r.players, g.players, g.currentPlayer)
    ensures r.players[g.currentPlayer] == Current(g).(resources :=
      Current(g).resources.Plus(Yield(g.tiles, g.currentPlayer, die1)).Plus(Yield(g.tiles, g.currentPlayer, die2)))
    ensures r.tiles == g.tiles && r.currentPlayer == g.currentPlayer && r.moveFrom == g.moveFrom
    ensures r.setupPlayers == g.setupPlayers && r.previousState == g.previousState && r.undoAvailable == g.undoAvailable
  {
    var p := Current(g);
    var w := p.resources.Plus(Yield(g.tiles, p.id, die1)).Plus(Yield(g.tiles, p.id, die2));
    g.(dice := Dice(Some(die1), Some(die2)),
       players := g.players[g.currentPlayer := p.(resources := w)],
       phase := Action)
  }

  // ---------------------------------------------------------------------------
  // End of turn
  // ---------------------------------------------------------------------------

  /**
   * `endTurn`: the leaving player's moved flag is cleared, the turn passes to the next player in a
   * cycle, the phase becomes RESOURCE_COLLECTION, the selection and the dice are cleared and the undo
   * button is disabled. The undo slot itself is kept.
   */
  function EndTurn(g: Game): (r: Game)
    requires WellFormed(g)
    ensures WellFormed(r)
    ensures r.currentPlayer < |r.players| && r.currentPlayer == if g.currentPlayer + 1 == |g.players| then 0 else g.currentPlayer + 1
    ensures AgreeExcept(r.players, g.players, g.currentPlayer)
    ensures r.players[g.currentPlayer] == Current(g).(hasMovedArmy := false)
    ensures r.phase == ResourceCollection && r.moveFrom == None && r.dice == NoDice && !r.undoAvailable
    ensures r.tiles == g.tiles && r.setupPlayers == g.setupPlayers && r.previousState == g.previousState
  {
    var p := Current(g);
    g.(players := g.players[g.currentPlayer := p.(hasMovedArmy := false)],
       currentPlayer := (g.currentPlayer + 1) % |g.players|,
       phase := ResourceCollection,
       moveFrom := None,
       dice := NoDice,
       undoAvailable := false)
  }

  // ---------------------------------------------------------------------------
  // Dispatch
  // ---------------------------------------------------------------------------

  /** `handleHexClick`: the click goes to the handler of the current phase; in the other phases it is ignored. */
  function HandleHexClick(g: Game, neighbors: Neighbors, k: nat, attackerWins: bool): (r: Game)
    requires Inv(g) && k < |g.tiles|
    ensures WellFormed(r)
    ensures g.phase == ResourceCollection || g.phase == Action ==> r == g
  {
    match g.phase
    case SetupSelection => HandleSetupSelection(g, neighbors, k)
    case BuildArmy => HandleBuildArmy(g, k)
    case BuildSettlement => HandleBuildSettlement(g, k)
    case ExpandTerritory => HandleExpandTerritory(g, neighbors, k)
    case MoveArmy => HandleMoveArmy(g, neighbors, k)
    case Combat => HandleCombat(g, neighbors, k, attackerWins)
    case _ => g
  }

  /** The phase an ACTION-phase button switches to, if it is one of the five action buttons. */
  function ActionTarget(b: Button): (r: Option<Phase>)
    ensures r.Some? <==> b in {BuildArmyButton, BuildSettlementButton, ExpandTerritoryButton, MoveArmyButton, AttackButton}
    ensures r.Some? ==> r.value in {BuildArmy, BuildSettlement, ExpandTerritory, MoveArmy, Combat}
  {
    match b
    case BuildArmyButton => Some(BuildArmy)
    case BuildSettlementButton => Some(BuildSettlement)
    case ExpandTerritoryButton => Some(ExpandTerritory)
    case MoveArmyButton => Some(MoveArmy)
    case AttackButton => Some(Combat)
    case _ => None
  }

  /**
   * `handleAction`: the roll button collects resources only in RESOURCE_COLLECTION, the five action
   * buttons switch phase only in ACTION, and undo and end turn act in every phase.
   */
  function HandleAction(g: Game, b: Button, die1: int, die2: int): (r: Game)
    requires WellFormed(g)
    ensures WellFormed(r)
  {
    match b
    case RollDiceButton => if g.phase == ResourceCollection then CollectResources(g, die1, die2) else g
    case UndoButton => Undo(g)
    case EndTurnButton => EndTurn(g)
    case _ => if g.phase == Action then g.(phase := ActionTarget(b).value) else g
  }

  /**
   * Button gating: an action button changes the state exactly when the phase is ACTION, and then only
   * the phase, to the button's own; roll collects in RESOURCE_COLLECTION and changes nothing elsewhere;
   * undo and end turn act whatever the phase.
   */
  lemma ButtonGating(g: Game, b: Button, die1: int, die2: int)
    requires WellFormed(g)
    ensures var r := HandleAction(g, b, die1, die2);
      && (ActionTarget(b).Some? ==> (r != g <==> g.phase == Action))
      && (ActionTarget(b).Some? && g.phase == Action ==> r == g.(phase := ActionTarget(b).value))
      && (b == RollDiceButton && g.phase == ResourceCollection ==> r == CollectResources(g, die1, die2))
      && (b == RollDiceButton && g.phase != ResourceCollection ==> r == g)
      && (b == UndoButton ==> r == Undo(g))
      && (b == EndTurnButton ==> r == EndTurn(g))
  {
    if ActionTarget(b).Some? && g.phase == Action {
      assert HandleAction(g, b, die1, die2).phase != g.phase;
    }
  }

  // ---------------------------------------------------------------------------
  // The invariant is kept by every handler
  // ---------------------------------------------------------------------------

  /** Saving keeps the invariant: the snapshot is the state itself. */
  lemma SaveStateKeepsInv(g: Game)
    requires Inv(g)
    ensures Inv(SaveState(g))
  {
  }

  lemma SetupSelectionKeepsInv(g: Game, neighbors: Neighbors, k: nat)
    requires Inv(g) && k < |g.tiles| && g.phase == SetupSelection
    ensures Inv(HandleSetupSelection(g, neighbors, k))
  {
  }

  lemma BuildArmyKeepsInv(g: Game, k: nat)
    requires Inv(g) && k < |g.tiles| && g.phase == BuildArmy
    ensures Inv(HandleBuildArmy(g, k))
  {
    if BuildArmyAccepted(g, k) {
      SpendAffordableStaysNonNegative(Current(g).resources, COSTS.army);
    }
  }

  lemma BuildSettlementKeepsInv(g: Game, k: nat)
    requires Inv(g) && k < |g.tiles| && g.phase == BuildSettlement
    ensures Inv(HandleBuildSettlement(g, k))
  {
    if BuildSettlementAccepted(g, k) {
      SpendAffordableStaysNonNegative(Current(g).resources, COSTS.settlement);
    }
  }

  lemma ExpandTerritoryKeepsInv(g: Game, neighbors: Neighbors, k: nat)
    requires Inv(g) && k < |g.tiles| && g.phase == ExpandTerritory
    ensures Inv(HandleExpandTerritory(g, neighbors, k))
  {
    if ExpandAccepted(g, neighbors, k) {
      SpendAffordableStaysNonNegative(Current(g).resources, COSTS.territory);
    }
  }

  lemma MoveArmyKeepsInv(g: Game, neighbors: Neighbors, k: nat)
    requires Inv(g) && k < |g.tiles| && g.phase == MoveArmy
    ensures Inv(HandleMoveArmy(g, neighbors, k))
  {
    if g.moveFrom.Some? && IsValidMove(g.tiles, neighbors, g.moveFrom.value, k) && g.tiles[k].owner == Some(g.currentPlayer) {
      var a := ApplyMove(SaveState(g), g.moveFrom.value, k);
      ApplyMoveKeepsTilesConsistent(SaveState(g), g.moveFrom.value, k);
      assert HandleMoveArmy(g, neighbors, k) == MarkMoved(a);
    }
  }

  /** Moving an army off a tile that has one, onto an owned tile, keeps every tile consistent. */
  lemma ApplyMoveKeepsTilesConsistent(g: Game, from: nat, to: nat)
    requires WellFormed(g) && from < |g.tiles| && to < |g.tiles|
    requires forall i :: 0 <= i < |g.tiles| ==> TileConsistent(g.tiles[i])
    requires g.tiles[from].armies > 0 && g.tiles[to].owner.Some?
    ensures forall i :: 0 <= i < |g.tiles| ==> TileConsistent(ApplyMove(g, from, to).tiles[i])
  {
    var s := StepArmy(g, from, to);
    assert forall i :: 0 <= i < |s.tiles| && i != from ==> TileConsistent(s.tiles[i]);
  }

  lemma CombatKeepsInv(g: Game, neighbors: Neighbors, k: nat, attackerWins: bool)
    requires Inv(g) && k < |g.tiles| && g.phase == Combat
    ensures Inv(HandleCombat(g, neighbors, k, attackerWins))
  {
  }

  /** Every reachable state satisfies `Inv`: a hex click keeps it. */
  lemma HexClickKeepsInv(g: Game, neighbors: Neighbors, k: nat, attackerWins: bool)
    requires Inv(g) && k < |g.tiles|
    ensures Inv(HandleHexClick(g, neighbors, k, attackerWins))
  {
    match g.phase
    case SetupSelection => SetupSelectionKeepsInv(g, neighbors, k);
    case BuildArmy => BuildArmyKeepsInv(g, k);
    case BuildSettlement => BuildSettlementKeepsInv(g, k);
    case ExpandTerritory => ExpandTerritoryKeepsInv(g, neighbors, k);
    case MoveArmy => MoveArmyKeepsInv(g, neighbors, k);
    case Combat => CombatKeepsInv(g, neighbors, k, attackerWins);
    case _ =>
  }

  /** Every reachable state satisfies `Inv`: a button press keeps it. */
  lemma ActionKeepsInv(g: Game, b: Button, die1: int, die2: int)
    requires Inv(g)
    ensures Inv(HandleAction(g, b, die1, die2))
  {
  }

  // ---------------------------------------------------------------------------
  // Armies on the board
  // ---------------------------------------------------------------------------

  /** All armies on the board. */
  function TotalArmies(tiles: seq<Tile>): int
  {
    if |tiles| == 0 then 0 else TotalArmies(tiles[..|tiles| - 1]) + tiles[|tiles| - 1].armies
  }

  /** Replacing one tile changes the total by the difference of the two tiles' armies. */
  lemma {:induction false} TotalArmiesUpdate(tiles: seq<Tile>, i: nat, t: Tile)
    requires i < |tiles|
    ensures TotalArmies(tiles[i := t]) == TotalArmies(tiles) - tiles[i].armies + t.armies
    decreases |tiles|
  {
    var n := |tiles| - 1;
    var u := tiles[i := t];
    assert u[..n] == if i == n then tiles[..n] else tiles[..n][i := t];
    if i < n {
      TotalArmiesUpdate(tiles[..n], i, t);
    }
  }

  /** A move neither creates nor destroys armies. */
  lemma MoveConservesArmies(g: Game, from: nat, to: nat)
    requires WellFormed(g) && from < |g.tiles| && to < |g.tiles|
    ensures TotalArmies(ApplyMove(g, from, to).tiles) == TotalArmies(g.tiles)
  {
    var r := ApplyMove(g, from, to).tiles;
    var t1 := g.tiles[to := r[to]];
    TotalArmiesUpdate(g.tiles, to, r[to]);
    TotalArmiesUpdate(t1, from, r[from]);
    assert t1[from := r[from]] == r;
  }

  /**
   * Combat never adds armies: a won battle removes exactly the defender's armies from the board,
   * a lost one removes at least none.
   */
  lemma CombatLosesArmies(tiles: seq<Tile>, a: nat, d: nat, attackerWins: bool)
    requires a < |tiles| && d < |tiles| && a != d && tiles[a].armies >= 0 && tiles[d].armies >= 0
    ensures attackerWins ==> TotalArmies(PerformCombat(tiles, a, d, true)) == TotalArmies(tiles) - tiles[d].armies
    ensures TotalArmies(PerformCombat(tiles, a, d, attackerWins)) <= TotalArmies(tiles)
  {
    var at := tiles[a];
    var de := tiles[d];
    var w1 := tiles[d := de.(owner := at.owner, armies := at.armies / 2)];
    TotalArmiesUpdate(tiles, d, de.(owner := at.owner, armies := at.armies / 2));
    TotalArmiesUpdate(w1, a, at.(armies := CeilHalf(at.armies)));
    var l1 := tiles[a := at.(armies := CeilHalf(at.armies))];
    TotalArmiesUpdate(tiles, a, at.(armies := CeilHalf(at.armies)));
    TotalArmiesUpdate(l1, d, de.(armies := ThreeQuartersDown(de.armies)));
  }

  // ---------------------------------------------------------------------------
  // Resource yield
  // ---------------------------------------------------------------------------

  function WalletTotal(w: Wallet): int
  {
    w.wood + w.stone + w.food
  }

  /** A roll pays at least one and at most two resources for each of the player's tiles showing it. */
  lemma {:induction false} YieldBounds(tiles: seq<Tile>, id: nat, roll: int)
    ensures Matching(tiles, id, roll) <= WalletTotal(Yield(tiles, id, roll)) <= 2 * Matching(tiles, id, roll)
    decreases |tiles|
  {
    if |tiles| > 0 {
      YieldBounds(tiles[..|tiles| - 1], id, roll);
    }
  }

  /** A roll that none of the player's tiles shows pays nothing. */
  lemma {:induction false} NoMatchNoYield(tiles: seq<Tile>, id: nat, roll: int)
    requires forall i :: 0 <= i < |tiles| ==> tiles[i].owner != Some(id) || tiles[i].resourceValue != roll
    ensures Yield(tiles, id, roll) == NoResources
    decreases |tiles|
  {
    if |tiles| > 0 {
      NoMatchNoYield(tiles[..|tiles| - 1], id, roll);
    }
  }

  // ---------------------------------------------------------------------------
  // The players' hex lists
  // ---------------------------------------------------------------------------

  /**
   * The hex lists describe the board: every owner is a player, every listed index is a tile, and a
   * player lists a tile exactly when the tile's owner is that player.
   */
  predicate HexListsAccurate(tiles: seq<Tile>, players: seq<PlayerState>)
  {
    && (forall k :: 0 <= k < |tiles| && tiles[k].owner.Some? ==> tiles[k].owner.value < |players|)
    && (forall i, j :: 0 <= i < |players| && 0 <= j < |players[i].hexes| ==> players[i].hexes[j] < |tiles|)
    && (forall i, k :: 0 <= i < |players| && 0 <= k < |tiles| ==> (k in players[i].hexes <==> tiles[k].owner == Some(i)))
  }

  /** The hex lists are accurate in the state and in the snapshot it holds. */
  predicate ListsAccurate(g: Game)
  {
    && HexListsAccurate(g.tiles, g.players)
    && (g.previousState.Some? ==> HexListsAccurate(g.previousState.value.tiles, g.previousState.value.players))
  }

  /** Two boards with the same owners, and two rosters with the same hex lists. */
  predicate SameOwnership(t1: seq<Tile>, p1: seq<PlayerState>, t2: seq<Tile>, p2: seq<PlayerState>)
  {
    && |t1| == |t2| && |p1| == |p2|
    && (forall i :: 0 <= i < |t1| ==> t1[i].owner == t2[i].owner)
    && (forall i :: 0 <= i < |p1| ==> p1[i].hexes == p2[i].hexes)
  }

  /** Whether the hex lists are accurate depends on the owners and the lists alone. */
  lemma AccurateBySameOwnership(t1: seq<Tile>, p1: seq<PlayerState>, t2: seq<Tile>, p2: seq<PlayerState>)
    requires HexListsAccurate(t1, p1) && SameOwnership(t1, p1, t2, p2)
    ensures HexListsAccurate(t2, p2)
  {
  }

  /** Taking a starting hex keeps the hex lists accurate. */
  lemma SetupSelectionKeepsListsAccurate(g: Game, neighbors: Neighbors, k: nat)
    requires Inv(g) && ListsAccurate(g) && k < |g.tiles|
    ensures ListsAccurate(HandleSetupSelection(g, neighbors, k))
  {
    var r := HandleSetupSelection(g, neighbors, k);
    if r != g {
      forall i, j | 0 <= i < |r.players| && 0 <= j < |r.tiles|
        ensures j in r.players[i].hexes <==> r.tiles[j].owner == Some(i)
      {
        if i == g.currentPlayer && j == k {
          assert r.players[i].hexes[|r.players[i].hexes| - 1] == k;
        }
      }
    }
  }

  /** Building an army or a settlement keeps the hex lists accurate. */
  lemma BuildKeepsListsAccurate(g: Game, k: nat)
    requires Inv(g) && ListsAccurate(g) && k < |g.tiles|
    ensures ListsAccurate(HandleBuildArmy(g, k)) && ListsAccurate(HandleBuildSettlement(g, k))
  {
    var a := HandleBuildArmy(g, k);
    assert SameOwnership(g.tiles, g.players, a.tiles, a.players);
    AccurateBySameOwnership(g.tiles, g.players, a.tiles, a.players);
    var b := HandleBuildSettlement(g, k);
    assert SameOwnership(g.tiles, g.players, b.tiles, b.players);
    AccurateBySameOwnership(g.tiles, g.players, b.tiles, b.players);
  }

  /** Buying a hex keeps the hex lists accurate. */
  lemma ExpandKeepsListsAccurate(g: Game, neighbors: Neighbors, k: nat)
    requires Inv(g) && ListsAccurate(g) && k < |g.tiles|
    ensures ListsAccurate(HandleExpandTerritory(g, neighbors, k))
  {
    if ExpandAccepted(g, neighbors, k) {
      var paid := Pay(SaveState(g), COSTS.territory);
      assert SameOwnership(g.tiles, g.players, paid.tiles, paid.players);
      AccurateBySameOwnership(g.tiles, g.players, paid.tiles, paid.players);
      ClaimKeepsListsAccurate(paid, k);
      assert HandleExpandTerritory(g, neighbors, k) == Claim(paid, k);
    }
  }

  /** Claiming an unowned tile keeps the hex lists accurate. */
  lemma ClaimKeepsListsAccurate(g: Game, k: nat)
    requires WellFormed(g) && HexListsAccurate(g.tiles, g.players) && k < |g.tiles| && g.tiles[k].owner == None
    ensures HexListsAccurate(Claim(g, k).tiles, Claim(g, k).players)
  {
    var r := Claim(g, k);
    forall i, j | 0 <= i < |r.players| && 0 <= j < |r.tiles|
      ensures j in r.players[i].hexes <==> r.tiles[j].owner == Some(i)
    {
      if i == g.currentPlayer && j == k {
        assert r.players[i].hexes[|r.players[i].hexes| - 1] == k;
      }
    }
  }

  /** One army moving between two of the current player's tiles keeps the hex lists accurate. */
  lemma ApplyMoveKeepsListsAccurate(g: Game, from: nat, to: nat)
    requires WellFormed(g) && HexListsAccurate(g.tiles, g.players) && from < |g.tiles| && to < |g.tiles|
    requires g.tiles[from].owner == Some(g.currentPlayer) && g.tiles[to].owner == Some(g.currentPlayer)
    requires g.tiles[from].armies > 0
    ensures HexListsAccurate(ApplyMove(g, from, to).tiles, ApplyMove(g, from, to).players)
  {
    var r := ApplyMove(g, from, to);
    var c := g.currentPlayer;
    var before := g.players[c].hexes;
    forall i, j | 0 <= i < |r.players| && 0 <= j < |r.players[i].hexes|
      ensures r.players[i].hexes[j] < |r.tiles|
    {
      if i == c {
        var x := r.players[i].hexes[j];
        assert x in r.players[i].hexes;
        assert x in before;
        var jj :| 0 <= jj < |before| && before[jj] == x;
      }
    }
  }

  /** Moving an army keeps the hex lists accurate, including when the source tile is given up. */
  lemma MoveKeepsListsAccurate(g: Game, neighbors: Neighbors, k: nat)
    requires Inv(g) && ListsAccurate(g) && k < |g.tiles| && g.phase == MoveArmy
    ensures ListsAccurate(HandleMoveArmy(g, neighbors, k))
  {
    if g.moveFrom.Some? && IsValidMove(g.tiles, neighbors, g.moveFrom.value, k) && g.tiles[k].owner == Some(g.currentPlayer) {
      FinishMoveKeepsListsAccurate(g, g.moveFrom.value, k);
    }
  }

  /** The accepted second click of a move keeps the hex lists accurate. */
  lemma FinishMoveKeepsListsAccurate(g: Game, m: nat, k: nat)
    requires WellFormed(g) && HexListsAccurate(g.tiles, g.players) && m < |g.tiles| && k < |g.tiles|
    requires g.tiles[m].owner == Some(g.currentPlayer) && g.tiles[k].owner == Some(g.currentPlayer) && g.tiles[m].armies > 0
    ensures ListsAccurate(FinishMove(g, m, k))
  {
    var a := ApplyMove(SaveState(g), m, k);
    ApplyMoveKeepsListsAccurate(SaveState(g), m, k);
    var r := MarkMoved(a);
    assert SameOwnership(a.tiles, a.players, r.tiles, r.players);
    AccurateBySameOwnership(a.tiles, a.players, r.tiles, r.players);
  }

  /**
   * Conquest is where the lists go wrong: a won battle makes the attacker the owner of the defender's
   * tile, but neither the attacker's nor the former owner's list changes, so lists that were accurate
   * no longer are.
   */
  lemma ConquestBreaksListsAccurate(g: Game, neighbors: Neighbors, k: nat)
    requires Inv(g) && HexListsAccurate(g.tiles, g.players) && k < |g.tiles| && g.moveFrom.Some?
    requires IsValidAttackTarget(g.tiles, neighbors, g.currentPlayer, g.moveFrom.value, k)
    ensures var r := HandleCombat(g, neighbors, k, true);
      && r.tiles[k].owner == Some(g.currentPlayer)
      && k !in r.players[g.currentPlayer].hexes
      && !HexListsAccurate(r.tiles, r.players)
  {
    var r := HandleCombat(g, neighbors, k, true);
    assert r.tiles[k].owner == Some(g.currentPlayer);
    assert k !in r.players[g.currentPlayer].hexes;
  }

  /** The hex lists play no part in collecting: only tile owners do. */
  lemma CollectIgnoresHexLists(g: Game, hexes: seq<nat>, die1: int, die2: int)
    requires WellFormed(g)
    ensures var h := g.(players := g.players[g.currentPlayer := Current(g).(hexes := hexes)]);
      CollectResources(h, die1, die2).players[g.currentPlayer].resources == CollectResources(g, die1, die2).players[g.currentPlayer].resources
  {
  }

  // ---------------------------------------------------------------------------
  // Behaviours of undo and of moving
  // ---------------------------------------------------------------------------

  /**
   * Ending the turn disables the undo button but keeps the slot: an undo right after `endTurn`
   * brings back the previous player's turn as it was at the last save.
   */
  lemma UndoAfterEndTurn(g: Game)
    requires WellFormed(g) && g.previousState.Some?
    ensures var r := EndTurn(g);
      && !r.undoAvailable
      && Undo(r) == FromSnapshot(g.previousState.value, g.previousState, false)
      && Undo(r).currentPlayer == g.previousState.value.currentPlayer
  {
  }

  /**
   * The build handlers save before they validate, so a refused build replaces the snapshot of the
   * last real action: undoing right after it restores the refused state itself.
   */
  lemma RefusedBuildLosesEarlierSnapshot(g: Game, k: nat)
    requires WellFormed(g) && k < |g.tiles| && !BuildArmyAccepted(g, k)
    ensures var r := HandleBuildArmy(g, k);
      && r.previousState == Some(Snap(g))
      && Undo(r) == r
      && (g.previousState.Some? && g.previousState != Some(Snap(g)) ==> r.previousState != g.previousState)
  {
  }

  /** The current player's moved flag has no influence on `handleMoveArmy`: an army can be moved again. */
  lemma MoveIgnoresMovedFlag(g: Game, neighbors: Neighbors, k: nat, moved: bool)
    requires WellFormed(g) && k < |g.tiles|
    ensures var h := g.(players := g.players[g.currentPlayer := Current(g).(hasMovedArmy := moved)]);
      && HandleMoveArmy(h, neighbors, k).tiles == HandleMoveArmy(g, neighbors, k).tiles
      && HandleMoveArmy(h, neighbors, k).moveFrom == HandleMoveArmy(g, neighbors, k).moveFrom
      && HandleMoveArmy(h, neighbors, k).phase == HandleMoveArmy(g, neighbors, k).phase
  {
    var h := g.(players := g.players[g.currentPlayer := Current(g).(hasMovedArmy := moved)]);
    assert h.tiles == g.tiles && h.moveFrom == g.moveFrom && Current(h).id == Current(g).id;
    if g.moveFrom.Some? && IsValidMove(g.tiles, neighbors, g.moveFrom.value, k) && g.tiles[k].owner == Some(g.currentPlayer) {
      SameMoveOnSameTiles(h, g, g.moveFrom.value, k);
    }
  }

  /** Where an army goes depends on the tiles alone. */
  lemma SameMoveOnSameTiles(g: Game, h: Game, from: nat, to: nat)
    requires WellFormed(g) && WellFormed(h) && from < |g.tiles| && to < |g.tiles| && g.tiles == h.tiles
    ensures ApplyMove(g, from, to).tiles == ApplyMove(h, from, to).tiles
  {
  }
}
