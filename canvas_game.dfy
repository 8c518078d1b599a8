/**
 * The canvas prototype of game.js: armies made of individual units, the income a turn starts with,
 * and the rules of the canvas click handler. A tile is named by its position in `gameState.board`
 * and a player by its position in `gameState.players`, which is what a tile's `owner` holds. The
 * random target picks of `performAttack` are supplied by the caller, and the Honeycomb
 * `distance(a, b) === 1` test is "b is one of a's neighbours".
 */
module Canvas {
  import opened Wrappers
  import opened HexBoard

  /** An army unit `{ health, damage }`. */
  datatype Unit = Unit(health: int, damage: int)

  /** The unit the building phase recruits: `{ health: 100, damage: 50 }`. */
  const Recruit: Unit := Unit(100, 50)

  /** `ARMY_COST = { food: 2, wood: 1 }` and `HEX_COST = { stone: 2 }`. */
  const ArmyFood: int := 2
  const ArmyWood: int := 1
  const HexStone: int := 2

  /** The tile types `startGame` draws from. */
  datatype Kind = Wood | Stone | Food

  /** A board entry `{ hex, type, owner, armies }`; an owner `None` is `null`. */
  datatype CanvasTile = CanvasTile(hex: Hex, kind: Kind, owner: Option<nat>, armies: seq<Unit>)

  /** A player `{ id, wood, stone, food, hexes }`; `hexes` holds board positions. */
  datatype CanvasPlayer = CanvasPlayer(id: nat, wood: int, stone: int, food: int, hexes: seq<nat>)

  /** `gameState.phase`. */
  datatype Stage = Building | Attacking

  /** `gameState` together with the global `selectedHex`. */
  datatype CanvasState = CanvasState(
    board: seq<CanvasTile>,
    players: seq<CanvasPlayer>,
    currentPlayer: nat,
    phase: Stage,
    selected: Option<nat>)

  // ---------------------------------------------------------------------------
  // Combat
  // ---------------------------------------------------------------------------

  /**
   * One side's `forEach` of `performAttack`: in order, the i-th striker takes `damage` off the target
   * `aim(i) % |targets|` (the random pick); with no targets nothing happens.
   */
  function Strike(targets: seq<Unit>, strikers: seq<Unit>, aim: nat -> nat): (r: seq<Unit>)
    ensures |r| == |targets|
    ensures forall i :: 0 <= i < |r| ==> r[i].damage == targets[i].damage
    decreases |strikers|
  {
    if |strikers| == 0 || |targets| == 0 then targets
    else
      var r := Strike(targets, strikers[..|strikers| - 1], aim);
      var j := aim(|strikers| - 1) % |r|;
      r[j := r[j].(health := r[j].health - strikers[|strikers| - 1].damage)]
  }

  /** `armies.filter(a => a.health > 0)`. */
  function Survivors(us: seq<Unit>): (r: seq<Unit>)
    ensures |r| <= |us| && multiset(r) <= multiset(us)
    ensures forall i :: 0 <= i < |r| ==> r[i].health > 0
    ensures forall u {:trigger u in r} :: u in us && u.health > 0 ==> u in r
  {
    if |us| == 0 then []
    else
      var last := us[|us| - 1];
      assert us == us[..|us| - 1] + [last];
      Survivors(us[..|us| - 1]) + if last.health > 0 then [last] else []
  }

  /** The filter keeps the order: the survivors of two runs of units are the survivors of each, in turn. */
  lemma {:induction false} SurvivorsAppend(a: seq<Unit>, b: seq<Unit>)
    ensures Survivors(a + b) == Survivors(a) + Survivors(b)
    decreases |b|
  {
    if |b| == 0 {
      assert a + b == a;
    } else {
      var init := b[..|b| - 1];
      assert (a + b)[..|a + b| - 1] == a + init;
      assert (a + b)[|a + b| - 1] == b[|b| - 1];
      SurvivorsAppend(a, init);
    }
  }

  /** Every live unit is kept as many times as it occurs, and no unit without health is kept. */
  lemma {:induction false} SurvivorsCount(us: seq<Unit>, u: Unit)
    ensures multiset(Survivors(us))[u] == if u.health > 0 then multiset(us)[u] else 0
    decreases |us|
  {
    if |us| > 0 {
      var init := us[..|us| - 1];
      var last := us[|us| - 1];
      assert us == init + [last];
      SurvivorsCount(init, u);
    }
  }

  /** A single unit survives exactly when it has health left. */
  lemma SurvivorsOfOne(u: Unit)
    ensures Survivors([u]) == if u.health > 0 then [u] else []
  {
    assert [u][..0] == [];
  }

  function TotalHealth(us: seq<Unit>): int
  {
    if |us| == 0 then 0 else TotalHealth(us[..|us| - 1]) + us[|us| - 1].health
  }

  function TotalDamage(us: seq<Unit>): int
  {
    if |us| == 0 then 0 else TotalDamage(us[..|us| - 1]) + us[|us| - 1].damage
  }

  /**
   * The end of `performAttack` on the attacking and the defending tile, given both sides' survivors:
   * with defenders left, each tile keeps its own survivors; otherwise the defending tile passes to the
   * attacker's owner, and the attacker keeps its first survivor while the rest move in, or, with at
   * most one survivor, everything moves in and the attacking tile is left unowned. No unit is lost or
   * made by the split.
   */
  function Resolve(at: CanvasTile, dt: CanvasTile, sa: seq<Unit>, sd: seq<Unit>): (r: (CanvasTile, CanvasTile))
    ensures r.0.hex == at.hex && r.0.kind == at.kind && r.1.hex == dt.hex && r.1.kind == dt.kind
    ensures multiset(r.0.armies) + multiset(r.1.armies) == multiset(sa) + multiset(sd)
    ensures |r.0.armies| + |r.1.armies| == |sa| + |sd|
    ensures forall u :: u in r.0.armies || u in r.1.armies ==> u in sa || u in sd
    ensures |sd| > 0 ==> r == (at.(armies := sa), dt.(armies := sd))
    ensures |sd| == 0 ==> r.1.owner == at.owner
    ensures |sd| == 0 && |sa| > 1 ==> r.0.owner == at.owner && r.0.armies == [sa[0]]
    ensures |sd| == 0 && |sa| <= 1 ==> r.0.owner == None && r.0.armies == []
    ensures |sd| == 0 ==> r.1 == dt.(owner := at.owner, armies := if |sa| > 1 then sa[1..] else sa)
    ensures |sd| == 0 ==> r.0 == if |sa| > 1 then at.(armies := [sa[0]]) else at.(armies := [], owner := None)
  {
    if |sd| > 0 then (at.(armies := sa), dt.(armies := sd))
    else if |sa| > 1 then
      assert sa == [sa[0]] + sa[1..];
      (at.(armies := [sa[0]]), dt.(owner := at.owner, armies := sa[1..]))
    else (at.(armies := [], owner := None), dt.(owner := at.owner, armies := sa))
  }

  /**
   * `performAttack(attackerTile, defenderTile)` on tiles `a` and `d`: the attackers strike the
   * defenders, the defenders (the fallen included) strike back, and the survivors are resolved.
   * Only the two tiles change, only live units remain on them, and neither gains units.
   */
  function Attack(board: seq<CanvasTile>, a: nat, d: nat, aimA: nat -> nat, aimD: nat -> nat): (r: seq<CanvasTile>)
    requires a < |board| && d < |board| && a != d
    ensures |r| == |board| && forall i :: 0 <= i < |r| && i != a && i != d ==> r[i] == board[i]
    ensures forall u :: u in r[a].armies ==> u.health > 0
    ensures forall u :: u in r[d].armies ==> u.health > 0
    ensures |r[a].armies| + |r[d].armies| <= |board[a].armies| + |board[d].armies|
  {
    var hitD := Strike(board[d].armies, board[a].armies, aimA);
    var hitA := Strike(board[a].armies, hitD, aimD);
    var sa := Survivors(hitA);
    var sd := Survivors(hitD);
    var tiles := Resolve(board[a], board[d], sa, sd);
    board[a := tiles.0][d := tiles.1]
  }

  /** Changing one unit's health changes the side's total by the difference. */
  lemma {:induction false} TotalHealthUpdate(us: seq<Unit>, j: nat, h: int)
    requires j < |us|
    ensures TotalHealth(us[j := us[j].(health := h)]) == TotalHealth(us) - us[j].health + h
    decreases |us|
  {
    var vs := us[j := us[j].(health := h)];
    var n := |us| - 1;
    if j == n {
      assert vs[..n] == us[..n];
    } else {
      assert vs[..n] == us[..n][j := us[j].(health := h)];
      TotalHealthUpdate(us[..n], j, h);
    }
  }

  /** A non-empty side loses exactly the strikers' total damage in health. */
  lemma {:induction false} StrikeCostsTotalDamage(targets: seq<Unit>, strikers: seq<Unit>, aim: nat -> nat)
    requires |targets| > 0
    ensures TotalHealth(Strike(targets, strikers, aim)) == TotalHealth(targets) - TotalDamage(strikers)
    decreases |strikers|
  {
    if |strikers| > 0 {
      var n := |strikers| - 1;
      var r := Strike(targets, strikers[..n], aim);
      StrikeCostsTotalDamage(targets, strikers[..n], aim);
      var j := aim(n) % |r|;
      TotalHealthUpdate(r, j, r[j].health - strikers[n].damage);
    }
  }

  /** Only the strikers' damage matters to a strike, never their health. */
  lemma {:induction false} StrikeIgnoresStrikerHealth(targets: seq<Unit>, s1: seq<Unit>, s2: seq<Unit>, aim: nat -> nat)
    requires |s1| == |s2| && forall i :: 0 <= i < |s1| ==> s1[i].damage == s2[i].damage
    ensures Strike(targets, s1, aim) == Strike(targets, s2, aim)
    decreases |s1|
  {
    if |s1| > 0 && |targets| > 0 {
      StrikeIgnoresStrikerHealth(targets, s1[..|s1| - 1], s2[..|s2| - 1], aim);
    }
  }

  /**
   * The hits are simultaneous: the defenders strike back exactly as they would have before being
   * hit, so a defender the attackers brought to zero health still deals its damage.
   */
  lemma FallenDefendersStrikeBack(attackers: seq<Unit>, defenders: seq<Unit>, aimA: nat -> nat, aimD: nat -> nat)
    ensures Strike(attackers, Strike(defenders, attackers, aimA), aimD) == Strike(attackers, defenders, aimD)
  {
    StrikeIgnoresStrikerHealth(attackers, Strike(defenders, attackers, aimA), defenders, aimD);
  }

  // ---------------------------------------------------------------------------
  // Turn start
  // ---------------------------------------------------------------------------

  /** The number of tiles of a kind owned by player `p`. */
  function Owned(board: seq<CanvasTile>, p: nat, kind: Kind): (n: nat)
    ensures n <= |board|
  {
    if |board| == 0 then 0
    else Owned(board[..|board| - 1], p, kind) + if board[|board| - 1].owner == Some(p) && board[|board| - 1].kind == kind then 1 else 0
  }

  /** The number of tiles owned by player `p`. */
  function OwnedTiles(board: seq<CanvasTile>, p: nat): (n: nat)
    ensures n <= |board|
  {
    if |board| == 0 then 0
    else OwnedTiles(board[..|board| - 1], p) + if board[|board| - 1].owner == Some(p) then 1 else 0
  }

  /**
   * What `startTurn` pays: one wood, stone or food for each owned tile of that type. Only the stocks
   * change and none of them shrinks; `IncomeIsOnePerOwnedTile` counts the whole payment.
   */
  function Income(pl: CanvasPlayer, board: seq<CanvasTile>, p: nat): (r: CanvasPlayer)
    ensures r.id == pl.id && r.hexes == pl.hexes
    ensures pl.wood <= r.wood <= pl.wood + |board| && pl.stone <= r.stone <= pl.stone + |board| && pl.food <= r.food <= pl.food + |board|
    ensures Solvent(pl) ==> Solvent(r)
  {
    pl.(wood := pl.wood + Owned(board, p, Wood), stone := pl.stone + Owned(board, p, Stone), food := pl.food + Owned(board, p, Food))
  }

  /** `startTurn()`: the current player collects the income of their tiles and the phase becomes building. */
  function TurnStarted(s: CanvasState): (r: CanvasState)
    requires s.currentPlayer < |s.players|
    ensures |r.players| == |s.players| && forall i :: 0 <= i < |r.players| && i != s.currentPlayer ==> r.players[i] == s.players[i]
    ensures r.board == s.board && r.currentPlayer == s.currentPlayer && r.selected == s.selected && r.phase == Building
  {
    s.(players := s.players[s.currentPlayer := Income(s.players[s.currentPlayer], s.board, s.currentPlayer)], phase := Building)
  }

  /** The income is one unit per owned tile, whatever its kind, and takes nothing away. */
  lemma {:induction false} IncomeIsOnePerOwnedTile(board: seq<CanvasTile>, p: nat)
    ensures Owned(board, p, Wood) + Owned(board, p, Stone) + Owned(board, p, Food) == OwnedTiles(board, p)
  {
    if |board| > 0 {
      IncomeIsOnePerOwnedTile(board[..|board| - 1], p);
    }
  }

  lemma StartTurnPaysOwnedTiles(s: CanvasState)
    requires s.currentPlayer < |s.players|
    ensures var before := s.players[s.currentPlayer];
      var after := TurnStarted(s).players[s.currentPlayer];
      && after.wood >= before.wood && after.stone >= before.stone && after.food >= before.food
      && (after.wood - before.wood) + (after.stone - before.stone) + (after.food - before.food) == OwnedTiles(s.board, s.currentPlayer)
      && after.hexes == before.hexes
  {
    IncomeIsOnePerOwnedTile(s.board, s.currentPlayer);
  }

  // ---------------------------------------------------------------------------
  // The click handler
  // ---------------------------------------------------------------------------

  /** `board.find(t => t.hex.equals(h))`, as a position. */
  function FindTile(board: seq<CanvasTile>, h: Hex): (r: Option<nat>)
    ensures r.Some? ==> r.value < |board| && board[r.value].hex == h
    ensures r.None? ==> forall j :: 0 <= j < |board| ==> board[j].hex != h
    ensures r.Some? ==> forall j :: 0 <= j < r.value ==> board[j].hex != h
    decreases |board|
  {
    if |board| == 0 then None
    else if board[0].hex == h then Some(0)
    else match FindTile(board[1..], h)
      case None => None
      case Some(j) => Some(j + 1)
  }

  /** `grid.neighbors(tile.hex).some(n => board.find(...)?.owner === currentPlayer)` for tile `k`. */
  predicate BordersOwned(board: seq<CanvasTile>, neighbors: Neighbors, k: nat, p: nat)
    requires k < |board|
    ensures BordersOwned(board, neighbors, k, p) ==>
      exists j :: 0 <= j < |board| && board[j].hex in neighbors(board[k].hex) && board[j].owner == Some(p)
    ensures (exists j :: 0 <= j < |board| && board[j].hex in neighbors(board[k].hex) && board[j].owner == Some(p)
               && FindTile(board, board[j].hex) == Some(j)) ==>
      BordersOwned(board, neighbors, k, p)
  {
    exists n :: n in neighbors(board[k].hex) && var at := FindTile(board, n); at.Some? && board[at.value].owner == Some(p)
  }

  predicate Solvent(pl: CanvasPlayer)
  {
    pl.wood >= 0 && pl.stone >= 0 && pl.food >= 0
  }

  /** Every unit on the tile is alive, and an unowned tile holds no units. */
  predicate Manned(t: CanvasTile)
  {
    (forall u :: u in t.armies ==> u.health > 0) && (t.owner == None ==> t.armies == [])
  }

  /**
   * The invariant of the canvas game: the current player exists, no stock is negative, every tile
   * is manned, and a selected tile belongs to the current player and holds units.
   */
  predicate Sound(s: CanvasState)
  {
    && s.currentPlayer < |s.players|
    && (forall i :: 0 <= i < |s.players| ==> Solvent(s.players[i]))
    && (forall i :: 0 <= i < |s.board| ==> Manned(s.board[i]))
    && (s.selected.Some? ==>
          && s.selected.value < |s.board|
          && s.board[s.selected.value].owner == Some(s.currentPlayer)
          && |s.board[s.selected.value].armies| > 0)
  }

  /**
   * The rule branches of the canvas click on tile `k`. Building: on an own tile with enough food
   * and wood, pay the army price and recruit one unit; on an unowned tile bordering an own tile,
   * with enough stone, pay the hex price and claim it; otherwise nothing. Attacking: the first
   * click selects an own tile with units; the second attacks a neighbouring tile that is not the
   * current player's, and clears the selection in any case.
   */
  function ClickResult(s: CanvasState, neighbors: Neighbors, k: nat, aimA: nat -> nat, aimD: nat -> nat): (r: CanvasState)
    requires Sound(s) && k < |s.board|
    ensures r.currentPlayer == s.currentPlayer && r.phase == s.phase && |r.board| == |s.board| && |r.players| == |s.players|
    ensures forall i :: 0 <= i < |r.players| && i != s.currentPlayer ==> r.players[i] == s.players[i]
  {
    var cur := s.currentPlayer;
    var p := s.players[cur];
    var t := s.board[k];
    match s.phase
    case Building =>
      if t.owner == Some(cur) then
        if p.food >= ArmyFood && p.wood >= ArmyWood then
          s.(players := s.players[cur := p.(food := p.food - ArmyFood, wood := p.wood - ArmyWood)],
             board := s.board[k := t.(armies := t.armies + [Recruit])])
        else s  // "Not enough resources to build an army!"
      else if t.owner == None && BordersOwned(s.board, neighbors, k, cur) then
        if p.stone >= HexStone then
          s.(players := s.players[cur := p.(stone := p.stone - HexStone, hexes := p.hexes + [k])],
             board := s.board[k := t.(owner := Some(cur))])
        else s  // "Not enough stone to purchase a hex!"
      else s
    case Attacking =>
      match s.selected
      case None => if t.owner == Some(cur) && |t.armies| > 0 then s.(selected := Some(k)) else s
      case Some(m) =>
        if t.hex in neighbors(s.board[m].hex) && t.owner != Some(cur) then
          s.(board := Attack(s.board, m, k, aimA, aimD), selected := None)
        else s.(selected := None)
  }

  /** An attack from an owned tile leaves both tiles manned. */
  lemma AttackKeepsManned(board: seq<CanvasTile>, a: nat, d: nat, aimA: nat -> nat, aimD: nat -> nat)
    requires a < |board| && d < |board| && a != d
    requires Manned(board[a]) && Manned(board[d]) && board[a].owner.Some?
    ensures var r := Attack(board, a, d, aimA, aimD); Manned(r[a]) && Manned(r[d])
  {
    var hitD := Strike(board[d].armies, board[a].armies, aimA);
    var hitA := Strike(board[a].armies, hitD, aimD);
    var sd := Survivors(hitD);
    var tiles := Resolve(board[a], board[d], Survivors(hitA), sd);
    assert Attack(board, a, d, aimA, aimD) == board[a := tiles.0][d := tiles.1];
    if board[d].owner == None {
      assert |sd| == 0;
    }
  }

  /** Every click keeps the invariant: no stock goes negative, and no tile is left unmanned. */
  lemma ClickKeepsSound(s: CanvasState, neighbors: Neighbors, k: nat, aimA: nat -> nat, aimD: nat -> nat)
    requires Sound(s) && k < |s.board|
    ensures Sound(ClickResult(s, neighbors, k, aimA, aimD))
  {
    var r := ClickResult(s, neighbors, k, aimA, aimD);
    if s.phase == Attacking && s.selected.Some? {
      var m := s.selected.value;
      if s.board[k].hex in neighbors(s.board[m].hex) && s.board[k].owner != Some(s.currentPlayer) {
        AttackKeepsManned(s.board, m, k, aimA, aimD);
        assert r.board == Attack(s.board, m, k, aimA, aimD);
      }
    }
  }

  /**
   * A building-phase click either changes nothing or pays one of the two prices for what it buys,
   * and it buys exactly when the tile qualifies and the player can pay.
   */
  lemma BuildingClickPays(s: CanvasState, neighbors: Neighbors, k: nat, aimA: nat -> nat, aimD: nat -> nat)
    requires Sound(s) && k < |s.board| && s.phase == Building
    ensures var r := ClickResult(s, neighbors, k, aimA, aimD);
      var p := s.players[s.currentPlayer];
      var q := r.players[s.currentPlayer];
      || r == s
      || (&& s.board[k].owner == Some(s.currentPlayer)
          && q == p.(food := p.food - 2, wood := p.wood - 1)
          && r.board == s.board[k := s.board[k].(armies := s.board[k].armies + [Unit(100, 50)])])
      || (&& s.board[k].owner == None
          && BordersOwned(s.board, neighbors, k, s.currentPlayer)
          && q == p.(stone := p.stone - 2, hexes := p.hexes + [k])
          && r.board == s.board[k := s.board[k].(owner := Some(s.currentPlayer))])
    ensures var r := ClickResult(s, neighbors, k, aimA, aimD);
      var cur := s.currentPlayer;
      var p := s.players[cur];
      var t := s.board[k];
      t.owner == Some(cur) && p.food >= 2 && p.wood >= 1 ==>
        r == s.(players := s.players[cur := p.(food := p.food - 2, wood := p.wood - 1)],
                board := s.board[k := t.(armies := t.armies + [Unit(100, 50)])])
    ensures var r := ClickResult(s, neighbors, k, aimA, aimD);
      var cur := s.currentPlayer;
      var p := s.players[cur];
      var t := s.board[k];
      t.owner == None && BordersOwned(s.board, neighbors, k, cur) && p.stone >= 2 ==>
        r == s.(players := s.players[cur := p.(stone := p.stone - 2, hexes := p.hexes + [k])],
                board := s.board[k := t.(owner := Some(cur))])
    ensures var r := ClickResult(s, neighbors, k, aimA, aimD);
      var p := s.players[s.currentPlayer];
      var t := s.board[k];
      (t.owner == Some(s.currentPlayer) && (p.food < 2 || p.wood < 1)) ||
      (t.owner == None && BordersOwned(s.board, neighbors, k, s.currentPlayer) && p.stone < 2) ==>
        r == s
  {
  }

  /** A building-phase click on a tile that is neither the player's own nor a bordering free tile changes nothing. */
  lemma BuildingClickElsewhereIgnored(s: CanvasState, neighbors: Neighbors, k: nat, aimA: nat -> nat, aimD: nat -> nat)
    requires Sound(s) && k < |s.board| && s.phase == Building
    requires s.board[k].owner != Some(s.currentPlayer)
    requires !(s.board[k].owner == None && BordersOwned(s.board, neighbors, k, s.currentPlayer))
    ensures ClickResult(s, neighbors, k, aimA, aimD) == s
  {
  }

  /**
   * In the attacking phase a second click always clears the selection, and it attacks exactly
   * when the clicked tile neighbours the selected one and is not the current player's.
   */
  lemma AttackingClickClearsSelection(s: CanvasState, neighbors: Neighbors, k: nat, aimA: nat -> nat, aimD: nat -> nat)
    requires Sound(s) && k < |s.board| && s.phase == Attacking
    ensures var r := ClickResult(s, neighbors, k, aimA, aimD);
      && r.players == s.players
      && (s.selected.Some? ==> r.selected == None)
      && (s.selected.None? ==> r.board == s.board && (r.selected.Some? <==> s.board[k].owner == Some(s.currentPlayer) && |s.board[k].armies| > 0))
      && (r.board != s.board ==>
            && s.selected.Some?
            && s.board[k].hex in neighbors(s.board[s.selected.value].hex)
            && s.board[k].owner != Some(s.currentPlayer))
    ensures var r := ClickResult(s, neighbors, k, aimA, aimD);
      s.selected.Some? && s.board[k].hex in neighbors(s.board[s.selected.value].hex) && s.board[k].owner != Some(s.currentPlayer) ==>
        r.board == Attack(s.board, s.selected.value, k, aimA, aimD)
    ensures var r := ClickResult(s, neighbors, k, aimA, aimD);
      s.selected.None? && s.board[k].owner == Some(s.currentPlayer) && |s.board[k].armies| > 0 ==>
        r.selected == Some(k)
  {
  }

  /** `startTurn` keeps the invariant. */
  lemma StartTurnKeepsSound(s: CanvasState)
    requires Sound(s)
    ensures Sound(TurnStarted(s))
  {
  }

  // ---------------------------------------------------------------------------
  // The game.js globals as an object
  // ---------------------------------------------------------------------------

  /** `gameState` (board and players updated in place) and the global `selectedHex`. */
  class CanvasGame {
    const board: array<CanvasTile>
    const players: array<CanvasPlayer>
    /** `grid.neighbors`. */
    const neighbors: Neighbors
    var currentPlayer: nat
    var phase: Stage
    var selectedHex: Option<nat>

    function View(): CanvasState
      reads this, board, players
    {
      CanvasState(board[..], players[..], currentPlayer, phase, selectedHex)
    }

    /** The state `startGame` leaves before its `startTurn`, given as values. */
    constructor(tiles: seq<CanvasTile>, roster: seq<CanvasPlayer>, neighbors: Neighbors)
      ensures View() == CanvasState(tiles, roster, 0, Building, None)
    {
      this.board := new CanvasTile[|tiles|](i requires 0 <= i < |tiles| => tiles[i]);
      this.players := new CanvasPlayer[|roster|](i requires 0 <= i < |roster| => roster[i]);
      this.neighbors := neighbors;
      currentPlayer := 0;
      phase := Building;
      selectedHex := None;
    }

    /** `startTurn()`: the board loop pays the current player, then the phase becomes building. */
    method StartTurn()
      requires currentPlayer < players.Length
      modifies this, players
      ensures View() == TurnStarted(old(View()))
    {
      ghost var s := View();
      var cur := currentPlayer;
      for i := 0 to board.Length
        invariant players[..] == s.players[cur := Income(s.players[cur], board[..i], cur)]
        modifies players
      {
        assert board[..i + 1][..i] == board[..i];
        var tile := board[i];
        if tile.owner == Some(cur) {
          var pl := players[cur];
          match tile.kind
          case Wood => players[cur] := pl.(wood := pl.wood + 1);
          case Stone => players[cur] := pl.(stone := pl.stone + 1);
          case Food => players[cur] := pl.(food := pl.food + 1);
        }
      }
      assert board[..board.Length] == board[..] == s.board;
      phase := Building;
      assert View() == s.(players := players[..], phase := Building);
    }

    /** One side's `forEach` of `performAttack` on local copies. */
    static method StrikeAll(targets: seq<Unit>, strikers: seq<Unit>, aim: nat -> nat) returns (r: seq<Unit>)
      ensures r == Strike(targets, strikers, aim)
    {
      r := targets;
      for i := 0 to |strikers|
        invariant r == Strike(targets, strikers[..i], aim)
      {
        assert strikers[..i + 1][..i] == strikers[..i];
        if |r| > 0 {
          var j := aim(i) % |r|;
          r := r[j := r[j].(health := r[j].health - strikers[i].damage)];
        }
      }
      assert strikers[..|strikers|] == strikers;
    }

    /** `performAttack(board[a], board[d])`. */
    method PerformAttack(a: nat, d: nat, aimA: nat -> nat, aimD: nat -> nat)
      requires a < board.Length && d < board.Length && a != d
      modifies board
      ensures board[..] == Attack(old(board[..]), a, d, aimA, aimD)
    {
      var attackers := board[a].armies;
      var defenders := board[d].armies;
      defenders := StrikeAll(defenders, attackers, aimA);
      attackers := StrikeAll(attackers, defenders, aimD);
      var at := board[a].(armies := Survivors(attackers));
      var dt := board[d].(armies := Survivors(defenders));
      if |dt.armies| == 0 {
        dt := dt.(owner := at.owner);
        if |at.armies| > 1 {
          dt := dt.(armies := at.armies[1..]);
          at := at.(armies := [at.armies[0]]);
        } else {
          dt := dt.(armies := at.armies);
          at := at.(armies := [], owner := None);
        }
      }
      assert (at, dt) == Resolve(old(board[a]), old(board[d]), Survivors(attackers), Survivors(defenders));
      board[a] := at;
      board[d] := dt;
    }

    /** The rule branches of the canvas click handler for the clicked tile `k`. */
    method Click(k: nat, aimA: nat -> nat, aimD: nat -> nat)
      requires Sound(View()) && k < board.Length
      modifies this, board, players
      ensures View() == ClickResult(old(View()), neighbors, k, aimA, aimD)
    {
      var cur := currentPlayer;
      var player := players[cur];
      var tile := board[k];
      if phase == Building {
        if tile.owner == Some(cur) {
          if player.food >= ArmyFood && player.wood >= ArmyWood {
            players[cur] := player.(food := player.food - ArmyFood, wood := player.wood - ArmyWood);
            board[k] := tile.(armies := tile.armies + [Recruit]);
          }
        } else if tile.owner == None && BordersOwned(board[..], neighbors, k, cur) {
          if player.stone >= HexStone {
            players[cur] := player.(stone := player.stone - HexStone, hexes := player.hexes + [k]);
            board[k] := tile.(owner := Some(cur));
          }
        }
      } else {
        match selectedHex
        case None =>
          if tile.owner == Some(cur) && |tile.armies| > 0 {
            selectedHex := Some(k);
          }
        case Some(m) =>
          if tile.hex in neighbors(board[m].hex) && tile.owner != Some(cur) {
            PerformAttack(m, k, aimA, aimD);
            selectedHex := None;
          } else {
            selectedHex := None;
          }
      }
    }
  }
}
