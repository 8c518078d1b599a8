/** The `Player` class of player.js: a wallet, the list of owned tiles and the moved-this-turn flag. */
module Players {
  import opened Wrappers
  import opened Constants
  import opened HexBoard

  /** The `resources` object `{ wood, stone, food }`. */
  datatype Wallet = Wallet(wood: int, stone: int, food: int)
  {
    function Get(r: Resource): int
    {
      match r
      case Wood => wood
      case Stone => stone
      case Food => food
    }

    /** The wallet with resource `r` replaced by `v` (one `this.resources[resource] = v`). */
    function Set(r: Resource, v: int): (w: Wallet)
      ensures w.Get(r) == v && forall s :: s != r ==> w.Get(s) == Get(s)
    {
      match r
      case Wood => this.(wood := v)
      case Stone => this.(stone := v)
      case Food => this.(food := v)
    }

    function Plus(other: Wallet): Wallet
    {
      Wallet(wood + other.wood, stone + other.stone, food + other.food)
    }

    predicate NonNegative()
    {
      wood >= 0 && stone >= 0 && food >= 0
    }
  }

  /** The resources every new player starts with. */
  const StartingWallet: Wallet := Wallet(5, 5, 5)

  /** `canAfford(cost)`: the wallet holds at least each amount the cost names. */
  predicate CanAfford(w: Wallet, cost: Cost)
    ensures CanAfford(w, cost) <==> forall r :: r in cost ==> Spend(w, cost).Get(r) >= 0
    ensures w.NonNegative() ==> (CanAfford(w, cost) <==> Spend(w, cost).NonNegative())
  {
    forall r :: r in cost ==> w.Get(r) >= cost[r]
  }

  /** What `spendResources(cost)` leaves in the wallet. */
  function Spend(w: Wallet, cost: Cost): (r: Wallet)
    ensures forall res :: res in cost ==> r.Get(res) == w.Get(res) - cost[res]
    ensures forall res :: res !in cost ==> r.Get(res) == w.Get(res)
  {
    Wallet(w.wood - Amount(cost, Wood), w.stone - Amount(cost, Stone), w.food - Amount(cost, Food))
  }

  /** Spending what one can afford never drives a resource below zero. */
  lemma SpendAffordableStaysNonNegative(w: Wallet, cost: Cost)
    requires w.NonNegative() && CanAfford(w, cost)
    ensures Spend(w, cost).NonNegative()
    ensures forall r :: Spend(w, cost).Get(r) >= 0
  {
    forall r ensures Spend(w, cost).Get(r) >= 0 {
      if r in cost {
        assert w.Get(r) >= cost[r];
      }
    }
    assert Spend(w, cost).Get(Wood) >= 0 && Spend(w, cost).Get(Stone) >= 0 && Spend(w, cost).Get(Food) >= 0;
  }

  /** An empty wallet can afford none of the three prices, since every amount in the table is positive. */
  lemma EmptyWalletAffordsNothing()
    ensures !CanAfford(Wallet(0, 0, 0), COSTS.army)
    ensures !CanAfford(Wallet(0, 0, 0), COSTS.settlement)
    ensures !CanAfford(Wallet(0, 0, 0), COSTS.territory)
  {
    assert Food in COSTS.army;
    assert Wood in COSTS.settlement;
    assert Wood in COSTS.territory;
  }

  /** `hexes.filter((h) => h !== tile)`: every occurrence of `k` dropped, the rest in order. */
  function Without(hexes: seq<nat>, k: nat): (r: seq<nat>)
    ensures k !in r
    ensures forall x :: x != k ==> (x in r <==> x in hexes)
    ensures multiset(r) == multiset(hexes)[k := 0]
    ensures k !in hexes ==> r == hexes
    decreases |hexes|
  {
    if |hexes| == 0 then []
    else
      var rest := Without(hexes[1..], k);
      assert hexes == [hexes[0]] + hexes[1..];
      if hexes[0] == k then rest else [hexes[0]] + rest
  }

  /** The filter keeps the order: dropping `k` from two runs of hexes drops it from each, in turn. */
  lemma {:induction false} WithoutAppend(a: seq<nat>, b: seq<nat>, k: nat)
    ensures Without(a + b, k) == Without(a, k) + Without(b, k)
    decreases |a|
  {
    if |a| == 0 {
      assert a + b == b;
    } else {
      assert (a + b)[1..] == a[1..] + b;
      assert (a + b)[0] == a[0];
      WithoutAppend(a[1..], b, k);
    }
  }

  /** A single hex is dropped exactly when it is `k`. */
  lemma WithoutOne(x: nat, k: nat)
    ensures Without([x], k) == if x == k then [] else [x]
  {
    assert [x][1..] == [];
  }

  /** One entry of the start screen's `playersData`: `{ name, color }`. */
  datatype PlayerData = PlayerData(name: string, color: string)

  /** The value of a player's rule-relevant fields. */
  datatype PlayerState = PlayerState(id: nat, name: string, color: string, resources: Wallet, hexes: seq<nat>, hasMovedArmy: bool)

  /** `canExpandTo(tile, board)`: tile `k` is unowned and borders a tile owned by player `id`. */
  predicate CanExpandTo(id: nat, tiles: seq<Tile>, neighbors: Neighbors, k: nat)
    requires k < |tiles|
    ensures CanExpandTo(id, tiles, neighbors, k) ==>
      && tiles[k].owner == None
      && exists j :: 0 <= j < |tiles| && j != k && tiles[j].hex in neighbors(tiles[k].hex) && tiles[j].owner == Some(id)
  {
    tiles[k].owner == None && IsAdjacentToOwned(tiles, neighbors, k, id)
  }

  /**
   * A player object. `hexes` holds the positions of the owned tiles in the board's tile array:
   * the source keeps the tile objects themselves, and a tile's identity is its position.
   */
  class Player {
    const id: nat
    const name: string
    const color: string
    var resources: Wallet
    var hexes: seq<nat>
    var hasMovedArmy: bool

    function Record(): PlayerState
      reads this
    {
      PlayerState(id, name, color, resources, hexes, hasMovedArmy)
    }

    constructor(id: nat, name: string, color: string)
      ensures Record() == PlayerState(id, name, color, StartingWallet, [], false)
    {
      this.id := id;
      this.name := name;
      this.color := color;
      this.resources := StartingWallet;
      this.hexes := [];
      this.hasMovedArmy := false;
    }

    /** `addHex(tile)`: appends the tile, with no duplicate check, and makes this player its owner. */
    method AddHex(tiles: array<Tile>, k: nat)
      requires k < tiles.Length
      modifies this, tiles
      ensures Record() == old(Record()).(hexes := old(hexes) + [k])
      ensures tiles[..] == old(tiles[..])[k := old(tiles[k]).(owner := Some(id))]
    {
      hexes := hexes + [k];
      tiles[k] := tiles[k].(owner := Some(id));
    }

    /** `removeHex(tile)`: drops every occurrence of the tile and clears its owner. */
    method RemoveHex(tiles: array<Tile>, k: nat)
      requires k < tiles.Length
      modifies this, tiles
      ensures Record() == old(Record()).(hexes := Without(old(hexes), k))
      ensures tiles[..] == old(tiles[..])[k := old(tiles[k]).(owner := None)]
    {
      hexes := Without(hexes, k);
      tiles[k] := tiles[k].(owner := None);
    }

    /** The assignment `player.hasMovedArmy = moved` that the scene makes. */
    method SetMoved(moved: bool)
      modifies this
      ensures Record() == old(Record()).(hasMovedArmy := moved)
    {
      hasMovedArmy := moved;
    }

    /** The additions `player.resources.<kind> += bonus` that the scene makes when it collects resources. */
    method Receive(gain: Wallet)
      modifies this
      ensures Record() == old(Record()).(resources := old(resources).Plus(gain))
    {
      resources := resources.Plus(gain);
    }

    /** The per-player assignments of `undoLastAction`: saved resources, hexes and moved flag. */
    method Restore(saved: PlayerState)
      modifies this
      ensures Record() == old(Record()).(resources := saved.resources, hexes := saved.hexes, hasMovedArmy := saved.hasMovedArmy)
    {
      resources := saved.resources;
      hexes := saved.hexes;
      hasMovedArmy := saved.hasMovedArmy;
    }

    /** `spendResources(cost)`: subtracts each amount the cost names, one entry at a time. */
    method SpendResources(cost: Cost)
      modifies this
      ensures Record() == old(Record()).(resources := Spend(old(resources), cost))
    {
      var pending := cost.Keys;
      while pending != {}
        invariant pending <= cost.Keys
        invariant forall r :: resources.Get(r) == old(resources).Get(r) - (if r in cost && r !in pending then cost[r] else 0)
        invariant hexes == old(hexes) && hasMovedArmy == old(hasMovedArmy)
        decreases pending
      {
        var r :| r in pending;
        resources := resources.Set(r, resources.Get(r) - cost[r]);
        pending := pending - {r};
      }
      assert resources.Get(Wood) == Spend(old(resources), cost).Get(Wood);
      assert resources.Get(Stone) == Spend(old(resources), cost).Get(Stone);
      assert resources.Get(Food) == Spend(old(resources), cost).Get(Food);
    }
  }

  /** The records of a list of player objects, index by index. */
  function Records(ps: seq<Player>): (rs: seq<PlayerState>)
    reads set p | p in ps
    ensures |rs| == |ps| && forall i :: 0 <= i < |ps| ==> rs[i] == ps[i].Record()
  {
    seq(|ps|, i requires 0 <= i < |ps| reads ps => ps[i].Record())
  }
}
