/**
 * The board of hexBoard.js: one tile per hex of the grid, looked up by hex.
 * The Honeycomb grid is not part of this model: a hex is a pair of coordinates compared
 * structurally (as `hex.equals` does), and `grid.neighborsOf` is a function value handed in.
 */
module HexBoard {
  import opened Wrappers

  datatype Hex = Hex(x: int, y: int)

  /** The grid's neighbour relation: the hexes `grid.neighborsOf(h)` lists. */
  type Neighbors = Hex -> seq<Hex>

  datatype Terrain = Grass | Forest | Mountain

  /**
   * The rule-relevant fields of a tile object; owner `None` is `null`.
   * The Phaser display fields (container, sprites, texts, highlight) are left out.
   */
  datatype Tile = Tile(hex: Hex, terrain: Terrain, resourceValue: int, owner: Option<nat>, armies: int, settlement: bool)

  /** The terrain names indexed by `Math.floor(Math.random() * 3)`. */
  const TerrainTable: seq<Terrain> := [Grass, Forest, Mountain]

  /**
   * The two random numbers one tile consumes: `Math.floor(Math.random() * 3)` picks the terrain and
   * `Math.floor(Math.random() * 6)` (before the `+ 1`) the resource value.
   */
  datatype TileDraw = TileDraw(terrainRoll: nat, valueRoll: nat)

  predicate DrawInRange(d: TileDraw)
  {
    d.terrainRoll < 3 && d.valueRoll < 6
  }

  /** A board-wide reading of `initializeTiles`' contract: unclaimed, empty, valued 1..6. */
  predicate Pristine(t: Tile)
  {
    t.owner == None && t.armies == 0 && !t.settlement && 1 <= t.resourceValue <= 6
  }

  /**
   * `initializeTiles`: maps every hex of the grid, in the grid's order, to a fresh tile whose
   * terrain and value come from that hex's draws.
   */
  function InitializeTiles(grid: seq<Hex>, draws: seq<TileDraw>): (tiles: seq<Tile>)
    requires |draws| == |grid|
    requires forall i :: 0 <= i < |draws| ==> DrawInRange(draws[i])
    ensures |tiles| == |grid|
    ensures forall i :: 0 <= i < |tiles| ==> tiles[i].hex == grid[i] && Pristine(tiles[i])
    ensures forall i :: 0 <= i < |tiles| ==>
      && DrawInRange(draws[i])
      && tiles[i].terrain == TerrainTable[draws[i].terrainRoll]
      && tiles[i].resourceValue == draws[i].valueRoll + 1
  {
    seq(|grid|, i requires 0 <= i < |grid| => FreshTile(grid[i], draws[i]))
  }

  /** One element of `initializeTiles`' `map`. */
  function FreshTile(h: Hex, d: TileDraw): (t: Tile)
    requires DrawInRange(d)
    ensures t.hex == h && Pristine(t)
    ensures t.terrain == TerrainTable[d.terrainRoll] && t.resourceValue == d.valueRoll + 1 && 1 <= t.resourceValue <= 6
  {
    Tile(h, TerrainTable[d.terrainRoll], d.valueRoll + 1, None, 0, false)
  }

  /** `getTileAt`: the position of the first tile on hex `h`, or `None` when no tile is there. */
  function GetTileAt(tiles: seq<Tile>, h: Hex): (r: Option<nat>)
    ensures r.Some? ==> r.value < |tiles| && tiles[r.value].hex == h
    ensures r.Some? ==> forall j :: 0 <= j < r.value ==> tiles[j].hex != h
    ensures r.None? <==> forall j :: 0 <= j < |tiles| ==> tiles[j].hex != h
    decreases |tiles|
  {
    if |tiles| == 0 then None
    else if tiles[0].hex == h then Some(0)
    else match GetTileAt(tiles[1..], h)
      case None => None
      case Some(j) => Some(j + 1)
  }

  /** Hex `h` carries a tile and that tile's owner is `p` (the `neighborTile && neighborTile.owner === p` test). */
  predicate TileOnHexOwnedBy(tiles: seq<Tile>, h: Hex, p: nat)
  {
    var at := GetTileAt(tiles, h);
    at.Some? && tiles[at.value].owner == Some(p)
  }

  /** `isAdjacentToOwned(tile, p)`: some neighbour hex of tile `k` carries a tile owned by `p`. */
  predicate IsAdjacentToOwned(tiles: seq<Tile>, neighbors: Neighbors, k: nat, p: nat)
    requires k < |tiles|
    ensures IsAdjacentToOwned(tiles, neighbors, k, p) ==>
      exists j :: 0 <= j < |tiles| && tiles[j].hex in neighbors(tiles[k].hex) && tiles[j].owner == Some(p)
    ensures (exists j :: 0 <= j < |tiles| && tiles[j].hex in neighbors(tiles[k].hex) && tiles[j].owner == Some(p)
               && GetTileAt(tiles, tiles[j].hex) == Some(j)) ==>
      IsAdjacentToOwned(tiles, neighbors, k, p)
  {
    exists n :: n in neighbors(tiles[k].hex) && TileOnHexOwnedBy(tiles, n, p)
  }

  /** The hexes of a board are pairwise distinct (true of a Honeycomb rectangle). */
  predicate DistinctHexes(tiles: seq<Tile>)
  {
    forall i, j :: 0 <= i < j < |tiles| ==> tiles[i].hex != tiles[j].hex
  }

  /**
   * On a board whose hexes are distinct, `isAdjacentToOwned` is exactly "some tile sitting on a
   * neighbour hex of tile `k` is owned by `p`": neighbour hexes without a tile play no part.
   */
  lemma AdjacentToOwnedIffOwnedNeighborTile(tiles: seq<Tile>, neighbors: Neighbors, k: nat, p: nat)
    requires k < |tiles| && DistinctHexes(tiles)
    ensures IsAdjacentToOwned(tiles, neighbors, k, p) <==>
      exists j :: 0 <= j < |tiles| && tiles[j].hex in neighbors(tiles[k].hex) && tiles[j].owner == Some(p)
  {
    if j :| 0 <= j < |tiles| && tiles[j].hex in neighbors(tiles[k].hex) && tiles[j].owner == Some(p) {
      var at := GetTileAt(tiles, tiles[j].hex);
      assert at == Some(j);
      assert TileOnHexOwnedBy(tiles, tiles[j].hex, p);
    }
  }
}
