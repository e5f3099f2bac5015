/** The map generator's configuration asset (`MapGeneratorConfig`). */
module MapConfig {
  import opened Wrappers

  /** A tile asset, identified by an opaque number. */
  type Tile = nat

  /** A serialized `TileBase[]` field: the array itself may be missing (null),
      and so may each of its entries. */
  type TileArray = Option<seq<Option<Tile>>>

  /** Number of auto-tile variants laid out as a 3x3 block:
      0 top-left, 1 top, 2 top-right, 3 left, 4 centre, 5 right,
      6 bottom-left, 7 bottom, 8 bottom-right. */
  const EdgeTileCount: nat := 9

  datatype MapGeneratorConfig = MapGeneratorConfig(
    mapWidth: int,                 // tiles
    mapHeight: int,                // tiles
    noiseScale: real,
    grassThreshold: real,
    grassFillTile: Option<Tile>,
    dirtFillTile: Option<Tile>,
    grassEdgeTiles: TileArray,
    groundVariationTiles: TileArray,
    smallDecorations: TileArray,
    smallDecorationChance: real,
    mediumDecorations: TileArray,
    mediumDecorationChance: real,
    largeDecorations: TileArray,
    largeDecorationChance: real,
    spawnSafeRadius: int           // tiles
  )

  /** A freshly created asset: the field initialisers, with no tiles assigned. */
  function DefaultConfig(): MapGeneratorConfig
  {
    MapGeneratorConfig(
      mapWidth := 100, mapHeight := 100,
      noiseScale := 0.1, grassThreshold := 0.5,
      grassFillTile := None, dirtFillTile := None,
      grassEdgeTiles := None, groundVariationTiles := None,
      smallDecorations := None, smallDecorationChance := 0.05,
      mediumDecorations := None, mediumDecorationChance := 0.02,
      largeDecorations := None, largeDecorationChance := 0.01,
      spawnSafeRadius := 5)
  }

  /** The inspector ranges declared on the fields (editor-only: nothing enforces them at run time). */
  predicate InDeclaredRanges(c: MapGeneratorConfig)
  {
    && 0.01 <= c.noiseScale <= 0.5
    && 0.0 <= c.grassThreshold <= 1.0
    && 0.0 <= c.smallDecorationChance <= 0.2
    && 0.0 <= c.mediumDecorationChance <= 0.1
    && 0.0 <= c.largeDecorationChance <= 0.05
  }

  /** The array is present and has at least one entry (the `!= null && Length > 0` tests). */
  predicate HasTiles(a: TileArray)
  {
    a.Some? && |a.value| > 0
  }

  /** The edge pass only runs with a full 3x3 auto-tile set. */
  predicate HasEdgeTiles(c: MapGeneratorConfig)
  {
    c.grassEdgeTiles.Some? && |c.grassEdgeTiles.value| >= EdgeTileCount
  }

  /** `t` is one of the tiles in the array. */
  predicate InTileArray(t: Tile, a: TileArray)
  {
    a.Some? && Some(t) in a.value
  }

  /** The defaults lie inside the declared ranges, the map is 100x100 tiles and the spawn radius is 5 tiles. */
  lemma DefaultConfigInRanges()
    ensures InDeclaredRanges(DefaultConfig())
    ensures DefaultConfig().mapWidth == 100 && DefaultConfig().mapHeight == 100
    ensures DefaultConfig().spawnSafeRadius == 5
    ensures DefaultConfig().noiseScale == 0.1 && DefaultConfig().grassThreshold == 0.5
  {
  }
}
