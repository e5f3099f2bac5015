/** The procedural map generator component (`ProceduralMapGenerator`).

    The three tilemaps are map-valued fields that the methods rebuild in
    place; a tilemap reference that is not assigned is a false presence flag,
    and its layer stays empty. Unity's global random generator is the field
    `rng`. Perlin noise and the seed-to-stream function of the generator are
    parameters of the scene. */
module ProceduralMap {
  import opened Wrappers
  import opened MapConfig
  import opened MapGrid
  import opened UnityRandom
  import opened MapPasses
  import opened MapBoundaries

  /** The component's serialized settings and the engine services it relies on. */
  datatype Scene = Scene(
    hasGroundTilemap: bool,
    hasDecorationTilemap: bool,
    hasCollisionTilemap: bool,
    generateBoundaryWalls: bool,
    generateCameraBounds: bool,
    cameraBoundsPadding: real,
    isServer: bool,
    perlin: (real, real) -> real,          // Mathf.PerlinNoise
    seeding: int -> (nat -> nat)           // Random.InitState: the stream each seed selects
  )

  /** Noise offsets are drawn from [0, 10000]. */
  const OffsetRange: real := 10000.0

  /** What one generation produces. */
  datatype Generated = Generated(
    ground: Layer, decoration: Layer, collision: Layer,
    boundaryWalls: Option<seq<Wall>>, cameraBounds: Option<seq<Vec2>>, rng: Rng)

  /** The noise field of a generation: seed the generator, then draw the x and y offsets. */
  function GenerationNoise(cfg: MapGeneratorConfig, scene: Scene, seed: int): (out: (NoiseField, Rng))
    ensures out.1 == Rng(scene.seeding(seed), 2)
  {
    var r0 := InitState(scene.seeding, seed);
    var (ox, r1) := RangeFloat(r0, 0.0, OffsetRange);
    var (oy, r2) := RangeFloat(r1, 0.0, OffsetRange);
    (NoiseAt(scene.perlin, cfg.noiseScale, ox, oy), r2)
  }

  /** `GenerateGroundLayer`: the ground pass followed by the edge pass, or
      nothing without a ground tilemap. The loops run over [-hw, hw) x [-hh, hh). */
  function GroundLayer(cfg: MapGeneratorConfig, scene: Scene, noise: NoiseField, hw: int, hh: int,
                       ground: Layer, r: Rng): (Layer, Rng)
  {
    if !scene.hasGroundTilemap then (ground, r)
    else
      var (g, r') := GroundPass(cfg, noise, hw, hh, Top(hw), -hh, ground, r);
      (if HasEdgeTiles(cfg) then EdgePass(cfg, noise, hw, hh, Top(hw), -hh, g) else g, r')
  }

  /** `GenerateDecorations`: the decoration pass, or nothing without a decoration tilemap. */
  function DecorationLayers(cfg: MapGeneratorConfig, scene: Scene, noise: NoiseField, hw: int, hh: int,
                            decoration: Layer, collision: Layer, r: Rng): Decorated
  {
    if !scene.hasDecorationTilemap then Decorated(decoration, collision, map[], r)
    else DecorationPass(cfg, noise, scene.hasCollisionTilemap, hw, hh, Top(hw), -hh, decoration, collision, r)
  }

  /** `GenerateMap(seed)` with a configuration: everything it builds, as a function
      of the configuration, the scene and the seed alone. */
  function Generate(cfg: MapGeneratorConfig, scene: Scene, seed: int): (gen: Generated)
    ensures !scene.hasGroundTilemap ==> gen.ground == map[]
    ensures !scene.hasDecorationTilemap ==> gen.decoration == map[] && gen.collision == map[]
    ensures gen.boundaryWalls.Some? <==> scene.generateBoundaryWalls
    ensures gen.boundaryWalls.Some? ==> gen.boundaryWalls.value == BoundaryWalls(cfg.mapWidth, cfg.mapHeight)
    ensures gen.cameraBounds.Some? <==> scene.generateCameraBounds
    ensures gen.cameraBounds.Some? ==>
      gen.cameraBounds.value == CameraBoundsPath(cfg.mapWidth, cfg.mapHeight, scene.cameraBoundsPadding)
  {
    var (noise, r) := GenerationNoise(cfg, scene, seed);
    var hw, hh := Half(cfg.mapWidth), Half(cfg.mapHeight);
    var (g, r') := GroundLayer(cfg, scene, noise, hw, hh, map[], r);
    var d := DecorationLayers(cfg, scene, noise, hw, hh, map[], map[], r');
    Generated(
      g, d.decoration, d.collision,
      if scene.generateBoundaryWalls then Some(BoundaryWalls(cfg.mapWidth, cfg.mapHeight)) else None,
      if scene.generateCameraBounds then Some(CameraBoundsPath(cfg.mapWidth, cfg.mapHeight, scene.cameraBoundsPadding)) else None,
      d.rng)
  }

  /** A generation is the ground layer built from its noise and the decoration
      layers built after it, with the boundary objects its scene asks for. */
  lemma GenerateFrom(cfg: MapGeneratorConfig, scene: Scene, seed: int, noise: NoiseField, r0: Rng,
                      g: Layer, r1: Rng, decoration: Layer, collision: Layer, r2: Rng)
    requires (noise, r0) == GenerationNoise(cfg, scene, seed)
    requires (g, r1) == GroundLayer(cfg, scene, noise, Half(cfg.mapWidth), Half(cfg.mapHeight), map[], r0)
    requires var d := DecorationLayers(cfg, scene, noise, Half(cfg.mapWidth), Half(cfg.mapHeight), map[], map[], r1);
      decoration == d.decoration && collision == d.collision && r2 == d.rng
    ensures Generate(cfg, scene, seed)
            == Generated(g, decoration, collision,
                         if scene.generateBoundaryWalls then Some(BoundaryWalls(cfg.mapWidth, cfg.mapHeight)) else None,
                         if scene.generateCameraBounds then Some(CameraBoundsPath(cfg.mapWidth, cfg.mapHeight, scene.cameraBoundsPadding)) else None,
                         r2)
  {
  }

  /** The grass cells of a generation's grid. */
  function GrassCells(cfg: MapGeneratorConfig, scene: Scene, seed: int): set<Cell>
  {
    var noise := GenerationNoise(cfg, scene, seed).0;
    var hw, hh := Half(cfg.mapWidth), Half(cfg.mapHeight);
    set x: int, y: int | -hw <= x < hw && -hh <= y < hh && IsGrass(cfg, noise, x, y) :: (x, y)
  }

  /** Once both loops have finished, they have visited exactly the grid. */
  lemma VisitedAll(hw: int, hh: int)
    ensures forall c :: VisitedBefore(c, hw, hh, Top(hw), -hh) <==> InGrid(c, hw, hh)
  {
  }

  /** What the ground layer built from an empty tilemap holds, for any noise field:
      - every tile lies in [-hw, hw) x [-hh, hh);
      - a dirt cell holds the dirt tile, or nothing when that tile is null;
      - a grass cell holds the fill tile, a variation tile or an edge tile. */
  lemma GroundLayerContents(cfg: MapGeneratorConfig, scene: Scene, noise: NoiseField, hw: int, hh: int, r: Rng)
    ensures var g := GroundLayer(cfg, scene, noise, hw, hh, map[], r).0;
      forall c :: c in g ==> InGrid(c, hw, hh)
    ensures var g := GroundLayer(cfg, scene, noise, hw, hh, map[], r).0;
      forall c :: InGrid(c, hw, hh) && !IsGrass(cfg, noise, c.0, c.1) && scene.hasGroundTilemap ==>
        (c in g <==> cfg.dirtFillTile.Some?) && (c in g ==> Some(g[c]) == cfg.dirtFillTile)
    ensures var g := GroundLayer(cfg, scene, noise, hw, hh, map[], r).0;
      forall c :: c in g && IsGrass(cfg, noise, c.0, c.1) ==>
        Some(g[c]) == cfg.grassFillTile || InTileArray(g[c], cfg.groundVariationTiles) ||
        InTileArray(g[c], cfg.grassEdgeTiles)
  {
    VisitedAll(hw, hh);
    if scene.hasGroundTilemap {
      var (g, r') := GroundPass(cfg, noise, hw, hh, Top(hw), -hh, map[], r);
      GroundPassFrame(cfg, noise, hw, hh, Top(hw), -hh, map[], r);
      GroundPassDirt(cfg, noise, hw, hh, Top(hw), -hh, map[], r);
      if HasEdgeTiles(cfg) {
        EdgePassDomain(cfg, noise, hw, hh, Top(hw), -hh, g);
        EdgePassValues(cfg, noise, hw, hh, Top(hw), -hh, g);
      }
    }
  }

  /** What every generated ground layer holds: the facts above, on the grid
      [-w/2, w/2) x [-h/2, h/2) (C# integer division) and the generation's noise. */
  lemma GeneratedGround(cfg: MapGeneratorConfig, scene: Scene, seed: int)
    ensures var gen := Generate(cfg, scene, seed);
      forall c :: c in gen.ground ==> InGrid(c, Half(cfg.mapWidth), Half(cfg.mapHeight))
    ensures var gen := Generate(cfg, scene, seed);
      var noise := GenerationNoise(cfg, scene, seed).0;
      forall c :: InGrid(c, Half(cfg.mapWidth), Half(cfg.mapHeight)) && !IsGrass(cfg, noise, c.0, c.1) && scene.hasGroundTilemap ==>
        (c in gen.ground <==> cfg.dirtFillTile.Some?) && (c in gen.ground ==> Some(gen.ground[c]) == cfg.dirtFillTile)
    ensures var gen := Generate(cfg, scene, seed);
      var noise := GenerationNoise(cfg, scene, seed).0;
      forall c :: c in gen.ground && IsGrass(cfg, noise, c.0, c.1) ==>
        Some(gen.ground[c]) == cfg.grassFillTile || InTileArray(gen.ground[c], cfg.groundVariationTiles) ||
        InTileArray(gen.ground[c], cfg.grassEdgeTiles)
  {
    var hw, hh := Half(cfg.mapWidth), Half(cfg.mapHeight);
    var (noise, r) := GenerationNoise(cfg, scene, seed);
    assert Generate(cfg, scene, seed).ground == GroundLayer(cfg, scene, noise, hw, hh, map[], r).0;
    GroundLayerContents(cfg, scene, noise, hw, hh, r);
  }

  /** What every generated decoration and collision layer holds:
      - every decoration lies in the grid and on grass;
      - the collision layer holds large decorations only, never in the spawn
        safe zone, each with the same tile as the decoration layer;
      - without a collision tilemap the collision layer stays empty. */
  lemma GeneratedDecorations(cfg: MapGeneratorConfig, scene: Scene, seed: int)
    ensures var gen := Generate(cfg, scene, seed);
      var noise := GenerationNoise(cfg, scene, seed).0;
      forall c :: c in gen.decoration ==> InGrid(c, Half(cfg.mapWidth), Half(cfg.mapHeight)) && IsGrass(cfg, noise, c.0, c.1)
    ensures var gen := Generate(cfg, scene, seed);
      forall c :: c in gen.collision ==>
        && c in gen.decoration && gen.collision[c] == gen.decoration[c]
        && !InSafeZone(cfg, c) && InTileArray(gen.collision[c], cfg.largeDecorations)
    ensures !scene.hasCollisionTilemap ==> Generate(cfg, scene, seed).collision == map[]
  {
    var hw, hh := Half(cfg.mapWidth), Half(cfg.mapHeight);
    var (noise, r) := GenerationNoise(cfg, scene, seed);
    var r' := GroundLayer(cfg, scene, noise, hw, hh, map[], r).1;
    var gen := Generate(cfg, scene, seed);
    var d := DecorationLayers(cfg, scene, noise, hw, hh, map[], map[], r');
    assert gen.decoration == d.decoration && gen.collision == d.collision;
    VisitedAll(hw, hh);
    if scene.hasDecorationTilemap {
      var hasCollision := scene.hasCollisionTilemap;
      DecorationPassPlacements(cfg, noise, hasCollision, hw, hh, Top(hw), -hh, map[], map[], r');
      DecorationPassLargeCollide(cfg, noise, hasCollision, hw, hh, Top(hw), -hh, map[], map[], r');
      DecorationPassCollisions(cfg, noise, hasCollision, hw, hh, Top(hw), -hh, map[], map[], r');
      forall c | c in gen.collision
        ensures c in gen.decoration && gen.collision[c] == gen.decoration[c]
        ensures !InSafeZone(cfg, c) && InTileArray(gen.collision[c], cfg.largeDecorations)
      {
        assert c in d.placed && d.placed[c].tier == LargeTier;
        assert PlacementOk(cfg, noise, c, d.placed[c]);
      }
    }
  }

  /** Raising the grass threshold never adds grass: for a fixed seed the noise
      field does not depend on the threshold, so the grass cells of the higher
      threshold are among those of the lower one, and there are no more of them. */
  lemma ThresholdMonotonicity(cfg: MapGeneratorConfig, scene: Scene, seed: int, t1: real, t2: real)
    requires t1 <= t2
    ensures GrassCells(cfg.(grassThreshold := t2), scene, seed) <= GrassCells(cfg.(grassThreshold := t1), scene, seed)
    ensures |GrassCells(cfg.(grassThreshold := t2), scene, seed)| <= |GrassCells(cfg.(grassThreshold := t1), scene, seed)|
  {
    var low, high := cfg.(grassThreshold := t1), cfg.(grassThreshold := t2);
    assert GenerationNoise(low, scene, seed).0 == GenerationNoise(high, scene, seed).0;
    assert GrassCells(high, scene, seed) <= GrassCells(low, scene, seed);
    SubsetCardinality(GrassCells(high, scene, seed), GrassCells(low, scene, seed));
  }

  /** With noise 0.6 at a cell, the cell is grass at threshold 0.5 and dirt at 0.7:
      raising the threshold turns grass into dirt, although the threshold is described
      as "higher = more grass". */
  lemma RaisingThresholdRemovesGrass(cfg: MapGeneratorConfig, noise: NoiseField)
    requires noise(0, 0) == 0.6
    ensures IsGrass(cfg.(grassThreshold := 0.5), noise, 0, 0)
    ensures !IsGrass(cfg.(grassThreshold := 0.7), noise, 0, 0)
  {
  }

  /** The threshold as described: a cell is grass when its noise is above
      `1 - grassThreshold`, so that a higher threshold means more grass. */
  predicate IsGrassAsDescribed(cfg: MapGeneratorConfig, noise: NoiseField, x: int, y: int)
  {
    noise(x, y) > 1.0 - cfg.grassThreshold
  }

  /** The grass cells of a generation's grid under the described threshold. */
  function DescribedGrassCells(cfg: MapGeneratorConfig, scene: Scene, seed: int): set<Cell>
  {
    var noise := GenerationNoise(cfg, scene, seed).0;
    var hw, hh := Half(cfg.mapWidth), Half(cfg.mapHeight);
    set x: int, y: int | -hw <= x < hw && -hh <= y < hh && IsGrassAsDescribed(cfg, noise, x, y) :: (x, y)
  }

  /** Under the described threshold, raising it never removes grass; at the default
      threshold 0.5 the described rule and the generator's rule pick the same cells. */
  lemma DescribedThresholdMonotonicity(cfg: MapGeneratorConfig, scene: Scene, seed: int, t1: real, t2: real)
    requires t1 <= t2
    ensures DescribedGrassCells(cfg.(grassThreshold := t1), scene, seed) <= DescribedGrassCells(cfg.(grassThreshold := t2), scene, seed)
    ensures |DescribedGrassCells(cfg.(grassThreshold := t1), scene, seed)| <= |DescribedGrassCells(cfg.(grassThreshold := t2), scene, seed)|
    ensures cfg.grassThreshold == 0.5 ==> DescribedGrassCells(cfg, scene, seed) == GrassCells(cfg, scene, seed)
  {
    var low, high := cfg.(grassThreshold := t1), cfg.(grassThreshold := t2);
    assert GenerationNoise(low, scene, seed).0 == GenerationNoise(high, scene, seed).0;
    assert DescribedGrassCells(low, scene, seed) <= DescribedGrassCells(high, scene, seed);
    SubsetCardinality(DescribedGrassCells(low, scene, seed), DescribedGrassCells(high, scene, seed));
  }

  lemma SubsetCardinality(a: set<Cell>, b: set<Cell>)
    requires a <= b
    ensures |a| <= |b|
  {
    assert b == a + (b - a);
  }

  /** A grass cell at distance 1 from the origin with a safe radius of 5: the large
      tier is skipped without consuming a draw, however the next draw would have
      rolled, and the medium and small tiers are still tried. */
  lemma SafeZoneExample(cfg: MapGeneratorConfig, noise: NoiseField, r: Rng)
    requires cfg.spawnSafeRadius == 5 && IsGrass(cfg, noise, 1, 0)
    ensures TryLarge(cfg, (1, 0), r) == (None, r)
    ensures var out := DecorationAt(cfg, noise, (1, 0), r);
      (out.0.Some? ==> out.0.value.tier != LargeTier) &&
      out == DecorationAt(cfg.(largeDecorations := None), noise, (1, 0), r)
  {
    assert Square(cfg.spawnSafeRadius) == 25 by { SquareIsProduct(cfg.spawnSafeRadius); }
    assert InSafeZone(cfg, (1, 0));
  }

  class ProceduralMapGenerator {
    const config: Option<MapGeneratorConfig>
    const scene: Scene

    var currentSeed: int
    var hasGenerated: bool

    var ground: Layer
    var decoration: Layer
    var collision: Layer

    var boundaryWallsObject: Option<seq<Wall>>
    var cameraBoundsObject: Option<seq<Vec2>>
    var CameraBoundsCollider: Option<seq<Vec2>>

    /** Unity's global random generator. */
    var rng: Rng

    /** A missing tilemap holds nothing, and the camera-bounds collider is the camera-bounds object's. */
    ghost predicate Valid()
      reads this
    {
      && (!scene.hasGroundTilemap ==> ground == map[])
      && (!scene.hasDecorationTilemap ==> decoration == map[])
      && (!scene.hasCollisionTilemap ==> collision == map[])
      && CameraBoundsCollider == cameraBoundsObject
    }

    /** A component as loaded with the scene; its tilemaps may already hold painted tiles. */
    constructor (config: Option<MapGeneratorConfig>, scene: Scene, ground: Layer, decoration: Layer, collision: Layer, rng: Rng)
      requires !scene.hasGroundTilemap ==> ground == map[]
      requires !scene.hasDecorationTilemap ==> decoration == map[]
      requires !scene.hasCollisionTilemap ==> collision == map[]
      ensures Valid()
      ensures this.config == config && this.scene == scene && this.rng == rng
      ensures this.ground == ground && this.decoration == decoration && this.collision == collision
      ensures !hasGenerated && currentSeed == 0
      ensures boundaryWallsObject == None && cameraBoundsObject == None
    {
      this.config := config;
      this.scene := scene;
      this.ground := ground;
      this.decoration := decoration;
      this.collision := collision;
      this.rng := rng;
      currentSeed := 0;
      hasGenerated := false;
      boundaryWallsObject := None;
      cameraBoundsObject := None;
      CameraBoundsCollider := None;
    }

    /** The component shows the map generated from `seed`. */
    ghost predicate ShowsGeneration(seed: int)
      reads this
    {
      && config.Some?
      && hasGenerated && currentSeed == seed
      && var gen := Generate(config.value, scene, seed);
      && ground == gen.ground && decoration == gen.decoration && collision == gen.collision
      && boundaryWallsObject == gen.boundaryWalls && cameraBoundsObject == gen.cameraBounds
      && rng == gen.rng
    }

    /** Without a configuration nothing happens (not even `hasGenerated`); otherwise
        every earlier tile and boundary object is discarded and the map is rebuilt
        from the seed alone. */
    method GenerateMap(seed: int)
      requires Valid()
      modifies this
      ensures Valid()
      ensures config.None? ==> unchanged(this)
      ensures config.Some? ==> ShowsGeneration(seed)
    {
      if config.None? {
        return;
      }
      hasGenerated := true;
      currentSeed := seed;
      rng := InitState(scene.seeding, seed);

      ClearAllTilemaps();
      ClearBoundaries();

      GenerateTerrain(seed);

      if scene.generateBoundaryWalls {
        GenerateBoundaryWalls();
      }
      if scene.generateCameraBounds {
        GenerateCameraBounds();
      }
    }

    /** The part of `GenerateMap` between clearing and the boundary objects: draw the
        noise offsets from the freshly seeded generator, then build the ground and the
        decorations on the cleared tilemaps. */
    method GenerateTerrain(ghost seed: int)
      requires Valid() && config.Some?
      requires rng == InitState(scene.seeding, seed)
      requires ground == map[] && decoration == map[] && collision == map[]
      modifies this`ground, this`decoration, this`collision, this`rng
      ensures Valid()
      ensures var gen := Generate(config.value, scene, seed);
        ground == gen.ground && decoration == gen.decoration && collision == gen.collision && rng == gen.rng
    ensures var cfg := config.value; var gen := Generate(cfg, scene, seed);
      && gen.boundaryWalls == (if scene.generateBoundaryWalls then Some(BoundaryWalls(cfg.mapWidth, cfg.mapHeight)) else None)
      && gen.cameraBounds == (if scene.generateCameraBounds then Some(CameraBoundsPath(cfg.mapWidth, cfg.mapHeight, scene.cameraBoundsPadding)) else None)
    {
      var noiseOffsetX, noiseOffsetY := DrawNoiseOffsets(seed);
      ghost var cfg := config.value;
      ghost var noise := NoiseAt(scene.perlin, cfg.noiseScale, noiseOffsetX, noiseOffsetY);
      ghost var r0 := rng;
      GenerateGroundLayer(noiseOffsetX, noiseOffsetY);
      ghost var r1 := rng;
      GenerateDecorations(noiseOffsetX, noiseOffsetY);
      GenerateFrom(cfg, scene, seed, noise, r0, ground, r1, decoration, collision, rng);
    }

    /** The two offsets of the noise field, drawn right after seeding the generator. */
    method DrawNoiseOffsets(ghost seed: int) returns (noiseOffsetX: real, noiseOffsetY: real)
      requires config.Some? && rng == InitState(scene.seeding, seed)
      modifies this`rng
      ensures 0.0 <= noiseOffsetX <= OffsetRange && 0.0 <= noiseOffsetY <= OffsetRange
      ensures (NoiseAt(scene.perlin, config.value.noiseScale, noiseOffsetX, noiseOffsetY), rng)
              == GenerationNoise(config.value, scene, seed)
    {
      var drawX := RangeFloat(rng, 0.0, OffsetRange);
      rng := drawX.1;
      var drawY := RangeFloat(rng, 0.0, OffsetRange);
      rng := drawY.1;
      noiseOffsetX, noiseOffsetY := drawX.0, drawY.0;
    }

    method ClearAllTilemaps()
      requires Valid()
      modifies this`ground, this`decoration, this`collision
      ensures Valid()
      ensures ground == map[] && decoration == map[] && collision == map[]
    {
      if scene.hasGroundTilemap { ground := map[]; }
      if scene.hasDecorationTilemap { decoration := map[]; }
      if scene.hasCollisionTilemap { collision := map[]; }
    }

    method ClearBoundaries()
      requires Valid()
      modifies this`boundaryWallsObject, this`cameraBoundsObject, this`CameraBoundsCollider
      ensures Valid()
      ensures boundaryWallsObject == None && cameraBoundsObject == None && CameraBoundsCollider == None
    {
      if boundaryWallsObject.Some? {
        boundaryWallsObject := None;
      }
      if cameraBoundsObject.Some? {
        cameraBoundsObject := None;
        CameraBoundsCollider := None;
      }
    }

    method GenerateBoundaryWalls()
      requires config.Some?
      requires Valid()
      modifies this`boundaryWallsObject
      ensures Valid()
      ensures boundaryWallsObject == Some(BoundaryWalls(config.value.mapWidth, config.value.mapHeight))
    {
      boundaryWallsObject := Some(BoundaryWalls(config.value.mapWidth, config.value.mapHeight));
    }

    method GenerateCameraBounds()
      requires config.Some?
      modifies this`cameraBoundsObject, this`CameraBoundsCollider
      requires Valid()
      ensures Valid()
      ensures cameraBoundsObject == Some(CameraBoundsPath(config.value.mapWidth, config.value.mapHeight, scene.cameraBoundsPadding))
      ensures CameraBoundsCollider == cameraBoundsObject
    {
      var path := CameraBoundsPath(config.value.mapWidth, config.value.mapHeight, scene.cameraBoundsPadding);
      cameraBoundsObject := Some(path);
      CameraBoundsCollider := Some(path);
    }

    /** The ground layer, then its edge tiles, one cell at a time in loop order. */
    method GenerateGroundLayer(noiseOffsetX: real, noiseOffsetY: real)
      requires Valid() && config.Some?
      modifies this`ground, this`rng
      ensures Valid()
      ensures var cfg := config.value;
        (ground, rng) == GroundLayer(cfg, scene, NoiseAt(scene.perlin, cfg.noiseScale, noiseOffsetX, noiseOffsetY),
                                     Half(cfg.mapWidth), Half(cfg.mapHeight), old(ground), old(rng))
    {
      if !scene.hasGroundTilemap {
        return;
      }
      var cfg := config.value;
      var noise := NoiseAt(scene.perlin, cfg.noiseScale, noiseOffsetX, noiseOffsetY);
      var halfWidth, halfHeight := Half(cfg.mapWidth), Half(cfg.mapHeight);

      var x := -halfWidth;
      while x < halfWidth
        invariant -halfWidth <= x <= Top(halfWidth)
        invariant (ground, rng) == GroundPass(cfg, noise, halfWidth, halfHeight, x, -halfHeight, old(ground), old(rng))
      {
        GroundColumn(cfg, noise, halfWidth, halfHeight, x, old(ground), old(rng));
        x := x + 1;
      }
      ApplyEdgeTiles(noiseOffsetX, noiseOffsetY);
    }

    /** The inner loop of `GenerateGroundLayer`: column x, from y = -hh up to hh,
        on the pass that started from `g0` and `r0`. */
    method GroundColumn(cfg: MapGeneratorConfig, noise: NoiseField, halfWidth: int, halfHeight: int, x: int,
                        ghost g0: Layer, ghost r0: Rng)
      requires -halfWidth <= x
      requires (ground, rng) == GroundPass(cfg, noise, halfWidth, halfHeight, x, -halfHeight, g0, r0)
      modifies this`ground, this`rng
      ensures (ground, rng) == GroundPass(cfg, noise, halfWidth, halfHeight, x + 1, -halfHeight, g0, r0)
    {
      var y := -halfHeight;
      while y < halfHeight
        invariant -halfHeight <= y <= Top(halfHeight)
        invariant (ground, rng) == GroundPass(cfg, noise, halfWidth, halfHeight, x, y, g0, r0)
      {
        GroundPassNext(cfg, noise, halfWidth, halfHeight, x, y, g0, r0);
        PlaceGroundTile(cfg, noise, x, y);
        y := y + 1;
      }
    }

    /** The loop body of `GenerateGroundLayer` for the cell (x, y). */
    method PlaceGroundTile(cfg: MapGeneratorConfig, noise: NoiseField, x: int, y: int)
      modifies this`ground, this`rng
      ensures (ground, rng) == GroundStep(cfg, noise, (old(ground), old(rng)), (x, y))
    {
      var noiseValue := noise(x, y);
      var tileToPlace: Option<Tile>;
      if noiseValue > cfg.grassThreshold {
        var useVariation := false;
        if cfg.groundVariationTiles.Some? && |cfg.groundVariationTiles.value| > 0 {
          var roll := Value(rng);
          rng := roll.1;
          useVariation := roll.0 < 0.1;
        }
        if useVariation {
          var pick := RangeInt(rng, 0, |cfg.groundVariationTiles.value|);
          rng := pick.1;
          tileToPlace := cfg.groundVariationTiles.value[pick.0];
        } else {
          tileToPlace := cfg.grassFillTile;
        }
      } else {
        tileToPlace := cfg.dirtFillTile;
      }
      if tileToPlace.Some? {
        ground := ground[(x, y) := tileToPlace.value];
      }
    }

    /** Overwrites grass cells with their auto-tile variant; needs all nine variants. */
    method ApplyEdgeTiles(noiseOffsetX: real, noiseOffsetY: real)
      requires Valid() && config.Some? && scene.hasGroundTilemap
      modifies this`ground
      ensures Valid()
      ensures var cfg := config.value;
        ground == if HasEdgeTiles(cfg)
                  then EdgePass(cfg, NoiseAt(scene.perlin, cfg.noiseScale, noiseOffsetX, noiseOffsetY),
                                Half(cfg.mapWidth), Half(cfg.mapHeight), Top(Half(cfg.mapWidth)), -Half(cfg.mapHeight), old(ground))
                  else old(ground)
    {
      var cfg := config.value;
      if cfg.grassEdgeTiles.None? || |cfg.grassEdgeTiles.value| < EdgeTileCount {
        return;
      }
      var noise := NoiseAt(scene.perlin, cfg.noiseScale, noiseOffsetX, noiseOffsetY);
      var halfWidth, halfHeight := Half(cfg.mapWidth), Half(cfg.mapHeight);

      var x := -halfWidth;
      while x < halfWidth
        invariant -halfWidth <= x <= Top(halfWidth)
        invariant ground == EdgePass(cfg, noise, halfWidth, halfHeight, x, -halfHeight, old(ground))
      {
        EdgeColumn(cfg, noise, halfWidth, halfHeight, x, old(ground));
        x := x + 1;
      }
    }

    /** The inner loop of `ApplyEdgeTiles`: column x, from y = -hh up to hh,
        on the pass that started from `g0`. */
    method EdgeColumn(cfg: MapGeneratorConfig, noise: NoiseField, halfWidth: int, halfHeight: int, x: int, ghost g0: Layer)
      requires HasEdgeTiles(cfg) && -halfWidth <= x
      requires ground == EdgePass(cfg, noise, halfWidth, halfHeight, x, -halfHeight, g0)
      modifies this`ground
      ensures ground == EdgePass(cfg, noise, halfWidth, halfHeight, x + 1, -halfHeight, g0)
    {
      var y := -halfHeight;
      while y < halfHeight
        invariant -halfHeight <= y <= Top(halfHeight)
        invariant ground == EdgePass(cfg, noise, halfWidth, halfHeight, x, y, g0)
      {
        PlaceEdgeTile(cfg, noise, x, y);
        y := y + 1;
      }
    }

    /** The loop body of `ApplyEdgeTiles` for the cell (x, y); the index is range-checked
        against the array and a null entry is skipped. */
    method PlaceEdgeTile(cfg: MapGeneratorConfig, noise: NoiseField, x: int, y: int)
      requires HasEdgeTiles(cfg)
      modifies this`ground
      ensures ground == Put(old(ground), (x, y), EdgeTileAt(cfg, noise, (x, y)))
    {
      var edgeTiles := cfg.grassEdgeTiles.value;
      var centerNoise := noise(x, y);
      if centerNoise <= cfg.grassThreshold {
        return;
      }
      var topGrass := noise(x, y + 1) > cfg.grassThreshold;
      var bottomGrass := noise(x, y - 1) > cfg.grassThreshold;
      var leftGrass := noise(x - 1, y) > cfg.grassThreshold;
      var rightGrass := noise(x + 1, y) > cfg.grassThreshold;
      var tileIndex := EdgeTiles.GetEdgeTileIndex(topGrass, bottomGrass, leftGrass, rightGrass);
      if 0 <= tileIndex < |edgeTiles| && edgeTiles[tileIndex].Some? {
        ground := ground[(x, y) := edgeTiles[tileIndex].value];
      }
    }

    /** One decoration roll per grass cell, large before medium before small. */
    method GenerateDecorations(noiseOffsetX: real, noiseOffsetY: real)
      requires Valid() && config.Some?
      modifies this`decoration, this`collision, this`rng
      ensures Valid()
      ensures var cfg := config.value;
        var d := DecorationLayers(cfg, scene, NoiseAt(scene.perlin, cfg.noiseScale, noiseOffsetX, noiseOffsetY),
                                  Half(cfg.mapWidth), Half(cfg.mapHeight), old(decoration), old(collision), old(rng));
        decoration == d.decoration && collision == d.collision && rng == d.rng
    {
      var cfg := config.value;
      if !scene.hasDecorationTilemap {
        return;
      }
      var noise := NoiseAt(scene.perlin, cfg.noiseScale, noiseOffsetX, noiseOffsetY);
      var halfWidth, halfHeight := Half(cfg.mapWidth), Half(cfg.mapHeight);
      var hasCollision := scene.hasCollisionTilemap;
      ghost var placed: map<Cell, Placement> := map[];

      var x := -halfWidth;
      while x < halfWidth
        invariant -halfWidth <= x <= Top(halfWidth)
        invariant DecorationPass(cfg, noise, hasCollision, halfWidth, halfHeight, x, -halfHeight,
                                 old(decoration), old(collision), old(rng))
                  == Decorated(decoration, collision, placed, rng)
      {
        placed := DecorateColumn(cfg, noise, halfWidth, halfHeight, x, old(decoration), old(collision), old(rng), placed);
        x := x + 1;
      }
      DecorationPassCollisions(cfg, noise, hasCollision, halfWidth, halfHeight, x, -halfHeight,
                               old(decoration), old(collision), old(rng));
    }

    /** The inner loop of `GenerateDecorations`: column x, from y = -hh up to hh. The
        pass is taken from the layers and the generator state `d0`, `c0`, `r0` that
        the outer loop started from. */
    method DecorateColumn(cfg: MapGeneratorConfig, noise: NoiseField, halfWidth: int, halfHeight: int, x: int,
                          ghost d0: Layer, ghost c0: Layer, ghost r0: Rng, ghost placed: map<Cell, Placement>)
      returns (ghost placed': map<Cell, Placement>)
      requires -halfWidth <= x
      requires DecorationPass(cfg, noise, scene.hasCollisionTilemap, halfWidth, halfHeight, x, -halfHeight, d0, c0, r0)
               == Decorated(decoration, collision, placed, rng)
      modifies this`decoration, this`collision, this`rng
      ensures DecorationPass(cfg, noise, scene.hasCollisionTilemap, halfWidth, halfHeight, x + 1, -halfHeight, d0, c0, r0)
              == Decorated(decoration, collision, placed', rng)
    {
      placed' := placed;
      var y := -halfHeight;
      while y < halfHeight
        invariant -halfHeight <= y <= Top(halfHeight)
        invariant DecorationPass(cfg, noise, scene.hasCollisionTilemap, halfWidth, halfHeight, x, y, d0, c0, r0)
                  == Decorated(decoration, collision, placed', rng)
      {
        DecorationPassNext(cfg, noise, scene.hasCollisionTilemap, halfWidth, halfHeight, x, y, d0, c0, r0);
        placed' := DecorateCell(cfg, noise, x, y, placed');
        y := y + 1;
      }
    }

    /** The loop body of `GenerateDecorations` for the cell (x, y). */
    method DecorateCell(cfg: MapGeneratorConfig, noise: NoiseField, x: int, y: int, ghost placed: map<Cell, Placement>)
      returns (ghost placed': map<Cell, Placement>)
      modifies this`decoration, this`collision, this`rng
      ensures Decorated(decoration, collision, placed', rng)
              == DecorationStep(cfg, noise, scene.hasCollisionTilemap,
                                Decorated(old(decoration), old(collision), placed, old(rng)), (x, y))
    {
      ghost var p := DecorationAt(cfg, noise, (x, y), rng).0;
      placed' := if p.Some? then placed[(x, y) := p.value] else placed;
      var inSafeZone := 0 < cfg.spawnSafeRadius && x * x + y * y < cfg.spawnSafeRadius * cfg.spawnSafeRadius;
      SquareIsProduct(x);
      SquareIsProduct(y);
      SquareIsProduct(cfg.spawnSafeRadius);
      var noiseValue := noise(x, y);
      if noiseValue <= cfg.grassThreshold {
        return;
      }
      // Large decoration, never in the safe zone; it also blocks movement.
      var largeDeco: Option<Tile> := None;
      if !inSafeZone {
        largeDeco := RollTier(cfg.largeDecorations, cfg.largeDecorationChance);
      }
      if largeDeco.Some? {
        decoration := decoration[(x, y) := largeDeco.value];
        if scene.hasCollisionTilemap {
          collision := collision[(x, y) := largeDeco.value];
        }
        return;
      }
      var medDeco := RollTier(cfg.mediumDecorations, cfg.mediumDecorationChance);
      if medDeco.Some? {
        decoration := decoration[(x, y) := medDeco.value];
        return;
      }
      var smallDeco := RollTier(cfg.smallDecorations, cfg.smallDecorationChance);
      if smallDeco.Some? {
        decoration := decoration[(x, y) := smallDeco.value];
      }
    }

    /** One tier's attempt: with tiles, roll `Random.value` against the chance and,
        below it, pick an entry with `Random.Range` (which may be null). */
    method RollTier(tiles: TileArray, chance: real) returns (tile: Option<Tile>)
      modifies this`rng
      ensures (tile, rng) == TryTier(tiles, chance, old(rng))
    {
      tile := None;
      if tiles.Some? && |tiles.value| > 0 {
        var roll := Value(rng);
        rng := roll.1;
        if roll.0 < chance {
          var pick := RangeInt(rng, 0, |tiles.value|);
          rng := pick.1;
          tile := tiles.value[pick.0];
        }
      }
    }

    /** A client generates from a replicated seed change only before its first
        generation and only for a non-zero seed (zero means "not set yet"). */
    method OnSeedChanged(previousValue: int, newValue: int)
      requires Valid()
      modifies this
      ensures Valid()
      ensures if !old(hasGenerated) && newValue != 0 && config.Some? then ShowsGeneration(newValue) else unchanged(this)
    {
      if !hasGenerated && newValue != 0 {
        GenerateMap(newValue);
      }
    }

    /** A client joining after the seed was set generates on spawn, under the same guard. */
    method OnNetworkSpawn(networkSeed: int)
      requires Valid()
      modifies this
      ensures Valid()
      ensures if !scene.isServer && networkSeed != 0 && !old(hasGenerated) && config.Some?
              then ShowsGeneration(networkSeed) else unchanged(this)
    {
      if !scene.isServer && networkSeed != 0 && !hasGenerated {
        GenerateMap(networkSeed);
      }
    }
  }
}
