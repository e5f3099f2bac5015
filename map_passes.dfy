/** The three grid passes of the procedural map generator, as specifications.

    Each pass is written as a recursion on the indices of the generator's
    nested loops `for x in [-hw, hw) for y in [-hh, hh)`: the state when the
    loops are about to visit (x, y) is the previous cell's visit applied to
    the state before it. The generator's loops are proved to compute exactly
    these states. */
module MapPasses {
  import opened Wrappers
  import opened MapConfig
  import opened MapGrid
  import opened UnityRandom
  import opened EdgeTiles

  /** The noise value at each integer cell, for the offsets drawn by one generation. */
  type NoiseField = (int, int) -> real

  /** `GetNoiseAt`: Perlin noise sampled at ((x + ox) * scale, (y + oy) * scale).
      `perlin` stands for `Mathf.PerlinNoise`. */
  function NoiseAt(perlin: (real, real) -> real, scale: real, ox: real, oy: real): NoiseField
  {
    (x: int, y: int) => perlin(NoiseCoord(x, ox, scale), NoiseCoord(y, oy, scale))
  }

  /** The noise coordinate of a cell index: (i + offset) * scale. */
  function NoiseCoord(i: int, offset: real, scale: real): real
  {
    (i as real + offset) * scale
  }

  /** Moving the noise offsets by whole cells moves the sampled field by as many cells:
      the seed's offsets only choose which window of the noise the grid sees. */
  lemma NoiseOffsetShift(perlin: (real, real) -> real, scale: real, ox: real, oy: real, dx: int, dy: int, x: int, y: int)
    ensures NoiseAt(perlin, scale, ox + dx as real, oy + dy as real)(x, y) == NoiseAt(perlin, scale, ox, oy)(x + dx, y + dy)
  {
    assert NoiseCoord(x, ox + dx as real, scale) == NoiseCoord(x + dx, ox, scale);
    assert NoiseCoord(y, oy + dy as real, scale) == NoiseCoord(y + dy, oy, scale);
  }

  /** A cell is grass when its noise value is strictly above the threshold. */
  predicate IsGrass(cfg: MapGeneratorConfig, noise: NoiseField, x: int, y: int)
  {
    noise(x, y) > cfg.grassThreshold
  }

  /** `SetTile` is only called with a non-null tile. */
  function Put(layer: Layer, c: Cell, t: Option<Tile>): (l: Layer)
    ensures t.None? ==> l == layer
    ensures t.Some? ==> l == layer[c := t.value]
  {
    if t.Some? then layer[c := t.value] else layer
  }

  // ---------------------------------------------------------------- ground pass

  /** What the ground pass may leave at a cell: the dirt tile on dirt; on grass
      the grass fill tile or one of the variation tiles, and only the fill tile
      when there are no variation tiles. */
  predicate GroundTileOk(cfg: MapGeneratorConfig, noise: NoiseField, c: Cell, t: Tile)
  {
    if IsGrass(cfg, noise, c.0, c.1) then
      (Some(t) == cfg.grassFillTile || InTileArray(t, cfg.groundVariationTiles)) &&
      (!HasTiles(cfg.groundVariationTiles) ==> Some(t) == cfg.grassFillTile)
    else
      Some(t) == cfg.dirtFillTile
  }

  /** The tile chosen for one cell of the ground pass (null means none is set).
      A grass cell rolls for a variation tile (10% chance) only when variation tiles exist. */
  function GroundTileAt(cfg: MapGeneratorConfig, noise: NoiseField, c: Cell, r: Rng): (out: (Option<Tile>, Rng))
    ensures out.0.Some? ==> GroundTileOk(cfg, noise, c, out.0.value)
    ensures !IsGrass(cfg, noise, c.0, c.1) ==> out == (cfg.dirtFillTile, r)
    ensures IsGrass(cfg, noise, c.0, c.1) && !HasTiles(cfg.groundVariationTiles) ==> out == (cfg.grassFillTile, r)
    ensures out.1.stream == r.stream && r.pos <= out.1.pos <= r.pos + 2
  {
    if IsGrass(cfg, noise, c.0, c.1) then
      if HasTiles(cfg.groundVariationTiles) then
        var (v, r1) := Value(r);
        if v < 0.1 then
          var tiles := cfg.groundVariationTiles.value;
          var (i, r2) := RangeInt(r1, 0, |tiles|);
          assert tiles[i] in tiles;
          (tiles[i], r2)
        else
          (cfg.grassFillTile, r1)
      else
        (cfg.grassFillTile, r)
    else
      (cfg.dirtFillTile, r)
  }

  /** One visit of the ground loop: the tile chosen for `c` put on the layer. */
  function GroundStep(cfg: MapGeneratorConfig, noise: NoiseField, s: (Layer, Rng), c: Cell): (Layer, Rng)
  {
    var (t, r') := GroundTileAt(cfg, noise, c, s.1);
    (Put(s.0, c, t), r')
  }

  /** A visit either leaves the layer alone or writes an allowed tile at `c`;
      dirt, and grass without variation tiles, get their fill tile. */
  lemma GroundStepEffect(cfg: MapGeneratorConfig, noise: NoiseField, s: (Layer, Rng), c: Cell)
    ensures var out := GroundStep(cfg, noise, s, c);
      out.0 == s.0 || (c in out.0 && GroundTileOk(cfg, noise, c, out.0[c]) && out.0 == s.0[c := out.0[c]])
    ensures var out := GroundStep(cfg, noise, s, c);
      !IsGrass(cfg, noise, c.0, c.1) && cfg.dirtFillTile.Some? ==> out.0 == s.0[c := cfg.dirtFillTile.value]
    ensures var out := GroundStep(cfg, noise, s, c);
      IsGrass(cfg, noise, c.0, c.1) && !HasTiles(cfg.groundVariationTiles) && cfg.grassFillTile.Some? ==>
        out.0 == s.0[c := cfg.grassFillTile.value]
    ensures var out := GroundStep(cfg, noise, s, c);
      out.1.stream == s.1.stream && s.1.pos <= out.1.pos
  {
  }

  /** The ground layer and the generator state when the loops are about to visit
      (x, y), starting from `layer` and `r`: the previous cell's visit applied to
      the state before it, a finished column handing over to the next one. */
  function GroundPass(cfg: MapGeneratorConfig, noise: NoiseField, hw: int, hh: int, x: int, y: int,
                      layer: Layer, r: Rng): (Layer, Rng)
    requires -hw <= x && -hh <= y
    decreases x + hw, y + hh
  {
    if y > -hh then GroundStep(cfg, noise, GroundPass(cfg, noise, hw, hh, x, y - 1, layer, r), (x, y - 1))
    else if x > -hw then GroundPass(cfg, noise, hw, hh, x - 1, Top(hh), layer, r)
    else (layer, r)
  }

  /** One more cell of the ground pass is one more ground step. */
  lemma GroundPassNext(cfg: MapGeneratorConfig, noise: NoiseField, hw: int, hh: int, x: int, y: int, layer: Layer, r: Rng)
    requires -hw <= x && -hh <= y
    ensures GroundPass(cfg, noise, hw, hh, x, y + 1, layer, r)
            == GroundStep(cfg, noise, GroundPass(cfg, noise, hw, hh, x, y, layer, r), (x, y))
  {
  }

  /** What the ground pass writes: cells it has not visited keep what they held;
      every cell it writes holds a tile allowed for it; nothing is erased, and
      the generator only moves forward. */
  lemma {:induction false} GroundPassFrame(cfg: MapGeneratorConfig, noise: NoiseField, hw: int, hh: int, x: int, y: int,
                                           layer: Layer, r: Rng)
    requires -hw <= x && -hh <= y
    ensures var out := GroundPass(cfg, noise, hw, hh, x, y, layer, r);
      forall c :: c in out.0 ==>
        (c in layer && out.0[c] == layer[c]) || (VisitedBefore(c, hw, hh, x, y) && GroundTileOk(cfg, noise, c, out.0[c]))
    ensures var out := GroundPass(cfg, noise, hw, hh, x, y, layer, r);
      forall c :: c in out.0 && !VisitedBefore(c, hw, hh, x, y) ==> c in layer && out.0[c] == layer[c]
    ensures var out := GroundPass(cfg, noise, hw, hh, x, y, layer, r);
      forall c :: c in layer ==> c in out.0
    ensures var out := GroundPass(cfg, noise, hw, hh, x, y, layer, r);
      out.1.stream == r.stream && r.pos <= out.1.pos
    decreases x + hw, y + hh
  {
    if y > -hh {
      GroundPassFrame(cfg, noise, hw, hh, x, y - 1, layer, r);
      GroundStepEffect(cfg, noise, GroundPass(cfg, noise, hw, hh, x, y - 1, layer, r), (x, y - 1));
    } else if x > -hw {
      GroundPassFrame(cfg, noise, hw, hh, x - 1, Top(hh), layer, r);
    }
  }

  /** Every visited dirt cell ends up with the dirt tile, when there is one. */
  lemma {:induction false} GroundPassDirt(cfg: MapGeneratorConfig, noise: NoiseField, hw: int, hh: int, x: int, y: int,
                                          layer: Layer, r: Rng)
    requires -hw <= x && -hh <= y
    ensures var out := GroundPass(cfg, noise, hw, hh, x, y, layer, r);
      forall c :: VisitedBefore(c, hw, hh, x, y) && !IsGrass(cfg, noise, c.0, c.1) && cfg.dirtFillTile.Some? ==>
        c in out.0 && out.0[c] == cfg.dirtFillTile.value
    decreases x + hw, y + hh
  {
    if y > -hh {
      GroundPassDirt(cfg, noise, hw, hh, x, y - 1, layer, r);
      GroundStepEffect(cfg, noise, GroundPass(cfg, noise, hw, hh, x, y - 1, layer, r), (x, y - 1));
    } else if x > -hw {
      GroundPassDirt(cfg, noise, hw, hh, x - 1, Top(hh), layer, r);
    }
  }

  /** Without variation tiles, every visited grass cell ends up with the grass
      fill tile, when there is one. */
  lemma {:induction false} GroundPassGrass(cfg: MapGeneratorConfig, noise: NoiseField, hw: int, hh: int, x: int, y: int,
                                           layer: Layer, r: Rng)
    requires -hw <= x && -hh <= y
    ensures var out := GroundPass(cfg, noise, hw, hh, x, y, layer, r);
      forall c ::
        (VisitedBefore(c, hw, hh, x, y) && IsGrass(cfg, noise, c.0, c.1) && !HasTiles(cfg.groundVariationTiles) && cfg.grassFillTile.Some?) ==>
        c in out.0 && out.0[c] == cfg.grassFillTile.value
    decreases x + hw, y + hh
  {
    if y > -hh {
      GroundPassGrass(cfg, noise, hw, hh, x, y - 1, layer, r);
      GroundStepEffect(cfg, noise, GroundPass(cfg, noise, hw, hh, x, y - 1, layer, r), (x, y - 1));
    } else if x > -hw {
      GroundPassGrass(cfg, noise, hw, hh, x - 1, Top(hh), layer, r);
    }
  }

  // ------------------------------------------------------------------ edge pass

  /** The 3x3 auto-tile index of a cell, from the grass/dirt state of its four
      neighbours; neighbours outside the grid are read from the noise as well. */
  function NeighbourIndex(cfg: MapGeneratorConfig, noise: NoiseField, c: Cell): int
  {
    GetEdgeTileIndex(
      IsGrass(cfg, noise, c.0, c.1 + 1), IsGrass(cfg, noise, c.0, c.1 - 1),
      IsGrass(cfg, noise, c.0 - 1, c.1), IsGrass(cfg, noise, c.0 + 1, c.1))
  }

  /** The edge tile the edge pass writes at a cell, if any: only on grass cells,
      only with a full auto-tile set, and only when the chosen entry is not null. */
  function EdgeTileAt(cfg: MapGeneratorConfig, noise: NoiseField, c: Cell): (t: Option<Tile>)
    ensures t.Some? ==> IsGrass(cfg, noise, c.0, c.1) && HasEdgeTiles(cfg)
    ensures t.Some? ==> InTileArray(t.value, cfg.grassEdgeTiles)
    ensures HasEdgeTiles(cfg) && IsGrass(cfg, noise, c.0, c.1) ==>
      t == cfg.grassEdgeTiles.value[NeighbourIndex(cfg, noise, c)]
  {
    if HasEdgeTiles(cfg) && IsGrass(cfg, noise, c.0, c.1) then
      var i := NeighbourIndex(cfg, noise, c);
      assert cfg.grassEdgeTiles.value[i] in cfg.grassEdgeTiles.value;
      cfg.grassEdgeTiles.value[i]
    else
      None
  }

  /** The ground layer after the edge pass, when its loops are about to visit (x, y). */
  function EdgePass(cfg: MapGeneratorConfig, noise: NoiseField, hw: int, hh: int, x: int, y: int, layer: Layer): Layer
    requires -hw <= x && -hh <= y
    decreases x + hw, y + hh
  {
    if y > -hh then
      Put(EdgePass(cfg, noise, hw, hh, x, y - 1, layer), (x, y - 1), EdgeTileAt(cfg, noise, (x, y - 1)))
    else if x > -hw then EdgePass(cfg, noise, hw, hh, x - 1, Top(hh), layer)
    else layer
  }

  /** Which cells the edge pass fills: a visited cell whose edge tile is not
      null, and every cell that was already set. */
  lemma {:induction false} EdgePassDomain(cfg: MapGeneratorConfig, noise: NoiseField, hw: int, hh: int, x: int, y: int,
                                          layer: Layer)
    requires -hw <= x && -hh <= y
    ensures var out := EdgePass(cfg, noise, hw, hh, x, y, layer);
      forall c :: c in out <==> c in layer || (VisitedBefore(c, hw, hh, x, y) && EdgeTileAt(cfg, noise, c).Some?)
    decreases x + hw, y + hh
  {
    if y > -hh {
      EdgePassDomain(cfg, noise, hw, hh, x, y - 1, layer);
    } else if x > -hw {
      EdgePassDomain(cfg, noise, hw, hh, x - 1, Top(hh), layer);
    }
  }

  /** What the edge pass leaves at a cell: its edge tile when the cell was
      visited and that tile is not null, otherwise what the cell held before. */
  lemma {:induction false} EdgePassValues(cfg: MapGeneratorConfig, noise: NoiseField, hw: int, hh: int, x: int, y: int,
                                          layer: Layer)
    requires -hw <= x && -hh <= y
    ensures var out := EdgePass(cfg, noise, hw, hh, x, y, layer);
      forall c :: c in out ==>
        if VisitedBefore(c, hw, hh, x, y) && EdgeTileAt(cfg, noise, c).Some? then out[c] == EdgeTileAt(cfg, noise, c).value
        else c in layer && out[c] == layer[c]
    decreases x + hw, y + hh
  {
    if y > -hh {
      EdgePassValues(cfg, noise, hw, hh, x, y - 1, layer);
    } else if x > -hw {
      EdgePassValues(cfg, noise, hw, hh, x - 1, Top(hh), layer);
    }
  }

  /** The edge pass never changes a dirt cell, nor a cell it has not visited. */
  lemma EdgePassKeepsDirt(cfg: MapGeneratorConfig, noise: NoiseField, hw: int, hh: int, x: int, y: int, layer: Layer, c: Cell)
    requires -hw <= x && -hh <= y
    requires !IsGrass(cfg, noise, c.0, c.1) || !VisitedBefore(c, hw, hh, x, y)
    ensures c in EdgePass(cfg, noise, hw, hh, x, y, layer) <==> c in layer
    ensures c in layer ==> EdgePass(cfg, noise, hw, hh, x, y, layer)[c] == layer[c]
  {
    EdgePassDomain(cfg, noise, hw, hh, x, y, layer);
    EdgePassValues(cfg, noise, hw, hh, x, y, layer);
  }

  // ------------------------------------------------------------ decoration pass

  datatype Tier = LargeTier | MediumTier | SmallTier

  /** A decoration placed at a cell: its tier and its tile. */
  datatype Placement = Placement(tier: Tier, tile: Tile)

  /** `distance < spawnSafeRadius`, with the distance from the origin compared
      through its square (the radius is an integer, and a distance is never negative). */
  predicate InSafeZone(cfg: MapGeneratorConfig, c: Cell)
  {
    0 < cfg.spawnSafeRadius && Square(c.0) + Square(c.1) < Square(cfg.spawnSafeRadius)
  }

  /** One tier's attempt: when the tier has tiles, roll against its chance and,
      on success, pick one of its tiles uniformly (which may be null). */
  function TryTier(tiles: TileArray, chance: real, r: Rng): (out: (Option<Tile>, Rng))
    ensures out.0.Some? ==> InTileArray(out.0.value, tiles)
    ensures !HasTiles(tiles) ==> out == (None, r)
    ensures HasTiles(tiles) ==> out.1.stream == r.stream && r.pos + 1 <= out.1.pos <= r.pos + 2
    ensures HasTiles(tiles) && Value(r).0 >= chance ==> out == (None, Next(r))
  {
    if !HasTiles(tiles) then (None, r)
    else
      var (v, r1) := Value(r);
      if v < chance then
        var (i, r2) := RangeInt(r1, 0, |tiles.value|);
        assert tiles.value[i] in tiles.value;
        (tiles.value[i], r2)
      else
        (None, r1)
  }

  /** What a placement at a cell may be: only on grass; a large decoration is
      never in the spawn safe zone; the tile comes from its tier's set. */
  predicate PlacementOk(cfg: MapGeneratorConfig, noise: NoiseField, c: Cell, p: Placement)
  {
    && IsGrass(cfg, noise, c.0, c.1)
    && match p.tier
       case LargeTier => !InSafeZone(cfg, c) && InTileArray(p.tile, cfg.largeDecorations)
       case MediumTier => InTileArray(p.tile, cfg.mediumDecorations)
       case SmallTier => InTileArray(p.tile, cfg.smallDecorations)
  }

  /** The large tier's attempt at a cell (skipped inside the safe zone). */
  function TryLarge(cfg: MapGeneratorConfig, c: Cell, r: Rng): (Option<Tile>, Rng)
  {
    if InSafeZone(cfg, c) then (None, r) else TryTier(cfg.largeDecorations, cfg.largeDecorationChance, r)
  }

  /** The decoration of one cell: nothing on dirt; otherwise the tiers are tried
      large, medium, small, and the first that yields a non-null tile places it. */
  function DecorationAt(cfg: MapGeneratorConfig, noise: NoiseField, c: Cell, r: Rng): (out: (Option<Placement>, Rng))
    ensures out.0.Some? ==> PlacementOk(cfg, noise, c, out.0.value)
    ensures !IsGrass(cfg, noise, c.0, c.1) ==> out == (None, r)
    ensures out.1.stream == r.stream && r.pos <= out.1.pos
  {
    if !IsGrass(cfg, noise, c.0, c.1) then (None, r)
    else
      var (large, r1) := TryLarge(cfg, c, r);
      if large.Some? then (Some(Placement(LargeTier, large.value)), r1)
      else
        var (medium, r2) := TryTier(cfg.mediumDecorations, cfg.mediumDecorationChance, r1);
        if medium.Some? then (Some(Placement(MediumTier, medium.value)), r2)
        else
          var (small, r3) := TryTier(cfg.smallDecorations, cfg.smallDecorationChance, r2);
          if small.Some? then (Some(Placement(SmallTier, small.value)), r3)
          else (None, r3)
  }

  /** Priority of the tiers: a lower tier is tried only when every higher tier
      placed nothing, and then it is tried on the draws the higher tiers left. */
  lemma DecorationPriority(cfg: MapGeneratorConfig, noise: NoiseField, c: Cell, r: Rng)
    requires IsGrass(cfg, noise, c.0, c.1)
    ensures var (large, r1) := TryLarge(cfg, c, r);
      large.Some? ==> DecorationAt(cfg, noise, c, r).0 == Some(Placement(LargeTier, large.value))
    ensures var (large, r1) := TryLarge(cfg, c, r);
      var (medium, r2) := TryTier(cfg.mediumDecorations, cfg.mediumDecorationChance, r1);
      large.None? && medium.Some? ==> DecorationAt(cfg, noise, c, r).0 == Some(Placement(MediumTier, medium.value))
    ensures var (large, r1) := TryLarge(cfg, c, r);
      var (medium, r2) := TryTier(cfg.mediumDecorations, cfg.mediumDecorationChance, r1);
      DecorationAt(cfg, noise, c, r).0 == (if large.Some? || medium.Some? then DecorationAt(cfg, noise, c, r).0
        else (var (small, r3) := TryTier(cfg.smallDecorations, cfg.smallDecorationChance, r2);
              if small.Some? then Some(Placement(SmallTier, small.value)) else None))
  {
  }

  /** The state of the decoration pass: the decoration and collision layers,
      the placements made so far, and the random generator. */
  datatype Decorated = Decorated(decoration: Layer, collision: Layer, placed: map<Cell, Placement>, rng: Rng)

  /** One visit of the decoration loop: the placement at `c`, if any, written to
      the decoration layer and, for a large one, to an existing collision layer. */
  function DecorationStep(cfg: MapGeneratorConfig, noise: NoiseField, hasCollision: bool, s: Decorated, c: Cell): Decorated
  {
    var (p, r') := DecorationAt(cfg, noise, c, s.rng);
    if p.None? then s.(rng := r')
    else
      var coll := if hasCollision && p.value.tier == LargeTier then s.collision[c := p.value.tile] else s.collision;
      Decorated(s.decoration[c := p.value.tile], coll, s.placed[c := p.value], r')
  }

  /** A visit either changes no layer, or records one allowed placement at `c` and writes its tile. */
  lemma DecorationStepEffect(cfg: MapGeneratorConfig, noise: NoiseField, hasCollision: bool, s: Decorated, c: Cell)
    ensures var out := DecorationStep(cfg, noise, hasCollision, s, c);
      || (out.placed == s.placed && out.decoration == s.decoration && out.collision == s.collision)
      || (&& c in out.placed && PlacementOk(cfg, noise, c, out.placed[c])
          && out.placed == s.placed[c := out.placed[c]]
          && out.decoration == s.decoration[c := out.placed[c].tile]
          && out.collision == if hasCollision && out.placed[c].tier == LargeTier then s.collision[c := out.placed[c].tile]
                              else s.collision)
    ensures var out := DecorationStep(cfg, noise, hasCollision, s, c);
      out.rng.stream == s.rng.stream && s.rng.pos <= out.rng.pos
  {
  }

  /** The decoration state when the loops are about to visit (x, y), starting from
      the given layers; the collision layer is only written when it exists. */
  function DecorationPass(cfg: MapGeneratorConfig, noise: NoiseField, hasCollision: bool, hw: int, hh: int, x: int, y: int,
                          decoration: Layer, collision: Layer, r: Rng): Decorated
    requires -hw <= x && -hh <= y
    decreases x + hw, y + hh
  {
    if y > -hh then
      DecorationStep(cfg, noise, hasCollision, DecorationPass(cfg, noise, hasCollision, hw, hh, x, y - 1, decoration, collision, r), (x, y - 1))
    else if x > -hw then DecorationPass(cfg, noise, hasCollision, hw, hh, x - 1, Top(hh), decoration, collision, r)
    else Decorated(decoration, collision, map[], r)
  }

  /** The loops' next visit: the pass at (x, y + 1) is one more step on the pass at (x, y). */
  lemma DecorationPassNext(cfg: MapGeneratorConfig, noise: NoiseField, hasCollision: bool, hw: int, hh: int, x: int, y: int,
                           decoration: Layer, collision: Layer, r: Rng)
    requires -hw <= x && -hh <= y
    ensures DecorationPass(cfg, noise, hasCollision, hw, hh, x, y + 1, decoration, collision, r)
            == DecorationStep(cfg, noise, hasCollision, DecorationPass(cfg, noise, hasCollision, hw, hh, x, y, decoration, collision, r), (x, y))
  {
  }

  /** What the decoration pass places: every placement is at a visited cell and is
      allowed there, and shows in the decoration layer; every other cell of that
      layer keeps what it held, and the generator only moves forward. */
  lemma {:induction false} DecorationPassPlacements(cfg: MapGeneratorConfig, noise: NoiseField, hasCollision: bool,
                                                    hw: int, hh: int, x: int, y: int,
                                                    decoration: Layer, collision: Layer, r: Rng)
    requires -hw <= x && -hh <= y
    ensures var out := DecorationPass(cfg, noise, hasCollision, hw, hh, x, y, decoration, collision, r);
      forall c :: c in out.placed ==> VisitedBefore(c, hw, hh, x, y) && PlacementOk(cfg, noise, c, out.placed[c])
    ensures var out := DecorationPass(cfg, noise, hasCollision, hw, hh, x, y, decoration, collision, r);
      forall c :: c in out.placed ==> c in out.decoration && out.decoration[c] == out.placed[c].tile
    ensures var out := DecorationPass(cfg, noise, hasCollision, hw, hh, x, y, decoration, collision, r);
      forall c :: c in out.decoration && c !in out.placed ==> c in decoration && out.decoration[c] == decoration[c]
    ensures var out := DecorationPass(cfg, noise, hasCollision, hw, hh, x, y, decoration, collision, r);
      forall c :: c in decoration ==> c in out.decoration
    ensures var out := DecorationPass(cfg, noise, hasCollision, hw, hh, x, y, decoration, collision, r);
      out.rng.stream == r.stream && r.pos <= out.rng.pos
    decreases x + hw, y + hh
  {
    if y > -hh {
      DecorationPassPlacements(cfg, noise, hasCollision, hw, hh, x, y - 1, decoration, collision, r);
      var s := DecorationPass(cfg, noise, hasCollision, hw, hh, x, y - 1, decoration, collision, r);
      DecorationStepEffect(cfg, noise, hasCollision, s, (x, y - 1));
      assert (x, y - 1) !in s.placed;
    } else if x > -hw {
      DecorationPassPlacements(cfg, noise, hasCollision, hw, hh, x - 1, Top(hh), decoration, collision, r);
    }
  }

  /** Every large placement of a decoration state shows in its collision layer, with its tile. */
  predicate LargeCollide(s: Decorated)
  {
    forall c :: c in s.placed && s.placed[c].tier == LargeTier ==> c in s.collision && s.collision[c] == s.placed[c].tile
  }

  /** With a collision tilemap, every large placement of the decoration pass
      also shows in the collision layer, with the same tile. */
  lemma {:induction false} DecorationPassLargeCollide(cfg: MapGeneratorConfig, noise: NoiseField, hasCollision: bool,
                                                      hw: int, hh: int, x: int, y: int,
                                                      decoration: Layer, collision: Layer, r: Rng)
    requires -hw <= x && -hh <= y
    ensures hasCollision ==> LargeCollide(DecorationPass(cfg, noise, hasCollision, hw, hh, x, y, decoration, collision, r))
    decreases x + hw, y + hh
  {
    if y > -hh {
      DecorationPassLargeCollide(cfg, noise, hasCollision, hw, hh, x, y - 1, decoration, collision, r);
      var s := DecorationPass(cfg, noise, hasCollision, hw, hh, x, y - 1, decoration, collision, r);
      DecorationStepEffect(cfg, noise, hasCollision, s, (x, y - 1));
    } else if x > -hw {
      DecorationPassLargeCollide(cfg, noise, hasCollision, hw, hh, x - 1, Top(hh), decoration, collision, r);
    }
  }

  /** The rest of the collision layer: a cell that is not a large placement
      keeps what it held, nothing is erased, and without a collision tilemap
      the layer is left alone. */
  lemma {:induction false} DecorationPassCollisions(cfg: MapGeneratorConfig, noise: NoiseField, hasCollision: bool,
                                                    hw: int, hh: int, x: int, y: int,
                                                    decoration: Layer, collision: Layer, r: Rng)
    requires -hw <= x && -hh <= y
    ensures var out := DecorationPass(cfg, noise, hasCollision, hw, hh, x, y, decoration, collision, r);
      forall c :: c in out.collision && !(c in out.placed && out.placed[c].tier == LargeTier) ==>
        c in collision && out.collision[c] == collision[c]
    ensures var out := DecorationPass(cfg, noise, hasCollision, hw, hh, x, y, decoration, collision, r);
      forall c :: c in collision ==> c in out.collision
    ensures !hasCollision ==> DecorationPass(cfg, noise, hasCollision, hw, hh, x, y, decoration, collision, r).collision == collision
    decreases x + hw, y + hh
  {
    if y > -hh {
      DecorationPassCollisions(cfg, noise, hasCollision, hw, hh, x, y - 1, decoration, collision, r);
      DecorationPassPlacements(cfg, noise, hasCollision, hw, hh, x, y - 1, decoration, collision, r);
      var s := DecorationPass(cfg, noise, hasCollision, hw, hh, x, y - 1, decoration, collision, r);
      DecorationStepEffect(cfg, noise, hasCollision, s, (x, y - 1));
      assert (x, y - 1) !in s.placed;
    } else if x > -hw {
      DecorationPassCollisions(cfg, noise, hasCollision, hw, hh, x - 1, Top(hh), decoration, collision, r);
    }
  }
}
