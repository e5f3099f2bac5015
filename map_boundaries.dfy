/** Boundary geometry of the generated map: four solid walls just outside the
    map's edges and a padded rectangle for the camera confiner. Coordinates are
    world units, one tile per unit, with the map centred on the origin. */
module MapBoundaries {

  datatype Vec2 = Vec2(x: real, y: real)

  /** The game-object names the four walls are created with. */
  datatype WallName = TopWall | BottomWall | LeftWall | RightWall

  /** A named box collider: its centre and its full size. */
  datatype Wall = Wall(name: WallName, position: Vec2, size: Vec2)

  const WallThickness: real := 1.0

  /** The four walls, in creation order: top, bottom, left, right. */
  function BoundaryWalls(mapWidth: int, mapHeight: int): (walls: seq<Wall>)
    ensures |walls| == 4
  {
    var halfWidth := mapWidth as real / 2.0;
    var halfHeight := mapHeight as real / 2.0;
    [ Wall(TopWall, Vec2(0.0, halfHeight + WallThickness / 2.0), Vec2((mapWidth + 2) as real, WallThickness)),
      Wall(BottomWall, Vec2(0.0, -halfHeight - WallThickness / 2.0), Vec2((mapWidth + 2) as real, WallThickness)),
      Wall(LeftWall, Vec2(-halfWidth - WallThickness / 2.0, 0.0), Vec2(WallThickness, (mapHeight + 2) as real)),
      Wall(RightWall, Vec2(halfWidth + WallThickness / 2.0, 0.0), Vec2(WallThickness, (mapHeight + 2) as real)) ]
  }

  /** The point lies in the (closed) box of the wall. */
  predicate Contains(w: Wall, p: Vec2)
  {
    && w.position.x - w.size.x / 2.0 <= p.x <= w.position.x + w.size.x / 2.0
    && w.position.y - w.size.y / 2.0 <= p.y <= w.position.y + w.size.y / 2.0
  }

  /** The walls are one unit thick; top and bottom mirror each other about the
      x axis and span the width plus two, left and right mirror each other about
      the y axis and span the height plus two; their inner faces lie exactly on
      the map's edges at +-h/2 and +-w/2. */
  lemma WallGeometry(w: int, h: int)
    ensures var walls := BoundaryWalls(w, h);
      && walls[0].size == walls[1].size == Vec2((w + 2) as real, 1.0)
      && walls[2].size == walls[3].size == Vec2(1.0, (h + 2) as real)
      && walls[1].position == Vec2(walls[0].position.x, -walls[0].position.y)
      && walls[3].position == Vec2(-walls[2].position.x, walls[2].position.y)
      && walls[0].position.y - walls[0].size.y / 2.0 == h as real / 2.0
      && walls[1].position.y + walls[1].size.y / 2.0 == -(h as real / 2.0)
      && walls[2].position.x + walls[2].size.x / 2.0 == -(w as real / 2.0)
      && walls[3].position.x - walls[3].size.x / 2.0 == w as real / 2.0
  {
  }

  /** The walls close the map: every point of the one-unit ring around the map
      (inside the outer rectangle, outside the open map area) lies in some wall. */
  lemma WallsEncloseMap(w: int, h: int, p: Vec2)
    requires w >= 0 && h >= 0
    requires -(w as real) / 2.0 - 1.0 <= p.x <= w as real / 2.0 + 1.0
    requires -(h as real) / 2.0 - 1.0 <= p.y <= h as real / 2.0 + 1.0
    requires !(-(w as real) / 2.0 < p.x < w as real / 2.0 && -(h as real) / 2.0 < p.y < h as real / 2.0)
    ensures exists i :: 0 <= i < 4 && Contains(BoundaryWalls(w, h)[i], p)
  {
    var walls := BoundaryWalls(w, h);
    if p.y >= h as real / 2.0 {
      assert Contains(walls[0], p);
    } else if p.y <= -(h as real) / 2.0 {
      assert Contains(walls[1], p);
    } else if p.x <= -(w as real) / 2.0 {
      assert Contains(walls[2], p);
    } else {
      assert Contains(walls[3], p);
    }
  }

  /** The camera-bounds polygon: the map rectangle shrunk by `padding` on every
      side, listed bottom-left, top-left, top-right, bottom-right. */
  function CameraBoundsPath(mapWidth: int, mapHeight: int, padding: real): (path: seq<Vec2>)
    ensures |path| == 4
  {
    var halfWidth := mapWidth as real / 2.0 - padding;
    var halfHeight := mapHeight as real / 2.0 - padding;
    [Vec2(-halfWidth, -halfHeight), Vec2(-halfWidth, halfHeight), Vec2(halfWidth, halfHeight), Vec2(halfWidth, -halfHeight)]
  }

  /** The polygon is a rectangle centred on the origin with corners
      (+-(w/2 - p), +-(h/2 - p)): consecutive corners share an x or a y, opposite
      corners are mirror images through the origin, and with a padding between
      0 and half the map's smaller side every corner lies within the map. */
  lemma CameraBoundsRectangle(w: int, h: int, padding: real)
    ensures var path := CameraBoundsPath(w, h, padding);
      && path[0].x == path[1].x && path[1].y == path[2].y && path[2].x == path[3].x && path[3].y == path[0].y
      && path[2] == Vec2(-path[0].x, -path[0].y) && path[3] == Vec2(-path[1].x, -path[1].y)
      && path[2] == Vec2(w as real / 2.0 - padding, h as real / 2.0 - padding)
    ensures 0.0 <= padding && padding <= w as real / 2.0 && padding <= h as real / 2.0 ==>
      var path := CameraBoundsPath(w, h, padding);
      forall i :: 0 <= i < 4 ==>
        -(w as real) / 2.0 <= path[i].x <= w as real / 2.0 && -(h as real) / 2.0 <= path[i].y <= h as real / 2.0
  {
  }
}
