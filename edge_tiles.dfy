/** The auto-tile classifier of the edge pass (`GetEdgeTileIndex`).

    Its result indexes a 3x3 block of grass tiles:
    0 top-left, 1 top, 2 top-right / 3 left, 4 centre, 5 right /
    6 bottom-left, 7 bottom, 8 bottom-right. */
module EdgeTiles {

  /** Row of the 3x3 block: the top row when only the top neighbour is dirt,
      the bottom row when only the bottom neighbour is dirt, else the middle. */
  function LayoutRow(top: bool, bottom: bool): int
  {
    if !top && bottom then 0 else if top && !bottom then 2 else 1
  }

  /** Column of the 3x3 block, by the same rule for left and right. */
  function LayoutColumn(left: bool, right: bool): int
  {
    if !left && right then 0 else if left && !right then 2 else 1
  }

  /** Reference classification read off the layout: a cell with grass on at
      least one side vertically and horizontally takes the tile at (row, column);
      a cell that is dirt on both vertical or both horizontal sides takes the centre. */
  function LayoutIndex(top: bool, bottom: bool, left: bool, right: bool): int
  {
    if (top || bottom) && (left || right) then 3 * LayoutRow(top, bottom) + LayoutColumn(left, right)
    else 4
  }

  /** The classifier as the source writes it: nine patterns tried in order, centre by default. */
  function GetEdgeTileIndex(top: bool, bottom: bool, left: bool, right: bool): (r: int)
    ensures 0 <= r <= 8
    ensures r == LayoutIndex(top, bottom, left, right)
    ensures top && bottom && left && right ==> r == 4
  {
    // All neighbours are grass: centre fill.
    if top && bottom && left && right then 4
    // Corners.
    else if !top && !left && bottom && right then 0
    else if !top && left && bottom && !right then 2
    else if top && !left && !bottom && right then 6
    else if top && left && !bottom && !right then 8
    // Edges.
    else if !top && left && bottom && right then 1
    else if top && left && !bottom && right then 7
    else if top && !left && bottom && right then 3
    else if top && left && bottom && !right then 5
    else 4
  }

  /** The eight non-centre results each need exactly one neighbour pattern:
      the patterns are pairwise disjoint, and every other pattern yields the centre. */
  lemma EdgeIndexPatterns(top: bool, bottom: bool, left: bool, right: bool)
    ensures GetEdgeTileIndex(top, bottom, left, right) == 0 <==> !top && bottom && !left && right
    ensures GetEdgeTileIndex(top, bottom, left, right) == 1 <==> !top && bottom && left && right
    ensures GetEdgeTileIndex(top, bottom, left, right) == 2 <==> !top && bottom && left && !right
    ensures GetEdgeTileIndex(top, bottom, left, right) == 3 <==> top && bottom && !left && right
    ensures GetEdgeTileIndex(top, bottom, left, right) == 5 <==> top && bottom && left && !right
    ensures GetEdgeTileIndex(top, bottom, left, right) == 6 <==> top && !bottom && !left && right
    ensures GetEdgeTileIndex(top, bottom, left, right) == 7 <==> top && !bottom && left && right
    ensures GetEdgeTileIndex(top, bottom, left, right) == 8 <==> top && !bottom && left && !right
  {
  }

  /** Mirror a layout index top-to-bottom: 0<->6, 1<->7, 2<->8; 3, 4, 5 stay. */
  function FlipVertical(i: int): int
  {
    if 0 <= i <= 8 then 3 * (2 - i / 3) + i % 3 else i
  }

  /** Mirror a layout index left-to-right: 0<->2, 3<->5, 6<->8; 1, 4, 7 stay. */
  function FlipHorizontal(i: int): int
  {
    if 0 <= i <= 8 then 3 * (i / 3) + (2 - i % 3) else i
  }

  /** Exchanging the top and bottom neighbours mirrors the chosen tile vertically. */
  lemma EdgeIndexVerticalSymmetry(top: bool, bottom: bool, left: bool, right: bool)
    ensures GetEdgeTileIndex(bottom, top, left, right) == FlipVertical(GetEdgeTileIndex(top, bottom, left, right))
  {
  }

  /** Exchanging the left and right neighbours mirrors the chosen tile horizontally. */
  lemma EdgeIndexHorizontalSymmetry(top: bool, bottom: bool, left: bool, right: bool)
    ensures GetEdgeTileIndex(top, bottom, right, left) == FlipHorizontal(GetEdgeTileIndex(top, bottom, left, right))
  {
  }

  /** The two mirrorings are involutions that fix exactly the middle row (vertical) or column (horizontal). */
  lemma FlipsAreMirrorings(i: int)
    requires 0 <= i <= 8
    ensures FlipVertical(FlipVertical(i)) == i && FlipHorizontal(FlipHorizontal(i)) == i
    ensures FlipVertical(i) == i <==> i in {3, 4, 5}
    ensures FlipHorizontal(i) == i <==> i in {1, 4, 7}
  {
  }
}
