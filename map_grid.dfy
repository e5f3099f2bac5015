/** The integer tile grid the generator walks, and the order in which it walks it. */
module MapGrid {
  import opened MapConfig

  /** A tile position (x, y); the generator always uses z = 0. */
  type Cell = (int, int)

  /** One tilemap: the tile set at each occupied position. */
  type Layer = map<Cell, Tile>

  /** C#'s `n / 2` on `int`, which truncates toward zero. */
  function Half(n: int): (h: int)
    ensures n >= 0 ==> 0 <= h && h + h <= n <= h + h + 1
    ensures n < 0 ==> h <= 0 && n <= h + h <= n + 1
  {
    if n >= 0 then n / 2 else -((-n) / 2)
  }

  /** n * n, built up one odd number at a time: 1 + 3 + ... + (2|n| - 1). */
  function Square(n: int): nat
    decreases if n < 0 then -n else n, if n < 0 then 1 else 0
  {
    if n < 0 then Square(-n) else if n == 0 then 0 else Square(n - 1) + 2 * n - 1
  }

  /** The sum of the first |n| odd numbers is n * n. */
  lemma {:induction false} SquareIsProduct(n: int)
    ensures Square(n) == n * n
    decreases if n < 0 then -n else n, if n < 0 then 1 else 0
  {
    if n < 0 {
      SquareIsProduct(-n);
    } else if n > 0 {
      SquareIsProduct(n - 1);
    }
  }

  /** The cells of the loop `for x in [-hw, hw) for y in [-hh, hh)`. */
  predicate InGrid(c: Cell, hw: int, hh: int)
  {
    -hw <= c.0 < hw && -hh <= c.1 < hh
  }

  /** Where a loop `for i = -h; i < h; i++` stops: at h, or at once when h is negative. */
  function Top(h: int): (t: int)
    ensures -h <= t && (h < -h ==> t == -h) && (-h <= h ==> t == h)
  {
    if -h <= h then h else -h
  }

  /** The cells the nested loops have visited when they are about to visit (x, y):
      every column before x, then column x below y. */
  predicate VisitedBefore(c: Cell, hw: int, hh: int, x: int, y: int)
  {
    (-hw <= c.0 < x && -hh <= c.1 < hh) || (c.0 == x && -hh <= c.1 < y)
  }
}
