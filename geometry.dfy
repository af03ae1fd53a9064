/** Screen-space rectangles shared by the two entity classes.

    Both entities describe their collision area as a tuple (x1, y1, x2, y2) in
    pixels, placed inside their square sprite of side `size` whose top-left
    corner is (x, y). Offsets are computed with Python's `//` by 2, which for a
    positive divisor agrees with Dafny's `/` on every integer.
 */
module Geometry {

  /** An axis-aligned box (x1, y1, x2, y2), as `get_hitbox` returns it. */
  datatype Box = Box(x1: int, y1: int, x2: int, y2: int)

  /** The margin between the box and the sprite edge on the far side (right or
      bottom) equals the margin on the near side (left or top), or exceeds it by
      one pixel: the odd pixel left over by floor division goes to the far side. */
  predicate CentredIn(b: Box, x: int, y: int, size: int)
  {
    var left, right := b.x1 - x, x + size - b.x2;
    var top, bottom := b.y1 - y, y + size - b.y2;
    (right == left || right == left + 1) && (bottom == top || bottom == top + 1)
  }

  /** The box lies inside the sprite square [x, x + size] x [y, y + size]. */
  predicate Within(b: Box, x: int, y: int, size: int)
  {
    x <= b.x1 <= b.x2 <= x + size && y <= b.y1 <= b.y2 <= y + size
  }
}
