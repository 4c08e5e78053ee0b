/** Plane geometry used by the game: two-component vectors and axis-aligned
    rectangles, with the y axis pointing down the screen as in the window's
    coordinate system. Coordinates are `real`; the game itself uses 32-bit floats. */
module Geometry {

  /** A point or a displacement, `Vec2<f32>` in the game. */
  datatype Vec2 = Vec2(x: real, y: real)
  {
    /** Component-wise sum, the `+=` of the game's vectors. */
    function Plus(other: Vec2): Vec2
    {
      Vec2(x + other.x, y + other.y)
    }
  }

  /** An axis-aligned box given by its top-left corner and its size. */
  datatype Rect = Rect(x: real, y: real, width: real, height: real)
  {
    /** The point lies in the box (edges included). */
    predicate Contains(p: Vec2)
    {
      x <= p.x <= x + width && y <= p.y <= y + height
    }

    /** Two boxes overlap when their interiors share a point on both axes.
        The rendering library's own rectangle test is not visible here; it is
        modelled as this strict overlap, so boxes that only touch along an
        edge do not intersect. No property below depends on that case. */
    predicate Intersects(other: Rect)
    {
      x < other.x + other.width && other.x < x + width &&
      y < other.y + other.height && other.y < y + height
    }
  }
}
