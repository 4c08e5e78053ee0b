/** Game entities (the two paddles and the ball): a texture that fixes the
    entity's size, a position and a velocity, plus the geometric queries the
    simulation asks of them. */
module Entities {
  import opened Geometry

  /** A texture dimension in pixels; a loaded image is never empty. */
  type Pixels = n: int | 0 < n witness 1

  /** The only part of a texture the simulation looks at is its size. */
  datatype Texture = Texture(width: Pixels, height: Pixels)

  /** A paddle or the ball. The size comes from the texture and so cannot
      change; position and velocity are updated freely by the game. */
  datatype Entity = Entity(texture: Texture, position: Vec2, velocity: Vec2)
  {
    /** Width of the entity: its texture width converted to a coordinate. */
    function Width(): (r: real)
      ensures r > 0.0
    {
      texture.width as real
    }

    /** Height of the entity: its texture height converted to a coordinate. */
    function Height(): (r: real)
      ensures r > 0.0
    {
      texture.height as real
    }

    /** The box the entity occupies: its top-left corner is the entity's
        position, and it is sized by the texture. */
    function Bounds(): (r: Rect)
      ensures r.Contains(position)
      ensures forall p {:trigger r.Contains(p)} :: r.Contains(p) ==> position.x <= p.x && position.y <= p.y
      ensures r.width == Width() && r.height == Height()
    {
      Rect(position.x, position.y, Width(), Height())
    }

    /** The centre of the entity: the point of its box that lies halfway
        between the box's left and right edges and halfway between its top
        and bottom edges. */
    function Centre(): (c: Vec2)
      ensures Bounds().Contains(c)
      ensures c.x - Bounds().x == Bounds().x + Bounds().width - c.x
      ensures c.y - Bounds().y == Bounds().y + Bounds().height - c.y
    {
      Vec2(position.x + Width() / 2.0, position.y + Height() / 2.0)
    }
  }
}
