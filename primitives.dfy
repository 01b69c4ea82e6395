/**
 * The value types the engine draws with: points, rectangles, colours and
 * flip flags. Single-precision floats are modelled as `real`.
 */
module Primitives {

  /** A 2D point or offset (XNA `Vector2`). */
  datatype Vector2 = Vector2(x: real, y: real)

  function Add(a: Vector2, b: Vector2): Vector2 {
    Vector2(a.x + b.x, a.y + b.y)
  }

  function Subtract(a: Vector2, b: Vector2): Vector2 {
    Vector2(a.x - b.x, a.y - b.y)
  }

  function Multiply(a: Vector2, s: real): Vector2 {
    Vector2(a.x * s, a.y * s)
  }

  function Divide(a: Vector2, s: real): Vector2
    requires s != 0.0
  {
    Vector2(a.x / s, a.y / s)
  }

  type NonNegReal = r: real | r >= 0.0

  /**
   * An axis-aligned rectangle in float coordinates, given by its top-left
   * corner and its extent (the engine's own `Primitives.Rectangle`).
   */
  datatype Rectangle = Rectangle(topLeft: Vector2, width: real, height: real)

  /** Closed containment: the edges belong to the rectangle. */
  predicate Contains(r: Rectangle, p: Vector2) {
    && r.topLeft.x <= p.x <= r.topLeft.x + r.width
    && r.topLeft.y <= p.y <= r.topLeft.y + r.height
  }

  /** An integer rectangle in a texture (XNA `Rectangle`, the draw source). */
  datatype SourceRectangle = SourceRectangle(x: int, y: int, width: int, height: int)

  newtype Byte = x: int | 0 <= x < 256

  /** An RGBA tint (XNA `Color`). */
  datatype Color = Color(r: Byte, g: Byte, b: Byte, a: Byte)

  const White: Color := Color(255, 255, 255, 255)

  /** XNA `SpriteEffects` flags: `None` is neither flip. */
  datatype SpriteEffects = SpriteEffects(flipHorizontally: bool, flipVertically: bool)

  const NoEffects: SpriteEffects := SpriteEffects(false, false)

  /** The texture a draw call samples from (a host content handle). */
  datatype Texture = DefaultTexture | NamedTexture(name: string)
}
