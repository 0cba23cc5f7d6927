/**
 * The embedded-graphics value types the framework is written against:
 * `Size` (two u32 extents), `Point` (two coordinates), `Rectangle` and an
 * opaque `Rgb888` colour.
 */
module Geometry {

  const U32_MAX: int := 0xFFFF_FFFF

  type u32 = x: int | 0 <= x <= U32_MAX
  type u8 = x: int | 0 <= x < 256

  datatype Size = Size(width: u32, height: u32)

  /** Coordinates are unbounded integers (the source's i32 is not modelled). */
  datatype Point = Point(x: int, y: int)

  datatype Rectangle = Rectangle(topLeft: Point, size: Size)

  datatype Color = Rgb888(r: u8, g: u8, b: u8)

  const ZERO_SIZE: Size := Size(0, 0)
  const ORIGIN: Point := Point(0, 0)
  const WHITE: Color := Rgb888(255, 255, 255)
  const BLACK: Color := Rgb888(0, 0, 0)

  /** `Point + Point`. */
  function Shift(p: Point, d: Point): Point {
    Point(p.x + d.x, p.y + d.y)
  }

  /** `Size + Size` does not overflow either u32 extent. */
  predicate CanAdd(a: Size, b: Size) {
    a.width + b.width <= U32_MAX && a.height + b.height <= U32_MAX
  }

  /** `Size + Size`, defined where it does not panic. */
  function Add(a: Size, b: Size): Size
    requires CanAdd(a, b)
  {
    Size(a.width + b.width, a.height + b.height)
  }

  /** `Size - Size` does not underflow either u32 extent. */
  predicate CanSub(a: Size, b: Size) {
    b.width <= a.width && b.height <= a.height
  }

  /** `Size - Size`, defined where it does not panic; it undoes `Add`. */
  function Sub(a: Size, b: Size): (r: Size)
    requires CanSub(a, b)
    ensures CanAdd(r, b) && Add(r, b) == a
  {
    Size(a.width - b.width, a.height - b.height)
  }

  function Max(a: int, b: int): int {
    if a >= b then a else b
  }
}
