/** Box constraints handed down the tree during layout (utils/constraints.rs). */
module Constraints {
  import opened Geometry

  datatype Constraints = Constraints(min: Size, max: Size)

  /** `Constraints::up_to`: anything from nothing up to `size`. */
  function UpTo(size: Size): (c: Constraints)
    ensures c.min == ZERO_SIZE && c.max == size
  {
    Constraints(Size(0, 0), size)
  }

  /** `u32::saturating_add`. */
  function SaturatingAdd(a: u32, b: u32): u32 {
    if a + b > U32_MAX then U32_MAX else a + b
  }

  /** `Constraints::shrink`: reserve `size` by raising the minimum; the maximum is kept. */
  function Shrink(c: Constraints, size: Size): Constraints
  {
    Constraints(
      Size(SaturatingAdd(c.min.width, size.width), SaturatingAdd(c.min.height, size.height)),
      c.max)
  }

  /** Per axis: raise to `min`, then cut to `max` (so `max` wins when `min > max`). */
  function ClampAxis(value: u32, lo: u32, hi: u32): u32 {
    var raised := if value >= lo then value else lo;
    if raised <= hi then raised else hi
  }

  /** `Constraints::clamp`: bound a measured size into the constraint box. */
  function Clamp(c: Constraints, size: Size): Size
  {
    Size(ClampAxis(size.width, c.min.width, c.max.width),
         ClampAxis(size.height, c.min.height, c.max.height))
  }

  /**
   * Shrinking keeps the maximum and raises each minimum extent by the
   * reserved amount, saturating at the u32 limit.
   */
  lemma ShrinkSpec(c: Constraints, size: Size)
    ensures var r := Shrink(c, size);
      && r.max == c.max
      && c.min.width <= r.min.width && c.min.height <= r.min.height
      && (c.min.width + size.width <= U32_MAX ==> r.min.width == c.min.width + size.width)
      && (c.min.height + size.height <= U32_MAX ==> r.min.height == c.min.height + size.height)
      && (c.min.width + size.width > U32_MAX ==> r.min.width == U32_MAX)
      && (c.min.height + size.height > U32_MAX ==> r.min.height == U32_MAX)
  {
  }

  /**
   * A clamped size never exceeds the maximum, reaches the minimum when the
   * minimum is itself within the maximum (the maximum wins otherwise), and
   * leaves an extent that is already in range unchanged.
   */
  lemma ClampSpec(c: Constraints, size: Size)
    ensures var r := Clamp(c, size);
      && r.width <= c.max.width && r.height <= c.max.height
      && (c.min.width <= c.max.width ==> c.min.width <= r.width)
      && (c.min.height <= c.max.height ==> c.min.height <= r.height)
      && (c.min.width > c.max.width ==> r.width == c.max.width)
      && (c.min.height > c.max.height ==> r.height == c.max.height)
      && (c.min.width <= size.width <= c.max.width ==> r.width == size.width)
      && (c.min.height <= size.height <= c.max.height ==> r.height == size.height)
  {
  }

  /** Clamping twice is clamping once. */
  lemma ClampIdempotent(c: Constraints, size: Size)
    ensures Clamp(c, Clamp(c, size)) == Clamp(c, size)
  {
  }

  /** Shrinking by nothing changes nothing. */
  lemma ShrinkByZero(c: Constraints)
    ensures Shrink(c, ZERO_SIZE) == c
  {
  }
}
