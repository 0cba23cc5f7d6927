/** Per-side insets used for margins, borders and paddings (utils/edge_insets.rs). */
module EdgeInsets {
  import opened Geometry

  datatype EdgeInsets = EdgeInsets(top: u32, right: u32, bottom: u32, left: u32) {

    /** `left + right` fits a u32 (the source panics otherwise). */
    predicate WidthFits() { left + right <= U32_MAX }

    /** `top + bottom` fits a u32 (the source panics otherwise). */
    predicate HeightFits() { top + bottom <= U32_MAX }

    predicate SizeFits() { WidthFits() && HeightFits() }

    /** Horizontal space taken by the insets. */
    function Width(): (r: u32)
      requires WidthFits()
      ensures r - right == left
    {
      left + right
    }

    /** Vertical space taken by the insets. */
    function Height(): (r: u32)
      requires HeightFits()
      ensures r - bottom == top
    {
      top + bottom
    }

    function Size(): (r: Size)
      requires SizeFits()
      ensures r.width == Width() && r.height == Height()
    {
      Geometry.Size(left + right, top + bottom)
    }

    /** No side has any extent. */
    predicate IsEmpty() {
      top == 0 && bottom == 0 && left == 0 && right == 0
    }

    /** Where content starts inside the insets. */
    function TopLeftOffset(): (p: Point)
      ensures p.x == left && p.y == top
    {
      Point(left, top)
    }
  }

  /** `EdgeInsets::new` takes top, right, bottom, left (clockwise from the top). */
  function New(top: u32, right: u32, bottom: u32, left: u32): (r: EdgeInsets)
    ensures r.top == top && r.right == right && r.bottom == bottom && r.left == left
  {
    EdgeInsets(top := top, bottom := bottom, left := left, right := right)
  }

  function All(size: u32): (r: EdgeInsets)
    ensures r.top == size && r.right == size && r.bottom == size && r.left == size
  {
    EdgeInsets(top := size, bottom := size, left := size, right := size)
  }

  function Symmetric(vertical: u32, horizontal: u32): (r: EdgeInsets)
    ensures r.top == r.bottom == vertical && r.left == r.right == horizontal
  {
    EdgeInsets(top := vertical, bottom := vertical, left := horizontal, right := horizontal)
  }

  function FromTop(top: u32): (r: EdgeInsets)
    ensures r == New(top, 0, 0, 0)
  {
    EdgeInsets(top := top, bottom := 0, left := 0, right := 0)
  }

  function FromBottom(bottom: u32): (r: EdgeInsets)
    ensures r == New(0, 0, bottom, 0)
  {
    EdgeInsets(top := 0, bottom := bottom, left := 0, right := 0)
  }

  function FromLeft(left: u32): (r: EdgeInsets)
    ensures r == New(0, 0, 0, left)
  {
    EdgeInsets(top := 0, bottom := 0, left := left, right := 0)
  }

  function FromRight(right: u32): (r: EdgeInsets)
    ensures r == New(0, right, 0, 0)
  {
    EdgeInsets(top := 0, bottom := 0, left := 0, right := right)
  }

  /** Empty insets are exactly `all(0)`, take no space and shift nothing. */
  lemma EmptyIsAllZero(i: EdgeInsets)
    ensures i.IsEmpty() <==> i == All(0)
    ensures i.IsEmpty() ==> i.SizeFits() && i.Size() == ZERO_SIZE && i.TopLeftOffset() == ORIGIN
  {
  }

  /** An inset is empty exactly when it takes no space (both directions). */
  lemma EmptyIffNoSize(i: EdgeInsets)
    requires i.SizeFits()
    ensures i.IsEmpty() <==> i.Size() == ZERO_SIZE
  {
  }

  /**
   * The space taken by `all` and `symmetric`: each side is counted twice on
   * its axis, so `size()` panics unless twice the argument fits a u32.
   */
  lemma ConstructorSizes(n: u32, v: u32, h: u32)
    requires 2 * n <= U32_MAX && 2 * v <= U32_MAX && 2 * h <= U32_MAX
    ensures All(n).SizeFits() && All(n).Size() == Size(2 * n, 2 * n)
    ensures Symmetric(v, h).SizeFits() && Symmetric(v, h).Size() == Size(2 * h, 2 * v)
  {
  }

  /**
   * The space taken by the `from_*` constructors, for every u32: only one
   * side is set, so `size()` never overflows.
   */
  lemma SideConstructorSizes(n: u32)
    ensures FromTop(n).SizeFits() && FromBottom(n).SizeFits()
    ensures FromLeft(n).SizeFits() && FromRight(n).SizeFits()
    ensures FromTop(n).Size() == Size(0, n) && FromBottom(n).Size() == Size(0, n)
    ensures FromLeft(n).Size() == Size(n, 0) && FromRight(n).Size() == Size(n, 0)
    ensures FromTop(n).TopLeftOffset() == Point(0, n) && FromLeft(n).TopLeftOffset() == Point(n, 0)
    ensures FromBottom(n).TopLeftOffset() == ORIGIN && FromRight(n).TopLeftOffset() == ORIGIN
  {
  }
}
