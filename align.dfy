/**
 * Alignment of a child inside the full space offered (elements/align.rs).
 * How an Align element lays out is in module AlignElement.
 */
module AlignDefs {
  import opened Geometry

  datatype Alignment = Start | Center | End

  datatype Alignment2D = Alignment2D(horizontal: Alignment, vertical: Alignment)

  /** The source subtracts `parent - child` on Center and End; Start does no arithmetic. */
  predicate AxisFits(a: Alignment, parent: u32, child: u32) {
    a.Start? || child <= parent
  }

  /**
   * Offset of the child along one axis: flush with the near edge (Start),
   * with equal gaps on both sides up to one unit (Center), or flush with the
   * far edge (End).
   */
  function AxisOffset(a: Alignment, parent: u32, child: u32): nat
    requires AxisFits(a, parent, child)
  {
    match a
    case Start => 0
    case Center => (parent - child) / 2
    case End => parent - child
  }

  predicate Fits(al: Alignment2D, parent: Size, child: Size) {
    AxisFits(al.horizontal, parent.width, child.width) && AxisFits(al.vertical, parent.height, child.height)
  }

  /** The child's offset inside a parent of size `parent`. */
  function Offset(al: Alignment2D, parent: Size, child: Size): Point
    requires Fits(al, parent, child)
  {
    Point(AxisOffset(al.horizontal, parent.width, child.width),
          AxisOffset(al.vertical, parent.height, child.height))
  }

  /**
   * Start is flush with the near edge, End with the far edge, and Center
   * leaves gaps that differ by at most one, the larger one after; the child
   * never sticks out past the far edge.
   */
  lemma AxisOffsetSpec(a: Alignment, parent: u32, child: u32)
    requires AxisFits(a, parent, child)
    ensures var r := AxisOffset(a, parent, child);
      && (a.Start? ==> r == 0)
      && (a.End? ==> r + child == parent)
      && (a.Center? ==> r <= parent - child - r <= r + 1)
      && (!a.Start? ==> r + child <= parent)
  {
  }

  /** The centred offset is the only one leaving gaps that differ by at most one (its gap before is never the larger). */
  lemma CenterIsUnique(parent: u32, child: u32, r: nat)
    requires child <= parent
    requires r <= parent - child - r <= r + 1
    ensures r == AxisOffset(Center, parent, child)
  {
  }

  /** Horizontal alignment moves only x, vertical alignment only y. */
  lemma AxesAreIndependent(h1: Alignment, h2: Alignment, v1: Alignment, v2: Alignment, parent: Size, child: Size)
    requires Fits(Alignment2D(h1, v1), parent, child) && Fits(Alignment2D(h1, v2), parent, child)
    requires Fits(Alignment2D(h2, v1), parent, child)
    ensures Offset(Alignment2D(h1, v1), parent, child).x == Offset(Alignment2D(h1, v2), parent, child).x
    ensures Offset(Alignment2D(h1, v1), parent, child).y == Offset(Alignment2D(h2, v1), parent, child).y
  {
  }
}
