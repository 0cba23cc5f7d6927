/**
 * The Style decorator (elements/style.rs): its value definitions, the
 * geometry helpers that position the child, background and border, and
 * its paint step. How a Style element lays out is in module StyleElement
 * (style_element.dfy), after the element type exists.
 */
module StyleDefs {
  import opened Results
  import opened Geometry
  import opened EdgeInsets
  import opened Graphics

  datatype BorderDefinition = BorderDefinition(color: Color, size: EdgeInsets)

  /** `BorderDefinition::none`: a black border of width zero on every side. */
  function NoBorder(): (b: BorderDefinition)
    ensures b.size.IsEmpty() && b.color == BLACK
  {
    BorderDefinition(BLACK, All(0))
  }

  datatype StyleDefinition = StyleDefinition(
    background: Option<Color>,
    margin: EdgeInsets,
    border: BorderDefinition,
    padding: EdgeInsets)

  /**
   * `added_size` is computed without a u32 overflow. Every term is
   * non-negative, so each partial sum the source forms fits exactly when
   * the two totals do.
   */
  predicate AddedSizeFits(d: StyleDefinition) {
    && d.margin.left + d.margin.right + d.border.size.left + d.border.size.right
       + d.padding.left + d.padding.right <= U32_MAX
    && d.margin.top + d.margin.bottom + d.border.size.top + d.border.size.bottom
       + d.padding.top + d.padding.bottom <= U32_MAX
  }

  /** Space the decorator adds around its child: margin, border and padding together. */
  function AddedSize(d: StyleDefinition): (r: Size)
    requires AddedSizeFits(d)
    ensures r.width == d.margin.left + d.margin.right + d.border.size.left + d.border.size.right
                       + d.padding.left + d.padding.right
    ensures r.height == d.margin.top + d.margin.bottom + d.border.size.top + d.border.size.bottom
                        + d.padding.top + d.padding.bottom
  {
    Size(d.margin.left + d.margin.right + d.border.size.left + d.border.size.right
         + d.padding.left + d.padding.right,
         d.margin.top + d.margin.bottom + d.border.size.top + d.border.size.bottom
         + d.padding.top + d.padding.bottom)
  }

  /** Where the child starts: past the left/top margin, border and padding. */
  function ChildOffset(d: StyleDefinition): (p: Point)
    ensures p.x == d.margin.left + d.border.size.left + d.padding.left
    ensures p.y == d.margin.top + d.border.size.top + d.padding.top
  {
    Point(d.margin.left + d.border.size.left + d.padding.left, d.margin.top + d.border.size.top + d.padding.top)
  }

  /** The background starts inside margin and border. */
  function BackgroundOffset(d: StyleDefinition): Point {
    Point(d.margin.left + d.border.size.left, d.margin.top + d.border.size.top)
  }

  /** `size - margin.size() - border.size.size()` neither overflows nor underflows. */
  predicate BackgroundFits(d: StyleDefinition, size: Size) {
    var m, b := d.margin, d.border.size;
    && m.SizeFits() && b.SizeFits()
    && m.left + m.right + b.left + b.right <= size.width
    && m.top + m.bottom + b.top + b.bottom <= size.height
  }

  /** The background covers what is left of `size` inside margin and border. */
  function BackgroundSize(d: StyleDefinition, size: Size): (r: Size)
    requires BackgroundFits(d, size)
    ensures r.width + d.margin.left + d.margin.right + d.border.size.left + d.border.size.right == size.width
    ensures r.height + d.margin.top + d.margin.bottom + d.border.size.top + d.border.size.bottom == size.height
  {
    var m, b := d.margin, d.border.size;
    Size(size.width - (m.left + m.right) - (b.left + b.right), size.height - (m.top + m.bottom) - (b.top + b.bottom))
  }

  /** The panic `background_size` raises first, in the source's evaluation order. */
  function BackgroundFault(d: StyleDefinition, size: Size): Fault {
    var m := d.margin;
    if !m.SizeFits() then Overflow
    else if !(m.left + m.right <= size.width && m.top + m.bottom <= size.height) then Underflow
    else if !d.border.size.SizeFits() then Overflow
    else Underflow
  }

  /** The border box starts inside the margin. */
  function BorderOffset(d: StyleDefinition): Point {
    d.margin.TopLeftOffset()
  }

  /** `size - margin.size()` neither overflows nor underflows. */
  predicate BorderFits(d: StyleDefinition, size: Size) {
    var m := d.margin;
    m.SizeFits() && m.left + m.right <= size.width && m.top + m.bottom <= size.height
  }

  /** The border box is what is left of `size` inside the margin. */
  function BorderSize(d: StyleDefinition, size: Size): (r: Size)
    requires BorderFits(d, size)
    ensures r.width + d.margin.left + d.margin.right == size.width
    ensures r.height + d.margin.top + d.margin.bottom == size.height
  {
    Size(size.width - (d.margin.left + d.margin.right), size.height - (d.margin.top + d.margin.bottom))
  }

  /** The panic `border_size` raises first: the margin's own size, then the subtraction. */
  function BorderFault(d: StyleDefinition, size: Size): Fault {
    if !d.margin.SizeFits() then Overflow else Underflow
  }

  /** The background rectangle painted for a Style of `size` at `pos`. */
  function BackgroundRect(d: StyleDefinition, size: Size, pos: Point): GraphicOperation
    requires d.background.Some? && BackgroundFits(d, size)
  {
    DrawRectangle(Rectangle(Shift(BackgroundOffset(d), pos), BackgroundSize(d, size)), d.background.value)
  }

  /** The four border strips, in paint order: left, right, top, bottom. */
  function BorderStrips(d: StyleDefinition, size: Size, pos: Point): seq<GraphicOperation>
    requires BorderFits(d, size)
  {
    var b := d.border.size;
    var box := BorderSize(d, size);
    var at := Shift(BorderOffset(d), pos);
    [ DrawRectangle(Rectangle(at, Size(b.left, box.height)), d.border.color),
      DrawRectangle(Rectangle(Shift(at, Point(box.width - b.right, 0)), Size(b.right, box.height)), d.border.color),
      DrawRectangle(Rectangle(at, Size(box.width, b.top)), d.border.color),
      DrawRectangle(Rectangle(Shift(at, Point(0, box.height - b.bottom)), Size(box.width, b.bottom)), d.border.color) ]
  }

  /**
   * `Style::paint` as the list of operations it pushes: the background (if
   * any) first, then the four strips unless the border is empty. An
   * overflow or underflow in the size arithmetic is the source's panic.
   */
  function PaintOps(d: StyleDefinition, size: Size, pos: Point): Result<seq<GraphicOperation>>
  {
    var background :-
      if d.background.None? then Ok([])
      else if BackgroundFits(d, size) then Ok([BackgroundRect(d, size, pos)])
      else Err(BackgroundFault(d, size));
    var borders :-
      if d.border.size.IsEmpty() then Ok([])
      else if BorderFits(d, size) then Ok(BorderStrips(d, size, pos))
      else Err(BorderFault(d, size));
    Ok(background + borders)
  }

  /**
   * `paint` panics exactly when the background or the border box does not
   * fit in `size`; otherwise it pushes one rectangle for the background (if
   * any) first and four strips for a non-empty border last.
   */
  lemma PaintOpsShape(d: StyleDefinition, size: Size, pos: Point)
    ensures var r := PaintOps(d, size, pos);
      && (r.Ok? <==> (d.background.Some? ==> BackgroundFits(d, size))
                     && (!d.border.size.IsEmpty() ==> BorderFits(d, size)))
      && (r.Ok? ==> |r.value| == (if d.background.Some? then 1 else 0) + (if d.border.size.IsEmpty() then 0 else 4))
      && (r.Ok? && d.background.Some? ==> r.value[0] == BackgroundRect(d, size, pos))
      && (r.Ok? && !d.border.size.IsEmpty() ==> r.value[|r.value| - 4..] == BorderStrips(d, size, pos))
  {
  }

  /** The operations of `PaintOps`, spelled out: background first, then the strips. */
  lemma PaintOpsValue(d: StyleDefinition, size: Size, pos: Point)
    requires PaintOps(d, size, pos).Ok?
    ensures PaintOps(d, size, pos).value
            == (if d.background.Some? then [BackgroundRect(d, size, pos)] else [])
               + (if d.border.size.IsEmpty() then [] else BorderStrips(d, size, pos))
  {
  }

  /** `Style::paint`: push the background and the border strips into the queue. */
  method PaintStyle(d: StyleDefinition, size: Size, pos: Point, queue: OperationQueue)
    requires PaintOps(d, size, pos).Ok?
    modifies queue
    ensures queue.operations == old(queue.operations) + PaintOps(d, size, pos).value
  {
    PaintOpsValue(d, size, pos);
    if d.background.Some? {
      queue.Push(BackgroundRect(d, size, pos));
    }
    if !d.border.size.IsEmpty() {
      PaintBorder(d, size, pos, queue);
    }
  }

  /** The border part of `Style::paint`: left, right, top and bottom strips. */
  method PaintBorder(d: StyleDefinition, size: Size, pos: Point, queue: OperationQueue)
    requires BorderFits(d, size)
    modifies queue
    ensures queue.operations == old(queue.operations) + BorderStrips(d, size, pos)
  {
    var b := d.border.size;
    var box := BorderSize(d, size);
    var at := Shift(BorderOffset(d), pos);
    queue.Push(DrawRectangle(Rectangle(at, Size(b.left, box.height)), d.border.color));
    queue.Push(DrawRectangle(
      Rectangle(Shift(at, Point(box.width - b.right, 0)), Size(b.right, box.height)), d.border.color));
    queue.Push(DrawRectangle(Rectangle(at, Size(box.width, b.top)), d.border.color));
    queue.Push(DrawRectangle(
      Rectangle(Shift(at, Point(0, box.height - b.bottom)), Size(box.width, b.bottom)), d.border.color));
  }

  /**
   * Every strip is in the border colour and hugs one edge of the border box:
   * the left and top strips start at its corner, the right strip ends at its
   * right edge and the bottom strip at its bottom edge; each strip is as
   * thick as its side of the border and as long as the box.
   */
  lemma BorderStripsHugEdges(d: StyleDefinition, size: Size, pos: Point)
    requires BorderFits(d, size)
    ensures var strips, box, at, b := BorderStrips(d, size, pos), BorderSize(d, size),
                                      Shift(BorderOffset(d), pos), d.border.size;
      && |strips| == 4
      && (forall k | 0 <= k < 4 :: strips[k].DrawRectangle? && strips[k].color == d.border.color)
      && strips[0].rect == Rectangle(at, Size(b.left, box.height))
      && strips[1].rect.topLeft.y == at.y
      && strips[1].rect.topLeft.x + strips[1].rect.size.width == at.x + box.width
      && strips[1].rect.size == Size(b.right, box.height)
      && strips[2].rect == Rectangle(at, Size(box.width, b.top))
      && strips[3].rect.topLeft.x == at.x
      && strips[3].rect.topLeft.y + strips[3].rect.size.height == at.y + box.height
      && strips[3].rect.size == Size(box.width, b.bottom)
  {
  }

  /**
   * At the size a Style reports after layout (child + added size), painting
   * never panics, the background covers exactly the child plus its padding
   * and starts where the padding starts, and the border box covers exactly
   * the child plus padding and border.
   */
  lemma PaintFitsRenderedSize(d: StyleDefinition, child: Size, size: Size, pos: Point)
    requires AddedSizeFits(d)
    requires size.width == child.width + AddedSize(d).width
    requires size.height == child.height + AddedSize(d).height
    ensures BackgroundFits(d, size) && BorderFits(d, size)
    ensures PaintOps(d, size, pos).Ok?
    ensures BackgroundSize(d, size).width == child.width + d.padding.left + d.padding.right
    ensures BackgroundSize(d, size).height == child.height + d.padding.top + d.padding.bottom
    ensures BackgroundOffset(d).x + d.padding.left == ChildOffset(d).x
    ensures BackgroundOffset(d).y + d.padding.top == ChildOffset(d).y
    ensures BorderSize(d, size).width
            == child.width + d.padding.left + d.padding.right + d.border.size.left + d.border.size.right
    ensures BorderSize(d, size).height
            == child.height + d.padding.top + d.padding.bottom + d.border.size.top + d.border.size.bottom
  {
  }

  /** With no margin and no border the background rectangle is the whole node. */
  lemma BackgroundOnlyRect(d: StyleDefinition, size: Size, pos: Point)
    requires d.background.Some?
    requires d.margin.IsEmpty() && d.border.size.IsEmpty()
    ensures BackgroundFits(d, size)
    ensures BackgroundRect(d, size, pos) == DrawRectangle(Rectangle(pos, size), d.background.value)
  {
    assert BackgroundSize(d, size) == size;
    assert Shift(BackgroundOffset(d), pos) == pos;
  }

  /** A Style with nothing around its child paints only its background, over the whole node. */
  lemma BackgroundOnlyOps(d: StyleDefinition, size: Size, pos: Point)
    requires d.background.Some?
    requires d.margin.IsEmpty() && d.border.size.IsEmpty() && d.padding.IsEmpty()
    ensures PaintOps(d, size, pos) == Ok([DrawRectangle(Rectangle(pos, size), d.background.value)])
  {
    BackgroundOnlyRect(d, size, pos);
    PaintOpsValue(d, size, pos);
    var op := BackgroundRect(d, size, pos);
    assert [op] + [] == [op];
  }
}
