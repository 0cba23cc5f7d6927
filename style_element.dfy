/**
 * How a Style element lays out and paints (elements/style.rs, `render`
 * and `new_with_background`), stated against the layout and paint passes.
 */
module StyleElement {
  import opened Results
  import opened Geometry
  import opened Constraints
  import opened EdgeInsets
  import opened Graphics
  import opened StyleDefs
  import opened Selector
  import opened Defs
  import opened Layout
  import opened Painting

  /**
   * A Style lays its child out with the minimum raised by margin, border and
   * padding and the maximum unchanged, places the child past the top/left
   * insets, and is exactly as large as the child plus all six insets: the
   * right and bottom insets fill the rest of its box.
   */
  lemma StyleLayout<V>(d: StyleDefinition, child: Element<V>, c: Constraints, s: State<V>, fuel: nat)
    requires Render(Style(d, child), c, s, fuel).Ok?
    ensures AddedSizeFits(d)
    ensures Shrink(c, AddedSize(d)).max == c.max
    ensures Render(child, Shrink(c, AddedSize(d)), s, fuel).Ok?
    ensures var inner := Render(child, Shrink(c, AddedSize(d)), s, fuel).value;
            var outer := Render(Style(d, child), c, s, fuel).value;
            && outer.1 == SingleChild(ChildOffset(d), inner.0, child, inner.1)
            && outer.0.width == ChildOffset(d).x + inner.0.width
                                + d.padding.right + d.border.size.right + d.margin.right
            && outer.0.height == ChildOffset(d).y + inner.0.height
                                 + d.padding.bottom + d.border.size.bottom + d.margin.bottom
  {
  }

  /** A Style faults when its insets, or its child plus its insets, overflow a u32. */
  lemma StyleFaults<V>(d: StyleDefinition, child: Element<V>, c: Constraints, s: State<V>, fuel: nat)
    ensures !AddedSizeFits(d) ==> Render(Style(d, child), c, s, fuel) == Err(Overflow)
    ensures AddedSizeFits(d) && Render(child, Shrink(c, AddedSize(d)), s, fuel).Err? ==>
              Render(Style(d, child), c, s, fuel) == Render(child, Shrink(c, AddedSize(d)), s, fuel)
    ensures AddedSizeFits(d) && Render(child, Shrink(c, AddedSize(d)), s, fuel).Ok?
            && !CanAdd(Render(child, Shrink(c, AddedSize(d)), s, fuel).value.0, AddedSize(d)) ==>
              Render(Style(d, child), c, s, fuel) == Err(Overflow)
  {
  }

  /**
   * At the size it was laid out at, a Style's background starts where its
   * padding starts and covers the child plus padding: moved by the padding's
   * top/left it lands exactly on the child.
   */
  lemma StyleBackgroundFramesChild<V>(d: StyleDefinition, child: Element<V>, c: Constraints, s: State<V>,
                                      fuel: nat, pos: Point)
    requires Render(Style(d, child), c, s, fuel).Ok?
    requires d.background.Some?
    ensures var outer := Render(Style(d, child), c, s, fuel).value;
            var inner := outer.1;
            && ElementOps(Style(d, child), outer.0, pos).Ok?
            && var op := ElementOps(Style(d, child), outer.0, pos).value[0];
               && op.DrawRectangle? && op.color == d.background.value
               && op.rect.topLeft.x + d.padding.left == pos.x + inner.offset.x
               && op.rect.topLeft.y + d.padding.top == pos.y + inner.offset.y
               && op.rect.size.width == inner.size.width + d.padding.left + d.padding.right
               && op.rect.size.height == inner.size.height + d.padding.top + d.padding.bottom
  {
    StyleLayout(d, child, c, s, fuel);
    var outer := Render(Style(d, child), c, s, fuel).value;
    PaintFitsRenderedSize(d, outer.1.size, outer.0, pos);
  }

  /**
   * The layout adds to the minimum and never takes from the maximum, so a
   * Style can come out larger than the space offered: padding 1 around "ab"
   * in a 10 by 10 space is 12 by 12.
   */
  lemma StyleCanExceedMax<V>(s: State<V>, fuel: nat)
    ensures var padded: Element<V> := Style(StyleDefinition(None, All(0), NoBorder(), All(1)), Text("ab"));
            && Render(padded, UpTo(Size(10, 10)), s, fuel).Ok?
            && Render(padded, UpTo(Size(10, 10)), s, fuel).value.0 == Size(12, 12)
  {
    var d := StyleDefinition(None, All(0), NoBorder(), All(1));
    assert AddedSize(d) == Size(2, 2);
    var inner := Shrink(UpTo(Size(10, 10)), Size(2, 2));
    assert inner == Constraints(Size(2, 2), Size(10, 10));
    assert Clamp(inner, Size(12, 10)) == Size(10, 10);
    assert Render<V>(Text("ab"), inner, s, fuel) == Ok((Size(10, 10), Leaf));
  }

  /** `Style::new_with_background`: a background behind the child and nothing around it. */
  function NewWithBackground<V>(background: Color, child: Element<V>): (e: Element<V>)
    ensures e.Style? && e.child == child && e.style.background == Some(background)
    ensures e.style.margin.IsEmpty() && e.style.border.size.IsEmpty() && e.style.padding.IsEmpty()
  {
    Style(StyleDefinition(Some(background), All(0), NoBorder(), All(0)), child)
  }

  /** A background changes nothing about layout: the child fills the whole node. */
  lemma BackgroundKeepsLayout<V>(background: Color, child: Element<V>, c: Constraints, s: State<V>, fuel: nat)
    ensures Render(NewWithBackground(background, child), c, s, fuel).Ok? <==> Render(child, c, s, fuel).Ok?
    ensures Render(child, c, s, fuel).Ok? ==>
              var r := Render(child, c, s, fuel).value;
              Render(NewWithBackground(background, child), c, s, fuel) == Ok((r.0, SingleChild(ORIGIN, r.0, child, r.1)))
  {
    var e := NewWithBackground(background, child);
    ShrinkByZero(c);
    assert AddedSize(e.style).width == 0 && AddedSize(e.style).height == 0;
    assert Shrink(c, AddedSize(e.style)) == c;
  }

  /** A background paints one rectangle of its colour over the whole of its node. */
  lemma BackgroundPaintsNode<V>(background: Color, child: Element<V>, size: Size, pos: Point)
    ensures ElementOps(NewWithBackground(background, child), size, pos)
            == Ok([DrawRectangle(Rectangle(pos, size), background)])
  {
    BackgroundOnlyOps(NewWithBackground(background, child).style, size, pos);
  }
}
