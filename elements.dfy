/** The element shorthands of elements.rs: border, padding, background and center. */
module Elements {
  import opened Results
  import opened Geometry
  import opened Constraints
  import opened EdgeInsets
  import opened Graphics
  import opened StyleDefs
  import opened AlignDefs
  import opened Selector
  import opened Defs
  import opened Layout
  import opened Painting
  import StyleElement

  /** `border`: a Style with only a border. */
  function Border<V>(border: BorderDefinition, child: Element<V>): (e: Element<V>)
    ensures e.Style? && e.child == child && e.style.background.None? && e.style.border == border
    ensures e.style.margin.IsEmpty() && e.style.padding.IsEmpty()
  {
    Style(StyleDefinition(None, All(0), border, All(0)), child)
  }

  /** `padding`: a Style with only padding. */
  function Padding<V>(padding: EdgeInsets, child: Element<V>): (e: Element<V>)
    ensures e.Style? && e.child == child && e.style.background.None? && e.style.padding == padding
    ensures e.style.margin.IsEmpty() && e.style.border.size.IsEmpty()
  {
    Style(StyleDefinition(None, All(0), NoBorder(), padding), child)
  }

  /** `background`: the same element `Style::new_with_background` builds. */
  function Background<V>(background: Color, child: Element<V>): (e: Element<V>)
    ensures e == StyleElement.NewWithBackground(background, child)
  {
    Style(StyleDefinition(Some(background), All(0), NoBorder(), All(0)), child)
  }

  /** `center`: align on both axes to the centre. */
  function CenterOf<V>(child: Element<V>): (e: Element<V>)
    ensures e.Align? && e.child == child && e.alignment.horizontal.Center? && e.alignment.vertical.Center?
  {
    Align(Alignment2D(Center, Center), child)
  }

  /** Padding grows its child by the insets, places it past the top/left ones, and paints nothing. */
  lemma PaddingLayout<V>(padding: EdgeInsets, child: Element<V>, c: Constraints, s: State<V>, fuel: nat, pos: Point)
    requires Render(Padding(padding, child), c, s, fuel).Ok?
    ensures padding.SizeFits()
    ensures var outer := Render(Padding(padding, child), c, s, fuel).value;
            && outer.1.SingleChild?
            && outer.0.width == outer.1.size.width + padding.left + padding.right
            && outer.0.height == outer.1.size.height + padding.top + padding.bottom
            && outer.1.offset == padding.TopLeftOffset()
            && ElementOps(Padding(padding, child), outer.0, pos) == Ok([])
  {
    var e := Padding(padding, child);
    var d := e.style;
    assert e == Style(d, child);
    StyleElement.StyleLayout(d, child, c, s, fuel);
    var outer := Render(e, c, s, fuel).value;
    assert outer.0.width == outer.1.size.width + padding.left + padding.right;
    assert outer.0.height == outer.1.size.height + padding.top + padding.bottom;
    PaintOpsValue(d, outer.0, pos);
  }

  /**
   * A border grows its child by the border widths and paints four strips
   * (none for an empty border) over the whole node: the strips hug the
   * child plus the border.
   */
  lemma BorderLayout<V>(border: BorderDefinition, child: Element<V>, c: Constraints, s: State<V>, fuel: nat, pos: Point)
    requires Render(Border(border, child), c, s, fuel).Ok?
    ensures border.size.SizeFits()
    ensures var outer := Render(Border(border, child), c, s, fuel).value;
            var e := Border(border, child);
            && outer.1.SingleChild?
            && outer.0.width == outer.1.size.width + border.size.left + border.size.right
            && outer.0.height == outer.1.size.height + border.size.top + border.size.bottom
            && outer.1.offset == border.size.TopLeftOffset()
            && ElementOps(e, outer.0, pos).Ok?
            && ElementOps(e, outer.0, pos).value
               == (if border.size.IsEmpty() then [] else BorderStrips(e.style, outer.0, pos))
            && BorderSize(e.style, outer.0).width == outer.0.width
            && BorderSize(e.style, outer.0).height == outer.0.height
            && Shift(BorderOffset(e.style), pos) == pos
  {
    var e := Border(border, child);
    StyleElement.StyleLayout(e.style, child, c, s, fuel);
    var outer := Render(e, c, s, fuel).value;
    PaintFitsRenderedSize(e.style, outer.1.size, outer.0, pos);
    PaintOpsValue(e.style, outer.0, pos);
  }

  /**
   * Centring takes all the space offered and leaves gaps before and after
   * the child that differ by at most one, the larger one after.
   */
  lemma CenterLayout<V>(child: Element<V>, c: Constraints, s: State<V>, fuel: nat)
    requires Render(CenterOf(child), c, s, fuel).Ok?
    ensures var outer := Render(CenterOf(child), c, s, fuel).value;
            var node := outer.1;
            && outer.0 == c.max
            && node.SingleChild?
            && node.offset.x <= c.max.width - node.size.width - node.offset.x <= node.offset.x + 1
            && node.offset.y <= c.max.height - node.size.height - node.offset.y <= node.offset.y + 1
  {
  }
}
