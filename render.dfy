/**
 * The layout pass: `render(constraints, state) -> (size, node)` for every
 * element kind (lib.rs for Text, Box, Stack and ItemSelector; style.rs,
 * align.rs, handler.rs and component.rs for the others), dispatched over
 * the closed element type.
 *
 * `fuel` bounds how deep generated elements (a Component's generator
 * result, an ItemSelector's rendered item) may nest; running out is
 * `Diverged`, where the source would recurse without end.
 */
module Layout {
  import opened Results
  import opened Geometry
  import opened Constraints
  import opened StyleDefs
  import opened AlignDefs
  import opened Selector
  import opened Defs

  /** FONT_6X10: each character is 6 wide, a line is 10 high. */
  const GLYPH_WIDTH: nat := 6
  const GLYPH_HEIGHT: u32 := 10

  /** Children stacked so far: their extent (widest, total height) and their nodes. */
  datatype Column<!V> = Column(extent: Size, children: seq<RenderNode<V>>)

  /**
   * Put one more rendered child under the column: it sits at x = 0 and
   * y = the height so far; the height grows by the child's, the width is
   * the wider of the two. The u32 height sum may overflow.
   */
  function Place<V>(col: Column<V>, renderer: Element<V>, r: Rendered<V>): Result<Column<V>> {
    if col.extent.height + r.0.height > U32_MAX then Err(Overflow)
    else Ok(Column(Size(Max(col.extent.width, r.0.width), col.extent.height + r.0.height),
                   col.children + [SingleChild(Point(0, col.extent.height), r.0, renderer, r.1)]))
  }

  /** `Text::render`'s size: `len as u32 * 6` by 10, clamped. */
  function TextSize(val: string, c: Constraints): Result<Size> {
    var width := (|val| % (U32_MAX + 1)) * GLYPH_WIDTH;
    if width > U32_MAX then Err(Overflow) else Ok(Clamp(c, Size(width, GLYPH_HEIGHT)))
  }

  /** `ElementTrait::render`. */
  function Render<V>(e: Element<V>, c: Constraints, s: State<V>, fuel: nat): Result<Rendered<V>>
    decreases fuel, 2, e
  {
    match e
    case Text(val) =>
      var size :- TextSize(val, c);
      Ok((size, Leaf))
    case Box(size, _, None) =>
      Ok((size, Leaf))
    case Box(size, _, Some(child)) =>
      var r :- Render(child, Constraints(size, size), s, fuel);
      Ok((size, SingleChild(ORIGIN, r.0, child, r.1)))
    case Stack(items) =>
      var col :- RenderColumn(items, c, s, fuel);
      var size := Clamp(c, col.extent);
      Ok((size, MultiChild(ORIGIN, size, col.children)))
    case Style(d, child) =>
      if !AddedSizeFits(d) then Err(Overflow)
      else
        var added := AddedSize(d);
        var r :- Render(child, Shrink(c, added), s, fuel);
        if !CanAdd(r.0, added) then Err(Overflow)
        else Ok((Add(r.0, added), SingleChild(ChildOffset(d), r.0, child, r.1)))
    case Align(al, child) =>
      var r :- Render(child, c, s, fuel);
      if !Fits(al, c.max, r.0) then Err(Underflow)
      else Ok((c.max, SingleChild(Offset(al, c.max, r.0), r.0, child, r.1)))
    case Handler(_, child) =>
      var r :- Render(child, c, s, fuel);
      Ok((r.0, SingleChild(ORIGIN, r.0, child, r.1)))
    case Component(generator) =>
      if fuel == 0 then Err(Diverged)
      else
        var generated := generator(s);
        var r :- Render(generated, c, s, fuel - 1);
        Ok((r.0, SingleChild(ORIGIN, r.0, generated, r.1)))
    case ItemSelector(renderItem) =>
      var col :- RenderItems(renderItem, s.items, s.selector.active, c, s, fuel);
      Ok((col.extent, MultiChild(ORIGIN, col.extent, col.children)))
  }

  /** A Stack's items, each laid out under the Stack's own constraints, stacked in order. */
  function RenderColumn<V>(items: seq<Element<V>>, c: Constraints, s: State<V>, fuel: nat): Result<Column<V>>
    decreases fuel, 2, items
  {
    if items == [] then Ok(Column(ZERO_SIZE, []))
    else
      var col :- RenderColumn(items[..|items| - 1], c, s, fuel);
      var last := items[|items| - 1];
      var r :- Render(last, c, s, fuel);
      Place(col, last, r)
  }

  /** An ItemSelector's items: item i becomes `renderItem(item, i == active)`, stacked in order. */
  function RenderItems<V>(renderItem: (V, bool) -> Element<V>, items: seq<V>, active: nat,
                          c: Constraints, s: State<V>, fuel: nat): Result<Column<V>>
    decreases fuel, 1, items
  {
    if items == [] then Ok(Column(ZERO_SIZE, []))
    else
      var col :- RenderItems(renderItem, items[..|items| - 1], active, c, s, fuel);
      var item := renderItem(items[|items| - 1], |items| - 1 == active);
      if fuel == 0 then Err(Diverged)
      else
        var r :- Render(item, c, s, fuel - 1);
        Place(col, item, r)
  }

  /** One more item: the column so far, then the item's own layout placed under it. */
  lemma ItemsStep<V>(renderItem: (V, bool) -> Element<V>, items: seq<V>, k: nat, active: nat,
                     c: Constraints, s: State<V>, fuel: nat)
    requires k < |items|
    requires RenderItems(renderItem, items[..k], active, c, s, fuel).Ok?
    ensures var col := RenderItems(renderItem, items[..k], active, c, s, fuel).value;
            var item := renderItem(items[k], k == active);
            RenderItems(renderItem, items[..k + 1], active, c, s, fuel)
            == if fuel == 0 then Err(Diverged)
               else if Render(item, c, s, fuel - 1).Err? then Err(Render(item, c, s, fuel - 1).fault)
               else Place(col, item, Render(item, c, s, fuel - 1).value)
  {
    assert items[..k + 1][..k] == items[..k];
  }

  /** Once a prefix of the items faults, the whole column faults the same way. */
  lemma {:induction false} ColumnFaultPersists<V>(items: seq<Element<V>>, k: nat, c: Constraints, s: State<V>, fuel: nat)
    requires k <= |items|
    requires RenderColumn(items[..k], c, s, fuel).Err?
    ensures RenderColumn(items, c, s, fuel) == RenderColumn(items[..k], c, s, fuel)
    decreases |items| - k
  {
    if k < |items| {
      var n := |items| - 1;
      assert items[..n][..k] == items[..k];
      ColumnFaultPersists(items[..n], k, c, s, fuel);
    } else {
      assert items[..k] == items;
    }
  }

  /** The same for an ItemSelector's items. */
  lemma {:induction false} ItemsFaultPersists<V>(renderItem: (V, bool) -> Element<V>, items: seq<V>, k: nat,
                                                 active: nat, c: Constraints, s: State<V>, fuel: nat)
    requires k <= |items|
    requires RenderItems(renderItem, items[..k], active, c, s, fuel).Err?
    ensures RenderItems(renderItem, items, active, c, s, fuel) == RenderItems(renderItem, items[..k], active, c, s, fuel)
    decreases |items| - k
  {
    if k < |items| {
      var n := |items| - 1;
      assert items[..n][..k] == items[..k];
      ItemsFaultPersists(renderItem, items[..n], k, active, c, s, fuel);
    } else {
      assert items[..k] == items;
    }
  }

  /**
   * `Stack::render` as the source runs it: one pass over the items that
   * keeps the running height `sum` and the widest child `max_cross`.
   */
  method StackRender<V>(items: seq<Element<V>>, c: Constraints, s: State<V>, fuel: nat) returns (r: Result<Rendered<V>>)
    ensures r == Render(Stack(items), c, s, fuel)
  {
    var sum: u32 := 0;
    var maxCross: u32 := 0;
    var children: seq<RenderNode<V>> := [];
    for i := 0 to |items|
      invariant RenderColumn(items[..i], c, s, fuel) == Ok(Column(Size(maxCross, sum), children))
    {
      assert items[..i + 1][..i] == items[..i];
      var rendered := Render(items[i], c, s, fuel);
      if rendered.Err? {
        ColumnFaultPersists(items, i + 1, c, s, fuel);
        return Err(rendered.fault);
      }
      var (size, node) := rendered.value;
      if sum + size.height > U32_MAX {
        ColumnFaultPersists(items, i + 1, c, s, fuel);
        return Err(Overflow);
      }
      children := children + [SingleChild(Point(0, sum), size, items[i], node)];
      sum := sum + size.height;
      maxCross := Max(maxCross, size.width);
    }
    assert items[..|items|] == items;
    var size := Clamp(c, Size(maxCross, sum));
    r := Ok((size, MultiChild(ORIGIN, size, children)));
  }

  /**
   * `ItemSelector::render` as the source runs it: a loop over the items
   * that builds each item's element, lays it out and grows `size`.
   */
  method ItemSelectorRender<V>(renderItem: (V, bool) -> Element<V>, c: Constraints, s: State<V>, fuel: nat)
    returns (r: Result<Rendered<V>>)
    ensures r == Render(ItemSelector(renderItem), c, s, fuel)
  {
    var size := ZERO_SIZE;
    var children: seq<RenderNode<V>> := [];
    var items := s.items;
    var elementState := s.selector;
    for index := 0 to |items|
      invariant RenderItems(renderItem, items[..index], elementState.active, c, s, fuel) == Ok(Column(size, children))
    {
      ItemsStep(renderItem, items, index, elementState.active, c, s, fuel);
      var active := index == elementState.active;
      var render := renderItem(items[index], active);
      if fuel == 0 {
        ItemsFaultPersists(renderItem, items, index + 1, elementState.active, c, s, fuel);
        return Err(Diverged);
      }
      var child := Render(render, c, s, fuel - 1);
      if child.Err? || size.height + child.value.0.height > U32_MAX {
        ItemsFaultPersists(renderItem, items, index + 1, elementState.active, c, s, fuel);
        return if child.Err? then Err(child.fault) else Err(Overflow);
      }
      children := children + [SingleChild(Point(0, size.height), child.value.0, render, child.value.1)];
      size := Size(Max(size.width, child.value.0.width), size.height + child.value.0.height);
    }
    assert items[..|items|] == items;
    r := Ok((size, MultiChild(ORIGIN, size, children)));
  }

  /** The size recorded at a node (none for a leaf). */
  function NodeSize<V>(n: RenderNode<V>): Size {
    match n
    case SingleChild(_, size, _, _) => size
    case MultiChild(_, size, _) => size
    case Leaf => ZERO_SIZE
  }

  /** Total height of a list of nodes. */
  function HeightSum<V>(ns: seq<RenderNode<V>>): int {
    if ns == [] then 0 else HeightSum(ns[..|ns| - 1]) + NodeSize(ns[|ns| - 1]).height
  }

  /** Widest of a list of nodes (0 for none). */
  function MaxWidth<V>(ns: seq<RenderNode<V>>): int {
    if ns == [] then 0 else Max(MaxWidth(ns[..|ns| - 1]), NodeSize(ns[|ns| - 1]).width)
  }

  /**
   * A column is stacked: every child is a SingleChild at x = 0 whose y is
   * the total height of the children before it, and the extent is the
   * widest child by the total height.
   */
  ghost predicate Stacked<V>(col: Column<V>) {
    && (forall i | 0 <= i < |col.children| ::
          col.children[i].SingleChild? && col.children[i].offset == Point(0, HeightSum(col.children[..i])))
    && col.extent.width == MaxWidth(col.children)
    && col.extent.height == HeightSum(col.children)
  }

  /** Placing a child keeps a column stacked. */
  lemma PlaceKeepsStacked<V>(col: Column<V>, renderer: Element<V>, r: Rendered<V>)
    requires Stacked(col)
    requires Place(col, renderer, r).Ok?
    ensures Stacked(Place(col, renderer, r).value)
    ensures Place(col, renderer, r).value.children == col.children + [SingleChild(Point(0, col.extent.height), r.0, renderer, r.1)]
  {
    var next := Place(col, renderer, r).value;
    var n := |col.children|;
    assert next.children[..n] == col.children;
    forall i | 0 <= i < n
      ensures next.children[..i] == col.children[..i]
    {
    }
  }

  /**
   * Stack layout: item i is laid out under the Stack's own constraints and
   * its node sits at (0, total height of items 0..i-1) with the item as
   * renderer; the column is the widest item by the total height.
   */
  lemma {:induction false} ColumnLayout<V>(items: seq<Element<V>>, c: Constraints, s: State<V>, fuel: nat)
    requires RenderColumn(items, c, s, fuel).Ok?
    ensures var col := RenderColumn(items, c, s, fuel).value;
      && Stacked(col)
      && |col.children| == |items|
      && forall i | 0 <= i < |items| ::
           && Render(items[i], c, s, fuel).Ok?
           && col.children[i].renderer == items[i]
           && Render(items[i], c, s, fuel).value == (col.children[i].size, col.children[i].child)
  {
    if items != [] {
      var n := |items| - 1;
      var prefix := items[..n];
      ColumnLayout(prefix, c, s, fuel);
      var pcol := RenderColumn(prefix, c, s, fuel).value;
      var r := Render(items[n], c, s, fuel).value;
      PlaceKeepsStacked(pcol, items[n], r);
      var col := RenderColumn(items, c, s, fuel).value;
      assert col.children == pcol.children + [SingleChild(Point(0, pcol.extent.height), r.0, items[n], r.1)];
      forall i | 0 <= i < |items|
        ensures col.children[i].renderer == items[i]
        ensures Render(items[i], c, s, fuel) == Ok((col.children[i].size, col.children[i].child))
      {
        if i < n {
          assert col.children[i] == pcol.children[i];
          assert items[i] == prefix[i];
        }
      }
    }
  }

  /**
   * ItemSelector layout: item i is drawn by `renderItem(items[i], i == active)`,
   * laid out under the selector's constraints, and stacked like a Stack's items.
   */
  lemma {:induction false} ItemsLayout<V>(renderItem: (V, bool) -> Element<V>, items: seq<V>, active: nat,
                                          c: Constraints, s: State<V>, fuel: nat)
    requires RenderItems(renderItem, items, active, c, s, fuel).Ok?
    ensures items != [] ==> fuel > 0
    ensures var col := RenderItems(renderItem, items, active, c, s, fuel).value;
      && Stacked(col)
      && |col.children| == |items|
    ensures fuel > 0 ==>
      var col := RenderItems(renderItem, items, active, c, s, fuel).value;
      forall i | 0 <= i < |items| ::
        && col.children[i].renderer == renderItem(items[i], i == active)
        && Render(renderItem(items[i], i == active), c, s, fuel - 1).Ok?
        && Render(renderItem(items[i], i == active), c, s, fuel - 1).value
           == (col.children[i].size, col.children[i].child)
  {
    if items != [] {
      assert fuel > 0;
      var n := |items| - 1;
      var prefix := items[..n];
      ItemsLayout(renderItem, prefix, active, c, s, fuel);
      var pcol := RenderItems(renderItem, prefix, active, c, s, fuel).value;
      var item := renderItem(items[n], n == active);
      var r := Render(item, c, s, fuel - 1).value;
      PlaceKeepsStacked(pcol, item, r);
      var col := RenderItems(renderItem, items, active, c, s, fuel).value;
      assert col.children == pcol.children + [SingleChild(Point(0, pcol.extent.height), r.0, item, r.1)];
      forall i | 0 <= i < |items|
        ensures col.children[i].renderer == renderItem(items[i], i == active)
        ensures Render(renderItem(items[i], i == active), c, s, fuel - 1)
                == Ok((col.children[i].size, col.children[i].child))
      {
        if i < n {
          assert col.children[i] == pcol.children[i];
          assert items[i] == prefix[i];
        }
      }
    }
  }

  /** A Stack reports the clamp of (widest item, total height) and a MultiChild of its items. */
  lemma StackLayout<V>(items: seq<Element<V>>, c: Constraints, s: State<V>, fuel: nat)
    requires Render(Stack(items), c, s, fuel).Ok?
    ensures RenderColumn(items, c, s, fuel).Ok?
    ensures var col := RenderColumn(items, c, s, fuel).value;
            var size := Clamp(c, col.extent);
            && col.extent.width == MaxWidth(col.children)
            && col.extent.height == HeightSum(col.children)
            && Render(Stack(items), c, s, fuel).value == (size, MultiChild(ORIGIN, size, col.children))
  {
    ColumnLayout(items, c, s, fuel);
  }

  /** An ItemSelector reports (widest item, total height), unclamped, and a MultiChild of its items. */
  lemma ItemSelectorLayout<V>(renderItem: (V, bool) -> Element<V>, c: Constraints, s: State<V>, fuel: nat)
    requires Render(ItemSelector(renderItem), c, s, fuel).Ok?
    ensures RenderItems(renderItem, s.items, s.selector.active, c, s, fuel).Ok?
    ensures var col := RenderItems(renderItem, s.items, s.selector.active, c, s, fuel).value;
            && col.extent.width == MaxWidth(col.children)
            && col.extent.height == HeightSum(col.children)
            && Render(ItemSelector(renderItem), c, s, fuel).value
               == (col.extent, MultiChild(ORIGIN, col.extent, col.children))
  {
    ItemsLayout(renderItem, s.items, s.selector.active, c, s, fuel);
  }

  /**
   * A Box reports its configured size whatever the constraints; its content
   * is laid out under exactly that size.
   */
  lemma BoxLayout<V>(size: Size, color: Color, content: Option<Element<V>>, c: Constraints, c': Constraints,
                     s: State<V>, fuel: nat)
    ensures Render(Box(size, color, content), c, s, fuel) == Render(Box(size, color, content), c', s, fuel)
    ensures Render(Box(size, color, content), c, s, fuel).Ok? ==>
              Render(Box(size, color, content), c, s, fuel).value.0 == size
    ensures content.Some? ==>
              (Render(Box(size, color, content), c, s, fuel).Ok?
               <==> Render(content.value, Constraints(size, size), s, fuel).Ok?)
    ensures content.None? ==> Render(Box(size, color, content), c, s, fuel) == Ok((size, Leaf))
    ensures content.Some? && Render(content.value, Constraints(size, size), s, fuel).Ok? ==>
              var inner := Render(content.value, Constraints(size, size), s, fuel).value;
              Render(Box(size, color, content), c, s, fuel)
              == Ok((size, SingleChild(ORIGIN, inner.0, content.value, inner.1)))
  {
  }

  /** Text reports the clamp of 6 per character by 10 and has no children. */
  lemma TextLayout<V>(val: string, c: Constraints, s: State<V>, fuel: nat)
    requires 6 * |val| <= U32_MAX
    ensures Render<V>(Text(val), c, s, fuel) == Ok((Clamp(c, Size(6 * |val|, 10)), Leaf))
  {
  }

  /**
   * For every string: the length is cast to u32 (keeping it modulo 2^32)
   * and then multiplied by 6, which panics when the product leaves u32.
   */
  lemma TextWidthCast<V>(val: string, c: Constraints, s: State<V>, fuel: nat)
    ensures var n := |val| % (U32_MAX + 1);
            && (6 * n > U32_MAX ==> Render<V>(Text(val), c, s, fuel) == Err(Overflow))
            && (6 * n <= U32_MAX ==> Render<V>(Text(val), c, s, fuel) == Ok((Clamp(c, Size(6 * n, 10)), Leaf)))
    ensures U32_MAX < 6 * |val| <= 6 * U32_MAX ==> Render<V>(Text(val), c, s, fuel) == Err(Overflow)
  {
  }

  /**
   * Three boxes of widths 5, 8, 3 and height 10 in a Stack with room to
   * spare: the Stack is 8 wide and 30 high, the boxes sit at y = 0, 10, 20.
   */
  lemma StackOfThreeBoxes<V>(color: Color, s: State<V>, fuel: nat)
    ensures var items: seq<Element<V>> := [Box(Size(5, 10), color, None), Box(Size(8, 10), color, None),
                                          Box(Size(3, 10), color, None)];
            Render(Stack(items), UpTo(Size(100, 100)), s, fuel)
            == Ok((Size(8, 30), MultiChild(ORIGIN, Size(8, 30),
                    [SingleChild(Point(0, 0), Size(5, 10), items[0], Leaf),
                     SingleChild(Point(0, 10), Size(8, 10), items[1], Leaf),
                     SingleChild(Point(0, 20), Size(3, 10), items[2], Leaf)])))
  {
    var items: seq<Element<V>> := [Box(Size(5, 10), color, None), Box(Size(8, 10), color, None),
                                   Box(Size(3, 10), color, None)];
    var c := UpTo(Size(100, 100));
    assert Render(items[0], c, s, fuel) == Ok((Size(5, 10), Leaf));
    assert Render(items[1], c, s, fuel) == Ok((Size(8, 10), Leaf));
    assert Render(items[2], c, s, fuel) == Ok((Size(3, 10), Leaf));
    var e: seq<Element<V>> := [];
    var n0 := SingleChild(Point(0, 0), Size(5, 10), items[0], Leaf);
    var n1 := SingleChild(Point(0, 10), Size(8, 10), items[1], Leaf);
    var n2 := SingleChild(Point(0, 20), Size(3, 10), items[2], Leaf);
    assert [items[0]][..0] == e;
    assert [] + [n0] == [n0];
    assert RenderColumn([items[0]], c, s, fuel) == Ok(Column(Size(5, 10), [n0]));
    assert [items[0], items[1]][..1] == [items[0]];
    assert [n0] + [n1] == [n0, n1];
    assert RenderColumn([items[0], items[1]], c, s, fuel) == Ok(Column(Size(8, 20), [n0, n1]));
    assert items[..2] == [items[0], items[1]];
    assert [n0, n1] + [n2] == [n0, n1, n2];
    assert items[..3] == items;
  }
}
