/**
 * The paint pass: each element kind's `paint` (lib.rs for Text and Box,
 * style.rs for Style, the `ElementTrait` default in defs.rs for the rest)
 * and the tree walk `App::paint` (lib.rs) that adds up offsets and
 * collects draw operations in a queue.
 */
module Painting {
  import opened Results
  import opened Geometry
  import opened Constraints
  import opened Graphics
  import opened StyleDefs
  import opened Selector
  import opened Defs
  import opened Layout
  import EventDispatch

  /** The size arithmetic of a Style's `paint` stays within u32 at this size. */
  predicate ElementPaintable<V>(e: Element<V>, size: Size) {
    e.Style? ==>
      && (e.style.background.Some? ==> BackgroundFits(e.style, size))
      && (!e.style.border.size.IsEmpty() ==> BorderFits(e.style, size))
  }

  /**
   * The operations one element's `paint` pushes when its node has this size
   * and sits at `pos`: Text draws its string in white, a Box fills its own
   * configured size (not the node's), a Style draws background and border;
   * every other kind keeps the trait's default and draws nothing.
   */
  function ElementOps<V>(e: Element<V>, size: Size, pos: Point): Result<seq<GraphicOperation>>
  {
    match e
    case Text(val) => Ok([DrawText(pos, val, WHITE)])
    case Box(boxSize, color, _) => Ok([DrawRectangle(Rectangle(pos, boxSize), color)])
    case Style(d, _) => PaintOps(d, size, pos)
    case _ => Ok([])
  }

  /** One element's `paint` panics exactly when a Style's size arithmetic does not fit its node. */
  lemma ElementOpsOk<V>(e: Element<V>, size: Size, pos: Point)
    ensures ElementOps(e, size, pos).Ok? <==> ElementPaintable(e, size)
  {
    if e.Style? {
      PaintOpsShape(e.style, size, pos);
    }
  }

  /**
   * The kinds that keep the trait's default `paint` draw nothing; Text
   * draws its string once, in white, at the node's position; a Box fills
   * one rectangle of its configured size there, whatever size its node has.
   */
  lemma LeafPaints<V>(e: Element<V>, size: Size, size': Size, pos: Point)
    ensures !Paints(e) ==> ElementOps(e, size, pos) == Ok([])
    ensures e.Text? ==> ElementOps(e, size, pos) == Ok([DrawText(pos, e.val, WHITE)])
    ensures e.Box? ==> ElementOps(e, size, pos) == ElementOps(e, size', pos)
                       == Ok([DrawRectangle(Rectangle(pos, e.size), e.color)])
  {
  }

  /** `App::paint`: a node's renderer paints at origin + offset, then its subtree from there. */
  function TreeOps<V>(node: RenderNode<V>, origin: Point): Result<seq<GraphicOperation>>
    decreases node
  {
    match node
    case SingleChild(offset, size, renderer, child) =>
      var at := Shift(origin, offset);
      var own :- ElementOps(renderer, size, at);
      var below :- TreeOps(child, at);
      Ok(own + below)
    case MultiChild(offset, _, children) =>
      ChildrenOps(children, Shift(origin, offset))
    case Leaf =>
      Ok([])
  }

  /** The children of a MultiChild, painted in order from the same origin. */
  function ChildrenOps<V>(cs: seq<RenderNode<V>>, at: Point): Result<seq<GraphicOperation>>
    decreases cs
  {
    if cs == [] then Ok([])
    else
      var before :- ChildrenOps(cs[..|cs| - 1], at);
      var last :- TreeOps(cs[|cs| - 1], at);
      Ok(before + last)
  }

  /** If all the children paint, so does every prefix of them. */
  lemma {:induction false} ChildrenOpsPrefix<V>(cs: seq<RenderNode<V>>, k: nat, at: Point)
    requires k <= |cs|
    requires ChildrenOps(cs, at).Ok?
    ensures ChildrenOps(cs[..k], at).Ok?
    decreases |cs|
  {
    if k < |cs| {
      var n := |cs| - 1;
      assert cs[..n][..k] == cs[..k];
      ChildrenOpsPrefix(cs[..n], k, at);
    } else {
      assert cs[..k] == cs;
    }
  }

  /** `paint` of one element, pushing into the queue. */
  method PaintElement<V>(e: Element<V>, size: Size, pos: Point, queue: OperationQueue)
    requires ElementPaintable(e, size)
    modifies queue
    ensures queue.operations == old(queue.operations) + ElementOps(e, size, pos).value
  {
    if e.Text? {
      queue.Push(DrawText(pos, e.val, WHITE));
    } else if e.Box? {
      queue.Push(DrawRectangle(Rectangle(pos, e.size), e.color));
    } else if e.Style? {
      PaintStyle(e.style, size, pos, queue);
    }
  }

  /** `App::paint` as the source runs it: recursion on single children, a loop over multiple ones. */
  method PaintTree<V>(node: RenderNode<V>, queue: OperationQueue, origin: Point)
    requires TreeOps(node, origin).Ok?
    modifies queue
    ensures queue.operations == old(queue.operations) + TreeOps(node, origin).value
    decreases node, 1
  {
    match node {
      case SingleChild(offset, size, renderer, child) =>
        var newOffset := Shift(origin, offset);
        PaintElement(renderer, size, newOffset, queue);
        PaintTree(child, queue, newOffset);
      case MultiChild(offset, _, children) =>
        PaintChildren(children, queue, Shift(origin, offset));
      case Leaf =>
    }
  }

  /** The loop of `App::paint` over a MultiChild's children, all from the same origin. */
  method PaintChildren<V>(children: seq<RenderNode<V>>, queue: OperationQueue, at: Point)
    requires ChildrenOps(children, at).Ok?
    modifies queue
    ensures queue.operations == old(queue.operations) + ChildrenOps(children, at).value
    decreases children, 0
  {
    for i := 0 to |children|
      invariant ChildrenOps(children[..i], at).Ok?
      invariant queue.operations == old(queue.operations) + ChildrenOps(children[..i], at).value
    {
      ChildrenOpsStep(children, i, at);
      PaintTree(children[i], queue, at);
    }
    assert children[..|children|] == children;
  }

  /** One more child: the operations so far, then the child's own. */
  lemma ChildrenOpsStep<V>(cs: seq<RenderNode<V>>, i: nat, at: Point)
    requires i < |cs|
    requires ChildrenOps(cs, at).Ok?
    ensures TreeOps(cs[i], at).Ok? && ChildrenOps(cs[..i], at).Ok? && ChildrenOps(cs[..i + 1], at).Ok?
    ensures ChildrenOps(cs[..i + 1], at).value == ChildrenOps(cs[..i], at).value + TreeOps(cs[i], at).value
  {
    ChildrenOpsPrefix(cs, i + 1, at);
    assert cs[..i + 1][..i] == cs[..i];
  }

  /** Every renderer in the tree can paint at the size its node records. */
  ghost predicate Paintable<V>(node: RenderNode<V>)
    decreases node
  {
    match node
    case SingleChild(_, size, renderer, child) => ElementPaintable(renderer, size) && Paintable(child)
    case MultiChild(_, _, children) => forall c | c in children :: Paintable(c)
    case Leaf => true
  }

  /** Painting a tree faults exactly when some renderer cannot paint at its node's size. */
  lemma {:induction false} PaintableIffOk<V>(node: RenderNode<V>, origin: Point)
    ensures Paintable(node) <==> TreeOps(node, origin).Ok?
    decreases node
  {
    match node
    case SingleChild(offset, _, _, child) =>
      PaintableIffOk(child, Shift(origin, offset));
    case MultiChild(offset, _, children) =>
      ChildrenPaintableIffOk(children, Shift(origin, offset));
    case Leaf =>
  }

  lemma {:induction false} ChildrenPaintableIffOk<V>(cs: seq<RenderNode<V>>, at: Point)
    ensures (forall c | c in cs :: Paintable(c)) <==> ChildrenOps(cs, at).Ok?
    decreases cs
  {
    if cs != [] {
      var n := |cs| - 1;
      var init := cs[..n];
      ChildrenPaintableIffOk(init, at);
      PaintableIffOk(cs[n], at);
      assert cs == init + [cs[n]];
      assert (forall c | c in cs :: Paintable(c)) <==> (forall c | c in init :: Paintable(c)) && Paintable(cs[n]);
      assert ChildrenOps(cs, at).Ok? <==> ChildrenOps(init, at).Ok? && TreeOps(cs[n], at).Ok?;
    }
  }

  /** If `e` lays out, its own paint and its subtree's fit the sizes the layout recorded. */
  ghost predicate LaidOutPaintable<V>(e: Element<V>, c: Constraints, s: State<V>, fuel: nat) {
    Render(e, c, s, fuel).Ok? ==>
      ElementPaintable(e, Render(e, c, s, fuel).value.0) && Paintable(Render(e, c, s, fuel).value.1)
  }

  /**
   * A tree the layout pass produced can always be painted: every Style in
   * it is given at least its own margin, border and padding, so `paint`
   * never underflows.
   */
  lemma {:induction false} RenderedIsPaintable<V>(e: Element<V>, c: Constraints, s: State<V>, fuel: nat)
    requires Render(e, c, s, fuel).Ok?
    ensures ElementPaintable(e, Render(e, c, s, fuel).value.0)
    ensures Paintable(Render(e, c, s, fuel).value.1)
    decreases fuel, e
  {
    match e
    case Text(_) =>
    case Box(size, _, None) =>
    case Box(size, _, Some(child)) =>
      RenderedIsPaintable(child, Constraints(size, size), s, fuel);
    case Stack(items) =>
      forall i | 0 <= i < |items|
        ensures LaidOutPaintable(items[i], c, s, fuel)
      {
        if Render(items[i], c, s, fuel).Ok? {
          RenderedIsPaintable(items[i], c, s, fuel);
        }
      }
      StackIsPaintable(items, c, s, fuel);
    case Style(d, child) =>
      var added := AddedSize(d);
      RenderedIsPaintable(child, Shrink(c, added), s, fuel);
      StyleIsPaintable(d, child, c, s, fuel);
    case Align(_, child) =>
      RenderedIsPaintable(child, c, s, fuel);
    case Handler(_, child) =>
      RenderedIsPaintable(child, c, s, fuel);
    case Component(generator) =>
      RenderedIsPaintable(generator(s), c, s, fuel - 1);
    case ItemSelector(renderItem) =>
      if fuel > 0 {
        forall i | 0 <= i < |s.items|
          ensures LaidOutPaintable(renderItem(s.items[i], i == s.selector.active), c, s, fuel - 1)
        {
          var item := renderItem(s.items[i], i == s.selector.active);
          if Render(item, c, s, fuel - 1).Ok? {
            RenderedIsPaintable(item, c, s, fuel - 1);
          }
        }
      }
      ItemSelectorIsPaintable(renderItem, c, s, fuel);
  }

  /** The Stack step of `RenderedIsPaintable`: paintable items make a paintable column. */
  lemma StackIsPaintable<V>(items: seq<Element<V>>, c: Constraints, s: State<V>, fuel: nat)
    requires Render(Stack(items), c, s, fuel).Ok?
    requires forall i | 0 <= i < |items| :: LaidOutPaintable(items[i], c, s, fuel)
    ensures Paintable(Render(Stack(items), c, s, fuel).value.1)
  {
    StackLayout(items, c, s, fuel);
    ColumnLayout(items, c, s, fuel);
    var col := RenderColumn(items, c, s, fuel).value;
    forall i | 0 <= i < |items|
      ensures Paintable(col.children[i])
    {
      assert LaidOutPaintable(items[i], c, s, fuel);
    }
  }

  /** The Style step of `RenderedIsPaintable`: the Style paints at the size it reports. */
  lemma StyleIsPaintable<V>(d: StyleDefinition, child: Element<V>, c: Constraints, s: State<V>, fuel: nat)
    requires Render(Style(d, child), c, s, fuel).Ok?
    requires AddedSizeFits(d) ==> LaidOutPaintable(child, Shrink(c, AddedSize(d)), s, fuel)
    ensures ElementPaintable(Style(d, child), Render(Style(d, child), c, s, fuel).value.0)
    ensures Paintable(Render(Style(d, child), c, s, fuel).value.1)
  {
    var added := AddedSize(d);
    var r := Render(child, Shrink(c, added), s, fuel).value;
    PaintFitsRenderedSize(d, r.0, Add(r.0, added), ORIGIN);
  }

  /** The ItemSelector step of `RenderedIsPaintable`: paintable items make a paintable column. */
  lemma ItemSelectorIsPaintable<V>(renderItem: (V, bool) -> Element<V>, c: Constraints, s: State<V>, fuel: nat)
    requires Render(ItemSelector(renderItem), c, s, fuel).Ok?
    requires fuel > 0 ==> forall i | 0 <= i < |s.items| ::
               LaidOutPaintable(renderItem(s.items[i], i == s.selector.active), c, s, fuel - 1)
    ensures Paintable(Render(ItemSelector(renderItem), c, s, fuel).value.1)
  {
    ItemSelectorLayout(renderItem, c, s, fuel);
    ItemsLayout(renderItem, s.items, s.selector.active, c, s, fuel);
    var col := RenderItems(renderItem, s.items, s.selector.active, c, s, fuel).value;
    if fuel > 0 {
      forall i | 0 <= i < |s.items|
        ensures Paintable(col.children[i])
      {
        assert LaidOutPaintable(renderItem(s.items[i], i == s.selector.active), c, s, fuel - 1);
      }
    }
  }

  /** Painting what the layout pass produced never faults, wherever it is painted. */
  lemma RenderedTreePaints<V>(e: Element<V>, c: Constraints, s: State<V>, fuel: nat, origin: Point)
    requires Render(e, c, s, fuel).Ok?
    ensures TreeOps(Render(e, c, s, fuel).value.1, origin).Ok?
    ensures ElementOps(e, Render(e, c, s, fuel).value.0, origin).Ok?
  {
    RenderedIsPaintable(e, c, s, fuel);
    PaintableIffOk(Render(e, c, s, fuel).value.1, origin);
  }

  /** An element, the size of its node and the absolute position it paints at. */
  datatype Placement<!V> = Placement(renderer: Element<V>, size: Size, position: Point)

  /** The renderers of a tree in depth-first pre-order, each with its absolute position. */
  function Placements<V>(node: RenderNode<V>, origin: Point): seq<Placement<V>>
    decreases node
  {
    match node
    case SingleChild(offset, size, renderer, child) =>
      var at := Shift(origin, offset);
      [Placement(renderer, size, at)] + Placements(child, at)
    case MultiChild(offset, _, children) =>
      PlacementsOf(children, Shift(origin, offset))
    case Leaf => []
  }

  function PlacementsOf<V>(cs: seq<RenderNode<V>>, at: Point): seq<Placement<V>>
    decreases cs
  {
    if cs == [] then [] else PlacementsOf(cs[..|cs| - 1], at) + Placements(cs[|cs| - 1], at)
  }

  /** Reference definition: paint a list of placed elements one after another. */
  function PaintAll<V>(ps: seq<Placement<V>>): Result<seq<GraphicOperation>> {
    if ps == [] then Ok([])
    else
      var before :- PaintAll(ps[..|ps| - 1]);
      var p := ps[|ps| - 1];
      var last :- ElementOps(p.renderer, p.size, p.position);
      Ok(before + last)
  }

  /** Both parts' operations in order, or the first part's fault, or else the second's. */
  function Concat(a: Result<seq<GraphicOperation>>, b: Result<seq<GraphicOperation>>): Result<seq<GraphicOperation>> {
    match a
    case Err(f) => Err(f)
    case Ok(x) => match b
      case Err(g) => Err(g)
      case Ok(y) => Ok(x + y)
  }

  lemma {:induction false} PaintAllAppend<V>(a: seq<Placement<V>>, b: seq<Placement<V>>)
    ensures PaintAll(a + b) == Concat(PaintAll(a), PaintAll(b))
    decreases |b|
  {
    if b == [] {
      assert a + b == a;
      if PaintAll(a).Ok? {
        assert PaintAll(a).value + [] == PaintAll(a).value;
      }
    } else {
      var n := |b| - 1;
      var ab, init, p := a + b, b[..n], b[n];
      assert ab[..|ab| - 1] == a + init;
      assert ab[|ab| - 1] == p;
      PaintAllAppend(a, init);
      var own := ElementOps(p.renderer, p.size, p.position);
      assert PaintAll(ab) == Concat(PaintAll(a + init), own);
      assert PaintAll(b) == Concat(PaintAll(init), own);
      if PaintAll(a).Ok? && PaintAll(init).Ok? && own.Ok? {
        assert PaintAll(a).value + PaintAll(init).value + own.value
               == PaintAll(a).value + (PaintAll(init).value + own.value);
      }
    }
  }

  /** The tree walk paints the placed renderers in pre-order, each at its absolute position. */
  lemma {:induction false} TreeOpsIsPreorder<V>(node: RenderNode<V>, origin: Point)
    ensures TreeOps(node, origin) == PaintAll(Placements(node, origin))
    decreases node
  {
    match node
    case SingleChild(offset, size, renderer, child) =>
      var at := Shift(origin, offset);
      var head := [Placement(renderer, size, at)];
      TreeOpsIsPreorder(child, at);
      PaintAllAppend(head, Placements(child, at));
      assert head[..0] == [];
      assert PaintAll(head) == Concat(Ok([]), ElementOps(renderer, size, at));
      if ElementOps(renderer, size, at).Ok? {
        assert [] + ElementOps(renderer, size, at).value == ElementOps(renderer, size, at).value;
      }
    case MultiChild(offset, _, children) =>
      ChildrenOpsIsPreorder(children, Shift(origin, offset));
    case Leaf =>
  }

  lemma {:induction false} ChildrenOpsIsPreorder<V>(cs: seq<RenderNode<V>>, at: Point)
    ensures ChildrenOps(cs, at) == PaintAll(PlacementsOf(cs, at))
    decreases cs
  {
    if cs != [] {
      var n := |cs| - 1;
      ChildrenOpsIsPreorder(cs[..n], at);
      TreeOpsIsPreorder(cs[n], at);
      PaintAllAppend(PlacementsOf(cs[..n], at), Placements(cs[n], at));
    }
  }

  /** The renderers named by a list of placements, in order. */
  function RenderersIn<V>(ps: seq<Placement<V>>): (es: seq<Element<V>>)
    ensures |es| == |ps|
    ensures forall i | 0 <= i < |ps| :: es[i] == ps[i].renderer
  {
    if ps == [] then [] else RenderersIn(ps[..|ps| - 1]) + [ps[|ps| - 1].renderer]
  }

  lemma RenderersInAppend<V>(a: seq<Placement<V>>, b: seq<Placement<V>>)
    ensures RenderersIn(a + b) == RenderersIn(a) + RenderersIn(b)
  {
  }

  /**
   * Painting and event dispatch visit the same renderers in the same
   * order: what is drawn first is asked first.
   */
  lemma {:induction false} PaintOrderIsDispatchOrder<V>(node: RenderNode<V>, origin: Point)
    ensures RenderersIn(Placements(node, origin)) == EventDispatch.Renderers(node)
    decreases node
  {
    match node
    case SingleChild(offset, size, renderer, child) =>
      var at := Shift(origin, offset);
      PaintOrderIsDispatchOrder(child, at);
      RenderersInAppend([Placement(renderer, size, at)], Placements(child, at));
    case MultiChild(offset, _, children) =>
      ChildrenOrderIsDispatchOrder(children, Shift(origin, offset));
    case Leaf =>
  }

  lemma {:induction false} ChildrenOrderIsDispatchOrder<V>(cs: seq<RenderNode<V>>, at: Point)
    ensures RenderersIn(PlacementsOf(cs, at)) == EventDispatch.RenderersOf(cs)
    decreases cs
  {
    if cs != [] {
      var n := |cs| - 1;
      var init, last := cs[..n], cs[n];
      ChildrenOrderIsDispatchOrder(init, at);
      PaintOrderIsDispatchOrder(last, at);
      assert PlacementsOf(cs, at) == PlacementsOf(init, at) + Placements(last, at);
      RenderersInAppend(PlacementsOf(init, at), Placements(last, at));
      assert cs == init + [last];
      EventDispatch.RenderersOfAppend(init, [last]);
      assert [last][1..] == [];
      var own := EventDispatch.Renderers(last);
      assert EventDispatch.RenderersOf([last]) == own + [];
      assert own + [] == own;
    }
  }
}
