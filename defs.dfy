/**
 * The element capability and the render tree (defs.rs). The source's
 * `ElementTrait` objects become one closed datatype, one constructor per
 * element kind; the callbacks (`fn` pointers) become function values.
 */
module Defs {
  import opened Results
  import opened Geometry
  import opened Events
  import opened StyleDefs
  import opened AlignDefs
  import opened Selector

  datatype Element<!V> =
    | Text(val: string)
    | Box(size: Size, color: Color, content: Option<Element<V>>)
    | Stack(items: seq<Element<V>>)
    | Style(style: StyleDefinition, child: Element<V>)
    | Align(alignment: Alignment2D, child: Element<V>)
    | Handler(handler: (State<V>, Event) -> (State<V>, bool), child: Element<V>)
    | Component(generator: State<V> -> Element<V>)
    | ItemSelector(renderItem: (V, bool) -> Element<V>)

  /**
   * `RenderNode`. The `renderer` of a SingleChild is the element laid out
   * at that node (the child of the element that built the node), so an
   * element is painted and asked for events through its parent's node.
   */
  datatype RenderNode<!V> =
    | SingleChild(offset: Point, size: Size, renderer: Element<V>, child: RenderNode<V>)
    | MultiChild(offset: Point, size: Size, children: seq<RenderNode<V>>)
    | Leaf

  /** What `render` returns: the element's own size and its node. */
  type Rendered<!V> = (Size, RenderNode<V>)

  /** The kinds that override the trait's default `event_handler`. */
  predicate HandlesEvents<V>(e: Element<V>) {
    e.Handler? || e.Component? || e.ItemSelector?
  }

  /** The kinds that override the trait's default (empty) `paint`. */
  predicate Paints<V>(e: Element<V>) {
    e.Text? || e.Box? || e.Style?
  }
}
