/**
 * The application runner (lib.rs, `App` and its `Runner` implementation):
 * it owns the state, the root Component, the tree from the last layout and
 * the graphics endpoint; it lays the root out when created, sends events
 * down the last tree, lays out again when an event was handled, and paints
 * the last tree into the endpoint.
 */
module Runner {
  import opened Results
  import opened Geometry
  import opened Constraints
  import opened Events
  import opened Graphics
  import opened Selector
  import opened Defs
  import opened Layout
  import opened EventDispatch
  import opened Painting

  class App<V> {
    /** The root element: a Component around the generator `App::new` is given. */
    const root: Element<V>
    /** The space the root is always laid out in: `Constraints::up_to(inital_size)`. */
    const initialSize: Size
    /** How deep generated elements may nest (see module Layout). */
    const fuel: nat
    const endpoint: Endpoint

    var state: State<V>
    var lastRenderTree: RenderNode<V>
    /** The state the last tree was laid out from. */
    ghost var shown: State<V>

    /** The last tree is the root's layout, in the full space, of the state it was laid out from. */
    ghost predicate Valid()
      reads this
    {
      && root.Component?
      && Render(root, UpTo(initialSize), shown, fuel).Ok?
      && lastRenderTree == Render(root, UpTo(initialSize), shown, fuel).value.1
    }

    /**
     * `App::new`: wrap the generator in a Component and lay it out once from
     * the initial state (the source's `S::default()`, a parameter here).
     */
    constructor(generator: State<V> -> Element<V>, initialSize: Size, fuel: nat, endpoint: Endpoint,
                initial: State<V>)
      requires Render(Component(generator), UpTo(initialSize), initial, fuel).Ok?
      ensures Valid()
      ensures root == Component(generator) && this.initialSize == initialSize && this.fuel == fuel
      ensures this.endpoint == endpoint && state == initial && shown == initial
    {
      var root := Component(generator);
      this.root := root;
      this.initialSize := initialSize;
      this.fuel := fuel;
      this.endpoint := endpoint;
      state := initial;
      shown := initial;
      lastRenderTree := Render(root, UpTo(initialSize), initial, fuel).value.1;
    }

    /**
     * `handle_event_recursive`: ask a SingleChild's renderer, then its child
     * unless the renderer handled the event; ask a MultiChild's children in
     * order until one handles it (`Iterator::any`). Each handler works on
     * the app's state in place. `Err` is where the source would panic.
     */
    method HandleEventRecursive(ev: Event, node: RenderNode<V>) returns (r: Result<bool>)
      modifies this`state
      ensures r.Ok? ==> Dispatch(node, old(state), ev, fuel) == Ok((state, r.value))
      ensures r.Err? ==> Dispatch(node, old(state), ev, fuel) == Err(r.fault)
      decreases node
    {
      match node {
        case SingleChild(_, _, renderer, child) =>
          var answer := EventHandler(renderer, state, ev, fuel);
          if answer.Err? {
            return Err(answer.fault);
          }
          state := answer.value.0;
          if answer.value.1 {
            return Ok(true);
          }
          r := HandleEventRecursive(ev, child);
        case MultiChild(_, _, children) =>
          var i := 0;
          while i < |children|
            invariant 0 <= i <= |children|
            invariant DispatchAny(children, old(state), ev, fuel) == DispatchAny(children[i..], state, ev, fuel)
          {
            assert children[i..][1..] == children[i + 1..];
            var handled := HandleEventRecursive(ev, children[i]);
            if handled.Err? {
              return Err(handled.fault);
            }
            if handled.value {
              return Ok(true);
            }
            i := i + 1;
          }
          r := Ok(false);
        case Leaf =>
          r := Ok(false);
      }
    }

    /**
     * `Runner::handle_event`: send the event down the last tree; if some
     * element handled it, lay the root out again from the new state,
     * otherwise keep the old tree. A handler that declined may still have
     * changed the state, and that change is kept either way.
     */
    method HandleEvent(ev: Event) returns (r: Result<bool>)
      requires Valid()
      modifies this`state, this`lastRenderTree, this`shown
      ensures var d := Dispatch(old(lastRenderTree), old(state), ev, fuel);
        && (d.Err? ==> r == Err(d.fault))
        && (d.Ok? ==> state == d.value.0)
        && (d.Ok? && !d.value.1 ==>
              r == Ok(false) && lastRenderTree == old(lastRenderTree) && shown == old(shown))
        && (d.Ok? && d.value.1 ==>
              var t := Render(root, UpTo(initialSize), state, fuel);
              && (t.Ok? ==> r == Ok(true) && lastRenderTree == t.value.1 && shown == state)
              && (t.Err? ==> r == Err(t.fault)))
      ensures r.Ok? ==> Valid()
    {
      var tree := lastRenderTree;
      var handled := HandleEventRecursive(ev, tree);
      if handled.Err? {
        return Err(handled.fault);
      }
      if handled.value {
        var t := Render(root, UpTo(initialSize), state, fuel);
        if t.Err? {
          return Err(t.fault);
        }
        lastRenderTree := t.value.1;
        shown := state;
        r := Ok(true);
      } else {
        r := Ok(false);
      }
    }

    /**
     * `Runner::draw`: paint the last tree from the origin into a fresh queue
     * and hand the queue to the endpoint. Painting a laid-out tree never
     * faults, so the endpoint receives exactly the tree's operations.
     */
    method Draw()
      requires Valid()
      modifies endpoint
      ensures TreeOps(lastRenderTree, ORIGIN).Ok?
      ensures endpoint.drawn == old(endpoint.drawn) + TreeOps(lastRenderTree, ORIGIN).value
    {
      var tree := lastRenderTree;
      RenderedTreePaints(root, UpTo(initialSize), shown, fuel, ORIGIN);
      var queue := new OperationQueue();
      PaintTree(tree, queue, ORIGIN);
      assert queue.operations == TreeOps(tree, ORIGIN).value;
      endpoint.DrawQueue(queue);
    }
  }
}
