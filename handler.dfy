/** The Handler element (elements/handler.rs): transparent to layout, a callback for events. */
module HandlerElement {
  import opened Results
  import opened Geometry
  import opened Constraints
  import opened Events
  import opened Selector
  import opened Defs
  import opened Layout
  import opened EventDispatch

  /**
   * A Handler has its child's size and layout; the node it produces names
   * the child, not the Handler, as renderer, so its own callback is only
   * asked where the Handler is itself some node's renderer.
   */
  lemma HandlerIsTransparent<V>(handler: (State<V>, Event) -> (State<V>, bool), child: Element<V>,
                                c: Constraints, s: State<V>, fuel: nat)
    ensures Render(Handler(handler, child), c, s, fuel).Ok? <==> Render(child, c, s, fuel).Ok?
    ensures Render(child, c, s, fuel).Ok? ==>
              var r := Render(child, c, s, fuel).value;
              Render(Handler(handler, child), c, s, fuel) == Ok((r.0, SingleChild(ORIGIN, r.0, child, r.1)))
    ensures Render(Handler(handler, child), c, s, fuel).Ok? ==>
              Render(Handler(handler, child), c, s, fuel).value.1.renderer == child
  {
  }

  /**
   * A Handler that is a node's renderer is asked first: its verdict and its
   * state stand when it handles the event, and the subtree below is then
   * never visited.
   */
  lemma HandlerAnswersFirst<V>(handler: (State<V>, Event) -> (State<V>, bool), child: Element<V>,
                               size: Size, below: RenderNode<V>, s: State<V>, ev: Event, fuel: nat)
    requires handler(s, ev).1
    ensures Dispatch(SingleChild(ORIGIN, size, Handler(handler, child), below), s, ev, fuel) == Ok(handler(s, ev))
  {
  }

  /**
   * A Handler that declines hands on whatever state its callback left: the
   * subtree is asked with that state.
   */
  lemma DeclinedStateFlowsOn<V>(handler: (State<V>, Event) -> (State<V>, bool), child: Element<V>,
                                size: Size, below: RenderNode<V>, s: State<V>, ev: Event, fuel: nat)
    requires !handler(s, ev).1
    ensures Dispatch(SingleChild(ORIGIN, size, Handler(handler, child), below), s, ev, fuel)
            == Dispatch(below, handler(s, ev).0, ev, fuel)
  {
  }
}
