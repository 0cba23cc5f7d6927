/** The Component element (elements/component.rs): an element built from the state. */
module ComponentElement {
  import opened Results
  import opened Geometry
  import opened Constraints
  import opened Events
  import opened Selector
  import opened Defs
  import opened Layout
  import opened EventDispatch

  /**
   * A Component builds its element from the state it is laid out with and
   * lays that out under the same constraints; the node names the built
   * element as renderer.
   */
  lemma ComponentLayout<V>(generator: State<V> -> Element<V>, c: Constraints, s: State<V>, fuel: nat)
    requires fuel > 0
    ensures Render(Component(generator), c, s, fuel).Ok? <==> Render(generator(s), c, s, fuel - 1).Ok?
    ensures Render(generator(s), c, s, fuel - 1).Ok? ==>
              var r := Render(generator(s), c, s, fuel - 1).value;
              Render(Component(generator), c, s, fuel) == Ok((r.0, SingleChild(ORIGIN, r.0, generator(s), r.1)))
  {
  }

  /**
   * A Component answers an event as the element its generator builds from
   * the current state would; one that builds only passive elements never
   * handles anything.
   */
  lemma ComponentDelegates<V>(generator: State<V> -> Element<V>, s: State<V>, ev: Event, fuel: nat)
    ensures EventHandler(Component(generator), s, ev, fuel + 1) == EventHandler(generator(s), s, ev, fuel)
    ensures !HandlesEvents(generator(s)) ==> EventHandler(Component(generator), s, ev, fuel + 1) == Ok((s, false))
  {
  }

  /**
   * A Component nested directly in a Component is asked twice along one
   * path: once through the outer node (where it builds and asks its
   * element) and once as that element, the renderer of the node below. A
   * Handler it builds that declines therefore runs its callback twice.
   */
  lemma NestedComponentAsksTwice<V>(outer: State<V> -> Element<V>, inner: State<V> -> Element<V>,
                                    handler: (State<V>, Event) -> (State<V>, bool), child: Element<V>,
                                    c: Constraints, s: State<V>, ev: Event, fuel: nat)
    requires fuel >= 2
    requires outer(s) == Component(inner) && inner(s) == Handler(handler, child)
    requires Render(Component(outer), c, s, fuel).Ok?
    requires !handler(s, ev).1
    ensures var node := Render(Component(outer), c, s, fuel).value.1;
            && node.SingleChild? && node.renderer == Component(inner)
            && node.child.SingleChild? && node.child.renderer == Handler(handler, child)
            && Dispatch(node, s, ev, fuel) == (
                 var twice := handler(handler(s, ev).0, ev);
                 if twice.1 then Ok(twice) else Dispatch(node.child.child, twice.0, ev, fuel))
  {
  }

  /**
   * The same double ask happens wherever a Component is a node's renderer:
   * every parent (Stack, Style, Align, Handler, Box, Component) places a
   * child in a SingleChild naming the child as renderer, with the child's
   * own node below. When that child is a Component, the node below names
   * the generated element as renderer, so a declining Handler it builds
   * runs its callback once through the Component and once as itself.
   */
  lemma ComponentRendererAsksTwice<V>(generator: State<V> -> Element<V>,
                                      handler: (State<V>, Event) -> (State<V>, bool), child: Element<V>,
                                      offset: Point, size: Size,
                                      c: Constraints, s: State<V>, ev: Event, fuel: nat)
    requires fuel >= 1
    requires generator(s) == Handler(handler, child)
    requires Render(Component(generator), c, s, fuel).Ok?
    requires !handler(s, ev).1
    ensures var node := SingleChild(offset, size, Component(generator), Render(Component(generator), c, s, fuel).value.1);
            && node.child.SingleChild? && node.child.renderer == Handler(handler, child)
            && Dispatch(node, s, ev, fuel) == (
                 var twice := handler(handler(s, ev).0, ev);
                 if twice.1 then Ok(twice) else Dispatch(node.child.child, twice.0, ev, fuel))
  {
  }
}
