/**
 * Event dispatch: each element kind's `event_handler` (lib.rs for the
 * ItemSelector, handler.rs, component.rs, and the `ElementTrait` default
 * in defs.rs) and the render-tree walk `handle_event_recursive` (lib.rs).
 *
 * The state is threaded through every step: a handler may change it and
 * still report the event as not handled, and the next handler asked sees
 * the changed state.
 */
module EventDispatch {
  import opened Results
  import opened Events
  import opened Selector
  import opened Defs

  type Outcome<!V> = Result<(State<V>, bool)>

  /**
   * One element's `event_handler`: a Handler runs its callback; a
   * Component asks the element its generator builds from the current
   * state; an ItemSelector moves or commits its cursor; every other kind
   * keeps the trait's default and declines.
   */
  function EventHandler<V>(e: Element<V>, s: State<V>, ev: Event, fuel: nat): (r: Outcome<V>)
    ensures !HandlesEvents(e) ==> r == Ok((s, false))
    ensures e.Handler? ==> r == Ok(e.handler(s, ev))
    ensures e.ItemSelector? ==> r == (if DownSafe(s, ev) then Ok(SelectorEvent(s, ev)) else Err(Underflow))
    decreases fuel
  {
    match e
    case Handler(handler, _) => Ok(handler(s, ev))
    case Component(generator) =>
      if fuel == 0 then Err(Diverged) else EventHandler(generator(s), s, ev, fuel - 1)
    case ItemSelector(_) =>
      if !DownSafe(s, ev) then Err(Underflow) else Ok(SelectorEvent(s, ev))
    case _ => Ok((s, false))
  }

  /**
   * `handle_event_recursive`: a SingleChild asks its renderer first and
   * descends only if the renderer declined; a MultiChild asks its children
   * in order until one handles the event; a leaf declines.
   */
  function Dispatch<V>(node: RenderNode<V>, s: State<V>, ev: Event, fuel: nat): Outcome<V>
    decreases node
  {
    match node
    case SingleChild(_, _, renderer, child) =>
      var r :- EventHandler(renderer, s, ev, fuel);
      if r.1 then Ok((r.0, true)) else Dispatch(child, r.0, ev, fuel)
    case MultiChild(_, _, children) =>
      DispatchAny(children, s, ev, fuel)
    case Leaf =>
      Ok((s, false))
  }

  /** `Iterator::any` over the children: stops at the first child that handles the event. */
  function DispatchAny<V>(cs: seq<RenderNode<V>>, s: State<V>, ev: Event, fuel: nat): Outcome<V>
    decreases cs
  {
    if cs == [] then Ok((s, false))
    else
      var r :- Dispatch(cs[0], s, ev, fuel);
      if r.1 then Ok((r.0, true)) else DispatchAny(cs[1..], r.0, ev, fuel)
  }

  /** The renderers of a tree in depth-first pre-order: a node's renderer before its subtree. */
  function Renderers<V>(node: RenderNode<V>): seq<Element<V>>
    decreases node
  {
    match node
    case SingleChild(_, _, renderer, child) => [renderer] + Renderers(child)
    case MultiChild(_, _, children) => RenderersOf(children)
    case Leaf => []
  }

  function RenderersOf<V>(cs: seq<RenderNode<V>>): seq<Element<V>>
    decreases cs
  {
    if cs == [] then [] else Renderers(cs[0]) + RenderersOf(cs[1..])
  }

  /**
   * Reference definition: ask the elements one after another, threading
   * the state, until one handles the event.
   */
  function AskInOrder<V>(es: seq<Element<V>>, s: State<V>, ev: Event, fuel: nat): Outcome<V>
  {
    if es == [] then Ok((s, false))
    else
      var r :- EventHandler(es[0], s, ev, fuel);
      if r.1 then Ok((r.0, true)) else AskInOrder(es[1..], r.0, ev, fuel)
  }

  /** What asking `rest` after an outcome gives: a fault or a handled event ends the walk. */
  function AndThen<V>(first: Outcome<V>, rest: seq<Element<V>>, ev: Event, fuel: nat): Outcome<V> {
    match first
    case Err(f) => Err(f)
    case Ok((s, handled)) => if handled then Ok((s, true)) else AskInOrder(rest, s, ev, fuel)
  }

  /** Asking a concatenation is asking the first part, then the second if nobody handled it. */
  lemma {:induction false} AskAppend<V>(a: seq<Element<V>>, b: seq<Element<V>>, s: State<V>, ev: Event, fuel: nat)
    ensures AskInOrder(a + b, s, ev, fuel) == AndThen(AskInOrder(a, s, ev, fuel), b, ev, fuel)
    decreases |a|
  {
    if a == [] {
      assert a + b == b;
    } else {
      assert (a + b)[0] == a[0];
      assert (a + b)[1..] == a[1..] + b;
      var r := EventHandler(a[0], s, ev, fuel);
      if r.Ok? && !r.value.1 {
        AskAppend(a[1..], b, r.value.0, ev, fuel);
      }
    }
  }

  /**
   * The tree walk is a depth-first pre-order traversal: it is exactly
   * asking the tree's renderers in pre-order until one handles the event.
   */
  lemma {:induction false} DispatchIsPreorder<V>(node: RenderNode<V>, s: State<V>, ev: Event, fuel: nat)
    ensures Dispatch(node, s, ev, fuel) == AskInOrder(Renderers(node), s, ev, fuel)
    decreases node
  {
    match node
    case SingleChild(_, _, renderer, child) =>
      var rs := [renderer] + Renderers(child);
      assert rs[0] == renderer && rs[1..] == Renderers(child);
      var r := EventHandler(renderer, s, ev, fuel);
      if r.Ok? && !r.value.1 {
        DispatchIsPreorder(child, r.value.0, ev, fuel);
      }
    case MultiChild(_, _, children) =>
      DispatchAnyIsPreorder(children, s, ev, fuel);
    case Leaf =>
  }

  lemma {:induction false} DispatchAnyIsPreorder<V>(cs: seq<RenderNode<V>>, s: State<V>, ev: Event, fuel: nat)
    ensures DispatchAny(cs, s, ev, fuel) == AskInOrder(RenderersOf(cs), s, ev, fuel)
    decreases cs
  {
    if cs != [] {
      DispatchIsPreorder(cs[0], s, ev, fuel);
      AskAppend(Renderers(cs[0]), RenderersOf(cs[1..]), s, ev, fuel);
      var r := Dispatch(cs[0], s, ev, fuel);
      if r.Ok? && !r.value.1 {
        DispatchAnyIsPreorder(cs[1..], r.value.0, ev, fuel);
      }
    }
  }

  /** Every renderer in the tree keeps the default handler. */
  ghost predicate Passive<V>(node: RenderNode<V>) {
    forall e | e in Renderers(node) :: !HandlesEvents(e)
  }

  /** Asking only elements that keep the default handler leaves the event unhandled and the state alone. */
  lemma {:induction false} PassiveElementsDecline<V>(es: seq<Element<V>>, s: State<V>, ev: Event, fuel: nat)
    requires forall e | e in es :: !HandlesEvents(e)
    ensures AskInOrder(es, s, ev, fuel) == Ok((s, false))
  {
    if es != [] {
      assert es[0] in es;
      PassiveElementsDecline(es[1..], s, ev, fuel);
    }
  }

  /** A tree of text, boxes, stacks, styles and alignments never handles an event. */
  lemma PassiveTreeDeclines<V>(node: RenderNode<V>, s: State<V>, ev: Event, fuel: nat)
    requires Passive(node)
    ensures Dispatch(node, s, ev, fuel) == Ok((s, false))
  {
    DispatchIsPreorder(node, s, ev, fuel);
    PassiveElementsDecline(Renderers(node), s, ev, fuel);
  }

  /**
   * First handler wins: once the children up to some point handle the
   * event, the children after them are never asked.
   */
  lemma FirstChildToHandleWins<V>(a: seq<RenderNode<V>>, b: seq<RenderNode<V>>, s: State<V>, ev: Event, fuel: nat)
    requires DispatchAny(a, s, ev, fuel).Ok? && DispatchAny(a, s, ev, fuel).value.1
    ensures DispatchAny(a + b, s, ev, fuel) == DispatchAny(a, s, ev, fuel)
  {
    RenderersOfAppend(a, b);
    DispatchAnyIsPreorder(a, s, ev, fuel);
    DispatchAnyIsPreorder(a + b, s, ev, fuel);
    AskAppend(RenderersOf(a), RenderersOf(b), s, ev, fuel);
  }

  lemma {:induction false} RenderersOfAppend<V>(a: seq<RenderNode<V>>, b: seq<RenderNode<V>>)
    ensures RenderersOf(a + b) == RenderersOf(a) + RenderersOf(b)
    decreases |a|
  {
    if a == [] {
      assert a + b == b;
    } else {
      assert (a + b)[0] == a[0];
      assert (a + b)[1..] == a[1..] + b;
      RenderersOfAppend(a[1..], b);
    }
  }

  /**
   * The renderer of a SingleChild is asked before its subtree: if it
   * handles the event, the subtree is never visited.
   */
  lemma RendererBeforeSubtree<V>(offset: Geometry.Point, size: Geometry.Size, renderer: Element<V>,
                                 child: RenderNode<V>, child': RenderNode<V>, s: State<V>, ev: Event, fuel: nat)
    requires EventHandler(renderer, s, ev, fuel).Ok? && EventHandler(renderer, s, ev, fuel).value.1
    ensures Dispatch(SingleChild(offset, size, renderer, child), s, ev, fuel)
            == Dispatch(SingleChild(offset, size, renderer, child'), s, ev, fuel)
            == Ok((EventHandler(renderer, s, ev, fuel).value.0, true))
  {
  }
}
