/**
 * The application state and the ItemSelector cursor (lib.rs, ItemSelectorState
 * and ItemSelector::event_handler). The state is concrete: a list of items and
 * the selector's cursor; the source's lookup and setter callbacks become
 * reads and a write of these two fields.
 */
module Selector {
  import opened Results
  import opened Events

  /** `ItemSelectorState`: the active index and the index chosen with the principal button. */
  datatype SelectorState = SelectorState(active: nat, selected: Option<nat>)

  /** `ItemSelectorState::default()`. */
  const INITIAL_SELECTOR: SelectorState := SelectorState(0, None)

  /** The application-owned state `S`. */
  datatype State<V> = State(items: seq<V>, selector: SelectorState)

  const UP: Event := DirectionPressed(Up)
  const DOWN: Event := DirectionPressed(Down)
  const PRINCIPAL: Event := ButtonPressed(Principal)

  /** `items.len() - 1` is evaluated only on Down and underflows on an empty list. */
  predicate DownSafe<V>(s: State<V>, ev: Event) {
    ev == DOWN ==> |s.items| > 0
  }

  /**
   * `ItemSelector::event_handler`: Up and Down move the cursor by one without
   * wrapping, Principal selects the active item; these three are consumed,
   * every other event is left alone.
   */
  function SelectorEvent<V>(s: State<V>, ev: Event): (r: (State<V>, bool))
    requires DownSafe(s, ev)
    ensures r.0.items == s.items
    ensures r.1 <==> ev == UP || ev == DOWN || ev == PRINCIPAL
    ensures !r.1 ==> r.0 == s
    ensures r.0.selector.active <= s.selector.active + 1 && s.selector.active <= r.0.selector.active + 1
    ensures r.0.selector.selected == if ev == PRINCIPAL then Some(s.selector.active) else s.selector.selected
    ensures ev == UP ==>
      r.0.selector.active == if s.selector.active > 0 then s.selector.active - 1 else s.selector.active
    ensures ev == DOWN ==>
      r.0.selector.active == if s.selector.active < |s.items| - 1 then s.selector.active + 1 else s.selector.active
    ensures ev == PRINCIPAL ==> r.0.selector.active == s.selector.active
  {
    var st := s.selector;
    match ev
    case DirectionPressed(Up) =>
      if st.active > 0 then (s.(selector := st.(active := st.active - 1)), true) else (s, true)
    case DirectionPressed(Down) =>
      if st.active < |s.items| - 1 then (s.(selector := st.(active := st.active + 1)), true) else (s, true)
    case ButtonPressed(Principal) =>
      (s.(selector := st.(selected := Some(st.active))), true)
    case _ =>
      (s, false)
  }

  /**
   * The source's steps: read a copy of the selector state, edit the copy,
   * and write it back through the setter only where the source does.
   */
  method HandleSelectorEvent<V>(state: State<V>, ev: Event) returns (newState: State<V>, handled: bool)
    requires DownSafe(state, ev)
    ensures (newState, handled) == SelectorEvent(state, ev)
  {
    newState := state;
    var elementState := state.selector;
    match ev {
      case DirectionPressed(Up) =>
        if elementState.active > 0 {
          elementState := elementState.(active := elementState.active - 1);
          newState := newState.(selector := elementState);
        }
        handled := true;
      case DirectionPressed(Down) =>
        if elementState.active < |state.items| - 1 {
          elementState := elementState.(active := elementState.active + 1);
          newState := newState.(selector := elementState);
        }
        handled := true;
      case ButtonPressed(Principal) =>
        elementState := elementState.(selected := Some(elementState.active));
        newState := newState.(selector := elementState);
        handled := true;
      case _ =>
        handled := false;
    }
  }

  /** The cursor state is valid: `active`, and `selected` when set, index the list. */
  predicate CursorValid<V>(s: State<V>) {
    && s.selector.active < |s.items|
    && (s.selector.selected.Some? ==> s.selector.selected.value < |s.items|)
  }

  /** Every event keeps a valid cursor valid. */
  lemma EventKeepsCursorValid<V>(s: State<V>, ev: Event)
    requires CursorValid(s)
    ensures DownSafe(s, ev) && CursorValid(SelectorEvent(s, ev).0)
  {
  }

  /** The ends of the list do not wrap around, and the event still counts as handled. */
  lemma NoWrapAround<V>(s: State<V>)
    ensures s.selector.active == 0 ==> SelectorEvent(s, UP) == (s, true)
    ensures |s.items| > 0 && s.selector.active >= |s.items| - 1 ==> SelectorEvent(s, DOWN) == (s, true)
  {
  }

  /** Up undoes Down away from the last item, and Down undoes Up away from the first. */
  lemma UpDownInverse<V>(s: State<V>)
    requires CursorValid(s)
    ensures s.selector.active < |s.items| - 1 ==> SelectorEvent(SelectorEvent(s, DOWN).0, UP).0 == s
    ensures 0 < s.selector.active ==> SelectorEvent(SelectorEvent(s, UP).0, DOWN).0 == s
  {
  }

  /**
   * Three items, starting from the default cursor: Down moves to 1, then 2,
   * then stays at 2; Principal then selects 2 and Up still moves the cursor.
   */
  lemma ThreeItemWalk<V>(a: V, b: V, c: V)
    ensures var s0 := State([a, b, c], INITIAL_SELECTOR);
            var s1 := SelectorEvent(s0, DOWN).0;
            var s2 := SelectorEvent(s1, DOWN).0;
            var s3 := SelectorEvent(s2, DOWN).0;
            var s4 := SelectorEvent(s3, PRINCIPAL).0;
            var s5 := SelectorEvent(s4, UP).0;
            && s1.selector.active == 1
            && s2.selector.active == 2
            && s3 == s2
            && s4.selector == SelectorState(2, Some(2))
            && s5.selector == SelectorState(1, Some(2))
  {
  }
}
