/** How an Align element lays out (elements/align.rs, `render`). */
module AlignElement {
  import opened Results
  import opened Geometry
  import opened Constraints
  import opened AlignDefs
  import opened Selector
  import opened Defs
  import opened Layout

  /**
   * An Align takes all the space offered (the constraints' maximum), lays
   * its child out under the same constraints, and places it by alignment;
   * it faults exactly when a centred or end-aligned child is larger than
   * that space.
   */
  lemma AlignLayout<V>(al: Alignment2D, child: Element<V>, c: Constraints, s: State<V>, fuel: nat)
    requires Render(child, c, s, fuel).Ok?
    ensures var inner := Render(child, c, s, fuel).value;
            && (Render(Align(al, child), c, s, fuel).Ok? <==> Fits(al, c.max, inner.0))
            && (Render(Align(al, child), c, s, fuel).Err? ==> Render(Align(al, child), c, s, fuel).fault == Underflow)
            && (Fits(al, c.max, inner.0) ==>
                  Render(Align(al, child), c, s, fuel).value
                  == (c.max, SingleChild(Offset(al, c.max, inner.0), inner.0, child, inner.1)))
  {
  }

  /**
   * Wherever it is aligned, the child starts inside the Align's box, and on
   * every axis not aligned to the start it also ends inside it.
   */
  lemma AlignedChildInside<V>(al: Alignment2D, child: Element<V>, c: Constraints, s: State<V>, fuel: nat)
    requires Render(Align(al, child), c, s, fuel).Ok?
    ensures var outer := Render(Align(al, child), c, s, fuel).value;
            var node := outer.1;
            && node.SingleChild?
            && 0 <= node.offset.x && 0 <= node.offset.y
            && (!al.horizontal.Start? ==> node.offset.x + node.size.width <= outer.0.width)
            && (!al.vertical.Start? ==> node.offset.y + node.size.height <= outer.0.height)
  {
  }

  /** An Align hands on its child's fault. */
  lemma AlignPropagatesFault<V>(al: Alignment2D, child: Element<V>, c: Constraints, s: State<V>, fuel: nat)
    requires Render(child, c, s, fuel).Err?
    ensures Render(Align(al, child), c, s, fuel) == Render(child, c, s, fuel)
  {
  }
}
