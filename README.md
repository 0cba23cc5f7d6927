# manrf layout, render tree and event dispatch, in Dafny

This project models the core of `manrf`, a small retained-mode UI crate for
embedded displays. The crate works in three steps:

- **Layout.** An element tree (Text, Box, Stack, Style, Align, Handler,
  Component, ItemSelector) is laid out top-down under box `Constraints`
  (a minimum and a maximum `Size` of u32 extents). Each element returns its own
  size and a `RenderNode`.
- **Painting.** The render tree is walked depth-first. Each node's `renderer`
  paints at the offset accumulated down the path, and pushes draw operations
  into a `GraphicOperationQueue`. A graphics endpoint then replays the queue.
- **Events.** Input events are sent down the *last* render tree. A node's
  renderer is asked before its subtree, and a list of children is asked in
  order until one handles the event. A handled event re-runs layout on the
  mutated application state.

The elements are one closed datatype, `Defs.Element`. The source's callbacks
become function values:

- a Component's generator;
- a Handler's handler;
- an ItemSelector's item renderer.

The application state is concrete: `Selector.State`, a list of items plus the
ItemSelector cursor (`active`, `selected`). The ItemSelector's lookup and
setter callbacks become a read and a write of those fields. A generator
receives the state as a value, so building a subtree cannot change the state.

The model has these parts:

- Pure code is written as functions with lemmas about them:
  - `Constraints`, `EdgeInsets`;
  - the Style geometry;
  - every element's `render` (`Layout.Render`) and `event_handler`
    (`EventDispatch.EventHandler`);
  - the dispatch walk (`EventDispatch.Dispatch`).
- Imperative code is written as methods proved equal to those functions:
  - the loops in `Stack::render` and `ItemSelector::render`;
  - the copy-edit-write of the ItemSelector's event handler;
  - `Style::paint`;
  - `App::paint`.
- The queue, the endpoint and the `App` runner are classes whose methods
  update their fields.

Every u32 addition or subtraction that panics in a debug build is a checked
step. It yields `Err(Overflow)` or `Err(Underflow)` where the source panics.
How deeply generated elements may nest is bounded by a `fuel` parameter:
running out is `Err(Diverged)`.

Main results:

- **Layout.**
  - Stack and ItemSelector children are stacked at `(0, height so far)`.
  - A Style is exactly its child plus margin, border and padding.
  - An Align takes the whole maximum and places its child by alignment.
- **Painting.**
  - A tree produced by layout always paints without a fault (`Painting.RenderedIsPaintable`).
  - Painting is a pre-order walk that places each renderer at its absolute
    position (`Painting.TreeOpsIsPreorder`).
  - Painting and event dispatch visit the same renderers in the same order
    (`Painting.PaintOrderIsDispatchOrder`).
- **Events.** Dispatch is exactly "ask the renderers in pre-order until one
  handles the event" (`EventDispatch.DispatchIsPreorder`).
- **App.** The runner's `last_render_tree` is always the layout of the root
  under `up_to(inital_size)`, for the state it was last laid out from
  (`Runner.App.Valid`).

Behaviour of the code worth knowing:

- **Declining handlers keep their state changes.** A Handler's callback
  receives `&mut S` and may change the state while still returning `false`.
  The next element asked sees the changed state. If no element handles the
  event, the tree is put back, but the change stays (`HandlerElement.DeclinedStateFlowsOn`).
  So an unhandled event can still leave the state changed.
- **Layout does not keep content inside the space budget.**
  - `shrink` raises only the minimum, and a Style adds its insets without
    clamping, so a Style can be larger than the maximum it was offered
    (`StyleElement.StyleCanExceedMax`).
  - A Box reports its configured size whatever the constraints (`Layout.BoxLayout`).
- **Down on an empty ItemSelector is not a no-op.** `items.len() - 1`
  underflows (lib.rs:225). The model returns `Err(Underflow)` for it.
- **Align with an oversized child panics.** A Center or End child larger than
  the maximum makes `size - child_size` underflow (`AlignElement.AlignLayout`).
- **Some elements are asked twice, or never.**
  - The root Component is never itself asked for events or painted: the
    top node names the element it generated as renderer.
  - A Component that is any node's renderer (inside a Stack, Style, Align,
    Handler, Box or Component) is asked twice on one path: once as itself,
    delegating to the element it generates, and once more through that
    element, the renderer of the node below
    (`ComponentElement.ComponentRendererAsksTwice`,
    `ComponentElement.NestedComponentAsksTwice`).

## Model

| member | source | states |
|---|---|---|
| Constraints.UpTo | manrf/src/utils/constraints.rs:10-18 | the minimum is zero and the maximum is the given size |
| Constraints.ShrinkSpec | manrf/src/utils/constraints.rs:20-28 | shrink keeps max, and raises each min extent by the reserved amount. An extent that would pass u32::MAX saturates at u32::MAX and never wraps |
| Constraints.ShrinkByZero | manrf/src/utils/constraints.rs:20-28 | shrinking by a zero size changes nothing |
| Constraints.ClampSpec | manrf/src/utils/constraints.rs:30-35 | the result is at most max on each axis. It is at least min where min <= max, and exactly max where min > max. An extent already inside [min, max] is unchanged |
| Constraints.ClampIdempotent | manrf/src/utils/constraints.rs:30-35 | clamping twice is clamping once |
| EdgeInsets.New | manrf/src/utils/edge_insets.rs:12-19 | each argument lands in the field of the same name despite the shuffled literal |
| EdgeInsets.All | manrf/src/utils/edge_insets.rs:21-28 | all four sides equal the argument |
| EdgeInsets.Symmetric | manrf/src/utils/edge_insets.rs:30-37 | top = bottom = vertical and left = right = horizontal |
| EdgeInsets.FromTop | manrf/src/utils/edge_insets.rs:39-46 | only the top side is set |
| EdgeInsets.FromBottom | manrf/src/utils/edge_insets.rs:48-55 | only the bottom side is set |
| EdgeInsets.FromLeft | manrf/src/utils/edge_insets.rs:57-64 | only the left side is set |
| EdgeInsets.FromRight | manrf/src/utils/edge_insets.rs:66-73 | only the right side is set |
| EdgeInsets.ConstructorSizes | manrf/src/utils/edge_insets.rs:21-85 | all(n) is 2n by 2n and symmetric(v, h) is 2h by 2v, whenever twice each argument fits a u32 (size() panics otherwise) |
| EdgeInsets.SideConstructorSizes | manrf/src/utils/edge_insets.rs:39-93 | for every u32 n, from_*(n).size() never overflows: it is n on the side's own axis and 0 on the other. Only from_top and from_left shift the top-left offset |
| EdgeInsets.EmptyIsAllZero | manrf/src/utils/edge_insets.rs:87-93 | is_empty holds exactly for all(0). Empty insets take no space and shift nothing |
| EdgeInsets.EmptyIffNoSize | manrf/src/utils/edge_insets.rs:83-89 | insets are empty exactly when their size is zero, in both directions |
| StyleDefs.NoBorder | manrf/src/elements/style.rs:15-20 | the border is black and every side has zero width |
| StyleDefs.AddedSize | manrf/src/elements/style.rs:70-72 | the width is the sum of margin, border and padding left and right. The height is the same sum for top and bottom |
| StyleDefs.ChildOffset | manrf/src/elements/style.rs:74-78 | the child starts past the left and top margin, border and padding |
| StyleDefs.BackgroundSize | manrf/src/elements/style.rs:84-86 | the background plus margin and border fills the node on each axis |
| StyleDefs.BorderSize | manrf/src/elements/style.rs:92-94 | the border box plus margin fills the node on each axis |
| StyleDefs.PaintOpsShape | manrf/src/elements/style.rs:115-171 | paint faults exactly when a background or a non-empty border does not fit the node. Otherwise it pushes the background rectangle first (if any) and the four border strips last (unless the border is empty) |
| StyleDefs.PaintOpsValue | manrf/src/elements/style.rs:115-171 | the pushed operations are the background (if any) followed by the strips (if the border is not empty) |
| StyleDefs.PaintStyle | manrf/src/elements/style.rs:115-171 | the queue grows by exactly the operations PaintOps lists, in order |
| StyleDefs.PaintBorder | manrf/src/elements/style.rs:122-170 | the queue grows by the left, right, top and bottom strips, in that order |
| StyleDefs.BorderStripsHugEdges | manrf/src/elements/style.rs:122-170 | there are four strips in the border colour. Left and top start at the border box's corner. Right ends at its right edge and bottom at its bottom edge. Each strip is as thick as its side and as long as the box |
| StyleDefs.PaintFitsRenderedSize | manrf/src/elements/style.rs:80-94 | at child + added size, paint never faults. The background is the child plus padding and starts where the padding starts. The border box is the child plus padding and border |
| StyleDefs.BackgroundOnlyRect | manrf/src/elements/style.rs:116-121 | with no margin and no border, the background rectangle is the whole node |
| StyleDefs.BackgroundOnlyOps | manrf/src/elements/style.rs:115-171 | with no insets, a Style with a background paints exactly one rectangle over its node |
| AlignDefs.AxisOffsetSpec | manrf/src/elements/align.rs:30-39 | Start is 0 and End is flush with the far edge. Center leaves gaps that differ by at most one, the larger one after. A Center or End child never sticks out |
| AlignDefs.CenterIsUnique | manrf/src/elements/align.rs:32-37 | the integer-halved centre is the only offset with such gaps |
| AlignDefs.AxesAreIndependent | manrf/src/elements/align.rs:30-43 | horizontal alignment moves only x and vertical alignment only y |
| AlignElement.AlignLayout | manrf/src/elements/align.rs:27-49 | an Align is constraints.max in size. Its child is laid out under the same constraints. The node holds the child's size and offset with the child as renderer. It faults (Underflow) exactly when a Center or End child exceeds max |
| AlignElement.AlignedChildInside | manrf/src/elements/align.rs:30-47 | the child starts inside the Align's box, and ends inside it on every axis not aligned to Start |
| AlignElement.AlignPropagatesFault | manrf/src/elements/align.rs:28-28 | a fault in the child's layout is the Align's fault |
| Selector.SelectorEvent | manrf/src/lib.rs:213-238 | the items are unchanged. Exactly Up, Down and Principal are handled. An unhandled event changes nothing. Up moves the cursor back by one unless it is at 0. Down moves it forward by one unless it is at the last item. Principal keeps the cursor and selects the active item |
| Selector.HandleSelectorEvent | manrf/src/lib.rs:213-238 | the copy-edit-write steps give the same state and verdict as SelectorEvent |
| Selector.EventKeepsCursorValid | manrf/src/lib.rs:216-236 | a cursor inside the list stays inside it after any event, and Down is then safe |
| Selector.NoWrapAround | manrf/src/lib.rs:216-230 | Up at 0 and Down at the last item change nothing and still count as handled |
| Selector.UpDownInverse | manrf/src/lib.rs:216-230 | away from the ends, Up undoes Down and Down undoes Up |
| Selector.ThreeItemWalk | manrf/src/lib.rs:216-236 | a walk over three items: Down, Down, Down stops at 2. Principal selects 2. Up moves to 1 and keeps the selection |
| Layout.StackRender | manrf/src/lib.rs:35-74 | the running sum and max_cross loop gives exactly the Stack's layout, or its fault |
| Layout.ItemSelectorRender | manrf/src/lib.rs:185-211 | the loop over the items gives exactly the ItemSelector's layout, or its fault |
| Layout.PlaceKeepsStacked | manrf/src/lib.rs:45-51 | placing a child at (0, height so far) keeps a column stacked |
| Layout.ColumnFaultPersists | manrf/src/lib.rs:41-59 | once some items fault, the whole Stack faults the same way |
| Layout.ItemsFaultPersists | manrf/src/lib.rs:190-202 | once some items fault, the whole ItemSelector faults the same way |
| Layout.ColumnLayout | manrf/src/lib.rs:35-65 | every item is laid out under the Stack's own constraints. Item i's node is at (0, total height of items before it), with the item as renderer and the item's size. The column is the widest item by the total height |
| Layout.ItemsLayout | manrf/src/lib.rs:190-202 | item i is built with is_active iff i == active and laid out under the selector's constraints. It is stacked like a Stack's items |
| Layout.StackLayout | manrf/src/lib.rs:61-73 | a Stack's size is the clamp of (widest item, total height). Its node is a MultiChild of the stacked items |
| Layout.ItemSelectorLayout | manrf/src/lib.rs:203-210 | an ItemSelector's size is (widest item, total height), not clamped |
| Layout.BoxLayout | manrf/src/lib.rs:89-112 | a Box ignores its constraints and reports its configured size. Without content its node is a Leaf. With content, the content is laid out under min = max = that size, and the node is a SingleChild at zero offset with the content's size, the content as renderer and the content's node below |
| Layout.TextLayout | manrf/src/lib.rs:140-145 | Text reports clamp(6 per character by 10) and has no children |
| Layout.TextWidthCast | manrf/src/lib.rs:140-145 | for every string, the length is cast to u32 (modulo 2^32) and multiplied by 6. Text faults (Overflow) exactly when that product leaves u32, for instance whenever 6 * len lies above u32::MAX and len itself fits a u32. Otherwise it is the clamp of that width by 10 |
| Layout.StackOfThreeBoxes | manrf/src/lib.rs:35-74 | boxes 5, 8 and 3 wide and 10 high make an 8 by 30 Stack with children at y = 0, 10 and 20 |
| EventDispatch.EventHandler | manrf/src/defs.rs:12-14 | every element's `event_handler`: the trait default at defs.rs:12-14, Handler at elements/handler.rs:31-33, Component at elements/component.rs:31-37 and ItemSelector at lib.rs:213-238. Kinds keeping the trait default decline and leave the state alone. A Handler answers with its callback. An ItemSelector answers with its cursor step, and faults on Down over no items |
| EventDispatch.AskAppend | manrf/src/lib.rs:294-296 | asking a concatenation is asking the first part, then the second part if nobody handled the event |
| EventDispatch.DispatchIsPreorder | manrf/src/lib.rs:273-299 | the tree walk asks exactly the renderers in depth-first pre-order until one handles the event |
| EventDispatch.DispatchAnyIsPreorder | manrf/src/lib.rs:290-296 | asking a MultiChild's children is asking their renderers in pre-order |
| EventDispatch.PassiveElementsDecline | manrf/src/defs.rs:12-14 | elements that keep the default handler never handle anything and never change the state |
| EventDispatch.PassiveTreeDeclines | manrf/src/defs.rs:12-14 | a tree whose renderers all keep the default handler declines every event with the state unchanged |
| EventDispatch.FirstChildToHandleWins | manrf/src/lib.rs:294-296 | once earlier children handle the event, later children are never asked |
| EventDispatch.RendererBeforeSubtree | manrf/src/lib.rs:279-289 | a renderer that handles the event decides the outcome, whatever its subtree is |
| HandlerElement.HandlerIsTransparent | manrf/src/elements/handler.rs:18-29 | a Handler has its child's size and layout at zero offset. The node's renderer is the child |
| HandlerElement.HandlerAnswersFirst | manrf/src/elements/handler.rs:31-33 | a Handler that is a node's renderer and handles the event gives exactly its callback's state and verdict |
| HandlerElement.DeclinedStateFlowsOn | manrf/src/lib.rs:285-288 | a Handler that declines passes the state its callback left to the subtree below |
| ComponentElement.ComponentLayout | manrf/src/elements/component.rs:17-29 | a Component's size and layout are those of the element its generator builds from the state. The node is at zero offset with that element as renderer |
| ComponentElement.ComponentDelegates | manrf/src/elements/component.rs:31-37 | a Component answers an event exactly as the element its generator builds from the current state |
| ComponentElement.ComponentRendererAsksTwice | manrf/src/lib.rs:279-289 | wherever a Component is a node's renderer, a declining Handler it generates runs its callback twice along that path, before the subtree below is asked |
| ComponentElement.NestedComponentAsksTwice | manrf/src/elements/component.rs:17-37 | along one path, a Component nested in a Component runs a declining Handler callback twice |
| Painting.ElementOpsOk | manrf/src/elements/style.rs:84-94 | one element's paint faults exactly when a Style's size arithmetic does not fit its node |
| Painting.LeafPaints | manrf/src/lib.rs:114-153 | default-paint kinds draw nothing. Text draws its string once in white at the position. A Box fills its own configured size there, whatever the node's size |
| Painting.PaintElement | manrf/src/lib.rs:310-310 | the queue grows by exactly the element's operations |
| Painting.PaintTree | manrf/src/lib.rs:301-325 | the recursive walk pushes exactly the tree's operations, in order |
| Painting.PaintChildren | manrf/src/lib.rs:318-321 | the loop over a MultiChild's children pushes exactly their operations, in order |
| Painting.PaintableIffOk | manrf/src/lib.rs:301-325 | painting a tree faults exactly when some renderer cannot paint at its node's size |
| Painting.ChildrenPaintableIffOk | manrf/src/lib.rs:318-321 | painting a list of children faults exactly when one of them cannot be painted |
| Painting.RenderedIsPaintable | manrf/src/elements/style.rs:98-171 | every tree that layout produces can be painted: each Style is given at least its own insets |
| Painting.RenderedTreePaints | manrf/src/lib.rs:353-357 | the laid-out tree paints without a fault from any origin |
| Painting.TreeOpsIsPreorder | manrf/src/lib.rs:301-325 | painting is the pre-order list of renderers, each painted at origin plus the offsets down its path |
| Painting.ChildrenOpsIsPreorder | manrf/src/lib.rs:313-322 | a MultiChild's children paint in order, each at the shared origin |
| Painting.PaintOrderIsDispatchOrder | manrf/src/lib.rs:273-325 | painting and event dispatch visit the same renderers in the same order |
| Painting.ChildrenOrderIsDispatchOrder | manrf/src/lib.rs:290-322 | the same for a list of children |
| StyleElement.StyleLayout | manrf/src/elements/style.rs:98-112 | the child is laid out with min raised by the added size and max unchanged. It sits at the child offset with the child as renderer. The Style is the child plus all six insets |
| StyleElement.StyleFaults | manrf/src/elements/style.rs:98-112 | a Style faults (Overflow) when its insets, or child plus insets, overflow u32. It passes on its child's fault |
| StyleElement.StyleBackgroundFramesChild | manrf/src/elements/style.rs:80-86 | at its laid-out size, the background is in the background colour and starts where the padding starts. It covers the child plus padding |
| StyleElement.StyleCanExceedMax | manrf/src/elements/style.rs:99-104 | padding 1 around "ab" in a 10 by 10 space is 12 by 12: a Style can be larger than the space offered |
| StyleElement.NewWithBackground | manrf/src/elements/style.rs:58-68 | a Style with the given background around the child, with no margin, no border and no padding |
| StyleElement.BackgroundKeepsLayout | manrf/src/elements/style.rs:58-112 | a background element lays out exactly as its child, at zero offset |
| StyleElement.BackgroundPaintsNode | manrf/src/elements/style.rs:115-121 | a background element paints one rectangle of its colour over its whole node |
| Elements.Border | manrf/src/elements.rs:17-25 | a Style with only the border: no background, no margin, no padding |
| Elements.Padding | manrf/src/elements.rs:27-41 | a Style with only the padding: no background, no margin, an empty border |
| Elements.Background | manrf/src/elements.rs:43-57 | the same element Style::new_with_background builds |
| Elements.CenterOf | manrf/src/elements.rs:59-72 | an Align with Center on both axes |
| Elements.PaddingLayout | manrf/src/elements.rs:27-41 | padding grows its child by the insets, puts it at the top-left offset, and paints nothing |
| Elements.BorderLayout | manrf/src/elements.rs:17-25 | a border grows its child by the border widths. Its strips (none if the border is empty) hug the whole node |
| Elements.CenterLayout | manrf/src/elements.rs:59-72 | centring fills max and leaves gaps differing by at most one, the larger after |
| Graphics.OperationQueue.constructor | manrf/src/graphics.rs:25-29 | a new queue is empty |
| Graphics.OperationQueue.Push | manrf/src/graphics.rs:31-33 | push appends at the end and keeps the earlier operations |
| Graphics.OperationQueue.Drain | manrf/src/graphics.rs:35-37 | drain hands out every operation in push order and leaves the queue empty |
| Graphics.Endpoint.constructor | manrf/src/graphics.rs:50-52 | a new endpoint has carried out no operations |
| Graphics.Endpoint.DrawQueue | manrf/src/graphics.rs:59-75 | each queued operation is carried out once, in queue order, and the queue ends empty |
| Runner.App.constructor | manrf/src/lib.rs:251-271 | the app holds the Component around the generator and the initial state. Its tree is that state's layout under up_to(inital_size) |
| Runner.App.HandleEventRecursive | manrf/src/lib.rs:273-299 | the walk leaves the state and verdict Dispatch gives, or the fault it gives |
| Runner.App.HandleEvent | manrf/src/lib.rs:333-351 | the state is always the dispatch state. If handled, the tree is re-laid out from that state. If not, the old tree is kept. The last tree stays the layout of the last state laid out |
| Runner.App.Draw | manrf/src/lib.rs:353-357 | the endpoint receives exactly the last tree's operations, painted from (0, 0). The state and the tree do not change |

The functions that define the behaviour carry small contracts of their own;
what they promise is stated by the members named beside them:

- `Layout.Render`: every element's `render` (manrf/src/lib.rs:35-74, 89-112,
  140-145, 185-211; elements/style.rs:98-112; elements/align.rs:27-49;
  elements/handler.rs:18-29; elements/component.rs:17-29). Stated by
  `Layout.StackLayout`, `Layout.ItemSelectorLayout`, `Layout.BoxLayout`,
  `Layout.TextLayout`, `StyleElement.StyleLayout`, `AlignElement.AlignLayout`,
  `HandlerElement.HandlerIsTransparent` and `ComponentElement.ComponentLayout`.
- `EventDispatch.Dispatch` and `EventDispatch.DispatchAny`:
  `handle_event_recursive` (manrf/src/lib.rs:273-299). Stated by
  `EventDispatch.DispatchIsPreorder`, `EventDispatch.DispatchAnyIsPreorder`,
  `EventDispatch.AskAppend` and `EventDispatch.FirstChildToHandleWins`.
- `Painting.ElementOps`: one element's `paint` (manrf/src/lib.rs:114-153,
  elements/style.rs:115-171). Stated by `Painting.ElementOpsOk` and
  `Painting.LeafPaints`.
- `Painting.TreeOps` and `Painting.ChildrenOps`: `paint_recursive`
  (manrf/src/lib.rs:301-325). Stated by `Painting.PaintableIffOk`,
  `Painting.TreeOpsIsPreorder` and `Painting.ChildrenOpsIsPreorder`.
- `Constraints.Shrink` and `Constraints.Clamp`: manrf/src/utils/constraints.rs:20-35.
  Stated by `Constraints.ShrinkSpec` and `Constraints.ClampSpec`.
- `StyleDefs.PaintOps` and `StyleDefs.BorderStrips`: `Style::paint`
  (manrf/src/elements/style.rs:115-171). Stated by `StyleDefs.PaintOpsShape`,
  `StyleDefs.PaintOpsValue` and `StyleDefs.BorderStripsHugEdges`.
- `EdgeInsets.Width`, `Height`, `Size`, `IsEmpty` and `TopLeftOffset`:
  manrf/src/utils/edge_insets.rs:75-93. Stated by `EdgeInsets.EmptyIsAllZero`,
  `EdgeInsets.EmptyIffNoSize`, `EdgeInsets.ConstructorSizes` and
  `EdgeInsets.SideConstructorSizes`.
- `StyleDefs.BackgroundOffset` and `StyleDefs.BorderOffset`: where the
  background and the border box start (manrf/src/elements/style.rs:80-82,
  88-90). Stated by `StyleDefs.PaintFitsRenderedSize`,
  `StyleDefs.BorderStripsHugEdges` and `StyleElement.StyleBackgroundFramesChild`.
- `AlignDefs.AxisOffset`: the per-axis offset in `Align::render`
  (manrf/src/elements/align.rs:30-39). Stated by `AlignDefs.AxisOffsetSpec`.

## Left out

- **Points and casts.** Points are unbounded integers. The source's i32 points are not modelled, nor any of its `as i32` casts (among them `sum as i32` in Stack, `size.height as i32` in ItemSelector, `top_left_offset`, the Align offsets and the right and bottom strip positions), nor i32 overflow in `Point + Point`.
- **Text width.** Text width uses the string's length in characters. The source's `len()` is the UTF-8 byte length, which is the same for ASCII text. The `as u32` truncation and the `* 6` overflow are modelled.
- **Pixel output.** The endpoint's pixel output is not modelled: `fill_solid`, and `Text::draw` with the FONT_6X10 baseline shift, are foreign embedded-graphics calls. `Graphics.Endpoint` keeps a log of the operations it carries out.
- **Debug output.** `to_string` and the `println!` on unhandled events are debug output.
- **Outside the crate core.** The SDL simulator, its event mapping, the FPS counter and the ESP32 bring-up are I/O and hardware. The colour palettes are colour values, and `Rgb888` is an opaque triple.
- **Prototype crate.** The prototype crate under `src/` is superseded by `manrf`.
- **Nesting bound.** `Layout.Render` and `EventDispatch.EventHandler` take `fuel`. Generated elements nested deeper than `fuel` (Component results, ItemSelector items) give `Err(Diverged)`. The source would recurse as deep as the generators go.
- **Panics.** Panics are modelled as `Err` results carrying the fault, and the model goes no further after one. Overflow and underflow follow debug-build checks; release-build wrap-around is not modelled.
- **Runner.App.constructor.** It takes the initial state as a parameter, where `App::new` always starts from `S::default()`; the source's case is the one where that parameter is the default state.
- **Runner.App.constructor.** It also requires the first layout not to fault: `App::new` panics there and produces no app.
- **Runner.App.HandleEvent.** It returns the fault if dispatch or the re-layout faults, where the source panics.
- **Tree swap.** The swap of `last_render_tree` with a Leaf during dispatch is not modelled. Handlers cannot see the tree, so the walk reads the old tree directly.
- **Plain constructors.** `Style::new`, `Style::new_with_style`, `BorderDefinition::new`, `Box::exactly`, `Text::new`, `Stack::col`, `ItemSelector::new`, `Align::new`, `Handler::new` and `Component::new` only store their arguments. They are the `Element` and `StyleDefinition` datatype constructors.
- **Paint signature.** `ElementTrait::paint` is modelled in its queue-based form from lib.rs and style.rs. The `&mut T` form in defs.rs is not modelled.
