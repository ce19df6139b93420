# Masonry layout with drag-to-reorder, in Dafny

This project models the three pieces of logic under the masonry-layout demo, and proves properties about them.

- **Masonry** models the `Minigrid` packer of minigrid-1.0.1.js.
  - `validate` and `responsive` prepare the options.
  - `mount` puts every item into the first column whose "next free y" is smallest. The item's position is that column's x offset and that y, both truncated as `parseInt` does. The column then grows by the item's height plus the gutter.
  - The container becomes as tall as the tallest column.
  - The packer is specified by the pure functions `Pack`, `ColumnOffsets`, `FirstMin` and `MaxOf`. The imperative `mount` works on two arrays, one column accumulator and one x offset per column. It is proved to compute exactly that specification.
- **Reorder** models the drag-to-reorder `Grid` of script.js.
  - `closest` is a nearest-value search in which the first index wins ties.
  - The `tabX`/`tabY` slot lists keep only the truthy coordinates.
  - The dragMove handler snaps the dragged card's original slot, plus the move vector, to the nearest recorded cell. When another card records exactly that cell, `animate` moves the dragged card to that card's index with `insertBefore`.
  - The card container's children are a `seq<ItemId>`.
  - The proofs show:
    - `animate` is a remove-then-insert;
    - a drag sample only ever permutes the cards;
    - a sample with no hit changes nothing;
    - a sample with one hit moves the dragged card to the hit card's index.
- **Emitter** and **Drag** model the pointer tracker, dragger and draggable widget of breek.1.0.js, which script.js instantiates per card.
  - dragging.js holds the same machine split over `EvEmitter`, `Unipointer`, `Unidragger` and `Draggabilly`. It differs only in having no axis lock, and is the same model with axis `Free`.
  - Every input is a pure transition on `DragState` that also returns the events emitted, in order. The inputs are: a start, move, up or cancel event of one event family; a click; a click-reset timer; an animation frame; `enable`, `disable` and `destroy`.
  - The class `Dragger` holds the same state in fields. Each handler method is proved to perform exactly its transition. The calls its emitter makes are proved to be those events delivered to the registered listeners.
  - Lemmas state the following:
    - single-pointer capture;
    - identity filtering of pointer and touch events;
    - the 3-pixel dead zone;
    - the `isDragging`/`isPreventingClicks` flags;
    - the axis-locked position update;
    - that a cancel or a mid-drag `disable` leaves a drag in progress.

JavaScript's `NaN` and `undefined`, where a number or an object is missing, are `None`. Numbers are `real`, and `parseInt` of a number is `Masonry.Trunc`. The DOM is replaced by plain values:

- item heights;
- the container width;
- pointer samples;
- the position the widget reads back from the element's style (`measured`);
- a map from cards to their recorded `data-axis-x/y`.

Listeners are foreign code. The model records which listener was called, with which event name and arguments. Timers and animation frames are counters of pending callbacks, and each firing is a method of its own.

Behaviour of the code a reader might not expect, which the model keeps:

- **Mouse button 1** passes `onmousedown`'s filter but is refused by `_pointerDown`'s `event.button` test. Only button 0, or no button, captures.
- **`okayPointerDown`** assigns a one-element array, which is truthy, so it accepts every target, text fields included.
- **A cancel, or `disable()` during a drag,** leaves `isDragging` set. The dragger does not override `pointerCancel`, and the widget's `dragEnd` returns at once when disabled.
- **The dragMove handler** compares recorded cells exactly and checks no bounding box.
- **Dragging a card back over its own slot does not undo a reorder.** The recorded cells never change during a drag. The only card recording the dragged card's original cell is the dragged card itself, and the handler skips it.
- **The duplicate keys of the `Breek.prototype` literal.** The later definitions are the ones modelled: `pointerDown` at 311, `pointerMove` at 350, `pointerUp` at 381, `dragStart` at 523, `dragMove` at 548 and `dragEnd` at 574.

## Model

| member | source | states |
|---|---|---|
| Util.IndexOf | minigrid-1.0.1.js:108 | `indexOf` gives -1 exactly when the value is absent, otherwise the first index holding it |
| Emitter.Added | breek.1.0.js:72-78 | after `on` the list holds the old listeners in order plus the new one, at most one longer, and stays duplicate-free |
| Emitter.Removed | breek.1.0.js:80-86 | `off` removes one entry when the listener is present and nothing otherwise, keeps every other listener and leaves none of that one in a duplicate-free list |
| Emitter.RemovedIsWithout | breek.1.0.js:80-86 | on a duplicate-free list `off` equals filtering that listener out, so the others keep their order |
| Emitter.RemovedUndoesAdded | breek.1.0.js:72-86 | `off` undoes an `on` of a listener not yet registered |
| Emitter.DeliveriesAt | breek.1.0.js:88-98 | `emitEvent` makes one call per listener, and the k-th call goes to the k-th listener with the given name and arguments |
| Emitter.EvEmitter.constructor | dragging.js:6 | a new emitter has no listeners and has made no calls |
| Emitter.EvEmitter.On | breek.1.0.js:73-78 | an empty name or a missing listener changes nothing; otherwise that name's list becomes `Added(old list, listener)` and the registry stays duplicate-free (the same code is at dragging.js:8-14) |
| Emitter.EvEmitter.Off | breek.1.0.js:80-86 | nothing changes when the name has no listeners; otherwise its list becomes `Removed(old list, listener)` (dragging.js:16-22 alike) |
| Emitter.EvEmitter.EmitEvent | breek.1.0.js:88-98 | the calls made are exactly the deliveries to the snapshot of that name's listeners, in registration order (dragging.js:24-34 alike) |
| Masonry.Validate | minigrid-1.0.1.js:36-42 | the value itself when it is a finite integer number, the default otherwise |
| Masonry.ValidateIsIdempotent | minigrid-1.0.1.js:36-42 | validating a validated value again keeps it, whatever the default |
| Masonry.ResponsiveNoneQualifies | minigrid-1.0.1.js:55-64 | when no breakpoint key is at most the width, the column count is unchanged |
| Masonry.ResponsiveLastQualifies | minigrid-1.0.1.js:55-64 | the last qualifying breakpoint in iteration order sets the column count |
| Masonry.ResponsiveAscending | minigrid-1.0.1.js:55-64 | with ascending keys, the largest key not above the width sets the column count |
| Masonry.Trunc | minigrid-1.0.1.js:110-111 | `parseInt` of a number truncates toward zero: the result lies within 1 of the value, on the side of zero |
| Masonry.Reversed | minigrid-1.0.1.js:97-99 | the reversal has the same length, and entry i is entry length-1-i of the original |
| Masonry.ColumnOffsets | minigrid-1.0.1.js:91-99 | there are exactly `column` x offsets |
| Masonry.ColumnOffsetAt | minigrid-1.0.1.js:84-99 | column i is at `i * ((W - gutter) / column) + gutter`; right to left it takes the offset of column `column-1-i` |
| Masonry.FirstMin | minigrid-1.0.1.js:102-108 | the chosen column's accumulator is at most every other one, and strictly below every earlier one (ties go to the lowest index) |
| Masonry.FirstMinUnique | minigrid-1.0.1.js:102-108 | those two properties single out one column |
| Masonry.MaxOf | minigrid-1.0.1.js:126-131 | the container height is one of the accumulators and is at least every accumulator |
| Masonry.Pack | minigrid-1.0.1.js:101-124 | one placement per item and one accumulator per column |
| Masonry.PackPrefix | minigrid-1.0.1.js:101-124 | placing more items never moves the items already placed |
| Masonry.PackShortestColumn | minigrid-1.0.1.js:102-123 | item k goes to the first column with the least accumulator at that moment, at `(trunc(x), trunc(acc))`; only that accumulator changes, by height plus gutter |
| Masonry.AccumulatorsNeverDecrease | minigrid-1.0.1.js:123 | with height plus gutter never negative, no accumulator ever decreases |
| Masonry.PackConservesHeight | minigrid-1.0.1.js:93-123 | the accumulators together hold the starting gutters plus every item's height and gutter |
| Masonry.PackExample | minigrid-1.0.1.js:84-131 | heights 100, 50, 80 and 120 in 2 columns, gutter 10, width 210 give x = 10, 110, 110, 10, y = 10, 10, 70, 120, and a container 250 tall |
| Masonry.ReverseInPlace | minigrid-1.0.1.js:97-99 | `itemsPosX.reverse()` leaves the array reversed |
| Masonry.ShortestColumn | minigrid-1.0.1.js:102-108 | the sort-then-`indexOf` finds the first column with the least accumulator, which is `FirstMin` |
| Masonry.ColumnArrays | minigrid-1.0.1.js:91-94 | the push loop gives every accumulator the gutter and column i the offset `i * firstChildWidth + gutter` |
| Masonry.Columns | minigrid-1.0.1.js:84-99 | with a positive column count the arrays are the accumulators before any item and `ColumnOffsets`, and `firstChildWidth` is the column width; with none both arrays are empty |
| Masonry.PlaceItem | minigrid-1.0.1.js:101-124 | one turn of the item loop is one `Place` step on the accumulator array |
| Masonry.PlaceItems | minigrid-1.0.1.js:101-143 | the item loop yields the placements of `Pack` and the tallest accumulator; with no column, every item gets NaN coordinates and no height is written |
| Masonry.Layout | minigrid-1.0.1.js:74-143 | with a positive column count, `mount`'s body yields exactly `LaidOut`: the packing, the tallest column, and the column width less one gutter |
| Masonry.Minigrid.constructor | minigrid-1.0.1.js:2-25 | with a container present, gutter and column are validated (defaults 50 and 3), `responsive` runs before `mount`, and the page is what `mount` writes |
| Masonry.Minigrid.OnResize | minigrid-1.0.1.js:44-52 | a resize lays out the items at their re-measured heights with the column count from before it, then updates the count from the breakpoints |
| Masonry.Minigrid.Responsive | minigrid-1.0.1.js:55-64 | the loop over the breakpoints sets the column count to `ResponsiveColumn` |
| Masonry.Minigrid.Mount | minigrid-1.0.1.js:66-143 | returns false and writes nothing without a container or without items; otherwise falls off its end, returning `undefined` (`None`), and the page becomes `MountResult` over the heights measured during this mount |
| Masonry.Minigrid.Render | minigrid-1.0.1.js:74-143 | the placements are written, and the container height and item width only when there are columns |
| Reorder.Nearest | script.js:2-14 | `closest` is -1 exactly for an empty array, otherwise an index in range |
| Reorder.NearestIsNearest | script.js:6-11 | the chosen entry is at least as near as every entry and strictly nearer than every entry before it (the first index wins ties) |
| Reorder.Closest | script.js:2-14 | the `forEach` loop with its strict `<` computes `Nearest` |
| Reorder.TabPositions | script.js:45-59 | one entry per card, in child order |
| Reorder.Kept | script.js:75-78 | `tabX`/`tabY` hold only non-zero values and are no longer than the card list |
| Reorder.KeptAligned | script.js:75-78 | when every coordinate is truthy, entry i of `tabX` is card i's coordinate |
| Reorder.KeptShorter | script.js:75-78 | one falsy coordinate makes the list shorter than the card list |
| Reorder.CollectTabs | script.js:72-78 | the push loop builds exactly `Kept` for x and for y |
| Reorder.MoveToIsReorder | script.js:162-168 | a move is a permutation with the moved card at `to` and every other card in its original relative order |
| Reorder.MoveToDistinct | script.js:162-168 | a move keeps the cards duplicate-free |
| Reorder.AnimateIsMove | script.js:162-168 | `animate(el, from, to)` with `insertBefore`, for the card's own index and another index in range, is exactly the remove-then-insert move |
| Reorder.Snap | script.js:142-147 | the snapped coordinate is defined exactly when the candidate is a number and the list is non-empty; it is an entry of the list, and no entry is nearer |
| Reorder.SweepStepPermutes | script.js:145-157 | one turn of the handler keeps the order a duplicate-free permutation |
| Reorder.SweepPermutes | script.js:136-158 | a whole drag sample only permutes the cards |
| Reorder.SweepNoHit | script.js:145-157 | when no other card records the snapped cell, a drag sample changes nothing |
| Reorder.SweepOneHit | script.js:136-158 | with exactly one hit, the dragged card takes the hit card's index and the others keep their relative order |
| Reorder.DragBackKeepsOrder | script.js:136-158 | when no other card records the dragged card's own cell, a sample snapped to that cell leaves the order unchanged |
| Reorder.ExampleSnaps | script.js:139-147 | over slots 10/110/210, a 100 px move from slot 0 snaps to 110 and no move snaps to 10 |
| Reorder.ExampleDragThere | script.js:136-158 | cards 1, 2, 3 at x 10/110/210: card 1 snapped to (110, 10) gives [2, 1, 3] |
| Reorder.DragBackExample | script.js:136-158 | dragging card 1 back to (10, 10) leaves [2, 1, 3], so the first reorder is not undone |
| Reorder.Grid.constructor | script.js:17-24 | `init` sets up the slot lists from the current cards and one dragger per card |
| Reorder.Grid.SetupDraggibilly | script.js:68-99 | the slot lists are recollected and the original indices fixed; a drag in progress ends and schedules one more setup; one dragger is added per card |
| Reorder.Grid.DragStarted | script.js:105-107 | the grid records that this card is dragging |
| Reorder.Grid.DragEnded | script.js:116-133 | dragging stops and one deferred setup is scheduled |
| Reorder.Grid.TimerFired | script.js:127-132 | with a setup pending, the slot lists become `Kept` of the current order's recorded cells, origin becomes the current order, one dragger per card is added and a drag in progress is ended (scheduling one more setup); with none pending nothing changes |
| Reorder.Grid.SnapTarget | script.js:139-147 | the candidate cell snapped with `closest` is `Target`, and each snapped coordinate is a recorded one |
| Reorder.Grid.DragMoved | script.js:135-159 | the handler's loop over the snapshot performs `Sweep` and keeps the cards a duplicate-free permutation |
| Reorder.Grid.Visit | script.js:136-157 | one entry of the loop performs `SweepStep`, with the destination index clamped to [0, length] |
| Reorder.Grid.Animate | script.js:162-170 | the child list after `insertBefore` is `Animated` |
| Reorder.Grid.SendResult | script.js:171-184 | one record per card, in current order, with that card's recorded x and y |
| Drag.StartFamily | breek.1.0.js:110-119 | pointer events when available, else touch, else mouse |
| Drag.PostStartEventsFamilies | breek.1.0.js:12-16 | each family binds its own move and end events; only touch and pointer bind a cancel event |
| Drag.OkayPointerDown | breek.1.0.js:326-334 | every target is accepted |
| Drag.FirstTouch | breek.1.0.js:126-131 | none exactly when no changed touch carries the tracked identifier; otherwise the first one that does |
| Drag.GetTouch | breek.1.0.js:126-131 | the loop returns `FirstTouch`, a changed touch with the tracked identifier |
| Drag.Constrain | breek.1.0.js:553-557 | axis 'x' zeroes y, axis 'y' zeroes x, no axis keeps the vector |
| Drag.Done | breek.1.0.js:243-253 | after `_pointerDone` no pointer is down, no identifier is held and nothing is bound; the drag flags are untouched |
| Drag.ReadyIsCoherent | breek.1.0.js:447-468 | the ready state is coherent, enabled and not dragging |
| Drag.StepCoherent | breek.1.0.js:151-253 | every input keeps the state coherent: bound events imply a pointer down with a recorded start pointer, and a drag implies a start pointer |
| Drag.RunCoherent | breek.1.0.js:151-253 | every sequence of inputs keeps the state coherent |
| Drag.StartIgnoredWhileCaptured | breek.1.0.js:151-152 | a start while a pointer is down, or with a truthy button, changes nothing and emits nothing |
| Drag.StartCaptures | breek.1.0.js:134-159 | a heard start with no truthy button captures `pointerId`, or `identifier` when there is none, binds its family and emits `pointerDown`; with a truthy button (mouse button 1 included) it does nothing |
| Drag.CaptureHeld | breek.1.0.js:151-159 | while a pointer is down, every input other than its own end or cancel keeps the captured identifier |
| Drag.ForeignPointerIgnored | breek.1.0.js:193-270 | move, end and cancel events of another pointer or touch change nothing and emit nothing |
| Drag.DoneIsIdempotent | breek.1.0.js:180-253 | a second `_pointerDone` changes nothing, and it keeps the state coherent |
| Drag.DeadZone | breek.1.0.js:357-372 | a sample within 3 pixels along both axes starts no drag, changes nothing and emits only `pointerMove` |
| Drag.DeadZoneRun | breek.1.0.js:357-372 | any number of samples within the dead zone start no drag |
| Drag.DragStartsBeyondThreshold | breek.1.0.js:350-400 | the first sample beyond 3 pixels sets `isDragging` and `isPreventingClicks`; when enabled, `dragStart`, `pointerMove` and `dragMove` are emitted in that order |
| Drag.NoRestartWhileDragging | breek.1.0.js:362-364 | during a drag no sample emits `dragStart` again or moves the start position |
| Drag.DragMoveEffect | breek.1.0.js:548-566 | `dragMove` acts only while dragging and enabled: position = start position + constrained vector, drag point = constrained vector, one `dragMove` emitted |
| Drag.UpEndsDrag | breek.1.0.js:381-430 | an end of the tracked pointer releases it and ends any drag; clicks stay prevented and one click reset is scheduled; `pointerUp` is emitted first |
| Drag.CancelKeepsDrag | breek.1.0.js:243-280 | a cancel of the tracked pointer releases it (nothing down, no identifier, nothing bound) and emits exactly one `pointerCancel`; `isDragging` and `isPreventingClicks` stay as they were; a mouse event, an unbound family or another pointer's cancel changes nothing |
| Drag.DisableKeepsDrag | breek.1.0.js:628-645 | `disable` leaves a drag in progress and emits nothing; `destroy` also unbinds the handles |
| Drag.ClickTimerClears | breek.1.0.js:419-443 | once the click reset runs, clicks are no longer prevented |
| Drag.Dragger.constructor | breek.1.0.js:447-468 | the dragger starts in the ready state, with the widget's three handlers registered and no calls made |
| Drag.Dragger.PointerDown | breek.1.0.js:311-323 | the dragger's `pointerDown` performs `PointerDownOutcome`: it records the start pointer, binds the family and emits `pointerDown` |
| Drag.Dragger.Capture | breek.1.0.js:151-159 | `_pointerDown` performs `CaptureOutcome` |
| Drag.Dragger.HandleStart | breek.1.0.js:134-159 | the start handlers perform `StartOutcome` and keep the state coherent |
| Drag.Dragger.TrackedPointer | breek.1.0.js:193-206 | the per-family handlers pick the pointer `Tracked` gives |
| Drag.Dragger.SetLeftTop | breek.1.0.js:602-605 | left/top becomes the position and nothing else changes |
| Drag.Dragger.Animate | breek.1.0.js:587-599 | `animate` performs `AnimateState`: while dragging it paints the drag point and requests one frame |
| Drag.Dragger.Measure | breek.1.0.js:523-530 | the position and the start position become the measured position |
| Drag.Dragger.WidgetDragStart | breek.1.0.js:523-542 | the widget's `dragStart` performs `WidgetDragStartOutcome` |
| Drag.Dragger.DragStart | breek.1.0.js:395-400 | `_dragStart` performs `DragStartOutcome` |
| Drag.Dragger.DraggerMove | breek.1.0.js:357-367 | `_draggerMove` performs `DraggerMoveOutcome` |
| Drag.Dragger.DragMove | breek.1.0.js:548-566 | `_dragMove` and the widget's `dragMove` perform `DragMoveOutcome` |
| Drag.Dragger.PointerMove | breek.1.0.js:350-354 | the dragger's `pointerMove` performs `PointerMoveOutcome`: `dragStart` first if it starts, then `pointerMove`, then `dragMove` |
| Drag.Dragger.HandleMove | breek.1.0.js:193-210 | the move handlers perform `MoveOutcome` and keep the state coherent |
| Drag.Dragger.PointerDone | breek.1.0.js:243-253 | `_pointerDone` performs `Done` |
| Drag.Dragger.WidgetDragEnd | breek.1.0.js:574-583 | the widget's `dragEnd` performs `WidgetDragEndOutcome` |
| Drag.Dragger.DragEnd | breek.1.0.js:419-430 | `_dragEnd` performs `DragEndOutcome` |
| Drag.Dragger.PointerUp | breek.1.0.js:381-390 | the dragger's `pointerUp` performs `PointerUpOutcome` |
| Drag.Dragger.HandleUp | breek.1.0.js:217-235 | the end handlers perform `UpOutcome` and keep the state coherent |
| Drag.Dragger.HandleCancel | breek.1.0.js:259-280 | the cancel handlers perform `CancelOutcome` and keep the state coherent |
| Drag.Dragger.Click | breek.1.0.js:439-443 | `onclick` prevents the default exactly while clicks are prevented |
| Drag.Dragger.ClickTimerFired | breek.1.0.js:423-427 | a pending click reset clears `isPreventingClicks` |
| Drag.Dragger.AnimationFrame | breek.1.0.js:587-599 | a pending frame runs `animate` again |
| Drag.Dragger.Enable | breek.1.0.js:624-626 | only `isEnabled` changes, to true |
| Drag.Dragger.Disable | breek.1.0.js:628-633 | `disable` performs `DisableOutcome`: not enabled, drag untouched, nothing emitted |
| Drag.Dragger.Destroy | breek.1.0.js:635-645 | `destroy` performs `DestroyOutcome`: disabled, styles cleared, handles unbound |

## Left out

- DOM access is replaced by inputs and state: `querySelector(All)`, `getComputedStyle`, `getBoundingClientRect`, style and `classList` writes, `addEventListener`/`removeEventListener`, `focus`/`blur` and `preventDefault`. The bound event family is a field. Whether a click's default is prevented is a result.
- `_getPosition` and `_addTransformPosition` parse CSS strings. The position they read is the input `measured` (or `initial` at construction).
- Capability detection (`window.PointerEvent`, `ontouchstart`) is the parameter `Capability`. Handle binding, `touch-action`, the handle option of `setHandles` and `pointerDownBlur` are not modelled beyond the flag `handlesBound`.
- `setTimeout` and `requestAnimationFrame` callbacks are counted and fire through explicit methods. Their timing is not modelled.
- Listeners are identified, not run. A listener that calls back into the emitter or the dragger while it is being called is not modelled. The event object is not among the recorded arguments.
- The Grid's dragStart/dragMove/dragEnd handlers are methods that take the dragged card, not listeners registered on a `Dragger`. The model does not connect a card's dragger to the grid.
- `Grid.layout()` and `Grid.animate`'s `layout()` are not modelled. script.js:62-66 passes `item:` where `Minigrid` reads `items`, so that `mount` returns at minigrid-1.0.1.js:70 and places nothing. The reorder is therefore never claimed to recompute positions.
- `sendResult` logs its records with `console.log`. The model returns them, with the recorded coordinates as numbers rather than attribute strings.
- The `Breek` constructor throws when the element is missing, and re-calls itself when not called with `new`. Both are left out. So are the `console.log` banner and the module exports.
- `setPosition` (breek.1.0.js:618-622) is not called anywhere in the core and is not modelled.
- `Masonry.Minigrid.Render`: with no column or a negative column count, `mount` writes a width that CSS rejects (`Infinity` or a negative length) and no height. The model leaves the item width and container height unchanged. With a positive column count whose column width is below the gutter, the width written is negative and CSS rejects it too. The model records that negative width, which the page would not show.
- `Masonry.Minigrid.constructor`: without a container, `this.container` is null and the item query at minigrid-1.0.1.js:10 throws a TypeError. The model requires a container. The case where `props.items` is itself a node, which avoids the throw, is not representable since items are heights.
- Breakpoint keys and values are assumed to be integers. `responsive` compares the keys as strings converted to numbers, and copies a value into the column count without `validate`. A fractional value such as 2.5 would give 3 columns of width (W − gutter)/2.5, which the model does not represent.
- `done` and `animateOnResize` are left out, as are the global `Minigrid` instance at the end of minigrid-1.0.1.js and `tabContentWidths`.
- Reorder.Grid.SetupDraggibilly: the model assumes the dragging card's dragger is enabled when a setup ends a drag, so that its `dragEnd` reaches the grid's handler. The model does not track `destroy` on earlier draggers, beyond keeping every dragger in `draggabillies`.
- Floating point is `real`: rounding and `NaN` arithmetic are not modelled, except where `NaN` is `None`.
