/** The pointer tracker, dragger and draggable widget: `Breek` in
    breek.1.0.js and its twin `Unipointer` / `Unidragger` / `Draggabilly` in
    dragging.js. Both build the same machine; `Breek` constrains the drag to
    an axis when asked and `Draggabilly` never does (axis `Free`).

    Each abstract input (a start, move, up or cancel event of one event
    family, a click, a timer or animation-frame callback, enable, disable,
    destroy) is a pure transition on `DragState` that also returns the events
    it emits, in order; the class `Dragger` holds the same state in fields and
    its methods are proved to perform exactly those transitions and emissions. */
module Drag {
  import opened Util
  import opened Emitter

  // ------------------------------------------------------------- inputs

  /** The three event families; a family's start event is `mousedown`,
      `touchstart` or `pointerdown`. */
  datatype Family = MouseFamily | TouchFamily | PointerFamily

  /** What `_bindStartEvent` detects: `window.PointerEvent` and `ontouchstart`. */
  datatype Capability = Capability(pointerEvents: bool, touchStart: bool)

  /** The start event bound on the handles: pointer events when available,
      else touch, else mouse. */
  function StartFamily(c: Capability): (f: Family)
    ensures c.pointerEvents ==> f == PointerFamily
    ensures !c.pointerEvents && c.touchStart ==> f == TouchFamily
    ensures !c.pointerEvents && !c.touchStart ==> f == MouseFamily
  {
    if c.pointerEvents then PointerFamily else if c.touchStart then TouchFamily else MouseFamily
  }

  /** `postStartEvents[startType]`: the window listeners bound after a start. */
  function PostStartEvents(f: Family): seq<string> {
    match f
    case MouseFamily => ["mousemove", "mouseup"]
    case TouchFamily => ["touchmove", "touchend", "touchcancel"]
    case PointerFamily => ["pointermove", "pointerup", "pointercancel"]
  }

  /** Every family's bound set holds a move and an end event of that family;
      only touch and pointer have a cancel event. */
  lemma PostStartEventsFamilies()
    ensures "mousemove" in PostStartEvents(MouseFamily) && "mouseup" in PostStartEvents(MouseFamily)
    ensures "touchmove" in PostStartEvents(TouchFamily) && "touchend" in PostStartEvents(TouchFamily)
    ensures "pointermove" in PostStartEvents(PointerFamily) && "pointerup" in PostStartEvents(PointerFamily)
    ensures forall f :: "touchcancel" in PostStartEvents(f) <==> f == TouchFamily
    ensures forall f :: "pointercancel" in PostStartEvents(f) <==> f == PointerFamily
    ensures forall f :: "mousecancel" !in PostStartEvents(f)
  {
  }

  /** `axis` option: `'x'` keeps only horizontal motion, `'y'` only vertical. */
  datatype Axis = Free | AxisX | AxisY

  datatype Config = Config(start: Family, axis: Axis)

  /** A mouse event, a pointer event or one touch: its page coordinates and
      the ids it carries (`undefined` is `None`). */
  datatype Pointer = Pointer(pageX: real, pageY: real, pointerId: Option<int>, identifier: Option<int>)

  /** An event delivered to the widget: for mouse and pointer events `pointer`
      is the event itself; touch events carry `changedTouches`. */
  datatype InputEvent = InputEvent(family: Family, button: Option<int>, pointer: Pointer, changedTouches: seq<Pointer>)

  /** `event.target`: its `nodeName` and, for inputs, its `type`. */
  datatype Target = Target(nodeName: string, inputType: Option<string>)

  /** The arguments an emitted event carries besides the event object. */
  datatype Args = Args(pointer: Option<Pointer>, moveVector: Option<Vector>)

  /** One `emitEvent(name, args)`. */
  datatype Signal = Signal(name: string, args: Args)

  // ------------------------------------------------------------ filters

  /** A button value is truthy unless it is 0 or undefined. */
  predicate ButtonTruthy(b: Option<int>) {
    b.Some? && b.value != 0
  }

  /** `onmousedown`'s own filter lets through no button, button 0 and button 1. */
  predicate MouseFilterPasses(b: Option<int>) {
    !(ButtonTruthy(b) && b.value != 0 && b.value != 1)
  }

  /** `cursorNodes`: elements with text fields. */
  const CursorNodes: set<string> := {"TEXTAREA", "INPUT", "SELECT", "OPTION"}

  /** `okayPointerDown`: `isClickType` is assigned a one-element array, which
      is truthy, so every target is accepted. */
  function OkayPointerDown(target: Target): (ok: bool)
    ensures ok
  {
    var isCursorNode := target.nodeName in CursorNodes;
    var isClickType := true;
    !isCursorNode || isClickType
  }

  /** `hasDragStarted`: more than 3 pixels along either axis. */
  predicate HasDragStarted(v: Vector) {
    Abs(v.x) > 3.0 || Abs(v.y) > 3.0
  }

  /** The first changed touch carrying the tracked identifier. */
  function FirstTouch(touches: seq<Pointer>, id: Option<int>): (t: Option<Pointer>)
    ensures t.None? <==> forall k :: 0 <= k < |touches| ==> touches[k].identifier != id
    ensures t.Some? ==> exists k :: 0 <= k < |touches| && touches[k] == t.value && t.value.identifier == id
                                    && forall j :: 0 <= j < k ==> touches[j].identifier != id
  {
    if |touches| == 0 then None
    else if touches[0].identifier == id then Some(touches[0])
    else
      var t := FirstTouch(touches[1..], id);
      assert t.Some? ==> exists k :: 0 <= k < |touches| && touches[k] == t.value && t.value.identifier == id
                                     && forall j :: 0 <= j < k ==> touches[j].identifier != id by {
        if t.Some? {
          var k :| 0 <= k < |touches[1..]| && touches[1..][k] == t.value && t.value.identifier == id
                   && forall j :: 0 <= j < k ==> touches[1..][j].identifier != id;
          assert touches[k + 1] == t.value;
          assert forall j :: 0 <= j < k + 1 ==> touches[j].identifier != id by {
            forall j | 0 <= j < k + 1 ensures touches[j].identifier != id {
              if j > 0 { assert touches[j] == touches[1..][j - 1]; }
            }
          }
        }
      }
      assert t.None? ==> forall k :: 0 <= k < |touches| ==> touches[k].identifier != id by {
        if t.None? {
          forall k | 0 <= k < |touches| ensures touches[k].identifier != id {
            if k > 0 { assert touches[k] == touches[1..][k - 1]; }
          }
        }
      }
      t
  }

  /** `getTouch`: the loop over `changedTouches`. */
  method GetTouch(touches: seq<Pointer>, pointerIdentifier: Option<int>) returns (touch: Option<Pointer>)
    ensures touch == FirstTouch(touches, pointerIdentifier)
    ensures touch.Some? ==> touch.value in touches && touch.value.identifier == pointerIdentifier
  {
    var i := 0;
    while i < |touches|
      invariant 0 <= i <= |touches|
      invariant FirstTouch(touches[i..], pointerIdentifier) == FirstTouch(touches, pointerIdentifier)
    {
      if touches[i].identifier == pointerIdentifier {
        return Some(touches[i]);
      }
      assert touches[i..][1..] == touches[i + 1..];
      i := i + 1;
    }
    return None;
  }

  // -------------------------------------------------------------- state

  datatype DragState = DragState(
    isPointerDown: bool,
    /** The captured pointer's `pointerId` or `identifier`; deleted on done. */
    pointerIdentifier: Option<int>,
    /** `_boundPointerEvents`, as the family whose post-start events are bound. */
    boundEvents: Option<Family>,
    pointerDownPointer: Option<Pointer>,
    isDragging: bool,
    isPreventingClicks: bool,
    /** `setTimeout` callbacks of `_dragEnd` not yet run. */
    clickResets: nat,
    isEnabled: bool,
    /** Start and click listeners bound on the handles. */
    handlesBound: bool,
    position: Vector,
    startPosition: Vector,
    dragPoint: Vector,
    /** `style.left` / `style.top`, `None` when cleared. */
    leftTop: Option<Vector>,
    /** The `translate3d` of `style.transform`, `None` when cleared. */
    transform: Option<Vector>,
    /** `requestAnimationFrame` callbacks not yet run. */
    frames: nat)

  datatype Outcome = Outcome(state: DragState, signals: seq<Signal>)

  function Add(a: Vector, b: Vector): Vector {
    Vector(a.x + b.x, a.y + b.y)
  }

  const Origin := Vector(0.0, 0.0)

  /** The state `_ready` / `_create` leaves: position read from the element's
      style, enabled, handles bound, nothing captured. */
  function Ready(initial: Vector): DragState {
    DragState(false, None, None, None, false, false, 0, true, true,
              initial, initial, Origin, None, None, 0)
  }

  /** What holds between events: a pointer is down whenever post-start events
      are bound (and its start pointer is recorded), nothing is captured when
      no pointer is down, and a drag has a start pointer. */
  ghost predicate Coherent(s: DragState) {
    && (s.boundEvents.Some? ==> s.isPointerDown && s.pointerDownPointer.Some?)
    && (!s.isPointerDown ==> s.pointerIdentifier.None? && s.boundEvents.None?)
    && (s.isDragging ==> s.pointerDownPointer.Some?)
  }

  lemma ReadyIsCoherent(initial: Vector)
    ensures Coherent(Ready(initial)) && !Ready(initial).isDragging && Ready(initial).isEnabled
  {
  }

  // ---------------------------------------------------------- the start

  /** The pointer `_pointerDown` is given: the event itself, or for a touch
      start `changedTouches[0]` (`None` when there is none). */
  function StartPointer(e: InputEvent): Option<Pointer> {
    if e.family == TouchFamily then (if |e.changedTouches| > 0 then Some(e.changedTouches[0]) else None)
    else Some(e.pointer)
  }

  /** The dragger's `pointerDown`: record the start pointer, bind the
      family's post-start events, emit `pointerDown`. */
  function PointerDownOutcome(s: DragState, family: Family, p: Pointer, target: Target): Outcome {
    if !OkayPointerDown(target) then Outcome(s, [])
    else Outcome(s.(pointerDownPointer := Some(p), boundEvents := Some(family)),
                 [Signal("pointerDown", Args(Some(p), None))])
  }

  /** `_pointerDown`: ignored with a truthy button or while a pointer is
      down; otherwise the pointer is captured by its `pointerId`, or its
      `identifier` when it has none. */
  function CaptureOutcome(s: DragState, e: InputEvent, target: Target): Outcome {
    if ButtonTruthy(e.button) || s.isPointerDown then Outcome(s, [])
    else
      var s1 := s.(isPointerDown := true);
      match StartPointer(e)
      // reading `pointer.pointerId` of an undefined touch throws here
      case None => Outcome(s1, [])
      case Some(p) =>
        PointerDownOutcome(s1.(pointerIdentifier := if p.pointerId.Some? then p.pointerId else p.identifier),
                           e.family, p, target)
  }

  /** A start event on a handle: heard only when the handles are bound and
      it is the start event bound; `onmousedown` first filters buttons. */
  function StartOutcome(s: DragState, cfg: Config, e: InputEvent, target: Target): Outcome {
    if !s.handlesBound || e.family != cfg.start then Outcome(s, [])
    else if e.family == MouseFamily && !MouseFilterPasses(e.button) then Outcome(s, [])
    else CaptureOutcome(s, e, target)
  }

  // ------------------------------------------------------------ the move

  /** The pointer a move, up or cancel handler acts on: a mouse event always;
      a pointer event when its `pointerId` equals the captured one; for touch
      events `getTouch`. */
  function Tracked(s: DragState, e: InputEvent): Option<Pointer> {
    match e.family
    case MouseFamily => Some(e.pointer)
    case PointerFamily => if e.pointer.pointerId == s.pointerIdentifier then Some(e.pointer) else None
    case TouchFamily => FirstTouch(e.changedTouches, s.pointerIdentifier)
  }

  /** `animate`: while dragging, paint the drag point and ask for a frame. */
  function AnimateState(s: DragState): DragState {
    if !s.isDragging then s else s.(transform := Some(s.dragPoint), frames := s.frames + 1)
  }

  /** The widget's `dragStart`: nothing when disabled; otherwise the
      position is re-read (`measured`), written to left/top, the drag point
      zeroed, `dragStart` emitted and the animation started. */
  function WidgetDragStartOutcome(s: DragState, p: Pointer, measured: Vector): Outcome {
    if !s.isEnabled then Outcome(s, [])
    else
      Outcome(AnimateState(s.(position := measured, startPosition := measured, leftTop := Some(measured), dragPoint := Origin)),
              [Signal("dragStart", Args(Some(p), None))])
  }

  /** `_dragStart`: the drag and click-prevention flags are set even when the
      widget is disabled. */
  function DragStartOutcome(s: DragState, p: Pointer, measured: Vector): Outcome {
    WidgetDragStartOutcome(s.(isDragging := true, isPreventingClicks := true), p, measured)
  }

  /** `_draggerMove`: the drag starts on the first vector beyond the dead zone. */
  function DraggerMoveOutcome(s: DragState, p: Pointer, v: Vector, measured: Vector): Outcome {
    if !s.isDragging && HasDragStarted(v) then DragStartOutcome(s, p, measured) else Outcome(s, [])
  }

  /** The drag offset after the axis lock. */
  function Constrain(v: Vector, axis: Axis): (d: Vector)
    ensures axis == Free ==> d == v
    ensures axis == AxisX ==> d == Vector(v.x, 0.0)
    ensures axis == AxisY ==> d == Vector(0.0, v.y)
  {
    Vector(if axis == AxisY then 0.0 else v.x, if axis == AxisX then 0.0 else v.y)
  }

  /** `_dragMove` then the widget's `dragMove`. */
  function DragMoveOutcome(s: DragState, axis: Axis, p: Pointer, v: Vector): Outcome {
    if !s.isDragging then Outcome(s, [])
    else if !s.isEnabled then Outcome(s, [])
    else
      var d := Constrain(v, axis);
      Outcome(s.(position := Add(s.startPosition, d), dragPoint := d),
              [Signal("dragMove", Args(Some(p), Some(v)))])
  }

  /** The vector from the start pointer. */
  function MoveVector(down: Pointer, p: Pointer): Vector {
    Vector(p.pageX - down.pageX, p.pageY - down.pageY)
  }

  /** The dragger's `pointerMove`: move vector from the start pointer, maybe
      start the drag, emit `pointerMove`, then forward to `_dragMove`. */
  function PointerMoveOutcome(s: DragState, cfg: Config, p: Pointer, measured: Vector): Outcome {
    match s.pointerDownPointer
    // no start pointer: reading its `pageX` throws
    case None => Outcome(s, [])
    case Some(down) =>
      var v := MoveVector(down, p);
      var started := DraggerMoveOutcome(s, p, v, measured);
      var moved := DragMoveOutcome(started.state, cfg.axis, p, v);
      Outcome(moved.state, started.signals + [Signal("pointerMove", Args(Some(p), Some(v)))] + moved.signals)
  }

  /** A move event of family `e.family` reaching the window listener. */
  function MoveOutcome(s: DragState, cfg: Config, e: InputEvent, measured: Vector): Outcome {
    if s.boundEvents != Some(e.family) then Outcome(s, [])
    else match Tracked(s, e)
      case None => Outcome(s, [])
      case Some(p) => PointerMoveOutcome(s, cfg, p, measured)
  }

  // ------------------------------------------------------- up and cancel

  /** `_pointerDone`: `_pointerReset` then `_unbindPostStartEvents`. */
  function Done(s: DragState): (r: DragState)
    ensures !r.isPointerDown && r.pointerIdentifier.None? && r.boundEvents.None?
    ensures r.isDragging == s.isDragging && r.isPreventingClicks == s.isPreventingClicks
  {
    s.(isPointerDown := false, pointerIdentifier := None, boundEvents := None)
  }

  /** The widget's `dragEnd`: nothing when disabled; otherwise the transform
      is cleared and the position written to left/top. */
  function WidgetDragEndOutcome(s: DragState, p: Option<Pointer>): Outcome {
    if !s.isEnabled then Outcome(s, [])
    else Outcome(s.(transform := None, leftTop := Some(s.position)), [Signal("dragEnd", Args(p, None))])
  }

  /** `_dragEnd`: the drag flag drops and a timer is set to let clicks through. */
  function DragEndOutcome(s: DragState, p: Pointer): Outcome {
    WidgetDragEndOutcome(s.(isDragging := false, clickResets := s.clickResets + 1), Some(p))
  }

  /** The dragger's `pointerUp`: emit `pointerUp`, then `_draggerUp`, which
      ends a drag in progress. */
  function PointerUpOutcome(s: DragState, p: Pointer): Outcome {
    var ended := if s.isDragging then DragEndOutcome(s, p) else Outcome(s, []);
    Outcome(ended.state, [Signal("pointerUp", Args(Some(p), None))] + ended.signals)
  }

  /** An end event: `_pointerUp` → `_pointerDone`, then the dragger's `pointerUp`. */
  function UpOutcome(s: DragState, e: InputEvent): Outcome {
    if s.boundEvents != Some(e.family) then Outcome(s, [])
    else match Tracked(s, e)
      case None => Outcome(s, [])
      case Some(p) => PointerUpOutcome(Done(s), p)
  }

  /** A cancel event (touch and pointer families only): `_pointerCancel` →
      `_pointerDone`, then `pointerCancel`, which the dragger does not
      override, so a drag in progress is not ended. */
  function CancelOutcome(s: DragState, e: InputEvent): Outcome {
    if e.family == MouseFamily || s.boundEvents != Some(e.family) then Outcome(s, [])
    else match Tracked(s, e)
      case None => Outcome(s, [])
      case Some(p) => Outcome(Done(s), [Signal("pointerCancel", Args(Some(p), None))])
  }

  // --------------------------------------------------- clicks and timers

  /** `onclick` calls `preventDefault` exactly while clicks are prevented. */
  function ClickPrevented(s: DragState): bool {
    s.handlesBound && s.isPreventingClicks
  }

  /** A `_dragEnd` timer fires: `delete this.isPreventingClicks`. */
  function ClickTimerState(s: DragState): DragState {
    if s.clickResets == 0 then s else s.(clickResets := s.clickResets - 1, isPreventingClicks := false)
  }

  /** An animation frame fires and runs `animate`. */
  function FrameState(s: DragState): DragState {
    if s.frames == 0 then s else AnimateState(s.(frames := s.frames - 1))
  }

  // ---------------------------------------------------- enable / disable

  /** `disable`: its call to `dragEnd` returns at once, the widget being
      disabled already. */
  function DisableOutcome(s: DragState): Outcome {
    var s1 := s.(isEnabled := false);
    if s1.isDragging then WidgetDragEndOutcome(s1, None) else Outcome(s1, [])
  }

  /** `destroy`: disable, clear the styles, unbind the handles. */
  function DestroyOutcome(s: DragState): Outcome {
    var d := DisableOutcome(s);
    Outcome(d.state.(transform := None, leftTop := None, handlesBound := false), d.signals)
  }

  // ----------------------------------------------------------- runs

  datatype Action =
    | Start(e: InputEvent, target: Target)
    | Move(e: InputEvent, measured: Vector)
    | Up(e: InputEvent)
    | Cancel(e: InputEvent)
    | Click
    | ClickTimer
    | Frame
    | Enable
    | Disable
    | Destroy

  function StepOutcome(s: DragState, cfg: Config, a: Action): Outcome {
    match a
    case Start(e, target) => StartOutcome(s, cfg, e, target)
    case Move(e, measured) => MoveOutcome(s, cfg, e, measured)
    case Up(e) => UpOutcome(s, e)
    case Cancel(e) => CancelOutcome(s, e)
    case Click => Outcome(s, [])
    case ClickTimer => Outcome(ClickTimerState(s), [])
    case Frame => Outcome(FrameState(s), [])
    case Enable => Outcome(s.(isEnabled := true), [])
    case Disable => DisableOutcome(s)
    case Destroy => DestroyOutcome(s)
  }

  function Run(s: DragState, cfg: Config, actions: seq<Action>): DragState
    decreases |actions|
  {
    if |actions| == 0 then s else Run(StepOutcome(s, cfg, actions[0]).state, cfg, actions[1..])
  }

  lemma StepCoherent(s: DragState, cfg: Config, a: Action)
    requires Coherent(s)
    ensures Coherent(StepOutcome(s, cfg, a).state)
  {
    match a
    case Move(e, measured) =>
      if s.boundEvents == Some(e.family) && Tracked(s, e).Some? {
        var p := Tracked(s, e).value;
        var down := s.pointerDownPointer.value;
        assert Coherent(DraggerMoveOutcome(s, p, MoveVector(down, p), measured).state);
      }
    case _ =>
  }

  /** Every sequence of inputs keeps the state coherent. */
  lemma {:induction false} RunCoherent(s: DragState, cfg: Config, actions: seq<Action>)
    requires Coherent(s)
    ensures Coherent(Run(s, cfg, actions))
    decreases |actions|
  {
    if |actions| > 0 {
      StepCoherent(s, cfg, actions[0]);
      RunCoherent(StepOutcome(s, cfg, actions[0]).state, cfg, actions[1..]);
    }
  }

  // ------------------------------------------------------- properties

  /** Single capture: a start while a pointer is down, or with a truthy
      button, changes nothing and emits nothing. */
  lemma StartIgnoredWhileCaptured(s: DragState, cfg: Config, e: InputEvent, target: Target)
    requires s.isPointerDown || ButtonTruthy(e.button)
    ensures StartOutcome(s, cfg, e, target) == Outcome(s, [])
  {
  }

  /** A start that is heard captures the pointer: its `pointerId`, or its
      `identifier` when it has none, is stored and its family's post-start
      events are bound. Mouse button 1 passes `onmousedown`'s filter but not
      `_pointerDown`'s, so only button 0 or no button captures. */
  lemma StartCaptures(s: DragState, cfg: Config, e: InputEvent, target: Target, p: Pointer)
    requires s.handlesBound && e.family == cfg.start && !s.isPointerDown
    requires StartPointer(e) == Some(p)
    ensures var r := StartOutcome(s, cfg, e, target);
      ButtonTruthy(e.button) ==> r == Outcome(s, [])
    ensures var r := StartOutcome(s, cfg, e, target);
      !ButtonTruthy(e.button) ==>
        && r.state.isPointerDown
        && r.state.pointerIdentifier == (if p.pointerId.Some? then p.pointerId else p.identifier)
        && r.state.boundEvents == Some(e.family)
        && r.state.pointerDownPointer == Some(p)
        && r.signals == [Signal("pointerDown", Args(Some(p), None))]
  {
  }

  /** While a pointer is down, every input other than its own end or cancel
      keeps the captured identifier. */
  lemma CaptureHeld(s: DragState, cfg: Config, a: Action)
    requires Coherent(s) && s.isPointerDown
    requires !a.Up? && !a.Cancel?
    ensures StepOutcome(s, cfg, a).state.isPointerDown
    ensures StepOutcome(s, cfg, a).state.pointerIdentifier == s.pointerIdentifier
  {
    if a.Move? && s.boundEvents == Some(a.e.family) && Tracked(s, a.e).Some? {
      var p := Tracked(s, a.e).value;
      var down := s.pointerDownPointer.value;
      assert DraggerMoveOutcome(s, p, MoveVector(down, p), a.measured).state.pointerIdentifier == s.pointerIdentifier;
    }
  }

  /** Pointer and touch events of another pointer are ignored. */
  lemma ForeignPointerIgnored(s: DragState, cfg: Config, e: InputEvent, measured: Vector)
    requires e.family == PointerFamily ==> e.pointer.pointerId != s.pointerIdentifier
    requires e.family == TouchFamily ==> forall k :: 0 <= k < |e.changedTouches| ==> e.changedTouches[k].identifier != s.pointerIdentifier
    requires e.family != MouseFamily
    ensures MoveOutcome(s, cfg, e, measured) == Outcome(s, [])
    ensures UpOutcome(s, e) == Outcome(s, [])
    ensures CancelOutcome(s, e) == Outcome(s, [])
  {
  }

  /** `_pointerDone` leaves nothing captured or bound, and a second one
      changes nothing. */
  lemma DoneIsIdempotent(s: DragState)
    ensures Done(Done(s)) == Done(s)
    ensures Coherent(s) ==> Coherent(Done(s))
  {
  }

  /** A move within 3 pixels of the start along both axes starts no drag. */
  lemma DeadZone(s: DragState, cfg: Config, p: Pointer, measured: Vector)
    requires !s.isDragging && s.pointerDownPointer.Some?
    requires Abs(p.pageX - s.pointerDownPointer.value.pageX) <= 3.0
    requires Abs(p.pageY - s.pointerDownPointer.value.pageY) <= 3.0
    ensures var r := PointerMoveOutcome(s, cfg, p, measured);
      !r.state.isDragging && r.state == s
      && r.signals == [Signal("pointerMove", Args(Some(p), Some(Vector(p.pageX - s.pointerDownPointer.value.pageX, p.pageY - s.pointerDownPointer.value.pageY))))]
  {
  }

  /** Samples within the dead zone, however many, start no drag. */
  lemma {:induction false} DeadZoneRun(s: DragState, cfg: Config, ps: seq<Pointer>, measured: Vector)
    requires !s.isDragging && s.pointerDownPointer.Some?
    requires forall i :: 0 <= i < |ps| ==> Abs(ps[i].pageX - s.pointerDownPointer.value.pageX) <= 3.0
    requires forall i :: 0 <= i < |ps| ==> Abs(ps[i].pageY - s.pointerDownPointer.value.pageY) <= 3.0
    ensures MovesState(s, cfg, ps, measured) == s
  {
    if |ps| > 0 {
      DeadZone(s, cfg, ps[0], measured);
      DeadZoneRun(s, cfg, ps[1..], measured);
    }
  }

  /** The state after the dragger's `pointerMove` for each sample in turn. */
  function MovesState(s: DragState, cfg: Config, ps: seq<Pointer>, measured: Vector): DragState
    decreases |ps|
  {
    if |ps| == 0 then s else MovesState(PointerMoveOutcome(s, cfg, ps[0], measured).state, cfg, ps[1..], measured)
  }

  /** The first sample beyond 3 pixels starts the drag and prevents clicks;
      enabled, `dragStart` is emitted before `pointerMove`, then `dragMove`. */
  lemma DragStartsBeyondThreshold(s: DragState, cfg: Config, p: Pointer, measured: Vector)
    requires !s.isDragging && s.pointerDownPointer.Some?
    requires HasDragStarted(Vector(p.pageX - s.pointerDownPointer.value.pageX, p.pageY - s.pointerDownPointer.value.pageY))
    ensures var r := PointerMoveOutcome(s, cfg, p, measured);
      r.state.isDragging && r.state.isPreventingClicks
    ensures var r := PointerMoveOutcome(s, cfg, p, measured);
      var v := Vector(p.pageX - s.pointerDownPointer.value.pageX, p.pageY - s.pointerDownPointer.value.pageY);
      s.isEnabled ==> r.signals == [Signal("dragStart", Args(Some(p), None)), Signal("pointerMove", Args(Some(p), Some(v))),
                                    Signal("dragMove", Args(Some(p), Some(v)))]
  {
  }

  /** During a drag no sample starts it again. */
  lemma NoRestartWhileDragging(s: DragState, cfg: Config, p: Pointer, measured: Vector)
    requires s.isDragging && s.pointerDownPointer.Some?
    ensures var r := PointerMoveOutcome(s, cfg, p, measured);
      r.state.isDragging && r.state.startPosition == s.startPosition
      && forall i :: 0 <= i < |r.signals| ==> r.signals[i].name != "dragStart"
  {
  }

  /** `dragMove` is forwarded only while dragging; enabled, the position is
      the start position plus the axis-constrained vector, which becomes the
      drag point. */
  lemma DragMoveEffect(s: DragState, axis: Axis, p: Pointer, v: Vector)
    ensures var r := DragMoveOutcome(s, axis, p, v);
      !s.isDragging || !s.isEnabled ==> r == Outcome(s, [])
    ensures var r := DragMoveOutcome(s, axis, p, v);
      s.isDragging && s.isEnabled ==>
        && r.state.dragPoint == Constrain(v, axis)
        && r.state.position == Vector(s.startPosition.x + Constrain(v, axis).x, s.startPosition.y + Constrain(v, axis).y)
        && (axis == AxisX ==> r.state.position.y == s.startPosition.y)
        && (axis == AxisY ==> r.state.position.x == s.startPosition.x)
        && r.signals == [Signal("dragMove", Args(Some(p), Some(v)))]
  {
  }

  /** An end of the tracked pointer ends a drag; clicks stay prevented until
      the scheduled reset runs. */
  lemma UpEndsDrag(s: DragState, e: InputEvent, p: Pointer)
    requires s.boundEvents == Some(e.family) && Tracked(s, e) == Some(p)
    ensures var r := UpOutcome(s, e);
      !r.state.isDragging && !r.state.isPointerDown && r.state.boundEvents.None?
      && r.state.isPreventingClicks == s.isPreventingClicks
      && r.state.clickResets == s.clickResets + (if s.isDragging then 1 else 0)
      && r.signals[0] == Signal("pointerUp", Args(Some(p), None))
  {
  }

  /** A cancel of the tracked pointer releases it but leaves a drag in
      progress; any other cancel changes nothing. */
  lemma CancelKeepsDrag(s: DragState, e: InputEvent)
    ensures CancelOutcome(s, e).state.isDragging == s.isDragging
    ensures CancelOutcome(s, e).state.isPreventingClicks == s.isPreventingClicks
    ensures |CancelOutcome(s, e).signals| <= 1
    ensures e.family != MouseFamily && s.boundEvents == Some(e.family) && Tracked(s, e).Some? ==>
              var r := CancelOutcome(s, e);
              !r.state.isPointerDown && r.state.pointerIdentifier.None? && r.state.boundEvents.None?
              && r.signals == [Signal("pointerCancel", Args(Tracked(s, e), None))]
    ensures e.family == MouseFamily || s.boundEvents != Some(e.family) || Tracked(s, e).None? ==>
              CancelOutcome(s, e) == Outcome(s, [])
  {
  }

  /** `disable` mid-drag leaves the drag flag set and emits nothing. */
  lemma DisableKeepsDrag(s: DragState)
    ensures DisableOutcome(s).state.isDragging == s.isDragging
    ensures !DisableOutcome(s).state.isEnabled
    ensures DisableOutcome(s).signals == []
    ensures DestroyOutcome(s).state.isDragging == s.isDragging && !DestroyOutcome(s).state.handlesBound
  {
  }

  /** Once the drag's click reset has run, clicks pass again. */
  lemma ClickTimerClears(s: DragState)
    requires s.clickResets > 0
    ensures !ClickPrevented(ClickTimerState(s))
    ensures ClickTimerState(s).clickResets == s.clickResets - 1
  {
  }

  // ------------------------------------------------------------ the class

  /** The calls the emitter makes for a list of emitted events. */
  function Emitted(events: map<string, seq<Listener>>, signals: seq<Signal>): seq<Call<Args>> {
    if |signals| == 0 then []
    else Emitted(events, signals[..|signals| - 1])
         + Deliveries(ListenersIn(events, signals[|signals| - 1].name), signals[|signals| - 1].name, signals[|signals| - 1].args)
  }

  lemma {:induction false} EmittedAppend(events: map<string, seq<Listener>>, a: seq<Signal>, b: seq<Signal>)
    ensures Emitted(events, a + b) == Emitted(events, a) + Emitted(events, b)
  {
    if |b| > 0 {
      assert (a + b)[..|a + b| - 1] == a + b[..|b| - 1];
      EmittedAppend(events, a, b[..|b| - 1]);
    } else {
      assert a + b == a;
    }
  }

  lemma EmittedAppend3(events: map<string, seq<Listener>>, a: seq<Signal>, b: seq<Signal>, c: seq<Signal>)
    ensures Emitted(events, a + b + c) == Emitted(events, a) + Emitted(events, b) + Emitted(events, c)
  {
    EmittedAppend(events, a, b);
    EmittedAppend(events, a + b, c);
  }

  lemma ConcatAssoc<T>(a: seq<T>, b: seq<T>, c: seq<T>, d: seq<T>)
    ensures a + b + c + d == a + (b + c + d)
  {
  }

  class Dragger {
    const config: Config
    const emitter: EvEmitter<Args>
    var isPointerDown: bool
    var pointerIdentifier: Option<int>
    var boundEvents: Option<Family>
    var pointerDownPointer: Option<Pointer>
    var isDragging: bool
    var isPreventingClicks: bool
    var clickResets: nat
    var isEnabled: bool
    var handlesBound: bool
    var position: Vector
    var startPosition: Vector
    var dragPoint: Vector
    var leftTop: Option<Vector>
    var transform: Option<Vector>
    var frames: nat

    function State(): DragState
      reads this
    {
      DragState(isPointerDown, pointerIdentifier, boundEvents, pointerDownPointer, isDragging, isPreventingClicks,
                clickResets, isEnabled, handlesBound, position, startPosition, dragPoint, leftTop, transform, frames)
    }

    ghost predicate Valid()
      reads this, emitter
    {
      emitter.Valid() && Coherent(State())
    }

    /** The constructor and `_ready`: the position comes from the element's
        computed style (`initial`); the widget's own handlers are registered. */
    constructor (cfg: Config, initial: Vector)
      ensures Valid() && fresh(emitter)
      ensures config == cfg && State() == Ready(initial)
      ensures emitter.events == map["pointerDown" := [Own("onPointerDown")],
                                    "pointerMove" := [Own("onPointerMove")],
                                    "pointerUp" := [Own("onPointerUp")]]
      ensures emitter.calls == []
    {
      config := cfg;
      var em := new EvEmitter<Args>();
      emitter := em;
      isPointerDown, pointerIdentifier, boundEvents, pointerDownPointer := false, None, None, None;
      isDragging, isPreventingClicks, clickResets := false, false, 0;
      isEnabled, handlesBound := true, true;
      position, startPosition, dragPoint := initial, initial, Origin;
      leftTop, transform, frames := None, None, 0;
      new;
      em.On("pointerDown", Some(Own("onPointerDown")));
      em.On("pointerMove", Some(Own("onPointerMove")));
      em.On("pointerUp", Some(Own("onPointerUp")));
    }

    method Emit(name: string, args: Args)
      modifies emitter`calls
      ensures emitter.calls == old(emitter.calls) + Emitted(emitter.events, [Signal(name, args)])
    {
      emitter.EmitEvent(name, args);
      assert [Signal(name, args)][..0] == [];
    }

    /** The dragger's `pointerDown`. */
    method PointerDown(family: Family, p: Pointer, target: Target)
      modifies this`pointerDownPointer, this`boundEvents, emitter`calls
      ensures var r := PointerDownOutcome(old(State()), family, p, target);
        State() == r.state && emitter.calls == old(emitter.calls) + Emitted(emitter.events, r.signals)
    {
      if !OkayPointerDown(target) {
        return;
      }
      pointerDownPointer := Some(p);
      boundEvents := Some(family);
      Emit("pointerDown", Args(Some(p), None));
    }

    /** `_pointerDown`. */
    method Capture(e: InputEvent, target: Target)
      modifies this`isPointerDown, this`pointerIdentifier, this`pointerDownPointer, this`boundEvents, emitter`calls
      ensures var r := CaptureOutcome(old(State()), e, target);
        State() == r.state && emitter.calls == old(emitter.calls) + Emitted(emitter.events, r.signals)
    {
      if ButtonTruthy(e.button) || isPointerDown {
        return;
      }
      isPointerDown := true;
      var pointer := StartPointer(e);
      if pointer.None? {
        return;
      }
      var p := pointer.value;
      pointerIdentifier := if p.pointerId.Some? then p.pointerId else p.identifier;
      PointerDown(e.family, p, target);
    }

    /** The start event's handler: `onmousedown`, `ontouchstart` or `onpointerdown`. */
    method HandleStart(e: InputEvent, target: Target)
      requires Valid()
      modifies this, emitter`calls
      ensures Valid()
      ensures var r := StartOutcome(old(State()), config, e, target);
        State() == r.state && emitter.calls == old(emitter.calls) + Emitted(emitter.events, r.signals)
    {
      if !handlesBound || e.family != config.start {
        return;
      }
      if e.family == MouseFamily && !MouseFilterPasses(e.button) {
        return;
      }
      ghost var s0 := State();
      Capture(e, target);
      StepCoherent(s0, config, Start(e, target));
    }

    /** `onpointermove` / `ontouchmove` / `onmousemove`: the pointer acted on. */
    method TrackedPointer(e: InputEvent) returns (p: Option<Pointer>)
      ensures p == Tracked(State(), e)
    {
      match e.family
      case MouseFamily => p := Some(e.pointer);
      case PointerFamily => p := if e.pointer.pointerId == pointerIdentifier then Some(e.pointer) else None;
      case TouchFamily => p := GetTouch(e.changedTouches, pointerIdentifier);
    }

    /** `setLeftTop`. */
    method SetLeftTop()
      modifies this`leftTop
      ensures State() == old(State()).(leftTop := Some(position))
    {
      leftTop := Some(position);
    }

    /** `animate`; the frame it requests is counted in `frames`. */
    method Animate()
      modifies this`transform, this`frames
      ensures State() == AnimateState(old(State()))
    {
      if !isDragging {
        return;
      }
      transform := Some(dragPoint);
      frames := frames + 1;
    }

    /** The widget's `dragStart`; `measured` is what `_getPosition` reads. */
    method WidgetDragStart(p: Pointer, measured: Vector)
      modifies this`position, this`startPosition, this`leftTop, this`dragPoint, this`transform, this`frames, emitter`calls
      ensures var r := WidgetDragStartOutcome(old(State()), p, measured);
        State() == r.state && emitter.calls == old(emitter.calls) + Emitted(emitter.events, r.signals)
    {
      if !isEnabled {
        return;
      }
      Measure(measured);
      SetLeftTop();
      dragPoint := Origin;
      Emit("dragStart", Args(Some(p), None));
      Animate();
    }

    /** `_getPosition`, then the start position copied from it. */
    method Measure(measured: Vector)
      modifies this`position, this`startPosition
      ensures State() == old(State()).(position := measured, startPosition := measured)
    {
      position := measured;
      startPosition := position;
    }

    /** `_dragStart`. */
    method DragStart(p: Pointer, measured: Vector)
      modifies this, emitter`calls
      ensures var r := DragStartOutcome(old(State()), p, measured);
        State() == r.state && emitter.calls == old(emitter.calls) + Emitted(emitter.events, r.signals)
    {
      isDragging := true;
      isPreventingClicks := true;
      WidgetDragStart(p, measured);
    }

    /** `_draggerMove`, given the move vector it computes. */
    method DraggerMove(p: Pointer, v: Vector, measured: Vector)
      modifies this, emitter`calls
      ensures var r := DraggerMoveOutcome(old(State()), p, v, measured);
        State() == r.state && emitter.calls == old(emitter.calls) + Emitted(emitter.events, r.signals)
    {
      if !isDragging && HasDragStarted(v) {
        DragStart(p, measured);
      }
    }

    /** `_dragMove` and the widget's `dragMove`. */
    method DragMove(p: Pointer, v: Vector)
      modifies this`position, this`dragPoint, emitter`calls
      ensures var r := DragMoveOutcome(old(State()), config.axis, p, v);
        State() == r.state && emitter.calls == old(emitter.calls) + Emitted(emitter.events, r.signals)
    {
      if !isDragging {
        return;
      }
      if !isEnabled {
        return;
      }
      var dragX := if config.axis == AxisY then 0.0 else v.x;
      var dragY := if config.axis == AxisX then 0.0 else v.y;
      position := Vector(startPosition.x + dragX, startPosition.y + dragY);
      dragPoint := Vector(dragX, dragY);
      Emit("dragMove", Args(Some(p), Some(v)));
    }

    /** The dragger's `pointerMove`. */
    method PointerMove(p: Pointer, measured: Vector)
      modifies this, emitter`calls
      ensures var r := PointerMoveOutcome(old(State()), config, p, measured);
        State() == r.state && emitter.calls == old(emitter.calls) + Emitted(emitter.events, r.signals)
    {
      if pointerDownPointer.None? {
        return;
      }
      ghost var s0, ev, c0 := State(), emitter.events, emitter.calls;
      var moveVector := MoveVector(pointerDownPointer.value, p);
      ghost var started := DraggerMoveOutcome(s0, p, moveVector, measured);
      ghost var pm := [Signal("pointerMove", Args(Some(p), Some(moveVector)))];
      DraggerMove(p, moveVector, measured);
      Emit("pointerMove", Args(Some(p), Some(moveVector)));
      ghost var c2 := emitter.calls;
      ghost var moved := DragMoveOutcome(started.state, config.axis, p, moveVector);
      DragMove(p, moveVector);
      EmittedAppend3(ev, started.signals, pm, moved.signals);
      ConcatAssoc(c0, Emitted(ev, started.signals), Emitted(ev, pm), Emitted(ev, moved.signals));
    }

    /** A move event reaching the window listener. */
    method HandleMove(e: InputEvent, measured: Vector)
      requires Valid()
      modifies this, emitter`calls
      ensures Valid()
      ensures var r := MoveOutcome(old(State()), config, e, measured);
        State() == r.state && emitter.calls == old(emitter.calls) + Emitted(emitter.events, r.signals)
    {
      if boundEvents != Some(e.family) {
        return;
      }
      var pointer := TrackedPointer(e);
      if pointer.None? {
        return;
      }
      ghost var s0 := State();
      PointerMove(pointer.value, measured);
      StepCoherent(s0, config, Move(e, measured));
    }

    /** `_pointerDone`. */
    method PointerDone()
      modifies this`isPointerDown, this`pointerIdentifier, this`boundEvents
      ensures State() == Done(old(State()))
    {
      isPointerDown := false;
      pointerIdentifier := None;
      if boundEvents.None? {
        return;
      }
      boundEvents := None;
    }

    /** The widget's `dragEnd`. */
    method WidgetDragEnd(p: Option<Pointer>)
      modifies this`transform, this`leftTop, emitter`calls
      ensures var r := WidgetDragEndOutcome(old(State()), p);
        State() == r.state && emitter.calls == old(emitter.calls) + Emitted(emitter.events, r.signals)
    {
      if !isEnabled {
        return;
      }
      transform := None;
      SetLeftTop();
      Emit("dragEnd", Args(p, None));
    }

    /** `_dragEnd`. */
    method DragEnd(p: Pointer)
      modifies this`isDragging, this`clickResets, this`transform, this`leftTop, emitter`calls
      ensures var r := DragEndOutcome(old(State()), p);
        State() == r.state && emitter.calls == old(emitter.calls) + Emitted(emitter.events, r.signals)
    {
      isDragging := false;
      // the `setTimeout` that will delete `isPreventingClicks`
      clickResets := clickResets + 1;
      WidgetDragEnd(Some(p));
    }

    /** The dragger's `pointerUp`, with `_draggerUp`. */
    method PointerUp(p: Pointer)
      modifies this`isDragging, this`clickResets, this`transform, this`leftTop, emitter`calls
      ensures var r := PointerUpOutcome(old(State()), p);
        State() == r.state && emitter.calls == old(emitter.calls) + Emitted(emitter.events, r.signals)
    {
      ghost var ev := emitter.events;
      Emit("pointerUp", Args(Some(p), None));
      if isDragging {
        ghost var s1 := State();
        DragEnd(p);
        EmittedAppend(ev, [Signal("pointerUp", Args(Some(p), None))], DragEndOutcome(s1, p).signals);
      } else {
        assert [Signal("pointerUp", Args(Some(p), None))] + [] == [Signal("pointerUp", Args(Some(p), None))];
      }
    }

    /** An end event reaching the window listener. */
    method HandleUp(e: InputEvent)
      requires Valid()
      modifies this, emitter`calls
      ensures Valid()
      ensures var r := UpOutcome(old(State()), e);
        State() == r.state && emitter.calls == old(emitter.calls) + Emitted(emitter.events, r.signals)
    {
      if boundEvents != Some(e.family) {
        return;
      }
      var pointer := TrackedPointer(e);
      if pointer.None? {
        return;
      }
      ghost var s0 := State();
      PointerDone();
      PointerUp(pointer.value);
      StepCoherent(s0, config, Up(e));
    }

    /** A cancel event reaching the window listener. */
    method HandleCancel(e: InputEvent)
      requires Valid()
      modifies this, emitter`calls
      ensures Valid()
      ensures var r := CancelOutcome(old(State()), e);
        State() == r.state && emitter.calls == old(emitter.calls) + Emitted(emitter.events, r.signals)
    {
      if e.family == MouseFamily || boundEvents != Some(e.family) {
        return;
      }
      var pointer := TrackedPointer(e);
      if pointer.None? {
        return;
      }
      PointerDone();
      Emit("pointerCancel", Args(pointer, None));
    }

    /** `onclick` on a handle: whether `preventDefault` is called. */
    method Click() returns (prevented: bool)
      ensures prevented == ClickPrevented(State())
      ensures prevented ==> isPreventingClicks
    {
      if !handlesBound {
        return false;
      }
      prevented := isPreventingClicks;
    }

    /** A click-reset timer of `_dragEnd` fires. */
    method ClickTimerFired()
      requires Valid()
      modifies this`clickResets, this`isPreventingClicks
      ensures Valid() && State() == ClickTimerState(old(State()))
    {
      if clickResets > 0 {
        clickResets := clickResets - 1;
        isPreventingClicks := false;
      }
    }

    /** An animation frame fires and runs `animate`. */
    method AnimationFrame()
      requires Valid()
      modifies this`frames, this`transform
      ensures Valid() && State() == FrameState(old(State()))
    {
      if frames == 0 {
        return;
      }
      frames := frames - 1;
      Animate();
    }

    method Enable()
      requires Valid()
      modifies this`isEnabled
      ensures Valid() && State() == old(State()).(isEnabled := true)
    {
      isEnabled := true;
    }

    method Disable()
      requires Valid()
      modifies this`isEnabled, this`transform, this`leftTop, emitter`calls
      ensures Valid()
      ensures var r := DisableOutcome(old(State()));
        State() == r.state && emitter.calls == old(emitter.calls) + Emitted(emitter.events, r.signals)
    {
      isEnabled := false;
      if isDragging {
        WidgetDragEnd(None);
      }
    }

    method Destroy()
      requires Valid()
      modifies this`isEnabled, this`transform, this`leftTop, this`handlesBound, emitter`calls
      ensures Valid()
      ensures var r := DestroyOutcome(old(State()));
        State() == r.state && emitter.calls == old(emitter.calls) + Emitted(emitter.events, r.signals)
    {
      Disable();
      transform, leftTop, handlesBound := None, None, false;
    }
  }
}
