/** src/stories/Joystick.tsx: the storybook's own mouse-driven joystick,
    with the same geometry written out in its `Geometry` namespace. */
module StoryJoystick {
  import opened Wrappers
  import opened Trig
  import opened JoystickCore

  /** `Joystick.HandleState`: an anchor exists only while dragging. */
  datatype StoryHandleState = NotDragging | Dragging(initialOffsets: Vec)

  /** `Joystick.MoveEvent` of the story: the offset in pixels only. */
  datatype StoryMoveEvent = StoryMoveEvent(offset: Vec, angle: Angle, pressure: Pressure)

  const StoryZeroEvent := StoryMoveEvent(Vec(0.0, 0.0), Angle(0.0, 0.0), Pressure(0.0, Finite(0.0)))

  /** Everything the story widget changes.  Its `mousemove` and `mouseup`
      listeners are attached exactly while it is dragging. */
  datatype StoryState = StoryState(
    xOffset: real,
    yOffset: real,
    shouldTransition: bool,
    handleState: StoryHandleState,
    events: seq<StoryMoveEvent>)

  /** The widget when created: unlike the library's widgets it reports nothing. */
  const StoryInitialState := StoryState(0.0, 0.0, false, NotDragging, [])

  /** `Geometry.angleRadians`, written out again in the story. */
  function GeometryAngleRadians(m: Math, x: real, y: real): real {
    var inverseTan := m.atan2(-y, x);
    if inverseTan > 0.0 then inverseTan else inverseTan + 2.0 * m.PI
  }

  function GeometryAngleDegrees(m: Math, x: real, y: real): real {
    (GeometryAngleRadians(m, x, y) * 180.0) / m.PI
  }

  /** `Geometry.getMaxX` takes the offset, not its angle. */
  function GeometryGetMaxX(m: Math, x: real, y: real, radius: real): real {
    m.sin(GeometryAngleRadians(m, x, y) + m.PI / 2.0) * radius
  }

  function GeometryGetMaxY(m: Math, x: real, y: real, radius: real): real {
    m.cos(GeometryAngleRadians(m, x, y) + m.PI / 2.0) * radius
  }

  /** The story's `Geometry` namespace is `Trig` composed with `angleRadians`:
      the same normalisation, degrees and clamp point. */
  lemma GeometryIsTrig(m: Math, x: real, y: real, radius: real)
    ensures GeometryAngleRadians(m, x, y) == AngleRadians(m, x, y)
    ensures GeometryAngleDegrees(m, x, y) == RadiansToDegrees(m, AngleRadians(m, x, y))
    ensures GeometryGetMaxX(m, x, y, radius) == GetMaxX(m, AngleRadians(m, x, y), radius)
    ensures GeometryGetMaxY(m, x, y, radius) == GetMaxY(m, AngleRadians(m, x, y), radius)
  {
  }

  /** `(offsetHypotenuse / radius) * 100`, with no absolute value. */
  function StoryPercentage(offsetHypotenuse: real, radius: real): Num {
    if radius == 0.0 then NonFinite else Finite((offsetHypotenuse / radius) * 100.0)
  }

  /** The body of `handleMouseMove` for a requested offset: always bounded
      (to the circle of the given radius), and the angle is that of the
      drawn offset rather than the requested one. */
  function StoryPlace(m: Math, radius: real, x: real, y: real): (Vec, StoryMoveEvent) {
    var offsetHypotenuse := m.hypot(x, y);
    var handleXOffset := if offsetHypotenuse < radius then x else GeometryGetMaxX(m, x, y, radius);
    var handleYOffset := if offsetHypotenuse < radius then y else GeometryGetMaxY(m, x, y, radius);
    var over := offsetHypotenuse > radius;
    (Vec(handleXOffset, handleYOffset),
     StoryMoveEvent(
       Vec(handleXOffset, handleYOffset),
       Angle(GeometryAngleRadians(m, handleXOffset, handleYOffset), GeometryAngleDegrees(m, handleXOffset, handleYOffset)),
       Pressure(if over then radius else offsetHypotenuse,
                if over then Finite(100.0) else StoryPercentage(offsetHypotenuse, radius))))
  }

  /** `handleMouseDown` at `at`: always start a fresh drag from `at`. */
  function StoryDown(s: StoryState, at: Vec): StoryState {
    s.(shouldTransition := false, handleState := Dragging(at))
  }

  /** `handleMouseMove` at `at`, with the base's width once it is rendered. */
  function StoryMove(m: Math, baseWidth: Option<real>, s: StoryState, at: Vec): StoryState {
    if s.handleState.Dragging? && baseWidth.Some? then
      var (handle, event) := StoryPlace(m, baseWidth.value / 2.0,
                                        at.x - s.handleState.initialOffsets.x, at.y - s.handleState.initialOffsets.y);
      s.(xOffset := handle.x, yOffset := handle.y, events := s.events + [event])
    else s
  }

  /** `handleMouseUp`, the first one after a press: stop dragging, recentre
      the handle and report the zero event; no reset can be disabled. */
  function StoryUp(s: StoryState): StoryState {
    if s.handleState.NotDragging? then s
    else s.(handleState := NotDragging, shouldTransition := true, xOffset := 0.0, yOffset := 0.0,
            events := s.events + [StoryZeroEvent])
  }

  /** The story draws the handle where the library's engine does with the
      centre model and both axes enabled, and reports the same pressure in
      pixels; its angle is the angle of the drawn offset. */
  lemma StoryAgreesWithEngine(m: Math, props: JoystickProps, radius: real, x: real, y: real)
    requires props.boundingModel == Center && !props.disableX && !props.disableY
    ensures var (handle, event) := StoryPlace(m, radius, x, y);
      var p := Place(m, props, radius, x, y);
      && handle == p.handle
      && event.offset == p.handle
      && event.pressure.pixels == p.event.pressure.pixels
      && event.angle == Angle(AngleRadians(m, handle.x, handle.y), RadiansToDegrees(m, AngleRadians(m, handle.x, handle.y)))
  {
    GeometryIsTrig(m, x, y, radius);
    var (handle, _) := StoryPlace(m, radius, x, y);
    GeometryIsTrig(m, handle.x, handle.y, radius);
  }

  /** For a positive radius the percentages agree too: the missing absolute
      value changes nothing, as a length over a positive radius is never
      negative. */
  lemma StoryPercentageAgrees(m: Math, props: JoystickProps, radius: real, x: real, y: real)
    requires HypotLaw(m)
    requires props.boundingModel == Center && radius > 0.0
    ensures StoryPlace(m, radius, x, y).1.pressure == Place(m, props, radius, x, y).event.pressure
  {
    assert HypotAt(m, x, y);
    var h := m.hypot(x, y);
    assert h / radius >= 0.0;
  }

  /** With a zero radius the only input whose percentage is not a number is
      the zero offset: any other is past the radius and reads 100. */
  lemma StoryZeroRadius(m: Math, x: real, y: real)
    requires HypotLaw(m)
    ensures StoryPlace(m, 0.0, x, y).1.pressure.percentage.NonFinite? <==> m.hypot(x, y) == 0.0
  {
    assert HypotAt(m, x, y);
  }

  /** A move is drawn only while dragging with the base rendered, and then
      leaves the drag and the transition alone. */
  lemma StoryMoveGate(m: Math, baseWidth: Option<real>, s: StoryState, at: Vec)
    ensures s.handleState.NotDragging? || baseWidth.None? ==> StoryMove(m, baseWidth, s, at) == s
    ensures s.handleState.Dragging? && baseWidth.Some? ==>
      var s' := StoryMove(m, baseWidth, s, at);
      && |s'.events| == |s.events| + 1
      && s'.handleState == s.handleState && s'.shouldTransition == s.shouldTransition
  {
  }

  /** Press at p, move to q, release: the handle was drawn for q - p, ends
      at the centre, and the consumer's last event is the zero event.  A
      second press always re-anchors. */
  lemma StoryDragCycle(m: Math, w: real, s: StoryState, p: Vec, q: Vec, r: Vec)
    ensures var s1 := StoryDown(s, p);
      var s2 := StoryMove(m, Some(w), s1, q);
      var s3 := StoryUp(s2);
      && Vec(s2.xOffset, s2.yOffset) == StoryPlace(m, w / 2.0, q.x - p.x, q.y - p.y).0
      && s3.xOffset == 0.0 && s3.yOffset == 0.0
      && s3.events == s.events + [StoryPlace(m, w / 2.0, q.x - p.x, q.y - p.y).1, StoryZeroEvent]
      && s3.handleState == NotDragging && s3.shouldTransition
      && StoryDown(s2, r).handleState == Dragging(r)
  {
  }

  class Joystick {
    const math: Math
    /** `base.clientWidth`, once the base is rendered. */
    var baseWidth: Option<real>
    var xOffset: real
    var yOffset: real
    var shouldTransition: bool
    var state: StoryHandleState
    var events: seq<StoryMoveEvent>

    function State(): StoryState reads this {
      StoryState(xOffset, yOffset, shouldTransition, state, events)
    }

    constructor (math: Math)
      ensures this.math == math && baseWidth == None
      ensures State() == StoryInitialState
    {
      this.math := math;
      baseWidth := None;
      xOffset, yOffset, shouldTransition := 0.0, 0.0, false;
      state := NotDragging;
      events := [];
    }

    method Render(width: real)
      modifies this`baseWidth
      ensures baseWidth == Some(width)
    {
      baseWidth := Some(width);
    }

    method HandleMouseDown(screenX: real, screenY: real)
      modifies this`shouldTransition, this`state
      ensures State() == StoryDown(old(State()), Vec(screenX, screenY))
    {
      shouldTransition := false;
      state := Dragging(Vec(screenX, screenY));
    }

    method HandleMouseMove(screenX: real, screenY: real)
      modifies this`xOffset, this`yOffset, this`events
      ensures State() == StoryMove(math, baseWidth, old(State()), Vec(screenX, screenY))
    {
      if state.Dragging? && baseWidth.Some? {
        var radius := baseWidth.value / 2.0;
        var (handle, event) := StoryPlace(math, radius, screenX - state.initialOffsets.x, screenY - state.initialOffsets.y);
        xOffset, yOffset := handle.x, handle.y;
        events := events + [event];
      }
    }

    method HandleMouseUp()
      modifies this`state, this`shouldTransition, this`xOffset, this`yOffset, this`events
      ensures State() == StoryUp(old(State()))
    {
      if state.NotDragging? {
        return;
      }
      state := NotDragging;
      shouldTransition := true;
      yOffset := 0.0;
      xOffset := 0.0;
      events := events + [StoryZeroEvent];
    }
  }
}
