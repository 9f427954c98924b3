/** src/components/Joystick.tsx: the earlier single-input widget, with its
    pointer handlers built in, a radius of half the base width and a plain
    on/off bounding. */
module LegacyJoystick {
  import opened Wrappers
  import opened Trig
  import opened JoystickCore

  /** `Joystick.MoveEvent`: the offset in pixels only. */
  datatype LegacyMoveEvent = LegacyMoveEvent(offset: Vec, angle: Angle, pressure: Pressure)

  /** `initialStates.eventState()`. */
  const LegacyZeroEvent := LegacyMoveEvent(Vec(0.0, 0.0), Angle(0.0, 0.0), Pressure(0.0, Finite(0.0)))

  datatype LegacyHandleState = LegacyHandleState(dragging: bool, initialOffsets: Vec)

  /** `initialStates.handleState()`. */
  const LegacyInitialHandleState := LegacyHandleState(false, Vec(0.0, 0.0))

  datatype LegacyProps = LegacyProps(disableReset: bool, disableResetAnimation: bool, disableBounding: bool)

  /** Everything the widget changes; `listening` is whether the window's
      `pointermove` and `pointerup` listeners are attached. */
  datatype LegacyState = LegacyState(
    xOffset: real,
    yOffset: real,
    shouldTransition: bool,
    handleState: LegacyHandleState,
    listening: bool,
    events: seq<LegacyMoveEvent>)

  /** Where a requested offset is drawn and what is reported, for a radius
      of half the base width. */
  function LegacyPlace(m: Math, disableBounding: bool, radius: real, x: real, y: real): (Vec, LegacyMoveEvent) {
    var offsetHypotenuse := Hypotenuse(m, x, y);
    var radians := AngleRadians(m, x, y);
    var passThrough := offsetHypotenuse < radius || disableBounding;
    var handleXOffset := if passThrough then x else GetMaxX(m, radians, radius);
    var handleYOffset := if passThrough then y else GetMaxY(m, radians, radius);
    var over := offsetHypotenuse > radius && !disableBounding;
    (Vec(handleXOffset, handleYOffset),
     LegacyMoveEvent(
       Vec(handleXOffset, handleYOffset),
       Angle(radians, RadiansToDegrees(m, radians)),
       Pressure(if over then radius else offsetHypotenuse,
                if over then Finite(100.0) else PressurePercentage(offsetHypotenuse, radius))))
  }

  /** The widget when created: nothing drawn, and `onMove` has received the zero event. */
  const LegacyInitialState := LegacyState(0.0, 0.0, false, LegacyInitialHandleState, false, [LegacyZeroEvent])

  /** `handlePointerDown` at `at`: attach the listeners, turn the transition
      off and, unless reset is disabled and a drag is already on, start
      dragging from `at`. */
  function LegacyDown(props: LegacyProps, s: LegacyState, at: Vec): LegacyState {
    var s1 := s.(listening := true, shouldTransition := false);
    if !props.disableReset || !s.handleState.dragging then s1.(handleState := LegacyHandleState(true, at))
    else s1
  }

  /** `handlePointerMove` at `at`, with the base's width once it is rendered:
      draw and report only while dragging with the base rendered. */
  function LegacyMove(m: Math, props: LegacyProps, baseWidth: Option<real>, s: LegacyState, at: Vec): LegacyState {
    if s.listening && s.handleState.dragging && baseWidth.Some? then
      var (handle, event) := LegacyPlace(m, props.disableBounding, baseWidth.value / 2.0,
                                         at.x - s.handleState.initialOffsets.x, at.y - s.handleState.initialOffsets.y);
      s.(xOffset := handle.x, yOffset := handle.y, events := s.events + [event])
    else s
  }

  /** `handlePointerUp`, the first one after a press: detach the listeners,
      turn the transition on and, unless reset is disabled, stop dragging,
      recentre the handle and report the zero event. */
  function LegacyUp(props: LegacyProps, s: LegacyState): LegacyState {
    if !s.listening then s
    else
      var s1 := s.(listening := false, shouldTransition := true);
      if props.disableReset then s1
      else s1.(handleState := LegacyInitialHandleState, xOffset := 0.0, yOffset := 0.0,
               events := s1.events + [LegacyZeroEvent])
  }

  /** The reduction of a plugin-based event to the earlier event: the pixel offset only. */
  function Legacy(e: MoveEvent): LegacyMoveEvent {
    LegacyMoveEvent(e.offset.pixels, e.angle, e.pressure)
  }

  /** The earlier placement is the plugin-based engine's with both axes
      enabled, `boundingModel: "none"` for `disableBounding` and any other
      model otherwise: same handle, same angle, same pressure. */
  lemma LegacyAgreesWithEngine(m: Math, props: JoystickProps, disableBounding: bool, radius: real, x: real, y: real)
    requires !props.disableX && !props.disableY
    requires props.boundingModel == Unbounded <==> disableBounding
    ensures var (handle, event) := LegacyPlace(m, disableBounding, radius, x, y);
      var p := Place(m, props, radius, x, y);
      handle == p.handle && event == Legacy(p.event)
  {
  }

  /** So with bounding on the handle never leaves the circle of half the base width. */
  lemma LegacyHandleInside(m: Math, radius: real, x: real, y: real)
    requires HypotLaw(m) && Pythagorean(m)
    requires radius >= 0.0
    ensures var (handle, _) := LegacyPlace(m, false, radius, x, y);
      m.hypot(handle.x, handle.y) <= radius
  {
    LegacyAgreesWithEngine(m, DefaultProps, false, radius, x, y);
    HandleInsideRadius(m, DefaultProps, radius, x, y);
  }

  /** A move is drawn only between a press and its release, and only once
      the base is rendered; before that it changes nothing and, unlike the
      plugin-based widget, does not throw. */
  lemma LegacyMoveGate(m: Math, props: LegacyProps, baseWidth: Option<real>, s: LegacyState, at: Vec)
    ensures !s.listening || !s.handleState.dragging || baseWidth.None? ==> LegacyMove(m, props, baseWidth, s, at) == s
    ensures s.listening && s.handleState.dragging && baseWidth.Some? ==>
      var s' := LegacyMove(m, props, baseWidth, s, at);
      var (handle, event) := LegacyPlace(m, props.disableBounding, baseWidth.value / 2.0,
                                         at.x - s.handleState.initialOffsets.x, at.y - s.handleState.initialOffsets.y);
      && Vec(s'.xOffset, s'.yOffset) == handle
      && s'.events == s.events + [event]
      && s'.handleState == s.handleState && s'.listening && s'.shouldTransition == s.shouldTransition
  {
  }

  /** Press at p, move to q, release: the handle was drawn for q - p and
      ends at the centre, and the consumer's last event is the zero event. */
  lemma LegacyDragCycle(m: Math, props: LegacyProps, w: real, s: LegacyState, p: Vec, q: Vec)
    requires !props.disableReset
    ensures var s1 := LegacyDown(props, s, p);
      var s2 := LegacyMove(m, props, Some(w), s1, q);
      var s3 := LegacyUp(props, s2);
      && Vec(s2.xOffset, s2.yOffset) == LegacyPlace(m, props.disableBounding, w / 2.0, q.x - p.x, q.y - p.y).0
      && s3.xOffset == 0.0 && s3.yOffset == 0.0
      && s3.events == s.events + [LegacyPlace(m, props.disableBounding, w / 2.0, q.x - p.x, q.y - p.y).1, LegacyZeroEvent]
      && s3.handleState == LegacyInitialHandleState && !s3.listening && s3.shouldTransition
  {
  }

  /** With reset disabled a release keeps the drag and the anchor, and the
      next press does not move the anchor: the handle resumes from where it
      was left, and only the listeners come and go. */
  lemma LegacyStickyDrag(props: LegacyProps, s: LegacyState, p: Vec)
    requires props.disableReset && s.listening && s.handleState.dragging
    ensures var s1 := LegacyUp(props, s);
      && s1 == s.(listening := false, shouldTransition := true)
      && LegacyDown(props, s1, p).handleState == s.handleState
      && LegacyDown(props, s1, p).listening
  {
  }

  class Joystick {
    const math: Math
    const props: LegacyProps
    /** `baseRef.clientWidth`, once the base is rendered. */
    var baseWidth: Option<real>
    var xOffset: real
    var yOffset: real
    var shouldTransition: bool
    var handleState: LegacyHandleState
    var listening: bool
    var events: seq<LegacyMoveEvent>

    function State(): LegacyState reads this {
      LegacyState(xOffset, yOffset, shouldTransition, handleState, listening, events)
    }

    /** Creating the widget reports the zero event once. */
    constructor (math: Math, props: LegacyProps)
      ensures this.math == math && this.props == props && baseWidth == None
      ensures State() == LegacyInitialState
    {
      this.math := math;
      this.props := props;
      baseWidth := None;
      xOffset, yOffset, shouldTransition := 0.0, 0.0, false;
      handleState := LegacyInitialHandleState;
      listening := false;
      events := [LegacyZeroEvent];
    }

    method Render(width: real)
      modifies this`baseWidth
      ensures baseWidth == Some(width)
    {
      baseWidth := Some(width);
    }

    method HandlePointerDown(clientX: real, clientY: real)
      modifies this`listening, this`shouldTransition, this`handleState
      ensures State() == LegacyDown(props, old(State()), Vec(clientX, clientY))
    {
      listening := true;
      shouldTransition := false;
      if !props.disableReset || !handleState.dragging {
        handleState := LegacyHandleState(true, Vec(clientX, clientY));
      }
    }

    method HandlePointerMove(clientX: real, clientY: real)
      modifies this`xOffset, this`yOffset, this`events
      ensures State() == LegacyMove(math, props, baseWidth, old(State()), Vec(clientX, clientY))
    {
      if !listening {
        return;
      }
      if handleState.dragging && baseWidth.Some? {
        var radius := baseWidth.value / 2.0;
        var (handle, event) := LegacyPlace(math, props.disableBounding, radius,
                                           clientX - handleState.initialOffsets.x, clientY - handleState.initialOffsets.y);
        xOffset, yOffset := handle.x, handle.y;
        events := events + [event];
      }
    }

    method HandlePointerUp()
      modifies this`listening, this`shouldTransition, this`handleState, this`xOffset, this`yOffset, this`events
      ensures State() == LegacyUp(props, old(State()))
    {
      if !listening {
        return;
      }
      listening := false;
      shouldTransition := true;
      if !props.disableReset {
        handleState := LegacyInitialHandleState;
        yOffset := 0.0;
        xOffset := 0.0;
        events := events + [LegacyZeroEvent];
      }
    }
  }
}
