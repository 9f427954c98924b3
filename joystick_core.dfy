/** The plugin-based widget of src/components/Joystick/Joystick.tsx: the
    effective radius, the bounding engine behind `handleHandleMove`, the
    event throttle, and the state every input plugin shares. */
module JoystickCore {
  import opened Wrappers
  import opened Trig

  datatype Vec = Vec(x: real, y: real)
  datatype NumVec = NumVec(x: Num, y: Num)
  datatype Angle = Angle(radians: real, degrees: real)
  datatype Pressure = Pressure(pixels: real, percentage: Num)
  datatype Offset = Offset(pixels: Vec, percentage: NumVec)

  /** `JoystickMoveEvent`: what the consumer's `onMove` receives. */
  datatype MoveEvent = MoveEvent(offset: Offset, angle: Angle, pressure: Pressure)

  /** `initialStates.eventState()`: the all-zero event. */
  const ZeroEvent := MoveEvent(
    Offset(Vec(0.0, 0.0), NumVec(Finite(0.0), Finite(0.0))),
    Angle(0.0, 0.0),
    Pressure(0.0, Finite(0.0)))

  /** "inner" | "center" | "outer" | "none" (`Unbounded` is "none"). */
  datatype BoundingModel = Inner | Center | Outer | Unbounded

  /** The props the engine and the plugins read.  `resetAnimation`,
      `baseProps`, `handleProps` and `onMove` itself are presentation or
      the consumer's callback; what reaches `onMove` is the `events` log. */
  datatype JoystickProps = JoystickProps(
    disableReset: bool,
    disableResetAnimation: bool,
    disabled: bool,
    disableX: bool,
    disableY: bool,
    boundingModel: BoundingModel,
    boundaryModifier: real,
    throttleEventsBy: real)

  /** The defaults of the component's destructured props. */
  const DefaultProps := JoystickProps(false, false, false, false, false, Center, 0.0, 0.0)

  datatype Size = Size(clientWidth: real, clientHeight: real)

  /** The rendered base and handle elements, absent until the first render. */
  datatype Layout = Layout(base: Option<Size>, handle: Option<Size>)

  /** What a handler of the core can throw: `getRadius` before the first
      render, a touch event without a target touch, and a plugin reading
      `.current` of a ref (`handleRef`, `baseRef`) that the widget does not
      pass to its plugins. */
  datatype Fault = RadiusBeforeRender | NoTargetTouch | MissingRef

  function Max(a: real, b: real): real {
    if a >= b then a else b
  }

  /** `getRadius`: half the base width, moved in or out by half the handle's
      larger side for the inner and outer models, plus `boundaryModifier`.
      It throws when either element has not been rendered. */
  function GetRadius(props: JoystickProps, layout: Layout): (r: Result<real, Fault>)
    ensures r.Failure? <==> layout.base.None? || layout.handle.None?
    ensures r.Failure? ==> r.error == RadiusBeforeRender
  {
    if layout.base.Some? && layout.handle.Some? then
      var handle := layout.handle.value;
      var edgeBoundingModifier :=
        if props.boundingModel == Inner || props.boundingModel == Outer
        then Max(handle.clientWidth, handle.clientHeight) / 2.0
        else 0.0;
      Success(layout.base.value.clientWidth / 2.0
        + (if props.boundingModel == Outer then edgeBoundingModifier else -edgeBoundingModifier)
        + props.boundaryModifier)
    else
      Failure(RadiusBeforeRender)
  }

  /** The radius of each bounding model, stated model by model. */
  lemma RadiusByModel(props: JoystickProps, base: Size, handle: Size)
    ensures var r := GetRadius(props, Layout(Some(base), Some(handle)));
      && r.Success?
      && var half, edge := base.clientWidth / 2.0, Max(handle.clientWidth, handle.clientHeight) / 2.0;
      && (props.boundingModel in {Center, Unbounded} ==> r.value == half + props.boundaryModifier)
      && (props.boundingModel == Inner ==> r.value == half - edge + props.boundaryModifier)
      && (props.boundingModel == Outer ==> r.value == half + edge + props.boundaryModifier)
  {
  }

  /** For a handle of non-negative size, inner <= center <= outer. */
  lemma RadiusOrdered(props: JoystickProps, base: Size, handle: Size)
    requires handle.clientWidth >= 0.0 || handle.clientHeight >= 0.0
    ensures var layout := Layout(Some(base), Some(handle));
      && GetRadius(props.(boundingModel := Inner), layout).value
         <= GetRadius(props.(boundingModel := Center), layout).value
         <= GetRadius(props.(boundingModel := Outer), layout).value
  {
  }

  // ---------------------------------------------------------------------
  // The shared drag state

  /** `handleState`: one drag slot per plugin and one shared anchor. */
  datatype HandleState = HandleState(pluginDragging: seq<bool>, initialOffsets: Vec)

  /** `initialStates.handleState()`. */
  const InitialHandleState := HandleState([], Vec(0.0, 0.0))

  /** `pluginDragging.some(dragging => dragging)`. */
  predicate AnyDragging(slots: seq<bool>) {
    true in slots
  }

  /** Reading `pluginDragging[i]`: a slot never written is `undefined`, which is falsy. */
  predicate Slot(slots: seq<bool>, i: nat) {
    i < |slots| && slots[i]
  }

  /** `pluginDragging[i] = v`: writing past the end grows the array, and the
      slots in between are holes that read as falsy. */
  function SetSlot(slots: seq<bool>, i: nat, v: bool): (r: seq<bool>)
    ensures |r| == if i < |slots| then |slots| else i + 1
    ensures Slot(r, i) == v
    ensures forall j: nat :: j != i ==> Slot(r, j) == Slot(slots, j)
  {
    seq(if i < |slots| then |slots| else i + 1, j requires 0 <= j => if j == i then v else Slot(slots, j))
  }

  /** Some slot is true exactly when some index reads as true. */
  lemma AnyDraggingBySlot(slots: seq<bool>)
    ensures AnyDragging(slots) <==> exists j: nat :: Slot(slots, j)
  {
    if AnyDragging(slots) {
      var j :| 0 <= j < |slots| && slots[j];
      assert Slot(slots, j);
    }
  }

  /** Setting a slot makes the gate open; clearing one closes it exactly
      when no other plugin is dragging. */
  lemma SetSlotGate(slots: seq<bool>, i: nat)
    ensures AnyDragging(SetSlot(slots, i, true))
    ensures AnyDragging(SetSlot(slots, i, false)) <==> exists j: nat :: j != i && Slot(slots, j)
  {
    AnyDraggingBySlot(SetSlot(slots, i, true));
    AnyDraggingBySlot(SetSlot(slots, i, false));
    if exists j: nat :: j != i && Slot(slots, j) {
      var j: nat :| j != i && Slot(slots, j);
      assert Slot(SetSlot(slots, i, false), j);
    }
  }

  // ---------------------------------------------------------------------
  // The bounding engine

  datatype Placement = Placement(handle: Vec, event: MoveEvent)

  /** `Math.abs((offsetHypotenuse / radius) * 100)`. */
  function PressurePercentage(hypotenuse: real, radius: real): (p: Num)
    ensures p.NonFinite? <==> radius == 0.0
    ensures p.Finite? ==> p.value >= 0.0 && p.value * Abs(radius) == Abs(hypotenuse) * 100.0
  {
    if radius == 0.0 then NonFinite
    else
      var q := hypotenuse / radius;
      assert q * radius == hypotenuse;
      assert Abs(q * 100.0) * Abs(radius) == Abs(hypotenuse) * 100.0 by {
        if q >= 0.0 && radius > 0.0 {
        } else if q < 0.0 && radius > 0.0 {
        } else if q >= 0.0 && radius < 0.0 {
        } else {
        }
      }
      Finite(Abs(q * 100.0))
  }

  /** The body of `handleHandleMove` once the gate has opened: where the
      handle is drawn and the event it reports, for a requested offset. */
  function Place(m: Math, props: JoystickProps, radius: real, x: real, y: real): Placement {
    var offsetHypotenuse := Hypotenuse(m, x, y);
    var radians := AngleRadians(m, x, y);
    var passThrough := offsetHypotenuse < radius || props.boundingModel == Unbounded;
    var handleXOffset := if props.disableX then 0.0 else if passThrough then x else GetMaxX(m, radians, radius);
    var handleYOffset := if props.disableY then 0.0 else if passThrough then y else GetMaxY(m, radians, radius);
    var over := offsetHypotenuse > radius && props.boundingModel != Unbounded;
    Placement(
      Vec(handleXOffset, handleYOffset),
      MoveEvent(
        Offset(Vec(handleXOffset, handleYOffset),
               NumVec(Quotient(handleXOffset, radius), Quotient(handleYOffset, radius))),
        Angle(radians, RadiansToDegrees(m, radians)),
        Pressure(if over then radius else offsetHypotenuse,
                 if over then Finite(100.0) else PressurePercentage(offsetHypotenuse, radius))))
  }

  /** A disabled axis is always drawn at 0, clamped or not. */
  lemma DisabledAxisIsZero(m: Math, props: JoystickProps, radius: real, x: real, y: real)
    ensures props.disableX ==> Place(m, props, radius, x, y).handle.x == 0.0
    ensures props.disableY ==> Place(m, props, radius, x, y).handle.y == 0.0
  {
  }

  /** Inside the radius, or with no bounding, the requested offset is drawn as is. */
  lemma PassThrough(m: Math, props: JoystickProps, radius: real, x: real, y: real)
    requires m.hypot(x, y) < radius || props.boundingModel == Unbounded
    ensures Place(m, props, radius, x, y).handle
         == Vec(if props.disableX then 0.0 else x, if props.disableY then 0.0 else y)
  {
  }

  /** Outside the radius, with bounding, the handle sits exactly on the circle. */
  lemma ClampedOnCircle(m: Math, props: JoystickProps, radius: real, x: real, y: real)
    requires Pythagorean(m)
    requires props.boundingModel != Unbounded && !props.disableX && !props.disableY
    requires m.hypot(x, y) >= radius
    ensures var h := Place(m, props, radius, x, y).handle;
      h.x * h.x + h.y * h.y == radius * radius
  {
    MaxOnCircle(m, AngleRadians(m, x, y), radius);
  }

  /** ... and on the ray from the centre towards the requested offset. */
  lemma ClampedAlongRay(m: Math, props: JoystickProps, radius: real, x: real, y: real)
    requires HypotLaw(m) && Polar(m) && QuarterTurn(m) && FullTurn(m)
    requires props.boundingModel != Unbounded && !props.disableX && !props.disableY
    requires m.hypot(x, y) >= radius && m.hypot(x, y) > 0.0
    ensures var h := Place(m, props, radius, x, y).handle;
      h.x * m.hypot(x, y) == radius * x && h.y * m.hypot(x, y) == radius * y
  {
    MaxAlongRay(m, x, y, radius);
  }

  /** The reported pressure: the radius and 100 % once past the radius with
      bounding on, otherwise the distance and its share of the radius. */
  lemma PressureCases(m: Math, props: JoystickProps, radius: real, x: real, y: real)
    ensures var p := Place(m, props, radius, x, y).event.pressure;
      && (m.hypot(x, y) > radius && props.boundingModel != Unbounded ==> p == Pressure(radius, Finite(100.0)))
      && (m.hypot(x, y) <= radius || props.boundingModel == Unbounded ==>
            p == Pressure(m.hypot(x, y), PressurePercentage(m.hypot(x, y), radius)))
  {
  }

  /** Angle and pressure come from the requested offset, not the drawn one:
      disabling an axis does not change them. */
  lemma AngleAndPressureIgnoreDisabledAxes(m: Math, props: JoystickProps, radius: real, x: real, y: real)
    ensures var e, e' := Place(m, props, radius, x, y).event,
                         Place(m, props.(disableX := false, disableY := false), radius, x, y).event;
      e.angle == e'.angle && e.pressure == e'.pressure
  {
  }

  /** With bounding on and a positive radius the pressure percentage lies in [0, 100]. */
  lemma PressureAtMostHundred(m: Math, props: JoystickProps, radius: real, x: real, y: real)
    requires HypotLaw(m)
    requires props.boundingModel != Unbounded && radius > 0.0
    ensures var p := Place(m, props, radius, x, y).event.pressure.percentage;
      p.Finite? && 0.0 <= p.value <= 100.0
  {
    assert HypotAt(m, x, y);
    var h := m.hypot(x, y);
    if h <= radius {
      assert h / radius <= 1.0;
      assert (h / radius) * 100.0 <= 100.0;
    }
  }

  /** With bounding on and a non-negative radius the handle is never drawn
      outside the circle, whichever axes are disabled. */
  lemma HandleInsideRadius(m: Math, props: JoystickProps, radius: real, x: real, y: real)
    requires HypotLaw(m) && Pythagorean(m)
    requires props.boundingModel != Unbounded && radius >= 0.0
    ensures var h := Place(m, props, radius, x, y).handle;
      m.hypot(h.x, h.y) <= radius
  {
    var h := Place(m, props, radius, x, y).handle;
    HypotAtMost(m, h.x, h.y, radius);
    if m.hypot(x, y) < radius {
      HypotAtMost(m, x, y, radius);
      DroppedAxesStayInside(h.x, h.y, x, y, radius * radius);
    } else {
      var a := AngleRadians(m, x, y);
      MaxOnCircle(m, a, radius);
      DroppedAxesStayInside(h.x, h.y, GetMaxX(m, a, radius), GetMaxY(m, a, radius), radius * radius);
    }
  }

  /** Zeroing either coordinate of a point inside a circle keeps it inside. */
  lemma DroppedAxesStayInside(hx: real, hy: real, a: real, b: real, r2: real)
    requires hx == 0.0 || hx == a
    requires hy == 0.0 || hy == b
    requires a * a + b * b <= r2
    ensures hx * hx + hy * hy <= r2
  {
  }

  /** Centre model, radius 100, raw (150, 0). The
      handle is clamped to (100, 0) with pressure (100, 100 %); the angle is
      2π, not 0. */
  lemma ScenarioClampRightward(m: Math, props: JoystickProps)
    requires HypotLaw(m) && Polar(m) && QuarterTurn(m) && FullTurn(m) && AxisAngles(m)
    requires props.boundingModel == Center && !props.disableX && !props.disableY
    ensures var p := Place(m, props, 100.0, 150.0, 0.0);
      && p.handle == Vec(100.0, 0.0)
      && p.event.angle.radians == 2.0 * m.PI
      && p.event.pressure == Pressure(100.0, Finite(100.0))
  {
    assert HypotAt(m, 150.0, 0.0);
    NonNegativeRootUnique(m.hypot(150.0, 0.0), 150.0);
    RightwardIsFullTurn(m, 150.0);
    ClampedAlongRay(m, props, 100.0, 150.0, 0.0);
  }

  /** With no bounding, raw (150, 0) at radius 100 is
      drawn unchanged and the pressure is 150 px, 150 %. */
  lemma ScenarioUnbounded(m: Math, props: JoystickProps)
    requires HypotLaw(m)
    requires props.boundingModel == Unbounded && !props.disableX && !props.disableY
    ensures var p := Place(m, props, 100.0, 150.0, 0.0);
      p.handle == Vec(150.0, 0.0) && p.event.pressure == Pressure(150.0, Finite(150.0))
  {
    assert HypotAt(m, 150.0, 0.0);
    NonNegativeRootUnique(m.hypot(150.0, 0.0), 150.0);
  }

  // ---------------------------------------------------------------------
  // The widget's observable state and the specification of its operations

  /** Everything the widget changes: the rendered offsets, the transition
      flag, the shared drag state, the throttle's clock and the events the
      consumer has received. */
  datatype Snapshot = Snapshot(
    xOffset: real,
    yOffset: real,
    shouldTransition: bool,
    handleState: HandleState,
    lastTime: real,
    events: seq<MoveEvent>)

  /** What the widget's handlers read but do not change. */
  datatype Environment = Environment(math: Math, props: JoystickProps, layout: Layout)

  /** `onMove(event)`, as the plugins call it: never throttled. */
  function Emit(s: Snapshot, event: MoveEvent): Snapshot {
    s.(events := s.events + [event])
  }

  /** Whether `onMoveThrottled` forwards an event at time `now`. */
  predicate Forwards(throttleEventsBy: real, lastTime: real, now: real) {
    throttleEventsBy == 0.0 || now - lastTime >= throttleEventsBy
  }

  /** `onMoveThrottled(event)`: with a zero throttle it is `onMove`; otherwise
      an event is forwarded only when `throttleEventsBy` has passed since the
      last forwarded one, and a dropped event is not queued. */
  function EmitThrottled(props: JoystickProps, s: Snapshot, event: MoveEvent, now: real): Snapshot {
    if props.throttleEventsBy == 0.0 then Emit(s, event)
    else if now - s.lastTime >= props.throttleEventsBy then Emit(s.(lastTime := now), event)
    else s
  }

  /** The throttle forwards exactly the events `Forwards` admits, moves its
      clock only when it forwards, and changes nothing else. */
  lemma ThrottleContract(props: JoystickProps, s: Snapshot, event: MoveEvent, now: real)
    ensures var s' := EmitThrottled(props, s, event, now);
      && (Forwards(props.throttleEventsBy, s.lastTime, now) ==> s'.events == s.events + [event])
      && (!Forwards(props.throttleEventsBy, s.lastTime, now) ==> s'.events == s.events)
      && (s'.lastTime != s.lastTime ==> s'.events == s.events + [event] && s'.lastTime == now)
      && s'.(events := s.events, lastTime := s.lastTime) == s
  {
  }

  /** With a 100 ms throttle, two moves 30 ms apart
      reach the consumer once, with the first move's event. */
  lemma ScenarioThrottle(props: JoystickProps, s: Snapshot, e1: MoveEvent, e2: MoveEvent, t: real)
    requires props.throttleEventsBy == 100.0 && t - s.lastTime >= 100.0
    ensures EmitThrottled(props, EmitThrottled(props, s, e1, t), e2, t + 30.0).events == s.events + [e1]
    ensures EmitThrottled(props, EmitThrottled(props, s, e1, t), e2, t + 100.0).events == s.events + [e1, e2]
  {
  }

  /** `setXOffset(0); setYOffset(0); onMove(initialStates.eventState())`:
      the reset every plugin performs on letting go. */
  function ResetOffsets(s: Snapshot): Snapshot {
    Emit(s.(xOffset := 0.0, yOffset := 0.0), ZeroEvent)
  }

  /** Plugins get the unthrottled `onMove`: a reset reports the zero event
      even when the throttle would drop an event at that moment, and leaves
      the throttle's clock alone. */
  lemma ResetBypassesThrottle(props: JoystickProps, s: Snapshot, now: real)
    requires !Forwards(props.throttleEventsBy, s.lastTime, now)
    ensures EmitThrottled(props, s, ZeroEvent, now).events == s.events
    ensures ResetOffsets(s).events == s.events + [ZeroEvent]
    ensures ResetOffsets(s).lastTime == s.lastTime
  {
  }

  /** `handleHandleMove(x, y)`: fetch the radius (throwing before render),
      then move and report only while some plugin drags and the widget is
      enabled. */
  function HandleMove(env: Environment, s: Snapshot, x: real, y: real, now: real): Result<Snapshot, Fault> {
    match GetRadius(env.props, env.layout)
    case Failure(e) => Failure(e)
    case Success(radius) =>
      if AnyDragging(s.handleState.pluginDragging) && !env.props.disabled then
        var p := Place(env.math, env.props, radius, x, y);
        Success(EmitThrottled(env.props, s.(xOffset := p.handle.x, yOffset := p.handle.y), p.event, now))
      else
        Success(s)
  }

  /** A move before the first render throws, whether or not anything drags. */
  lemma PreLayoutMoveFails(env: Environment, s: Snapshot, x: real, y: real, now: real)
    requires env.layout.base.None? || env.layout.handle.None?
    ensures HandleMove(env, s, x, y, now) == Failure(RadiusBeforeRender)
  {
  }

  /** Unless some plugin drags and the widget is enabled, a move changes nothing. */
  lemma GateClosedIsInert(env: Environment, s: Snapshot, x: real, y: real, now: real)
    requires !AnyDragging(s.handleState.pluginDragging) || env.props.disabled
    ensures HandleMove(env, s, x, y, now).Success? ==> HandleMove(env, s, x, y, now) == Success(s)
  {
  }

  /** An open gate draws the placement, keeps the drag state and the
      transition flag, and hands the event to the throttle. */
  lemma GateOpenMoves(env: Environment, s: Snapshot, x: real, y: real, now: real)
    requires GetRadius(env.props, env.layout).Success?
    requires AnyDragging(s.handleState.pluginDragging) && !env.props.disabled
    ensures var r := HandleMove(env, s, x, y, now);
      var p := Place(env.math, env.props, GetRadius(env.props, env.layout).value, x, y);
      && r.Success?
      && r.value.xOffset == p.handle.x && r.value.yOffset == p.handle.y
      && r.value.handleState == s.handleState && r.value.shouldTransition == s.shouldTransition
      && (Forwards(env.props.throttleEventsBy, s.lastTime, now) <==> r.value.events == s.events + [p.event])
  {
  }

  /** The handle is inside the circle of radius r (r >= 0). */
  ghost predicate Inside(m: Math, radius: real, s: Snapshot) {
    m.hypot(s.xOffset, s.yOffset) <= radius
  }

  /** With bounding on and a non-negative radius, the handle stays inside the
      circle through every move and every reset. */
  lemma MovesKeepHandleInside(env: Environment, s: Snapshot, x: real, y: real, now: real)
    requires HypotLaw(env.math) && Pythagorean(env.math)
    requires env.props.boundingModel != Unbounded
    requires GetRadius(env.props, env.layout).Success? && GetRadius(env.props, env.layout).value >= 0.0
    requires Inside(env.math, GetRadius(env.props, env.layout).value, s)
    ensures Inside(env.math, GetRadius(env.props, env.layout).value, HandleMove(env, s, x, y, now).value)
    ensures Inside(env.math, GetRadius(env.props, env.layout).value, ResetOffsets(s))
  {
    var radius := GetRadius(env.props, env.layout).value;
    HandleInsideRadius(env.math, env.props, radius, x, y);
    HypotAtMost(env.math, 0.0, 0.0, radius);
  }

  // ---------------------------------------------------------------------
  // The widget

  class Joystick {
    const math: Math
    const props: JoystickProps
    var layout: Layout
    var xOffset: real
    var yOffset: real
    var shouldTransition: bool
    var pluginDragging: seq<bool>
    var initialOffsets: Vec
    /** The clock of the throttled `onMove` closure. */
    var lastTime: real
    /** Every event `onMove` has received, oldest first. */
    var events: seq<MoveEvent>

    function Env(): Environment reads this {
      Environment(math, props, layout)
    }

    function State(): Snapshot reads this {
      Snapshot(xOffset, yOffset, shouldTransition, HandleState(pluginDragging, initialOffsets), lastTime, events)
    }

    /** Creating the widget: nothing is rendered or dragging yet, and
        `onMove` has received exactly one event, the zero event. */
    constructor (math: Math, props: JoystickProps)
      ensures this.math == math && this.props == props
      ensures layout == Layout(None, None)
      ensures State() == Snapshot(0.0, 0.0, false, InitialHandleState, 0.0, [ZeroEvent])
    {
      this.math := math;
      this.props := props;
      layout := Layout(None, None);
      xOffset, yOffset, shouldTransition := 0.0, 0.0, false;
      pluginDragging, initialOffsets := InitialHandleState.pluginDragging, InitialHandleState.initialOffsets;
      lastTime := 0.0;
      events := [ZeroEvent];
    }

    /** The base and handle elements are rendered (the refs are assigned). */
    method Render(base: Size, handle: Size)
      modifies this`layout
      ensures layout == Layout(Some(base), Some(handle))
    {
      layout := Layout(Some(base), Some(handle));
    }

    method SetOffsets(x: real, y: real)
      modifies this`xOffset, this`yOffset
      ensures State() == old(State()).(xOffset := x, yOffset := y)
    {
      xOffset, yOffset := x, y;
    }

    method SetShouldTransition(b: bool)
      modifies this`shouldTransition
      ensures State() == old(State()).(shouldTransition := b)
    {
      shouldTransition := b;
    }

    /** `onMove(event)`. */
    method OnMove(event: MoveEvent)
      modifies this`events
      ensures State() == Emit(old(State()), event)
    {
      events := events + [event];
    }

    /** `onMoveThrottled(event)` at time `now`. */
    method OnMoveThrottled(event: MoveEvent, now: real)
      modifies this`lastTime, this`events
      ensures State() == EmitThrottled(props, old(State()), event, now)
    {
      if props.throttleEventsBy != 0.0 {
        if now - lastTime >= props.throttleEventsBy {
          lastTime := now;
          events := events + [event];
        }
      } else {
        events := events + [event];
      }
    }

    /** The reset a plugin performs on letting go. */
    method Reset()
      modifies this`xOffset, this`yOffset, this`events
      ensures State() == ResetOffsets(old(State()))
    {
      xOffset, yOffset := 0.0, 0.0;
      events := events + [ZeroEvent];
    }

    /** `handleHandleMove(xOffset, yOffset)`, the move request every plugin uses. */
    method HandleHandleMove(x: real, y: real, now: real) returns (outcome: Outcome<Fault>)
      modifies this`xOffset, this`yOffset, this`lastTime, this`events
      ensures HandleMove(Env(), old(State()), x, y, now)
           == if outcome.Pass? then Success(State()) else Failure(outcome.error)
      ensures outcome.Fail? ==> State() == old(State())
    {
      var radius := GetRadius(props, layout);
      if radius.Failure? {
        return Fail(radius.error);
      }
      if true in pluginDragging && !props.disabled {
        var p := Place(math, props, radius.value, x, y);
        xOffset, yOffset := p.handle.x, p.handle.y;
        OnMoveThrottled(p.event, now);
      }
      outcome := Pass;
    }
  }

  /** `plugins.forEach((plugin, pluginIndex) => plugin({..., pluginIndex}))`:
      each plugin is started with its own position as its drag slot. */
  method RegisterPlugins<P>(plugins: seq<P>) returns (started: seq<(P, nat)>)
    ensures |started| == |plugins|
    ensures forall i :: 0 <= i < |plugins| ==> started[i] == (plugins[i], i)
    ensures forall i, j :: 0 <= i < j < |started| ==> started[i].1 != started[j].1
  {
    started := [];
    var pluginIndex := 0;
    while pluginIndex < |plugins|
      invariant 0 <= pluginIndex <= |plugins|
      invariant |started| == pluginIndex
      invariant forall i :: 0 <= i < pluginIndex ==> started[i] == (plugins[i], i)
    {
      started := started + [(plugins[pluginIndex], pluginIndex)];
      pluginIndex := pluginIndex + 1;
    }
  }
}
