/** src/components/Joystick/plugins/PointerLockPlugin.tsx: while the pointer
    is locked, each relative mouse movement is drawn as the handle offset,
    and a frame without movement recentres the handle. */
module PointerLockPlugin {
  import opened Wrappers
  import opened Trig
  import opened JoystickCore

  /** One `mouseListener` run: whether its `mousemove` listener and frame
      loop are live, whether a movement arrived since the last frame
      (`latestEvent`), and the radius it read when it started. */
  datatype Session = Session(active: bool, moved: bool, radius: real)

  const NoSession := Session(false, false, 0.0)

  /** `offsetMultiplier`: a tenth of the radius per pixel of movement. */
  function OffsetMultiplier(radius: real): real {
    radius * 0.1
  }

  /** The drawn offset for a movement: the movement times the multiplier. */
  function LockOffset(radius: real, movement: Vec): Vec {
    Vec(movement.x * OffsetMultiplier(radius), movement.y * OffsetMultiplier(radius))
  }

  /** The event reported for a movement: pixels and angle of the raw
      movement, percentages of the drawn offset over the radius, and as
      pressure the movement's length and that length times the multiplier. */
  function LockEvent(m: Math, radius: real, movement: Vec): MoveEvent {
    var drawn := LockOffset(radius, movement);
    var radians := AngleRadians(m, movement.x, movement.y);
    var offsetHypotenuse := Hypotenuse(m, movement.x, movement.y);
    MoveEvent(
      Offset(movement, NumVec(Quotient(drawn.x, radius), Quotient(drawn.y, radius))),
      Angle(radians, RadiansToDegrees(m, radians)),
      Pressure(offsetHypotenuse, Finite(offsetHypotenuse * OffsetMultiplier(radius))))
  }

  /** `mouseListener`, run 100 ms after a click on the handle: it reads the
      radius (throwing before the first render, and then nothing starts)
      and starts the frame loop and the `mousemove` listener. */
  function StartSession(props: JoystickProps, layout: Layout): Result<Session, Fault> {
    match GetRadius(props, layout)
    case Failure(e) => Failure(e)
    case Success(radius) => Success(Session(true, false, radius))
  }

  /** The handle's `onclick` as written: `onLock(true)` reads
      `baseRef.current`, but the widget passes no `baseRef` to its plugins
      (src/components/Joystick/Joystick.tsx:110-136), so the handler throws
      before the lock is requested and `mouseListener` is scheduled. */
  function ClickAsWritten(session: Session): (Session, Outcome<Fault>) {
    (session, Fail(MissingRef))
  }

  /** As written, a click on a rendered widget starts no session, where the
      evidently intended handler starts one. */
  lemma ClickAsWrittenStartsNothing(props: JoystickProps, layout: Layout)
    requires layout.base.Some? && layout.handle.Some?
    ensures ClickAsWritten(NoSession) == (NoSession, Fail(MissingRef))
    ensures StartSession(props, layout).Success? && StartSession(props, layout).value.active
  {
  }

  /** `onMouseMove`: while the session is live every movement is recorded;
      only with the pointer locked is it drawn and reported, straight to
      `onMove`. */
  function LockMouseMove(m: Math, s: Snapshot, session: Session, locked: bool, movement: Vec): (Snapshot, Session) {
    if !session.active then (s, session)
    else if !locked then (s, session.(moved := true))
    else
      var drawn := LockOffset(session.radius, movement);
      (Emit(s.(xOffset := drawn.x, yOffset := drawn.y), LockEvent(m, session.radius, movement)),
       session.(moved := true))
  }

  /** One animation frame of a live session: once the lock is gone the
      handle is reset and the session ends; otherwise a frame after a
      movement only forgets it, and a frame without one resets the handle. */
  function LockFrame(s: Snapshot, session: Session, locked: bool): (Snapshot, Session) {
    if !session.active then (s, session)
    else if !locked then (ResetOffsets(s), session.(active := false))
    else if session.moved then (s, session.(moved := false))
    else (ResetOffsets(s), session)
  }

  /** A session starts exactly when the widget is rendered, unmoved, with the
      radius of the moment. */
  lemma StartSessionContract(props: JoystickProps, layout: Layout)
    ensures var r := StartSession(props, layout);
      && (r.Success? <==> layout.base.Some? && layout.handle.Some?)
      && (r.Success? ==> r.value.active && !r.value.moved && r.value.radius == GetRadius(props, layout).value)
  {
  }

  /** The drawn offset is the movement scaled by a tenth of the radius, and
      its percentages are a tenth of the movement whatever the radius (when
      it is not zero). */
  lemma LockOffsetScales(radius: real, movement: Vec)
    ensures LockOffset(radius, movement) == Vec(movement.x * radius / 10.0, movement.y * radius / 10.0)
    ensures radius != 0.0 ==>
      var e := LockOffset(radius, movement);
      Quotient(e.x, radius) == Finite(movement.x / 10.0) && Quotient(e.y, radius) == Finite(movement.y / 10.0)
  {
    if radius != 0.0 {
      var e := LockOffset(radius, movement);
      assert e.x == (movement.x / 10.0) * radius;
      assert e.y == (movement.y / 10.0) * radius;
    }
  }

  /** The locked movement bypasses the engine: neither the bounding model,
      nor `disabled`, nor the disabled axes, nor the drag slots are
      consulted, and a 20 px movement at radius 100 draws the handle at
      200 px, twice the radius. */
  lemma LockedMoveBypassesEngine(m: Math, s: Snapshot, movement: Vec)
    ensures var (s', _) := LockMouseMove(m, s, Session(true, false, 100.0), true, Vec(20.0, 0.0));
      s'.xOffset == 200.0 && s'.yOffset == 0.0
    ensures var (s', _) := LockMouseMove(m, s, Session(true, false, 100.0), true, movement);
      s'.handleState == s.handleState && s'.shouldTransition == s.shouldTransition && s'.lastTime == s.lastTime
  {
  }

  /** The reported angle and pressure length are those of the raw movement,
      as the engine would compute them for that offset. */
  lemma LockEventAngle(m: Math, props: JoystickProps, radius: real, movement: Vec)
    ensures var e := LockEvent(m, radius, movement);
      && e.angle == Place(m, props, radius, movement.x, movement.y).event.angle
      && e.offset.pixels == movement
      && e.pressure.pixels == m.hypot(movement.x, movement.y)
  {
  }

  /** A locked movement is drawn, reported once, and survives exactly one
      frame: the frame after it keeps the handle, the next frame without a
      movement recentres it and reports the zero event. */
  lemma MoveSurvivesOneFrame(m: Math, s: Snapshot, session: Session, movement: Vec)
    requires session.active
    ensures var (s1, session1) := LockMouseMove(m, s, session, true, movement);
      var (s2, session2) := LockFrame(s1, session1, true);
      var (s3, session3) := LockFrame(s2, session2, true);
      && s1.events == s.events + [LockEvent(m, session.radius, movement)]
      && s2 == s1 && session2.active
      && s3.xOffset == 0.0 && s3.yOffset == 0.0
      && s3.events == s1.events + [ZeroEvent]
      && session3.active
  {
  }

  /** A movement while the lock is not held only records that a movement
      happened, and so spares the handle the next frame's reset. */
  lemma UnlockedMoveOnlyLatches(m: Math, s: Snapshot, session: Session, movement: Vec)
    requires session.active
    ensures LockMouseMove(m, s, session, false, movement) == (s, session.(moved := true))
    ensures LockFrame(s, session.(moved := true), true) == (s, session.(moved := false))
  {
  }

  /** Releasing the lock ends the session on the next frame with a reset;
      after that movements and frames change nothing. */
  lemma UnlockEndsSession(m: Math, s: Snapshot, session: Session, locked: bool, movement: Vec)
    requires session.active
    ensures var (s1, session1) := LockFrame(s, session, false);
      && s1 == ResetOffsets(s) && !session1.active
      && LockMouseMove(m, s1, session1, locked, movement) == (s1, session1)
      && LockFrame(s1, session1, locked) == (s1, session1)
  {
  }

  class Plugin {
    var session: Session

    constructor ()
      ensures session == NoSession
    {
      session := NoSession;
    }

    /** The delayed `mouseListener` after a click on the handle. */
    method MouseListener(w: Joystick) returns (outcome: Outcome<Fault>)
      modifies this`session
      ensures match StartSession(w.props, w.layout)
        case Failure(e) => outcome == Fail(e) && session == old(session)
        case Success(started) => outcome == Pass && session == started
    {
      var radius := GetRadius(w.props, w.layout);
      if radius.Failure? {
        return Fail(radius.error);
      }
      session := Session(true, false, radius.value);
      outcome := Pass;
    }

    /** A `mousemove` on the document, with `locked` telling whether
        `document.pointerLockElement` is set. */
    method OnMouseMove(w: Joystick, locked: bool, movementX: real, movementY: real)
      modifies this`session, w`xOffset, w`yOffset, w`events
      ensures (w.State(), session) == LockMouseMove(w.math, old(w.State()), old(session), locked, Vec(movementX, movementY))
    {
      if !session.active {
        return;
      }
      session := session.(moved := true);
      if locked {
        var drawn := LockOffset(session.radius, Vec(movementX, movementY));
        w.SetOffsets(drawn.x, drawn.y);
        w.OnMove(LockEvent(w.math, session.radius, Vec(movementX, movementY)));
      }
    }

    /** The frame loop's callback. */
    method OnAnimationFrame(w: Joystick, locked: bool)
      modifies this`session, w`xOffset, w`yOffset, w`events
      ensures (w.State(), session) == LockFrame(old(w.State()), old(session), locked)
    {
      if !session.active {
        return;
      }
      if !locked {
        w.Reset();
        session := session.(active := false);
      } else if session.moved {
        session := session.(moved := false);
      } else {
        w.Reset();
      }
    }
  }
}
