/** src/components/Joystick/plugins/MultiTouchPlugin.tsx: drag by the first
    of the touches that started on the handle (`targetTouches[0]`). */
module MultiTouchPlugin {
  import opened Wrappers
  import opened JoystickCore
  import opened PressDrag

  /** `ontouchstart` with the event's target touches: the press of the
      shared machine at the first touch.  Reading a touch that is not there
      throws, after the transition has been turned off. */
  function TouchStarted(s: Snapshot, pluginIndex: nat, disableReset: bool, targetTouches: seq<Vec>): (Snapshot, Outcome<Fault>) {
    if (!disableReset || !Slot(s.handleState.pluginDragging, pluginIndex)) && |targetTouches| == 0 then
      (s.(shouldTransition := false), Fail(NoTargetTouch))
    else
      (Pressed(s, pluginIndex, disableReset, if |targetTouches| > 0 then targetTouches[0] else Vec(0.0, 0.0)), Pass)
  }

  /** `ontouchstart` as written: it attaches its listeners through
      `handleRef.current`, but the widget passes no `handleRef` to its
      plugins (src/components/Joystick/Joystick.tsx:110-136), so the handler
      throws before it changes anything. */
  function TouchStartedAsWritten(s: Snapshot, pluginIndex: nat, disableReset: bool, targetTouches: seq<Vec>): (Snapshot, Outcome<Fault>) {
    (s, Fail(MissingRef))
  }

  /** As written, no touch start ever takes a slot or opens the gate, where
      the evidently intended handler takes the slot at the first touch. */
  lemma TouchStartAsWrittenNeverDrags(s: Snapshot, i: nat, disableReset: bool, targetTouches: seq<Vec>)
    requires |targetTouches| > 0
    requires !AnyDragging(s.handleState.pluginDragging)
    ensures var (s', outcome) := TouchStartedAsWritten(s, i, disableReset, targetTouches);
      outcome == Fail(MissingRef) && !AnyDragging(s'.handleState.pluginDragging)
    ensures var (s', outcome) := TouchStarted(s, i, disableReset, targetTouches);
      outcome == Pass && AnyDragging(s'.handleState.pluginDragging)
  {
    TouchStartContract(s, i, disableReset, targetTouches);
    PressOpensGate(s, i, disableReset, targetTouches[0]);
  }

  /** The offset `handlePointerMove` requests: the first touch's distance
      from the anchor.  The touch is read only on an enabled axis, so an
      empty touch list throws unless both axes are disabled. */
  function TouchRequest(props: JoystickProps, anchor: Vec, targetTouches: seq<Vec>): Result<Vec, Fault> {
    if |targetTouches| == 0 && !(props.disableX && props.disableY) then Failure(NoTargetTouch)
    else Success(DragRequest(props, anchor, if |targetTouches| > 0 then targetTouches[0] else Vec(0.0, 0.0)))
  }

  /** A touch start takes the slot at the first touch; with no touch it
      throws exactly when it would have taken the slot, and then only the
      transition flag has changed. */
  lemma TouchStartContract(s: Snapshot, i: nat, disableReset: bool, targetTouches: seq<Vec>)
    ensures var (s', outcome) := TouchStarted(s, i, disableReset, targetTouches);
      && (outcome.Fail? <==> |targetTouches| == 0 && (!disableReset || !Slot(s.handleState.pluginDragging, i)))
      && (outcome.Fail? ==> s' == s.(shouldTransition := false))
      && (|targetTouches| > 0 ==> s' == Pressed(s, i, disableReset, targetTouches[0]) && outcome == Pass)
      && (outcome.Pass? ==> Slot(s'.handleState.pluginDragging, i))
  {
    if |targetTouches| > 0 || (disableReset && Slot(s.handleState.pluginDragging, i)) {
      PressTakesSlot(s, i, disableReset, if |targetTouches| > 0 then targetTouches[0] else Vec(0.0, 0.0));
    }
  }

  /** A move requests the first touch's distance from the anchor per enabled
      axis, and throws for want of a touch exactly when an axis is enabled. */
  lemma TouchRequestContract(props: JoystickProps, anchor: Vec, targetTouches: seq<Vec>)
    ensures var r := TouchRequest(props, anchor, targetTouches);
      && (r.Failure? <==> |targetTouches| == 0 && (!props.disableX || !props.disableY))
      && (|targetTouches| > 0 ==> r == Success(Vec(
            if props.disableX then 0.0 else targetTouches[0].x - anchor.x,
            if props.disableY then 0.0 else targetTouches[0].y - anchor.y)))
      && (props.disableX && props.disableY ==> r == Success(Vec(0.0, 0.0)))
  {
  }

  class Plugin {
    const pluginIndex: nat
    /** Whether the handle's `touchmove` and `touchend` listeners are attached. */
    var listening: bool

    constructor (pluginIndex: nat)
      ensures this.pluginIndex == pluginIndex && !listening
    {
      this.pluginIndex := pluginIndex;
      listening := false;
    }

    /** `ontouchstart` on the handle. */
    method OnTouchStart(w: Joystick, targetTouches: seq<Vec>) returns (outcome: Outcome<Fault>)
      modifies this`listening, w`shouldTransition, w`pluginDragging, w`initialOffsets
      ensures listening
      ensures (w.State(), outcome) == TouchStarted(old(w.State()), pluginIndex, w.props.disableReset, targetTouches)
    {
      listening := true;
      w.SetShouldTransition(false);
      if !w.props.disableReset || !Slot(w.pluginDragging, pluginIndex) {
        if |targetTouches| == 0 {
          return Fail(NoTargetTouch);
        }
        w.initialOffsets := targetTouches[0];
        w.pluginDragging := SetSlot(w.pluginDragging, pluginIndex, true);
      }
      outcome := Pass;
    }

    /** `handlePointerMove` on `touchmove`. */
    method HandlePointerMove(w: Joystick, targetTouches: seq<Vec>, now: real) returns (outcome: Outcome<Fault>)
      modifies w`xOffset, w`yOffset, w`lastTime, w`events
      ensures !listening ==> outcome == Pass && w.State() == old(w.State())
      ensures listening ==>
        match TouchRequest(w.props, old(w.initialOffsets), targetTouches)
        case Failure(e) => outcome == Fail(e) && w.State() == old(w.State())
        case Success(d) =>
          HandleMove(w.Env(), old(w.State()), d.x, d.y, now)
            == if outcome.Pass? then Success(w.State()) else Failure(outcome.error)
      ensures outcome.Fail? ==> w.State() == old(w.State())
    {
      if !listening {
        return Pass;
      }
      var xOffset := 0.0;
      if !w.props.disableX {
        if |targetTouches| == 0 {
          return Fail(NoTargetTouch);
        }
        xOffset := targetTouches[0].x - w.initialOffsets.x;
      }
      var yOffset := 0.0;
      if !w.props.disableY {
        if |targetTouches| == 0 {
          return Fail(NoTargetTouch);
        }
        yOffset := targetTouches[0].y - w.initialOffsets.y;
      }
      outcome := w.HandleHandleMove(xOffset, yOffset, now);
    }

    /** `handlePointerUp` on `touchend`, once per touch start. */
    method HandlePointerUp(w: Joystick)
      modifies this`listening, w`shouldTransition, w`pluginDragging, w`initialOffsets, w`xOffset, w`yOffset, w`events
      ensures !listening
      ensures old(listening) ==> w.State() == Released(old(w.State()), w.props.disableReset)
      ensures !old(listening) ==> w.State() == old(w.State())
    {
      if !listening {
        return;
      }
      listening := false;
      w.SetShouldTransition(true);
      if !w.props.disableReset {
        w.pluginDragging, w.initialOffsets := InitialHandleState.pluginDragging, InitialHandleState.initialOffsets;
        w.Reset();
      }
    }
  }
}
