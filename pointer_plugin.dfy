/** src/components/Joystick/plugins/PointerPlugin.tsx: drag by pointer
    events (mouse or a single touch). */
module PointerPlugin {
  import opened Wrappers
  import opened JoystickCore
  import opened PressDrag

  class Plugin {
    const pluginIndex: nat
    /** Whether the window's `pointermove` and `pointerup` listeners are
        attached: a press attaches them, a release detaches them. */
    var listening: bool

    constructor (pluginIndex: nat)
      ensures this.pluginIndex == pluginIndex && !listening
    {
      this.pluginIndex := pluginIndex;
      listening := false;
    }

    /** `onpointerdown` on the handle at (clientX, clientY). */
    method OnPointerDown(w: Joystick, clientX: real, clientY: real)
      modifies this`listening, w`shouldTransition, w`pluginDragging, w`initialOffsets
      ensures listening
      ensures w.State() == Pressed(old(w.State()), pluginIndex, w.props.disableReset, Vec(clientX, clientY))
    {
      listening := true;
      w.SetShouldTransition(false);
      if !w.props.disableReset || !Slot(w.pluginDragging, pluginIndex) {
        w.initialOffsets := Vec(clientX, clientY);
        w.pluginDragging := SetSlot(w.pluginDragging, pluginIndex, true);
      }
    }

    /** `handlePointerMove`: request the offset from the anchor.  Before a
        press, or after a release, no listener is attached and nothing happens. */
    method HandlePointerMove(w: Joystick, clientX: real, clientY: real, now: real) returns (outcome: Outcome<Fault>)
      modifies w`xOffset, w`yOffset, w`lastTime, w`events
      ensures !listening ==> outcome == Pass && w.State() == old(w.State())
      ensures listening ==>
        var d := DragRequest(w.props, old(w.initialOffsets), Vec(clientX, clientY));
        HandleMove(w.Env(), old(w.State()), d.x, d.y, now)
          == if outcome.Pass? then Success(w.State()) else Failure(outcome.error)
      ensures outcome.Fail? ==> w.State() == old(w.State())
    {
      if !listening {
        return Pass;
      }
      var d := DragRequest(w.props, w.initialOffsets, Vec(clientX, clientY));
      outcome := w.HandleHandleMove(d.x, d.y, now);
    }

    /** `handlePointerUp`, which fires once per press. */
    method HandlePointerUp(w: Joystick)
      modifies this`listening, w`shouldTransition, w`pluginDragging, w`initialOffsets, w`xOffset, w`yOffset, w`events
      ensures !listening
      ensures old(listening) ==> w.State() == Released(old(w.State()), w.props.disableReset)
      ensures !old(listening) ==> w.State() == old(w.State())
    {
      if !listening {
        return;
      }
      listening := false;
      w.SetShouldTransition(true);
      if !w.props.disableReset {
        w.pluginDragging, w.initialOffsets := InitialHandleState.pluginDragging, InitialHandleState.initialOffsets;
        w.Reset();
      }
    }
  }
}
