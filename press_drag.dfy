/** The press / move / release machine that the pointer, mouse and
    multitouch plugins each write out (src/components/Joystick/plugins/
    PointerPlugin.tsx, MousePlugin.tsx and MultiTouchPlugin.tsx), as
    functions on the widget's state. */
module PressDrag {
  import opened Wrappers
  import opened JoystickCore

  /** Press at `at`: turn the transition off, then, unless reset is disabled
      and this plugin already drags, take the shared anchor and the slot. */
  function Pressed(s: Snapshot, pluginIndex: nat, disableReset: bool, at: Vec): Snapshot {
    var s1 := s.(shouldTransition := false);
    if !disableReset || !Slot(s.handleState.pluginDragging, pluginIndex) then
      s1.(handleState := HandleState(SetSlot(s.handleState.pluginDragging, pluginIndex, true), at))
    else
      s1
  }

  /** The offset a move at `at` requests: the distance from the anchor, or 0
      on a disabled axis. */
  function DragRequest(props: JoystickProps, anchor: Vec, at: Vec): Vec {
    Vec(if props.disableX then 0.0 else at.x - anchor.x,
        if props.disableY then 0.0 else at.y - anchor.y)
  }

  /** Release: turn the transition on; unless reset is disabled, replace the
      whole shared drag state by its initial value, zero the offsets and
      report the zero event. */
  function Released(s: Snapshot, disableReset: bool): Snapshot {
    var s1 := s.(shouldTransition := true);
    if disableReset then s1
    else ResetOffsets(s1.(handleState := InitialHandleState))
  }

  /** After a press the plugin's slot is set, and the anchor is the press
      point unless reset is disabled and the plugin was already dragging. */
  lemma PressTakesSlot(s: Snapshot, i: nat, disableReset: bool, at: Vec)
    ensures var s' := Pressed(s, i, disableReset, at);
      && Slot(s'.handleState.pluginDragging, i)
      && !s'.shouldTransition
      && (!disableReset || !Slot(s.handleState.pluginDragging, i) ==> s'.handleState.initialOffsets == at)
      && (disableReset && Slot(s.handleState.pluginDragging, i) ==> s'.handleState == s.handleState)
      && s'.(shouldTransition := s.shouldTransition, handleState := s.handleState) == s
  {
  }

  /** A press opens the engine's gate: the next move is drawn. */
  lemma PressOpensGate(s: Snapshot, i: nat, disableReset: bool, at: Vec)
    ensures AnyDragging(Pressed(s, i, disableReset, at).handleState.pluginDragging)
  {
    var slots := s.handleState.pluginDragging;
    if !disableReset || !Slot(slots, i) {
      SetSlotGate(slots, i);
    } else {
      AnyDraggingBySlot(slots);
    }
  }

  /** After a fresh press at p, a move at q requests q - p on each enabled axis. */
  lemma PressThenMoveRequestsDelta(props: JoystickProps, s: Snapshot, i: nat, p: Vec, q: Vec)
    requires !props.disableReset || !Slot(s.handleState.pluginDragging, i)
    ensures var anchor := Pressed(s, i, props.disableReset, p).handleState.initialOffsets;
      DragRequest(props, anchor, q)
        == Vec(if props.disableX then 0.0 else q.x - p.x, if props.disableY then 0.0 else q.y - p.y)
  {
  }

  /** A release with reset clears every plugin's slot, not only the
      releasing plugin's, zeroes the anchor and the offsets and reports the
      zero event once. */
  lemma ReleaseClearsEverySlot(s: Snapshot)
    ensures var s' := Released(s, false);
      && !AnyDragging(s'.handleState.pluginDragging)
      && s'.handleState.initialOffsets == Vec(0.0, 0.0)
      && s'.xOffset == 0.0 && s'.yOffset == 0.0
      && s'.shouldTransition
      && s'.events == s.events + [ZeroEvent]
      && s'.lastTime == s.lastTime
  {
  }

  /** A release with reset disabled only turns the transition on. */
  lemma ReleaseWithoutResetKeepsDrag(s: Snapshot, i: nat)
    ensures Released(s, true) == s.(shouldTransition := true)
    ensures Slot(s.handleState.pluginDragging, i) ==> Slot(Released(s, true).handleState.pluginDragging, i)
  {
  }

  /** After a release with reset, a move from any plugin is inert until the
      next press, and the handle stays at the centre. */
  lemma ReleaseThenMoveIsInert(env: Environment, s: Snapshot, x: real, y: real, now: real)
    requires GetRadius(env.props, env.layout).Success?
    ensures HandleMove(env, Released(s, false), x, y, now) == Success(Released(s, false))
  {
  }

  /** Press, drag, release with reset: the offsets
      return to (0, 0) and the last event the consumer sees is the zero event. */
  lemma PressMoveReleaseEndsAtZero(env: Environment, s: Snapshot, i: nat, p: Vec, q: Vec, now: real)
    requires GetRadius(env.props, env.layout).Success?
    ensures var pressed := Pressed(s, i, false, p);
      var moved := HandleMove(env, pressed, DragRequest(env.props, p, q).x, DragRequest(env.props, p, q).y, now).value;
      var released := Released(moved, false);
      && released.xOffset == 0.0 && released.yOffset == 0.0
      && released.events[|released.events| - 1] == ZeroEvent
      && |moved.events| <= |s.events| + 1
  {
  }
}
