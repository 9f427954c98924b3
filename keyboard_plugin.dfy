/** src/components/Joystick/plugins/KeyboardPlugin.tsx: four bound keys push
    the handle a full radius up, down, left or right. */
module KeyboardPlugin {
  import opened Wrappers
  import opened Trig
  import opened JoystickCore

  datatype Direction = Up | Down | Left | Right

  /** `KeyboardPluginOptions`: the `KeyboardEvent.code` bound to each direction. */
  datatype KeyboardPluginOptions = KeyboardPluginOptions(up: string, down: string, left: string, right: string)

  /** The argument of `initialKeyboardPluginOptions`: "wasd" or "arrows". */
  datatype KeyLayout = Wasd | Arrows

  /** The code bound to a direction. */
  function Code(options: KeyboardPluginOptions, d: Direction): string {
    match d
    case Up => options.up
    case Down => options.down
    case Left => options.left
    case Right => options.right
  }

  /** A direction's place in the order the bindings are tried. */
  function Rank(d: Direction): nat {
    match d
    case Up => 0
    case Down => 1
    case Left => 2
    case Right => 3
  }

  /** No two directions share a code. */
  predicate DistinctCodes(options: KeyboardPluginOptions) {
    forall d, e :: d != e ==> Code(options, d) != Code(options, e)
  }

  /** The two stock layouts, each binding four different keys. */
  function InitialKeyboardPluginOptions(init: KeyLayout): (options: KeyboardPluginOptions)
    ensures DistinctCodes(options)
    ensures init == Wasd ==> options == KeyboardPluginOptions("KeyW", "KeyS", "KeyA", "KeyD")
    ensures init == Arrows ==> options == KeyboardPluginOptions("ArrowUp", "ArrowDown", "ArrowLeft", "ArrowRight")
  {
    if init == Wasd then KeyboardPluginOptions("KeyW", "KeyS", "KeyA", "KeyD")
    else KeyboardPluginOptions("ArrowUp", "ArrowDown", "ArrowLeft", "ArrowRight")
  }

  /** The direction a key event is for: the first binding equal to `code`,
      tried in the order up, down, left, right. */
  function Binding(options: KeyboardPluginOptions, code: string): Option<Direction> {
    if code == options.up then Some(Up)
    else if code == options.down then Some(Down)
    else if code == options.left then Some(Left)
    else if code == options.right then Some(Right)
    else None
  }

  /** The `activeKeys` signal; a key never pressed reads `undefined`, which is not held. */
  datatype ActiveKeys = ActiveKeys(up: bool, down: bool, left: bool, right: bool)

  const NoKeys := ActiveKeys(false, false, false, false)

  function Held(keys: ActiveKeys, d: Direction): bool {
    match d
    case Up => keys.up
    case Down => keys.down
    case Left => keys.left
    case Right => keys.right
  }

  /** `{ ...activeKeys(), [d]: held }`. */
  function WithKey(keys: ActiveKeys, d: Direction, held: bool): (keys': ActiveKeys)
    ensures Held(keys', d) == held
    ensures forall e :: e != d ==> Held(keys', e) == Held(keys, e)
  {
    match d
    case Up => keys.(up := held)
    case Down => keys.(down := held)
    case Left => keys.(left := held)
    case Right => keys.(right := held)
  }

  /** `onKeydown` (held) or `onKeyup` (not held): the new record when the
      code is bound, and None when the event is ignored.  A bound key always
      sets a new record, even one equal to the old, so the effect runs again. */
  function KeyEvent(keys: ActiveKeys, options: KeyboardPluginOptions, code: string, held: bool): Option<ActiveKeys> {
    match Binding(options, code)
    case None => None
    case Some(d) => Some(WithKey(keys, d, held))
  }

  /** The offset the effect requests for the held keys: up and left subtract
      the radius, down and right add it. */
  function KeyOffset(keys: ActiveKeys, radius: real): Vec {
    Vec((if keys.right then radius else 0.0) - (if keys.left then radius else 0.0),
        (if keys.down then radius else 0.0) - (if keys.up then radius else 0.0))
  }

  /** The effect run on every new `activeKeys` record.  Before the first
      render `getRadius` throws and the effect does nothing (the throw is
      caught).  Otherwise it turns the transition on; with a zero offset it
      clears its slot and resets the handle to the centre, else it takes its
      slot; then it hands the offset to `handleHandleMove`. */
  function KeyboardEffect(env: Environment, s: Snapshot, pluginIndex: nat, keys: ActiveKeys, now: real): Snapshot {
    match GetRadius(env.props, env.layout)
    case Failure(_) => s
    case Success(radius) =>
      var offset := KeyOffset(keys, radius);
      var s1 := s.(shouldTransition := true);
      var s2 :=
        if offset == Vec(0.0, 0.0) then
          ResetOffsets(s1.(handleState := s1.handleState.(pluginDragging := SetSlot(s1.handleState.pluginDragging, pluginIndex, false))))
        else
          s1.(handleState := s1.handleState.(pluginDragging := SetSlot(s1.handleState.pluginDragging, pluginIndex, true)));
      HandleMove(env, s2, offset.x, offset.y, now).GetOr(s2)
  }

  /** A bound code is read for its direction and for no other; with distinct
      codes every direction's code is read for that direction.  When two
      directions share a code, the earlier in up, down, left, right wins. */
  lemma BindingFirstMatch(options: KeyboardPluginOptions, code: string, d: Direction)
    ensures Binding(options, code) == Some(d) ==> code == Code(options, d)
    ensures Binding(options, code).None? <==> forall e :: code != Code(options, e)
    ensures DistinctCodes(options) ==> Binding(options, Code(options, d)) == Some(d)
    ensures options.up == options.down ==> Binding(options, code) != Some(Down)
    ensures Binding(options, code) == Some(d) ==>
      forall e :: Rank(e) < Rank(d) ==> code != Code(options, e)
  {
    if Binding(options, code).None? {
      forall e ensures code != Code(options, e) {
        match e
        case Up =>
        case Down =>
        case Left =>
        case Right =>
      }
    } else {
      assert code == Code(options, Binding(options, code).value);
    }
    if DistinctCodes(options) {
      assert Code(options, d) != Code(options, Up) || d == Up;
      assert Code(options, d) != Code(options, Down) || d == Down;
      assert Code(options, d) != Code(options, Left) || d == Left;
    }
  }

  /** A bound key event sets exactly its direction's key, held on key down
      and released on key up; an unbound one changes nothing.  Releasing a
      key undoes pressing it when the key was not held before. */
  lemma KeyEventSetsOneKey(keys: ActiveKeys, options: KeyboardPluginOptions, code: string, held: bool)
    ensures KeyEvent(keys, options, code, held).None? <==> Binding(options, code).None?
    ensures Binding(options, code).Some? ==>
      var keys' := KeyEvent(keys, options, code, held).value;
      var d := Binding(options, code).value;
      && Held(keys', d) == held
      && (forall e :: e != d ==> Held(keys', e) == Held(keys, e))
    ensures Binding(options, code).Some? && !Held(keys, Binding(options, code).value) ==>
      KeyEvent(KeyEvent(keys, options, code, true).value, options, code, false).value == keys
  {
  }

  /** Each axis of the offset is -r, 0 or r; opposite keys cancel; and the
      offset is zero exactly when the radius is zero or both pairs of
      opposite keys agree. */
  lemma KeyOffsetShape(keys: ActiveKeys, radius: real)
    ensures var o := KeyOffset(keys, radius);
      && (o.x == -radius || o.x == 0.0 || o.x == radius)
      && (o.y == -radius || o.y == 0.0 || o.y == radius)
      && (keys.left == keys.right ==> o.x == 0.0)
      && (keys.up == keys.down ==> o.y == 0.0)
      && (o == Vec(0.0, 0.0) <==> radius == 0.0 || (keys.up == keys.down && keys.left == keys.right))
      && (keys.up && !keys.down ==> o.y == -radius)
      && (keys.right && !keys.left ==> o.x == radius)
  {
  }

  /** Before the first render the effect does nothing at all, not even the
      slot write; afterwards the plugin's slot ends set exactly when the
      key offset is not zero, and the transition is always turned on. */
  lemma EffectSlotIffOffset(env: Environment, s: Snapshot, i: nat, keys: ActiveKeys, now: real)
    ensures GetRadius(env.props, env.layout).Failure? ==> KeyboardEffect(env, s, i, keys, now) == s
    ensures GetRadius(env.props, env.layout).Success? ==>
      var s' := KeyboardEffect(env, s, i, keys, now);
      && (Slot(s'.handleState.pluginDragging, i) <==> KeyOffset(keys, GetRadius(env.props, env.layout).value) != Vec(0.0, 0.0))
      && s'.shouldTransition
      && (forall j: nat :: j != i ==> Slot(s'.handleState.pluginDragging, j) == Slot(s.handleState.pluginDragging, j))
  {
  }

  /** Letting go of every key (or a zero radius) clears the plugin's slot,
      turns the transition on and resets the handle to the centre, reporting
      the zero event; unless another plugin drags, nothing else follows. */
  lemma EffectLetsGo(env: Environment, s: Snapshot, i: nat, keys: ActiveKeys, now: real)
    requires GetRadius(env.props, env.layout).Success?
    requires KeyOffset(keys, GetRadius(env.props, env.layout).value) == Vec(0.0, 0.0)
    ensures var s' := KeyboardEffect(env, s, i, keys, now);
      && !Slot(s'.handleState.pluginDragging, i)
      && s'.shouldTransition
      && s'.handleState.initialOffsets == s.handleState.initialOffsets
      && (!(exists j: nat :: j != i && Slot(s.handleState.pluginDragging, j)) ==>
            s'.xOffset == 0.0 && s'.yOffset == 0.0 && s'.events == s.events + [ZeroEvent])
  {
    SetSlotGate(s.handleState.pluginDragging, i);
  }

  /** Holding a key takes the plugin's slot and, unless the widget is
      disabled, draws the handle where the engine places the key offset. */
  lemma EffectDrags(env: Environment, s: Snapshot, i: nat, keys: ActiveKeys, now: real)
    requires GetRadius(env.props, env.layout).Success?
    requires KeyOffset(keys, GetRadius(env.props, env.layout).value) != Vec(0.0, 0.0)
    ensures var s' := KeyboardEffect(env, s, i, keys, now);
      var radius := GetRadius(env.props, env.layout).value;
      var o := KeyOffset(keys, radius);
      && Slot(s'.handleState.pluginDragging, i)
      && s'.shouldTransition
      && (!env.props.disabled ==>
            Vec(s'.xOffset, s'.yOffset) == Place(env.math, env.props, radius, o.x, o.y).handle)
  {
    SetSlotGate(s.handleState.pluginDragging, i);
  }

  /** Holding only the up key at radius 50 with bounding on draws the handle
      at (0, -50), the top of the circle, with full pressure. */
  lemma ScenarioUpKey(env: Environment, s: Snapshot, i: nat, now: real)
    requires HypotLaw(env.math) && Polar(env.math) && QuarterTurn(env.math) && FullTurn(env.math)
    requires env.props.boundingModel != Unbounded && !env.props.disabled
    requires !env.props.disableX && !env.props.disableY
    requires GetRadius(env.props, env.layout) == Success(50.0)
    ensures var s' := KeyboardEffect(env, s, i, NoKeys.(up := true), now);
      s'.xOffset == 0.0 && s'.yOffset == -50.0
    ensures Place(env.math, env.props, 50.0, 0.0, -50.0).event.pressure == Pressure(50.0, Finite(100.0))
  {
    var m := env.math;
    assert HypotAt(m, 0.0, -50.0);
    NonNegativeRootUnique(m.hypot(0.0, -50.0), 50.0);
    ClampedAlongRay(m, env.props, 50.0, 0.0, -50.0);
    EffectDrags(env, s, i, NoKeys.(up := true), now);
  }

  /** The effect's first run, on a freshly rendered widget: no key is held,
      so it clears its slot, turns the transition on and reports a second
      zero event after the one the widget reported at creation; the move it
      then requests is inert, as nothing drags. */
  lemma MountReportsSecondZeroEvent(env: Environment, i: nat, now: real)
    requires GetRadius(env.props, env.layout).Success?
    ensures KeyboardEffect(env, Snapshot(0.0, 0.0, false, InitialHandleState, 0.0, [ZeroEvent]), i, NoKeys, now)
         == Snapshot(0.0, 0.0, true, HandleState(SetSlot([], i, false), Vec(0.0, 0.0)), 0.0, [ZeroEvent, ZeroEvent])
    ensures !AnyDragging(SetSlot([], i, false))
  {
    SetSlotGate([], i);
    AnyDraggingBySlot([]);
  }

  class Plugin {
    const pluginIndex: nat
    const options: KeyboardPluginOptions
    var activeKeys: ActiveKeys

    /** Creation attaches the window `keydown`/`keyup` listeners and
        registers the effect.  Solid runs the effect for the first time once
        the widget has rendered, with no key held; `w` is the widget at that
        moment. */
    constructor (pluginIndex: nat, options: KeyboardPluginOptions, w: Joystick, now: real)
      modifies w`shouldTransition, w`pluginDragging, w`xOffset, w`yOffset, w`lastTime, w`events
      ensures this.pluginIndex == pluginIndex && this.options == options
      ensures activeKeys == NoKeys
      ensures w.State() == KeyboardEffect(w.Env(), old(w.State()), pluginIndex, NoKeys, now)
    {
      this.pluginIndex := pluginIndex;
      this.options := options;
      activeKeys := NoKeys;
      new;
      RunEffect(w, now);
    }

    /** The effect, for the current `activeKeys`. */
    method RunEffect(w: Joystick, now: real)
      modifies w`shouldTransition, w`pluginDragging, w`xOffset, w`yOffset, w`lastTime, w`events
      ensures w.State() == KeyboardEffect(w.Env(), old(w.State()), pluginIndex, activeKeys, now)
    {
      var radius := GetRadius(w.props, w.layout);
      if radius.Failure? {
        return;
      }
      w.SetShouldTransition(true);
      var xOffset := 0.0;
      var yOffset := 0.0;
      if activeKeys.up {
        yOffset := yOffset - radius.value;
      }
      if activeKeys.down {
        yOffset := yOffset + radius.value;
      }
      if activeKeys.left {
        xOffset := xOffset - radius.value;
      }
      if activeKeys.right {
        xOffset := xOffset + radius.value;
      }
      assert Vec(xOffset, yOffset) == KeyOffset(activeKeys, radius.value);
      if xOffset == 0.0 && yOffset == 0.0 {
        w.pluginDragging := SetSlot(w.pluginDragging, pluginIndex, false);
        w.Reset();
      } else {
        w.pluginDragging := SetSlot(w.pluginDragging, pluginIndex, true);
      }
      var _ := w.HandleHandleMove(xOffset, yOffset, now);
    }

    method OnKeydown(w: Joystick, code: string, now: real)
      modifies this`activeKeys, w`shouldTransition, w`pluginDragging, w`xOffset, w`yOffset, w`lastTime, w`events
      ensures match KeyEvent(old(activeKeys), options, code, true)
        case None => activeKeys == old(activeKeys) && w.State() == old(w.State())
        case Some(keys) => activeKeys == keys && w.State() == KeyboardEffect(w.Env(), old(w.State()), pluginIndex, keys, now)
    {
      var keys := KeyEvent(activeKeys, options, code, true);
      if keys.Some? {
        activeKeys := keys.value;
        RunEffect(w, now);
      }
    }

    method OnKeyup(w: Joystick, code: string, now: real)
      modifies this`activeKeys, w`shouldTransition, w`pluginDragging, w`xOffset, w`yOffset, w`lastTime, w`events
      ensures match KeyEvent(old(activeKeys), options, code, false)
        case None => activeKeys == old(activeKeys) && w.State() == old(w.State())
        case Some(keys) => activeKeys == keys && w.State() == KeyboardEffect(w.Env(), old(w.State()), pluginIndex, keys, now)
    {
      var keys := KeyEvent(activeKeys, options, code, false);
      if keys.Some? {
        activeKeys := keys.value;
        RunEffect(w, now);
      }
    }
  }
}
