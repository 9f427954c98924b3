/** src/components/Joystick/plugins/GamepadPlugin.tsx: a polled gamepad
    stick, scaled by the radius, with a dead zone around the centre. */
module GamepadPlugin {
  import opened Wrappers
  import opened JoystickCore

  /** "requestAnimationFrame", or a number of milliseconds between polls. */
  datatype PollingModel = RequestAnimationFrame | Interval(ms: real)

  datatype GamepadPluginOptions = GamepadPluginOptions(
    xIndex: nat,
    yIndex: nat,
    index: nat,
    deadzonePercent: real,
    pollingModel: PollingModel)

  /** `Partial<GamepadPluginOptions>`: None is a field left out. */
  datatype PartialGamepadPluginOptions = PartialGamepadPluginOptions(
    xIndex: Option<nat>,
    yIndex: Option<nat>,
    index: Option<nat>,
    deadzonePercent: Option<real>,
    pollingModel: Option<PollingModel>)

  const NoGamepadOptions := PartialGamepadPluginOptions(None, None, None, None, None)

  /** The defaults: left stick (axes 0 and 1) of gamepad 0, a 5 % dead zone,
      polled on every animation frame. */
  const DefaultGamepadConfig := GamepadPluginOptions(0, 1, 0, 0.05, RequestAnimationFrame)

  /** `initialGamepadConfig`: the defaults, overridden by each supplied field. */
  function InitialGamepadConfig(options: PartialGamepadPluginOptions): GamepadPluginOptions {
    GamepadPluginOptions(
      options.xIndex.GetOr(DefaultGamepadConfig.xIndex),
      options.yIndex.GetOr(DefaultGamepadConfig.yIndex),
      options.index.GetOr(DefaultGamepadConfig.index),
      options.deadzonePercent.GetOr(DefaultGamepadConfig.deadzonePercent),
      options.pollingModel.GetOr(DefaultGamepadConfig.pollingModel))
  }

  /** Every field supplied. */
  function Supplied(config: GamepadPluginOptions): PartialGamepadPluginOptions {
    PartialGamepadPluginOptions(Some(config.xIndex), Some(config.yIndex), Some(config.index),
                                Some(config.deadzonePercent), Some(config.pollingModel))
  }

  /** With nothing supplied the config is the defaults; a full set of
      options is taken as is; and supplying one field changes that field
      only. */
  lemma ConfigMerge(config: GamepadPluginOptions, options: PartialGamepadPluginOptions, d: real)
    ensures InitialGamepadConfig(NoGamepadOptions) == DefaultGamepadConfig
    ensures InitialGamepadConfig(Supplied(config)) == config
    ensures InitialGamepadConfig(options.(deadzonePercent := Some(d)))
         == InitialGamepadConfig(options).(deadzonePercent := d)
    ensures var c := InitialGamepadConfig(options);
      && c.xIndex == (if options.xIndex.Some? then options.xIndex.value else DefaultGamepadConfig.xIndex)
      && c.yIndex == (if options.yIndex.Some? then options.yIndex.value else DefaultGamepadConfig.yIndex)
      && c.index == (if options.index.Some? then options.index.value else DefaultGamepadConfig.index)
      && c.deadzonePercent == (if options.deadzonePercent.Some? then options.deadzonePercent.value else DefaultGamepadConfig.deadzonePercent)
      && c.pollingModel == (if options.pollingModel.Some? then options.pollingModel.value else DefaultGamepadConfig.pollingModel)
  {
  }

  /** An axis reading strictly inside the dead zone is neutral. */
  predicate AxisDead(value: real, deadzonePercent: real) {
    Abs(value) < deadzonePercent
  }

  /** What a poll does with a reading of the configured axes. */
  datatype GamepadStep =
    | Engage   // some axis is live and the reading differs from the anchor
    | Disengage // both axes are neutral and this plugin was dragging
    | Hold     // nothing to do

  function Step(s: Snapshot, pluginIndex: nat, deadzonePercent: real, axes: Vec): GamepadStep {
    var deadX := AxisDead(axes.x, deadzonePercent);
    var deadY := AxisDead(axes.y, deadzonePercent);
    if !deadX || !deadY then
      if axes.x != s.handleState.initialOffsets.x || axes.y != s.handleState.initialOffsets.y then Engage else Hold
    else if deadX && deadY && Slot(s.handleState.pluginDragging, pluginIndex) then Disengage
    else Hold
  }

  /** The stick's reading as a pixel offset: each axis times the radius. */
  function Deflection(axes: Vec, radius: real): Vec {
    Vec(axes.x * radius, axes.y * radius)
  }

  /** `onGamepadUpdate` for the reading `axes` of the configured gamepad,
      when one is connected.  The reading is stored as the shared anchor,
      and the stick's deflection times the radius is the requested offset.
      Before the first render `getRadius` throws. */
  function GamepadUpdate(env: Environment, s: Snapshot, pluginIndex: nat, config: GamepadPluginOptions,
                         axes: Vec, now: real): Result<Snapshot, Fault> {
    match GetRadius(env.props, env.layout)
    case Failure(e) => Failure(e)
    case Success(radius) =>
      match Step(s, pluginIndex, config.deadzonePercent, axes)
      case Engage =>
        var s1 := s.(handleState := HandleState(SetSlot(s.handleState.pluginDragging, pluginIndex, true), axes),
                     shouldTransition := false);
        HandleMove(env, s1, Deflection(axes, radius).x, Deflection(axes, radius).y, now)
      case Disengage =>
        var s1 := s.(handleState := HandleState(SetSlot(s.handleState.pluginDragging, pluginIndex, false), Vec(0.0, 0.0)),
                     shouldTransition := true);
        Success(ResetOffsets(s1))
      case Hold => Success(s)
  }

  /** The dead zone is the open interval (-d, d): a reading of exactly d is live. */
  lemma DeadzoneBoundary(value: real, d: real)
    ensures AxisDead(value, d) <==> -d < value < d
    ensures !AxisDead(d, d) && !AxisDead(-d, d)
  {
  }

  /** The three steps: the stick engages exactly when an axis is live and the
      reading moved; it lets go exactly when both axes are neutral and it
      was dragging. */
  lemma StepCases(s: Snapshot, i: nat, d: real, axes: Vec)
    ensures Step(s, i, d, axes) == Engage <==>
      (!AxisDead(axes.x, d) || !AxisDead(axes.y, d)) && axes != s.handleState.initialOffsets
    ensures Step(s, i, d, axes) == Disengage <==>
      AxisDead(axes.x, d) && AxisDead(axes.y, d) && Slot(s.handleState.pluginDragging, i)
  {
  }

  /** A poll that neither engages nor lets go changes nothing; before the
      first render every poll throws. */
  lemma HoldChangesNothing(env: Environment, s: Snapshot, i: nat, config: GamepadPluginOptions, axes: Vec, now: real)
    ensures GetRadius(env.props, env.layout).Failure? ==>
      GamepadUpdate(env, s, i, config, axes, now) == Failure(RadiusBeforeRender)
    ensures GetRadius(env.props, env.layout).Success? && Step(s, i, config.deadzonePercent, axes) == Hold ==>
      GamepadUpdate(env, s, i, config, axes, now) == Success(s)
  {
  }

  /** Engaging takes the slot, stores the reading as the anchor, turns the
      transition off and, with the widget enabled, draws the placement of
      the reading scaled by the radius. */
  lemma EngageDraws(env: Environment, s: Snapshot, i: nat, config: GamepadPluginOptions, axes: Vec, now: real)
    requires GetRadius(env.props, env.layout).Success?
    requires Step(s, i, config.deadzonePercent, axes) == Engage
    ensures var r := GamepadUpdate(env, s, i, config, axes, now);
      var radius := GetRadius(env.props, env.layout).value;
      var p := Place(env.math, env.props, radius, Deflection(axes, radius).x, Deflection(axes, radius).y);
      && r.Success?
      && Slot(r.value.handleState.pluginDragging, i)
      && r.value.handleState.initialOffsets == axes
      && !r.value.shouldTransition
      && (!env.props.disabled ==> Vec(r.value.xOffset, r.value.yOffset) == p.handle)
  {
    var radius := GetRadius(env.props, env.layout).value;
    var s1 := s.(handleState := HandleState(SetSlot(s.handleState.pluginDragging, i, true), axes),
                 shouldTransition := false);
    SetSlotGate(s.handleState.pluginDragging, i);
    assert GamepadUpdate(env, s, i, config, axes, now) == HandleMove(env, s1, Deflection(axes, radius).x, Deflection(axes, radius).y, now);
    if !env.props.disabled {
      GateOpenMoves(env, s1, Deflection(axes, radius).x, Deflection(axes, radius).y, now);
    }
  }

  /** Letting go clears the slot and the anchor, turns the transition on,
      centres the handle and reports the zero event once. */
  lemma DisengageResets(env: Environment, s: Snapshot, i: nat, config: GamepadPluginOptions, axes: Vec, now: real)
    requires GetRadius(env.props, env.layout).Success?
    requires Step(s, i, config.deadzonePercent, axes) == Disengage
    ensures var r := GamepadUpdate(env, s, i, config, axes, now);
      && r.Success?
      && !Slot(r.value.handleState.pluginDragging, i)
      && r.value.handleState.initialOffsets == Vec(0.0, 0.0)
      && r.value.shouldTransition
      && r.value.xOffset == 0.0 && r.value.yOffset == 0.0
      && r.value.events == s.events + [ZeroEvent]
  {
  }

  /** With the default 5 % dead zone: a reading of 0.03 on a plugin that is
      not dragging emits nothing; a reading of 0.06 moves the handle and,
      unthrottled and enabled, reports exactly the engine's event. */
  lemma ScenarioDeadzone(env: Environment, s: Snapshot, i: nat, now: real)
    requires GetRadius(env.props, env.layout).Success?
    requires !Slot(s.handleState.pluginDragging, i)
    requires s.handleState.initialOffsets == Vec(0.0, 0.0)
    requires !env.props.disabled && env.props.throttleEventsBy == 0.0
    ensures GamepadUpdate(env, s, i, DefaultGamepadConfig, Vec(0.03, 0.0), now) == Success(s)
    ensures var r := GamepadUpdate(env, s, i, DefaultGamepadConfig, Vec(0.06, 0.0), now);
      var radius := GetRadius(env.props, env.layout).value;
      && r.Success?
      && r.value.events == s.events + [Place(env.math, env.props, radius, Deflection(Vec(0.06, 0.0), radius).x, Deflection(Vec(0.06, 0.0), radius).y).event]
  {
    SetSlotGate(s.handleState.pluginDragging, i);
  }

  class Plugin {
    const pluginIndex: nat
    const config: GamepadPluginOptions
    /** Whether a poll is scheduled (the polling loop is armed). */
    var polling: bool

    /** `onMount`: the config is merged and the first poll is scheduled. */
    constructor (pluginIndex: nat, options: PartialGamepadPluginOptions)
      ensures this.pluginIndex == pluginIndex && config == InitialGamepadConfig(options)
      ensures polling
    {
      this.pluginIndex := pluginIndex;
      config := InitialGamepadConfig(options);
      polling := true;
    }

    /** A scheduled poll runs: `gamepad` is the reading of the configured
        axes, or None when no gamepad is at the configured index.  The loop
        re-arms only after a poll that found a gamepad and did not throw. */
    method OnGamepadUpdate(w: Joystick, gamepad: Option<Vec>, now: real) returns (outcome: Outcome<Fault>)
      requires polling
      modifies this`polling, w`shouldTransition, w`pluginDragging, w`initialOffsets, w`xOffset, w`yOffset, w`lastTime, w`events
      ensures polling <==> gamepad.Some? && outcome.Pass?
      ensures gamepad.None? ==> outcome.Pass? && w.State() == old(w.State())
      ensures gamepad.Some? ==>
        GamepadUpdate(w.Env(), old(w.State()), pluginIndex, config, gamepad.value, now)
          == if outcome.Pass? then Success(w.State()) else Failure(outcome.error)
      ensures outcome.Fail? ==> w.State() == old(w.State())
    {
      polling := false;
      if gamepad.None? {
        return Pass;
      }
      var radius := GetRadius(w.props, w.layout);
      if radius.Failure? {
        return Fail(radius.error);
      }
      ghost var s0 := w.State();
      var x, y := gamepad.value.x, gamepad.value.y;
      var deadX := Abs(x) < config.deadzonePercent;
      var deadY := Abs(y) < config.deadzonePercent;
      if !deadX || !deadY {
        if x != w.initialOffsets.x || y != w.initialOffsets.y {
          w.initialOffsets := Vec(x, y);
          w.pluginDragging := SetSlot(w.pluginDragging, pluginIndex, true);
          w.SetShouldTransition(false);
          assert Step(s0, pluginIndex, config.deadzonePercent, gamepad.value) == Engage;
          assert w.State() == s0.(handleState := HandleState(SetSlot(s0.handleState.pluginDragging, pluginIndex, true), gamepad.value),
                                  shouldTransition := false);
          var deflection := Deflection(gamepad.value, radius.value);
          outcome := w.HandleHandleMove(deflection.x, deflection.y, now);
        } else {
          outcome := Pass;
        }
      } else if deadX && deadY && Slot(w.pluginDragging, pluginIndex) {
        w.initialOffsets := Vec(0.0, 0.0);
        w.pluginDragging := SetSlot(w.pluginDragging, pluginIndex, false);
        w.SetShouldTransition(true);
        w.Reset();
        outcome := Pass;
      } else {
        outcome := Pass;
      }
      polling := outcome.Pass?;
    }

    /** A `gamepadconnected` event: for the configured index it schedules a
        poll (on top of any already scheduled one). */
    method OnGamepadConnected(gamepadIndex: nat)
      modifies this`polling
      ensures polling == (old(polling) || gamepadIndex == config.index)
    {
      if gamepadIndex == config.index {
        polling := true;
      }
    }
  }
}
