# solid-joystick in Dafny

A model of the core of solid-joystick, an on-screen joystick widget for
SolidJS, with proofs about it. The core has four parts:

- **The trigonometry helpers** (`Trig`). They give the angle of an offset, with
  the screen's y axis pointing down, and the point on a circle of a given
  radius along that angle.
- **The plugin-based widget** (`JoystickCore`). It covers:
  - the effective radius of each bounding model (`getRadius`);
  - `handleHandleMove`, the bounding engine every input plugin calls;
  - the `onMove` throttle;
  - the drag state all plugins share. This is one drag slot per plugin
    (`pluginDragging`) and one shared anchor (`initialOffsets`).
- **The six input plugins**. Each is a class driving a `JoystickCore.Joystick`:
  - pointer and mouse (`PointerPlugin`, `MousePlugin`), whose common press,
    move and release machine is `PressDrag`;
  - multitouch (`MultiTouchPlugin`);
  - keyboard (`KeyboardPlugin`);
  - gamepad (`GamepadPlugin`);
  - pointer lock (`PointerLockPlugin`).
- **The two single-input widgets**. These are the older component
  (`LegacyJoystick`) and the storybook's own copy (`StoryJoystick`). Each is
  shown to draw what the plugin-based engine draws.

## How the model is built

- **Numbers and trigonometry.** Numbers are `real`s. `Math.PI`, `atan2`,
  `sin`, `cos` and `hypot` are the fields of a `Trig.Math` value. What the
  widget relies on about them is stated as laws, which the lemmas that need
  them take as `requires`:
  - `atan2` lies in (-π, π];
  - sin² + cos² = 1;
  - `hypot` is the non-negative root of x² + y²;
  - the quarter-turn and full-turn identities;
  - `atan2` gives the direction of a point.
- **Non-finite numbers.** A division by a zero radius gives Infinity or NaN in
  JavaScript. The model writes this as `NonFinite`.
- **Widget state.** Each class keeps the widget's state in fields:
  - the rendered offsets;
  - the transition flag;
  - the drag slots and the anchor;
  - the throttle's clock;
  - the log of events `onMove` received.

  Every handler is a method that `ensures` its new state equals a function of
  its old state (`HandleMove`, `Pressed`, `Released`, `KeyboardEffect`,
  `GamepadUpdate`, `LockMouseMove`, `LockFrame`, ...). The lemmas about those
  functions state what the source promises.
- **Drag slots.** Writing `pluginDragging[i]` past the end of the array grows
  it. The holes between read as false (`SetSlot`).
- **Exceptions.** A thrown exception is a `Fail`/`Failure` carrying a
  `Fault`. State changed before the throw stays changed.
- **Listeners.** Attaching and removing listeners is a `listening` flag. Moves
  and releases take effect only while it is set.
- **Time and devices.** The clock and device readings are parameters: `now`,
  client and screen coordinates, key codes, gamepad axis readings, and whether
  the pointer is locked.

### Behaviour of the code worth knowing

- `angleRadians` adds 2π to every result of `atan2` that is not strictly
  positive. The angle therefore lies in (0, 2π], and a purely rightward
  offset reads 2π (`Trig.RightwardIsFullTurn`,
  `JoystickCore.ScenarioClampRightward`).
- The engine computes distance, angle and pressure from the offset as
  requested. It zeroes a disabled axis only in the drawn offset, so angle
  and pressure ignore `disableX`/`disableY`
  (`JoystickCore.AngleAndPressureIgnoreDisabledAxes`).
- A release with reset replaces the whole shared `handleState`. This clears
  every plugin's slot, not only the releasing plugin's
  (`PressDrag.ReleaseClearsEverySlot`).
- The keyboard plugin drags exactly while the key offset is not zero. Holding
  opposite keys together lets go (`KeyboardPlugin.EffectSlotIffOffset`).
- A touch move without target touches throws when an axis is enabled
  (`MultiTouchPlugin.TouchRequestContract`).
- The pointer-lock plugin does not use the engine. Its offsets are neither
  bounded nor gated by `disabled`, the disabled axes or the drag slots
  (`PointerLockPlugin.LockedMoveBypassesEngine`).

## Model

| member | source | states |
|---|---|---|
| `Trig.AngleRadians` | src/utils/Trig.ts:4-7 | when `atan2` lies in (-π, π], the angle lies in (0, 2π] |
| `Trig.RadiansToDegrees` | src/utils/Trig.ts:9-10 | degrees · π = radians · 180 |
| `Trig.GetMaxX` | src/utils/Trig.ts:12-13 | the x of the clamp point is 0 for a zero radius |
| `Trig.GetMaxY` | src/utils/Trig.ts:15-16 | the y of the clamp point is 0 for a zero radius |
| `Trig.RightwardIsFullTurn` | src/utils/Trig.ts:4-7 | a purely rightward offset has angle 2π, not 0 |
| `Trig.UpwardIsUpperHalf` | src/utils/Trig.ts:4-7 | y is negated: an offset up the screen (y < 0) has an angle in (0, π) |
| `Trig.DegreesLinear` | src/utils/Trig.ts:9-10 | the conversion is additive and homogeneous, and π radians are 180 degrees |
| `Trig.MaxLinearInRadius` | src/utils/Trig.ts:12-16 | both clamp coordinates are linear in the radius |
| `Trig.MaxOnCircle` | src/utils/Trig.ts:12-16 | given sin² + cos² = 1, getMaxX² + getMaxY² = radius² |
| `Trig.HypotBySquares` | src/utils/Trig.ts:2 | `hypotenuse` depends only on x² + y² |
| `Trig.HypotAtMost` | src/utils/Trig.ts:2 | for r ≥ 0, hypotenuse(x, y) ≤ r exactly when x² + y² ≤ r² |
| `Trig.MaxByQuarterTurn` | src/utils/Trig.ts:12-16 | the π/2 shift turns the clamp point into (cos a · r, -sin a · r) |
| `Trig.AngleDirection` | src/utils/Trig.ts:4-7 | cos and -sin of the normalised angle, times the hypotenuse, give back x and y |
| `Trig.MaxAlongRay` | src/utils/Trig.ts:4-16 | the clamp point is the offset scaled by radius / hypotenuse: it lies on the ray through the offset |
| `JoystickCore.GetRadius` | src/components/Joystick/Joystick.tsx:28-44 | throws (RadiusBeforeRender) exactly when the base or the handle is not rendered |
| `JoystickCore.RadiusByModel` | src/components/Joystick/Joystick.tsx:28-40 | center and none: base/2 + modifier; inner: base/2 - max(w, h)/2 + modifier; outer: base/2 + max(w, h)/2 + modifier |
| `JoystickCore.RadiusOrdered` | src/components/Joystick/Joystick.tsx:30-40 | for a handle of non-negative size, inner ≤ center ≤ outer |
| `JoystickCore.SetSlot` | src/components/Joystick/plugins/PointerPlugin.tsx:60 | writing slot i makes slot i read the value, changes no other slot, and grows the array to i + 1 when needed |
| `JoystickCore.AnyDraggingBySlot` | src/components/Joystick/Joystick.tsx:64 | `pluginDragging.some(...)` holds exactly when some index reads true |
| `JoystickCore.SetSlotGate` | src/components/Joystick/Joystick.tsx:63-64 | setting a slot opens the gate; clearing one leaves it open exactly when another slot is set |
| `JoystickCore.PressurePercentage` | src/components/Joystick/Joystick.tsx:97-100 | not finite exactly for a zero radius; otherwise non-negative, with percentage · abs(radius) = abs(hypotenuse) · 100 |
| `JoystickCore.DisabledAxisIsZero` | src/components/Joystick/Joystick.tsx:71-80 | a disabled axis is drawn at 0, clamped or not |
| `JoystickCore.PassThrough` | src/components/Joystick/Joystick.tsx:71-80 | with hypotenuse < radius or model none, the request is drawn unchanged (apart from disabled axes) |
| `JoystickCore.ClampedOnCircle` | src/components/Joystick/Joystick.tsx:71-81 | otherwise, with both axes enabled, the handle sits exactly on the circle |
| `JoystickCore.ClampedAlongRay` | src/components/Joystick/Joystick.tsx:69-80 | ... and on the ray through the requested offset |
| `JoystickCore.PressureCases` | src/components/Joystick/Joystick.tsx:92-101 | pressure is (radius, 100) past the radius with bounding on, else (hypotenuse, abs(hypotenuse/radius · 100)) |
| `JoystickCore.AngleAndPressureIgnoreDisabledAxes` | src/components/Joystick/Joystick.tsx:69-101 | angle and pressure come from the requested offset and do not depend on the disabled axes |
| `JoystickCore.PressureAtMostHundred` | src/components/Joystick/Joystick.tsx:92-101 | with bounding on and a positive radius, the percentage lies in [0, 100] |
| `JoystickCore.HandleInsideRadius` | src/components/Joystick/Joystick.tsx:71-82 | with bounding on and radius ≥ 0, the drawn handle is never outside the circle, whichever axes are disabled |
| `JoystickCore.ScenarioClampRightward` | src/components/Joystick/Joystick.tsx:61-104 | center model, radius 100, request (150, 0): handle (100, 0), angle 2π, pressure (100, 100) |
| `JoystickCore.ScenarioUnbounded` | src/components/Joystick/Joystick.tsx:61-104 | model none, radius 100, request (150, 0): handle (150, 0), pressure (150, 150) |
| `JoystickCore.ThrottleContract` | src/components/Joystick/Joystick.tsx:46-59 | an event is forwarded exactly when the throttle is 0 or `now - lastTime >= throttleEventsBy`; the clock moves only on a forward; dropped events are not queued |
| `JoystickCore.ScenarioThrottle` | src/components/Joystick/Joystick.tsx:46-59 | with a 100 ms throttle, two moves 30 ms apart reach `onMove` once, with the first event; 100 ms apart, both do |
| `JoystickCore.ResetBypassesThrottle` | src/components/Joystick/Joystick.tsx:108-112 | plugins get the unthrottled `onMove`: a reset reports the zero event even when the throttle would drop one |
| `JoystickCore.PreLayoutMoveFails` | src/components/Joystick/Joystick.tsx:61-62 | a move before the first render throws, even when nothing drags |
| `JoystickCore.GateClosedIsInert` | src/components/Joystick/Joystick.tsx:63-68 | unless some slot is set and the widget is enabled, a move changes nothing and reports nothing |
| `JoystickCore.GateOpenMoves` | src/components/Joystick/Joystick.tsx:61-104 | with the gate open the placement is drawn, the drag state is kept, and the event is reported exactly when the throttle forwards it |
| `JoystickCore.MovesKeepHandleInside` | src/components/Joystick/Joystick.tsx:61-104 | with bounding on, being inside the circle is preserved by every move and every reset |
| `JoystickCore.Joystick.constructor` | src/components/Joystick/Joystick.tsx:106 | a new widget is at the centre, nothing drags, and `onMove` has received exactly one zero event |
| `JoystickCore.Joystick.OnMoveThrottled` | src/components/Joystick/Joystick.tsx:46-59 | the closure's new clock and event log are those of `EmitThrottled` |
| `JoystickCore.Joystick.HandleHandleMove` | src/components/Joystick/Joystick.tsx:61-104 | the new state is `HandleMove` of the old one; on a throw nothing changes |
| `JoystickCore.Joystick.Reset` | src/components/Joystick/plugins/PointerPlugin.tsx:37-39 | offsets zeroed and the zero event reported |
| `JoystickCore.RegisterPlugins` | src/components/Joystick/Joystick.tsx:108-137 | plugin i is started with pluginIndex i, so no two plugins share a slot |
| `PressDrag.PressTakesSlot` | src/components/Joystick/plugins/PointerPlugin.tsx:45-62 | a press turns the transition off and sets slot i; the anchor becomes the press point unless reset is disabled and slot i already drags, in which case the drag state is kept |
| `PressDrag.PressOpensGate` | src/components/Joystick/plugins/PointerPlugin.tsx:53-61 | after a press the engine's gate is open |
| `PressDrag.PressThenMoveRequestsDelta` | src/components/Joystick/plugins/PointerPlugin.tsx:21-30 | after a fresh press at p, a move at q requests q - p on each enabled axis and 0 on a disabled one |
| `PressDrag.ReleaseClearsEverySlot` | src/components/Joystick/plugins/PointerPlugin.tsx:32-41 | a release with reset clears every slot, zeroes the anchor and offsets, turns the transition on and reports the zero event once |
| `PressDrag.ReleaseWithoutResetKeepsDrag` | src/components/Joystick/plugins/PointerPlugin.tsx:32-41 | with reset disabled a release only turns the transition on; the slot stays set |
| `PressDrag.ReleaseThenMoveIsInert` | src/components/Joystick/plugins/PointerPlugin.tsx:32-41 | after a release with reset every move is inert until the next press |
| `PressDrag.PressMoveReleaseEndsAtZero` | src/components/Joystick/plugins/PointerPlugin.tsx:21-62 | press, drag, release: the handle ends at (0, 0), the last event is the zero event, and the drag reported at most one event |
| `PointerPlugin.Plugin.OnPointerDown` | src/components/Joystick/plugins/PointerPlugin.tsx:43-63 | the new state is `Pressed` of the old one at the client point; the move and up listeners are attached |
| `PointerPlugin.Plugin.HandlePointerMove` | src/components/Joystick/plugins/PointerPlugin.tsx:21-30 | while listening, the engine moves by `DragRequest` from the anchor; otherwise nothing happens; a throw (before render) changes nothing |
| `PointerPlugin.Plugin.HandlePointerUp` | src/components/Joystick/plugins/PointerPlugin.tsx:32-41 | the first release after a press is `Released`; the listeners are detached |
| `MousePlugin.Plugin.OnMouseDown` | src/components/Joystick/plugins/MousePlugin.tsx:43-63 | as the pointer press, on `onmousedown` |
| `MousePlugin.Plugin.HandlePointerMove` | src/components/Joystick/plugins/MousePlugin.tsx:21-30 | as the pointer move, on `mousemove`; a throw changes nothing |
| `MousePlugin.Plugin.HandlePointerUp` | src/components/Joystick/plugins/MousePlugin.tsx:32-41 | as the pointer release, on `mouseup` |
| `MultiTouchPlugin.TouchStartContract` | src/components/Joystick/plugins/MultiTouchPlugin.tsx:44-66 | a touch start is the press at the first target touch; with no touch it throws exactly when it would take the slot, after turning the transition off |
| `MultiTouchPlugin.TouchRequestContract` | src/components/Joystick/plugins/MultiTouchPlugin.tsx:22-31 | a move requests first touch - anchor per enabled axis; it throws for want of a touch exactly when an axis is enabled |
| `MultiTouchPlugin.TouchStartAsWrittenNeverDrags` | src/components/Joystick/plugins/MultiTouchPlugin.tsx:44-54 | as written, a touch start throws on the missing `handleRef` and never opens the gate; the intended handler does |
| `MultiTouchPlugin.Plugin.OnTouchStart` | src/components/Joystick/plugins/MultiTouchPlugin.tsx:44-66 | the new state and outcome are `TouchStarted`; the listeners are attached |
| `MultiTouchPlugin.Plugin.HandlePointerMove` | src/components/Joystick/plugins/MultiTouchPlugin.tsx:22-31 | a throw on `TouchRequest` failure, else the engine's move; a throw of either kind changes nothing |
| `MultiTouchPlugin.Plugin.HandlePointerUp` | src/components/Joystick/plugins/MultiTouchPlugin.tsx:33-42 | the first touch end after a start is `Released` |
| `KeyboardPlugin.InitialKeyboardPluginOptions` | src/components/Joystick/plugins/KeyboardPlugin.tsx:109-119 | wasd binds up, down, left, right to KeyW, KeyS, KeyA, KeyD, arrows to ArrowUp, ArrowDown, ArrowLeft, ArrowRight; both bind four different codes |
| `KeyboardPlugin.WithKey` | src/components/Joystick/plugins/KeyboardPlugin.tsx:69-91 | the spread record sets one direction and keeps the other three |
| `KeyboardPlugin.BindingFirstMatch` | src/components/Joystick/plugins/KeyboardPlugin.tsx:69-91 | a code is read for the first direction bound to it, in up, down, left, right order (no earlier direction has that code), and ignored exactly when unbound |
| `KeyboardPlugin.KeyEventSetsOneKey` | src/components/Joystick/plugins/KeyboardPlugin.tsx:69-91 | key down holds and key up releases exactly the bound direction; a release undoes a press |
| `KeyboardPlugin.KeyOffsetShape` | src/components/Joystick/plugins/KeyboardPlugin.tsx:41-54 | each component is -r, 0 or r; opposite keys cancel; the offset is zero exactly when r = 0 or both pairs agree |
| `KeyboardPlugin.EffectSlotIffOffset` | src/components/Joystick/plugins/KeyboardPlugin.tsx:36-67 | before render the effect does nothing; after, slot i is set exactly when the offset is not zero and the transition is on |
| `KeyboardPlugin.EffectLetsGo` | src/components/Joystick/plugins/KeyboardPlugin.tsx:55-63 | a zero offset clears the slot and, with no other plugin dragging, centres the handle with one zero event |
| `KeyboardPlugin.EffectDrags` | src/components/Joystick/plugins/KeyboardPlugin.tsx:60-63 | a non-zero offset sets the slot and draws the engine's placement |
| `KeyboardPlugin.ScenarioUpKey` | src/components/Joystick/plugins/KeyboardPlugin.tsx:36-67 | the up key alone at radius 50 draws (0, -50) with full pressure |
| `KeyboardPlugin.MountReportsSecondZeroEvent` | src/components/Joystick/plugins/KeyboardPlugin.tsx:36-67 | the effect's first run on a freshly rendered widget writes `pluginDragging[i] = false`, turns the transition on and reports a second zero event after the one of src/components/Joystick/Joystick.tsx:106; its move is inert |
| `KeyboardPlugin.Plugin.constructor` | src/components/Joystick/plugins/KeyboardPlugin.tsx:29-67 | no key is held, and the effect's first run after render leaves the widget in `KeyboardEffect` of no keys |
| `KeyboardPlugin.Plugin.RunEffect` | src/components/Joystick/plugins/KeyboardPlugin.tsx:36-67 | the step-by-step accumulation gives `KeyboardEffect` of the current keys |
| `KeyboardPlugin.Plugin.OnKeydown` | src/components/Joystick/plugins/KeyboardPlugin.tsx:69-79 | a bound key sets a new record and runs the effect; an unbound key changes nothing |
| `KeyboardPlugin.Plugin.OnKeyup` | src/components/Joystick/plugins/KeyboardPlugin.tsx:81-91 | the same with the key released |
| `GamepadPlugin.ConfigMerge` | src/components/Joystick/plugins/GamepadPlugin.tsx:119-128 | no options give the defaults (0, 1, 0, 0.05, animation frame); full options are kept; each of the five fields is the supplied value when given and its default otherwise, and supplying one field changes only that field |
| `GamepadPlugin.DeadzoneBoundary` | src/components/Joystick/plugins/GamepadPlugin.tsx:41-42 | an axis is dead exactly inside (-d, d); a reading of exactly d is live |
| `GamepadPlugin.StepCases` | src/components/Joystick/plugins/GamepadPlugin.tsx:43-67 | engage exactly when an axis is live and the reading differs from the anchor; let go exactly when both are dead and slot i is set |
| `GamepadPlugin.HoldChangesNothing` | src/components/Joystick/plugins/GamepadPlugin.tsx:35-70 | before render a poll throws; a poll that neither engages nor lets go changes nothing |
| `GamepadPlugin.EngageDraws` | src/components/Joystick/plugins/GamepadPlugin.tsx:43-53 | engaging sets the slot, stores the reading as the anchor, turns the transition off and draws the reading times the radius |
| `GamepadPlugin.DisengageResets` | src/components/Joystick/plugins/GamepadPlugin.tsx:54-67 | letting go clears the slot and anchor, turns the transition on, centres the handle and reports the zero event once |
| `GamepadPlugin.ScenarioDeadzone` | src/components/Joystick/plugins/GamepadPlugin.tsx:35-70 | with the default dead zone of 0.05, a reading of 0.03 changes nothing and one of 0.06 reports the engine's event |
| `GamepadPlugin.Plugin.constructor` | src/components/Joystick/plugins/GamepadPlugin.tsx:24-81 | on mount the config is merged and a first poll is scheduled |
| `GamepadPlugin.Plugin.OnGamepadUpdate` | src/components/Joystick/plugins/GamepadPlugin.tsx:35-70 | the new state is `GamepadUpdate`; a throw (before render) changes nothing; the loop re-arms exactly after a poll that found a gamepad and did not throw |
| `GamepadPlugin.Plugin.OnGamepadConnected` | src/components/Joystick/plugins/GamepadPlugin.tsx:29-33 | connecting the configured gamepad schedules a poll |
| `PointerLockPlugin.StartSessionContract` | src/components/Joystick/plugins/PointerLockPlugin.tsx:37-65 | a session starts exactly when the widget is rendered, unmoved, with the radius of that moment |
| `PointerLockPlugin.ClickAsWrittenStartsNothing` | src/components/Joystick/plugins/PointerLockPlugin.tsx:99-107 | as written, a click throws on the missing `baseRef` and starts no session; the intended handler starts one |
| `PointerLockPlugin.LockOffsetScales` | src/components/Joystick/plugins/PointerLockPlugin.tsx:67-84 | the drawn offset is the movement times radius/10, and its percentages are a tenth of the movement for any non-zero radius |
| `PointerLockPlugin.LockedMoveBypassesEngine` | src/components/Joystick/plugins/PointerLockPlugin.tsx:67-71 | a locked movement is drawn unbounded (20 px at radius 100 draws 200 px) and touches no drag state |
| `PointerLockPlugin.LockEventAngle` | src/components/Joystick/plugins/PointerLockPlugin.tsx:72-93 | the event carries the raw movement as pixels, its angle as the engine computes it, and its length as pressure pixels |
| `PointerLockPlugin.MoveSurvivesOneFrame` | src/components/Joystick/plugins/PointerLockPlugin.tsx:48-95 | a locked movement is reported once, survives the next frame, and the frame after recentres the handle with a zero event |
| `PointerLockPlugin.UnlockedMoveOnlyLatches` | src/components/Joystick/plugins/PointerLockPlugin.tsx:67-69 | an unlocked movement changes nothing but the latch, which spares the next frame's reset |
| `PointerLockPlugin.UnlockEndsSession` | src/components/Joystick/plugins/PointerLockPlugin.tsx:48-63 | a frame without the lock resets and ends the session; afterwards moves and frames change nothing |
| `PointerLockPlugin.Plugin.MouseListener` | src/components/Joystick/plugins/PointerLockPlugin.tsx:37-65 | throws before render and starts nothing; otherwise starts `StartSession`'s session |
| `PointerLockPlugin.Plugin.OnMouseMove` | src/components/Joystick/plugins/PointerLockPlugin.tsx:67-95 | the new state and session are `LockMouseMove` |
| `PointerLockPlugin.Plugin.OnAnimationFrame` | src/components/Joystick/plugins/PointerLockPlugin.tsx:48-63 | the new state and session are `LockFrame` |
| `LegacyJoystick.LegacyAgreesWithEngine` | src/components/Joystick.tsx:21-57 | the older placement equals the engine's with both axes enabled and model none exactly for `disableBounding` |
| `LegacyJoystick.LegacyHandleInside` | src/components/Joystick.tsx:29-36 | with bounding on the handle stays inside the circle of half the base width |
| `LegacyJoystick.LegacyMoveGate` | src/components/Joystick.tsx:21-26 | a move has an effect only between press and release with the base rendered, and then draws the placement of client - anchor at radius base/2 |
| `LegacyJoystick.LegacyDragCycle` | src/components/Joystick.tsx:21-83 | press, move, release: drawn for q - p, then centred, with the zero event last and the initial handle state restored |
| `LegacyJoystick.LegacyStickyDrag` | src/components/Joystick.tsx:59-83 | with reset disabled a release keeps the drag and anchor, and the next press does not move the anchor |
| `LegacyJoystick.Joystick.constructor` | src/components/Joystick.tsx:85 | a new widget has reported exactly the zero event |
| `LegacyJoystick.Joystick.HandlePointerDown` | src/components/Joystick.tsx:70-83 | the new state is `LegacyDown` |
| `LegacyJoystick.Joystick.HandlePointerMove` | src/components/Joystick.tsx:21-57 | the new state is `LegacyMove` |
| `LegacyJoystick.Joystick.HandlePointerUp` | src/components/Joystick.tsx:59-68 | the new state is `LegacyUp` |
| `StoryJoystick.GeometryIsTrig` | src/stories/Joystick.tsx:142-158 | the story's `Geometry` helpers are `Trig`'s: same normalisation, degrees and clamp point |
| `StoryJoystick.StoryAgreesWithEngine` | src/stories/Joystick.tsx:18-48 | the story draws the engine's center-model handle and pressure pixels; its angle is that of the drawn offset |
| `StoryJoystick.StoryPercentageAgrees` | src/stories/Joystick.tsx:44-46 | for a positive radius the percentage without abs equals the engine's |
| `StoryJoystick.StoryZeroRadius` | src/stories/Joystick.tsx:44-46 | at a zero radius the percentage is not a number exactly for the zero offset |
| `StoryJoystick.StoryMoveGate` | src/stories/Joystick.tsx:18-20 | a move has an effect only while dragging with the base rendered |
| `StoryJoystick.StoryDragCycle` | src/stories/Joystick.tsx:18-76 | down, move, up: drawn for q - p, then centred with the zero event last; a press always re-anchors |
| `StoryJoystick.Joystick.constructor` | src/stories/Joystick.tsx:10-16 | a new story widget is centred, not dragging, and has reported nothing |
| `StoryJoystick.Joystick.HandleMouseDown` | src/stories/Joystick.tsx:65-76 | the new state is `StoryDown` |
| `StoryJoystick.Joystick.HandleMouseMove` | src/stories/Joystick.tsx:18-50 | the new state is `StoryMove` |
| `StoryJoystick.Joystick.HandleMouseUp` | src/stories/Joystick.tsx:52-63 | the new state is `StoryUp` |

## Left out

- Rendering is not modelled. This covers the JSX, the `styles` objects, the
  transform strings and the wrapping of `handleProps.children`. The
  `disableResetAnimation` and `resetAnimation` props only feed the style, so
  they are carried but not used.
- The handle button's `disabled` attribute (`disabled || (disableX &&
  disableY)`) is not modelled. Whether a disabled button delivers pointer
  events is up to the browser.
- Listener attach and remove, `preventDefault`, `onMount`, `onCleanup` and
  Solid's reactivity are not modelled as such. Each listener is a method
  guarded by a `listening` flag. The keyboard effect is a method that the key
  handlers call after each new record. Its first run, which Solid defers
  until the widget has rendered, is part of `KeyboardPlugin.Plugin`'s
  constructor, which takes the rendered widget.
  - The removal of the keyboard listeners on unmount is left out.
- The consumer's own `onpointerdown` and `onclick` handlers that the plugins
  chain to are left out. They are the consumer's code.
- A consumer's `onMove` that throws is left out. So is a browser that
  delivers both the pointer and the mouse events of one press to two plugins.
- Time is not modelled: `new Date().getTime()` is the `now` parameter.
- The `requestAnimationFrame` and `setTimeout` scheduling is left out. One
  gamepad poll or one pointer-lock frame is one method call, and the gamepad
  loop's re-arming is a `polling` flag. The pointer lock's 100 ms delay is
  left out.
- The gamepad is read through `navigator.getGamepads`. The model instead
  receives the readings of the configured axes, or None when no gamepad is at
  the configured index.
  - An axis index past the gamepad's `axes` is not modelled. It reads
    `undefined`, so the arithmetic gives NaN.
  - In the options, a field given explicitly as `undefined` is not
    modelled; it would override its default with `undefined`. The
    argument `true` to `initialGamepadConfig` is left out too.
- From the pointer-lock browser APIs, only `document.pointerLockElement` is
  modelled, as the `locked` parameter. Left out are `requestPointerLock`, the
  canvas, and the `hideOnLock` visibility that `onLock` sets.
  - Each click starts a separate `mouseListener`, with its own frame loop and
    its own latch. The model keeps one session, and a new one replaces it.
- Floating-point rounding is not modelled; numbers are reals. NaN is not
  distinguished from the infinities; both are `NonFinite`. The
  trigonometric functions are only as precise as the laws stated in `Trig`.
- The storybook's `console.log` of the pressure is left out.

## Findings

| source | as written | input that shows it | evidently intended | confidence | as-written member | corrected member |
|---|---|---|---|---|---|---|
| src/components/Joystick/plugins/MultiTouchPlugin.tsx:51 | `ontouchstart` attaches its listeners through `handleRef.current`. The widget's plugin arguments (src/components/Joystick/Joystick.tsx:110-136) have no `handleRef`, so this reads `.current` of `undefined` and throws before the slot or the anchor is set. | any touch start on the handle | attach `touchmove`/`touchend` to the handle and take the slot at the first target touch | medium (not executed) | `MultiTouchPlugin.TouchStartAsWrittenNeverDrags` | `MultiTouchPlugin.TouchStartContract` |
| src/components/Joystick/plugins/PointerLockPlugin.tsx:32 | `onLock` reads `baseRef.current`, and the widget passes no `baseRef` to its plugins. The click handler therefore throws at `onLock(true)`, before `requestPointerLock` and before `mouseListener` is scheduled. | any click on the handle | lock the pointer and start a session 100 ms later | medium (not executed) | `PointerLockPlugin.ClickAsWrittenStartsNothing` | `PointerLockPlugin.StartSessionContract` |

The rest of the model uses the intended handlers: `MultiTouchPlugin.TouchStarted`
and `PointerLockPlugin.StartSession` (through `Plugin.MouseListener`).
