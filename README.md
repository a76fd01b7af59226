# Reachz OSC message handlers in Dafny

Reachz turns control messages from a phone or tablet surface into actions on a Mac. The messages are already-decoded OSC messages: an address plus a list of arguments. The actions cover the pointer, buttons, scrolling, hotkeys and the clipboard.

This project models the handler layer that sits between the decoded messages and the host. Each handler either reads and updates the module-level state its Python module keeps, or it is a pure function of its arguments. It returns the host calls it makes as a sequence of `Action` values: `MoveTo`, `MoveRel`, `MouseDown`, `MouseUp`, `Click`, `RightClick`, `Scroll`, `Hotkey`, `ClipboardWrite` and `Notify`.

- `host.dfy` (module `Host`) holds the shared vocabulary. An OSC argument `Arg` is a number (`real`) or a string. `Is(a, k)` is Python's `a == k`. `Action` is the host call log.
- `numeric.dfy` (module `Numeric`) holds Python's `abs`, `max`, `min`, `int()` and the pixel clamp. `int()` is written out as truncation toward zero (`Trunc`).
- `carry.dfy` (module `Carry`) is the carry/drop payload of `handlerz/carry.py`. `Step` is one atomic, locked operation on the optional payload and `Run` is a sequence of them. `Holding` is an independent backward reading of the payload, and `RunHolds` proves the two agree. The class `Carrier` holds the `_payload` global, and each of its methods is proved to be one `Step`.
- `click.dfy` (module `Click`) is the tap and the edge-triggered button hold of `handlerz/click.py`. `PressStep` is one `/left` or `/right` message. `PressRunAlternates` proves that down and up events strictly alternate over any message sequence. The class `Buttons` holds the two held flags.
- `scroll.dfy` (module `Scroll`) is the scroll handlers of `handlerz/scroll.py`, which are pure.
- `cursor.dfy` (module `Cursor`) covers `handlerz/cursor.py`:
  - the acceleration curves;
  - the absolute trackpad mapping with its clamp;
  - the radial deadzone;
  - the exponent-2 velocity;
  - one tick of the joystick integrator (`TickStep`);
  - the integrator loop over a sequence of tick readings (`JoystickLoop`, a `while` loop proved against the sum of the velocities);
  - the class `CursorState`, which holds the settings, the sticks, the gains and the lazy-start flag.
- `osc_trackpad.dfy` (module `OscTrackpad`) is the standalone receiver `osc_trackpad.py`. Its trackpad, curve, button and scroll handlers are the ones above. It adds the two-finger gesture session (`GestureStep`, with the class `TrackpadApp` holding its globals) and the two-finger tap.

Python's `str()` of a number is the parameter `show`, and `** 1.5` is the parameter `pow15`. Each `math.sqrt` result is an input constrained by `m >= 0` and `m * m ==` the sum of squares. `pyautogui.size()` becomes the parameters `w` and `h`, with `w, h >= 1`.

Four behaviours of the code are easy to miss, and the model reproduces them:
- The two-finger scroll amount is `int(delta * 20)`, which truncates. Two frames with centres 0.5 and then 0.48 pass the 0.01 threshold, and a zero-line scroll is posted (`ZeroLineGestureScenario`).
- Any stick message with two numeric arguments starts the joystick loop, a centred stick included.
- The quadratic curve maps 0.5 to 0.5 ** 1.5, about 0.354. Only the smooth and linear curves fix ±0.5 (`SmoothFixedPoints`).
- No message address cancels a carry. Only `clear_payload` does, called by the Escape-key listener (`Carrier.ClearPayload`, and `Cancel` in `Step`).

## Model

| member | source | states |
|---|---|---|
| Numeric.Trunc | handlerz/cursor.py:102-103 | `int()` on a real: the integer on the zero side of x within 1, zero or of the sign of x, never larger in magnitude |
| Numeric.Clamp | handlerz/cursor.py:140-141 | `max(0, min(v, n-1))` is always a pixel in [0, n-1], is v when v is on screen, and is the nearer edge otherwise |
| Carry.Preview | handlerz/carry.py:39 | the preview is the text when it has at most 40 characters, else its first 40 characters followed by "...", so never longer than 43 |
| Carry.ArgText | handlerz/carry.py:36 | `str(args[0])`: a string argument is its own text, and a number is rendered by `show` |
| Carry.Paste | handlerz/carry.py:56-58 | a paste is exactly a clipboard write of the text followed by command+v |
| Carry.Step | handlerz/carry.py:32-88 | /carry with an argument replaces any payload with `str(args[0])` and notifies; with none it changes nothing. /drop pastes a held payload and leaves it empty. /drop-keep pastes and keeps it. Status and cancel emit nothing, and status keeps the payload while cancel empties it |
| Carry.RunSnoc | handlerz/carry.py:32-88 | running one more operation adds exactly its step to the payload and to the action log |
| Carry.RunHolds | handlerz/carry.py:32-88 | after any operation sequence the payload is the text of the last /carry with an argument, unless a /drop or a cancel came later |
| Carry.DropTwiceIsNoop | handlerz/carry.py:54-60 | a second /drop right after a /drop emits nothing and the payload stays empty |
| Carry.LoadOverwrites | handlerz/carry.py:35-38 | after two loads the status reports the second text |
| Carry.DropKeepRepeats | handlerz/carry.py:63-70 | repeated /drop-keep pastes the same text each time and keeps the payload |
| Carry.Carrier.constructor | handlerz/carry.py:25 | the payload starts empty |
| Carry.Carrier.HandleCarry | handlerz/carry.py:32-48 | the new payload and the actions are one `Step` on the old payload with a load |
| Carry.Carrier.HandleDrop | handlerz/carry.py:51-60 | the payload is empty afterwards, and the actions paste the old payload if there was one |
| Carry.Carrier.HandleDropKeep | handlerz/carry.py:63-70 | pastes the payload if there is one, without modifying any state |
| Carry.Carrier.HandleCarryStatus | handlerz/carry.py:73-79 | reports the payload and modifies nothing |
| Carry.Carrier.ClearPayload | handlerz/carry.py:82-88 | the payload is empty afterwards, with no host action |
| Click.TapWith | handlerz/click.py:29-32 | fires its action exactly once iff there is a first argument equal to 1, else does nothing |
| Click.Tap | handlerz/click.py:29-32 | one left click iff the first argument equals 1; the receiver's /tap at osc_trackpad.py:98-101 is the same rule |
| Click.PressStep | handlerz/click.py:35-56 | 1 sets the flag and 0 clears it, while any other value or no argument keeps it. A mouse-down is emitted exactly when the flag becomes set, a mouse-up exactly when it is cleared, and nothing otherwise |
| Click.PressRunAlternates | handlerz/click.py:35-56 | over any message sequence one button's events strictly alternate, and the flag has flipped once per event |
| Click.HeldIffLastDown | handlerz/click.py:39-44 | from released, events start with a mouse-down, and the button is held iff the last event was a mouse-down |
| Click.Buttons.constructor | handlerz/click.py:22-23 | both buttons start released |
| Click.Buttons.HandleLeft | handlerz/click.py:35-44 | the left flag and the events are one `PressStep`; only the left flag may change |
| Click.Buttons.HandleRight | handlerz/click.py:47-56 | the right flag and the events are one `PressStep`; only the right flag may change |
| Host.AsFloat | handlerz/scroll.py:50 | `float(args[0])` succeeds exactly on a numeric argument and gives its value; on a string it fails, and the handler does nothing |
| Scroll.DoScroll | handlerz/scroll.py:36-44 | posts one scroll of `int(amount)` lines |
| Scroll.HandleScroll | handlerz/scroll.py:47-52 | scrolls iff there is a numeric first argument of magnitude above 0.5. The amount is its truncation, which is 0 or of the input's sign and never larger in magnitude; the receiver's /scroll at osc_trackpad.py:125-141 is the same rule |
| Scroll.HandleScrollWheel | handlerz/scroll.py:55-58 | every numeric first argument scrolls by its truncation, with no dead zone; no argument, no scroll |
| Scroll.HandleScrollPos | handlerz/scroll.py:61-63 | never emits anything |
| Scroll.ZeroLineScroll | handlerz/scroll.py:49-52 | a value with 0.5 < \|v\| < 1 still posts a scroll of 0 lines |
| Cursor.CurveOf | handlerz/cursor.py:153-157 | the stored curve is linear, quadratic or smooth exactly when the argument is that name |
| Cursor.Unit | handlerz/cursor.py:63 | the clamp lies in [0, 1] and fixes values already there |
| Cursor.Smoothstep | handlerz/cursor.py:64 | 3t² - 2t³ maps 0 to 0 and 1 to 1 |
| Cursor.SmoothstepBounds | handlerz/cursor.py:64 | smoothstep maps [0, 1] into [0, 1] |
| Cursor.SmoothstepMirror | handlerz/cursor.py:64 | smoothstep(1 - t) = 1 - smoothstep(t) |
| Cursor.ApplyCurve | handlerz/cursor.py:54-66 | linear and unrecognised names leave the value unchanged, and the smooth curve's output lies in [-0.5, 0.5]; the receiver's `apply_curve` at osc_trackpad.py:52-64 is the same function |
| Cursor.QuadraticKeepsSign | handlerz/cursor.py:58-60 | for any non-negative `** 1.5`, the quadratic curve keeps the sign of the offset and its size is `pow15(\|v\|)` |
| Cursor.SmoothFixedPoints | handlerz/cursor.py:61-65 | the smooth curve maps 0 to 0, 0.5 to 0.5 and -0.5 to -0.5 |
| Cursor.SmoothSaturates | handlerz/cursor.py:62-63 | beyond ±0.5 the smooth curve stays at ±0.5 |
| Cursor.SmoothIsOdd | handlerz/cursor.py:61-65 | the smooth curve is odd: f(-v) = -f(v) |
| Cursor.TrackpadPoint | handlerz/cursor.py:129-143 | whatever the touch, curve and speed, the move is to a pixel on the screen |
| Cursor.Trackpad | handlerz/cursor.py:125-143 | one on-screen absolute move iff there are two numeric arguments, else nothing |
| Cursor.LinearUnitSpeed | handlerz/cursor.py:130-141 | under the linear curve at speed 1 the touch maps to (x·W, (1-y)·H), truncated and clamped |
| Cursor.CornerScenario | handlerz/cursor.py:130-141 | the touch (0, 0) on a 1000x1000 screen moves to (0, 999) |
| Cursor.NormalizedMagnitude | handlerz/cursor.py:74 | the deadzone edge maps to 0 and full deflection to 1, with [deadzone, 1] mapped into [0, 1] |
| Cursor.ProcessStick | handlerz/cursor.py:69-76 | (0, 0) inside the deadzone. Outside it the output's length is the normalized magnitude, no axis changes sign, and the direction is kept (the output is parallel to the input) |
| Cursor.StickDirection | handlerz/cursor.py:74-76 | outside the deadzone each output axis has exactly the sign of the raw axis |
| Cursor.Velocity | handlerz/cursor.py:79-83 | `copysign(\|n\| ** 2, n) * gain` is zero when the input or the gain is zero; sign and size are in `VelocitySign` and `VelocitySize` |
| Cursor.VelocitySign | handlerz/cursor.py:79-83 | with a positive gain a velocity component has the sign of its input and is zero iff the input is |
| Cursor.VelocitySize | handlerz/cursor.py:79-83 | a velocity component's magnitude is the input squared times the gain's magnitude |
| Cursor.TickVelocity | handlerz/cursor.py:93-97 | with both sticks in the deadzone a tick adds no velocity |
| Cursor.CoarseDirection | handlerz/cursor.py:93-100 | with the fine stick centred and a positive coarse gain, the tick's velocity follows the coarse stick's direction on each axis |
| Cursor.MovedAppend | handlerz/cursor.py:106 | the pixels moved by two logs add up |
| Cursor.TickStep | handlerz/cursor.py:99-108 | the remainder ends below one pixel on each axis. A move is emitted iff an integer part is non-zero, and it is (move_x, -move_y). Moved pixels plus the remainder equal the accumulated motion |
| Cursor.JoystickLoop | handlerz/cursor.py:86-110 | over any tick readings, the final remainder is below one pixel and the pixels moved plus the remainder equal the summed velocities on each axis. Every move is a non-zero relative move, at most one per tick |
| Cursor.FullDeflectionScenario | handlerz/cursor.py:93-108 | a full right deflection at the default gains moves 25 pixels right on the first tick and keeps no remainder |
| Cursor.FloatSetting | handlerz/cursor.py:146-150 | a numeric first argument becomes the setting, otherwise the setting is kept |
| Cursor.StickArgs | handlerz/cursor.py:164-165 | a stick reading exists iff the first two arguments are numbers, and it is those numbers |
| Cursor.CursorState.constructor | handlerz/cursor.py:31-43 | speed 1, linear curve, centred sticks, loop inactive, gains 25 and 5 |
| Cursor.CursorState.HandleTrackpad | handlerz/cursor.py:125-143 | the move is the trackpad mapping under the current curve and speed |
| Cursor.CursorState.HandleSpeed | handlerz/cursor.py:146-150 | the speed becomes the numeric first argument, if there is one |
| Cursor.CursorState.HandleCurve | handlerz/cursor.py:153-157 | the curve becomes the one named by the first argument, if there is one |
| Cursor.CursorState.StartJoystick | handlerz/cursor.py:113-120 | the loop is active afterwards, and it was started by this call iff it was inactive, so later calls do nothing |
| Cursor.CursorState.HandleJoyLeft | handlerz/cursor.py:161-166 | a numeric pair becomes the coarse stick and starts the loop if inactive; anything else changes nothing |
| Cursor.CursorState.HandleJoyRight | handlerz/cursor.py:169-174 | a numeric pair becomes the fine stick and starts the loop if inactive; anything else changes nothing |
| Cursor.CursorState.HandleJoyLeftGain | handlerz/cursor.py:177-182 | the coarse gain becomes the numeric first argument, if there is one |
| Cursor.CursorState.HandleJoyRightGain | handlerz/cursor.py:185-190 | the fine gain becomes the numeric first argument, if there is one |
| OscTrackpad.GestureStep | osc_trackpad.py:148-200 | see the detailed contract after this table |
| OscTrackpad.CenterY | osc_trackpad.py:164-172 | the centre lies between the two inverted heights, at equal distance from each |
| OscTrackpad.DistanceDetermined | osc_trackpad.py:168-169 | the distance is determined by the frame: at most one non-negative value squares to dx² + dy² |
| OscTrackpad.FirstFrameSilent | osc_trackpad.py:175-190 | the first two-finger frame after a release emits neither a scroll nor a zoom |
| OscTrackpad.StillFingersSilent | osc_trackpad.py:174-200 | repeating a frame emits nothing |
| OscTrackpad.ExtraTouchesIgnored | osc_trackpad.py:162 | only the first four arguments matter |
| OscTrackpad.SessionForgetsHistory | osc_trackpad.py:155-200 | the memories after a release or a well-formed frame do not depend on the memories before it |
| OscTrackpad.ScrollFollowsCentre | osc_trackpad.py:176-178 | a gesture scroll goes the way the centre moved, at most 20 lines per unit the centre moved |
| OscTrackpad.ZeroLineGestureScenario | osc_trackpad.py:175-185 | centres 0.5 then 0.48 with an unchanged distance give nothing and then exactly one zero-line scroll |
| OscTrackpad.MultiTap | osc_trackpad.py:202-206 | one right click iff the first argument equals 1 |
| OscTrackpad.TrackpadApp.constructor | osc_trackpad.py:44-50 | speed 1, linear curve, buttons released, no gesture memories |
| OscTrackpad.TrackpadApp.HandleSpeed | osc_trackpad.py:66-70 | the speed becomes the numeric first argument, if there is one |
| OscTrackpad.TrackpadApp.HandleCurve | osc_trackpad.py:72-77 | the curve becomes the one named by the first argument, if there is one |
| OscTrackpad.TrackpadApp.HandleTrackpad | osc_trackpad.py:79-96 | the same on-screen trackpad mapping under the receiver's curve and speed |
| OscTrackpad.TrackpadApp.HandleLeft | osc_trackpad.py:103-112 | one `PressStep` on the left flag only |
| OscTrackpad.TrackpadApp.HandleRight | osc_trackpad.py:114-123 | one `PressStep` on the right flag only |
| OscTrackpad.TrackpadApp.HandleMultiXY | osc_trackpad.py:148-200 | the two gesture globals and the actions are one `GestureStep` |

`OscTrackpad.GestureStep` (osc_trackpad.py:148-200) states:
- Fewer than four arguments forgets both memories and emits nothing.
- Four or more arguments that are not all numbers change nothing.
- Otherwise the frame's distance and inverted centre are remembered, whether or not anything fires.
- A scroll comes first, and is emitted iff a previous centre exists and the centre moved by more than 0.01. Its amount is `int(delta * 20)`.
- Zoom-in is emitted iff the distance grew by more than 0.02, and zoom-out iff it shrank by more than 0.02.
- The frame emits exactly one action per rule that fires (one scroll, one zoom hotkey), so never more than two.

## Left out

- The OSC transport, the dispatcher and address registration, plugin discovery, and `main`/argument parsing. These are library calls and I/O, not handler logic.
- The Escape-key listener thread. Only its effect, `clear_payload`, is modelled.
- Locks and threads. Each locked carry operation is one atomic step.
- The joystick loop's background thread and its 60 Hz sleep. `JoystickLoop` takes the sequence of stick readings its ticks see, and a stick reading carries the magnitude `math.sqrt` would return. The loop never stops in the source; the model covers any finite prefix of its ticks.
- Floating point. Every number is an exact `real`, so IEEE rounding, infinities and NaN are not modelled.
- `math.sqrt` is passed in as an input (`Stick.mag`, the gesture `dist`), constrained by its defining equation.
- `** 1.5` is the parameter `pow15`. About the quadratic curve the model claims only what holds for any non-negative power function: the sign is kept and the size is `pow15(|v|)` (`QuadraticKeepsSign`).
- String arguments. `float()` and `int()` on a string are modelled as failing, so the handler does nothing. Python would accept a numeric string such as "0.5", and parsing numbers from text is not modelled.
- Boolean arguments. `True == 1` in Python, and the model has no boolean argument kind.
- Text forms of values. `str()` of a number is the parameter `show`. OSC integers and floats are both `Num` values, so `/carry 3` and `/carry 3.0` load the same text in the model, where Python loads "3" and "3.0".
- `print` output and the drop/status log messages, which have no effect on state or the host. The notification text is kept, as `Notify`.
- Host actuation itself. `pyautogui`, Quartz events, `pbcopy` and `osascript` are replaced by entries of the action log. Whether Quartz is available does not change the scroll amount, so both branches are one `Scroll` action.
- Cursor.ApplyCurve: its own contract says nothing about the quadratic branch, because `** 1.5` is not modelled. `QuadraticKeepsSign` states that branch for any non-negative `pow15`.
- Cursor.TickVelocity: states only the deadzone case. The direction of the velocity is in `CoarseDirection`, and its size in `VelocitySize`.
