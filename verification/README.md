# Amusement park ride-mode controller, in Dafny

This project models the ride-mode controller of a walkable three.js theme park
(`main.js`). The controller is a small state machine over one session record:

- the current ride mode (`walking`, `coaster`, `dropper`, `wheel`, `carousel`,
  `slide`, or any other string the page was given);
- the ticket flag;
- the camera rig's position and rotation;
- the mouse-look yaw and pitch;
- the keys held down.

Keyboard, mouse and VR thumbstick input become bounded updates of that
record. Each frame, the mode decides who moves the rig: the keyboard in
walking mode, or a ride that carries the rig along at a fixed offset.

The model is functional. `Park.Session` is an immutable record and every
handler is a pure function from a session to a session. The floating-point
library calls are fields of a `Three.Library` record of opaque functions:

- curve sampling (`getPointAt`);
- world positions of the first wheel cabin and the first carousel horse;
- `Matrix4.lookAt`;
- applying the camera quaternion;
- the `normalize` factor;
- `Math.sin`.

So every property holds for any answers the library might give, given a sine bounded by one where a height bound is stated. Numbers are
exact reals, and JavaScript's truncating `%` is written out (`JsMath.Rem1`).

Modules:

- `Geometry`: vectors, Euler rotations, cross product.
- `JsMath`: `Math.PI`, `abs`, `max`/`min` clamping, `x % 1`, `Math.pow`.
- `Three`: the opaque library.
- `Park`: modes and the session record.
- `Rides`: time-to-ride formulas and seat offsets.
- `Input`: keys, mouse look, VR sticks.
- `Controller`: `setRideMode`, the frame dispatch, and event sequences with their invariant.

Two details of the code shape the model:

- The ticket check uses the full 3D `distanceTo` between the rig and the
  stall at (0, 0, 40), so the rig's 1.6 eye height counts. It is not a
  floor distance. The model compares squared distance with 25.
- A mode name the page does not know is accepted once a ticket is held. A
  frame in that mode runs the keyboard-walking branch, including the ticket
  latch. It ignores the VR sticks, because `handleVRMovement` checks for
  exactly `'walking'`.

## Model

| member | source | states |
|---|---|---|
| `Geometry.RightOf` | main.js:474-476 | `forward × (0,1,0)` is horizontal, perpendicular to the facing, and as long as the facing's horizontal part |
| `JsMath.Clamp` | main.js:391 | the pinned value lies in `[lo, hi]`, equals the input when it was in range, and is the nearer bound otherwise |
| `JsMath.ClampIdempotent` | main.js:391 | clamping an already clamped pitch changes nothing |
| `JsMath.Rem1` | main.js:506 | `x % 1` lies in `[0,1)` for non-negative `x` and in `(-1,0]` for negative `x`, and differs from `x` by a whole number |
| `JsMath.Rem1Periodic` | main.js:506 | adding one to a non-negative argument leaves `x % 1` unchanged |
| `Park.ParseMode` | main.js:521-539 | a name is unknown exactly when it is none of the six mode strings, and unknown names are kept verbatim |
| `Park.ParseModeName` | main.js:521-539 | naming a mode and parsing the name gives the mode back |
| `Three.Normalize` | main.js:472 | normalising keeps a floor-level vector at floor level and the zero vector at zero |
| `Rides.CoasterProgress` | main.js:506 | the coaster's progress `(t*0.04)%1` lies in `[0,1)` for `t >= 0` |
| `Rides.CoasterProgressPeriodic` | main.js:506 | the coaster repeats every 25 seconds |
| `Rides.LookAhead` | main.js:508 | the look-ahead `(cp+0.01)%1` lies in `[0,1)`; it is `cp+0.01` except in the last hundredth of the lap, where it wraps behind the cart |
| `Rides.SlideProgress` | main.js:536 | the slide's progress `(t*0.08)%1` lies in `[0,1)` for `t >= 0` |
| `Rides.SlideProgressPeriodic` | main.js:536 | the slide repeats every 12.5 seconds |
| `Rides.Pow6Bounds` | main.js:511 | `s^6` is non-negative, zero only at zero, at most one on `[-1,1]`, and one only at `±1` |
| `Rides.DropHeight` | main.js:511 | for a sine in `[-1,1]` the drop cart stays in `[2, 62]`; it is at 62 exactly at the sine's peaks and at 2 exactly when the sine is zero |
| `Rides.DropHeightEven` | main.js:511 | opposite sine values give the same drop height |
| `Rides.HorseAnglesDistinct` | main.js:286-295 | the horses' seat angles strictly increase with their index, so each horse's bob has its own phase |
| `Rides.HorseHeight` | main.js:513 | a horse's bob `2 + sin*2` stays in `[0, 4]` |
| `Rides.HorseHeights` | main.js:513 | there are ten horses, and with a bounded sine each bobs within `[0, 4]` |
| `Rides.Animate` | main.js:506-513 | coaster and slide progress lie in `[0,1)` for `t >= 0`; the cart sits at the curve sample and faces the look-ahead sample; every cabin's rotation is the negation of the hub's; for a sine in `[-1,1]`, the drop height lies in `[2, 62]` |
| `Rides.DropperSeat` | main.js:526 | the dropper rig sits at x 50, z 14.5, and 1.5 above the cart, so between 3.5 and 63.5 |
| `Input.KeyDown` | main.js:410 | pressing a key marks it held and leaves every other key and the rest of the session alone |
| `Input.KeyUp` | main.js:411 | releasing a key marks it not held and leaves every other key and the rest of the session alone |
| `Input.KeyUpUndoesKeyDown` | main.js:410-411 | pressing and releasing a key that was up restores the session |
| `Input.KeyDirection` | main.js:542-543 | each axis is in `{-1,0,1}`; W and S cancel, A and D cancel; W alone points forward (-z), D alone right (+x) |
| `Input.KeyboardWalk` | main.js:541-548 | keyboard walking changes only the rig position, never its height, and cancelling keys do not move it |
| `Input.MouseLook` | main.js:384-398 | with the pointer locked, yaw turns by `-dx*0.002` and the pitch ends in `[-π/2.1, π/2.1]`, unclamped when in range; unlocked, nothing changes |
| `Input.LevelMouseKeepsPitch` | main.js:388-391 | a purely horizontal mouse move keeps an in-range pitch |
| `Input.Axis` | main.js:461-462 | the corrected reading agrees with the page's JavaScript array read wherever that read is defined, and is zero where the page would get `undefined` |
| `Input.FloorForward` | main.js:469-472 | the VR forward vector is horizontal |
| `Input.StickStep` | main.js:465-481 | inside the 0.1 deadzone on both axes the rig stays put; off a horizontal facing it keeps its height |
| `Input.LeftStick` | main.js:460-482 | off a horizontal facing, the left stick never changes the rig's height, and a gamepad without thumbstick axes never moves it |
| `Input.StickStepLength` | main.js:474-480 | the left-stick step's squared length is `0.15² · (x² + y²)` times the forward vector's squared length, the same in every stick direction |
| `Input.Turn` | main.js:485-491 | the right stick changes only the rig's heading, by exactly `-x*0.04` and only when `abs(x) > 0.5`, and never by more than 0.04 for a stick in `[-1,1]` |
| `Input.SourceStep` | main.js:453-492 | one source changes only the rig: a left-hand gamepad only its position, by the left-stick walk; a right-hand gamepad only its rotation, by the turn; a source without a gamepad or without a hand changes nothing |
| `Input.VRSources` | main.js:452-494 | over all sources in order, only the rig moves or turns, never vertically or out of upright; its heading changes by the sum of the right sticks' turns; it stays put unless some left stick leaves the deadzone |
| `Input.HandleVR` | main.js:446-496 | outside exactly `walking` VR input does nothing; in walking mode it keeps the rig's height and upright pose and turns it by the right sticks' total |
| `Input.StickStepAsWritten` | main.js:461-480 | as written, a gamepad with four or more axes behaves like the corrected `LeftStick` |
| `Input.ThreeAxisGamepadPoisonsRig` | main.js:461-480 | a three-axis gamepad with `axes[2] = 0.5` makes the position NaN as written, while the corrected reading keeps it level |
| `Controller.SetRideMode` | main.js:425-437 | a non-walking mode is refused exactly when no ticket is held; walking is always granted and resets the rig to (0, 1.6, 60) with zero rotation, yaw and pitch; a granted ride changes only the mode; the ticket is never touched |
| `Controller.RequestMode` | main.js:425-430 | a refused request leaves the session unchanged; the ticket flag never changes; with a ticket the requested mode takes effect |
| `Controller.Latch` | main.js:550-555 | the ticket is held afterwards exactly when it was held before or the rig is within distance 5 of the stall; nothing else changes |
| `Controller.RideSeat` | main.js:520-538 | a ride moves only the rig, and only the coaster turns it |
| `Controller.Frame` | main.js:499-556 | a frame never changes the mode, look angles or keys; the ticket is gained only outside ride modes and near the stall, and never lost; outside rides the rig keeps its height and upright pose; in walking mode the heading changes by the right sticks' total, in an unknown mode not at all; each ride puts the rig at its fixed offset from the ride's anchor |
| `Controller.DropperSeatBounds` | main.js:511-526 | in dropper mode the rig is at x 50, z 14.5 and a height between 3.5 and 63.5 |
| `Controller.CarouselSeat` | main.js:531-534 | in carousel mode the rig is one unit above the first horse, which bobs within `[0, 4]` |
| `Controller.Step` | main.js:550-555 | no event loses the ticket; one that gains it is a frame outside the ride modes ending near the stall |
| `Controller.Run` | main.js:416 | once held, the ticket stays held over any event sequence |
| `Controller.InitialReachable` | main.js:381-416 | the start record (`Park.Initial`) satisfies the invariant |
| `Controller.StepKeepsReachable` | main.js:384-556 | every event keeps the invariant: not walking implies a ticket; walking implies height 1.6 and an upright rig; pitch within its limit; an unrecognised mode never carries a known mode's name |
| `Controller.RunKeepsReachable` | main.js:384-556 | the invariant holds after any event sequence |
| `Controller.NoRideWithoutTicket` | main.js:426-429 | from the start of a session, a reachable ride mode implies a held ticket, and walking happens at height 1.6 |
| `Controller.TicketLatchesOnce` | main.js:550-555 | over any event sequence the ticket goes from missing to held at most once, and never when it was already held |

## Findings

| source | as written | input that shows it | evidently intended | confidence | as-written member | corrected member |
|---|---|---|---|---|---|---|
| main.js:461-480 | the left-stick handler reads `axes[2]` and `axes[3]` without checking the array's length | a left-hand gamepad reporting three axes with `axes[2] = 0.5` passes the deadzone, `axes[3]` is `undefined`, and the rig position becomes NaN | an axis the gamepad does not report reads as zero | low; not executed | `Input.StickStepAsWritten` (shown by `Input.ThreeAxisGamepadPoisonsRig`) | `Input.LeftStick` |

## Left out

- Scene construction (main.js:4-378): meshes, stalls, fences, mountains, NPCs and signs. It is rendering data; mountains and NPCs also use `Math.random`. Only the fixed anchors the controller reads appear: the spawn point, the ticket stall, and the dropper and slide offsets.
- The deferred gate-opening cleanup (main.js:75-98): a timer-driven edit of the scene graph.
- Library numerics are opaque `Three.Library` fields, not computed: `CatmullRomCurve3.getPointAt`, `getWorldPosition` of the first cabin and horse, `Matrix4.lookAt` with `setFromRotationMatrix`, the camera quaternion from `Euler(pitch, yaw, 0, 'YXZ')`, the `normalize` factor, and `Math.sin`.
- The cart mesh's own `lookAt` (main.js:508): only its target point is modelled, because the rig's rotation is computed separately in coaster mode.
- NPC animation (main.js:515-518): NPCs belong to scene construction.
- DOM and HUD updates, `alert`, and `console.log` (main.js:427, 431-442, 554): I/O.
- The pointer-lock request on mouse-down (main.js:400-405): whether the pointer is locked is an input to `Input.MouseLook`.
- The XR session lookup (main.js:450-451): no session is the same as an empty source list.
- `renderer.render` and `setAnimationLoop`: I/O plumbing.
- Floating-point rounding, infinities and NaN. The only NaN modelled is the finding above.
- The camera quaternion is not stored. Outside an XR session it follows from yaw and pitch through the opaque library function, and the reset at main.js:437 matches yaw = pitch = 0.
- Input.KeyboardWalk: `turnByLook(pitch, yaw, ·)` models the keyboard direction only outside an XR session. During one, three.js writes the headset pose into `camera.quaternion`, so main.js:546 turns the keys by the headset instead. No contract depends on which rotation is applied.
- The drop tower's dwell shape (time spent near the top against near the bottom) is not stated, because it depends on `sin` itself.
- The unit length of a normalised diagonal key vector is not stated, because normalisation is opaque.
- Input.KeyboardWalk: states that cancelling keys leave the rig still, not that other keys always move it, because the camera rotation applied to the key vector is opaque.
