/** The walking-mode input handlers: held keys, pointer-locked mouse look,
    and the VR thumbsticks. Each turns raw device input into a bounded
    update of the session. */
module Input {
  import opened Geometry
  import opened JsMath
  import opened Three
  import opened Park

  // ----- Keyboard -----

  function KeyDown(s: Session, code: string): (r: Session)
    ensures code in r.keys
    ensures forall c :: c != code ==> (c in r.keys <==> c in s.keys)
    ensures r.(keys := s.keys) == s
  {
    s.(keys := s.keys + {code})
  }

  function KeyUp(s: Session, code: string): (r: Session)
    ensures code !in r.keys
    ensures forall c :: c != code ==> (c in r.keys <==> c in s.keys)
    ensures r.(keys := s.keys) == s
  {
    s.(keys := s.keys - {code})
  }

  /** Releasing a key that was up before it was pressed restores the session. */
  lemma KeyUpUndoesKeyDown(s: Session, code: string)
    requires code !in s.keys
    ensures KeyUp(KeyDown(s, code), code) == s
  {
  }

  /** The walking vector the held keys ask for, before normalisation, in the
      camera's frame: W is forward (-z), S back (+z), A left (-x), D right (+x). */
  datatype KeyVector = KeyVector(x: int, z: int)

  function Held(keys: set<string>, code: string): int {
    if code in keys then 1 else 0
  }

  function KeyDirection(keys: set<string>): (v: KeyVector)
    ensures -1 <= v.x <= 1 && -1 <= v.z <= 1
    ensures v.z == 0 <==> ("KeyW" in keys <==> "KeyS" in keys)
    ensures v.x == 0 <==> ("KeyA" in keys <==> "KeyD" in keys)
    ensures v.z < 0 <==> "KeyW" in keys && "KeyS" !in keys
    ensures v.x > 0 <==> "KeyD" in keys && "KeyA" !in keys
  {
    KeyVector(Held(keys, "KeyD") - Held(keys, "KeyA"), Held(keys, "KeyS") - Held(keys, "KeyW"))
  }

  const WalkSpeed: real := 0.4

  /** One frame of keyboard walking. The key vector is normalised and turned
      by the camera's look rotation; only its horizontal part is added to
      the rig, so the rig never climbs or sinks. Nothing moves when the keys
      cancel out. */
  function KeyboardWalk(lib: Library, s: Session): (r: Session)
    ensures r == s.(rigPos := r.rigPos)
    ensures r.rigPos.y == s.rigPos.y
    ensures KeyDirection(s.keys) == KeyVector(0, 0) ==> r == s
  {
    var k := KeyDirection(s.keys);
    var move := Vec3(k.x as real, 0.0, k.z as real);
    if SqLen(move) > 0.0 then
      var d := lib.turnByLook(s.pitch, s.yaw, Normalize(lib, move));
      s.(rigPos := Add(s.rigPos, Scale(Flatten(d), WalkSpeed)))
    else
      s
  }

  // ----- Mouse look -----

  const MouseSensitivity: real := 0.002

  /** Looking up or down stops at `π / 2.1` (about 85.7 degrees) either way. */
  const PitchLimit: real := Pi / 2.1

  /** A mouse move while the pointer is locked: yaw turns freely, pitch is
      pinned into `[-PitchLimit, PitchLimit]`. Without the lock nothing happens. */
  function MouseLook(s: Session, locked: bool, dx: real, dy: real): (r: Session)
    ensures r == s.(yaw := r.yaw, pitch := r.pitch)
    ensures !locked ==> r == s
    ensures locked ==> -PitchLimit <= r.pitch <= PitchLimit
    ensures locked ==> r.yaw == s.yaw - dx * MouseSensitivity
    ensures locked && -PitchLimit <= s.pitch - dy * MouseSensitivity <= PitchLimit
            ==> r.pitch == s.pitch - dy * MouseSensitivity
  {
    if locked then
      s.(yaw := s.yaw - dx * MouseSensitivity,
         pitch := Clamp(-PitchLimit, PitchLimit, s.pitch - dy * MouseSensitivity))
    else
      s
  }

  /** A mouse move that does not ask to tilt leaves an in-range pitch where it is. */
  lemma LevelMouseKeepsPitch(s: Session, locked: bool, dx: real)
    requires -PitchLimit <= s.pitch <= PitchLimit
    ensures MouseLook(s, locked, dx, 0.0).pitch == s.pitch
  {
  }

  // ----- VR thumbsticks -----

  datatype Handedness = NoHand | LeftHand | RightHand

  datatype Gamepad = NoGamepad | Gamepad(axes: seq<real>)

  /** One XR input source: its hand and, when it has one, its gamepad. */
  datatype Source = Source(handedness: Handedness, gamepad: Gamepad)

  /** Thumbstick axes in the xr-standard gamepad layout. */
  const StickX: nat := 2
  const StickY: nat := 3

  const MoveDeadzone: real := 0.1
  const TurnDeadzone: real := 0.5
  const StickSpeed: real := 0.15
  const TurnRate: real := 0.04

  /** A JavaScript array read: past the end it yields `undefined`. */
  datatype Reading = Defined(value: real) | Undefined

  function ReadAxis(axes: seq<real>, i: nat): Reading {
    if i < |axes| then Defined(axes[i]) else Undefined
  }

  /** A thumbstick axis; an axis the gamepad does not report reads as zero. */
  function Axis(axes: seq<real>, i: nat): (v: real)
    ensures ReadAxis(axes, i).Defined? ==> v == ReadAxis(axes, i).value
    ensures ReadAxis(axes, i).Undefined? ==> v == 0.0
  {
    if i < |axes| then axes[i] else 0.0
  }

  predicate OutsideMoveDeadzone(x: real, y: real) {
    Abs(x) > MoveDeadzone || Abs(y) > MoveDeadzone
  }

  /** The camera's facing projected onto the floor and normalised. */
  function FloorForward(lib: Library, dir: Vec3): (f: Vec3)
    ensures f.y == 0.0
  {
    Normalize(lib, Flatten(dir))
  }

  /** The left stick's walk: strafe along the facing's right-hand side and
      move along the facing, each scaled by its axis. Inside the deadzone
      the rig stays put; a horizontal facing keeps it at its height. */
  function StickStep(pos: Vec3, forward: Vec3, x: real, y: real): (r: Vec3)
    ensures forward.y == 0.0 ==> r.y == pos.y
    ensures !OutsideMoveDeadzone(x, y) ==> r == pos
  {
    if OutsideMoveDeadzone(x, y) then
      Add(Add(pos, Scale(RightOf(forward), x * StickSpeed)), Scale(forward, y * StickSpeed))
    else
      pos
  }

  /** The left stick as the corrected model reads it, missing axes as zero.
      A gamepad without thumbstick axes never moves the rig. */
  function LeftStick(pos: Vec3, forward: Vec3, axes: seq<real>): (r: Vec3)
    ensures forward.y == 0.0 ==> r.y == pos.y
    ensures |axes| <= StickX ==> r == pos
  {
    StickStep(pos, forward, Axis(axes, StickX), Axis(axes, StickY))
  }

  /** Off the floor-projected facing, the step's length grows with the stick's
      deflection and not with its direction: strafing and walking are
      perpendicular and equally fast. */
  lemma StickStepLength(pos: Vec3, forward: Vec3, x: real, y: real)
    requires forward.y == 0.0
    requires OutsideMoveDeadzone(x, y)
    ensures SqDist(StickStep(pos, forward, x, y), pos)
            == StickSpeed * StickSpeed * (x * x + y * y) * SqLen(forward)
  {
  }

  /** The right stick's smooth turn: past the larger deadzone the rig's
      heading changes by `-x * 0.04`, and only its heading. */
  function Turn(rot: Euler, x: real): (r: Euler)
    ensures r.x == rot.x && r.z == rot.z
    ensures r.y != rot.y <==> Abs(x) > TurnDeadzone
    ensures Abs(x) > TurnDeadzone ==> r.y == rot.y - x * TurnRate
    ensures -1.0 <= x <= 1.0 ==> Abs(r.y - rot.y) <= TurnRate
  {
    if Abs(x) > TurnDeadzone then rot.(y := rot.y - x * TurnRate) else rot
  }

  /** How far one source turns the rig, summed over a list of sources. */
  function TurnOf(src: Source): real {
    if src.handedness.RightHand? && src.gamepad.Gamepad? && Abs(Axis(src.gamepad.axes, StickX)) > TurnDeadzone
    then -Axis(src.gamepad.axes, StickX) * TurnRate
    else 0.0
  }

  function TurnTotal(sources: seq<Source>): real {
    if |sources| == 0 then 0.0 else TurnOf(sources[0]) + TurnTotal(sources[1..])
  }

  /** A left-hand gamepad whose stick is pushed past the deadzone. */
  predicate Drifts(src: Source) {
    src.handedness.LeftHand? && src.gamepad.Gamepad?
    && OutsideMoveDeadzone(Axis(src.gamepad.axes, StickX), Axis(src.gamepad.axes, StickY))
  }

  /** One input source's contribution, read against the camera's current
      world direction (`view` of the rig's current rotation). */
  function SourceStep(lib: Library, view: Euler -> Vec3, s: Session, src: Source): (r: Session)
    ensures r == s.(rigPos := r.rigPos, rigRot := r.rigRot)
    ensures src.gamepad.NoGamepad? || src.handedness.NoHand? ==> r == s
    ensures src.gamepad.Gamepad? && src.handedness.LeftHand?
            ==> r == s.(rigPos := LeftStick(s.rigPos, FloorForward(lib, view(s.rigRot)), src.gamepad.axes))
    ensures src.gamepad.Gamepad? && src.handedness.RightHand?
            ==> r == s.(rigRot := Turn(s.rigRot, Axis(src.gamepad.axes, StickX)))
  {
    match src.gamepad
    case NoGamepad => s
    case Gamepad(axes) =>
      match src.handedness
      case LeftHand => s.(rigPos := LeftStick(s.rigPos, FloorForward(lib, view(s.rigRot)), axes))
      case RightHand => s.(rigRot := Turn(s.rigRot, Axis(axes, StickX)))
      case NoHand => s
  }

  /** All sources of one frame, in order; their effects add up. Only the rig
      moves and turns, never vertically and never out of its upright pose;
      its heading changes by the sum of the right sticks' turns, and it does
      not move unless some left stick is past the deadzone. */
  function VRSources(lib: Library, view: Euler -> Vec3, s: Session, sources: seq<Source>): (r: Session)
    ensures r == s.(rigPos := r.rigPos, rigRot := r.rigRot)
    ensures r.rigPos.y == s.rigPos.y
    ensures r.rigRot.x == s.rigRot.x && r.rigRot.z == s.rigRot.z
    ensures r.rigRot.y == s.rigRot.y + TurnTotal(sources)
    ensures (forall i :: 0 <= i < |sources| ==> !Drifts(sources[i])) ==> r.rigPos == s.rigPos
    decreases |sources|
  {
    if |sources| == 0 then s
    else VRSources(lib, view, SourceStep(lib, view, s, sources[0]), sources[1..])
  }

  /** `handleVRMovement`: does nothing unless the mode is exactly walking. */
  function HandleVR(lib: Library, view: Euler -> Vec3, s: Session, sources: seq<Source>): (r: Session)
    ensures s.mode != Walking ==> r == s
    ensures r == s.(rigPos := r.rigPos, rigRot := r.rigRot)
    ensures r.rigPos.y == s.rigPos.y
    ensures r.rigRot.x == s.rigRot.x && r.rigRot.z == s.rigRot.z
    ensures s.mode == Walking ==> r.rigRot.y == s.rigRot.y + TurnTotal(sources)
  {
    if s.mode != Walking then s else VRSources(lib, view, s, sources)
  }

  // ----- The left stick as the page reads a short axes array -----

  /** A position after JavaScript arithmetic: either finite, or poisoned by a NaN operand. */
  datatype JsVec = Finite(p: Vec3) | NotANumber

  /** The left-stick step exactly as the page writes it. `Math.abs(undefined)`
      is NaN and fails the deadzone test, but once the other axis passes it,
      the undefined axis is multiplied in and the rig's position becomes NaN. */
  function StickStepAsWritten(pos: Vec3, forward: Vec3, axes: seq<real>): (r: JsVec)
    ensures |axes| > StickY ==> r == Finite(LeftStick(pos, forward, axes))
  {
    var x := ReadAxis(axes, StickX);
    var y := ReadAxis(axes, StickY);
    if !((x.Defined? && Abs(x.value) > MoveDeadzone) || (y.Defined? && Abs(y.value) > MoveDeadzone)) then
      Finite(pos)
    else if x.Undefined? || y.Undefined? then
      NotANumber
    else
      Finite(StickStep(pos, forward, x.value, y.value))
  }

  /** A gamepad reporting three axes, its third pushed to 0.5, turns the rig's
      position into NaN as written; read with missing axes as zero, the same
      input strafes the rig and keeps it finite and level. */
  lemma ThreeAxisGamepadPoisonsRig(pos: Vec3, forward: Vec3)
    requires forward.y == 0.0
    ensures StickStepAsWritten(pos, forward, [0.0, 0.0, 0.5]) == NotANumber
    ensures LeftStick(pos, forward, [0.0, 0.0, 0.5]).y == pos.y
  {
  }
}
