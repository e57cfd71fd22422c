/** What each ride does at a given time: pure functions of the elapsed
    seconds, plus the fixed offsets at which the camera rig rides along. */
module Rides {
  import opened Geometry
  import opened JsMath
  import opened Three

  const CoasterSpeed: real := 0.04
  const CoasterLookAhead: real := 0.01
  const SlideSpeed: real := 0.08
  const WheelSpeed: real := 0.2
  const DropFrequency: real := 1.5
  const DropAmplitude: real := 60.0
  const DropBase: real := 2.0
  const PlatformSpeed: real := 0.4
  const HorseSpinSpeed: real := 0.5
  const BobFrequency: real := 4.0
  const HorseCount: nat := 10

  /** The animation callback's timestamp is in milliseconds. */
  function Seconds(time: real): real {
    time * 0.001
  }

  /** How far along its track the coaster cart is: `(t * 0.04) % 1`. */
  function CoasterProgress(t: real): (u: real)
    ensures 0.0 <= t ==> 0.0 <= u < 1.0
  {
    Rem1(t * CoasterSpeed)
  }

  /** The point the cart faces: `(u + 0.01) % 1`. It is just ahead of the
      cart, except in the last hundredth of the lap, where it wraps back to
      the start of the track. */
  function LookAhead(u: real): (a: real)
    ensures 0.0 <= u < 1.0 ==> 0.0 <= a < 1.0
    ensures 0.0 <= u < 1.0 - CoasterLookAhead ==> a == u + CoasterLookAhead
    ensures 1.0 - CoasterLookAhead <= u < 1.0 ==> a == u + CoasterLookAhead - 1.0 && a < u
  {
    Rem1BelowTwo(u + CoasterLookAhead);
    Rem1(u + CoasterLookAhead)
  }

  /** How far down the slide the rider is: `(t * 0.08) % 1`. */
  function SlideProgress(t: real): (u: real)
    ensures 0.0 <= t ==> 0.0 <= u < 1.0
  {
    Rem1(t * SlideSpeed)
  }

  /** The coaster repeats every 25 seconds. */
  lemma CoasterProgressPeriodic(t: real)
    requires 0.0 <= t
    ensures CoasterProgress(t + 25.0) == CoasterProgress(t)
  {
    assert (t + 25.0) * CoasterSpeed == t * CoasterSpeed + 1.0;
    Rem1Periodic(t * CoasterSpeed);
  }

  /** The slide repeats every 12.5 seconds. */
  lemma SlideProgressPeriodic(t: real)
    requires 0.0 <= t
    ensures SlideProgress(t + 12.5) == SlideProgress(t)
  {
    assert (t + 12.5) * SlideSpeed == t * SlideSpeed + 1.0;
    Rem1Periodic(t * SlideSpeed);
  }

  /** The drop tower's cart height, `sin(t * 1.5)^6 * 60 + 2`, given the sine
      value. The even power keeps it between the base and the top of the
      tower; it is at the top exactly when the sine is at a peak, and at the
      base exactly when the sine is zero. */
  function DropHeight(s: real): (h: real)
    ensures -1.0 <= s <= 1.0 ==> DropBase <= h <= DropBase + DropAmplitude
    ensures -1.0 <= s <= 1.0 ==> (h == DropBase + DropAmplitude <==> s == 1.0 || s == -1.0)
    ensures h == DropBase <==> s == 0.0
  {
    Pow6Bounds(s);
    Pow(s, 6) * DropAmplitude + DropBase
  }

  /** The sixth power of a sine value: never negative, zero only at zero,
      at most one, and one only at the sine's peaks. */
  lemma Pow6Bounds(s: real)
    ensures 0.0 <= Pow(s, 6)
    ensures Pow(s, 6) == 0.0 <==> s == 0.0
    ensures -1.0 <= s <= 1.0 ==> Pow(s, 6) <= 1.0
    ensures -1.0 <= s <= 1.0 ==> (Pow(s, 6) == 1.0 <==> s == 1.0 || s == -1.0)
  {
    PowNegate(s, 6);
    PowNegate(-s, 6);
    assert Pow(s, 6) == Pow(Abs(s), 6);
    PowZero(s, 6);
    PowNonNegative(Abs(s), 6);
    if -1.0 <= s <= 1.0 {
      PowUnitRange(Abs(s), 6);
    }
  }

  /** The height is the same for opposite sines. */
  lemma DropHeightEven(s: real)
    ensures DropHeight(-s) == DropHeight(s)
  {
    PowNegate(s, 6);
  }

  /** Each horse's seat angle around the platform: `(i / 10) * 2π`. */
  function HorseAngle(i: int): real {
    (i as real / HorseCount as real) * Pi * 2.0
  }

  /** Every horse has its own seat angle, increasing around the platform,
      so no two horses bob in phase. */
  lemma HorseAnglesDistinct(i: int, j: int)
    requires 0 <= i < j < HorseCount
    ensures HorseAngle(i) < HorseAngle(j)
  {
  }

  /** A horse bobs `2 + sin(t * 4 + angle) * 2` above its pole's foot. */
  function HorseHeight(s: real): (h: real)
    ensures -1.0 <= s <= 1.0 ==> 0.0 <= h <= 4.0
  {
    2.0 + s * 2.0
  }

  /** The bob heights of all ten horses at time `t`; the sine's range keeps
      every horse within four units above its pole's foot. */
  function HorseHeights(lib: Library, t: real): (hs: seq<real>)
    ensures |hs| == HorseCount
    ensures SinBounded(lib) ==> forall i :: 0 <= i < |hs| ==> 0.0 <= hs[i] <= 4.0
  {
    var hs := seq(HorseCount, i => HorseHeight(lib.sin(t * BobFrequency + HorseAngle(i))));
    assert SinBounded(lib) ==> forall i :: 0 <= i < |hs| ==>
      -1.0 <= lib.sin(t * BobFrequency + HorseAngle(i)) <= 1.0;
    hs
  }

  /** Every animated transform of one frame at time `t` (seconds). */
  datatype Kinematics = Kinematics(
    coasterProgress: real,
    cartPos: Vec3,
    cartTarget: Vec3,
    hubAngle: real,
    cabinAngle: real,
    dropHeight: real,
    platformAngle: real,
    horseSpin: real,
    horseHeights: seq<real>,
    slideProgress: real)

  function Animate(lib: Library, t: real): (k: Kinematics)
    ensures 0.0 <= t ==> 0.0 <= k.coasterProgress < 1.0 && 0.0 <= k.slideProgress < 1.0
    ensures k.cartPos == lib.coasterAt(k.coasterProgress)
    ensures k.cartTarget == lib.coasterAt(LookAhead(k.coasterProgress))
    ensures k.cabinAngle == -k.hubAngle
    ensures |k.horseHeights| == HorseCount
    ensures SinBounded(lib) ==> DropBase <= k.dropHeight <= DropBase + DropAmplitude
  {
    var cp := CoasterProgress(t);
    var hub := t * WheelSpeed;
    Kinematics(
      cp,
      lib.coasterAt(cp),
      lib.coasterAt(LookAhead(cp)),
      hub,
      -hub,
      DropHeight(lib.sin(t * DropFrequency)),
      t * PlatformSpeed,
      t * HorseSpinSpeed,
      HorseHeights(lib, t),
      SlideProgress(t))
  }

  /** The dropper seat: the cart's height plus 1.5, at a fixed spot beside the tower. */
  function DropperSeat(height: real): (p: Vec3)
    ensures DropBase <= height <= DropBase + DropAmplitude ==> 3.5 <= p.y <= 63.5
    ensures p.x == 50.0 && p.z == 14.5
  {
    Vec3(50.0, height + 1.5, 14.5)
  }

  /** The slide's tube is placed at (-60, 0, 40); the rider sits one unit above the curve. */
  const SlideOffset := Vec3(-60.0, 1.0, 40.0)

  /** The carousel rider sits one unit above the first horse. */
  const SaddleOffset := Vec3(0.0, 1.0, 0.0)
}
