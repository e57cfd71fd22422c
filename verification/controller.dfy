/** The ride-mode controller: the ticket-gated mode switch, the per-frame
    dispatch that decides who moves the camera rig, and the session's life
    as a sequence of input events. */
module Controller {
  import opened Geometry
  import opened Three
  import opened Park
  import opened Rides
  import opened Input

  // ----- Mode change -----

  /** The answer to a mode-change request. */
  datatype Reply = Granted(next: Session) | TicketRequired

  /** `setRideMode(name)`. Walking is always granted and puts the rig back at
      the spawn point, upright, looking straight ahead. Any other name needs a
      ticket; with one, only the mode changes. The ticket itself is never
      touched. */
  function SetRideMode(s: Session, name: string): (r: Reply)
    ensures r.TicketRequired? <==> name != "walking" && !s.hasTicket
    ensures r.Granted? ==> r.next.mode == ParseMode(name) && r.next.hasTicket == s.hasTicket && r.next.keys == s.keys
    ensures r.Granted? && name == "walking"
            ==> r.next.rigPos == Spawn && r.next.rigRot == NoRotation && r.next.yaw == 0.0 && r.next.pitch == 0.0
    ensures r.Granted? && name != "walking" ==> r.next == s.(mode := ParseMode(name))
  {
    var m := ParseMode(name);
    if m != Walking && !s.hasTicket then
      TicketRequired
    else if m == Walking then
      Granted(s.(mode := Walking, rigPos := Spawn, rigRot := NoRotation, yaw := 0.0, pitch := 0.0))
    else
      Granted(s.(mode := m))
  }

  /** The session after a request; a refused request changes nothing. */
  function RequestMode(s: Session, name: string): (r: Session)
    ensures name != "walking" && !s.hasTicket ==> r == s
    ensures r.hasTicket == s.hasTicket
    ensures name == "walking" ==> r.mode == Walking && r.rigPos == Spawn && r.rigRot == NoRotation
    ensures s.hasTicket ==> r.mode == ParseMode(name)
  {
    match SetRideMode(s, name)
    case Granted(next) => next
    case TicketRequired => s
  }

  // ----- One frame -----

  /** What a frame reads besides the session: the timestamp in milliseconds,
      the XR input sources, and the camera's world direction as a function
      of the rig's rotation (it also depends on the headset's pose). */
  datatype FrameInput = FrameInput(time: real, sources: seq<Source>, view: Euler -> Vec3)

  /** The ticket latch: near the stall, a missing ticket is granted. */
  function Latch(s: Session): (r: Session)
    ensures r == s.(hasTicket := r.hasTicket)
    ensures r.hasTicket <==> s.hasTicket || NearTicketStall(s.rigPos)
  {
    if NearTicketStall(s.rigPos) && !s.hasTicket then s.(hasTicket := true) else s
  }

  /** Where each ride puts the rig, given the frame's kinematics. Walking and
      unknown modes are handled by the keyboard branch instead. */
  function RideSeat(lib: Library, m: Mode, k: Kinematics, s: Session): (r: Session)
    requires IsRide(m)
    requires |k.horseHeights| == HorseCount
    ensures r == s.(rigPos := r.rigPos, rigRot := r.rigRot)
    ensures !m.Coaster? ==> r.rigRot == s.rigRot
  {
    match m
    case Coaster => s.(rigPos := k.cartPos, rigRot := lib.lookAtRotation(k.cartPos, k.cartTarget))
    case Dropper => s.(rigPos := DropperSeat(k.dropHeight))
    case Wheel => s.(rigPos := lib.cabinWorld(k.hubAngle))
    case Carousel => s.(rigPos := Add(lib.horseWorld(k.platformAngle, k.horseSpin, k.horseHeights[0]), SaddleOffset))
    case Slide => s.(rigPos := Add(lib.slideAt(k.slideProgress), SlideOffset))
  }

  /** One animation frame: VR input first, then the mode decides who moves
      the rig. A ride mode slaves the rig to its ride and leaves the ticket
      alone; any other mode walks by keyboard and may pick up the ticket.
      The mode, the look angles and the held keys never change in a frame. */
  function Frame(lib: Library, s: Session, input: FrameInput): (r: Session)
    ensures r.mode == s.mode && r.keys == s.keys && r.yaw == s.yaw && r.pitch == s.pitch
    ensures r.hasTicket <==> s.hasTicket || (!IsRide(s.mode) && NearTicketStall(r.rigPos))
    ensures !IsRide(s.mode) ==> r.rigPos.y == s.rigPos.y
    ensures !IsRide(s.mode) ==> r.rigRot.x == s.rigRot.x && r.rigRot.z == s.rigRot.z
    ensures s.mode == Walking ==> r.rigRot.y == s.rigRot.y + TurnTotal(input.sources)
    ensures s.mode.Unknown? ==> r.rigRot == s.rigRot
    ensures IsRide(s.mode) && !s.mode.Coaster? ==> r.rigRot == s.rigRot
    ensures s.mode == Coaster
            ==> var u := CoasterProgress(Seconds(input.time));
                && r.rigPos == lib.coasterAt(u)
                && r.rigRot == lib.lookAtRotation(r.rigPos, lib.coasterAt(LookAhead(u)))
    ensures s.mode == Dropper
            ==> r.rigPos == Vec3(50.0, DropHeight(lib.sin(Seconds(input.time) * DropFrequency)) + 1.5, 14.5)
    ensures s.mode == Wheel ==> r.rigPos == lib.cabinWorld(Seconds(input.time) * WheelSpeed)
    ensures s.mode == Carousel
            ==> var k := Animate(lib, Seconds(input.time));
                r.rigPos == Add(lib.horseWorld(k.platformAngle, k.horseSpin, k.horseHeights[0]), SaddleOffset)
    ensures s.mode == Slide ==> r.rigPos == Add(lib.slideAt(SlideProgress(Seconds(input.time))), SlideOffset)
  {
    var s1 := HandleVR(lib, input.view, s, input.sources);
    var k := Animate(lib, Seconds(input.time));
    if IsRide(s1.mode) then RideSeat(lib, s1.mode, k, s1)
    else Latch(KeyboardWalk(lib, s1))
  }

  /** The dropper rides between 3.5 and 63.5 units up, beside the tower. */
  lemma DropperSeatBounds(lib: Library, s: Session, input: FrameInput)
    requires SinBounded(lib)
    requires s.mode == Dropper
    ensures var r := Frame(lib, s, input);
            3.5 <= r.rigPos.y <= 63.5 && r.rigPos.x == 50.0 && r.rigPos.z == 14.5
  {
  }

  /** The carousel rider sits one unit above the first horse, which bobs at
      most four units above its pole's foot. */
  lemma CarouselSeat(lib: Library, s: Session, input: FrameInput)
    requires s.mode == Carousel
    ensures var k := Animate(lib, Seconds(input.time));
            Frame(lib, s, input).rigPos == Add(lib.horseWorld(k.platformAngle, k.horseSpin, k.horseHeights[0]), SaddleOffset)
    ensures SinBounded(lib) ==> 0.0 <= Animate(lib, Seconds(input.time)).horseHeights[0] <= 4.0
  {
  }

  // ----- The session as a sequence of events -----

  datatype Event =
    | Request(name: string)
    | Press(code: string)
    | Release(code: string)
    | MouseMove(locked: bool, dx: real, dy: real)
    | Tick(input: FrameInput)

  function Step(lib: Library, s: Session, e: Event): (r: Session)
    ensures s.hasTicket ==> r.hasTicket
    ensures !s.hasTicket && r.hasTicket ==> e.Tick? && !IsRide(s.mode) && NearTicketStall(r.rigPos)
  {
    match e
    case Request(name) => RequestMode(s, name)
    case Press(code) => KeyDown(s, code)
    case Release(code) => KeyUp(s, code)
    case MouseMove(locked, dx, dy) => MouseLook(s, locked, dx, dy)
    case Tick(input) => Frame(lib, s, input)
  }

  /** A session after a sequence of events. The ticket, once held, stays held. */
  function Run(lib: Library, s: Session, events: seq<Event>): (r: Session)
    ensures s.hasTicket ==> r.hasTicket
    decreases |events|
  {
    if |events| == 0 then s else Run(lib, Step(lib, s, events[0]), events[1..])
  }

  /** What holds of every session the page can reach: a ride (or any mode
      other than walking) means a ticket is held; while walking, the rig
      stands upright at eye height 1.6; the pitch is within its limit; and
      an unrecognised mode never carries the name of a known one. */
  ghost predicate Reachable(s: Session) {
    && (s.mode != Walking ==> s.hasTicket)
    && (s.mode == Walking ==> s.rigPos.y == Spawn.y && s.rigRot.x == 0.0 && s.rigRot.z == 0.0)
    && -PitchLimit <= s.pitch <= PitchLimit
    && (s.mode.Unknown? ==> s.mode.name !in KnownNames)
  }

  lemma InitialReachable()
    ensures Reachable(Initial)
  {
  }

  lemma StepKeepsReachable(lib: Library, s: Session, e: Event)
    requires Reachable(s)
    ensures Reachable(Step(lib, s, e))
  {
  }

  lemma {:induction false} RunKeepsReachable(lib: Library, s: Session, events: seq<Event>)
    requires Reachable(s)
    ensures Reachable(Run(lib, s, events))
    decreases |events|
  {
    if |events| > 0 {
      StepKeepsReachable(lib, s, events[0]);
      RunKeepsReachable(lib, Step(lib, s, events[0]), events[1..]);
    }
  }

  /** From the start of a session, no event sequence reaches a ride without a
      ticket, and walking always happens at eye height. */
  lemma NoRideWithoutTicket(lib: Library, events: seq<Event>)
    ensures var r := Run(lib, Initial, events);
            (IsRide(r.mode) ==> r.hasTicket) && (r.mode == Walking ==> r.rigPos.y == 1.6)
  {
    InitialReachable();
    RunKeepsReachable(lib, Initial, events);
  }

  /** How many events in a sequence turn a missing ticket into a held one. */
  function TicketGains(lib: Library, s: Session, events: seq<Event>): nat
    decreases |events|
  {
    if |events| == 0 then 0
    else
      var next := Step(lib, s, events[0]);
      (if !s.hasTicket && next.hasTicket then 1 else 0) + TicketGains(lib, next, events[1..])
  }

  /** The ticket latches at most once in any session, and never again once held. */
  lemma {:induction false} TicketLatchesOnce(lib: Library, s: Session, events: seq<Event>)
    ensures TicketGains(lib, s, events) <= 1
    ensures s.hasTicket ==> TicketGains(lib, s, events) == 0
    decreases |events|
  {
    if |events| > 0 {
      TicketLatchesOnce(lib, Step(lib, s, events[0]), events[1..]);
    }
  }
}
