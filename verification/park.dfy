/** The session record the controller owns: which ride (if any) the camera
    rig is attached to, whether a ticket is held, and the rig's transform. */
module Park {
  import opened Geometry

  /** `window.rideMode`. The page sets it from arbitrary strings, so any
      name other than the six it knows is kept as `Unknown`. */
  datatype Mode = Walking | Coaster | Dropper | Wheel | Carousel | Slide | Unknown(name: string)

  const KnownNames: set<string> := {"walking", "coaster", "dropper", "wheel", "carousel", "slide"}

  /** The string comparisons the page performs on a mode name. */
  function ParseMode(name: string): (m: Mode)
    ensures m.Unknown? <==> name !in KnownNames
    ensures m.Unknown? ==> m.name == name
    ensures m == Walking <==> name == "walking"
  {
    if name == "walking" then Walking
    else if name == "coaster" then Coaster
    else if name == "dropper" then Dropper
    else if name == "wheel" then Wheel
    else if name == "carousel" then Carousel
    else if name == "slide" then Slide
    else Unknown(name)
  }

  function ModeName(m: Mode): string {
    match m
    case Walking => "walking"
    case Coaster => "coaster"
    case Dropper => "dropper"
    case Wheel => "wheel"
    case Carousel => "carousel"
    case Slide => "slide"
    case Unknown(name) => name
  }

  /** Naming a mode and parsing the name back gives the same mode, as long as
      an unknown mode does not carry one of the known names. */
  lemma ParseModeName(m: Mode)
    requires m.Unknown? ==> m.name !in KnownNames
    ensures ParseMode(ModeName(m)) == m
  {
  }

  /** The five modes that slave the rig to a ride. */
  predicate IsRide(m: Mode) {
    m.Coaster? || m.Dropper? || m.Wheel? || m.Carousel? || m.Slide?
  }

  /** Where walking starts, and where switching to walking returns the rig. */
  const Spawn := Vec3(0.0, 1.6, 60.0)

  /** The ticket stall's position (`createStall(0, 40, ...)`). */
  const TicketStall := Vec3(0.0, 0.0, 40.0)

  /** The rig picks up a ticket when closer than 5 units to the stall. */
  const TicketReachSq: real := 25.0

  /** One session's controller state: the ride mode, the ticket flag, the
      rig's position and rotation, the mouse-look yaw and pitch
      accumulators, and the key codes currently held down. */
  datatype Session = Session(
    mode: Mode,
    hasTicket: bool,
    rigPos: Vec3,
    rigRot: Euler,
    yaw: real,
    pitch: real,
    keys: set<string>)

  const Initial := Session(Walking, false, Spawn, NoRotation, 0.0, 0.0, {})

  predicate NearTicketStall(p: Vec3) {
    SqDist(p, TicketStall) < TicketReachSq
  }
}
