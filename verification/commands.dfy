/** Command dispatch: the eight command buttons, the service request each one
    issues, and the feedback variant a response selects (scripts/mav_tools.py,
    FlightModes, Arming and handle_button_click). */
module Commands {
  import opened Wrappers

  /** The two rows of command buttons. */
  datatype Group = FlightModes | Arming

  /** The eight command buttons the dashboard composes. */
  datatype Button = Manual | Stabilized | Offboard | Hold | Arm | Disarm | Takeoff | Land

  /** Visual feedback state of a button. */
  datatype Variant = Default | Succeeded | Errored

  /** A service request on the bus. `Takeoff` and `Land` carry the altitude. */
  datatype Request =
    | SetMode(customMode: string)
    | ArmDisarm(value: bool)
    | TakeoffAt(altitude: int)
    | LandAt(altitude: int)

  /** A service reply: set-mode answers with `mode_sent`, the arming, takeoff and
      land services answer with `success`. */
  datatype Response = SetModeResponse(modeSent: bool) | CommandResponse(success: bool)

  /** The four service endpoints, each given as the reply flag it returns for a request. */
  datatype Bus = Bus(setMode: string -> bool, arming: bool -> bool,
                     takeoff: int -> bool, land: int -> bool)

  /** The failure of a press handler. */
  datatype Fault =
    /** No id in the group's chain matched, so the response variable was never
        assigned and handing it on raises. */
    | UnboundResponse(id: string)

  /** The widget id each button is composed with. */
  function Id(b: Button): string {
    match b
    case Manual => "manual"
    case Stabilized => "stabilized"
    case Offboard => "offboard"
    case Hold => "hold"
    case Arm => "arm"
    case Disarm => "disarm"
    case Takeoff => "takeoff"
    case Land => "land"
  }

  /** The row each button is composed in. */
  function GroupOf(b: Button): Group {
    if b in {Manual, Stabilized, Offboard, Hold} then FlightModes else Arming
  }

  /** The if/elif chain of a group's press handler: which of the group's buttons
      carries `id`, or None when no branch matches. */
  function Lookup(g: Group, id: string): (r: Option<Button>)
    ensures r.Some? ==> Id(r.value) == id && GroupOf(r.value) == g
    ensures r.None? ==> forall b :: GroupOf(b) == g ==> Id(b) != id
  {
    match g
    case FlightModes =>
      if id == "manual" then Some(Manual)
      else if id == "stabilized" then Some(Stabilized)
      else if id == "offboard" then Some(Offboard)
      else if id == "hold" then Some(Hold)
      else None
    case Arming =>
      if id == "arm" then Some(Arm)
      else if id == "disarm" then Some(Disarm)
      else if id == "takeoff" then Some(Takeoff)
      else if id == "land" then Some(Land)
      else None
  }

  /** The request a press of `b` issues. */
  function RequestFor(b: Button): (req: Request)
    ensures req.SetMode? <==> GroupOf(b) == FlightModes
  {
    match b
    case Manual => SetMode("MANUAL")
    case Stabilized => SetMode("STABILIZED")
    case Offboard => SetMode("OFFBOARD")
    case Hold => SetMode("HOLD")
    case Arm => ArmDisarm(true)
    case Disarm => ArmDisarm(false)
    case Takeoff => TakeoffAt(1)
    case Land => LandAt(0)
  }

  /** Inverse of RequestFor: the button whose press issues `req`, if any. */
  function ButtonFor(req: Request): Option<Button> {
    match req
    case SetMode(m) =>
      if m == "MANUAL" then Some(Manual)
      else if m == "STABILIZED" then Some(Stabilized)
      else if m == "OFFBOARD" then Some(Offboard)
      else if m == "HOLD" then Some(Hold)
      else None
    case ArmDisarm(v) => if v then Some(Arm) else Some(Disarm)
    case TakeoffAt(a) => if a == 1 then Some(Takeoff) else None
    case LandAt(a) => if a == 0 then Some(Land) else None
  }

  /** Upper case of an ASCII lower-case letter; other characters are kept. */
  function UpperChar(c: char): char {
    if 'a' <= c <= 'z' then (c as int - 'a' as int + 'A' as int) as char else c
  }

  /** Upper-casing of a string, an independent statement of how a flight-mode
      button's id relates to the mode it requests. */
  function Upper(s: string): string {
    seq(|s|, i requires 0 <= i < |s| => UpperChar(s[i]))
  }

  /** Sending `req` on the bus: set-mode yields a `mode_sent` reply, the other
      three services a `success` reply. */
  function Call(bus: Bus, req: Request): (resp: Response)
    ensures resp.SetModeResponse? <==> req.SetMode?
  {
    match req
    case SetMode(m) => SetModeResponse(bus.setMode(m))
    case ArmDisarm(v) => CommandResponse(bus.arming(v))
    case TakeoffAt(a) => CommandResponse(bus.takeoff(a))
    case LandAt(a) => CommandResponse(bus.land(a))
  }

  /** The variant handle_button_click gives the pressed button: the `mode_sent`
      flag decides for the flight-mode row (`mode` set), `success` for the arming row. */
  function Feedback(resp: Response, mode: bool): (v: Variant)
    requires mode <==> resp.SetModeResponse?
    ensures v != Default
    ensures mode ==> (v == Succeeded <==> resp.modeSent)
    ensures !mode ==> (v == Succeeded <==> resp.success)
  {
    if mode then
      if resp.modeSent then Succeeded else Errored
    else
      if resp.success then Succeeded else Errored
  }

  /** Every button is found by its own id in its own row, and by no other row. */
  lemma LookupFindsEveryButton(b: Button)
    ensures Lookup(GroupOf(b), Id(b)) == Some(b)
    ensures forall g :: g != GroupOf(b) ==> Lookup(g, Id(b)) == None
  {
  }

  /** Distinct buttons issue distinct requests: the request table is inverted
      exactly by `ButtonFor`. */
  lemma RequestsIdentifyButtons(b: Button, req: Request)
    ensures ButtonFor(RequestFor(b)) == Some(b)
    ensures ButtonFor(req).Some? ==> RequestFor(ButtonFor(req).value) == req
  {
  }

  /** A flight-mode button requests the mode named by its id in upper case. */
  lemma ModeIsUpperCasedId(b: Button)
    requires GroupOf(b) == FlightModes
    ensures RequestFor(b) == SetMode(Upper(Id(b)))
  {
  }

  /** The feedback of a press of `b` follows the reply flag of the service its request reaches. */
  lemma FeedbackFollowsService(b: Button, bus: Bus)
    ensures var req := RequestFor(b);
            Feedback(Call(bus, req), GroupOf(b) == FlightModes) == Succeeded <==>
              match req
              case SetMode(m) => bus.setMode(m)
              case ArmDisarm(v) => bus.arming(v)
              case TakeoffAt(a) => bus.takeoff(a)
              case LandAt(a) => bus.land(a)
  {
  }
}
