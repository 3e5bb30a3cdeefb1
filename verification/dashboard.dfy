/** The dashboard as an event-driven state machine (scripts/mav_tools.py):
    the two telemetry callbacks overwrite the last received vehicle and battery
    state, a press in a command row issues one service request and colours the
    pressed button from the reply, and each press schedules a timer that later
    reverts that button to its default variant.

    `Step` and `Run` state the behaviour on values; the class `Panel` holds the
    same state in fields and its methods are proved against `Step`. */
module Dashboard {
  import opened Wrappers
  import opened Telemetry
  import opened Commands

  /** Every state the dashboard keeps between events. `pending` holds one entry
      per revert timer that has been started and has not fired yet. */
  datatype Dash = Dash(state: Option<VehicleState>, battery: Option<BatteryState>,
                       variants: map<Button, Variant>, pending: multiset<Button>)

  /** What can happen to the dashboard: a message on either telemetry topic, a
      press reaching a row's handler (with the bus that answers its request), or
      a revert timer firing. */
  datatype Event =
    | StateReceived(stateMsg: VehicleState)
    | BatteryReceived(batteryMsg: BatteryState)
    | Pressed(group: Group, id: string, bus: Bus)
    | RevertFired(button: Button)

  /** Every button is shown, and every button not in its default variant has a
      revert timer that will still fire. */
  ghost predicate Consistent(d: Dash) {
    && (forall b: Button :: b in d.variants)
    && (forall b :: b in d.variants && d.variants[b] != Default ==> b in d.pending)
  }

  /** The eight buttons the dashboard composes. */
  const AllButtons: set<Button> := {Manual, Stabilized, Offboard, Hold, Arm, Disarm, Takeoff, Land}

  lemma EveryButtonComposed(b: Button)
    ensures b in AllButtons
  {
  }

  /** The dashboard at start-up: no telemetry received, every button composed
      with the default variant, no timer running. */
  function Initial(): (d: Dash)
    ensures Consistent(d)
    ensures d.state.None? && d.battery.None? && d.pending == multiset{}
    ensures forall b: Button :: b in d.variants && d.variants[b] == Default
  {
    var d := Dash(None, None, map b | b in AllButtons :: Default, multiset{});
    assert forall b: Button :: b in d.variants by {
      forall b: Button ensures b in d.variants { EveryButtonComposed(b); }
    }
    d
  }

  /** handle_button_click: the pressed button takes the variant the reply
      selects and a revert timer is started for it. */
  function Clicked(d: Dash, b: Button, resp: Response, mode: bool): (r: Dash)
    requires mode <==> resp.SetModeResponse?
    ensures b in r.variants && r.variants[b] == Feedback(resp, mode)
    ensures forall c :: c != b ==> (c in r.variants <==> c in d.variants)
    ensures forall c :: c != b && c in d.variants ==> r.variants[c] == d.variants[c]
    ensures r.pending == d.pending + multiset{b}
    ensures r.state == d.state && r.battery == d.battery
  {
    d.(variants := d.variants[b := Feedback(resp, mode)], pending := d.pending + multiset{b})
  }

  /** A revert timer of `b` fires: `b` goes back to its default variant
      whatever it showed, and that timer is gone. */
  function Reverted(d: Dash, b: Button): (r: Dash)
    ensures b in r.variants && r.variants[b] == Default
    ensures forall c :: c != b ==> (c in r.variants <==> c in d.variants)
    ensures forall c :: c != b && c in d.variants ==> r.variants[c] == d.variants[c]
    ensures r.pending == d.pending - multiset{b}
    ensures r.state == d.state && r.battery == d.battery
  {
    d.(variants := d.variants[b := Default], pending := d.pending - multiset{b})
  }

  /** An event the dashboard can handle: anything but a press whose id matches
      none of its row's buttons. */
  predicate Recognised(e: Event) {
    !e.Pressed? || Lookup(e.group, e.id).Some?
  }

  /** The effect of one event. A press whose id matches none of its row's
      buttons issues no request and fails. Each telemetry callback touches only
      its own stored state; presses and timers touch no telemetry, and a
      handled press changes no button but the pressed one. */
  function Step(d: Dash, e: Event): (r: Result<Dash, Fault>)
    ensures r.Success? <==> Recognised(e)
    ensures r.Failure? ==> r.error == UnboundResponse(e.id)
    ensures e.StateReceived? ==> r == Success(Dash(Some(e.stateMsg), d.battery, d.variants, d.pending))
    ensures e.BatteryReceived? ==> r == Success(Dash(d.state, Some(e.batteryMsg), d.variants, d.pending))
    ensures e.RevertFired? ==> r == Success(Reverted(d, e.button))
    ensures r.Success? && !e.StateReceived? ==> r.value.state == d.state
    ensures r.Success? && !e.BatteryReceived? ==> r.value.battery == d.battery
    ensures r.Success? && e.Pressed? ==>
              var b := Lookup(e.group, e.id).value;
              && r.value.pending == d.pending + multiset{b}
              && b in r.value.variants
              && r.value.variants[b] == Feedback(Call(e.bus, RequestFor(b)), e.group == FlightModes)
              && (forall c :: c != b && c in d.variants ==> c in r.value.variants && r.value.variants[c] == d.variants[c])
              && (forall c :: c in r.value.variants ==> c == b || c in d.variants)
  {
    match e
    case StateReceived(msg) => Success(d.(state := Some(msg)))
    case BatteryReceived(msg) => Success(d.(battery := Some(msg)))
    case Pressed(g, id, bus) =>
      (match Lookup(g, id)
       case None => Failure(UnboundResponse(id))
       case Some(b) => Success(Clicked(d, b, Call(bus, RequestFor(b)), g == FlightModes)))
    case RevertFired(b) => Success(Reverted(d, b))
  }

  /** The effect of a sequence of events, stopping at the first failing one:
      it fails exactly when some press in it has an unknown id. */
  function Run(d: Dash, events: seq<Event>): (r: Result<Dash, Fault>)
    ensures r.Success? <==> forall i :: 0 <= i < |events| ==> Recognised(events[i])
    decreases |events|
  {
    if events == [] then Success(d)
    else
      match Step(d, events[0])
      case Failure(f) => Failure(f)
      case Success(d') =>
        var r := Run(d', events[1..]);
        assert forall i :: 1 <= i < |events| ==> events[i] == events[1..][i - 1];
        r
  }

  /** The vehicle-state messages among `events`, in delivery order. */
  function StateMessages(events: seq<Event>): seq<VehicleState> {
    if events == [] then []
    else (if events[0].StateReceived? then [events[0].stateMsg] else []) + StateMessages(events[1..])
  }

  /** The battery-state messages among `events`, in delivery order. */
  function BatteryMessages(events: seq<Event>): seq<BatteryState> {
    if events == [] then []
    else (if events[0].BatteryReceived? then [events[0].batteryMsg] else []) + BatteryMessages(events[1..])
  }

  /** The last of `msgs`, or `init` when there is none. */
  function Latest<T>(init: Option<T>, msgs: seq<T>): Option<T> {
    if msgs == [] then init else Some(msgs[|msgs| - 1])
  }

  /** Every event keeps the dashboard consistent. */
  lemma StepKeepsConsistent(d: Dash, e: Event)
    requires Consistent(d)
    ensures Step(d, e).Success? ==> Consistent(Step(d, e).value)
  {
  }

  /** Every sequence of events keeps the dashboard consistent. */
  lemma {:induction false} RunKeepsConsistent(d: Dash, events: seq<Event>)
    requires Consistent(d)
    ensures Run(d, events).Success? ==> Consistent(Run(d, events).value)
    decreases |events|
  {
    if events != [] {
      StepKeepsConsistent(d, events[0]);
      if Step(d, events[0]).Success? {
        RunKeepsConsistent(Step(d, events[0]).value, events[1..]);
      }
    }
  }

  /** Once every started revert timer has fired, every button shows its
      default variant, the variant it was composed with. */
  lemma AllDefaultOnceDrained(d: Dash)
    requires Consistent(d) && d.pending == multiset{}
    ensures d.variants == Initial().variants
  {
  }

  /** After any sequence of events from start-up, once every scheduled revert
      has fired, all buttons are back to their initial variant. */
  lemma AllDefaultAfterEveryRevert(events: seq<Event>)
    ensures Run(Initial(), events).Success? && Run(Initial(), events).value.pending == multiset{} ==>
              Run(Initial(), events).value.variants == Initial().variants
  {
    RunKeepsConsistent(Initial(), events);
    if Run(Initial(), events).Success? && Run(Initial(), events).value.pending == multiset{} {
      AllDefaultOnceDrained(Run(Initial(), events).value);
    }
  }

  /** Last write wins: the stored vehicle state is the last vehicle-state
      message delivered, whatever else happened in between, and the stored
      battery state is likewise the last battery message. */
  lemma {:induction false} RunKeepsLatestTelemetry(d: Dash, events: seq<Event>)
    ensures Run(d, events).Success? ==> Run(d, events).value.state == Latest(d.state, StateMessages(events))
    ensures Run(d, events).Success? ==> Run(d, events).value.battery == Latest(d.battery, BatteryMessages(events))
    decreases |events|
  {
    if events != [] && Step(d, events[0]).Success? {
      var e, d' := events[0], Step(d, events[0]).value;
      RunKeepsLatestTelemetry(d', events[1..]);
      assert Run(d, events) == Run(d', events[1..]);
      assert d'.state == if e.StateReceived? then Some(e.stateMsg) else d.state;
      assert d'.battery == if e.BatteryReceived? then Some(e.batteryMsg) else d.battery;
    }
  }

  /** The labels shown after any sequence of events from start-up: the mode
      and arming state of the last vehicle-state message, "Undefined" while
      none has arrived; the battery label is "Undefined" exactly while no
      battery message has arrived. */
  lemma LabelsFollowLastMessage(events: seq<Event>, render: real -> string)
    requires Run(Initial(), events).Success?
    ensures var d := Run(Initial(), events).value;
            var msgs := StateMessages(events);
            && (msgs == [] ==> FlightModeLabel(d.state) == Undefined && ArmingLabel(d.state) == Undefined)
            && (msgs != [] ==> FlightModeLabel(d.state) == msgs[|msgs| - 1].mode)
            && (msgs != [] ==> ArmingLabel(d.state) == (if msgs[|msgs| - 1].armed then "Armed" else "Disarmed"))
            && (BatteryLabel(d.battery, render) == Undefined <==> BatteryMessages(events) == [])
  {
    RunKeepsLatestTelemetry(Initial(), events);
  }

  /** A recognised press followed by the firing of its timer leaves the
      dashboard as it was before the press, if the pressed button showed its
      default variant; in between, the pressed button shows the reply's outcome
      and no other button changes. */
  lemma PressThenRevertRestores(d: Dash, g: Group, id: string, bus: Bus)
    requires Consistent(d)
    requires Lookup(g, id).Some? && d.variants[Lookup(g, id).value] == Default
    ensures var b := Lookup(g, id).value;
            var after := Run(d, [Pressed(g, id, bus)]);
            && after.Success?
            && after.value.variants == d.variants[b := Feedback(Call(bus, RequestFor(b)), g == FlightModes)]
            && Run(d, [Pressed(g, id, bus), RevertFired(b)]) == Success(d)
  {
    var b := Lookup(g, id).value;
    var mid := Clicked(d, b, Call(bus, RequestFor(b)), g == FlightModes);
    RunOne(d, Pressed(g, id, bus));
    RunTwo(d, Pressed(g, id, bus), RevertFired(b));
    RevertUndoesClick(d, b, Call(bus, RequestFor(b)), g == FlightModes);
  }

  /** Running a single event is taking its step. */
  lemma RunOne(d: Dash, e: Event)
    ensures Run(d, [e]) == Step(d, e)
  {
  }

  /** Running two events takes the second step from the state the first left. */
  lemma RunTwo(d: Dash, e1: Event, e2: Event)
    ensures Run(d, [e1, e2]) == if Step(d, e1).Failure? then Step(d, e1) else Step(Step(d, e1).value, e2)
  {
    assert [e1, e2][1..] == [e2];
    if Step(d, e1).Success? {
      RunOne(Step(d, e1).value, e2);
    }
  }

  /** Reverting a click on a button that showed its default variant restores
      the dashboard exactly. */
  lemma RevertUndoesClick(d: Dash, b: Button, resp: Response, mode: bool)
    requires mode <==> resp.SetModeResponse?
    requires b in d.variants && d.variants[b] == Default
    ensures Reverted(Clicked(d, b, resp, mode), b) == d
  {
  }

  /** A revert for a button with no timer pending changes nothing on a
      consistent dashboard: that button already shows its default variant. */
  lemma UnscheduledRevertChangesNothing(d: Dash, b: Button)
    requires Consistent(d) && b !in d.pending
    ensures Reverted(d, b) == d
  {
    assert d.variants[b] == Default;
    assert d.variants[b := Default] == d.variants;
    assert d.pending - multiset{b} == d.pending by {
      assert d.pending[b] == 0;
    }
  }

  /** A revert is idempotent: a second firing for the same button changes no
      variant. */
  lemma RevertIsIdempotent(d: Dash, b: Button)
    ensures Reverted(Reverted(d, b), b).variants == Reverted(d, b).variants
  {
  }

  /** The dashboard's state held in place, updated by one method per event. */
  class Panel {
    var state: Option<VehicleState>
    var battery: Option<BatteryState>
    var variants: map<Button, Variant>
    var pending: multiset<Button>

    /** The value the fields currently hold. */
    function Snapshot(): Dash
      reads this
    {
      Dash(state, battery, variants, pending)
    }

    ghost predicate Valid()
      reads this
    {
      Consistent(Snapshot())
    }

    /** Start-up: the buttons are composed with the default variant. */
    constructor ()
      ensures Valid() && Snapshot() == Initial()
    {
      state, battery := None, None;
      variants := Initial().variants;
      pending := multiset{};
    }

    /** state_callback: overwrite the stored vehicle state. */
    method OnState(msg: VehicleState)
      requires Valid()
      modifies this`state
      ensures Valid()
      ensures Step(old(Snapshot()), StateReceived(msg)) == Success(Snapshot())
      ensures state == Some(msg) && battery == old(battery)
    {
      state := Some(msg);
    }

    /** battery_callback: overwrite the stored battery state. */
    method OnBattery(msg: BatteryState)
      requires Valid()
      modifies this`battery
      ensures Valid()
      ensures Step(old(Snapshot()), BatteryReceived(msg)) == Success(Snapshot())
      ensures battery == Some(msg) && state == old(state)
    {
      battery := Some(msg);
    }

    /** handle_button_click: colour the pressed button from the reply and start
        its revert timer. */
    method HandleButtonClick(b: Button, resp: Response, mode: bool)
      requires Valid()
      requires mode <==> resp.SetModeResponse?
      modifies this`variants, this`pending
      ensures Valid()
      ensures Snapshot() == Clicked(old(Snapshot()), b, resp, mode)
      ensures variants[b] == (if (if mode then resp.modeSent else resp.success) then Succeeded else Errored)
    {
      var v;
      if mode {
        if resp.modeSent { v := Succeeded; } else { v := Errored; }
      } else {
        if resp.success { v := Succeeded; } else { v := Errored; }
      }
      variants := variants[b := v];
      pending := pending + multiset{b};
    }

    /** FlightModes.on_button_pressed: send the set-mode request of the pressed
        button, then colour it from `mode_sent`. An unknown id sends nothing and
        fails. */
    method OnFlightModesPressed(id: string, bus: Bus) returns (r: Result<Request, Fault>)
      requires Valid()
      modifies this`variants, this`pending
      ensures Valid()
      ensures r.Success? <==> Lookup(FlightModes, id).Some?
      ensures r.Success? ==> r.value == RequestFor(Lookup(FlightModes, id).value) && r.value.SetMode?
      ensures r.Failure? ==> r.error == UnboundResponse(id) && Snapshot() == old(Snapshot())
      ensures Step(old(Snapshot()), Pressed(FlightModes, id, bus)) ==
                (if r.Success? then Success(Snapshot()) else Failure(r.error))
    {
      var b := Lookup(FlightModes, id);
      if b.None? {
        return Failure(UnboundResponse(id));
      }
      var req := RequestFor(b.value);
      var resp := Call(bus, req);
      HandleButtonClick(b.value, resp, true);
      r := Success(req);
    }

    /** Arming.on_button_pressed: send the arming, takeoff or land request of
        the pressed button, then colour it from `success`. An unknown id sends
        nothing and fails. */
    method OnArmingPressed(id: string, bus: Bus) returns (r: Result<Request, Fault>)
      requires Valid()
      modifies this`variants, this`pending
      ensures Valid()
      ensures r.Success? <==> Lookup(Arming, id).Some?
      ensures r.Success? ==> r.value == RequestFor(Lookup(Arming, id).value) && !r.value.SetMode?
      ensures r.Failure? ==> r.error == UnboundResponse(id) && Snapshot() == old(Snapshot())
      ensures Step(old(Snapshot()), Pressed(Arming, id, bus)) ==
                (if r.Success? then Success(Snapshot()) else Failure(r.error))
    {
      var b := Lookup(Arming, id);
      if b.None? {
        return Failure(UnboundResponse(id));
      }
      var req := RequestFor(b.value);
      var resp := Call(bus, req);
      HandleButtonClick(b.value, resp, false);
      r := Success(req);
    }

    /** set_default_variant_timer.change_variant: a revert timer of `b` fires. */
    method ChangeVariant(b: Button)
      requires Valid()
      modifies this`variants, this`pending
      ensures Valid()
      ensures Step(old(Snapshot()), RevertFired(b)) == Success(Snapshot())
      ensures variants[b] == Default
    {
      StepKeepsConsistent(Snapshot(), RevertFired(b));
      variants := variants[b := Default];
      pending := pending - multiset{b};
    }
  }
}
