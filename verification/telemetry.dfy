/** Telemetry received from the flight controller and the label text the three
    polling widgets derive from it (scripts/mav_tools.py, CurrentFlightMode,
    CurrentArmingState and CurrentBatteryState). */
module Telemetry {
  import opened Wrappers

  /** The fields of a vehicle-state message that the dashboard reads. */
  datatype VehicleState = VehicleState(mode: string, armed: bool)

  /** The fields of a battery-state message that the dashboard reads. */
  datatype BatteryState = BatteryState(voltage: real, current: real, charge: real, percentage: real)

  /** Placeholder shown by every label while its state has never been received. */
  const Undefined: string := "Undefined"

  /** Text of the flight-mode label: the mode of the last state message, or the
      placeholder while no state message has arrived. */
  function FlightModeLabel(state: Option<VehicleState>): (text: string)
    ensures state.Some? ==> text == state.value.mode
    ensures state.None? ==> text == Undefined
  {
    match state
    case None => Undefined
    case Some(s) => s.mode
  }

  /** Text of the arming label. */
  function ArmingLabel(state: Option<VehicleState>): (text: string)
    ensures text == "Armed" <==> state.Some? && state.value.armed
    ensures text == "Disarmed" <==> state.Some? && !state.value.armed
    ensures text == Undefined <==> state.None?
  {
    match state
    case None => Undefined
    case Some(s) => if s.armed then "Armed" else "Disarmed"
  }

  /** Text of the battery label. `render` stands for the two-decimal,
      thousands-separated number format, which is not part of this model. */
  function BatteryLabel(battery: Option<BatteryState>, render: real -> string): (text: string)
    ensures text == Undefined <==> battery.None?
  {
    match battery
    case None => Undefined
    case Some(b) =>
      var text := "Voltage: " + render(b.voltage) + ", Current: " + render(b.current)
        + ", Charge: " + render(b.charge) + ", Percentage: " + render(b.percentage);
      assert text[0] != Undefined[0];
      text
  }
}
