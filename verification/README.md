# mav_tools dashboard — a Dafny model

`scripts/mav_tools.py` is a terminal dashboard for a MAVROS-connected vehicle.
Two ROS subscription callbacks store the last vehicle-state and battery-state
messages in globals. Three polling widgets turn the stored state into label
text. Two rows of buttons each issue one service request per press:
set-mode for Manual/Stabilized/Offboard/Hold, and arming, takeoff or land for
Arm/Disarm/Takeoff/Land. The pressed button is coloured `success` or `error`
from the reply, and a timer later puts it back to `default`.

The model has four modules:

- `Wrappers` (`wrappers.dfy`): `Option` and `Result`.
- `Telemetry` (`telemetry.dfy`): the two message types and the three label
  functions. A global that no callback has assigned yet is `None`.
- `Commands` (`commands.dfy`): the eight buttons and their widget ids, and
  each row's if/elif chain (`Lookup`). It also holds the request each button
  issues (`RequestFor`), the bus as four service functions (`Bus`, `Call`),
  and the variant a reply selects (`Feedback`).
- `Dashboard` (`dashboard.dfy`): the whole state as a value (`Dash`), the
  events (a telemetry message, a press, a revert timer firing), and the
  transition function `Step` with its fold `Run`. Lemmas state the
  properties. The class `Dashboard.Panel` holds the same state in fields
  that its methods update in place. The constructor is proved to give
  `Initial`, `HandleButtonClick` to give `Clicked`, and each event method
  (the two callbacks, the two press handlers and `ChangeVariant`) to do what
  `Step` does for its event.

Revert timers are not clocked. Each press adds an entry to `pending`, a
multiset with one element per timer started and not yet fired. A
`RevertFired(b)` event is one such timer firing. `Step` also accepts
`RevertFired(b)` when no timer for `b` is pending. On a consistent dashboard
such an event changes nothing, because `b` already shows `default`
(`UnscheduledRevertChangesNothing`). The invariant `Consistent`
says that every button not showing `default` still has a timer pending. So
once every timer has fired, every button is back to `default`.

A press whose id matches none of its row's branches leaves `resp` unassigned.
The following `handle_button_click(resp, …)` then raises. The model gives
`Failure(UnboundResponse(id))`, changes nothing and sends no request.

## Model

| member | source | states |
|---|---|---|
| Telemetry.FlightModeLabel | scripts/mav_tools.py:82-87 | the label is the stored state's mode, or "Undefined" while no state message has arrived |
| Telemetry.ArmingLabel | scripts/mav_tools.py:101-109 | "Armed" exactly when the stored state says armed, "Disarmed" exactly when it says not armed, "Undefined" exactly when no state exists |
| Telemetry.BatteryLabel | scripts/mav_tools.py:59-68 | the battery label is "Undefined" exactly when no battery message has arrived |
| Commands.Lookup | scripts/mav_tools.py:125-168 | a row's handler finds a button only by that button's own id and only among its own row; when it finds none, no button of the row has that id |
| Commands.LookupFindsEveryButton | scripts/mav_tools.py:125-175 | every composed button is found by its id in its own row and in no other row |
| Commands.RequestFor | scripts/mav_tools.py:128-166 | a press issues a set-mode request exactly when the button is in the flight-mode row |
| Commands.RequestsIdentifyButtons | scripts/mav_tools.py:128-166 | distinct buttons issue distinct requests, and the request table is inverted exactly by a separately written table from requests back to buttons |
| Commands.ModeIsUpperCasedId | scripts/mav_tools.py:128-135 | each flight-mode button requests the mode named by its id in upper case (MANUAL, STABILIZED, OFFBOARD, HOLD) |
| Commands.Call | scripts/mav_tools.py:215-218 | the set-mode service answers with a `mode_sent` reply, the arming, takeoff and land services with a `success` reply |
| Commands.Feedback | scripts/mav_tools.py:26-37 | the pressed button never stays "default": it is "success" exactly when `mode_sent` (mode row) or `success` (arming row) is true, else "error" |
| Commands.FeedbackFollowsService | scripts/mav_tools.py:125-168 | a button turns "success" exactly when the service its request reaches replies with a true flag |
| Dashboard.Initial | scripts/mav_tools.py:139-175 | at start-up no telemetry is stored, all eight buttons (with the widget ids and rows given by `Commands.Id` and `Commands.GroupOf`) show "default" and no timer runs |
| Dashboard.Clicked | scripts/mav_tools.py:26-39 | a handled press sets only the pressed button to the reply's variant and starts one timer for it; telemetry is untouched |
| Dashboard.Reverted | scripts/mav_tools.py:18-24 | a timer firing sets its button to "default" whatever it showed, leaves every other button alone, and removes that one timer |
| Dashboard.RevertIsIdempotent | scripts/mav_tools.py:23-24 | a second revert of the same button changes no variant |
| Dashboard.Step | scripts/mav_tools.py:18-168 | one event: a press fails with an unbound response exactly when its id is unknown; each telemetry callback replaces only its own stored state; presses and timers leave telemetry alone; a handled press starts one timer, sets the pressed button to the reply's variant and changes no other button; a timer firing sets its button to "default", keeps every other button and removes one pending timer |
| Dashboard.Run | scripts/mav_tools.py:18-168 | a sequence of events succeeds exactly when every press in it has a known id |
| Dashboard.UnscheduledRevertChangesNothing | scripts/mav_tools.py:18-24 | on a consistent dashboard, a revert for a button with no pending timer changes nothing |
| Dashboard.StepKeepsConsistent | scripts/mav_tools.py:18-49 | every event keeps all buttons shown and keeps a pending timer for every button not showing "default" |
| Dashboard.RunKeepsConsistent | scripts/mav_tools.py:18-49 | any sequence of events keeps that invariant |
| Dashboard.AllDefaultOnceDrained | scripts/mav_tools.py:18-39 | with the invariant and no timer pending, every button shows "default", its variant at start-up |
| Dashboard.AllDefaultAfterEveryRevert | scripts/mav_tools.py:18-39 | after any events from start-up, once every scheduled revert has fired, all buttons are back to their initial "default" |
| Dashboard.RunKeepsLatestTelemetry | scripts/mav_tools.py:41-49 | last write wins: the stored vehicle state is the last vehicle-state message delivered and the stored battery state the last battery message, whatever else happened in between |
| Dashboard.LabelsFollowLastMessage | scripts/mav_tools.py:59-109 | after any events from start-up the labels show the last message's mode and arming state, "Undefined" before any state message, and the battery label is "Undefined" exactly when no battery message arrived |
| Dashboard.PressThenRevertRestores | scripts/mav_tools.py:18-39 | when the pressed button showed "default" before the press, a recognised press shows the reply's outcome on that button alone, and its revert firing restores the dashboard exactly (on a button already showing "success" or "error" the revert leaves "default", not the earlier variant; see `Reverted`) |
| Dashboard.RevertUndoesClick | scripts/mav_tools.py:18-39 | reverting a press on a button that showed "default" gives back the state before the press |
| Dashboard.Panel.constructor | scripts/mav_tools.py:139-175 | the panel starts in the initial dashboard state |
| Dashboard.Panel.OnState | scripts/mav_tools.py:41-44 | state_callback overwrites the stored vehicle state and touches nothing else |
| Dashboard.Panel.OnBattery | scripts/mav_tools.py:46-49 | battery_callback overwrites the stored battery state and touches nothing else |
| Dashboard.Panel.HandleButtonClick | scripts/mav_tools.py:26-39 | the pressed button becomes "success" or "error" from the relevant reply flag and a revert timer is started; the invariant is kept |
| Dashboard.Panel.OnFlightModesPressed | scripts/mav_tools.py:125-137 | a recognised id issues its set-mode request and updates the state as a press event does; an unknown id issues nothing, changes nothing and fails |
| Dashboard.Panel.OnArmingPressed | scripts/mav_tools.py:155-168 | a recognised id issues its arming, takeoff or land request and updates the state as a press event does; an unknown id issues nothing, changes nothing and fails |
| Dashboard.Panel.ChangeVariant | scripts/mav_tools.py:23-24 | a timer firing sets its button back to "default", as a revert event does |

## Left out

- Widget layout and composition (`compose`), the CSS file and the dark-mode key binding: these are user-interface structure. Only the eight buttons and their ids are modelled.
- The 1/60 s polling interval and the reactive redraw: the labels are modelled as functions of the stored state, so a redraw that happens only on change makes no difference here.
- The 1.5 s delay of the revert timer and the timer thread: a timer is an entry in `pending`, and its firing is an explicit event that may come at any point after the press.
- Concurrency between ROS callback threads, timer threads and the UI loop: events are applied one at a time.
- Telemetry.BatteryLabel: the number format (two decimals, thousands separators) is a parameter `render`. Only the fixed text around the numbers and the present-versus-"Undefined" decision are modelled.
- The battery readings are float32 in the message but `real` here, so NaN (an unmeasured reading, which the source formats as "nan") is not represented; the present-versus-"Undefined" decision does not depend on it.
- Message fields other than `mode`, `armed` and the four battery readings, and the request fields other than the mode, the boolean and the altitude.
- Altitudes are whole numbers (the source passes the literals 1 and 0 to a float field).
- ROS node setup, subscriptions, service proxies, the namespace argument and transport failures of a service call: the bus is a parameter (`Commands.Bus`) whose services always reply.
