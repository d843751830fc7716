# GM car interface — a Dafny model

This project models the GM car interface of an openpilot fork
(`selfdrive/car/gm/interface.py`): how the interface turns a vehicle
fingerprint into the car parameters it decides, which steering feed-forward it
hands the lateral controller, and how each control cycle derives button events
and speed/standstill events from the decoded car state.

Modules (one per source file or collaborator):

- `GmInterface` — the interface itself: `BUTTONS_DICT`, the per-cycle `_update`
  (`Update`, specified by `ButtonTransition` and `ThresholdEvents`), `get_params`
  (`GetParams`), `get_steer_feedforward_function` and the two fitted
  feed-forward formulas.
- `GmValues` — the `CAR` fingerprints and `CruiseButtons` codes of
  `selfdrive/car/gm/values.py`, as enumerations.
- `Cereal` — the fields of the `car.CarState` and `car.CarEvent` messages that
  the interface reads or writes. The `car.CarParams` fields the interface
  decides are the datatype `CarParams` in `GmInterface`.
- `CarHelpers` — `create_button_event` of `selfdrive/car`, with the behaviour
  the interface relies on (stated as an assumption below).
- `ControlsEvents` — the `Events` list object: `add` appends one name,
  `extend` appends several.
- `Conversions` — `CV.MPH_TO_MS`, taken as 1.609344 / 3.6.
- `Wrappers` — `Option`.

How the model is built:

- `get_params` writes a baseline and then overrides it section by section. The
  model keeps that chain of writes in `GetParams`, one local variable per field
  of `ret`, each assigned where the source assigns it; the method's contract
  states the value each field ends with ("last write wins") for every
  candidate. The standard parameters from `get_std_params` are the argument
  `std`; `get_std_params` sets their `carFingerprint` to the candidate, so
  `GetParams` requires exactly that. The `NO_ASCM` set of `values.py` is the
  argument `noAscm`. The fingerprint maps each bus to the set of CAN addresses
  seen on it.
- `_update` is the method `Update`. It keeps the source's steps: the button
  event is built, its type rewritten, and the cycle's `Events` object filled by
  `add` and `extend` calls. The decoded state from `CS.update` and the two
  cruise-button codes the car state keeps are arguments.
  `create_common_events` and `create_button_enable_events` are function
  arguments: the contract says where their results go, not what they contain.
- `create_button_event` is assumed to behave as the shared helper does: a code
  other than `UNPRESS` is a press of that button, `UNPRESS` is a release of the
  previous button, and a button missing from the dictionary gives `unknown`.
- `get_steer_feedforward_function` returns a tag (`FeedforwardModel`) naming
  the function it would return. The two fitted formulas are modelled over
  exact reals.

Two details of `_update` that the contracts keep:

- The cycle's event order is: common events, then the three threshold events,
  then the button-enable events (`selfdrive/car/gm/interface.py:398-409`). The
  button event itself goes into `buttonEvents`, not into the event list.
- A resume press is rewritten to `unknown` when cruise is enabled and the car
  is at a standstill (`ret.standstill`, `selfdrive/car/gm/interface.py:371`).
  `resumeRequired` is keyed on the cruise module's own standstill flag
  (`cruiseState.standstill`, `selfdrive/car/gm/interface.py:403`).

## Model

| member | source | states |
|---|---|---|
| `GmInterface.ButtonsDictClassification` | selfdrive/car/gm/interface.py:13-14 | A press, or the release of the previous button, is classified as accelCruise, decelCruise, altButton3 or cancel exactly when the button is RES_ACCEL, DECEL_SET, MAIN or CANCEL, and as unknown for every other code |
| `CarHelpers.CreateButtonEvent` | selfdrive/car/gm/interface.py:368 | The event is a press exactly when the current code is not UNPRESS; the button involved is the current code on a press and the previous one on a release; its type is that button's dictionary entry when it has one, and a type other than unknown only ever comes from that entry |
| `GmInterface.ButtonTransition` | selfdrive/car/gm/interface.py:367-374 | There is no button event exactly when the code is unchanged or the previous code is INIT; otherwise the event is the classified one, and its type changes, to unknown, exactly when it is a resume while cruise is enabled at standstill; no resume is ever emitted at standstill with cruise enabled |
| `GmInterface.ThresholdEvents` | selfdrive/car/gm/interface.py:401-406 | belowEngageSpeed is present iff vEgo < minEnableSpeed, resumeRequired iff the cruise standstill flag is set, belowSteerSpeed iff vEgo < minSteerSpeed; nothing else, each at most once, in that order |
| `GmInterface.AddThresholdEvents` | selfdrive/car/gm/interface.py:401-406 | The three checks append exactly ThresholdEvents to the cycle's event list and change nothing else in it |
| `GmInterface.Update` | selfdrive/car/gm/interface.py:362-413 | buttonEvents is left as decoded when ButtonTransition gives nothing and is otherwise exactly that one event; the event list is the common events, then ThresholdEvents, then the button-enable events of the final buttonEvents; no other field of the car state changes |
| `ControlsEvents.Events.constructor` | selfdrive/car/gm/interface.py:398-399 | The cycle's event list starts as the common events |
| `ControlsEvents.Events.Add` | selfdrive/car/gm/interface.py:402 | add appends one event name at the end |
| `ControlsEvents.Events.Extend` | selfdrive/car/gm/interface.py:409 | extend appends the button-enable events at the end, in order |
| `GmInterface.GetParams` | selfdrive/car/gm/interface.py:45-359 | After all overrides: dashcamOnly iff the candidate is CADILLAC_ATS, HOLDEN_ASTRA, MALIBU or BUICK_REGAL; enableGasInterceptor iff 0x201 is on bus 0; pcmCruise iff TAHOE_NR, SILVERADO_NR, SUBURBAN or BOLT_EUV; openpilotLongitudinalControl iff not TAHOE_NR, SUBURBAN or BOLT_EUV and (not NO_ASCM or a pedal is fitted); radarOffCan iff NO_ASCM or one of those three; minEnableSpeed, minSteerSpeed and steerActuatorDelay as resolved per candidate; torque lateral tuning iff TAHOE_NR, SILVERADO_NR or SUBURBAN; stoppingControl set by a pedal on VOLT, VOLT_NR or BOLT_NR |
| `GmInterface.EngageSpeedBlocksOnlyInterfaceEngagedCars` | selfdrive/car/gm/interface.py:401-402 | With the resolved minEnableSpeed and any vEgo >= 0, belowEngageSpeed is raised iff the candidate is not one of ACADIA, ACADIA_NR, ESCALADE_ESV, BOLT_NR, TAHOE_NR, SILVERADO_NR, SUBURBAN, BOLT_EUV and vEgo is below 18 mph; so never for those eight |
| `GmInterface.TrucksNeverBelowSteerSpeed` | selfdrive/car/gm/interface.py:405-406 | With the resolved minSteerSpeed of -1 mph, TAHOE_NR, SILVERADO_NR and SUBURBAN never get belowSteerSpeed at any vEgo >= 0 |
| `GmInterface.Sigmoid` | selfdrive/car/gm/interface.py:27 | x / (1 + abs(x)) lies strictly between -1 and 1 and has the sign of x |
| `GmInterface.SigmoidOdd` | selfdrive/car/gm/interface.py:27 | The sigmoid is an odd function |
| `GmInterface.SigmoidFeedforwardOdd` | selfdrive/car/gm/interface.py:26-28 | Negating the desired angle negates the feed-forward, at any speed |
| `GmInterface.SigmoidFeedforwardSaturates` | selfdrive/car/gm/interface.py:26-28 | The feed-forward's magnitude never exceeds abs(b (vEgo + c)) and stays strictly below it whenever that is non-zero |
| `GmInterface.GmFeedforwardsOddAndBounded` | selfdrive/car/gm/interface.py:24-34 | The Volt and Acadia feed-forwards are odd in the angle and, for vEgo >= 0, strictly below 0.10006696 (vEgo + 3.12485927) and 0.04689655 (vEgo + 10.028217) in magnitude |
| `GmInterface.SigmoidMonotonic` | selfdrive/car/gm/interface.py:27 | The sigmoid never decreases: a larger scaled angle never gives a smaller value |
| `GmInterface.SigmoidFeedforwardMonotonic` | selfdrive/car/gm/interface.py:26-28 | With positive gains a, b and a positive speed term vEgo + c, a larger desired angle never gives a smaller feed-forward |
| `GmInterface.GmFeedforwardsMonotonic` | selfdrive/car/gm/interface.py:24-34 | At any vEgo >= 0 the Volt and Acadia feed-forwards never decrease as the desired angle grows |
| `GmInterface.SteerFeedforwardFunction` | selfdrive/car/gm/interface.py:36-42 | The Volt model iff the fingerprint is exactly VOLT, the Acadia model iff it is exactly ACADIA, the default otherwise (VOLT_NR and ACADIA_NR included) |

## Left out

- Floating point: speeds, thresholds and the feed-forward formulas are exact reals. Rounding, NaN and infinities are not modelled.
- The default feed-forward of the base interface is not part of this model. `SteerFeedforwardFunction` only names it.
- `get_pid_accel_limits` is not modelled. It only reads `CarControllerParams`, which is not part of this model.
- `safetyConfigs` is not modelled. It comes from a call into code that is not part of this model.
- Mass, wheelbase, steer ratio, centre of gravity, tire stiffness, rotational inertia, `steerRatioRear`, and the PID, torque and longitudinal tuning values are not modelled. These are float constants and float arithmetic, and `scale_rot_inertia` and `scale_tire_stiffness` are outside this model. Per-candidate sections that write only these fields are empty branches.
- `steerLimitTimer` and `radarTimeStep` are not modelled. Each is a constant write with no override logic.
- `stoppingDecelRate`, `stopAccel`, `vEgoStopping` and `vEgoStarting` are not modelled. They are written only in the pedal sections of VOLT/VOLT_NR and BOLT_NR, where they override the standard values with float constants. From those sections only `stoppingControl` is kept.
- Bus decoding (`CS.update`), `steeringRateLimited`, `apply` and the actuator commands are not modelled. They are hardware I/O. The decoded car state is an input.
- `CS.update` shifts the current cruise-button code into `prev_cruise_buttons` each cycle. That code is not part of this model, so the pair of codes is an input of `Update`. The model therefore proves no property that spans several cycles.
- `create_common_events` and `create_button_enable_events` are function arguments of `Update`. Their contents, including the gear check against the extra gears, are not modelled.
- `events.to_msg()` serialisation is not modelled: the event list itself is stored in the car state.
- The numeric values of `CruiseButtons` and the contents of `NO_ASCM` are not modelled, because `values.py` is not part of this model. Button codes are an enumeration, and `NO_ASCM` is an argument of `GetParams`.
- `Unlisted(n)` and `Other(s)` stand only for button codes and fingerprints other than the named ones. The numeric codes are not modelled, so nothing stops `Unlisted(2)` from being written although 2 is `RES_ACCEL` in `values.py`; such a value is outside what the model describes.
- `GetParams` requires bus 0 in the fingerprint. The source reads `fingerprint[0]` and fails with a key error when bus 0 is absent; `gen_empty_fingerprint` always provides it, so that error path is not modelled.
- CAN message lengths in the fingerprint are not modelled. Only the presence of an address is used.
- Commented-out code in the interface is not behaviour and is not modelled.
