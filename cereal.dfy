/**
 * The parts of the car.CarState, car.CarEvent and car.CarParams messages
 * that the GM interface reads or writes.
 */
module Cereal {

  /** car.CarState.ButtonEvent.Type, restricted to the values the GM interface uses. */
  datatype ButtonType = Unknown | AccelCruise | DecelCruise | Cancel | AltButton3

  /** car.CarState.ButtonEvent: a press or a release of one button. */
  datatype ButtonEvent = ButtonEvent(pressed: bool, buttonType: ButtonType)

  /** car.CarEvent.EventName: the three this interface adds itself, and any other by name. */
  datatype EventName =
    | BelowEngageSpeed
    | ResumeRequired
    | BelowSteerSpeed
    | OtherEvent(name: string)

  /** car.CarState.GearShifter. */
  datatype GearShifter =
    Unknown | Park | Drive | Neutral | Reverse | Sport | Low | Brake | Eco | Manumatic

  /** car.CarState.CruiseState. */
  datatype CruiseState = CruiseState(enabled: bool, standstill: bool)

  /** car.CarState: what the bus decoder produced plus what the interface adds this cycle. */
  datatype CarState = CarState(
    vEgo: real,
    standstill: bool,
    gearShifter: GearShifter,
    cruiseState: CruiseState,
    buttonEvents: seq<ButtonEvent>,
    events: seq<EventName>)

  /** Which lateral controller the tuning union holds. */
  datatype LateralTuning = Pid | Torque
}
