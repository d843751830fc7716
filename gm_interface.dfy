/**
 * The GM car interface (selfdrive/car/gm/interface.py): per-vehicle parameter
 * resolution, selection of the steering feed-forward model, and the per-cycle
 * derivation of button and threshold events.
 */
module GmInterface {
  import opened Conversions
  import opened Cereal
  import opened GmValues
  import opened CarHelpers
  import opened ControlsEvents
  import opened Wrappers

  // ---------------------------------------------------------------------------
  // Button classification
  // ---------------------------------------------------------------------------

  /** BUTTONS_DICT: the semantic type of each ACC button code. */
  const ButtonsDict: map<CruiseButton, ButtonType> :=
    map[ResAccel := AccelCruise, DecelSet := DecelCruise,
        Main := AltButton3, CruiseButton.Cancel := ButtonType.Cancel]

  /** The dictionary classifies a press or release by the button involved, and only the four ACC buttons. */
  lemma ButtonsDictClassification(cur: CruiseButton, prev: CruiseButton)
    ensures var be := CreateButtonEvent(cur, prev, ButtonsDict, Unpress);
      var but := if cur != Unpress then cur else prev;
      && (be.buttonType == AccelCruise <==> but == ResAccel)
      && (be.buttonType == DecelCruise <==> but == DecelSet)
      && (be.buttonType == AltButton3 <==> but == Main)
      && (be.buttonType == ButtonType.Cancel <==> but == CruiseButton.Cancel)
      && (be.buttonType == ButtonType.Unknown <==> but !in {ResAccel, DecelSet, Main, CruiseButton.Cancel})
  {
  }

  /** The two ACC button codes the interface keeps from the bus decoder: this cycle's and the previous one. */
  datatype CruiseButtonState = CruiseButtonState(cruiseButtons: CruiseButton, prevCruiseButtons: CruiseButton)

  /**
   * The button event of one cycle, if any: a transition of the ACC button code
   * whose previous value is a real reading, classified through BUTTONS_DICT,
   * with a resume turned into unknown while cruise is engaged at standstill.
   */
  function ButtonTransition(cs: CruiseButtonState, cruiseEnabled: bool, standstill: bool): (r: Option<ButtonEvent>)
    // Debounce: an event exactly when the code changed and the previous code is not Init.
    ensures r.None? <==> cs.cruiseButtons == cs.prevCruiseButtons || cs.prevCruiseButtons == Init
    // Otherwise the event is the classified one, except that its type is changed
    // exactly when it is a resume while engaged at standstill, and then to unknown.
    ensures r.Some? ==>
      var be := CreateButtonEvent(cs.cruiseButtons, cs.prevCruiseButtons, ButtonsDict, Unpress);
      && r.value.pressed == be.pressed
      && (r.value.buttonType != be.buttonType <==>
            be.buttonType == AccelCruise && cruiseEnabled && standstill)
      && (r.value.buttonType != be.buttonType ==> r.value.buttonType == ButtonType.Unknown)
    // No resume ever leaves the interface while cruise is engaged at standstill.
    ensures r.Some? && cruiseEnabled && standstill ==> r.value.buttonType != AccelCruise
  {
    if cs.cruiseButtons != cs.prevCruiseButtons && cs.prevCruiseButtons != Init then
      var be := CreateButtonEvent(cs.cruiseButtons, cs.prevCruiseButtons, ButtonsDict, Unpress);
      Some(if be.buttonType == AccelCruise && cruiseEnabled && standstill
           then be.(buttonType := ButtonType.Unknown) else be)
    else
      None
  }

  // ---------------------------------------------------------------------------
  // Threshold events
  // ---------------------------------------------------------------------------

  /** Position of a threshold event in the order the interface adds them. */
  function ThresholdRank(e: EventName): nat
  {
    match e
    case BelowEngageSpeed => 0
    case ResumeRequired => 1
    case BelowSteerSpeed => 2
    case OtherEvent(_) => 3
  }

  /**
   * The events the interface adds after the common ones: below the engage
   * speed, resume required while cruise is at standstill, below the steer speed.
   */
  function ThresholdEvents(vEgo: real, cruiseStandstill: bool,
                           minEnableSpeed: real, minSteerSpeed: real): (r: seq<EventName>)
    ensures BelowEngageSpeed in r <==> vEgo < minEnableSpeed
    ensures ResumeRequired in r <==> cruiseStandstill
    ensures BelowSteerSpeed in r <==> vEgo < minSteerSpeed
    // Only these three, each at most once, in the fixed order engage, resume, steer.
    ensures forall i :: 0 <= i < |r| ==> !r[i].OtherEvent?
    ensures forall i, j :: 0 <= i < j < |r| ==> ThresholdRank(r[i]) < ThresholdRank(r[j])
  {
    (if vEgo < minEnableSpeed then [BelowEngageSpeed] else [])
    + (if cruiseStandstill then [ResumeRequired] else [])
    + (if vEgo < minSteerSpeed then [BelowSteerSpeed] else [])
  }

  /** The three threshold checks of _update, adding to the cycle's event list in order. */
  method AddThresholdEvents(events: Events, vEgo: real, cruiseStandstill: bool,
                            minEnableSpeed: real, minSteerSpeed: real)
    modifies events
    ensures events.events == old(events.events) + ThresholdEvents(vEgo, cruiseStandstill, minEnableSpeed, minSteerSpeed)
  {
    // The threshold events added so far.
    ghost var added: seq<EventName> := [];
    if vEgo < minEnableSpeed {
      events.Add(BelowEngageSpeed);
      added := added + [BelowEngageSpeed];
    }
    if cruiseStandstill {
      events.Add(ResumeRequired);
      added := added + [ResumeRequired];
    }
    if vEgo < minSteerSpeed {
      events.Add(BelowSteerSpeed);
      added := added + [BelowSteerSpeed];
    }
    assert events.events == old(events.events) + added;
  }

  /** The gears create_common_events accepts besides drive for GM cars. */
  const ExtraGears: seq<GearShifter> := [Sport, Low, Eco, Manumatic]

  /**
   * _update after the bus decoder has produced `decoded`: set the button event,
   * then collect the common events, the threshold events and the button-enable
   * events, in that order. The two event producers shared with other car
   * interfaces are parameters.
   */
  method Update(cp: CarParams, cs: CruiseButtonState, decoded: CarState,
                commonEvents: (CarState, seq<GearShifter>, bool) -> seq<EventName>,
                buttonEnableEvents: (seq<ButtonEvent>, bool) -> seq<EventName>)
    returns (ret: CarState)
    ensures ret.buttonEvents ==
      match ButtonTransition(cs, decoded.cruiseState.enabled, decoded.standstill)
      case None => decoded.buttonEvents
      case Some(be) => [be]
    ensures ret.events ==
      commonEvents(decoded.(buttonEvents := ret.buttonEvents), ExtraGears, cp.pcmCruise)
      + ThresholdEvents(decoded.vEgo, decoded.cruiseState.standstill, cp.minEnableSpeed, cp.minSteerSpeed)
      + buttonEnableEvents(ret.buttonEvents, cp.pcmCruise)
    // Nothing else of the decoded state changes.
    ensures ret == decoded.(buttonEvents := ret.buttonEvents, events := ret.events)
  {
    ret := decoded;
    if cs.cruiseButtons != cs.prevCruiseButtons && cs.prevCruiseButtons != Init {
      var be := CreateButtonEvent(cs.cruiseButtons, cs.prevCruiseButtons, ButtonsDict, Unpress);
      // Resuming from a stop must not be read as a speed adjustment.
      if be.buttonType == AccelCruise && (ret.cruiseState.enabled && ret.standstill) {
        be := be.(buttonType := ButtonType.Unknown);
      }
      ret := ret.(buttonEvents := [be]);
    }
    var events := new Events(commonEvents(ret, ExtraGears, cp.pcmCruise));
    AddThresholdEvents(events, ret.vEgo, ret.cruiseState.standstill, cp.minEnableSpeed, cp.minSteerSpeed);
    events.Extend(buttonEnableEvents(ret.buttonEvents, cp.pcmCruise));
    ret := ret.(events := events.events);
  }

  // ---------------------------------------------------------------------------
  // Parameters
  // ---------------------------------------------------------------------------

  /** The fields of car.CarParams that the GM interface decides. */
  datatype CarParams = CarParams(
    carFingerprint: Car,
    carName: string,
    alternativeExperience: int,
    pcmCruise: bool,
    openpilotLongitudinalControl: bool,
    radarOffCan: bool,
    dashcamOnly: bool,
    enableGasInterceptor: bool,
    minSteerSpeed: real,
    minEnableSpeed: real,
    steerActuatorDelay: real,
    lateralTuning: LateralTuning,
    stoppingControl: bool)

  /** Bus fingerprint: for each bus, the CAN addresses seen on it. */
  type Fingerprint = map<int, set<int>>

  /** The comma pedal (gas interceptor) announces itself with message 0x201 on bus 0. */
  predicate HasGasInterceptor(fingerprint: Fingerprint)
    requires 0 in fingerprint
  {
    0x201 in fingerprint[0]
  }

  /** The candidates whose engagement is decided by the car's own cruise module. */
  const PcmEngageCars: set<Car> :=
    {Acadia, AcadiaNr, EscaladeEsv, BoltNr, TahoeNr, SilveradoNr, Suburban, BoltEuv}

  /** Resolved minEnableSpeed: -1 for the PCM-engaged candidates, 18 mph for the rest. */
  function MinEnableSpeedFor(candidate: Car): real
  {
    if candidate in PcmEngageCars then -1.0 else 18.0 * MphToMs
  }

  /** Resolved minSteerSpeed: 5 mph for the Bolts, -1 mph for the big trucks, 7 mph otherwise. */
  function MinSteerSpeedFor(candidate: Car): real
  {
    if candidate in {BoltNr, BoltEuv} then 5.0 * MphToMs
    else if candidate in {TahoeNr, SilveradoNr, Suburban} then -1.0 * MphToMs
    else 7.0 * MphToMs
  }

  /** Resolved steerActuatorDelay. */
  function SteerActuatorDelayFor(candidate: Car): real
  {
    match candidate
    case Volt | VoltNr | TahoeNr => 0.2
    case BoltNr | BoltEuv => 0.0
    case SilveradoNr => 0.11
    case Suburban => 0.075
    case _ => 0.1
  }

  /**
   * get_params: start from the standard parameters, write the GM baseline, then
   * let the NO_ASCM, gas-interceptor and per-candidate sections override it.
   * `noAscm` is the NO_ASCM set of values.py. The standard parameters carry the
   * candidate as their fingerprint, as get_std_params sets it. Bus 0 must be in
   * the fingerprint, as it always is in one made by gen_empty_fingerprint.
   */
  method GetParams(std: CarParams, candidate: Car, fingerprint: Fingerprint, noAscm: set<Car>)
    returns (cp: CarParams)
    requires 0 in fingerprint
    requires std.carFingerprint == candidate
    ensures cp.carFingerprint == candidate
    ensures cp.carName == "gm" && cp.alternativeExperience == 1
    ensures cp.dashcamOnly <==> candidate in {CadillacAts, HoldenAstra, Malibu, BuickRegal}
    ensures cp.enableGasInterceptor <==> HasGasInterceptor(fingerprint)
    ensures cp.pcmCruise <==> candidate in {TahoeNr, SilveradoNr, Suburban, BoltEuv}
    // Longitudinal control: on, off without an ASCM unless a pedal is fitted, and
    // off for the stock-ACC candidates whatever the pedal.
    ensures cp.openpilotLongitudinalControl <==>
      candidate !in {TahoeNr, Suburban, BoltEuv} && (candidate !in noAscm || HasGasInterceptor(fingerprint))
    ensures cp.radarOffCan <==> candidate in noAscm || candidate in {TahoeNr, Suburban, BoltEuv}
    ensures cp.minEnableSpeed == MinEnableSpeedFor(candidate)
    ensures cp.minSteerSpeed == MinSteerSpeedFor(candidate)
    ensures cp.steerActuatorDelay == SteerActuatorDelayFor(candidate)
    ensures cp.lateralTuning == (if candidate in {TahoeNr, SilveradoNr, Suburban} then Torque else Pid)
    ensures cp.stoppingControl ==
      ((HasGasInterceptor(fingerprint) && candidate in {Volt, VoltNr, BoltNr}) || std.stoppingControl)
  {
    // Each field of `ret` is a local variable; later writes override earlier ones.
    // stoppingControl keeps its get_std_params value unless a section writes it.
    var stoppingControl := std.stoppingControl;
    var carName := "gm";
    var alternativeExperience := 1;
    var pcmCruise := false;
    var openpilotLongitudinalControl := true;
    var radarOffCan := false;
    var dashcamOnly := candidate in {CadillacAts, HoldenAstra, Malibu, BuickRegal};

    // LKAS only: no radar, no longitudinal control.
    if candidate in noAscm {
      openpilotLongitudinalControl := false;
      radarOffCan := true;
    }

    var minSteerSpeed := 7.0 * MphToMs;
    var lateralTuning := Pid;
    var steerActuatorDelay := 0.1;
    var enableGasInterceptor := 0x201 in fingerprint[0];

    if enableGasInterceptor {
      openpilotLongitudinalControl := true;
    }

    var minEnableSpeed := 18.0 * MphToMs;

    if candidate == Volt || candidate == VoltNr {
      steerActuatorDelay := 0.2;
      if enableGasInterceptor {
        stoppingControl := true;
      }
    } else if candidate == Malibu || candidate == MalibuNr {
      // mass, wheelbase, steer ratio and centre of gravity only
    } else if candidate == HoldenAstra {
      // mass, wheelbase, steer ratio and centre of gravity only
    } else if candidate == Acadia || candidate == AcadiaNr {
      minEnableSpeed := -1.0;
    } else if candidate == BuickRegal {
      // mass, wheelbase, steer ratio and centre of gravity only
    } else if candidate == CadillacAts {
      // mass, wheelbase, steer ratio and centre of gravity only
    } else if candidate == EscaladeEsv {
      minEnableSpeed := -1.0;
    } else if candidate == BoltNr {
      minEnableSpeed := -1.0;
      minSteerSpeed := 5.0 * MphToMs;
      steerActuatorDelay := 0.0;
      if enableGasInterceptor {
        stoppingControl := true;
      }
    } else if candidate == EquinoxNr {
      minEnableSpeed := 18.0 * MphToMs;
    } else if candidate == TahoeNr {
      minEnableSpeed := -1.0;
      minSteerSpeed := -1.0 * MphToMs;
      steerActuatorDelay := 0.2;
      pcmCruise := true;
      openpilotLongitudinalControl := false;
      radarOffCan := true;
      lateralTuning := Torque;
    } else if candidate == SilveradoNr {
      minEnableSpeed := -1.0;
      minSteerSpeed := -1.0 * MphToMs;
      pcmCruise := true;
      steerActuatorDelay := 0.11;
      lateralTuning := Torque;
    } else if candidate == Suburban {
      minEnableSpeed := -1.0;
      minSteerSpeed := -1.0 * MphToMs;
      steerActuatorDelay := 0.075;
      pcmCruise := true;
      openpilotLongitudinalControl := false;
      radarOffCan := true;
      lateralTuning := Torque;
    } else if candidate == BoltEuv {
      minEnableSpeed := -1.0;
      minSteerSpeed := 5.0 * MphToMs;
      steerActuatorDelay := 0.0;
      pcmCruise := true;
      openpilotLongitudinalControl := false;
      radarOffCan := true;
    }

    cp := std.(carName := carName, alternativeExperience := alternativeExperience,
               pcmCruise := pcmCruise, openpilotLongitudinalControl := openpilotLongitudinalControl,
               radarOffCan := radarOffCan, dashcamOnly := dashcamOnly,
               enableGasInterceptor := enableGasInterceptor,
               minSteerSpeed := minSteerSpeed, minEnableSpeed := minEnableSpeed,
               steerActuatorDelay := steerActuatorDelay, lateralTuning := lateralTuning,
               stoppingControl := stoppingControl);
  }

  /**
   * With the resolved engage speed, belowEngageSpeed is raised at a non-negative
   * speed exactly for the candidates that engage through the interface, and only
   * below 18 mph: never for the PCM-engaged ones.
   */
  lemma EngageSpeedBlocksOnlyInterfaceEngagedCars(
    candidate: Car, vEgo: real, cruiseStandstill: bool, minSteerSpeed: real)
    requires vEgo >= 0.0
    ensures BelowEngageSpeed in ThresholdEvents(vEgo, cruiseStandstill, MinEnableSpeedFor(candidate), minSteerSpeed)
      <==> candidate !in PcmEngageCars && vEgo < 18.0 * MphToMs
  {
  }

  /** The trucks steer at any speed: belowSteerSpeed is never raised for them at a non-negative speed. */
  lemma TrucksNeverBelowSteerSpeed(
    candidate: Car, vEgo: real, cruiseStandstill: bool, minEnableSpeed: real)
    requires candidate in {TahoeNr, SilveradoNr, Suburban}
    requires vEgo >= 0.0
    ensures BelowSteerSpeed !in ThresholdEvents(vEgo, cruiseStandstill, minEnableSpeed, MinSteerSpeedFor(candidate))
  {
  }

  // ---------------------------------------------------------------------------
  // Steering feed-forward
  // ---------------------------------------------------------------------------

  function Abs(x: real): real
  {
    if x < 0.0 then -x else x
  }

  /** The bounded odd transform x / (1 + |x|). */
  function Sigmoid(x: real): (s: real)
    ensures -1.0 < s < 1.0
    ensures (s < 0.0 <==> x < 0.0) && (s == 0.0 <==> x == 0.0)
  {
    x / (1.0 + Abs(x))
  }

  /** The fitted shape shared by both GM feed-forwards: b * sigmoid(a * angle) * (vEgo + c). */
  function SigmoidFeedforward(a: real, b: real, c: real, desiredAngle: real, vEgo: real): real
  {
    b * Sigmoid(desiredAngle * a) * (vEgo + c)
  }

  /** get_steer_feedforward_volt. */
  function SteerFeedforwardVolt(desiredAngle: real, vEgo: real): real
  {
    SigmoidFeedforward(0.02904609, 0.10006696, 3.12485927, desiredAngle, vEgo)
  }

  /** get_steer_feedforward_acadia. */
  function SteerFeedforwardAcadia(desiredAngle: real, vEgo: real): real
  {
    SigmoidFeedforward(0.09760208, 0.04689655, 10.028217, desiredAngle, vEgo)
  }

  /** The sigmoid is odd. */
  lemma SigmoidOdd(x: real)
    ensures Sigmoid(-x) == -Sigmoid(x)
  {
  }

  /** Mirroring the commanded angle mirrors the feed-forward. */
  lemma SigmoidFeedforwardOdd(a: real, b: real, c: real, desiredAngle: real, vEgo: real)
    ensures SigmoidFeedforward(a, b, c, -desiredAngle, vEgo) == -SigmoidFeedforward(a, b, c, desiredAngle, vEgo)
  {
  }

  /** The feed-forward stays strictly inside its saturation level |b * (vEgo + c)|, or is zero when that is. */
  lemma SigmoidFeedforwardSaturates(a: real, b: real, c: real, desiredAngle: real, vEgo: real)
    ensures Abs(SigmoidFeedforward(a, b, c, desiredAngle, vEgo)) <= Abs(b * (vEgo + c))
    ensures b * (vEgo + c) != 0.0 ==>
      Abs(SigmoidFeedforward(a, b, c, desiredAngle, vEgo)) < Abs(b * (vEgo + c))
  {
    var s := Sigmoid(desiredAngle * a);
    var k := b * (vEgo + c);
    assert SigmoidFeedforward(a, b, c, desiredAngle, vEgo) == s * k;
    if k > 0.0 {
      assert -k < s * k < k;
    } else if k < 0.0 {
      assert k < s * k < -k;
    }
  }

  /** On each side of zero the sigmoid is one minus (or minus one plus) a reciprocal. */
  lemma SigmoidAsReciprocal(x: real)
    ensures x >= 0.0 ==> Sigmoid(x) == 1.0 - 1.0 / (1.0 + x)
    ensures x < 0.0 ==> Sigmoid(x) == -1.0 + 1.0 / (1.0 - x)
  {
  }

  /** 1 / d shrinks as a positive d grows. */
  lemma ReciprocalAntitone(d: real, e: real)
    requires 0.0 < d <= e
    ensures 1.0 / e <= 1.0 / d
  {
  }

  /** The sigmoid never decreases: a larger commanded angle never asks for less effort. */
  lemma SigmoidMonotonic(x: real, y: real)
    requires x <= y
    ensures Sigmoid(x) <= Sigmoid(y)
  {
    SigmoidAsReciprocal(x);
    SigmoidAsReciprocal(y);
    if 0.0 <= x {
      ReciprocalAntitone(1.0 + x, 1.0 + y);
    } else if y < 0.0 {
      ReciprocalAntitone(1.0 - y, 1.0 - x);
    }
  }

  /** With positive gains and a positive speed term, the feed-forward never decreases in the angle. */
  lemma SigmoidFeedforwardMonotonic(a: real, b: real, c: real, angle1: real, angle2: real, vEgo: real)
    requires a > 0.0 && b > 0.0 && vEgo + c > 0.0
    requires angle1 <= angle2
    ensures SigmoidFeedforward(a, b, c, angle1, vEgo) <= SigmoidFeedforward(a, b, c, angle2, vEgo)
  {
    assert angle1 * a <= angle2 * a;
    SigmoidMonotonic(angle1 * a, angle2 * a);
    var k := b * (vEgo + c);
    assert k > 0.0;
    assert SigmoidFeedforward(a, b, c, angle1, vEgo) == Sigmoid(angle1 * a) * k;
    assert SigmoidFeedforward(a, b, c, angle2, vEgo) == Sigmoid(angle2 * a) * k;
  }

  /** At any speed both fitted feed-forwards grow with the commanded angle. */
  lemma GmFeedforwardsMonotonic(angle1: real, angle2: real, vEgo: real)
    requires vEgo >= 0.0 && angle1 <= angle2
    ensures SteerFeedforwardVolt(angle1, vEgo) <= SteerFeedforwardVolt(angle2, vEgo)
    ensures SteerFeedforwardAcadia(angle1, vEgo) <= SteerFeedforwardAcadia(angle2, vEgo)
  {
    SigmoidFeedforwardMonotonic(0.02904609, 0.10006696, 3.12485927, angle1, angle2, vEgo);
    SigmoidFeedforwardMonotonic(0.09760208, 0.04689655, 10.028217, angle1, angle2, vEgo);
  }

  /** Both fitted feed-forwards are odd in the angle and bounded by their saturation level at any speed. */
  lemma GmFeedforwardsOddAndBounded(desiredAngle: real, vEgo: real)
    requires vEgo >= 0.0
    ensures SteerFeedforwardVolt(-desiredAngle, vEgo) == -SteerFeedforwardVolt(desiredAngle, vEgo)
    ensures SteerFeedforwardAcadia(-desiredAngle, vEgo) == -SteerFeedforwardAcadia(desiredAngle, vEgo)
    ensures Abs(SteerFeedforwardVolt(desiredAngle, vEgo)) < 0.10006696 * (vEgo + 3.12485927)
    ensures Abs(SteerFeedforwardAcadia(desiredAngle, vEgo)) < 0.04689655 * (vEgo + 10.028217)
  {
    SigmoidFeedforwardOdd(0.02904609, 0.10006696, 3.12485927, desiredAngle, vEgo);
    SigmoidFeedforwardOdd(0.09760208, 0.04689655, 10.028217, desiredAngle, vEgo);
    SigmoidFeedforwardSaturates(0.02904609, 0.10006696, 3.12485927, desiredAngle, vEgo);
    SigmoidFeedforwardSaturates(0.09760208, 0.04689655, 10.028217, desiredAngle, vEgo);
  }

  /** Which feed-forward the lateral controller is handed. */
  datatype FeedforwardModel = VoltFeedforward | AcadiaFeedforward | DefaultFeedforward

  /** get_steer_feedforward_function: a dedicated fit for exactly VOLT and ACADIA, the base default otherwise. */
  function SteerFeedforwardFunction(cp: CarParams): (m: FeedforwardModel)
    ensures m == VoltFeedforward <==> cp.carFingerprint == Volt
    ensures m == AcadiaFeedforward <==> cp.carFingerprint == Acadia
    ensures m == DefaultFeedforward <==> cp.carFingerprint !in {Volt, Acadia}
  {
    if cp.carFingerprint == Volt then VoltFeedforward
    else if cp.carFingerprint == Acadia then AcadiaFeedforward
    else DefaultFeedforward
  }
}
