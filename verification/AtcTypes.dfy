/** Vocabulary shared by the controller's state machine and the flight-phase detector. */
module AtcTypes {

  /** Dialog states, in the order of `enum class ATCState`. */
  datatype ATCState =
    | IDLE | GROUND_CONTACT | TAXI_CLEARED | TOWER_CONTACT | DEPARTURE_CLEARED
    | PATTERN_ENTRY | LANDING_CLEARED | TOUCH_AND_GO_CLEARED | UNICOM_ACTIVE
    | EN_ROUTE | APPROACH_CONTACT
    | IFR_PREDEP_CLEARANCE | IFR_CLEARED | IFR_LINE_UP_AND_WAIT | IFR_DEPARTURE_CLEARED
    | IFR_FREQ_HANDOFF | IFR_EN_ROUTE | IFR_RADAR_CONTACT | IFR_ENROUTE_CRUISE
    | IFR_DESCENT | IFR_ARRIVAL | IFR_APPROACH_CONTACT | IFR_APPROACH_DESCENT
    | IFR_APPROACH_TOWER | IFR_LANDING_CLEARED

  datatype DepartureType = PATTERN | CROSS_COUNTRY

  /** The qualified name of a state. Only DEPARTURE_CLEARED has two of them, one per flow. */
  datatype StateName = StateName(state: ATCState, crossCountry: bool)

  function NameOf(s: ATCState, d: DepartureType): StateName {
    StateName(s, s == DEPARTURE_CLEARED && d == CROSS_COUNTRY)
  }

  /** The IFR states in which a timed-out read-back must not end the dialog. */
  predicate IsIfrInFlight(s: ATCState) {
    s in {IFR_ENROUTE_CRUISE, IFR_DESCENT, IFR_ARRIVAL, IFR_APPROACH_CONTACT, IFR_APPROACH_DESCENT,
          IFR_APPROACH_TOWER, IFR_LANDING_CLEARED, IFR_RADAR_CONTACT, IFR_FREQ_HANDOFF, IFR_EN_ROUTE}
  }

  /** The states whose name carries the "IFR/" prefix. */
  predicate IsIfr(s: ATCState) {
    IsIfrInFlight(s) || s in {IFR_PREDEP_CLEARANCE, IFR_CLEARED, IFR_LINE_UP_AND_WAIT, IFR_DEPARTURE_CLEARED}
  }

  datatype FlightPhase =
    | PARKED | TAXI | TAKEOFF_ROLL | CLIMB | PATTERN | FINAL_APPROACH | LANDING_ROLL | CRUISE

  predicate IsAirborne(p: FlightPhase) {
    p in {CLIMB, FlightPhase.PATTERN, FINAL_APPROACH, CRUISE}
  }

  predicate IsOnGround(p: FlightPhase) {
    p in {PARKED, TAXI, TAKEOFF_ROLL, LANDING_ROLL}
  }

  /** The fields of a clearance that a pilot has to read back. */
  datatype Field = Runway | FlightLevel | Altitude | Frequency | Squawk | Speed

  /** A flight level and an altitude in feet occupy the same slot of a clearance. */
  function SlotOf(f: Field): Field {
    if f == FlightLevel then Altitude else f
  }

  datatype Mismatch = Mismatch(field: Field, correction: string)

  /** What the dialog asks of the read-back verifier. */
  datatype Verifier = Verifier(
    fields: string -> set<Field>,
    matched: (string, string) -> set<Field>,
    check: (string, string) -> seq<Mismatch>)
}
