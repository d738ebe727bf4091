/** Vehicle-state classification: the fixed table from controller state codes
    to state names, and the grouping of those names into the four movement
    buckets reported downstream. */
module Classification {
  import opened JsonValues

  /** The named states of the battery controller, in code order 0..11. */
  datatype StateName =
    | Idle | Discharging | FastChargingEVQ | Balancing | Alerts
    | UltraFastChargingGB_T | FastChargingSoltera | FastChargingAther
    | LowPowerMode | FastChargingTVS | ChargingRapidtron | ChargingNeenjas

  /** The code-to-name table. */
  const StateNames: map<int, StateName> := map[
    0 := StateName.Idle,
    1 := Discharging,
    2 := FastChargingEVQ,
    3 := Balancing,
    4 := Alerts,
    5 := UltraFastChargingGB_T,
    6 := FastChargingSoltera,
    7 := FastChargingAther,
    8 := LowPowerMode,
    9 := FastChargingTVS,
    10 := ChargingRapidtron,
    11 := ChargingNeenjas
  ]

  /** The movement bucket written to `movementStatus`. */
  datatype MovementStatus = Idle | Charging | Moving | NoGps
  {
    /** The string sent on the wire. */
    function Name(): string {
      match this
      case Idle => "idle"
      case Charging => "charging"
      case Moving => "moving"
      case NoGps => "nogps"
    }
  }

  /** `vehicle_state_map.get(code, "nogps")`: the state name of a code, where
      `None` is the "nogps" default for a missing value or a code outside the table. */
  function LookupName(code: Option<int>): Option<StateName> {
    if code.Some? && code.value in StateNames then Some(StateNames[code.value]) else None
  }

  /** The if-chain that groups a looked-up name into a bucket. A name the chain
      does not list (Balancing, LowPowerMode) and the default both fall to NoGps. */
  function Bucket(name: Option<StateName>): MovementStatus {
    if name == Some(StateName.Idle) || name == Some(StateName.Alerts) then
      MovementStatus.Idle
    else if name.Some? && name.value in {StateName.FastChargingEVQ, StateName.FastChargingSoltera,
                                         StateName.UltraFastChargingGB_T, StateName.FastChargingTVS,
                                         StateName.FastChargingAther, StateName.ChargingRapidtron,
                                         StateName.ChargingNeenjas} then
      Charging
    else if name == Some(StateName.Discharging) then
      Moving
    else
      NoGps
  }

  /** The classification of a state code (None: missing or not an integer),
      stated code by code: each bucket is exactly the set of codes listed. */
  function Classify(code: Option<int>): (m: MovementStatus)
    ensures m == MovementStatus.Idle <==> code == Some(0) || code == Some(4)
    ensures m == Charging <==> code.Some? && code.value in {2, 5, 6, 7, 9, 10, 11}
    ensures m == Moving <==> code == Some(1)
    ensures m == NoGps <==> code.None? || code.value !in {0, 1, 2, 4, 5, 6, 7, 9, 10, 11}
    ensures m.Name() == "idle" <==> code == Some(0) || code == Some(4)
    ensures m.Name() == "charging" <==> code.Some? && code.value in {2, 5, 6, 7, 9, 10, 11}
    ensures m.Name() == "moving" <==> code == Some(1)
    ensures m.Name() == "nogps" <==> code.None? || code.value !in {0, 1, 2, 4, 5, 6, 7, 9, 10, 11}
  {
    Bucket(LookupName(code))
  }

  /** `map_vehicle_state_to_movement_status` applied to the raw `VehicleState`
      value (null when absent). The dictionary lookup fails on a list or an
      object (they are unhashable), which the model reports as None; every
      other value is classified, and a value that is not a number, or
      a missing one, lands in NoGps. */
  function MovementStatusOf(state: Json): (r: Option<MovementStatus>)
    ensures r.None? <==> !Hashable(state)
    ensures r.Some? ==> (r.value == Moving <==> PyEqualsInt(state, 1))
    ensures r.Some? ==> (r.value == MovementStatus.Idle <==> PyEqualsInt(state, 0) || PyEqualsInt(state, 4))
    ensures r.Some? ==> (r.value == Charging <==> exists k :: k in {2, 5, 6, 7, 9, 10, 11} && PyEqualsInt(state, k))
    ensures state.JNull? || state.JString? ==> r == Some(NoGps)
  {
    if Hashable(state) then Some(Classify(CodeOf(state))) else None
  }

  /** Codes 3 (Balancing) and 8 (LowPowerMode) have names in the table but no
      bucket of their own: the chain sends them to NoGps, like an unknown code. */
  lemma NamedButUnbucketed()
    ensures LookupName(Some(3)) == Some(StateName.Balancing) && Classify(Some(3)) == NoGps
    ensures LookupName(Some(8)) == Some(StateName.LowPowerMode) && Classify(Some(8)) == NoGps
  {
  }

  /** The bucket names on the wire are pairwise distinct, so downstream
      consumers can tell the buckets apart. */
  lemma NamesDistinct(a: MovementStatus, b: MovementStatus)
    ensures a.Name() == b.Name() ==> a == b
  {
  }
}
