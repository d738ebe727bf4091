/** The projection of one raw device record onto the normalised schema
    (`transform_data`): identity and position fields are copied, the movement
    bucket is derived from the vehicle state, CAN fields are renamed, and nine
    0/1 error flags are derived from the two error-state registers by exact
    equality with single codes. */
module Telemetry {
  import opened JsonValues
  import opened Classification

  /** Why `transform_data` raises: the element is not a dictionary, a key it
      indexes directly is missing, `evCanData` has no `.get`, or the vehicle
      state cannot be looked up in the state table. */
  datatype TransformError =
    | ElementNotAnObject
    | MissingKey(key: string)
    | CanDataNotAnObject
    | UnhashableVehicleState

  /** The nested `evCanData` object of a normalised record. Each field carries
      the output key it is written under; the nine `int` fields are the
      derived error flags, every other field is a copy of one source field. */
  datatype CanRecord = CanRecord(
    SOC: Json, batteryId: Json, OverVoltage: int, Undervoltage: int, OverCurrent: int,
    OverTemp: int, shortCircuitError: int, HSC_Low: Json, Vstack: Json, Temp1: Json,
    Temp2: Json, Temp3: Json, Temp4: Json, Temp5: Json, Temp6: Json, Temp7: Json,
    Temp8: Json, Temp9: Json, Temp10: Json, Temp11: Json, Temp12: Json, Temp13: Json,
    Temp14: Json, Temp15: Json, Temp16: Json, V1: Json, V2: Json, V3: Json, V4: Json,
    V5: Json, V6: Json, V7: Json, V8: Json, V9: Json, V10: Json, V11: Json, V12: Json,
    V13: Json, V14: Json, V15: Json, V16: Json, ChargerComError: Json,
    FetShortCircuitError: int, FullCapacity: Json, chargerTimeout: int, Ready: int,
    VehicleState: Json, SwVersion: Json, HSC_HI: Json, FetOverTemp: int,
    FanStatus: Json, Vmin: Json, Vmax: Json, ChargeETA: Json
  )

  /** The normalised record published for one input element. */
  datatype NormalizedRecord = NormalizedRecord(
    uniqueId: Json,
    vehicleName: Json,
    timeStamp: Json,
    latitude: Json,
    longitude: Json,
    speed: Json,
    movementStatus: MovementStatus,
    evCanData: CanRecord
  )

  /** The source fields of `evCanData` that are copied (under a new name or
      the same one) rather than used to derive a flag. */
  datatype SourceField =
    | SOC | BatteryID | CurrentCSA | Vstack | T1 | T2 | T3 | T4 | T5 | T6 | T7 | T8 | T9
    | T10 | T11 | T12 | T13 | T14 | T15 | T16 | C1 | C2 | C3 | C4 | C5 | C6 | C7 | C8
    | C9 | C10 | C11 | C12 | C13 | C14 | C15 | C16 | ChargerError1 | RatedCapacity
    | VehicleState | SWVersionMajor | CurrentAFE | FANStatus | Cvmin | Cvmax | ChargeETA
  {
    /** The key the field has in the incoming `evCanData` object. */
    function Key(): string {
      match this
      case SOC => "SOC"
      case BatteryID => "BatteryID"
      case CurrentCSA => "CurrentCSA"
      case Vstack => "Vstack"
      case T1 => "T1"
      case T2 => "T2"
      case T3 => "T3"
      case T4 => "T4"
      case T5 => "T5"
      case T6 => "T6"
      case T7 => "T7"
      case T8 => "T8"
      case T9 => "T9"
      case T10 => "T10"
      case T11 => "T11"
      case T12 => "T12"
      case T13 => "T13"
      case T14 => "T14"
      case T15 => "T15"
      case T16 => "T16"
      case C1 => "C1"
      case C2 => "C2"
      case C3 => "C3"
      case C4 => "C4"
      case C5 => "C5"
      case C6 => "C6"
      case C7 => "C7"
      case C8 => "C8"
      case C9 => "C9"
      case C10 => "C10"
      case C11 => "C11"
      case C12 => "C12"
      case C13 => "C13"
      case C14 => "C14"
      case C15 => "C15"
      case C16 => "C16"
      case ChargerError1 => "ChargerError1"
      case RatedCapacity => "RatedCapacity"
      case VehicleState => "VehicleState"
      case SWVersionMajor => "SWVersionMajor"
      case CurrentAFE => "CurrentAFE"
      case FANStatus => "FANStatus"
      case Cvmin => "Cvmin"
      case Cvmax => "Cvmax"
      case ChargeETA => "ChargeETA"
    }
  }

  /** The value a normalised CAN record carries for a source field, read back
      under the field's output name: the renaming table read from the output side. */
  function Carried(r: CanRecord, f: SourceField): Json {
    match f
    case SOC => r.SOC
    case BatteryID => r.batteryId
    case CurrentCSA => r.HSC_Low
    case Vstack => r.Vstack
    case T1 => r.Temp1
    case T2 => r.Temp2
    case T3 => r.Temp3
    case T4 => r.Temp4
    case T5 => r.Temp5
    case T6 => r.Temp6
    case T7 => r.Temp7
    case T8 => r.Temp8
    case T9 => r.Temp9
    case T10 => r.Temp10
    case T11 => r.Temp11
    case T12 => r.Temp12
    case T13 => r.Temp13
    case T14 => r.Temp14
    case T15 => r.Temp15
    case T16 => r.Temp16
    case C1 => r.V1
    case C2 => r.V2
    case C3 => r.V3
    case C4 => r.V4
    case C5 => r.V5
    case C6 => r.V6
    case C7 => r.V7
    case C8 => r.V8
    case C9 => r.V9
    case C10 => r.V10
    case C11 => r.V11
    case C12 => r.V12
    case C13 => r.V13
    case C14 => r.V14
    case C15 => r.V15
    case C16 => r.V16
    case ChargerError1 => r.ChargerComError
    case RatedCapacity => r.FullCapacity
    case VehicleState => r.VehicleState
    case SWVersionMajor => r.SwVersion
    case CurrentAFE => r.HSC_HI
    case FANStatus => r.FanStatus
    case Cvmin => r.Vmin
    case Cvmax => r.Vmax
    case ChargeETA => r.ChargeETA
  }

  /** `1 if value == code else 0`. */
  function Flag(value: Json, code: int): int {
    if PyEqualsInt(value, code) then 1 else 0
  }

  /** The nested CAN object of the output, built from the incoming one
      (`can_data`) exactly as the dictionary literal does. */
  function ProjectCan(can: map<string, Json>): CanRecord {
    CanRecord(
      SOC := Get(can, "SOC"),
      batteryId := Get(can, "BatteryID"),
      OverVoltage := Flag(Get(can, "ErrorState1"), 1),
      Undervoltage := Flag(Get(can, "ErrorState1"), 2),
      OverCurrent := Flag(Get(can, "ErrorState1"), 4),
      OverTemp := Flag(Get(can, "ErrorState1"), 16),
      shortCircuitError := Flag(Get(can, "ErrorState2"), 32),
      HSC_Low := Get(can, "CurrentCSA"),
      Vstack := Get(can, "Vstack"),
      Temp1 := Get(can, "T1"),
      Temp2 := Get(can, "T2"),
      Temp3 := Get(can, "T3"),
      Temp4 := Get(can, "T4"),
      Temp5 := Get(can, "T5"),
      Temp6 := Get(can, "T6"),
      Temp7 := Get(can, "T7"),
      Temp8 := Get(can, "T8"),
      Temp9 := Get(can, "T9"),
      Temp10 := Get(can, "T10"),
      Temp11 := Get(can, "T11"),
      Temp12 := Get(can, "T12"),
      Temp13 := Get(can, "T13"),
      Temp14 := Get(can, "T14"),
      Temp15 := Get(can, "T15"),
      Temp16 := Get(can, "T16"),
      V1 := Get(can, "C1"),
      V2 := Get(can, "C2"),
      V3 := Get(can, "C3"),
      V4 := Get(can, "C4"),
      V5 := Get(can, "C5"),
      V6 := Get(can, "C6"),
      V7 := Get(can, "C7"),
      V8 := Get(can, "C8"),
      V9 := Get(can, "C9"),
      V10 := Get(can, "C10"),
      V11 := Get(can, "C11"),
      V12 := Get(can, "C12"),
      V13 := Get(can, "C13"),
      V14 := Get(can, "C14"),
      V15 := Get(can, "C15"),
      V16 := Get(can, "C16"),
      ChargerComError := Get(can, "ChargerError1"),
      FetShortCircuitError := Flag(Get(can, "ErrorState1"), 32),
      FullCapacity := Get(can, "RatedCapacity"),
      chargerTimeout := Flag(Get(can, "ErrorState2"), 4),
      Ready := Flag(Get(can, "ErrorState1"), 128),
      VehicleState := Get(can, "VehicleState"),
      SwVersion := Get(can, "SWVersionMajor"),
      HSC_HI := Get(can, "CurrentAFE"),
      FetOverTemp := Flag(Get(can, "ErrorState1"), 16),
      FanStatus := Get(can, "FANStatus"),
      Vmin := Get(can, "Cvmin"),
      Vmax := Get(can, "Cvmax"),
      ChargeETA := Get(can, "ChargeETA")
    )
  }

  /** When `transform_data` gets as far as the dictionary literal: the element
      is an object with an object-valued `evCanData` whose `VehicleState` is
      hashable. */
  predicate ReachesLiteral(data: Json) {
    && data.JObject?
    && "evCanData" in data.fields
    && data.fields["evCanData"].JObject?
    && Hashable(Get(data.fields["evCanData"].fields, "VehicleState"))
  }

  /** When `transform_data` returns normally: it reaches the literal, and the
      element has every key the literal indexes directly. */
  predicate Transformable(data: Json) {
    && ReachesLiteral(data)
    && "uniqueId" in data.fields && "vehicleName" in data.fields && "timestamp" in data.fields
    && "latitude" in data.fields && "longitude" in data.fields
  }

  /** `transform_data(data)`: the normalised record, or the reason it raises.
      Python reads `evCanData` first, then its `VehicleState`, then the
      top-level keys in dictionary-literal order; the first failing step decides
      the error. */
  function Transform(data: Json): (r: Result<NormalizedRecord, TransformError>)
    ensures r.Ok? <==> Transformable(data)
    ensures !data.JObject? ==> r == Err(ElementNotAnObject)
    ensures data.JObject? && "evCanData" !in data.fields ==> r == Err(MissingKey("evCanData"))
    ensures data.JObject? && "evCanData" in data.fields && !data.fields["evCanData"].JObject? ==>
      r == Err(CanDataNotAnObject)
    ensures data.JObject? && "evCanData" in data.fields && data.fields["evCanData"].JObject? ==>
      (!Hashable(Get(data.fields["evCanData"].fields, "VehicleState")) ==> r == Err(UnhashableVehicleState))
    ensures ReachesLiteral(data) ==>
      var f := data.fields;
      && ("uniqueId" !in f ==> r == Err(MissingKey("uniqueId")))
      && ("uniqueId" in f && "vehicleName" !in f ==> r == Err(MissingKey("vehicleName")))
      && ("uniqueId" in f && "vehicleName" in f && "timestamp" !in f ==> r == Err(MissingKey("timestamp")))
      && ("uniqueId" in f && "vehicleName" in f && "timestamp" in f && "latitude" !in f ==>
            r == Err(MissingKey("latitude")))
      && ("uniqueId" in f && "vehicleName" in f && "timestamp" in f && "latitude" in f && "longitude" !in f ==>
            r == Err(MissingKey("longitude")))
    ensures r.Err? && r.error.MissingKey? ==> r.error.key !in data.fields
    ensures r.Ok? ==>
      var can := data.fields["evCanData"].fields;
      && r.value.uniqueId == data.fields["uniqueId"]
      && r.value.vehicleName == data.fields["vehicleName"]
      && r.value.timeStamp == data.fields["timestamp"]
      && r.value.latitude == data.fields["latitude"]
      && r.value.longitude == data.fields["longitude"]
      && r.value.speed == Get(data.fields, "speed")
      && r.value.evCanData == ProjectCan(can)
      && MovementStatusOf(Get(can, "VehicleState")) == Some(r.value.movementStatus)
  {
    if !data.JObject? then Err(ElementNotAnObject)
    else if "evCanData" !in data.fields then Err(MissingKey("evCanData"))
    else
      var canValue := data.fields["evCanData"];
      if !canValue.JObject? then Err(CanDataNotAnObject)
      else
        var can := canValue.fields;
        match MovementStatusOf(Get(can, "VehicleState"))
        case None => Err(UnhashableVehicleState)
        case Some(status) =>
          if "uniqueId" !in data.fields then Err(MissingKey("uniqueId"))
          else if "vehicleName" !in data.fields then Err(MissingKey("vehicleName"))
          else if "timestamp" !in data.fields then Err(MissingKey("timestamp"))
          else if "latitude" !in data.fields then Err(MissingKey("latitude"))
          else if "longitude" !in data.fields then Err(MissingKey("longitude"))
          else
            Ok(NormalizedRecord(
              uniqueId := data.fields["uniqueId"],
              vehicleName := data.fields["vehicleName"],
              timeStamp := data.fields["timestamp"],
              latitude := data.fields["latitude"],
              longitude := data.fields["longitude"],
              speed := Get(data.fields, "speed"),
              movementStatus := status,
              evCanData := ProjectCan(can)))
  }

  /** Every copied CAN field arrives unchanged under its output name; a source
      field that is missing arrives as null, never as 0. */
  lemma PassThrough(can: map<string, Json>, f: SourceField)
    ensures Carried(ProjectCan(can), f) == Get(can, f.Key())
    ensures f.Key() !in can ==> Carried(ProjectCan(can), f) == JNull
  {
  }

  /** The ErrorState1 flags test exact equality with one code each, so at most
      one of them is raised (OverTemp and FetOverTemp share code 16 and are
      always equal): a flag is raised exactly when the register holds one of
      the six single codes, and a combination such as 17 raises none. */
  lemma ErrorState1Flags(can: map<string, Json>)
    ensures var r := ProjectCan(can);
      var code := CodeOf(Get(can, "ErrorState1"));
      && (r.OverVoltage == 1 <==> code == Some(1))
      && (r.Undervoltage == 1 <==> code == Some(2))
      && (r.OverCurrent == 1 <==> code == Some(4))
      && (r.OverTemp == 1 <==> code == Some(16))
      && (r.FetShortCircuitError == 1 <==> code == Some(32))
      && (r.Ready == 1 <==> code == Some(128))
      && r.FetOverTemp == r.OverTemp
      && (var raised := r.OverVoltage + r.Undervoltage + r.OverCurrent + r.OverTemp
                        + r.FetShortCircuitError + r.Ready;
          && (raised == 1 <==> code.Some? && code.value in {1, 2, 4, 16, 32, 128})
          && (raised == 0 <==> code.None? || code.value !in {1, 2, 4, 16, 32, 128}))
  {
  }

  /** The ErrorState2 flags: shortCircuitError exactly for code 32,
      chargerTimeout exactly for code 4, never both. */
  lemma ErrorState2Flags(can: map<string, Json>)
    ensures var r := ProjectCan(can);
      var code := CodeOf(Get(can, "ErrorState2"));
      && (r.shortCircuitError == 1 <==> code == Some(32))
      && (r.chargerTimeout == 1 <==> code == Some(4))
      && r.shortCircuitError * r.chargerTimeout == 0
  {
  }

  /** The flags read nothing but their register: two CAN objects that agree on
      ErrorState1 (resp. ErrorState2) get the same ErrorState1 (resp.
      ErrorState2) flags, whatever else they hold. */
  lemma FlagsDependOnlyOnRegisters(can1: map<string, Json>, can2: map<string, Json>)
    ensures Get(can1, "ErrorState1") == Get(can2, "ErrorState1") ==>
      var r1, r2 := ProjectCan(can1), ProjectCan(can2);
      && r1.OverVoltage == r2.OverVoltage && r1.Undervoltage == r2.Undervoltage
      && r1.OverCurrent == r2.OverCurrent && r1.OverTemp == r2.OverTemp
      && r1.FetShortCircuitError == r2.FetShortCircuitError && r1.Ready == r2.Ready
      && r1.FetOverTemp == r2.FetOverTemp
    ensures Get(can1, "ErrorState2") == Get(can2, "ErrorState2") ==>
      var r1, r2 := ProjectCan(can1), ProjectCan(can2);
      r1.shortCircuitError == r2.shortCircuitError && r1.chargerTimeout == r2.chargerTimeout
  {
  }

  /** A normalised record is self-consistent: its movement status is the
      classification of the vehicle state it carries. */
  lemma StatusAgreesWithCarriedState(data: Json)
    requires Transform(data).Ok?
    ensures var r := Transform(data).value;
      MovementStatusOf(r.evCanData.VehicleState) == Some(r.movementStatus)
  {
  }

  /** An element shaped like a moving vehicle at 50 % charge with no error
      registers, such as `{"uniqueId": "abc", "vehicleName": "Car1",
      "timestamp": "t", "latitude": 1, "longitude": 2, "evCanData":
      {"VehicleState": 1, "SOC": 50}}`, normalises to a record with status
      moving, SOC 50 and every error flag 0. */
  lemma MovingSample(data: Json)
    requires data.JObject? && "evCanData" in data.fields && data.fields["evCanData"].JObject?
    requires "uniqueId" in data.fields && "vehicleName" in data.fields && "timestamp" in data.fields
    requires "latitude" in data.fields && "longitude" in data.fields
    requires var can := data.fields["evCanData"].fields;
      && Get(can, "VehicleState") == JInt(1) && Get(can, "SOC") == JInt(50)
      && "ErrorState1" !in can && "ErrorState2" !in can
    ensures Transform(data).Ok?
    ensures var r := Transform(data).value;
      && r.movementStatus == MovementStatus.Moving
      && r.evCanData.SOC == JInt(50) && r.evCanData.VehicleState == JInt(1)
      && r.evCanData.OverVoltage == 0 && r.evCanData.Undervoltage == 0
      && r.evCanData.OverCurrent == 0 && r.evCanData.OverTemp == 0
      && r.evCanData.shortCircuitError == 0 && r.evCanData.FetShortCircuitError == 0
      && r.evCanData.chargerTimeout == 0 && r.evCanData.Ready == 0
      && r.evCanData.FetOverTemp == 0
  {
  }
}
