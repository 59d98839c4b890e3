/**
 * The entry tables of SDK telemetry version 1.12 (`struct_trailer`,
 * `struct_telemetry`), zone by zone in source order, with the size of each
 * zone. Zones of more than ten entries are written in parts.
 *
 * The 3-byte pads after lone bools keep the four-byte entries that follow
 * them aligned; string entries are `Text(64)` for `STRING_SIZE`.
 */
module Version112Tables {
  import opened Wrappers
  import opened Layout

  const SubstanceSize: nat := 25
  const StringSize: nat := 64
  /** The telemetry record ends with room for this many trailer records. */
  const TrailerCapacity: nat := 10

  // ---------------------------------------------------------------------------
  // The entry tables, zone by zone, in source order.

  // struct_trailer: one trailer record.
  /** Zone 1 of the trailer layout. */
  const TrailerZone1: seq<Entry> := [
    Slot("wheelSteerable", Array(Basic(Bool), 16)),
    Slot("wheelSimulated", Array(Basic(Bool), 16)),
    Slot("wheelPowered", Array(Basic(Bool), 16)),
    Slot("wheelLiftable", Array(Basic(Bool), 16)),
    Slot("wheelOnGround", Array(Basic(Bool), 16)),
    Slot("attached", Basic(Bool)),
    Pad(3)
  ]

  /** Zone 2 of the trailer layout. */
  const TrailerZone2: seq<Entry> := [
    Slot("wheelSubstance", Array(Basic(UInt), 16)),
    Slot("wheelCount", Basic(UInt))
  ]

  /** Zone 3 of the trailer layout, in 2 parts. */

  const TrailerZone3a: seq<Entry> := [
    Slot("cargoDamage", Basic(Float)),
    Slot("wearChassis", Basic(Float)),
    Slot("wearWheels", Basic(Float)),
    Slot("wearBody", Basic(Float)),
    Slot("wheelSuspDeflection", Array(Basic(Float), 16)),
    Slot("wheelVelocity", Array(Basic(Float), 16))
  ]

  const TrailerZone3b: seq<Entry> := [
    Slot("wheelSteering", Array(Basic(Float), 16)),
    Slot("wheelRotation", Array(Basic(Float), 16)),
    Slot("wheelLift", Array(Basic(Float), 16)),
    Slot("wheelLiftOffset", Array(Basic(Float), 16)),
    Slot("wheelRadius", Array(Basic(Float), 16))
  ]

  const TrailerZone3: seq<Entry> := TrailerZone3a + TrailerZone3b

  /** Zone 4 of the trailer layout, in 2 parts. */

  const TrailerZone4a: seq<Entry> := [
    Slot("linearVelocityX", Basic(Float)),
    Slot("linearVelocityY", Basic(Float)),
    Slot("linearVelocityZ", Basic(Float)),
    Slot("angularVelocityX", Basic(Float)),
    Slot("angularVelocityY", Basic(Float)),
    Slot("angularVelocityZ", Basic(Float)),
    Slot("linearAccelerationX", Basic(Float)),
    Slot("linearAccelerationY", Basic(Float)),
    Slot("linearAccelerationZ", Basic(Float)),
    Slot("angularAccelerationX", Basic(Float))
  ]

  const TrailerZone4b: seq<Entry> := [
    Slot("angularAccelerationY", Basic(Float)),
    Slot("angularAccelerationZ", Basic(Float)),
    Slot("hookPositionX", Basic(Float)),
    Slot("hookPositionY", Basic(Float)),
    Slot("hookPositionZ", Basic(Float)),
    Slot("wheelPositionX", Array(Basic(Float), 16)),
    Slot("wheelPositionY", Array(Basic(Float), 16)),
    Slot("wheelPositionZ", Array(Basic(Float), 16)),
    Pad(4)
  ]

  const TrailerZone4: seq<Entry> := TrailerZone4a + TrailerZone4b

  /** Zone 5 of the trailer layout. */
  const TrailerZone5: seq<Entry> := [
    Slot("worldX", Basic(Double)),
    Slot("worldY", Basic(Double)),
    Slot("worldZ", Basic(Double)),
    Slot("rotationX", Basic(Double)),
    Slot("rotationY", Basic(Double)),
    Slot("rotationZ", Basic(Double))
  ]

  /** Zone 6 of the trailer layout. */
  const TrailerZone6: seq<Entry> := [
    Slot("id", Text(64)),
    Slot("cargoAcessoryId", Text(64)),
    Slot("bodyType", Text(64)),
    Slot("brandId", Text(64)),
    Slot("brand", Text(64)),
    Slot("name", Text(64)),
    Slot("chainType", Text(64)),
    Slot("licensePlate", Text(64)),
    Slot("licensePlateCountry", Text(64)),
    Slot("licensePlateCountryId", Text(64))
  ]


  /** One trailer record (`struct_trailer`). */
  const TrailerLayout: seq<Entry> :=
    TrailerZone1 + TrailerZone2 + TrailerZone3 + TrailerZone4 + TrailerZone5 + TrailerZone6

  // struct_telemetry, zones 1 to 13; zone 14 is the array of trailer records.
  /** Zone 1 of the telemetry layout. */
  const TelemetryZone1: seq<Entry> := [
    Slot("sdkActive", Basic(Bool)),
    Pad(3),
    Slot("paused", Basic(Bool)),
    Pad(3),
    Slot("time", Basic(ULongLong)),
    Slot("simulatedTime", Basic(ULongLong)),
    Slot("renderTime", Basic(ULongLong)),
    Slot("multiplayerTimeOffset", Basic(LongLong))
  ]

  /** Zone 2 of the telemetry layout, in 3 parts. */

  const TelemetryZone2a: seq<Entry> := [
    Slot("telemetry_plugin_revision", Basic(UInt)),
    Slot("version_major", Basic(UInt)),
    Slot("version_minor", Basic(UInt)),
    Slot("game", Basic(UInt)),
    Slot("telemetry_version_game_major", Basic(UInt)),
    Slot("telemetry_version_game_minor", Basic(UInt)),
    Slot("time_abs", Basic(UInt)),
    Slot("gears", Basic(UInt)),
    Slot("gears_reverse", Basic(UInt))
  ]

  const TelemetryZone2b: seq<Entry> := [
    Slot("retarderStepCount", Basic(UInt)),
    Slot("truckWheelCount", Basic(UInt)),
    Slot("selectorCount", Basic(UInt)),
    Slot("time_abs_delivery", Basic(UInt)),
    Slot("maxTrailerCount", Basic(UInt)),
    Slot("unitCount", Basic(UInt)),
    Slot("plannedDistanceKm", Basic(UInt)),
    Slot("shifterSlot", Basic(UInt)),
    Slot("retarderBrake", Basic(UInt))
  ]

  const TelemetryZone2c: seq<Entry> := [
    Slot("lightsAuxFront", Basic(UInt)),
    Slot("lightsAuxRoof", Basic(UInt)),
    Slot("truck_wheelSubstance", Array(Basic(UInt), 16)),
    Slot("hshifterPosition", Array(Basic(UInt), 32)),
    Slot("hshifterBitmask", Array(Basic(UInt), 32)),
    Slot("jobDeliveredDeliveryTime", Basic(UInt)),
    Slot("jobStartingTime", Basic(UInt)),
    Slot("jobFinishedTime", Basic(UInt)),
    Pad(48)
  ]

  const TelemetryZone2: seq<Entry> := TelemetryZone2a + TelemetryZone2b + TelemetryZone2c

  /** Zone 3 of the telemetry layout. */
  const TelemetryZone3: seq<Entry> := [
    Slot("restStop", Basic(Int)),
    Slot("gear", Basic(Int)),
    Slot("gearDashboard", Basic(Int)),
    Slot("hshifterResulting", Array(Basic(Int), 32)),
    Slot("jobDeliveredEarnedXp", Basic(Int)),
    Pad(56)
  ]

  /** Zone 4 of the telemetry layout, in 6 parts. */

  const TelemetryZone4a: seq<Entry> := [
    Slot("scale", Basic(Float)),
    Slot("fuelCapacity", Basic(Float)),
    Slot("fuelWarningFactor", Basic(Float)),
    Slot("adblueCapacity", Basic(Float)),
    Slot("adblueWarningFactor", Basic(Float)),
    Slot("airPressureWarning", Basic(Float)),
    Slot("airPressurEmergency", Basic(Float)),
    Slot("oilPressureWarning", Basic(Float)),
    Slot("waterTemperatureWarning", Basic(Float)),
    Slot("batteryVoltageWarning", Basic(Float))
  ]

  const TelemetryZone4b: seq<Entry> := [
    Slot("engineRpmMax", Basic(Float)),
    Slot("gearDifferential", Basic(Float)),
    Slot("cargoMass", Basic(Float)),
    Slot("truckWheelRadius", Array(Basic(Float), 16)),
    Slot("gearRatiosForward", Array(Basic(Float), 24)),
    Slot("gearRatiosReverse", Array(Basic(Float), 8)),
    Slot("unitMass", Basic(Float)),
    Slot("speed", Basic(Float)),
    Slot("engineRpm", Basic(Float)),
    Slot("userSteer", Basic(Float))
  ]

  const TelemetryZone4c: seq<Entry> := [
    Slot("userThrottle", Basic(Float)),
    Slot("userBrake", Basic(Float)),
    Slot("userClutch", Basic(Float)),
    Slot("gameSteer", Basic(Float)),
    Slot("gameThrottle", Basic(Float)),
    Slot("gameBrake", Basic(Float)),
    Slot("gameClutch", Basic(Float)),
    Slot("cruiseControlSpeed", Basic(Float)),
    Slot("airPressure", Basic(Float)),
    Slot("brakeTemperature", Basic(Float))
  ]

  const TelemetryZone4d: seq<Entry> := [
    Slot("fuel", Basic(Float)),
    Slot("fuelAvgConsumption", Basic(Float)),
    Slot("fuelRange", Basic(Float)),
    Slot("adblue", Basic(Float)),
    Slot("oilPressure", Basic(Float)),
    Slot("oilTemperature", Basic(Float)),
    Slot("waterTemperature", Basic(Float)),
    Slot("batteryVoltage", Basic(Float)),
    Slot("lightsDashboard", Basic(Float)),
    Slot("wearEngine", Basic(Float))
  ]

  const TelemetryZone4e: seq<Entry> := [
    Slot("wearTransmission", Basic(Float)),
    Slot("wearCabin", Basic(Float)),
    Slot("wearChassis", Basic(Float)),
    Slot("wearWheels", Basic(Float)),
    Slot("truckOdometer", Basic(Float)),
    Slot("routeDistance", Basic(Float)),
    Slot("routeTime", Basic(Float)),
    Slot("speedLimit", Basic(Float)),
    Slot("truck_wheelSuspDeflection", Array(Basic(Float), 16)),
    Slot("truck_wheelVelocity", Array(Basic(Float), 16))
  ]

  const TelemetryZone4f: seq<Entry> := [
    Slot("truck_wheelSteering", Array(Basic(Float), 16)),
    Slot("truck_wheelRotation", Array(Basic(Float), 16)),
    Slot("truck_wheelLift", Array(Basic(Float), 16)),
    Slot("truck_wheelLiftOffset", Array(Basic(Float), 16)),
    Slot("jobDeliveredCargoDamage", Basic(Float)),
    Slot("jobDeliveredDistanceKm", Basic(Float)),
    Slot("refuelAmount", Basic(Float)),
    Slot("cargoDamage", Basic(Float)),
    Pad(28)
  ]

  const TelemetryZone4: seq<Entry> := TelemetryZone4a + TelemetryZone4b + TelemetryZone4c + TelemetryZone4d + TelemetryZone4e + TelemetryZone4f

  /** Zone 5 of the telemetry layout, in 4 parts. */

  const TelemetryZone5a: seq<Entry> := [
    Slot("truckWheelSteerable", Array(Basic(Bool), 16)),
    Slot("truckWheelSimulated", Array(Basic(Bool), 16)),
    Slot("truckWheelPowered", Array(Basic(Bool), 16)),
    Slot("truckWheelLiftable", Array(Basic(Bool), 16)),
    Slot("isCargoLoaded", Basic(Bool)),
    Slot("specialJob", Basic(Bool)),
    Slot("parkBrake", Basic(Bool)),
    Slot("motorBrake", Basic(Bool)),
    Slot("airPressureWarning", Basic(Bool)),
    Slot("airPressureEmergency", Basic(Bool))
  ]

  const TelemetryZone5b: seq<Entry> := [
    Slot("fuelWarning", Basic(Bool)),
    Slot("adblueWarning", Basic(Bool)),
    Slot("oilPressureWarning", Basic(Bool)),
    Slot("waterTemperatureWarning", Basic(Bool)),
    Slot("batteryVoltageWarning", Basic(Bool)),
    Slot("electricEnabled", Basic(Bool)),
    Slot("engineEnabled", Basic(Bool)),
    Slot("wipers", Basic(Bool)),
    Slot("blinkerLeftActive", Basic(Bool)),
    Slot("blinkerRightActive", Basic(Bool))
  ]

  const TelemetryZone5c: seq<Entry> := [
    Slot("blinkerLeftOn", Basic(Bool)),
    Slot("blinkerRightOn", Basic(Bool)),
    Slot("lightsParking", Basic(Bool)),
    Slot("lightsBeamLow", Basic(Bool)),
    Slot("lightsBeamHigh", Basic(Bool)),
    Slot("lightsBeacon", Basic(Bool)),
    Slot("lightsBrake", Basic(Bool)),
    Slot("lightsReverse", Basic(Bool)),
    Slot("lightsHazards", Basic(Bool)),
    Slot("cruiseControl", Basic(Bool))
  ]

  const TelemetryZone5d: seq<Entry> := [
    Slot("truckWheelOnGround", Array(Basic(Bool), 16)),
    Slot("shifterToggle", Array(Basic(Bool), 2)),
    Slot("differentialLock", Basic(Bool)),
    Slot("liftAxle", Basic(Bool)),
    Slot("liftAxleIndicator", Basic(Bool)),
    Slot("trailerLiftAxle", Basic(Bool)),
    Slot("trailerLiftAxleIndicator", Basic(Bool)),
    Slot("jobDeliveredAutoparkUsed", Basic(Bool)),
    Slot("jobDeliveredAutoloadUsed", Basic(Bool)),
    Pad(25)
  ]

  const TelemetryZone5: seq<Entry> := TelemetryZone5a + TelemetryZone5b + TelemetryZone5c + TelemetryZone5d

  /** Zone 6 of the telemetry layout, in 4 parts. */

  const TelemetryZone6a: seq<Entry> := [
    Slot("cabinPositionX", Basic(Float)),
    Slot("cabinPositionY", Basic(Float)),
    Slot("cabinPositionY", Basic(Float)),
    Slot("headPositionX", Basic(Float)),
    Slot("headPositionY", Basic(Float)),
    Slot("headPositionZ", Basic(Float)),
    Slot("truckHookPositionX", Basic(Float)),
    Slot("truckHookPositionY", Basic(Float))
  ]

  const TelemetryZone6b: seq<Entry> := [
    Slot("truckHookPositionZ", Basic(Float)),
    Slot("truckWheelPositionX", Array(Basic(Float), 16)),
    Slot("truckWheelPositionY", Array(Basic(Float), 16)),
    Slot("truckWheelPositionZ", Array(Basic(Float), 16)),
    Slot("lv_accelerationX", Basic(Float)),
    Slot("lv_accelerationY", Basic(Float)),
    Slot("lv_accelerationZ", Basic(Float)),
    Slot("av_accelerationX", Basic(Float))
  ]

  const TelemetryZone6c: seq<Entry> := [
    Slot("av_accelerationY", Basic(Float)),
    Slot("av_accelerationZ", Basic(Float)),
    Slot("accelerationX", Basic(Float)),
    Slot("accelerationY", Basic(Float)),
    Slot("accelerationZ", Basic(Float)),
    Slot("aa_accelerationX", Basic(Float)),
    Slot("aa_accelerationY", Basic(Float)),
    Slot("aa_accelerationZ", Basic(Float))
  ]

  const TelemetryZone6d: seq<Entry> := [
    Slot("cabinAVX", Basic(Float)),
    Slot("cabinAVY", Basic(Float)),
    Slot("cabinAVZ", Basic(Float)),
    Slot("cabinAAX", Basic(Float)),
    Slot("cabinAAY", Basic(Float)),
    Slot("cabinAAZ", Basic(Float)),
    Pad(60)
  ]

  const TelemetryZone6: seq<Entry> := TelemetryZone6a + TelemetryZone6b + TelemetryZone6c + TelemetryZone6d

  /** Zone 7 of the telemetry layout, in 2 parts. */

  const TelemetryZone7a: seq<Entry> := [
    Slot("cabinOffsetX", Basic(Float)),
    Slot("cabinOffsetY", Basic(Float)),
    Slot("cabinOffsetZ", Basic(Float)),
    Slot("cabinOffsetrotationX", Basic(Float)),
    Slot("cabinOffsetrotationY", Basic(Float)),
    Slot("cabinOffsetrotationZ", Basic(Float)),
    Slot("headOffsetX", Basic(Float))
  ]

  const TelemetryZone7b: seq<Entry> := [
    Slot("headOffsetY", Basic(Float)),
    Slot("headOffsetZ", Basic(Float)),
    Slot("headOffsetrotationX", Basic(Float)),
    Slot("headOffsetrotationY", Basic(Float)),
    Slot("headOffsetrotationZ", Basic(Float)),
    Pad(152)
  ]

  const TelemetryZone7: seq<Entry> := TelemetryZone7a + TelemetryZone7b

  /** Zone 8 of the telemetry layout. */
  const TelemetryZone8: seq<Entry> := [
    Slot("coordinateX", Basic(Double)),
    Slot("coordinateY", Basic(Double)),
    Slot("coordinateZ", Basic(Double)),
    Slot("rotationX", Basic(Double)),
    Slot("rotationY", Basic(Double)),
    Slot("rotationZ", Basic(Double)),
    Pad(52)
  ]

  /** Zone 9 of the telemetry layout, in 3 parts. */

  const TelemetryZone9a: seq<Entry> := [
    Slot("truckBrandId", Text(64)),
    Slot("truckBrand", Text(64)),
    Slot("truckId", Text(64)),
    Slot("truckName", Text(64)),
    Slot("cargoId", Text(64)),
    Slot("cargo", Text(64)),
    Slot("cityDstId", Text(64)),
    Slot("cityDst", Text(64)),
    Slot("compDstId", Text(64)),
    Slot("compDst", Text(64))
  ]

  const TelemetryZone9b: seq<Entry> := [
    Slot("citySrcId", Text(64)),
    Slot("citySrc", Text(64)),
    Slot("compSrcId", Text(64)),
    Slot("compSrc", Text(64)),
    Slot("shifterType", Text(16)),
    Slot("truckLicensePlate", Text(64)),
    Slot("truckLicensePlateCountryId", Text(64)),
    Slot("truckLicensePlateCountry", Text(64)),
    Slot("jobMarket", Text(32)),
    Slot("fineOffence", Text(32))
  ]

  const TelemetryZone9c: seq<Entry> := [
    Slot("ferrySourceName", Text(64)),
    Slot("ferryTargetName", Text(64)),
    Slot("ferrySourceId", Text(64)),
    Slot("ferryTargetId", Text(64)),
    Slot("trainSourceName", Text(64)),
    Slot("trainTargetName", Text(64)),
    Slot("trainSourceId", Text(64)),
    Slot("trainTargetId", Text(64)),
    Pad(20)
  ]

  const TelemetryZone9: seq<Entry> := TelemetryZone9a + TelemetryZone9b + TelemetryZone9c

  /** Zone 10 of the telemetry layout. */
  const TelemetryZone10: seq<Entry> := [
    Slot("jobIncome", Basic(ULongLong)),
    Pad(192)
  ]

  /** Zone 11 of the telemetry layout. */
  const TelemetryZone11: seq<Entry> := [
    Slot("jobCancelledPenalty", Basic(LongLong)),
    Slot("jobDeliveredRevenue", Basic(LongLong)),
    Slot("fineAmount", Basic(LongLong)),
    Slot("tollgatePayAmount", Basic(LongLong)),
    Slot("ferryPayAmount", Basic(LongLong)),
    Slot("trainPayAmount", Basic(LongLong)),
    Pad(52)
  ]

  /** Zone 12 of the telemetry layout, in 2 parts. */

  const TelemetryZone12a: seq<Entry> := [
    Slot("onJob", Basic(Bool)),
    Slot("jobFinished", Basic(Bool)),
    Slot("jobCancelled", Basic(Bool)),
    Slot("jobDelivered", Basic(Bool)),
    Slot("fined", Basic(Bool)),
    Slot("tollgate", Basic(Bool))
  ]

  const TelemetryZone12b: seq<Entry> := [
    Slot("ferry", Basic(Bool)),
    Slot("train", Basic(Bool)),
    Slot("refuel", Basic(Bool)),
    Slot("refuelPayed", Basic(Bool)),
    Pad(90)
  ]

  const TelemetryZone12: seq<Entry> := TelemetryZone12a + TelemetryZone12b

  /** Zone 13 of the telemetry layout. */
  const TelemetryZone13: seq<Entry> := [
    Slot("substances", Array(Text(64), 25))
  ]

  /** The entries of `struct_telemetry` in zones 1 to 13, which precede the trailer records. */
  const TelemetryFixedLayout: seq<Entry> :=
    TelemetryZone1 + TelemetryZone2 + TelemetryZone3 + TelemetryZone4 + TelemetryZone5 +
    TelemetryZone6 + TelemetryZone7 + TelemetryZone8 + TelemetryZone9 + TelemetryZone10 +
    TelemetryZone11 + TelemetryZone12 + TelemetryZone13

  const TrailerArrayName: string := "trailer"


  lemma TrailerZone1Span()
    ensures Span(TrailerZone1) == 84
  {
  }

  lemma TrailerZone2Span()
    ensures Span(TrailerZone2) == 68
  {
  }

  lemma TrailerZone3aSpan()
    ensures Span(TrailerZone3a) == 144
  {
  }

  lemma TrailerZone3bSpan()
    ensures Span(TrailerZone3b) == 320
  {
  }

  lemma TrailerZone3Span()
    ensures Span(TrailerZone3) == 464
  {
    TrailerZone3aSpan();
    TrailerZone3bSpan();
    SpanAppend(TrailerZone3a, TrailerZone3b);
  }

  lemma TrailerZone4aSpan()
    ensures Span(TrailerZone4a) == 40
  {
  }

  lemma TrailerZone4bSpan()
    ensures Span(TrailerZone4b) == 216
  {
  }

  lemma TrailerZone4Span()
    ensures Span(TrailerZone4) == 256
  {
    TrailerZone4aSpan();
    TrailerZone4bSpan();
    SpanAppend(TrailerZone4a, TrailerZone4b);
  }

  lemma TrailerZone5Span()
    ensures Span(TrailerZone5) == 48
  {
  }

  lemma TrailerZone6Span()
    ensures Span(TrailerZone6) == 640
  {
  }

  lemma TelemetryZone1Span()
    ensures Span(TelemetryZone1) == 40
  {
  }

  lemma TelemetryZone2aSpan()
    ensures Span(TelemetryZone2a) == 36
  {
  }

  lemma TelemetryZone2bSpan()
    ensures Span(TelemetryZone2b) == 36
  {
  }

  lemma TelemetryZone2cSpan()
    ensures Span(TelemetryZone2c) == 388
  {
  }

  lemma TelemetryZone2Span()
    ensures Span(TelemetryZone2) == 460
  {
    TelemetryZone2aSpan();
    TelemetryZone2bSpan();
    TelemetryZone2cSpan();
    SpanAppend(TelemetryZone2a + TelemetryZone2b, TelemetryZone2c);
    SpanAppend(TelemetryZone2a, TelemetryZone2b);
  }

  lemma TelemetryZone3Span()
    ensures Span(TelemetryZone3) == 200
  {
  }

  lemma TelemetryZone4aSpan()
    ensures Span(TelemetryZone4a) == 40
  {
  }

  lemma TelemetryZone4bSpan()
    ensures Span(TelemetryZone4b) == 220
  {
  }

  lemma TelemetryZone4cSpan()
    ensures Span(TelemetryZone4c) == 40
  {
  }

  lemma TelemetryZone4dSpan()
    ensures Span(TelemetryZone4d) == 40
  {
  }

  lemma TelemetryZone4eSpan()
    ensures Span(TelemetryZone4e) == 160
  {
  }

  lemma TelemetryZone4fSpan()
    ensures Span(TelemetryZone4f) == 300
  {
  }

  lemma TelemetryZone4Span()
    ensures Span(TelemetryZone4) == 800
  {
    TelemetryZone4aSpan();
    TelemetryZone4bSpan();
    TelemetryZone4cSpan();
    TelemetryZone4dSpan();
    TelemetryZone4eSpan();
    TelemetryZone4fSpan();
    SpanAppend(TelemetryZone4a + TelemetryZone4b + TelemetryZone4c + TelemetryZone4d + TelemetryZone4e, TelemetryZone4f);
    SpanAppend(TelemetryZone4a + TelemetryZone4b + TelemetryZone4c + TelemetryZone4d, TelemetryZone4e);
    SpanAppend(TelemetryZone4a + TelemetryZone4b + TelemetryZone4c, TelemetryZone4d);
    SpanAppend(TelemetryZone4a + TelemetryZone4b, TelemetryZone4c);
    SpanAppend(TelemetryZone4a, TelemetryZone4b);
  }

  lemma TelemetryZone5aSpan()
    ensures Span(TelemetryZone5a) == 70
  {
  }

  lemma TelemetryZone5bSpan()
    ensures Span(TelemetryZone5b) == 10
  {
  }

  lemma TelemetryZone5cSpan()
    ensures Span(TelemetryZone5c) == 10
  {
  }

  lemma TelemetryZone5dSpan()
    ensures Span(TelemetryZone5d) == 50
  {
  }

  lemma TelemetryZone5Span()
    ensures Span(TelemetryZone5) == 140
  {
    TelemetryZone5aSpan();
    TelemetryZone5bSpan();
    TelemetryZone5cSpan();
    TelemetryZone5dSpan();
    SpanAppend(TelemetryZone5a + TelemetryZone5b + TelemetryZone5c, TelemetryZone5d);
    SpanAppend(TelemetryZone5a + TelemetryZone5b, TelemetryZone5c);
    SpanAppend(TelemetryZone5a, TelemetryZone5b);
  }

  lemma TelemetryZone6aSpan()
    ensures Span(TelemetryZone6a) == 32
  {
  }

  lemma TelemetryZone6bSpan()
    ensures Span(TelemetryZone6b) == 212
  {
  }

  lemma TelemetryZone6cSpan()
    ensures Span(TelemetryZone6c) == 32
  {
  }

  lemma TelemetryZone6dSpan()
    ensures Span(TelemetryZone6d) == 84
  {
  }

  lemma TelemetryZone6Span()
    ensures Span(TelemetryZone6) == 360
  {
    TelemetryZone6aSpan();
    TelemetryZone6bSpan();
    TelemetryZone6cSpan();
    TelemetryZone6dSpan();
    SpanAppend(TelemetryZone6a + TelemetryZone6b + TelemetryZone6c, TelemetryZone6d);
    SpanAppend(TelemetryZone6a + TelemetryZone6b, TelemetryZone6c);
    SpanAppend(TelemetryZone6a, TelemetryZone6b);
  }

  lemma TelemetryZone7aSpan()
    ensures Span(TelemetryZone7a) == 28
  {
  }

  lemma TelemetryZone7bSpan()
    ensures Span(TelemetryZone7b) == 172
  {
  }

  lemma TelemetryZone7Span()
    ensures Span(TelemetryZone7) == 200
  {
    TelemetryZone7aSpan();
    TelemetryZone7bSpan();
    SpanAppend(TelemetryZone7a, TelemetryZone7b);
  }

  lemma TelemetryZone8Span()
    ensures Span(TelemetryZone8) == 100
  {
  }

  lemma TelemetryZone9aSpan()
    ensures Span(TelemetryZone9a) == 640
  {
  }

  lemma TelemetryZone9bSpan()
    ensures Span(TelemetryZone9b) == 528
  {
  }

  lemma TelemetryZone9cSpan()
    ensures Span(TelemetryZone9c) == 532
  {
  }

  lemma TelemetryZone9Span()
    ensures Span(TelemetryZone9) == 1700
  {
    TelemetryZone9aSpan();
    TelemetryZone9bSpan();
    TelemetryZone9cSpan();
    SpanAppend(TelemetryZone9a + TelemetryZone9b, TelemetryZone9c);
    SpanAppend(TelemetryZone9a, TelemetryZone9b);
  }

  lemma TelemetryZone10Span()
    ensures Span(TelemetryZone10) == 200
  {
  }

  lemma TelemetryZone11Span()
    ensures Span(TelemetryZone11) == 100
  {
  }

  lemma TelemetryZone12aSpan()
    ensures Span(TelemetryZone12a) == 6
  {
  }

  lemma TelemetryZone12bSpan()
    ensures Span(TelemetryZone12b) == 94
  {
  }

  lemma TelemetryZone12Span()
    ensures Span(TelemetryZone12) == 100
  {
    TelemetryZone12aSpan();
    TelemetryZone12bSpan();
    SpanAppend(TelemetryZone12a, TelemetryZone12b);
  }

  lemma TelemetryZone13Span()
    ensures Span(TelemetryZone13) == 1600
  {
  }

  // ---------------------------------------------------------------------------
  // Properties of the version 1.12 tables.

  /** Zone 1 decodes to six fields; zone 2 starts with `telemetry_plugin_revision`. */
  lemma PluginRevisionStartsZone2()
    ensures |Fields(TelemetryZone1, 0)| == 6
    ensures |Fields(TelemetryZone2a, 40)| > 0
    ensures Fields(TelemetryZone2a, 40)[0] == Field("telemetry_plugin_revision", 40, Basic(UInt))
  {
  }
}
