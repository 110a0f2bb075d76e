/**
 * The four sensor categories of the vehicle, their integer codes (the values
 * of the `SensorTypes` enumeration), the type strings each sensor class
 * reports from `getType()`, and the exclusive upper bound of the range each
 * category draws its readings from.
 */
module SensorTypes {

  datatype SensorType = Speed | Temperature | Radar | BatteryLevel

  /** Number of slots in an ECU's table: one per sensor category. */
  const SensorTypesCount: nat := 4

  /** The enumeration value; it is the slot of the ECU table the category writes. */
  function Index(t: SensorType): (i: nat)
    ensures i < SensorTypesCount
  {
    match t
    case Speed => 0
    case Temperature => 1
    case Radar => 2
    case BatteryLevel => 3
  }

  /** The string each sensor class returns from `getType()`. */
  function TypeName(t: SensorType): string
  {
    match t
    case Speed => "Speed Sensor"
    case Temperature => "Temperature Sensor"
    case Radar => "Radar Sensor"
    case BatteryLevel => "BatteryLevel Sensor"
  }

  /** Exclusive upper bound of the uniform distribution a category samples from. */
  function UpperBound(t: SensorType): (hi: real)
    ensures 50.0 <= hi <= 320.0
  {
    match t
    case Speed => 320.0
    case Temperature => 320.0
    case Radar => 50.0
    case BatteryLevel => 100.0
  }

  /** A reading the category's random source can produce. */
  predicate InRange(t: SensorType, v: real)
  {
    0.0 <= v < UpperBound(t)
  }

  /** Distinct categories address distinct table slots, and every slot has a category. */
  lemma IndexIsBijective(a: SensorType, b: SensorType, i: nat)
    ensures Index(a) == Index(b) <==> a == b
    ensures i < SensorTypesCount ==> exists t :: Index(t) == i
  {
    if i < SensorTypesCount {
      var t := if i == 0 then Speed else if i == 1 then Temperature else if i == 2 then Radar else BatteryLevel;
      assert Index(t) == i;
    }
  }

  /**
   * Type strings identify the category: comparing `getType()` strings, as the
   * ECUs' duplicate checks do, is comparing categories.
   */
  lemma TypeNameIsInjective(a: SensorType, b: SensorType)
    ensures TypeName(a) == TypeName(b) <==> a == b
  {
  }
}
