# Vehicle telemetry: sensor/ECU subscription and fan-out

This project models the subscription and fan-out engine of a vehicle
telemetry simulator written in C++. It also proves properties of that model.

- **Sensors.** There are four sensor classes: speed, temperature, radar and
  battery level. Each keeps a current reading and a per-class instance
  counter that hands out its ids. All four share one total counter. Each
  sensor also keeps a vector of non-owning (weak) references to the ECUs
  it notifies.
- **ECUs.** There are two ECU classes: adaptive cruise control and
  diagnostics. Each ECU gets its id from a counter shared by all ECUs. It
  keeps a table of the most recent readings, with one id-to-value map per
  sensor category. It also keeps a vector of owning references to the
  sensors it watches, and an on/off flag.
- **Broadcast.** The diagnostic ECU's `update` makes every sensor it owns
  push its stored reading into the table of every live ECU that sensor
  lists.

The model is imperative, like the source:

- `Telemetry.Sensor` and `Telemetry.Ecu` are classes whose fields the methods
  update in place. One `Sensor` class covers the four sensor classes and
  carries a `sensorType`. One `Ecu` class covers the two ECU classes and
  carries a `kind`. The four sensor classes differ only in the category
  index, the type string and the sampling range.
- A weak reference "expires" when its ECU's destructor has run
  (`Ecu.alive == false`). Every operation that would `lock()` such a
  reference does nothing.
- The static counters live in one `Statics` object. Constructors and
  destructors (`Destroy`) update it. Its invariant `Valid` ties each counter
  to a ghost record of the constructor and destructor calls (module
  `Ledger`) and to the number of live objects.
- Each vector operation is a loop, proved against a specification function
  on sequences: `WithEcu`/`WithoutEcu` and `WithSensor`/`WithoutSensor`.
  The properties of those functions are proved in `SubscriptionProperties`.
- `Pushed` specifies the broadcast: the table an ECU ends up with after a
  sequence of sensors has notified their subscribers.

Two behaviours of the code shape the model:

- **Ids are reused.** The source's comments call ECU and sensor ids unique
  ("assigns a unique ID to the ECU", ECU/ECU.cpp:31; "Unique identifier for
  the ECU", ECU/ECU.hpp:114; "The unique identifier for the speed sensor",
  Sensors/SpeedSensor.cpp:36). The code does not keep that promise: the id
  is the counter after increment, and destructors decrement that same
  counter. After a destruction, the next object therefore gets an id that a
  live object may still hold. `Ledger.ReissuedAfterDestruction`,
  `Scenarios.SpeedSensorLifecycle` and `Scenarios.CreateDestroyCreate` show
  this. `Scenarios.ReusedEcuIdRefused` shows the consequence: a sensor
  refuses the second of two live ECUs that share an id.
- **Broadcast pushes stored readings.** `NotifyAllECUs` pushes each
  sensor's stored reading. The diagnostic ECU's `PerformFunction` calls
  `update()` first and `c.UpdateSensorsData()` after it
  (ECU/DiagnosticsECU.cpp:80-81), so what it pushed are the readings from
  before the resample (`Ecu.PerformFunction`,
  `Scenarios.StartDiagnosticTool`).
- **Sampling ranges are half-open.** Readings come from a uniform real
  distribution on `[0, hi)`, and the model keeps that.

## Model

| member | source | states |
|---|---|---|
| SensorTypes.Index | Sensors/Sensor.hpp:59-64 | each category's enumeration value is below the table size 4 |
| SensorTypes.IndexIsBijective | Sensors/Sensor.hpp:59-64 | the four categories have pairwise distinct indices, and every index 0..3 belongs to a category |
| SensorTypes.UpperBound | Sensors/SpeedSensor.cpp:12 | every category samples below a bound between 50 and 320 (320, 320, 50, 100 for speed, temperature, radar, battery level) |
| SensorTypes.TypeNameIsInjective | Sensors/SpeedSensor.hpp:123 | two sensors report the same type string exactly when they have the same category, so comparing `getType()` strings compares categories |
| SensoryTable.EmptyTable | ECU/ECU.cpp:33 | a new ECU table has all four slots and no cell written |
| SensoryTable.Store | Sensors/SpeedSensor.cpp:167 | writing (category, id) makes that cell hold the value and leaves every other cell as it was |
| SensoryTable.SameCellsSameTable | ECU/ECU.hpp:110-111 | a table is determined by its cells |
| SensoryTable.StoreIsIdempotent | Sensors/SpeedSensor.cpp:180-184 | pushing the same reading twice leaves the table as pushing it once |
| SensoryTable.StoresCommute | ECU/DiagnosticsECU.cpp:114-119 | writes to different cells give the same table in either order |
| Ledger.TotalIsSumOfCategories | Sensors/Sensor.hpp:152 | after any sequence of sensor constructions and destructions, the shared total equals the sum of the four category counters |
| Ledger.CountWithoutDestruction | ECU/ECU.cpp:34-35 | without destructions, a counter equals the number of constructions |
| Ledger.IdsWithoutDestruction | ECU/ECU.cpp:34-35 | starting from 0 with no destruction, n constructions receive ids 1..n in creation order |
| Ledger.ReissuedAfterDestruction | ECU/ECU.cpp:22-35 | construct, destroy, construct: the last two constructions receive the same id, one more than the counter before |
| Lists.RemoveAt | Sensors/SpeedSensor.cpp:138 | `erase` at the found position drops exactly that entry and keeps the others in order; the end position (the vector's length) stands for "no match", where the source calls no `erase` and nothing changes |
| Telemetry.Statics.constructor | ECU/ECU.cpp:5 | every static counter starts at 0, with no object alive |
| Telemetry.Statics.IncrementSensorCount | Sensors/SpeedSensor.cpp:95 | the category's counter goes up by one, and no other counter changes |
| Telemetry.Statics.DecrementSensorCount | Sensors/SpeedSensor.cpp:15 | the category's counter goes down by one, and no other counter changes |
| Telemetry.Statics.EcuConstructed | ECU/ECU.cpp:34-35 | `ECU_Count` goes up by one, the new ECU becomes live, and the counter invariant (counters agree with the ledger and the live populations; live ECUs own only live sensors) still holds |
| Telemetry.Statics.EcuDestructed | ECU/ECU.cpp:22-24 | `ECU_Count` goes down by one, the ECU leaves the live population, and the counter invariant still holds |
| Telemetry.Statics.SensorConstructed | Sensors/SpeedSensor.cpp:95-98 | the category's counter and `total_sensor_count` go up by one, no other counter moves, the sensor becomes live, and the counter invariant still holds |
| Telemetry.Statics.SensorDestructed | Sensors/SpeedSensor.cpp:13-15 | for a sensor no live ECU owns, the category's counter and `total_sensor_count` go down by one, no other counter moves, and the counter invariant still holds |
| Telemetry.AgreesAfterEcuEvent | ECU/ECU.cpp:22-35 | an ECU construction or destruction keeps `ECU_Count` equal to the ledger's value and to the number of live ECUs, and leaves the sensor counters in agreement |
| Telemetry.AgreesAfterSensorEvent | Sensors/Sensor.hpp:152 | a sensor construction or destruction keeps its category counter and `total_sensor_count` equal to the ledger's values and to the live populations, and leaves the other counters in agreement |
| Telemetry.FirstLiveMatch | Sensors/SpeedSensor.cpp:134-150 | the index found is the first entry that is live and matches by id and name, or the end if there is none |
| Telemetry.FirstSensorMatch | ECU/DiagnosticsECU.cpp:56-65 | the index found is the first entry that matches by (id, type string), or the end if there is none |
| Telemetry.PushedReadsBack | ECU/DiagnosticsECU.cpp:114-119 | after the broadcast, a live ECU listed by a sensor holds that sensor's stored reading in its cell, provided the sensors have distinct (id, type) pairs |
| Telemetry.PushedLeavesUnlinkedCell | ECU/DiagnosticsECU.cpp:116 | the broadcast does not write an ECU's cell unless a sensor owning that cell lists the ECU back; a one-sided link writes nothing |
| Telemetry.PushedUnlinked | ECU/DiagnosticsECU.cpp:114-119 | an ECU that no broadcasting sensor lists keeps its whole table |
| Telemetry.Ecu.constructor | ECU/ECU.cpp:33-37 | `ECU_Count` goes up by one and becomes the new id; the table is empty; the ECU is live, has no sensors and its flag is off; its name is "Adaptive Cruise Control ECU" or "Diagnostic ECU" by kind (ECU/Adaptive_Cruise_Control_ECU.cpp:11-14, ECU/DiagnosticsECU.cpp:12-15); the counter invariant holds |
| Telemetry.Ecu.Destroy | ECU/ECU.cpp:22-25 | `ECU_Count` goes down by one; weak references to the ECU expire; the counter invariant holds |
| Telemetry.Ecu.GetEcuCount | ECU/ECU.cpp:12-14 | returns the number of live ECUs and changes nothing |
| Telemetry.Ecu.AttachSensor | ECU/Adaptive_Cruise_Control_ECU.cpp:33-45 | the vector becomes `WithSensor`: unchanged if an entry has the sensor's (id, type string), else the sensor is appended (identically in ECU/DiagnosticsECU.cpp:34-46); the argument is a live sensor, as an owning `shared_ptr` is, and every ECU keeps owning only live sensors |
| Telemetry.Ecu.DeattachSensor | ECU/Adaptive_Cruise_Control_ECU.cpp:55-68 | the vector becomes `WithoutSensor`: the first (id, type string) match is erased, and it is unchanged if there is none (identically in ECU/DiagnosticsECU.cpp:55-68); every ECU keeps owning only live sensors |
| Telemetry.Ecu.FindSensor | ECU/DiagnosticsECU.cpp:56-65 | the iterator loop stops at the first entry with the sensor's (id, type string), or at the end if there is none: the position `FirstSensorMatch` names |
| Telemetry.Ecu.Update | ECU/DiagnosticsECU.cpp:114-119 | every ECU reachable from the owned sensors ends with `Pushed`; this ECU's cell for each owned sensor that lists it holds that sensor's reading; vectors and readings are unchanged |
| Telemetry.Ecu.PerformFunction | ECU/DiagnosticsECU.cpp:77-82 | the flag is on afterwards; the diagnostic ECU's broadcast gives every reachable table the readings held before the call, and the car's sensors then hold fresh in-range readings; the adaptive cruise control ECU (ECU/Adaptive_Cruise_Control_ECU.cpp:78-81) changes no table and no reading |
| Telemetry.ResampleCarSensors | car/Car.cpp:55-60 | every sensor of the car holds a reading in its category's range |
| Telemetry.Sensor.constructor | Sensors/SpeedSensor.cpp:95-98 | the category counter goes up by one and becomes the id; the reading is 0.0; the total goes up by one; the counter invariant holds (likewise Sensors/TemperatureSensor.cpp:91-95, Sensors/RadarSensor.cpp:90-93, Sensors/BatteryLevelSensor.cpp:83-86) |
| Telemetry.Sensor.Destroy | Sensors/SpeedSensor.cpp:14-16 | once no live ECU owns the sensor, its category counter and the total go down by one; the counter invariant holds (likewise Sensors/TemperatureSensor.cpp:15-17, Sensors/RadarSensor.cpp:16-18, Sensors/BatteryLevelSensor.cpp:9-11) |
| Telemetry.Sensor.GetSensorCount | Sensors/SpeedSensor.cpp:47-49 | returns the number of live sensors of the category |
| Telemetry.Sensor.GetTotalSensorsCount | Sensors/SpeedSensor.cpp:191-193 | returns the number of live sensors, which equals the sum of the four category counters |
| Telemetry.Sensor.GetRandomData | Sensors/SpeedSensor.cpp:63-67 | draws a value in `[0, hi)`, stores it, and returns it |
| Telemetry.Sensor.SensorRead | Sensors/SpeedSensor.cpp:54-56 | afterwards the reading is in the category's range |
| Telemetry.Sensor.GetSensorData | Sensors/SpeedSensor.cpp:74-77 | returns exactly the freshly stored reading, which is in the category's range `[0, hi)`: `[0, 50)` for radar (Sensors/RadarSensor.cpp:71-74) |
| Telemetry.Sensor.AttachEcu | Sensors/SpeedSensor.cpp:105-125 | the vector becomes `WithEcu`: a live ECU is appended unless a live entry has its id; an expired argument changes nothing |
| Telemetry.Sensor.DeAttachEcu | Sensors/SpeedSensor.cpp:132-158 | the vector becomes `WithoutEcu`: for a live argument, the first live entry matching by id and name is erased, skipping expired entries; otherwise nothing changes |
| Telemetry.Sensor.FindLiveMatch | Sensors/SpeedSensor.cpp:134-150 | the iterator loop stops at the first entry that still locks and matches by id and name, skipping expired ones, or at the end: the position `FirstLiveMatch` names |
| Telemetry.Sensor.UpdateEcu | Sensors/SpeedSensor.cpp:165-175 | a live ECU's table gets this sensor's reading in exactly its (category, id) cell; an expired ECU's table is unchanged |
| Telemetry.Sensor.NotifyAllEcus | Sensors/SpeedSensor.cpp:180-184 | every live subscriber holds the stored reading in this sensor's cell; expired ones keep their table; the reading is pushed without a new draw, and the vector is unchanged (likewise Sensors/TemperatureSensor.cpp:176-180) |
| SubscriptionProperties.AttachEcuIsIdempotent | Sensors/SpeedSensor.cpp:107-118 | attaching the same ECU twice equals attaching it once |
| SubscriptionProperties.AttachRefusesReusedId | Sensors/SpeedSensor.cpp:109 | once a live ECU is subscribed, another live ECU reporting the same id is refused |
| SubscriptionProperties.AttachEcuKeepsLiveIdsDistinct | Sensors/SpeedSensor.cpp:105-125 | attaching keeps the ids of live entries pairwise distinct |
| SubscriptionProperties.DetachEcuUndoesAttach | Sensors/SpeedSensor.cpp:132-158 | detaching right after an admitted attach restores the vector |
| SubscriptionProperties.DetachEcuKeepsLiveIdsDistinct | Sensors/RadarSensor.cpp:126-152 | detaching keeps the ids of live entries pairwise distinct |
| SubscriptionProperties.DetachEcuLeavesNoMatch | Sensors/TemperatureSensor.cpp:128-154 | with distinct live ids, no live match is left and exactly one entry is removed when there was one |
| SubscriptionProperties.DetachEcuIsIdempotent | Sensors/BatteryLevelSensor.cpp:119-145 | with distinct live ids, a second detach changes nothing |
| SubscriptionProperties.AttachSensorIsIdempotent | ECU/Adaptive_Cruise_Control_ECU.cpp:33-45 | attaching the same sensor twice equals attaching it once |
| SubscriptionProperties.AttachSensorKeepsDistinct | ECU/DiagnosticsECU.cpp:34-46 | attaching keeps the (id, type) pairs pairwise distinct |
| SubscriptionProperties.SameIdDifferentCategoriesBothKept | ECU/Adaptive_Cruise_Control_ECU.cpp:36 | two sensors with equal ids but different categories are both admitted, in order |
| SubscriptionProperties.DetachSensorUndoesAttach | ECU/Adaptive_Cruise_Control_ECU.cpp:55-68 | detaching right after an admitted attach restores the vector |
| SubscriptionProperties.DetachSensorKeepsDistinct | ECU/DiagnosticsECU.cpp:55-68 | detaching keeps the (id, type) pairs pairwise distinct |
| SubscriptionProperties.DetachSensorLeavesNoMatch | ECU/DiagnosticsECU.cpp:55-68 | with distinct pairs, no match is left and exactly one entry is removed when there was one, so a second detach finds nothing |
| Scenarios.SubscribeAll | car/Car.cpp:159-162 | starting with no sensors, the diagnostic ECU owns exactly the car's sensors, and each sensor lists the ECU once, at the end |
| Scenarios.StartDiagnosticTool | car/Car.cpp:155-165 | after start-up, the diagnostic ECU owns exactly the car's sensors, its table holds every car sensor's reading from before the call, the sensors hold fresh in-range readings, and the counter invariant still holds |
| Scenarios.RunDiagnostics | car/Car.cpp:164 | a diagnostic ECU listed by each of the car's sensors, with distinct (id, type) pairs, ends with every sensor's prior reading in its table, and the sensors are resampled |
| Scenarios.CreateDestroyCreate | ECU/ECU.cpp:22-35 | create two ECUs, destroy the first, create another: the two live ECUs share an id |
| Scenarios.ReusedEcuIdRefused | Sensors/SpeedSensor.cpp:105-118 | a sensor subscribed to one of two live ECUs with the same id refuses the other |
| Scenarios.ThreeSpeedSensors | Sensors/SpeedSensor.cpp:95 | from a zero counter, three speed sensors created in a row get ids 1, 2 and 3 and are all live |
| Scenarios.SpeedSensorLifecycle | Sensors/SpeedSensor.cpp:14-16 | three speed sensors created and the second destroyed: live count 2, survivors keep ids 1 and 3, and the next speed sensor gets id 3 again |

## Left out

- Logging (`Logger`, `PrintInfo`, the `std::cout` lines in the ECU constructor and destructor) is output only and is not modelled.
- The clock-seeded random engines and the uniform distributions are replaced by an arbitrary choice in `[0, hi)`. The distribution itself is not modelled.
- Atomics and concurrency are not modelled: the model is sequential, and the increment and the read of `ECU_Count` happen together.
- Floating point: readings are `real`. They are only stored and copied, never combined.
- Shared ownership is reduced to the precondition of `Telemetry.Sensor.Destroy`: a sensor is destroyed only when no live ECU owns it. Reference counts are not modelled. Destroying an ECU does not cascade to the sensors it owned.
- The getters `getID`, `getName`, `IsON`, `getSensorID` and `getType` are the fields `id`, `name`, `on`, `id`, and `TypeName(sensorType)`. Their constant parts are `const` fields.
- ECUs cannot be copied or moved in the source. The model identifies ECUs by object reference, which captures this.
- `Car` as a whole is not part of this model. Not modelled: its construction, `setAdaptiveMode`, `DisplayStatus` with its floating-point thresholds, and the `Car_info` map, which `PerformFunction` updates on a by-value copy that is then discarded. Only `UpdateSensorsData` is modelled (as `Telemetry.ResampleCarSensors`), together with the start-up sequence of `StartDiagonisticTool`.
- `src/main.cpp` (an endless loop with sleeps) is not part of this model.
- Telemetry.Ecu.Update: its read-back clause assumes the owned sensors have pairwise distinct (id, type) pairs. `AttachSensor` maintains this (`SubscriptionProperties.AttachSensorKeepsDistinct`). Without it, the last of two clashing sensors wins the cell.
- SubscriptionProperties.DetachEcuIsIdempotent: stated for subscriber vectors whose live entries have distinct ids (`LiveIdsDistinct`). Every vector the program builds has this property: it starts empty, `AttachEcu` keeps it (`SubscriptionProperties.AttachEcuKeepsLiveIdsDistinct`), `DeAttachEcu` keeps it (`SubscriptionProperties.DetachEcuKeepsLiveIdsDistinct`), and an ECU's destruction only turns live entries into expired ones. The model does not carry it as an invariant of `Sensor`.
