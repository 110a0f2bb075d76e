/**
 * Sequences of calls the vehicle makes on the engine, and what they leave
 * behind.
 */
module Scenarios {
  import opened SensorTypes
  import opened SensoryTable
  import opened Telemetry
  import opened SubscriptionProperties

  /**
   * The loop of `Car::StartDiagonisticTool`: each of the car's sensors is
   * attached to the diagnostic ECU and the ECU to the sensor. Starting from
   * an ECU with no sensors, the ECU ends up owning exactly the car's sensors
   * and each sensor lists the ECU once, at the end.
   */
  method SubscribeAll(ghost st: Statics, diag: Ecu, car: seq<Sensor>)
    requires st.Valid() && forall s | s in car :: s in st.liveSensors
    requires diag.alive && diag.sensors == []
    requires DistinctSensors(car)
    requires forall s | s in car :: !HasLiveWithId(s.subscribers, diag)
    modifies diag`sensors, (set s | s in car)`subscribers
    ensures diag.sensors == car
    ensures forall s | s in car :: s.subscribers == old(s.subscribers) + [diag]
    ensures st.Valid()
  {
    for i := 0 to |car|
      invariant st.Valid()
      invariant diag.sensors == car[..i]
      invariant forall j | 0 <= j < i :: car[j].subscribers == old(car[j].subscribers) + [diag]
      invariant forall j | i <= j < |car| :: car[j].subscribers == old(car[j].subscribers)
    {
      var s := car[i];
      assert !HasSensor(car[..i], s);
      diag.AttachSensor(st, s);
      assert car[..i + 1] == car[..i] + [s];
      s.AttachEcu(diag);
    }
    assert car[..|car|] == car;
  }

  /**
   * `Car::StartDiagonisticTool`: subscribes the diagnostic ECU to every
   * sensor of the car and back, then lets it perform its function. The ECU's
   * table then holds every sensor's reading from before the call, while the
   * sensors themselves hold freshly drawn readings.
   */
  method StartDiagnosticTool(ghost st: Statics, diag: Ecu, car: seq<Sensor>)
    requires st.Valid() && forall s | s in car :: s in st.liveSensors
    requires diag.kind == Diagnostics && diag.alive && diag.sensors == []
    requires DistinctSensors(car)
    requires forall s | s in car :: !HasLiveWithId(s.subscribers, diag)
    modifies diag`sensors, diag`on, diag`table
    modifies (set s | s in car)`subscribers, (set s | s in car)`reading
    modifies (set s, e | s in car && e in s.subscribers :: e)`table
    ensures diag.sensors == car && diag.on
    ensures forall s | s in car :: s.subscribers == old(s.subscribers) + [diag]
    ensures forall k | 0 <= k < |car| ::
              Lookup(diag.table, car[k].sensorType, car[k].id) == Some(old(car[k].reading))
    ensures forall s | s in car :: InRange(s.sensorType, s.reading)
    ensures st.Valid()
  {
    SubscribeAll(st, diag, car);
    RunDiagnostics(diag, car);
  }

  /**
   * The second half of `Car::StartDiagonisticTool`: the diagnostic ECU, which
   * owns exactly the car's sensors and is listed by each of them, performs its
   * function.
   */
  method RunDiagnostics(diag: Ecu, car: seq<Sensor>)
    requires diag.kind == Diagnostics && diag.alive && diag.sensors == car
    requires DistinctSensors(car)
    requires forall s | s in car :: diag in s.subscribers
    modifies diag`on, (set s | s in car)`reading
    modifies (set s, e | s in car && e in s.subscribers :: e)`table
    ensures diag.sensors == car && diag.on
    ensures forall k | 0 <= k < |car| ::
              Lookup(diag.table, car[k].sensorType, car[k].id) == Some(old(car[k].reading))
    ensures forall s | s in car :: InRange(s.sensorType, s.reading)
  {
    ghost var pushed := Pushed(diag.table, car, diag);
    forall k | 0 <= k < |car|
      ensures Lookup(pushed, car[k].sensorType, car[k].id) == Some(car[k].reading)
    {
      PushedReadsBack(diag.table, car, diag, k);
    }
    if car != [] {
      assert diag in car[0].subscribers;
    }
    assert diag in diag.UpdateTargets() || car == [];
    diag.PerformFunction(car);
  }

  /** Creates two ECUs, destroys the first and creates a third. */
  method CreateDestroyCreate(st: Statics) returns (a: Ecu, b: Ecu)
    requires st.Valid()
    modifies st
    ensures st.Valid() && fresh(a) && fresh(b)
    ensures a.alive && b.alive && a != b && a.id == b.id
  {
    var first := new Ecu(AdaptiveCruiseControl, st);
    a := new Ecu(AdaptiveCruiseControl, st);
    first.Destroy(st);
    b := new Ecu(Diagnostics, st);
  }

  /**
   * Ids are handed out again: after an ECU is destroyed, the next ECU gets
   * the id of the newest live one. A sensor that already lists the first of
   * the two then refuses the second.
   */
  method ReusedEcuIdRefused(st: Statics, s: Sensor) returns (a: Ecu, b: Ecu)
    requires st.Valid()
    modifies st, s`subscribers
    ensures st.Valid()
    ensures a.alive && b.alive && a != b && a.id == b.id
    ensures s.subscribers == WithEcu(old(s.subscribers), a)
    ensures b !in s.subscribers
  {
    a, b := CreateDestroyCreate(st);
    s.AttachEcu(a);
    s.AttachEcu(b);
    AttachRefusesReusedId(old(s.subscribers), a, b);
  }

  /** Three speed sensors created in a row, starting from a zero counter, get ids 1, 2 and 3. */
  method ThreeSpeedSensors(st: Statics) returns (first: Sensor, second: Sensor, third: Sensor)
    requires st.Valid() && st.SensorCount(Speed) == 0
    modifies st
    ensures st.Valid() && st.SensorCount(Speed) == 3
    ensures first.sensorType == second.sensorType == third.sensorType == Speed
    ensures first.id == 1 && second.id == 2 && third.id == 3
    ensures first in st.liveSensors && second in st.liveSensors && third in st.liveSensors
    ensures forall e | e in st.liveEcus :: second !in e.sensors
  {
    first := new Sensor(Speed, st);
    second := new Sensor(Speed, st);
    third := new Sensor(Speed, st);
  }

  /**
   * Three speed sensors are created and the second is destroyed: the live
   * count is 2 and the survivors keep ids 1 and 3; the next speed sensor
   * created is given id 3 again.
   */
  method SpeedSensorLifecycle(st: Statics) returns (first: Sensor, third: Sensor, live: int, next: Sensor)
    requires st.Valid() && st.SensorCount(Speed) == 0
    modifies st
    ensures st.Valid()
    ensures live == 2 && first.id == 1 && third.id == 3
    ensures next.id == third.id && next != third
    ensures next in st.liveSensors && third in st.liveSensors
  {
    var second;
    first, second, third := ThreeSpeedSensors(st);
    second.Destroy(st);
    live := first.GetSensorCount(st);
    next := new Sensor(Speed, st);
  }
}
