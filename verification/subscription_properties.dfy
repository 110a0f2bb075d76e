/**
 * Properties of the two subscription vectors: the duplicate-checked attaches
 * and first-match detaches of the sensors (keyed on a live ECU's id) and of
 * the ECUs (keyed on a sensor's id and type string).
 */
module SubscriptionProperties {
  import opened SensorTypes
  import opened Lists
  import opened Telemetry

  // ---------------------------------------------------------------------
  // Sensor side: Subscribed_ECUs
  // ---------------------------------------------------------------------

  /** Attaching the same ECU a second time changes nothing. */
  lemma AttachEcuIsIdempotent(subs: seq<Ecu>, e: Ecu)
    ensures WithEcu(WithEcu(subs, e), e) == WithEcu(subs, e)
  {
    var once := WithEcu(subs, e);
    if e.alive && !HasLiveWithId(subs, e) {
      assert LiveWithId(once[|subs|], e);
    }
  }

  /**
   * Once a live ECU is subscribed, a different live ECU that reports the same
   * id (possible because ids are handed out again after a destruction) is
   * refused.
   */
  lemma AttachRefusesReusedId(subs: seq<Ecu>, e1: Ecu, e2: Ecu)
    requires e1.alive && e2.alive && e1.id == e2.id
    ensures WithEcu(WithEcu(subs, e1), e2) == WithEcu(subs, e1)
  {
    var once := WithEcu(subs, e1);
    if HasLiveWithId(subs, e1) {
      var i :| 0 <= i < |subs| && LiveWithId(subs[i], e1);
      assert LiveWithId(once[i], e2);
    } else {
      assert LiveWithId(once[|subs|], e2);
    }
  }

  /** Attaching keeps the live entries' ids pairwise distinct. */
  lemma AttachEcuKeepsLiveIdsDistinct(subs: seq<Ecu>, e: Ecu)
    requires LiveIdsDistinct(subs)
    ensures LiveIdsDistinct(WithEcu(subs, e))
  {
  }

  /**
   * Detaching a live ECU right after it was attached restores the vector,
   * when it was not refused as a duplicate.
   */
  lemma DetachEcuUndoesAttach(subs: seq<Ecu>, e: Ecu)
    requires e.alive && !HasLiveWithId(subs, e)
    ensures WithEcu(subs, e) == subs + [e]
    ensures WithoutEcu(WithEcu(subs, e), e) == subs
  {
    var once := subs + [e];
    assert forall j | 0 <= j < |subs| :: once[j] == subs[j] && !LiveMatch(subs[j], e);
    assert LiveMatch(once[|subs|], e);
    assert FirstLiveMatch(once, e) == |subs|;
  }

  /** Detaching only removes an entry: live ids stay pairwise distinct. */
  lemma DetachEcuKeepsLiveIdsDistinct(subs: seq<Ecu>, e: Ecu)
    requires LiveIdsDistinct(subs)
    ensures LiveIdsDistinct(WithoutEcu(subs, e))
  {
  }

  /**
   * When live ids are distinct, detaching a live ECU leaves no live entry
   * that matches it, and the vector shrinks by one exactly when it held one.
   */
  lemma DetachEcuLeavesNoMatch(subs: seq<Ecu>, e: Ecu)
    requires LiveIdsDistinct(subs) && e.alive
    ensures forall x | x in WithoutEcu(subs, e) :: !LiveMatch(x, e)
    ensures |WithoutEcu(subs, e)| == |subs| - (if exists x | x in subs :: LiveMatch(x, e) then 1 else 0)
  {
  }

  /** With distinct live ids, a second detach of the same ECU changes nothing. */
  lemma DetachEcuIsIdempotent(subs: seq<Ecu>, e: Ecu)
    requires LiveIdsDistinct(subs)
    ensures WithoutEcu(WithoutEcu(subs, e), e) == WithoutEcu(subs, e)
  {
  }

  // ---------------------------------------------------------------------
  // ECU side: Subscribed_Sensors
  // ---------------------------------------------------------------------

  /** Attaching the same sensor a second time changes nothing. */
  lemma AttachSensorIsIdempotent(list: seq<Sensor>, s: Sensor)
    ensures WithSensor(WithSensor(list, s), s) == WithSensor(list, s)
  {
    var once := WithSensor(list, s);
    if !HasSensor(list, s) {
      assert SameSensor(once[|list|], s);
    }
  }

  /** Attaching keeps the (id, type) pairs of the entries pairwise distinct. */
  lemma AttachSensorKeepsDistinct(list: seq<Sensor>, s: Sensor)
    requires DistinctSensors(list)
    ensures DistinctSensors(WithSensor(list, s))
  {
  }

  /**
   * Two sensors of different categories that happen to have the same id are
   * both kept: the type string takes part in the duplicate test.
   */
  lemma SameIdDifferentCategoriesBothKept(list: seq<Sensor>, a: Sensor, b: Sensor)
    requires !HasSensor(list, a) && !HasSensor(list, b)
    requires a.id == b.id && a.sensorType != b.sensorType
    ensures WithSensor(WithSensor(list, a), b) == list + [a, b]
  {
  }

  /** Detaching a sensor right after it was attached restores the vector. */
  lemma DetachSensorUndoesAttach(list: seq<Sensor>, s: Sensor)
    requires !HasSensor(list, s)
    ensures WithSensor(list, s) == list + [s]
    ensures WithoutSensor(WithSensor(list, s), s) == list
  {
    var once := list + [s];
    assert forall j | 0 <= j < |list| :: once[j] == list[j] && !SameSensor(list[j], s);
    assert SameSensor(once[|list|], s);
    assert FirstSensorMatch(once, s) == |list|;
  }

  /** Detaching keeps the (id, type) pairs distinct. */
  lemma DetachSensorKeepsDistinct(list: seq<Sensor>, s: Sensor)
    requires DistinctSensors(list)
    ensures DistinctSensors(WithoutSensor(list, s))
  {
  }

  /**
   * With distinct (id, type) pairs, detaching removes the one entry that
   * matches, if any, and no matching entry is left.
   */
  lemma DetachSensorLeavesNoMatch(list: seq<Sensor>, s: Sensor)
    requires DistinctSensors(list)
    ensures !HasSensor(WithoutSensor(list, s), s)
    ensures |WithoutSensor(list, s)| == |list| - (if HasSensor(list, s) then 1 else 0)
  {
  }
}
