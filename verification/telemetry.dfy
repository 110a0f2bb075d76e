/**
 * The sensor/ECU subscription and fan-out engine.
 *
 * A `Sensor` (one class for the four sensor classes, told apart by
 * `sensorType`) holds its current reading and a vector of non-owning
 * references to the ECUs it notifies. An `Ecu` (one class for the adaptive
 * cruise control and diagnostic ECUs, told apart by `kind`) holds a table of
 * the most recent readings and a vector of owning references to the sensors it
 * watches. A weak reference to an ECU "expires" when the ECU's destructor has
 * run: `alive` is then false and every operation that would lock the
 * reference does nothing. The program's static counters live in one
 * `Statics` object that constructors and destructors update.
 */
module Telemetry {
  import opened SensorTypes
  import opened SensoryTable
  import opened Ledger
  import opened Lists

  datatype EcuKind = AdaptiveCruiseControl | Diagnostics

  /** The `name` each ECU constructor sets (equal to its `type`). */
  function EcuName(k: EcuKind): string
  {
    match k
    case AdaptiveCruiseControl => "Adaptive Cruise Control ECU"
    case Diagnostics => "Diagnostic ECU"
  }

  // ---------------------------------------------------------------------
  // Static counters
  // ---------------------------------------------------------------------

  /**
   * The static data members: `ECU::ECU_Count`, `Sensor::total_sensor_count`
   * and the four per-class sensor counters. The ghost fields record the
   * constructor/destructor calls so far and the objects alive now.
   */
  class Statics {
    var ecuCount: int
    var totalSensorCount: int
    var speedSensorCount: int
    var temperatureSensorCount: int
    var radarSensorCount: int
    var batteryLevelSensorCount: int

    ghost var history: seq<Event>
    ghost var liveEcus: set<Ecu>
    ghost var liveSensors: set<Sensor>

    /** The per-class counter of sensor category `t`. */
    function SensorCount(t: SensorType): int
      reads this`speedSensorCount, this`temperatureSensorCount, this`radarSensorCount, this`batteryLevelSensorCount
    {
      match t
      case Speed => speedSensorCount
      case Temperature => temperatureSensorCount
      case Radar => radarSensorCount
      case BatteryLevel => batteryLevelSensorCount
    }

    ghost function LiveOf(t: SensorType): set<Sensor>
      reads this`liveSensors
    {
      OfType(liveSensors, t)
    }

    /** The values of the six counters now. */
    ghost function Counters(): (c: Tally)
      reads this`ecuCount, this`totalSensorCount
      reads this`speedSensorCount, this`temperatureSensorCount, this`radarSensorCount, this`batteryLevelSensorCount
      ensures c.ecus == ecuCount && c.total == totalSensorCount
      ensures forall t :: c.Of(t) == SensorCount(t)
    {
      Tally(ecuCount, totalSensorCount, speedSensorCount, temperatureSensorCount, radarSensorCount, batteryLevelSensorCount)
    }

    /**
     * Every counter is the ledger's value for the calls so far and equals the
     * number of objects of its kind alive now; live ECUs are not expired, and
     * the sensors a live ECU owns are alive.
     */
    ghost predicate Valid()
      reads this, liveEcus`alive, liveEcus`sensors
    {
      && Agrees(Counters(), history, liveEcus, liveSensors)
      && (forall e | e in liveEcus :: e.alive)
      && (forall e, s | e in liveEcus && s in e.sensors :: s in liveSensors)
    }

    /** Program start: every static counter is initialised to 0. */
    constructor ()
      ensures Valid()
      ensures history == [] && liveEcus == {} && liveSensors == {}
      ensures ecuCount == 0 && totalSensorCount == 0
      ensures forall t :: SensorCount(t) == 0
    {
      ecuCount, totalSensorCount := 0, 0;
      speedSensorCount, temperatureSensorCount, radarSensorCount, batteryLevelSensorCount := 0, 0, 0, 0;
      history, liveEcus, liveSensors := [], {}, {};
    }

    /** `++` on the per-class counter of category `t`. */
    method IncrementSensorCount(t: SensorType)
      modifies this
      ensures SensorCount(t) == old(SensorCount(t)) + 1
      ensures forall u | u != t :: SensorCount(u) == old(SensorCount(u))
      ensures ecuCount == old(ecuCount) && totalSensorCount == old(totalSensorCount)
      ensures history == old(history) && liveEcus == old(liveEcus) && liveSensors == old(liveSensors)
    {
      match t
      case Speed => speedSensorCount := speedSensorCount + 1;
      case Temperature => temperatureSensorCount := temperatureSensorCount + 1;
      case Radar => radarSensorCount := radarSensorCount + 1;
      case BatteryLevel => batteryLevelSensorCount := batteryLevelSensorCount + 1;
    }

    /** `--` on the per-class counter of category `t`. */
    method DecrementSensorCount(t: SensorType)
      modifies this
      ensures SensorCount(t) == old(SensorCount(t)) - 1
      ensures forall u | u != t :: SensorCount(u) == old(SensorCount(u))
      ensures ecuCount == old(ecuCount) && totalSensorCount == old(totalSensorCount)
      ensures history == old(history) && liveEcus == old(liveEcus) && liveSensors == old(liveSensors)
    {
      match t
      case Speed => speedSensorCount := speedSensorCount - 1;
      case Temperature => temperatureSensorCount := temperatureSensorCount - 1;
      case Radar => radarSensorCount := radarSensorCount - 1;
      case BatteryLevel => batteryLevelSensorCount := batteryLevelSensorCount - 1;
    }

    /**
     * The counter update of the ECU constructor: `ECU_Count` goes up by one
     * and the new ECU, which owns no sensor yet, becomes live.
     */
    method EcuConstructed(e: Ecu)
      requires Valid() && e !in liveEcus && e.alive && e.sensors == []
      modifies this
      ensures Valid()
      ensures ecuCount == old(ecuCount) + 1 && totalSensorCount == old(totalSensorCount)
      ensures forall t :: SensorCount(t) == old(SensorCount(t))
      ensures history == old(history) + [Constructed(EcuCounter)]
      ensures liveEcus == old(liveEcus) + {e} && liveSensors == old(liveSensors)
    {
      AgreesAfterEcuEvent(Counters(), history, liveEcus, liveSensors, e, true);
      ecuCount := ecuCount + 1;
      history := history + [Constructed(EcuCounter)];
      liveEcus := liveEcus + {e};
    }

    /** The counter update of the ECU destructor: `ECU_Count` goes down by one. */
    method EcuDestructed(e: Ecu)
      requires Valid() && e in liveEcus
      modifies this
      ensures Valid()
      ensures ecuCount == old(ecuCount) - 1 && totalSensorCount == old(totalSensorCount)
      ensures forall t :: SensorCount(t) == old(SensorCount(t))
      ensures history == old(history) + [Destructed(EcuCounter)]
      ensures liveEcus == old(liveEcus) - {e} && liveSensors == old(liveSensors)
    {
      AgreesAfterEcuEvent(Counters(), history, liveEcus, liveSensors, e, false);
      ecuCount := ecuCount - 1;
      history := history + [Destructed(EcuCounter)];
      liveEcus := liveEcus - {e};
    }

    /**
     * The counter updates of a sensor constructor: the category's counter and
     * the shared total go up by one, and the new sensor becomes live.
     */
    method SensorConstructed(s: Sensor)
      requires Valid() && s !in liveSensors
      modifies this
      ensures Valid()
      ensures SensorCount(s.sensorType) == old(SensorCount(s.sensorType)) + 1
      ensures forall u | u != s.sensorType :: SensorCount(u) == old(SensorCount(u))
      ensures totalSensorCount == old(totalSensorCount) + 1 && ecuCount == old(ecuCount)
      ensures history == old(history) + [Constructed(SensorCounter(s.sensorType))]
      ensures liveSensors == old(liveSensors) + {s} && liveEcus == old(liveEcus)
    {
      AgreesAfterSensorEvent(Counters(), history, liveEcus, liveSensors, s, true);
      IncrementSensorCount(s.sensorType);
      totalSensorCount := totalSensorCount + 1;
      history := history + [Constructed(SensorCounter(s.sensorType))];
      liveSensors := liveSensors + {s};
      TallyEquality(Counters(), old(Counters()).Moved(s.sensorType, 1));
    }

    /**
     * The counter updates of a sensor destructor, which runs once no live ECU
     * owns the sensor: the category's counter and the shared total go down by
     * one.
     */
    method SensorDestructed(s: Sensor)
      requires Valid() && s in liveSensors
      requires forall e | e in liveEcus :: s !in e.sensors
      modifies this
      ensures Valid()
      ensures SensorCount(s.sensorType) == old(SensorCount(s.sensorType)) - 1
      ensures forall u | u != s.sensorType :: SensorCount(u) == old(SensorCount(u))
      ensures totalSensorCount == old(totalSensorCount) - 1 && ecuCount == old(ecuCount)
      ensures history == old(history) + [Destructed(SensorCounter(s.sensorType))]
      ensures liveSensors == old(liveSensors) - {s} && liveEcus == old(liveEcus)
    {
      AgreesAfterSensorEvent(Counters(), history, liveEcus, liveSensors, s, false);
      DecrementSensorCount(s.sensorType);
      totalSensorCount := totalSensorCount - 1;
      history := history + [Destructed(SensorCounter(s.sensorType))];
      liveSensors := liveSensors - {s};
      TallyEquality(Counters(), old(Counters()).Moved(s.sensorType, -1));
    }
  }

  /** The values of the six static counters at one moment. */
  datatype Tally = Tally(ecus: int, total: int, speed: int, temperature: int, radar: int, batteryLevel: int)
  {
    /** The counter of sensor category `t`. */
    function Of(t: SensorType): int
    {
      match t
      case Speed => speed
      case Temperature => temperature
      case Radar => radar
      case BatteryLevel => batteryLevel
    }

    /** A sensor event of category `t`: that category's counter and the total move by `d`. */
    function Moved(t: SensorType, d: int): (r: Tally)
      ensures r.ecus == ecus && r.total == total + d
      ensures forall u :: r.Of(u) == Of(u) + (if u == t then d else 0)
    {
      match t
      case Speed => this.(total := total + d, speed := speed + d)
      case Temperature => this.(total := total + d, temperature := temperature + d)
      case Radar => this.(total := total + d, radar := radar + d)
      case BatteryLevel => this.(total := total + d, batteryLevel := batteryLevel + d)
    }
  }

  /** Two tallies with the same counters are the same. */
  lemma TallyEquality(a: Tally, b: Tally)
    requires a.ecus == b.ecus && a.total == b.total
    requires forall t :: a.Of(t) == b.Of(t)
    ensures a == b
  {
    assert a.Of(Speed) == b.Of(Speed) && a.Of(Temperature) == b.Of(Temperature);
    assert a.Of(Radar) == b.Of(Radar) && a.Of(BatteryLevel) == b.Of(BatteryLevel);
  }

  /**
   * The counters `c` are the ledger's values for the events `h`, and each
   * equals the number of objects of its kind alive.
   */
  ghost predicate Agrees(c: Tally, h: seq<Event>, liveEcus: set<Ecu>, liveSensors: set<Sensor>)
  {
    && c.ecus == Count(h, EcuCounter) == |liveEcus|
    && c.total == SensorTotal(h) == |liveSensors|
    && (forall t :: c.Of(t) == Count(h, SensorCounter(t)) == |OfType(liveSensors, t)|)
  }

  /** An ECU constructed (`born`) or destroyed keeps the counters in agreement. */
  lemma AgreesAfterEcuEvent(c: Tally, h: seq<Event>, liveEcus: set<Ecu>, liveSensors: set<Sensor>, e: Ecu, born: bool)
    requires Agrees(c, h, liveEcus, liveSensors)
    requires if born then e !in liveEcus else e in liveEcus
    ensures var ev := if born then Constructed(EcuCounter) else Destructed(EcuCounter);
            Agrees(c.(ecus := c.ecus + Delta(ev, EcuCounter)), h + [ev],
                   if born then liveEcus + {e} else liveEcus - {e}, liveSensors)
  {
    var ev := if born then Constructed(EcuCounter) else Destructed(EcuCounter);
    EcuEventStep(h, ev);
  }

  /** A sensor constructed (`born`) or destroyed keeps the counters in agreement. */
  lemma AgreesAfterSensorEvent(c: Tally, h: seq<Event>, liveEcus: set<Ecu>, liveSensors: set<Sensor>, s: Sensor, born: bool)
    requires Agrees(c, h, liveEcus, liveSensors)
    requires if born then s !in liveSensors else s in liveSensors
    ensures var ev := if born then Constructed(SensorCounter(s.sensorType)) else Destructed(SensorCounter(s.sensorType));
            Agrees(c.Moved(s.sensorType, Delta(ev, SensorCounter(s.sensorType))), h + [ev], liveEcus,
                   if born then liveSensors + {s} else liveSensors - {s})
  {
    var t := s.sensorType;
    var ev := if born then Constructed(SensorCounter(t)) else Destructed(SensorCounter(t));
    SensorEventStep(h, ev, t);
    if born {
      LiveAdd(liveSensors, s);
    } else {
      LiveRemove(liveSensors, s);
    }
  }

  /** The sensors of `live` that belong to category `t`. */
  ghost function OfType(live: set<Sensor>, t: SensorType): set<Sensor>
  {
    set s | s in live && s.sensorType == t
  }

  lemma FilterAdd(live: set<Sensor>, x: Sensor, t: SensorType)
    requires x !in live
    ensures |OfType(live + {x}, t)| == |OfType(live, t)| + (if x.sensorType == t then 1 else 0)
  {
    if x.sensorType == t {
      assert OfType(live + {x}, t) == OfType(live, t) + {x};
    } else {
      assert OfType(live + {x}, t) == OfType(live, t);
    }
  }

  lemma FilterRemove(live: set<Sensor>, x: Sensor, t: SensorType)
    requires x in live
    ensures |OfType(live - {x}, t)| == |OfType(live, t)| - (if x.sensorType == t then 1 else 0)
  {
    if x.sensorType == t {
      assert OfType(live - {x}, t) == OfType(live, t) - {x};
    } else {
      assert OfType(live - {x}, t) == OfType(live, t);
    }
  }

  /** Adding a sensor to the live set grows its own category's share by one. */
  lemma LiveAdd(live: set<Sensor>, x: Sensor)
    requires x !in live
    ensures forall t :: |OfType(live + {x}, t)| == |OfType(live, t)| + (if t == x.sensorType then 1 else 0)
  {
    forall t ensures |OfType(live + {x}, t)| == |OfType(live, t)| + (if t == x.sensorType then 1 else 0) {
      FilterAdd(live, x, t);
    }
  }

  /** Removing a sensor from the live set shrinks its own category's share by one. */
  lemma LiveRemove(live: set<Sensor>, x: Sensor)
    requires x in live
    ensures forall t :: |OfType(live - {x}, t)| == |OfType(live, t)| - (if t == x.sensorType then 1 else 0)
  {
    forall t ensures |OfType(live - {x}, t)| == |OfType(live, t)| - (if t == x.sensorType then 1 else 0) {
      FilterRemove(live, x, t);
    }
  }

  // ---------------------------------------------------------------------
  // The sensors' subscriber vectors (non-owning references to ECUs)
  // ---------------------------------------------------------------------

  /** An entry that still locks and reports the same `getID()` as `e`. */
  predicate LiveWithId(x: Ecu, e: Ecu)
    reads x`alive
  {
    x.alive && x.id == e.id
  }

  /** An entry that still locks and reports the same `getID()` and `getName()` as `e`. */
  predicate LiveMatch(x: Ecu, e: Ecu)
    reads x`alive
  {
    x.alive && x.id == e.id && x.name == e.name
  }

  predicate HasLiveWithId(subs: seq<Ecu>, e: Ecu)
    reads (set x | x in subs)`alive
  {
    exists i | 0 <= i < |subs| :: LiveWithId(subs[i], e)
  }

  /**
   * `AttachECU`: an expired argument, or one whose id a live entry already
   * has, leaves the vector as it is; otherwise the ECU is appended.
   */
  ghost function WithEcu(subs: seq<Ecu>, e: Ecu): seq<Ecu>
    reads (set x | x in subs)`alive, e`alive
  {
    if e.alive && !HasLiveWithId(subs, e) then subs + [e] else subs
  }

  /** Position of the first live entry matching `e` by id and name; `|subs|` if none. */
  function FirstLiveMatch(subs: seq<Ecu>, e: Ecu): (i: nat)
    reads (set x | x in subs)`alive
    ensures i <= |subs|
    ensures forall j | 0 <= j < i :: !LiveMatch(subs[j], e)
    ensures i < |subs| ==> LiveMatch(subs[i], e)
    decreases |subs|
  {
    if subs == [] then 0
    else if LiveMatch(subs[0], e) then 0
    else 1 + FirstLiveMatch(subs[1..], e)
  }

  /** An index with no live match before it, and a live match at it unless at the end, is the first one. */
  lemma FirstLiveMatchIs(subs: seq<Ecu>, e: Ecu, i: nat)
    requires i <= |subs|
    requires forall j | 0 <= j < i :: !LiveMatch(subs[j], e)
    requires i < |subs| ==> LiveMatch(subs[i], e)
    ensures FirstLiveMatch(subs, e) == i
  {
  }

  /**
   * `DeAttachECU`: with a live argument, erases the first live entry that
   * matches it by id and name; expired entries are skipped.
   */
  ghost function WithoutEcu(subs: seq<Ecu>, e: Ecu): seq<Ecu>
    reads (set x | x in subs)`alive, e`alive
  {
    if e.alive then RemoveAt(subs, FirstLiveMatch(subs, e)) else subs
  }

  /** No two live entries report the same id. */
  ghost predicate LiveIdsDistinct(subs: seq<Ecu>)
    reads (set x | x in subs)`alive
  {
    forall i, j | 0 <= i < j < |subs| :: !(subs[i].alive && subs[j].alive && subs[i].id == subs[j].id)
  }

  // ---------------------------------------------------------------------
  // The ECUs' sensor vectors (owning references to sensors)
  // ---------------------------------------------------------------------

  /** The ECUs' duplicate test: same `getSensorID()` and same `getType()`. */
  predicate SameSensor(a: Sensor, b: Sensor)
  {
    a.id == b.id && TypeName(a.sensorType) == TypeName(b.sensorType)
  }

  predicate HasSensor(list: seq<Sensor>, s: Sensor)
  {
    exists i | 0 <= i < |list| :: SameSensor(list[i], s)
  }

  /** `AttachSensor`: appends `s` unless an entry has its (id, type). */
  ghost function WithSensor(list: seq<Sensor>, s: Sensor): seq<Sensor>
  {
    if HasSensor(list, s) then list else list + [s]
  }

  /** Position of the first entry with the (id, type) of `s`; `|list|` if none. */
  function FirstSensorMatch(list: seq<Sensor>, s: Sensor): (i: nat)
    ensures i <= |list|
    ensures forall j | 0 <= j < i :: !SameSensor(list[j], s)
    ensures i < |list| ==> SameSensor(list[i], s)
    decreases |list|
  {
    if list == [] then 0
    else if SameSensor(list[0], s) then 0
    else 1 + FirstSensorMatch(list[1..], s)
  }

  /** An index with no match before it, and a match at it unless at the end, is the first one. */
  lemma FirstSensorMatchIs(list: seq<Sensor>, s: Sensor, i: nat)
    requires i <= |list|
    requires forall j | 0 <= j < i :: !SameSensor(list[j], s)
    requires i < |list| ==> SameSensor(list[i], s)
    ensures FirstSensorMatch(list, s) == i
  {
  }

  /** `DeattachSensor`: erases the first entry with the (id, type) of `s`. */
  ghost function WithoutSensor(list: seq<Sensor>, s: Sensor): seq<Sensor>
  {
    RemoveAt(list, FirstSensorMatch(list, s))
  }

  /** No two entries share an (id, type) pair. */
  ghost predicate DistinctSensors(list: seq<Sensor>)
  {
    forall i, j | 0 <= i < j < |list| :: !SameSensor(list[i], list[j])
  }

  // ---------------------------------------------------------------------
  // Broadcast-on-pull
  // ---------------------------------------------------------------------

  /**
   * The table of ECU `e` after each sensor of `ss`, in order, has notified
   * its subscribers, starting from `table`: a sensor writes its cell only if
   * `e` is one of its subscribers and has not expired.
   */
  ghost function Pushed(table: Table, ss: seq<Sensor>, e: Ecu): Table
    reads (set s | s in ss)`subscribers, (set s | s in ss)`reading, e`alive
  {
    if ss == [] then table
    else
      var s := ss[|ss| - 1];
      var before := Pushed(table, ss[..|ss| - 1], e);
      if e.alive && e in s.subscribers then Store(before, s.sensorType, s.id, s.reading) else before
  }

  /**
   * When the sensors have distinct (id, type) pairs, each one that lists a
   * live ECU leaves its own reading in that ECU's cell for it.
   */
  lemma {:induction false} PushedReadsBack(table: Table, ss: seq<Sensor>, e: Ecu, k: nat)
    requires DistinctSensors(ss) && k < |ss|
    requires e.alive && e in ss[k].subscribers
    ensures Lookup(Pushed(table, ss, e), ss[k].sensorType, ss[k].id) == Some(ss[k].reading)
  {
    var n := |ss| - 1;
    var init := ss[..n];
    if k < n {
      assert init[k] == ss[k];
      PushedReadsBack(table, init, e, k);
      assert !SameSensor(ss[k], ss[n]);
      TypeNameIsInjective(ss[k].sensorType, ss[n].sensorType);
    }
  }

  /**
   * A cell of ECU `e` that no sensor of `ss` both owns (by type and id) and
   * lists `e` for is not written by the broadcast: a one-sided link pushes
   * nothing.
   */
  lemma {:induction false} PushedLeavesUnlinkedCell(table: Table, ss: seq<Sensor>, e: Ecu, t: SensorType, id: int)
    requires forall s | s in ss && s.sensorType == t && s.id == id :: e !in s.subscribers
    ensures Lookup(Pushed(table, ss, e), t, id) == Lookup(table, t, id)
  {
    if ss != [] {
      var n := |ss| - 1;
      assert forall s | s in ss[..n] :: s in ss;
      PushedLeavesUnlinkedCell(table, ss[..n], e, t, id);
    }
  }

  /** An ECU that no sensor of `ss` lists keeps its whole table. */
  lemma {:induction false} PushedUnlinked(table: Table, ss: seq<Sensor>, e: Ecu)
    requires forall s | s in ss :: e !in s.subscribers
    ensures Pushed(table, ss, e) == table
  {
    if ss != [] {
      var n := |ss| - 1;
      assert forall s | s in ss[..n] :: s in ss;
      PushedUnlinked(table, ss[..n], e);
    }
  }

  // ---------------------------------------------------------------------
  // ECUs
  // ---------------------------------------------------------------------

  class Ecu {
    const id: int                // ECU_ID, returned by getID()
    const kind: EcuKind
    const name: string           // returned by getName()
    var table: Table             // Recent_Sensory_Data
    var sensors: seq<Sensor>     // Subscribed_Sensors
    var on: bool                 // ADAPTIVE_ON / Diagnostic_ON, returned by IsON()
    var alive: bool              // false once the destructor has run

    /**
     * `ECU::ECU` followed by the derived constructor: the shared count goes
     * up by one and becomes the new ECU's id; the table has four empty slots.
     */
    constructor (kind: EcuKind, st: Statics)
      requires st.Valid()
      modifies st
      ensures st.Valid()
      ensures st.ecuCount == old(st.ecuCount) + 1 && id == st.ecuCount
      ensures this.kind == kind && name == EcuName(kind)
      ensures table == EmptyTable() && sensors == [] && !on && alive
      ensures st.history == old(st.history) + [Constructed(EcuCounter)]
      ensures st.liveEcus == old(st.liveEcus) + {this} && st.liveSensors == old(st.liveSensors)
      ensures st.totalSensorCount == old(st.totalSensorCount)
      ensures forall t :: st.SensorCount(t) == old(st.SensorCount(t))
    {
      id := st.ecuCount + 1;    // the value of `ECU_Count` after `ECU_Count++`
      this.kind := kind;
      name := EcuName(kind);
      table := EmptyTable();
      sensors := [];
      on := false;
      alive := true;
      new;
      st.EcuConstructed(this);
    }

    /** `ECU::~ECU`: the shared count goes down by one and weak references expire. */
    method Destroy(st: Statics)
      requires st.Valid() && this in st.liveEcus
      modifies this`alive, st
      ensures st.Valid() && !alive
      ensures st.ecuCount == old(st.ecuCount) - 1
      ensures st.history == old(st.history) + [Destructed(EcuCounter)]
      ensures st.liveEcus == old(st.liveEcus) - {this} && st.liveSensors == old(st.liveSensors)
      ensures st.totalSensorCount == old(st.totalSensorCount)
      ensures forall t :: st.SensorCount(t) == old(st.SensorCount(t))
    {
      st.EcuDestructed(this);
      alive := false;
    }

    /** `ECU::getECUCount`: the number of ECUs alive now. */
    static method GetEcuCount(st: Statics) returns (n: int)
      requires st.Valid()
      ensures n == |st.liveEcus|
    {
      n := st.ecuCount;
    }

    /**
     * `AttachSensor`: a duplicate-checked append keyed on (id, type). The
     * argument is an owning reference, so the sensor is alive, and the ECU
     * keeps owning only live sensors.
     */
    method AttachSensor(ghost st: Statics, s: Sensor)
      requires st.Valid() && s in st.liveSensors
      modifies this`sensors
      ensures sensors == WithSensor(old(sensors), s)
      ensures st.Valid()
    {
      var i := FindSensor(s);
      if i == |sensors| {
        sensors := sensors + [s];
      }
    }

    /**
     * `DeattachSensor`: erases the first entry with the (id, type) of `s`;
     * the sensors the ECU still owns stay alive.
     */
    method DeattachSensor(ghost st: Statics, s: Sensor)
      requires st.Valid()
      modifies this`sensors
      ensures sensors == WithoutSensor(old(sensors), s)
      ensures st.Valid()
    {
      var i := FindSensor(s);
      RemoveAtKeepsOnlyMembers(sensors, i);
      sensors := RemoveAt(sensors, i);
    }

    /** The search loop of `DeattachSensor`: the first entry with the (id, type) of `s`. */
    method FindSensor(s: Sensor) returns (i: nat)
      ensures i == FirstSensorMatch(sensors, s)
    {
      i := 0;
      while i < |sensors| && !(sensors[i].id == s.id && TypeName(sensors[i].sensorType) == TypeName(s.sensorType))
        invariant i <= |sensors|
        invariant forall j | 0 <= j < i :: !SameSensor(sensors[j], s)
      {
        i := i + 1;
      }
      FirstSensorMatchIs(sensors, s, i);
    }

    /** The ECUs whose tables a broadcast from every owned sensor can write. */
    ghost function UpdateTargets(): set<Ecu>
      reads this`sensors, (set s | s in sensors)`subscribers
    {
      set s, e | s in sensors && e in s.subscribers :: e
    }

    /**
     * `DiagnosticECU::update`: every owned sensor, in order, notifies all of
     * its subscribers. This ECU's own cells are written only by sensors that
     * list it back, and each such cell then holds that sensor's reading.
     */
    method Update()
      modifies UpdateTargets()`table
      ensures forall e | e in old(UpdateTargets()) :: e.table == old(Pushed(e.table, sensors, e))
      ensures table == old(Pushed(table, sensors, this))
      ensures alive && DistinctSensors(sensors) ==>
                forall k | 0 <= k < |sensors| && this in sensors[k].subscribers ::
                  Lookup(table, sensors[k].sensorType, sensors[k].id) == Some(sensors[k].reading)
    {
      ghost var targets := UpdateTargets();
      for i := 0 to |sensors|
        invariant forall e | e in targets :: e.table == old(Pushed(e.table, sensors[..i], e))
      {
        var s := sensors[i];
        assert forall e | e in s.subscribers :: e in targets;
        s.NotifyAllEcus();
        assert sensors[..i + 1][..i] == sensors[..i];
      }
      assert sensors[..|sensors|] == sensors;
      if this !in targets {
        PushedUnlinked(old(table), sensors, this);
      }
      if alive && DistinctSensors(sensors) {
        forall k | 0 <= k < |sensors| && this in sensors[k].subscribers
          ensures Lookup(table, sensors[k].sensorType, sensors[k].id) == Some(sensors[k].reading)
        {
          PushedReadsBack(old(table), sensors, this, k);
        }
      }
    }

    /**
     * `PerformFunction(Car c)`: sets the ON flag. The diagnostic ECU then
     * broadcasts from every owned sensor and afterwards resamples the car's
     * sensors (`c.UpdateSensorsData()`), so the values it pushed are the
     * readings held before that resample. The flag is written last here;
     * neither the broadcast nor the resample reads it, so the order of the
     * two writes makes no difference to the outcome.
     */
    method PerformFunction(car: seq<Sensor>)
      modifies this`on, UpdateTargets()`table, (set s | s in car)`reading
      ensures on && sensors == old(sensors)
      ensures kind == AdaptiveCruiseControl ==>
                && (forall e | e in old(UpdateTargets()) :: e.table == old(e.table))
                && (forall s | s in car :: s.reading == old(s.reading))
      ensures kind == Diagnostics ==>
                && (forall e | e in old(UpdateTargets()) :: e.table == old(Pushed(e.table, sensors, e)))
                && (forall s | s in car :: InRange(s.sensorType, s.reading))
    {
      if kind == Diagnostics {
        Update();
        ResampleCarSensors(car);
      }
      on := true;
    }
  }

  /**
   * `Car::UpdateSensorsData` as the diagnostic ECU sees it: each of the car's
   * sensors draws a fresh reading. The car's own copy of the values is not
   * part of this model.
   */
  method ResampleCarSensors(car: seq<Sensor>)
    modifies (set s | s in car)`reading
    ensures forall s | s in car :: InRange(s.sensorType, s.reading)
  {
    for i := 0 to |car|
      invariant forall j | 0 <= j < i :: InRange(car[j].sensorType, car[j].reading)
    {
      var _ := car[i].GetSensorData();
    }
  }

  // ---------------------------------------------------------------------
  // Sensors
  // ---------------------------------------------------------------------

  class Sensor {
    const sensorType: SensorType
    const id: int                // Sensor_ID, returned by getSensorID()
    var reading: real            // speed / Temperature / Radar / BatteryLevel
    var subscribers: seq<Ecu>    // Subscribed_ECUs (weak references)

    /**
     * The sensor constructors: the category's counter goes up by one and
     * becomes the new id, the reading starts at 0.0 and the shared total goes
     * up by one.
     */
    constructor (sensorType: SensorType, st: Statics)
      requires st.Valid()
      modifies st
      ensures st.Valid()
      ensures this.sensorType == sensorType
      ensures st.SensorCount(sensorType) == old(st.SensorCount(sensorType)) + 1 && id == st.SensorCount(sensorType)
      ensures reading == 0.0 && subscribers == []
      ensures st.totalSensorCount == old(st.totalSensorCount) + 1
      ensures forall t | t != sensorType :: st.SensorCount(t) == old(st.SensorCount(t))
      ensures st.ecuCount == old(st.ecuCount)
      ensures st.history == old(st.history) + [Constructed(SensorCounter(sensorType))]
      ensures st.liveSensors == old(st.liveSensors) + {this} && st.liveEcus == old(st.liveEcus)
    {
      this.sensorType := sensorType;
      id := st.SensorCount(sensorType) + 1;    // the value of the category's counter after `++`
      reading := 0.0;
      subscribers := [];
      new;
      st.SensorConstructed(this);
    }

    /**
     * The sensor destructors, which run once no owner is left (in particular
     * no live ECU lists the sensor): the category's counter and the shared
     * total go down by one.
     */
    method Destroy(st: Statics)
      requires st.Valid() && this in st.liveSensors
      requires forall e | e in st.liveEcus :: this !in e.sensors
      modifies st
      ensures st.Valid()
      ensures st.SensorCount(sensorType) == old(st.SensorCount(sensorType)) - 1
      ensures st.totalSensorCount == old(st.totalSensorCount) - 1
      ensures forall t | t != sensorType :: st.SensorCount(t) == old(st.SensorCount(t))
      ensures st.ecuCount == old(st.ecuCount)
      ensures st.history == old(st.history) + [Destructed(SensorCounter(sensorType))]
      ensures st.liveSensors == old(st.liveSensors) - {this} && st.liveEcus == old(st.liveEcus)
    {
      st.SensorDestructed(this);
    }

    /** `getSensorCount`: the number of sensors of this category alive now. */
    method GetSensorCount(st: Statics) returns (n: int)
      requires st.Valid()
      ensures n == st.SensorCount(sensorType) == |st.LiveOf(sensorType)|
    {
      n := st.SensorCount(sensorType);
    }

    /**
     * `getTotalSensorsCount`: the number of sensors alive now, which is the
     * sum of the four category counters.
     */
    method GetTotalSensorsCount(st: Statics) returns (n: int)
      requires st.Valid()
      ensures n == |st.liveSensors|
      ensures n == st.SensorCount(Speed) + st.SensorCount(Temperature)
                   + st.SensorCount(Radar) + st.SensorCount(BatteryLevel)
    {
      n := st.totalSensorCount;
      TotalIsSumOfCategories(st.history);
    }

    /** `getRandomData`: draws from the category's range and stores the value. */
    method GetRandomData() returns (v: real)
      modifies this`reading
      ensures InRange(sensorType, v) && reading == v
    {
      v :| InRange(sensorType, v);
      reading := v;
    }

    /** `sensorRead`: resamples the reading. */
    method SensorRead()
      modifies this`reading
      ensures InRange(sensorType, reading)
    {
      var _ := GetRandomData();
    }

    /** `GetSensorData`: resamples, then returns exactly the stored reading. */
    method GetSensorData() returns (v: real)
      modifies this`reading
      ensures InRange(sensorType, v) && reading == v
    {
      SensorRead();
      v := reading;
    }

    /**
     * `AttachECU`: appends a live ECU unless a live entry has its id; an
     * expired argument changes nothing. Expired entries are not compared.
     */
    method AttachEcu(e: Ecu)
      modifies this`subscribers
      ensures subscribers == old(WithEcu(subscribers, e))
    {
      if e.alive {
        for i := 0 to |subscribers|
          invariant forall j | 0 <= j < i :: !LiveWithId(subscribers[j], e)
        {
          var existing := subscribers[i];
          if existing.alive {
            if existing.id == e.id {
              return;
            }
          }
        }
        subscribers := subscribers + [e];
      }
    }

    /**
     * `DeAttachECU`: with a live argument, erases the first live entry with
     * its id and name and stops; expired entries are skipped.
     */
    method DeAttachEcu(e: Ecu)
      modifies this`subscribers
      ensures subscribers == old(WithoutEcu(subscribers, e))
    {
      if e.alive {
        var i := FindLiveMatch(e);
        subscribers := RemoveAt(subscribers, i);
      }
    }

    /**
     * The search loop of `DeAttachECU`: the first entry that still locks and
     * matches `e` by id and name; expired entries are skipped.
     */
    method FindLiveMatch(e: Ecu) returns (i: nat)
      ensures i == FirstLiveMatch(subscribers, e)
    {
      i := 0;
      while i < |subscribers| && !(subscribers[i].alive && subscribers[i].id == e.id && subscribers[i].name == e.name)
        invariant i <= |subscribers|
        invariant forall j | 0 <= j < i :: !LiveMatch(subscribers[j], e)
      {
        i := i + 1;
      }
      FirstLiveMatchIs(subscribers, e, i);
    }

    /**
     * `updateECU`: on a live ECU, writes the stored reading into the one cell
     * (category, id) of its table; on an expired one, does nothing.
     */
    method UpdateEcu(e: Ecu)
      modifies e`table
      ensures e.table == if e.alive then Store(old(e.table), sensorType, id, reading) else old(e.table)
    {
      if e.alive {
        e.table := Store(e.table, sensorType, id, reading);
      }
    }

    /**
     * `NotifyAllECUs`: every live subscriber ends up holding the stored
     * reading in its cell for this sensor; expired ones are untouched, and
     * neither the reading nor the vector changes.
     */
    method NotifyAllEcus()
      modifies (set e | e in subscribers)`table
      ensures forall e | e in subscribers ::
                e.table == if e.alive then Store(old(e.table), sensorType, id, reading) else old(e.table)
    {
      for i := 0 to |subscribers|
        invariant forall e | e in subscribers ::
                    e.table == if e.alive && e in subscribers[..i] then Store(old(e.table), sensorType, id, reading)
                               else old(e.table)
      {
        var e := subscribers[i];
        if e.alive && e in subscribers[..i] {
          StoreIsIdempotent(old(e.table), sensorType, id, reading);
        }
        UpdateEcu(e);
        assert subscribers[..i + 1] == subscribers[..i] + [e];
      }
      assert subscribers[..|subscribers|] == subscribers;
    }
  }
}
