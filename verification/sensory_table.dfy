/**
 * An ECU's `Recent_Sensory_Data`: one map from sensor instance id to the most
 * recent reading per sensor category. The slots exist from construction on;
 * keys appear in a slot only when a sensor writes them.
 */
module SensoryTable {
  import opened SensorTypes

  datatype Option<T> = None | Some(value: T)

  /** A vector of exactly `SensorTypesCount` id-to-reading maps. */
  type Table = t: seq<map<int, real>> | |t| == SensorTypesCount
    witness [map[], map[], map[], map[]]

  /** The cell for sensor `id` of category `t`, if a sensor has written it. */
  function Lookup(table: Table, t: SensorType, id: int): Option<real>
  {
    var slot := table[Index(t)];
    if id in slot then Some(slot[id]) else None
  }

  /** The table an ECU starts with: four slots and no cell written. */
  function EmptyTable(): (table: Table)
    ensures forall t, id :: Lookup(table, t, id) == None
  {
    [map[], map[], map[], map[]]
  }

  /** `table[Index(t)][id] = v`: the one write a sensor makes into an ECU. */
  function Store(table: Table, t: SensorType, id: int, v: real): (r: Table)
    ensures Lookup(r, t, id) == Some(v)
    ensures forall t', id' | t' != t || id' != id :: Lookup(r, t', id') == Lookup(table, t', id')
  {
    IndexIsBijective(t, t, 0);
    forall t' ensures Index(t') == Index(t) ==> t' == t {
      IndexIsBijective(t, t', 0);
    }
    table[Index(t) := table[Index(t)][id := v]]
  }

  /** Two tables with the same cells are the same table. */
  lemma {:induction false} SameCellsSameTable(a: Table, b: Table)
    requires forall t, id :: Lookup(a, t, id) == Lookup(b, t, id)
    ensures a == b
  {
    var codes := [Speed, Temperature, Radar, BatteryLevel];
    forall i | 0 <= i < SensorTypesCount ensures a[i] == b[i] {
      var t := codes[i];
      assert Index(t) == i;
      forall id ensures id in a[i] <==> id in b[i] {
        assert Lookup(a, t, id) == Lookup(b, t, id);
      }
      forall id | id in a[i] ensures a[i][id] == b[i][id] {
        assert Lookup(a, t, id) == Lookup(b, t, id);
      }
    }
  }

  /** Writing the same reading twice leaves the table as writing it once. */
  lemma StoreIsIdempotent(table: Table, t: SensorType, id: int, v: real)
    ensures Store(Store(table, t, id, v), t, id, v) == Store(table, t, id, v)
  {
    SameCellsSameTable(Store(Store(table, t, id, v), t, id, v), Store(table, t, id, v));
  }

  /** Writes to different cells commute. */
  lemma StoresCommute(table: Table, t1: SensorType, id1: int, v1: real, t2: SensorType, id2: int, v2: real)
    requires t1 != t2 || id1 != id2
    ensures Store(Store(table, t1, id1, v1), t2, id2, v2) == Store(Store(table, t2, id2, v2), t1, id1, v1)
  {
    SameCellsSameTable(Store(Store(table, t1, id1, v1), t2, id2, v2), Store(Store(table, t2, id2, v2), t1, id1, v1));
  }
}
