/**
 * The static counters of the program, as a function of the constructor and
 * destructor calls made so far. Every counter starts at 0. A constructor
 * increments its counter and takes the incremented value as the new object's
 * id; a destructor decrements it. Sensor constructors and destructors also
 * move the one total shared by all sensor categories.
 */
module Ledger {
  import opened SensorTypes

  /** `ECU_Count`, shared by both ECU kinds, or one sensor category's counter. */
  datatype Counter = EcuCounter | SensorCounter(sensorType: SensorType)

  datatype Event = Constructed(counter: Counter) | Destructed(counter: Counter)

  function Delta(ev: Event, c: Counter): int
  {
    if ev == Constructed(c) then 1 else if ev == Destructed(c) then -1 else 0
  }

  /** The value of counter `c` after the events `h`. */
  function Count(h: seq<Event>, c: Counter): int
  {
    if h == [] then 0 else Count(h[..|h| - 1], c) + Delta(h[|h| - 1], c)
  }

  /** `total_sensor_count` after the events `h`: every sensor event moves it. */
  function SensorTotal(h: seq<Event>): int
  {
    if h == [] then 0
    else
      var ev := h[|h| - 1];
      SensorTotal(h[..|h| - 1]) + (if !ev.counter.SensorCounter? then 0 else if ev.Constructed? then 1 else -1)
  }

  /** The ids handed out by the constructions for counter `c`, in creation order. */
  function Issued(h: seq<Event>, c: Counter): seq<int>
  {
    if h == [] then []
    else Issued(h[..|h| - 1], c) + (if h[|h| - 1] == Constructed(c) then [Count(h, c)] else [])
  }

  /** Number of constructions for counter `c` in `h`. */
  function Constructions(h: seq<Event>, c: Counter): nat
  {
    if h == [] then 0 else Constructions(h[..|h| - 1], c) + (if h[|h| - 1] == Constructed(c) then 1 else 0)
  }

  /** The shared sensor total always equals the sum of the four category counters. */
  lemma {:induction false} TotalIsSumOfCategories(h: seq<Event>)
    ensures SensorTotal(h) == Count(h, SensorCounter(Speed)) + Count(h, SensorCounter(Temperature))
                             + Count(h, SensorCounter(Radar)) + Count(h, SensorCounter(BatteryLevel))
  {
    if h != [] {
      TotalIsSumOfCategories(h[..|h| - 1]);
      var ev := h[|h| - 1];
      if ev.counter.SensorCounter? {
        var t := ev.counter.sensorType;
        assert Delta(ev, SensorCounter(t)) == (if ev.Constructed? then 1 else -1);
        assert forall u | u != t :: Delta(ev, SensorCounter(u)) == 0;
      }
    }
  }

  /** Without a destruction, counter `c` equals the number of its constructions. */
  lemma {:induction false} CountWithoutDestruction(h: seq<Event>, c: Counter)
    requires forall i | 0 <= i < |h| :: h[i] != Destructed(c)
    ensures Count(h, c) == Constructions(h, c)
  {
    if h != [] {
      CountWithoutDestruction(h[..|h| - 1], c);
    }
  }

  /**
   * Starting from 0 with no destruction, the n constructions for a counter
   * receive the ids 1, 2, ..., n in creation order.
   */
  lemma {:induction false} IdsWithoutDestruction(h: seq<Event>, c: Counter)
    requires forall i | 0 <= i < |h| :: h[i] != Destructed(c)
    ensures |Issued(h, c)| == Constructions(h, c)
    ensures forall j | 0 <= j < |Issued(h, c)| :: Issued(h, c)[j] == j + 1
  {
    if h != [] {
      var init := h[..|h| - 1];
      IdsWithoutDestruction(init, c);
      CountWithoutDestruction(h, c);
    }
  }

  /** One more event moves each counter by that event's delta. */
  lemma CountStep(h: seq<Event>, ev: Event, c: Counter)
    ensures Count(h + [ev], c) == Count(h, c) + Delta(ev, c)
    ensures Issued(h + [ev], c) == Issued(h, c) + (if ev == Constructed(c) then [Count(h + [ev], c)] else [])
    ensures SensorTotal(h + [ev]) == SensorTotal(h) + (if !ev.counter.SensorCounter? then 0 else if ev.Constructed? then 1 else -1)
  {
  }

  /** An ECU event moves `ECU_Count` by its delta and leaves every sensor counter as it was. */
  lemma EcuEventStep(h: seq<Event>, ev: Event)
    requires ev.counter == EcuCounter
    ensures Count(h + [ev], EcuCounter) == Count(h, EcuCounter) + Delta(ev, EcuCounter)
    ensures SensorTotal(h + [ev]) == SensorTotal(h)
    ensures forall t :: Count(h + [ev], SensorCounter(t)) == Count(h, SensorCounter(t))
  {
    CountStep(h, ev, EcuCounter);
    forall t ensures Count(h + [ev], SensorCounter(t)) == Count(h, SensorCounter(t)) {
      CountStep(h, ev, SensorCounter(t));
    }
  }

  /**
   * A sensor event of category `t` moves that category's counter and the
   * shared total by its delta, and leaves `ECU_Count` and the other categories
   * as they were.
   */
  lemma SensorEventStep(h: seq<Event>, ev: Event, t: SensorType)
    requires ev.counter == SensorCounter(t)
    ensures Count(h + [ev], EcuCounter) == Count(h, EcuCounter)
    ensures SensorTotal(h + [ev]) == SensorTotal(h) + Delta(ev, SensorCounter(t))
    ensures forall u :: Count(h + [ev], SensorCounter(u)) == Count(h, SensorCounter(u)) + (if u == t then Delta(ev, SensorCounter(t)) else 0)
  {
    CountStep(h, ev, EcuCounter);
    forall u ensures Count(h + [ev], SensorCounter(u)) == Count(h, SensorCounter(u)) + (if u == t then Delta(ev, SensorCounter(t)) else 0) {
      CountStep(h, ev, SensorCounter(u));
    }
  }

  /**
   * A destruction followed by a construction hands out the id the counter had
   * before the destruction: after any history, constructing, destroying (any
   * object of the counter) and constructing again gives the last two
   * constructions the same id.
   */
  lemma ReissuedAfterDestruction(h: seq<Event>, c: Counter)
    ensures var h' := h + [Constructed(c), Destructed(c), Constructed(c)];
            var ids := Issued(h', c);
            |ids| >= 2 && ids[|ids| - 1] == ids[|ids| - 2] == Count(h, c) + 1
  {
    var h1 := h + [Constructed(c)];
    var h2 := h1 + [Destructed(c)];
    var h3 := h2 + [Constructed(c)];
    CountStep(h, Constructed(c), c);
    CountStep(h1, Destructed(c), c);
    CountStep(h2, Constructed(c), c);
    assert h3 == h + [Constructed(c), Destructed(c), Constructed(c)];
    assert Issued(h3, c) == Issued(h, c) + [Count(h, c) + 1, Count(h, c) + 1];
  }
}
