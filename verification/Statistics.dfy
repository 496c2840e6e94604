/**
 Order statistics over an event table that may hold an order more than once.
 Reading with FINAL keeps one row an order; the loops over the grouped rows
 build the two marginals and the total, and the daily counts.
 */
module Statistics {
  import opened Prelude

  const DAY := 86_400_000    // milliseconds

  datatype OrderEvent = OrderEvent(orderId: string, userId: string, taxiType: string, status: string, createdAt: int)

  /** A row of order_events, in the order of insertion. */
  datatype Row = Row(event: OrderEvent, ingestedAt: int)

  /** A row of a GROUP BY result. */
  datatype Group<K> = Group(key: K, count: nat)

  datatype OrderStats = OrderStats(byStatus: map<string, int>, byTaxiType: map<string, int>, total: int)

  datatype DailyCount = DailyCount(day: int, count: int)

  // ----- FINAL -----

  /** Of the rows of an order the latest ingested, and of those the last inserted. */
  function Final(rows: seq<Row>): (m: map<string, Row>)
    ensures forall o :: o in m ==> m[o] in rows && m[o].event.orderId == o
    ensures forall r :: r in rows ==> r.event.orderId in m && r.ingestedAt <= m[r.event.orderId].ingestedAt
  {
    if rows == [] then map[]
    else
      var before, last := Final(rows[..|rows| - 1]), rows[|rows| - 1];
      var o := last.event.orderId;
      if o in before && last.ingestedAt < before[o].ingestedAt then before else before[o := last]
  }

  /** What every query reads: one event an order. */
  function Events(rows: seq<Row>): map<string, OrderEvent> {
    var m := Final(rows);
    map o | o in m :: m[o].event
  }

  function InRange(events: map<string, OrderEvent>, from: int, to: int): set<string> {
    set o | o in events && from <= events[o].createdAt < to
  }

  /**
   Ingesting an event changes nothing that a query reads if and only if its
   order is known and either the same event is the current one or a later
   ingested one hides it.
   */
  lemma {:induction false} RedeliveryIffKnown(rows: seq<Row>, e: OrderEvent, at: int)
    ensures Events(rows + [Row(e, at)]) == Events(rows) <==>
      e.orderId in Final(rows) && (Final(rows)[e.orderId].event == e || at < Final(rows)[e.orderId].ingestedAt)
  {
    var more := rows + [Row(e, at)];
    assert more[..|more| - 1] == rows;
    if Events(more) == Events(rows) {
      assert e.orderId in Final(more) && e.orderId in Events(more);
    }
  }

  function Delivered(rows: seq<Row>): set<OrderEvent> {
    set r | r in rows :: r.event
  }

  /** Each order has one event, however often it was delivered. */
  ghost predicate OneEventPerOrder(delivered: set<OrderEvent>) {
    forall e, f :: e in delivered && f in delivered && e.orderId == f.orderId ==> e == f
  }

  /** With one event an order, queries read exactly the events that were delivered. */
  lemma {:induction false} EventsAreDelivered(rows: seq<Row>)
    requires OneEventPerOrder(Delivered(rows))
    ensures forall e :: e in Delivered(rows) ==> e.orderId in Events(rows) && Events(rows)[e.orderId] == e
    ensures forall o :: o in Events(rows) ==> Events(rows)[o] in Delivered(rows) && Events(rows)[o].orderId == o
  {
    var m := Final(rows);
    forall o | o in Events(rows) ensures Events(rows)[o] in Delivered(rows) {
      assert m[o] in rows;
    }
    forall e | e in Delivered(rows) ensures e.orderId in Events(rows) && Events(rows)[e.orderId] == e {
      var r :| r in rows && r.event == e;
      assert m[e.orderId].event in Delivered(rows);
    }
  }

  /**
   With one event an order, redelivering any events any number of times, in any
   order and at any times, changes nothing that a query reads.
   */
  lemma {:induction false} RedeliveriesAreInvisible(rows: seq<Row>, again: seq<Row>)
    requires OneEventPerOrder(Delivered(rows)) && Delivered(again) == Delivered(rows)
    ensures Events(again) == Events(rows)
  {
    EventsAreDelivered(rows);
    EventsAreDelivered(again);
    hide Events, OneEventPerOrder, Delivered;
  }

  // ----- Groups -----

  /** A GROUP BY result: one row a key that occurs, with the number of members that have it. */
  ghost predicate IsGrouping<K(!new)>(rows: seq<Group<K>>, members: set<string>, keyOf: string -> K) {
    && (forall i, j :: 0 <= i < j < |rows| ==> rows[i].key != rows[j].key)
    && (forall g :: g in rows ==> g.count > 0 && g.count == |Having(members, keyOf, g.key)|)
    && (forall o :: o in members ==> exists g :: g in rows && g.key == keyOf(o))
  }

  function Having<K(!new,==)>(members: set<string>, keyOf: string -> K, key: K): set<string> {
    set o | o in members && keyOf(o) == key
  }

  function Where(members: set<string>, p: string -> bool): set<string> {
    set o | o in members && p(o)
  }

  /** The counts of the groups whose key is wanted. */
  function SumWhere<K>(rows: seq<Group<K>>, wanted: K -> bool): nat {
    if rows == [] then 0
    else
      var last := rows[|rows| - 1];
      SumWhere(rows[..|rows| - 1], wanted) + if wanted(last.key) then last.count else 0
  }

  function Selected<K>(keyOf: string -> K, wanted: K -> bool): string -> bool {
    o => wanted(keyOf(o))
  }

  function Equals<K>(column: K -> string, value: string): K -> bool {
    k => column(k) == value
  }

  function Any<K>(): K -> bool {
    k => true
  }

  /** Any selection of groups counts the members whose key is selected, each once. */
  lemma {:induction false} GroupsCountMembers<K(!new)>(rows: seq<Group<K>>, members: set<string>,
                                                         keyOf: string -> K, wanted: K -> bool)
    requires IsGrouping(rows, members, keyOf)
    ensures SumWhere(rows, wanted) == |Where(members, Selected(keyOf, wanted))|
  {
    if rows == [] {
      assert Where(members, Selected(keyOf, wanted)) == {};
    } else {
      var n := |rows| - 1;
      var last := rows[n];
      var own := Having(members, keyOf, last.key);
      var rest := members - own;
      FewerGroups(rows, members, keyOf);
      GroupsCountMembers(rows[..n], rest, keyOf, wanted);
      SplitWhere(members, keyOf, last.key, wanted);
      hide IsGrouping;
    }
  }

  lemma SplitWhere<K(!new)>(members: set<string>, keyOf: string -> K, key: K, wanted: K -> bool)
    ensures var own := Having(members, keyOf, key);
      |Where(members, Selected(keyOf, wanted))|
      == |Where(members - own, Selected(keyOf, wanted))| + if wanted(key) then |own| else 0
  {
    var own := Having(members, keyOf, key);
    var all, some := Where(members, Selected(keyOf, wanted)), Where(members - own, Selected(keyOf, wanted));
    if wanted(key) {
      assert all == some + own && some !! own;
    } else {
      assert all == some;
    }
  }

  lemma FewerGroups<K(!new)>(rows: seq<Group<K>>, members: set<string>, keyOf: string -> K)
    requires IsGrouping(rows, members, keyOf) && rows != []
    ensures IsGrouping(rows[..|rows| - 1], members - Having(members, keyOf, rows[|rows| - 1].key), keyOf)
  {
    var n := |rows| - 1;
    var last := rows[n];
    var rest := members - Having(members, keyOf, last.key);
    forall g | g in rows[..n] ensures g.count > 0 && g.count == |Having(rest, keyOf, g.key)| {
      assert g in rows && g.key != last.key;
      assert Having(rest, keyOf, g.key) == Having(members, keyOf, g.key);
    }
    forall o | o in rest ensures exists g :: g in rows[..n] && g.key == keyOf(o) {
      var g :| g in rows && g.key == keyOf(o);
      assert g != last;
      assert g in rows[..n];
    }
  }

  // ----- GetOrderStats -----

  /** Go's zero value of a missing key. */
  function At(m: map<string, int>, key: string): int {
    if key in m then m[key] else 0
  }

  /** The sum of all values of a map. */
  ghost function MapSum(m: map<string, int>): int {
    if m == map[] then 0
    else
      var key :| key in m;
      m[key] + MapSum(m - {key})
  }

  lemma {:induction false} MapSumWithout(m: map<string, int>, key: string)
    requires key in m
    ensures MapSum(m) == m[key] + MapSum(m - {key})
    decreases |m|
  {
    var first :| first in m && MapSum(m) == m[first] + MapSum(m - {first});
    if first != key {
      assert |m - {first}| < |m| by { Smaller(m, first); }
      assert |m - {key}| < |m| by { Smaller(m, key); }
      MapSumWithout(m - {first}, key);
      MapSumWithout(m - {key}, first);
      assert m - {first} - {key} == m - {key} - {first};
    }
  }

  lemma Smaller(m: map<string, int>, key: string)
    requires key in m
    ensures |m - {key}| < |m|
  {
    var less := m - {key};
    assert less.Keys == m.Keys - {key};
    assert |less.Keys| == |less| && |m.Keys| == |m|;
  }

  lemma MapSumAdd(m: map<string, int>, key: string, count: int)
    ensures MapSum(m[key := At(m, key) + count]) == MapSum(m) + count
  {
    var more := m[key := At(m, key) + count];
    MapSumWithout(more, key);
    if key in m {
      MapSumWithout(m, key);
      assert more - {key} == m - {key};
    } else {
      assert more - {key} == m;
    }
  }

  /** The map holds, for every value of one column, the sum of the counts of its rows. */
  ghost predicate IsMarginal<K(!new)>(m: map<string, int>, rows: seq<Group<K>>, column: K -> string) {
    && (forall s :: At(m, s) == SumWhere(rows, Equals(column, s)))
    && (forall s :: s in m <==> exists g :: g in rows && column(g.key) == s)
  }

  lemma NothingCounted<K(!new)>(column: K -> string)
    ensures IsMarginal(map[], [], column) && MapSum(map[]) == 0
  {
  }

  lemma MarginalStep<K(!new)>(m: map<string, int>, rows: seq<Group<K>>, row: Group<K>, column: K -> string)
    requires IsMarginal(m, rows, column)
    ensures var key := column(row.key);
      IsMarginal(m[key := At(m, key) + row.count], rows + [row], column)
  {
    var key := column(row.key);
    var m', more := m[key := At(m, key) + row.count], rows + [row];
    assert more[..|more| - 1] == rows;
    forall s ensures At(m', s) == SumWhere(more, Equals(column, s)) {
      assert At(m, s) == SumWhere(rows, Equals(column, s));
    }
    forall s ensures s in m' <==> exists g :: g in more && column(g.key) == s {
      if s == key { assert row in more; }
      if s in m {
        var g :| g in rows && column(g.key) == s;
        assert g in more;
      }
    }
  }

  function StatusOf(key: (string, string)): string { key.0 }

  function TaxiTypeOf(key: (string, string)): string { key.1 }

  /** The loop over the rows grouped by status and taxi type. */
  method GetOrderStats(rows: seq<Group<(string, string)>>) returns (stats: OrderStats)
    ensures IsMarginal(stats.byStatus, rows, StatusOf)
    ensures IsMarginal(stats.byTaxiType, rows, TaxiTypeOf)
    ensures stats.total == SumWhere(rows, Any())
    ensures MapSum(stats.byStatus) == stats.total == MapSum(stats.byTaxiType)
  {
    hide IsMarginal;
    stats := OrderStats(map[], map[], 0);
    NothingCounted(StatusOf);
    NothingCounted(TaxiTypeOf);
    assert rows[..0] == [];
    for i := 0 to |rows|
      invariant IsMarginal(stats.byStatus, rows[..i], StatusOf)
      invariant IsMarginal(stats.byTaxiType, rows[..i], TaxiTypeOf)
      invariant stats.total == SumWhere(rows[..i], Any())
      invariant MapSum(stats.byStatus) == stats.total == MapSum(stats.byTaxiType)
    {
      var row := rows[i];
      MapSumAdd(stats.byStatus, row.key.0, row.count);
      MapSumAdd(stats.byTaxiType, row.key.1, row.count);
      MarginalStep(stats.byStatus, rows[..i], row, StatusOf);
      MarginalStep(stats.byTaxiType, rows[..i], row, TaxiTypeOf);
      assert rows[..i + 1][..i] == rows[..i];
      assert rows[..i + 1] == rows[..i] + [row];
      stats := stats.(byStatus := stats.byStatus[row.key.0 := At(stats.byStatus, row.key.0) + row.count]);
      stats := stats.(byTaxiType := stats.byTaxiType[row.key.1 := At(stats.byTaxiType, row.key.1) + row.count]);
      stats := stats.(total := stats.total + row.count);
    }
    assert rows[..|rows|] == rows;
  }

  // ----- What the numbers count -----

  function StatsKey(events: map<string, OrderEvent>): string -> (string, string) {
    o => if o in events then (events[o].status, events[o].taxiType) else ("", "")
  }

  /** The answer of the grouped query over a half-open range of creation times. */
  ghost predicate IsStatsQuery(rows: seq<Group<(string, string)>>, events: map<string, OrderEvent>, from: int, to: int) {
    IsGrouping(rows, InRange(events, from, to), StatsKey(events))
  }

  function DayOf(e: OrderEvent): int {
    e.createdAt / DAY
  }

  function DayKey(events: map<string, OrderEvent>): string -> int {
    o => if o in events then DayOf(events[o]) else 0
  }

  /** The answer of the daily query, which is ordered by day. */
  ghost predicate IsDailyQuery(rows: seq<Group<int>>, events: map<string, OrderEvent>, from: int, to: int) {
    && IsGrouping(rows, InRange(events, from, to), DayKey(events))
    && forall i, j :: 0 <= i < j < |rows| ==> rows[i].key < rows[j].key
  }

  /** The loop over the rows grouped by day. */
  method GetDailyOrderCounts(rows: seq<Group<int>>) returns (r: seq<DailyCount>)
    ensures |r| == |rows| && forall i :: 0 <= i < |r| ==> r[i] == DailyCount(rows[i].key, rows[i].count)
  {
    r := [];
    for i := 0 to |rows|
      invariant |r| == i && forall k :: 0 <= k < i ==> r[k] == DailyCount(rows[k].key, rows[k].count)
    {
      r := r + [DailyCount(rows[i].key, rows[i].count)];
    }
  }

  function DailySum(results: seq<DailyCount>): int {
    if results == [] then 0 else DailySum(results[..|results| - 1]) + results[|results| - 1].count
  }

  lemma {:induction false} DailySumIsSum(rows: seq<Group<int>>, results: seq<DailyCount>)
    requires |results| == |rows| && forall i :: 0 <= i < |rows| ==> results[i] == DailyCount(rows[i].key, rows[i].count)
    ensures DailySum(results) == SumWhere(rows, Any())
  {
    if rows != [] { DailySumIsSum(rows[..|rows| - 1], results[..|rows| - 1]); }
  }

  /**
   The numbers mean what they say: each status count is the number of orders in
   the range with that status, likewise for taxi types, and the total is the
   number of orders in the range.
   */
  lemma {:induction false} StatsCountOrders(rows: seq<Group<(string, string)>>, stats: OrderStats,
                                            events: map<string, OrderEvent>, from: int, to: int, s: string)
    requires IsStatsQuery(rows, events, from, to)
    requires IsMarginal(stats.byStatus, rows, StatusOf) && IsMarginal(stats.byTaxiType, rows, TaxiTypeOf)
    requires stats.total == SumWhere(rows, Any())
    ensures At(stats.byStatus, s) == |set o | o in InRange(events, from, to) && events[o].status == s|
    ensures At(stats.byTaxiType, s) == |set o | o in InRange(events, from, to) && events[o].taxiType == s|
    ensures stats.total == |InRange(events, from, to)|
  {
    var keyOf, members := StatsKey(events), InRange(events, from, to);
    MarginalCounts(stats.byStatus, rows, members, keyOf, StatusOf, s);
    MarginalCounts(stats.byTaxiType, rows, members, keyOf, TaxiTypeOf, s);
    GroupsCountMembers(rows, members, keyOf, Any());
    hide IsGrouping, IsMarginal, SumWhere;
    StatsSelections(events, members, s);
  }

  lemma StatsSelections(events: map<string, OrderEvent>, members: set<string>, s: string)
    requires forall o :: o in members ==> o in events
    ensures Where(members, Selected(StatsKey(events), Equals(StatusOf, s)))
         == set o | o in members && events[o].status == s
    ensures Where(members, Selected(StatsKey(events), Equals(TaxiTypeOf, s)))
         == set o | o in members && events[o].taxiType == s
    ensures Where(members, Selected(StatsKey(events), Any())) == members
  {
    forall o | o in members
      ensures Selected(StatsKey(events), Equals(StatusOf, s))(o) <==> events[o].status == s
      ensures Selected(StatsKey(events), Equals(TaxiTypeOf, s))(o) <==> events[o].taxiType == s
    {
      var key := StatsKey(events)(o);
      assert key == (events[o].status, events[o].taxiType);
      assert StatusOf(key) == key.0 && TaxiTypeOf(key) == key.1;
      assert Equals(StatusOf, s)(key) <==> StatusOf(key) == s;
      assert Equals(TaxiTypeOf, s)(key) <==> TaxiTypeOf(key) == s;
    }
  }

  lemma MarginalCounts<K(!new)>(m: map<string, int>, rows: seq<Group<K>>, members: set<string>, keyOf: string -> K,
                                column: K -> string, s: string)
    requires IsGrouping(rows, members, keyOf) && IsMarginal(m, rows, column)
    ensures At(m, s) == |Where(members, Selected(keyOf, Equals(column, s)))|
  {
    GroupsCountMembers(rows, members, keyOf, Equals(column, s));
  }

  /** Over one range the daily counts add up to the total, and each is the number of orders of its day. */
  lemma {:induction false} DailyCountsAddUp(rows: seq<Group<int>>, results: seq<DailyCount>,
                                            events: map<string, OrderEvent>, from: int, to: int)
    requires IsDailyQuery(rows, events, from, to)
    requires |results| == |rows| && forall i :: 0 <= i < |rows| ==> results[i] == DailyCount(rows[i].key, rows[i].count)
    ensures DailySum(results) == |InRange(events, from, to)|
    ensures forall i :: 0 <= i < |results| ==>
      results[i].count == |set o | o in InRange(events, from, to) && DayOf(events[o]) == results[i].day|
    ensures forall i, j :: 0 <= i < j < |results| ==> results[i].day < results[j].day
  {
    var keyOf, members := DayKey(events), InRange(events, from, to);
    DailySumIsSum(rows, results);
    GroupsCountMembers(rows, members, keyOf, Any());
    assert Where(members, Selected(keyOf, Any())) == members;
    forall i | 0 <= i < |results|
      ensures results[i].count == |set o | o in members && DayOf(events[o]) == results[i].day|
    {
      assert rows[i] in rows;
      assert Having(members, keyOf, rows[i].key) == set o | o in members && DayOf(events[o]) == results[i].day;
    }
  }

  /** The range holds its first instant and not its last, and each known order by its own creation time. */
  lemma RangeBounds(events: map<string, OrderEvent>, from: int, to: int, o: string)
    requires o in events
    ensures o in InRange(events, from, to) <==> from <= events[o].createdAt && events[o].createdAt < to
    ensures events[o].createdAt == from < to ==> o in InRange(events, from, to)
    ensures events[o].createdAt == to ==> o !in InRange(events, from, to)
    ensures InRange(events, to, to) == {}
  {
  }

  /** A day is the 86,400,000 milliseconds from one midnight up to the next. */
  lemma DayHasMidnights(e: OrderEvent, day: int)
    ensures DayOf(e) == day <==> day * 86_400_000 <= e.createdAt < (day + 1) * 86_400_000
  {
    assert e.createdAt == DAY * (e.createdAt / DAY) + e.createdAt % DAY;
  }

  /** Half-open ranges tile: no order is counted twice or lost at the boundary. */
  lemma RangesTile(events: map<string, OrderEvent>, from: int, middle: int, to: int)
    requires from <= middle <= to
    ensures |InRange(events, from, to)| == |InRange(events, from, middle)| + |InRange(events, middle, to)|
  {
    assert InRange(events, from, to) == InRange(events, from, middle) + InRange(events, middle, to);
    assert InRange(events, from, middle) !! InRange(events, middle, to);
  }
}
