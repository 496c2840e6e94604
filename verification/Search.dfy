/**
 Searching orders: the filter is compiled to a bool query over the index, and
 pages are cut from the matches sorted by creation time. Zero values of the
 filter mean unset. Instants are nanoseconds since Go's zero time.
 */
module Search {
  import opened Prelude
  import opened OrderTypes

  const SECOND := 1_000_000_000
  const DEFAULT_LIMIT := 20
  const MAX_LIMIT := 100

  datatype Filter = Filter(
    taxiType: TaxiType, status: Status, createdAfter: int, createdBefore: int,
    minPrice: Int64, maxPrice: Int64, limit: int, offset: int)

  datatype Range = Range(gte: Option<int>, lte: Option<int>)

  /** Dates are written in RFC 3339 without fractions: as whole seconds. */
  datatype Clause =
    | TermTaxiType(taxiType: TaxiType)
    | TermStatus(status: Status)
    | RangeCreatedAt(seconds: Range)
    | RangePrice(price: Range)

  datatype Query = MatchAll | BoolFilter(clauses: seq<Clause>)

  /**
   What the source leaves to the search engine: the resolution of stored dates,
   and what it adds to an upper bound that is given in whole seconds.
   */
  datatype Engine = Engine(tick: nat, slack: nat) {
    predicate Valid() { 0 < tick && slack < SECOND }
  }

  // ----- What a query selects -----

  predicate Within(r: Range, slack: int, x: int) {
    (r.gte.Some? ==> r.gte.value <= x) && (r.lte.Some? ==> x <= r.lte.value + slack)
  }

  function Instants(r: Range): Range {
    Range(if r.gte.Some? then Some(r.gte.value * SECOND) else None,
          if r.lte.Some? then Some(r.lte.value * SECOND) else None)
  }

  predicate Holds(c: Clause, e: Engine, d: OrderDocument) {
    match c
    case TermTaxiType(t) => d.taxiType == t
    case TermStatus(s) => d.status == s
    case RangeCreatedAt(r) => Within(Instants(r), e.slack, d.createdAt)
    case RangePrice(r) => Within(r, 0, d.price)
  }

  predicate AllHold(clauses: seq<Clause>, e: Engine, d: OrderDocument) {
    forall c :: c in clauses ==> Holds(c, e, d)
  }

  predicate Selects(q: Query, e: Engine, d: OrderDocument) {
    match q
    case MatchAll => true
    case BoolFilter(clauses) => AllHold(clauses, e, d)
  }

  lemma {:induction false} Appended(clauses: seq<Clause>, c: Clause)
    ensures forall e: Engine, d: OrderDocument :: AllHold(clauses + [c], e, d) <==> AllHold(clauses, e, d) && Holds(c, e, d)
  {
    assert c in clauses + [c];
  }

  // ----- What a filter asks for -----

  predicate MeetsTerms(f: Filter, d: OrderDocument) {
    && (f.taxiType != NoTaxiType ==> d.taxiType == f.taxiType)
    && (f.status != NoStatus ==> d.status == f.status)
    && (f.minPrice != 0 ==> f.minPrice <= d.price)
    && (f.maxPrice != 0 ==> d.price <= f.maxPrice)
  }

  predicate Satisfies(f: Filter, d: OrderDocument) {
    && MeetsTerms(f, d)
    && (f.createdAfter != 0 ==> f.createdAfter <= d.createdAt)
    && (f.createdBefore != 0 ==> d.createdAt <= f.createdBefore)
  }

  /** The filter with its dates as the engine takes them, cut to whole seconds. */
  predicate SatisfiesRounded(f: Filter, e: Engine, d: OrderDocument) {
    && MeetsTerms(f, d)
    && (f.createdAfter != 0 ==> f.createdAfter / SECOND * SECOND <= d.createdAt)
    && (f.createdBefore != 0 ==> d.createdAt <= f.createdBefore / SECOND * SECOND + e.slack)
  }

  predicate Unset(f: Filter) {
    f.taxiType == NoTaxiType && f.status == NoStatus && f.createdAfter == 0 && f.createdBefore == 0
    && f.minPrice == 0 && f.maxPrice == 0
  }

  /** The compiled query selects, on every engine, the documents of the filter with its dates cut. */
  method BuildSearchQuery(f: Filter) returns (q: Query)
    ensures q.MatchAll? <==> Unset(f)
    ensures forall e: Engine, d: OrderDocument :: Selects(q, e, d) <==> SatisfiesRounded(f, e, d)
  {
    var clauses: seq<Clause> := [];
    if f.taxiType != NoTaxiType {
      Appended(clauses, TermTaxiType(f.taxiType));
      clauses := clauses + [TermTaxiType(f.taxiType)];
    }
    if f.status != NoStatus {
      Appended(clauses, TermStatus(f.status));
      clauses := clauses + [TermStatus(f.status)];
    }
    if f.createdAfter != 0 || f.createdBefore != 0 {
      var r := Range(None, None);
      if f.createdAfter != 0 {
        r := r.(gte := Some(f.createdAfter / SECOND));
      }
      if f.createdBefore != 0 {
        r := r.(lte := Some(f.createdBefore / SECOND));
      }
      Appended(clauses, RangeCreatedAt(r));
      clauses := clauses + [RangeCreatedAt(r)];
    }
    if f.minPrice != 0 || f.maxPrice != 0 {
      var r := Range(None, None);
      if f.minPrice != 0 {
        r := r.(gte := Some(f.minPrice));
      }
      if f.maxPrice != 0 {
        r := r.(lte := Some(f.maxPrice));
      }
      Appended(clauses, RangePrice(r));
      clauses := clauses + [RangePrice(r)];
    }
    q := MatchAll;
    if |clauses| > 0 {
      q := BoolFilter(clauses);
    }
  }

  /** Bounds for which cutting the dates to seconds changes nothing, read off the filter alone. */
  predicate Faithful(f: Filter, e: Engine) {
    || (f.minPrice != 0 && f.maxPrice != 0 && f.maxPrice < f.minPrice)
    || (if f.createdAfter != 0 && f.createdBefore != 0 && f.createdBefore < f.createdAfter
        then f.createdBefore / SECOND * SECOND + e.slack < f.createdAfter / SECOND * SECOND
        else && (f.createdAfter != 0 ==> f.createdAfter % SECOND == 0)
             && (f.createdBefore != 0 ==> f.createdBefore % SECOND == e.slack))
  }

  /** A document that meets everything but the dates. */
  function Probe(f: Filter, createdAt: int): OrderDocument {
    OrderDocument("", "", "", f.taxiType, Location(0.0, 0.0), Location(0.0, 0.0), f.status,
                  if f.minPrice != 0 then f.minPrice else f.maxPrice, 0, "", createdAt, createdAt)
  }

  lemma CutOff(x: int)
    ensures x == x / SECOND * SECOND + x % SECOND && 0 <= x % SECOND < SECOND
  {
  }

  /**
   The query selects exactly the documents that satisfy the filter, whatever is
   in the index, if and only if the bounds are faithful; with an engine that
   compares instants exactly (no slack), if they are whole seconds.
   */
  lemma SelectsExactlyIffFaithful(f: Filter, e: Engine)
    requires e.Valid()
    ensures (forall d :: SatisfiesRounded(f, e, d) == Satisfies(f, d)) <==> Faithful(f, e)
  {
    var after, before := f.createdAfter, f.createdBefore;
    CutOff(after);
    CutOff(before);
    if !Faithful(f, e) {
      var c := if after != 0 && before != 0 && before < after then after / SECOND * SECOND
               else if after != 0 && after % SECOND != 0 then after / SECOND * SECOND
               else if e.slack < before % SECOND then before
               else before / SECOND * SECOND + e.slack;
      assert MeetsTerms(f, Probe(f, c));
      assert SatisfiesRounded(f, e, Probe(f, c)) != Satisfies(f, Probe(f, c));
    }
  }

  // ----- Pages -----

  function SortKey(e: Engine, d: OrderDocument): int
    requires e.Valid()
  {
    d.createdAt / e.tick
  }

  /** A list of exactly these documents, newest first; ties are in any order. */
  ghost predicate IsRanking(r: seq<OrderDocument>, found: set<OrderDocument>, e: Engine)
    requires e.Valid()
  {
    && (forall d :: d in r <==> d in found)
    && (forall i, j :: 0 <= i < j < |r| ==> r[i] != r[j] && SortKey(e, r[j]) <= SortKey(e, r[i]))
  }

  /** No two of the documents are equally new. */
  ghost predicate NoTies(found: set<OrderDocument>, e: Engine)
    requires e.Valid()
  {
    forall c, d :: c in found && d in found && SortKey(e, c) == SortKey(e, d) ==> c == d
  }

  function Page<T>(r: seq<T>, offset: nat, limit: nat): seq<T> {
    if |r| <= offset then [] else if |r| <= offset + limit then r[offset..] else r[offset..offset + limit]
  }

  /** Page number k of the k-th answer, each `limit` long, one after the other. */
  function Consecutive<T>(answers: seq<seq<T>>, limit: nat): seq<T> {
    if answers == [] then []
    else
      var n := |answers| - 1;
      Consecutive(answers[..n], limit) + Page(answers[n], n * limit, limit)
  }

  lemma TailRanks(r: seq<OrderDocument>, found: set<OrderDocument>, e: Engine)
    requires e.Valid() && r != [] && IsRanking(r, found, e)
    ensures IsRanking(r[1..], found - {r[0]}, e)
  {
    assert forall d :: d in r[1..] ==> d in r;
    forall d | d in found - {r[0]} ensures d in r[1..] {
      assert d in r;
      var i :| 0 <= i < |r| && r[i] == d;
      assert r[1..][i - 1] == d;
    }
  }

  lemma {:induction false} RankingCounts(r: seq<OrderDocument>, found: set<OrderDocument>, e: Engine)
    requires e.Valid() && IsRanking(r, found, e)
    ensures |r| == |found|
  {
    if r == [] {
      assert found == {};
    } else {
      TailRanks(r, found, e);
      RankingCounts(r[1..], found - {r[0]}, e);
      assert r[0] in found;
    }
  }

  lemma FirstIsNewest(r: seq<OrderDocument>, found: set<OrderDocument>, e: Engine, d: OrderDocument)
    requires e.Valid() && r != [] && IsRanking(r, found, e)
    ensures r[0] in found && (d in found ==> SortKey(e, d) <= SortKey(e, r[0]))
  {
    if d in found {
      var i :| 0 <= i < |r| && r[i] == d;
    }
  }

  lemma {:induction false} RankingIsUnique(r: seq<OrderDocument>, s: seq<OrderDocument>, found: set<OrderDocument>, e: Engine)
    requires e.Valid() && NoTies(found, e) && IsRanking(r, found, e) && IsRanking(s, found, e)
    ensures r == s
  {
    RankingCounts(r, found, e);
    RankingCounts(s, found, e);
    if r != [] {
      FirstIsNewest(r, found, e, s[0]);
      FirstIsNewest(s, found, e, r[0]);
      assert r[0] == s[0];
      TailRanks(r, found, e);
      TailRanks(s, found, e);
      var rest := found - {r[0]};
      assert NoTies(rest, e);
      hide NoTies, IsRanking;
      RankingIsUnique(r[1..], s[1..], rest, e);
      assert r == [r[0]] + r[1..] && s == [s[0]] + s[1..];
    }
  }

  /**
   With no ties, consecutive pages, each from a ranking of its own, make up the
   match list from its start, with no gap and no duplicate.
   */
  lemma {:induction false} PagesConcatenate(answers: seq<seq<OrderDocument>>, limit: nat, r: seq<OrderDocument>,
                                            found: set<OrderDocument>, e: Engine)
    requires e.Valid() && NoTies(found, e) && IsRanking(r, found, e)
    requires forall a :: a in answers ==> IsRanking(a, found, e)
    ensures Consecutive(answers, limit) == Page(r, 0, |answers| * limit)
    ensures |answers| * limit >= |r| ==> Consecutive(answers, limit) == r
  {
    if answers == [] {
      assert Page(r, 0, 0) == [];
    } else {
      var n := |answers| - 1;
      PagesConcatenate(answers[..n], limit, r, found, e);
      assert answers[n] in answers;
      RankingIsUnique(answers[n], r, found, e);
      hide IsRanking, NoTies, Page;
      LastPage(answers, limit);
      PageFollows(r, n * limit, limit);
    }
    WholeList(r, |answers| * limit);
  }

  lemma LastPage<T>(answers: seq<seq<T>>, limit: nat)
    requires answers != []
    ensures var n := |answers| - 1;
      && |answers| * limit == n * limit + limit && 0 <= n * limit
      && Consecutive(answers, limit) == Consecutive(answers[..n], limit) + Page(answers[n], n * limit, limit)
  {
  }

  lemma WholeList<T>(r: seq<T>, limit: nat)
    ensures limit >= |r| ==> Page(r, 0, limit) == r
  {
  }

  lemma PageFollows<T>(r: seq<T>, offset: nat, limit: nat)
    ensures Page(r, 0, offset) + Page(r, offset, limit) == Page(r, 0, offset + limit)
  {
  }

  /**
   With a tie the promise fails: two rankings that differ in the order of the
   tied neighbours are both allowed, and cutting the page between them repeats
   one document and omits the other.
   */
  lemma TiesBreakPages(r: seq<OrderDocument>, i: nat, found: set<OrderDocument>, e: Engine)
    requires e.Valid() && IsRanking(r, found, e) && i + 1 < |r| && SortKey(e, r[i]) == SortKey(e, r[i + 1])
    ensures var s := r[i := r[i + 1]][i + 1 := r[i]];
      && IsRanking(s, found, e)
      && r[i] in Page(r, 0, i + 1) && r[i] in Page(s, i + 1, i + 1)
      && r[i + 1] !in Page(r, 0, i + 1) && r[i + 1] !in Page(s, i + 1, i + 1)
  {
    var s := r[i := r[i + 1]][i + 1 := r[i]];
    SwapRanks(r, i, found, e);
    assert Page(s, i + 1, i + 1)[0] == s[i + 1];
    assert Page(r, 0, i + 1)[i] == r[i];
    assert forall k :: i + 1 <= k < |s| ==> s[k] != r[i + 1];
  }

  lemma SwapRanks(r: seq<OrderDocument>, i: nat, found: set<OrderDocument>, e: Engine)
    requires e.Valid() && IsRanking(r, found, e) && i + 1 < |r| && SortKey(e, r[i]) == SortKey(e, r[i + 1])
    ensures IsRanking(r[i := r[i + 1]][i + 1 := r[i]], found, e)
  {
    var s := r[i := r[i + 1]][i + 1 := r[i]];
    hide SortKey;
    forall d ensures d in s <==> d in r {
      if d in r {
        var k :| 0 <= k < |r| && r[k] == d;
        assert d == s[if k == i then i + 1 else if k == i + 1 then i else k];
      }
    }
  }

  // ----- SearchOrders -----

  /** The limits of the service: 20 when unset, at most 100. */
  function PageOf(f: Filter): (page: (nat, nat))
    ensures f.limit <= 0 ==> page.1 == 20
    ensures f.limit > 0 ==> page.1 <= f.limit && page.1 <= 100 && (page.1 == f.limit || page.1 == 100)
    ensures f.offset >= 0 ==> page.0 == f.offset
    ensures f.offset < 0 ==> page.0 == 0
  {
    (if f.offset < 0 then 0 else f.offset,
     if f.limit <= 0 then DEFAULT_LIMIT else if f.limit > MAX_LIMIT then MAX_LIMIT else f.limit)
  }

  /** The documents that the compiled query finds. */
  ghost function Found(index: map<string, OrderDocument>, f: Filter, e: Engine): set<OrderDocument> {
    set o | o in index && SatisfiesRounded(f, e, index[o]) :: index[o]
  }

  /** What the filter asks of a stored order, its dates in whole seconds as the engine takes them. */
  predicate Wanted(f: Filter, e: Engine, o: Order) {
    var price := if o.price.Some? then o.price.value else 0;
    && (f.taxiType == NoTaxiType || f.taxiType == o.taxiType)
    && (f.status == NoStatus || f.status == o.status)
    && (f.minPrice == 0 || f.minPrice <= price)
    && (f.maxPrice == 0 || price <= f.maxPrice)
    && (f.createdAfter == 0 || f.createdAfter - f.createdAfter % 1_000_000_000 <= o.createdAt)
    && (f.createdBefore == 0 || o.createdAt <= f.createdBefore - f.createdBefore % 1_000_000_000 + e.slack)
  }

  /** The index shows exactly these orders, each in its current version. */
  ghost predicate Mirrors(index: map<string, OrderDocument>, orders: map<string, Order>) {
    && index.Keys == orders.Keys
    && forall o :: o in orders ==> orders[o].id == o && Normal(orders[o]) && index[o] == DocumentFromDomain(orders[o])
  }

  function Converted(r: seq<OrderDocument>): (orders: seq<Order>)
    ensures |orders| == |r| && forall i :: 0 <= i < |r| ==> orders[i] == r[i].ToDomain()
  {
    seq(|r|, i requires 0 <= i < |r| => r[i].ToDomain())
  }

  lemma FoundIsWanted(index: map<string, OrderDocument>, orders: map<string, Order>, f: Filter, e: Engine, o: string)
    requires Mirrors(index, orders) && o in orders
    ensures index[o].ToDomain() == orders[o] && index[o].id == o
    ensures index[o] in Found(index, f, e) <==> Wanted(f, e, orders[o])
  {
    RoundTripIffNormal(orders[o]);
    CutOff(f.createdAfter);
    CutOff(f.createdBefore);
    if index[o] in Found(index, f, e) {
      var x :| x in index && SatisfiesRounded(f, e, index[x]) && index[x] == index[o];
      assert orders[x].id == index[x].id && orders[o].id == index[o].id;
    }
  }

  /**
   Over an index that mirrors the table, a ranking of what the query finds holds
   exactly the orders whose own rows the filter asks for, each as its row is, the
   newest row first.
   */
  lemma {:induction false} SearchFindsRows(index: map<string, OrderDocument>, orders: map<string, Order>, f: Filter,
                                           e: Engine, r: seq<OrderDocument>)
    requires e.Valid() && Mirrors(index, orders) && IsRanking(r, Found(index, f, e), e)
    ensures forall o: Order :: o in Converted(r) <==> o.id in orders && o == orders[o.id] && Wanted(f, e, o)
    ensures forall i, j :: 0 <= i < j < |r| ==>
      Converted(r)[i].id != Converted(r)[j].id && Converted(r)[j].createdAt / e.tick <= Converted(r)[i].createdAt / e.tick
  {
    var rows := Converted(r);
    forall i | 0 <= i < |r|
      ensures r[i].id in orders && rows[i] == orders[r[i].id] && Wanted(f, e, rows[i])
      ensures r[i] == index[r[i].id] && rows[i].id == r[i].id && rows[i].createdAt == r[i].createdAt
    {
      assert r[i] in Found(index, f, e);
      var o :| o in index && index[o] == r[i];
      FoundIsWanted(index, orders, f, e, o);
    }
    forall o: Order | o.id in orders && o == orders[o.id] && Wanted(f, e, o) ensures o in rows {
      FoundIsWanted(index, orders, f, e, o.id);
      var i :| 0 <= i < |r| && r[i] == index[o.id];
      assert rows[i] == o;
    }
    hide Wanted, Mirrors, Found;
  }

  /**
   SearchOrders against an engine that answers with some ranking of what the
   query selects: the page of the converted documents, and their total number.
   */
  method SearchOrders(index: map<string, OrderDocument>, f: Filter, e: Engine, ranking: Query -> seq<OrderDocument>, up: bool)
    returns (err: bool, orders: seq<Order>, total: nat)
    requires e.Valid()
    requires forall q: Query ::
      IsRanking(ranking(q), set o | o in index && Selects(q, e, index[o]) :: index[o], e)
    ensures err <==> !up
    ensures up ==> exists r :: && IsRanking(r, Found(index, f, e), e) && total == |r| == |Found(index, f, e)|
                               && orders == Converted(Page(r, PageOf(f).0, PageOf(f).1))
  {
    if !up { return true, [], 0; }
    var q := BuildSearchQuery(f);
    var ranked := ranking(q);
    var (offset, limit) := PageOf(f);
    var hits := Page(ranked, offset, limit);
    var filled := new Order[|hits|];
    for i := 0 to |hits|
      invariant forall k :: 0 <= k < i ==> filled[k] == hits[k].ToDomain()
    {
      filled[i] := hits[i].ToDomain();
    }
    assert (set o | o in index && Selects(q, e, index[o]) :: index[o]) == Found(index, f, e);
    RankingCounts(ranked, Found(index, f, e), e);
    return false, filled[..], |ranked|;
  }
}
