/**
 Runs that reach the states in which the code promises less: a rider who paid
 for nothing, a document behind its row, two active orders with one driver.
 Each is put together from calls that go through step by step.
 */
module OrderWitnesses {
  import opened Prelude
  import opened Ledger
  import opened OrderTypes
  import opened OrderMachine
  import opened OrderMoney
  import opened OrderLifecycle
  import opened OrderIndex
  import opened OrderDrivers
  import opened OrderPlacement

  // ----- Growing a run -----

  lemma {:induction false} Go(es: seq<Event>, s: State, e: Event, s': State) returns (es': seq<Event>)
    requires Run(es) == Some(s) && Step(s, e) == Some(s') && PerOrder(es) && Disjoint(s')
    ensures es' == es + [e] && Run(es') == Some(s') && PerOrder(es')
    ensures CarefulRun(es) && Careful(s, e) ==> CarefulRun(es')
  {
    hide Step, Disjoint, Careful;
    es' := es + [e];
    assert es'[..|es|] == es && es'[..|es'|] == es';
    assert forall k :: 0 <= k <= |es| ==> es'[..k] == es[..k];
  }

  /** What a step of call `c` on order `o` leaves alone. */
  ghost predicate Aside(s: State, s': State, c: nat, o: string) {
    && (forall x :: x != c ==> (x in s.calls <==> x in s'.calls) && (x in s.calls ==> s'.calls[x] == s.calls[x]))
    && (forall y :: y != o ==> (y in s.orders <==> y in s'.orders) && (y in s.orders ==> s'.orders[y] == s.orders[y]))
  }

  lemma AsideChains(s: State, t: State, u: State, c: nat, o: string)
    requires Aside(s, t, c, o) && Aside(t, u, c, o)
    ensures Aside(s, u, c, o)
  {
  }

  /** No call but `c` is at work on order `o`. */
  ghost predicate Alone(s: State, c: nat, o: string) {
    forall x :: InFlight(s, x) && x != c ==> s.calls[x].orderId != o
  }

  lemma AsideKeepsDisjoint(s: State, s': State, c: nat, o: string)
    requires Aside(s, s', c, o) && Disjoint(s) && Alone(s, c, o) && c in s'.calls && s'.calls[c].orderId == o
    ensures Disjoint(s') && Alone(s', c, o)
  {
  }

  lemma EasilyCareful(s: State, e: Event)
    requires !e.Write? && !e.Assign? && !e.DriverSets?
    ensures Careful(s, e)
  {
  }

  /** A step that no condition of `Careful` is about. */
  lemma {:induction false} GoEasily(es: seq<Event>, s: State, e: Event, s': State) returns (es': seq<Event>)
    requires Run(es) == Some(s) && Step(s, e) == Some(s') && PerOrder(es) && Disjoint(s')
    requires !e.Write? && !e.Assign? && !e.DriverSets?
    ensures es' == es + [e] && Run(es') == Some(s') && PerOrder(es')
    ensures CarefulRun(es) ==> CarefulRun(es')
  {
    hide Run, Step, PerOrder, CarefulRun, Disjoint, Careful;
    EasilyCareful(s, e);
    es' := Go(es, s, e, s');
  }

  // ----- CreateOrder up to the claim of a driver -----

  lemma Begins(s: State, c: nat, o: string, input: Input, price: Int64)
    requires c !in s.calls && Invalid(input).None? && price > 0 && FreshOrderId(s, o)
    ensures Step(s, CreateOrder(c, o, input, price)).Some?
    ensures var s' := Step(s, CreateOrder(c, o, input, price)).value;
      && Aside(s, s', c, o) && s'.orders == s.orders && s'.drivers == s.drivers && s'.book == s.book && s'.index == s.index
      && c in s'.calls && s'.calls[c] == Call(o, Charging(input))
      && s'.bills == s.bills[o := Bill(input.userId, price)] && ChargeRequest(o, Bill(input.userId, price)) in s'.sent
  {
  }

  /** The wallet can pay and has no row of this order. */
  ghost predicate CanPay(book: Book, u: string, price: Int64, o: string) {
    && u in book.wallets && book.wallets[u].balance >= price
    && forall t :: t in book.rows ==> t.reference != o
  }

  lemma Pays(s: State, c: nat, o: string, u: string, price: Int64, id: nat)
    requires c in s.calls && o in s.bills && s.bills[o] == Bill(u, price) && price > 0
    requires CanPay(s.book, u, price, o) && ChargeRequest(o, Bill(u, price)) in s.sent
    ensures var e := Deliver(ChargeRequest(o, Bill(u, price)), id, 0);
      && Step(s, e).Some?
      && var s' := Step(s, e).value;
      && Aside(s, s', c, o) && s' == s.(book := s'.book) && Debited(s', o)
      && u in s'.book.wallets && s'.book.wallets[u].balance == s.book.wallets[u].balance - price
      && forall r :: r in s'.book.rows ==> r in s.book.rows || r.reference == o
  {
    var w := s.book.wallets[u];
    var e := Deliver(ChargeRequest(o, Bill(u, price)), id, 0);
    assert Find(s.book.rows, w.id, o, Debit).None?;
    var s' := Step(s, e).value;
    FindAppend(s.book.rows, s'.book.rows[|s.book.rows|], w.id, o, Debit);
  }

  lemma ChargeAnswered(s: State, c: nat, o: string, input: Input, ok: bool)
    requires c in s.calls && s.calls[c] == Call(o, Charging(input)) && Debited(s, o)
    ensures Step(s, WalletReply(c, ok)).Some?
    ensures var s' := Step(s, WalletReply(c, ok)).value;
      && Aside(s, s', c, o) && c in s'.calls
      && s'.calls[c] == Call(o, if ok then Inserting(input) else Done(Refused(Unavailable)))
      && s' == s.(calls := s'.calls)
  {
    hide Accepts;
  }

  lemma Inserts(s: State, c: nat, o: string, input: Input)
    requires c in s.calls && s.calls[c] == Call(o, Inserting(input)) && o in s.bills && o !in s.orders
    ensures Step(s, Insert(c, 0, Ok)).Some?
    ensures var s' := Step(s, Insert(c, 0, Ok)).value; var row := NewOrder(o, input, s.bills[o].price, 0);
      && Aside(s, s', c, o) && c in s'.calls && s'.calls[c] == Call(o, Indexing(row))
      && s'.orders == s.orders[o := row] && s' == s.(calls := s'.calls, orders := s'.orders)
  {
  }

  lemma IndexesFirst(s: State, c: nat, o: string, row: Order)
    requires c in s.calls && s.calls[c] == Call(o, Indexing(row)) && row.id == o
    ensures Step(s, Index(c, true)).Some?
    ensures var s' := Step(s, Index(c, true)).value;
      && Aside(s, s', c, o) && c in s'.calls && s'.calls[c] == Call(o, Claiming(row))
      && s'.index == s.index[o := DocumentFromDomain(row)] && s' == s.(calls := s'.calls, index := s'.index)
  {
  }

  function PlacingEvents(c: nat, o: string, input: Input, price: Int64, id: nat): seq<Event> {
    [CreateOrder(c, o, input, price), Deliver(ChargeRequest(o, Bill(input.userId, price)), id, 0), WalletReply(c, true),
     Insert(c, 0, Ok), Index(c, true)]
  }

  /** What placing an order needs. */
  ghost predicate Placeable(s: State, c: nat, o: string, input: Input, price: Int64) {
    && c !in s.calls && Alone(s, c, o) && Disjoint(s) && o !in s.orders && o !in s.bills
    && Invalid(input).None? && price > 0 && CanPay(s.book, input.userId, price, o)
  }

  /** What it leaves behind, the call about to claim a driver. */
  ghost predicate Placed(s: State, s': State, c: nat, o: string, input: Input, price: Int64) {
    var row := NewOrder(o, input, price, 0);
    && Aside(s, s', c, o) && Disjoint(s') && Alone(s', c, o) && s'.drivers == s.drivers
    && c in s'.calls && s'.calls[c] == Call(o, Claiming(row)) && o in s'.orders && s'.orders[o] == row
    && o in s'.index && s'.index[o] == DocumentFromDomain(row) && s'.bills == s.bills[o := Bill(input.userId, price)]
    && input.userId in s.book.wallets && input.userId in s'.book.wallets
    && s'.book.wallets[input.userId].balance == s.book.wallets[input.userId].balance - price
    && forall t :: t in s'.book.rows ==> t in s.book.rows || t.reference == o
  }

  /** CreateOrder can go through up to the claim. */
  lemma {:induction false} Place(es: seq<Event>, s: State, c: nat, o: string, input: Input, price: Int64, id: nat)
    returns (es': seq<Event>, s': State)
    requires Run(es) == Some(s) && PerOrder(es) && Placeable(s, c, o, input, price)
    ensures es' == es + PlacingEvents(c, o, input, price, id)
    ensures Run(es') == Some(s') && PerOrder(es') && (CarefulRun(es) ==> CarefulRun(es'))
    ensures Placed(s, s', c, o, input, price)
  {
    assert o !in s.orders;
    hide Run, Step, PerOrder, CarefulRun, Disjoint, Alone, Debited, Placeable, Aside, NewOrder;
    var t: State;
    es', t := PlacePaid(es, s, c, o, input, price, id);
    es', s' := PlaceIndexed(es', t, c, o, input);
    AsideChains(s, t, s', c, o);
  }

  /** The answer of the wallet, the insert and the first IndexOrder. */
  lemma {:induction false} PlaceIndexed(es: seq<Event>, s: State, c: nat, o: string, input: Input)
    returns (es': seq<Event>, s': State)
    requires Run(es) == Some(s) && PerOrder(es) && Disjoint(s) && Alone(s, c, o) && Debited(s, o) && o !in s.orders
    requires c in s.calls && s.calls[c] == Call(o, Charging(input)) && o in s.bills
    ensures es' == es + [WalletReply(c, true), Insert(c, 0, Ok), Index(c, true)]
    ensures Run(es') == Some(s') && PerOrder(es') && (CarefulRun(es) ==> CarefulRun(es'))
    ensures var row := NewOrder(o, input, s.bills[o].price, 0);
      && Aside(s, s', c, o) && Disjoint(s') && Alone(s', c, o)
      && c in s'.calls && s'.calls[c] == Call(o, Claiming(row)) && o in s'.orders && s'.orders[o] == row
      && o in s'.index && s'.index[o] == DocumentFromDomain(row)
      && s' == s.(calls := s'.calls, orders := s'.orders, index := s'.index)
  {
    hide Run, Step, PerOrder, CarefulRun, Disjoint, Alone, Debited, Aside, NewOrder;
    var row := NewOrder(o, input, s.bills[o].price, 0);
    var t: State;
    es', t := PlaceStored(es, s, c, o, input);
    NewOrderHasId(o, input, s.bills[o].price);
    IndexesFirst(t, c, o, row);
    s' := Step(t, Index(c, true)).value;
    AsideKeepsDisjoint(t, s', c, o);
    es' := GoEasily(es', t, Index(c, true), s');
    AsideChains(s, t, s', c, o);
  }

  lemma NewOrderHasId(o: string, input: Input, price: Int64)
    ensures NewOrder(o, input, price, 0).id == o
  {
  }

  /** The answer of the wallet, and the insert. */
  lemma {:induction false} PlaceStored(es: seq<Event>, s: State, c: nat, o: string, input: Input)
    returns (es': seq<Event>, s': State)
    requires Run(es) == Some(s) && PerOrder(es) && Disjoint(s) && Alone(s, c, o) && Debited(s, o) && o !in s.orders
    requires c in s.calls && s.calls[c] == Call(o, Charging(input)) && o in s.bills
    ensures es' == es + [WalletReply(c, true), Insert(c, 0, Ok)]
    ensures Run(es') == Some(s') && PerOrder(es') && (CarefulRun(es) ==> CarefulRun(es'))
    ensures var row := NewOrder(o, input, s.bills[o].price, 0);
      && Aside(s, s', c, o) && Disjoint(s') && Alone(s', c, o)
      && c in s'.calls && s'.calls[c] == Call(o, Indexing(row)) && s'.orders == s.orders[o := row]
      && s' == s.(calls := s'.calls, orders := s'.orders)
  {
    hide Run, Step, PerOrder, CarefulRun, Disjoint, Alone, Debited, Aside, NewOrder;
    ChargeAnswered(s, c, o, input, true);
    var t := Step(s, WalletReply(c, true)).value;
    AsideKeepsDisjoint(s, t, c, o);
    es' := GoEasily(es, s, WalletReply(c, true), t);
    Inserts(t, c, o, input);
    s' := Step(t, Insert(c, 0, Ok)).value;
    AsideKeepsDisjoint(t, s', c, o);
    es' := GoEasily(es', t, Insert(c, 0, Ok), s');
    AsideChains(s, t, s', c, o);
  }

  ghost predicate Paid(s: State, s': State, c: nat, o: string, input: Input, price: Int64) {
    && Aside(s, s', c, o) && Disjoint(s') && Alone(s', c, o) && s'.drivers == s.drivers && s'.orders == s.orders
    && c in s'.calls && s'.calls[c] == Call(o, Charging(input)) && s'.bills == s.bills[o := Bill(input.userId, price)]
    && Debited(s', o) && input.userId in s.book.wallets && input.userId in s'.book.wallets
    && s'.book.wallets[input.userId].balance == s.book.wallets[input.userId].balance - price
    && forall t :: t in s'.book.rows ==> t in s.book.rows || t.reference == o
  }

  /** CreateOrder has drawn the id and asked for the charge. */
  lemma {:induction false} PlaceAsked(es: seq<Event>, s: State, c: nat, o: string, input: Input, price: Int64)
    returns (es': seq<Event>, s': State)
    requires Run(es) == Some(s) && PerOrder(es) && Placeable(s, c, o, input, price)
    ensures es' == es + [CreateOrder(c, o, input, price)]
    ensures Run(es') == Some(s') && PerOrder(es') && (CarefulRun(es) ==> CarefulRun(es'))
    ensures Aside(s, s', c, o) && Disjoint(s') && Alone(s', c, o)
    ensures s'.drivers == s.drivers && s'.orders == s.orders && s'.book == s.book
    ensures c in s'.calls && s'.calls[c] == Call(o, Charging(input))
    ensures s'.bills == s.bills[o := Bill(input.userId, price)] && ChargeRequest(o, Bill(input.userId, price)) in s'.sent
  {
    assert FreshOrderId(s, o);
    hide Run, Step, PerOrder, CarefulRun, Disjoint, Alone, FreshOrderId, Aside, CanPay, Invalid;
    Begins(s, c, o, input, price);
    s' := Step(s, CreateOrder(c, o, input, price)).value;
    AsideKeepsDisjoint(s, s', c, o);
    es' := GoEasily(es, s, CreateOrder(c, o, input, price), s');
  }

  /** CreateOrder has asked for the charge, and the wallet has made it. */
  lemma {:induction false} PlacePaid(es: seq<Event>, s: State, c: nat, o: string, input: Input, price: Int64, id: nat)
    returns (es': seq<Event>, s': State)
    requires Run(es) == Some(s) && PerOrder(es) && Placeable(s, c, o, input, price)
    ensures es' == es + PlacingEvents(c, o, input, price, id)[..2]
    ensures Run(es') == Some(s') && PerOrder(es') && (CarefulRun(es) ==> CarefulRun(es'))
    ensures Paid(s, s', c, o, input, price)
  {
    hide Run, Step, PerOrder, CarefulRun, Disjoint, Alone, Debited, Aside, CanPay, Invalid;
    var u := input.userId;
    var t: State;
    es', t := PlaceAsked(es, s, c, o, input, price);
    Pays(t, c, o, u, price, id);
    var e := Deliver(ChargeRequest(o, Bill(u, price)), id, 0);
    s' := Step(t, e).value;
    AsideKeepsDisjoint(t, s', c, o);
    es' := GoEasily(es', t, e, s');
    AsideChains(s, t, s', c, o);
    HasWallet(s, u, price, o);
  }

  lemma HasWallet(s: State, u: string, price: Int64, o: string)
    requires CanPay(s.book, u, price, o)
    ensures u in s.book.wallets
  {
  }

  // ----- The start of every witness -----

  const RIDE := Input("u", Economy, Location(1.0, 1.0), Location(2.0, 2.0))
  const TOPUP := Request("u", Credit, 1000, "topup")

  /** A rider with money, and one available driver. */
  function Ready(): State {
    State(Book(map["u" := Wallet("w", 1000)], [NewRow("w", TOPUP, 0, 0)]), {}, map[], map[],
          map["d" := Driver(Economy, Available)], map[], map[])
  }

  lemma Start() returns (es: seq<Event>)
    ensures Run(es) == Some(Ready()) && PerOrder(es) && CarefulRun(es) && |es| == 4
  {
    hide Step;
    var s1 := Init.(book := Book(map["u" := Wallet("w", 0)], []));
    var s2 := s1.(book := Ready().book);
    var s3 := s2.(drivers := map["d" := Driver(Economy, Offline)]);
    FirstSteps(s1, s2);
    DriverSteps(s2, s3);
    assert Run([]) == Some(Init) && PerOrder([]) && CarefulRun([]);
    hide Run, Step, PerOrder, CarefulRun, Careful;
    es := GoEasily([], Init, OpenWallet("u", "w"), s1);
    es := GoEasily(es, s1, External(TOPUP, 0, 0), s2);
    es := GoEasily(es, s2, NewDriver("d", Economy), s3);
    es := Go(es, s3, DriverSets("d", Available), Ready());
  }

  lemma FirstSteps(s1: State, s2: State)
    requires s1 == Init.(book := Book(map["u" := Wallet("w", 0)], [])) && s2 == s1.(book := Ready().book)
    ensures Step(Init, OpenWallet("u", "w")) == Some(s1) && Step(s1, External(TOPUP, 0, 0)) == Some(s2)
  {
    assert map["u" := Wallet("w", 0)]["u" := Wallet("w", 1000)] == map["u" := Wallet("w", 1000)];
    assert Find([], "w", "topup", Credit).None? && NewBalance(0, TOPUP) == 1000;
    assert [] + [NewRow("w", TOPUP, 0, 0)] == [NewRow("w", TOPUP, 0, 0)];
  }

  lemma DriverSteps(s2: State, s3: State)
    requires s2 == Init.(book := Ready().book) && s3 == s2.(drivers := map["d" := Driver(Economy, Offline)])
    ensures Step(s2, NewDriver("d", Economy)) == Some(s3) && Step(s3, DriverSets("d", Available)) == Some(Ready())
    ensures Careful(s3, DriverSets("d", Available))
  {
    assert map["d" := Driver(Economy, Offline)]["d" := Driver(Economy, Available)] == map["d" := Driver(Economy, Available)];
  }

  // ----- A rider who paid for nothing -----

  lemma ReadyToPlace()
    ensures Placeable(Ready(), 0, "o", RIDE, 200)
  {
  }

  /**
   The wallet makes the charge, its answer gets lost, and CreateOrder gives up:
   the rider has paid, there is no order, and no refund is asked for.
   */
  lemma PaidForNothing() returns (es: seq<Event>)
    ensures Run(es).Some? && ChargeErred(es, "o")
    ensures var s := Run(es).value;
      && Debited(s, "o") && "o" !in s.orders && RefundRequest("o", s.bills["o"]) !in s.sent
      && forall c :: c in s.calls ==> s.calls[c].phase.Done?
  {
    hide Step, Run, PerOrder, CarefulRun, Disjoint, Alone, Placeable, Debited, ChargeErred;
    var before := Start();
    ReadyToPlace();
    var s: State;
    before, s := PlacePaid(before, Ready(), 0, "o", RIDE, 200, 1);
    ChargeAnswered(s, 0, "o", RIDE, false);
    var s' := Step(s, WalletReply(0, false)).value;
    AsideKeepsDisjoint(s, s', 0, "o");
    es := GoEasily(before, s, WalletReply(0, false), s');
    ErredNow(before, s, es);
    StillDebited(s, s', "o");
    assert forall c :: c in s'.calls ==> c == 0;
    PaidButNotStored(es, "o");
  }

  lemma {:induction false} ErredNow(before: seq<Event>, s: State, es: seq<Event>)
    requires Run(before) == Some(s) && es == before + [WalletReply(0, false)]
    requires 0 in s.calls && s.calls[0].orderId == "o" && s.calls[0].phase.Charging?
    ensures ChargeErred(es, "o")
  {
    assert es[..|before|] == before;
    assert ChargeErrsAt(es, |before|, "o");
  }

  lemma StillDebited(s: State, s': State, o: string)
    requires Debited(s, o) && s'.book == s.book && s'.bills == s.bills
    ensures Debited(s', o)
  {
  }

  // ----- Steps of a trip -----

  lemma ClaimsDriver(s: State, c: nat, o: string, row: Order, d: string)
    requires c in s.calls && s.calls[c] == Call(o, Claiming(row)) && CanClaim(s, d, row.taxiType)
    ensures Step(s, Claim(c, Some(d), true)).Some?
    ensures var s' := Step(s, Claim(c, Some(d), true)).value;
      && Aside(s, s', c, o) && c in s'.calls && s'.calls[c] == Call(o, Assigning(row, d))
      && s'.orders == s.orders && s'.book == s.book && s'.bills == s.bills && s'.index == s.index
      && d in s'.drivers && s'.drivers[d] == Driver(row.taxiType, OnTrip)
  {
  }

  function AssignedRow(row: Order, d: string): Order {
    row.(driverId := Some(d), status := DriverAssigned, updatedAt := 0)
  }

  lemma AssignsDriver(s: State, c: nat, o: string, row: Order, d: string, lost: bool)
    requires c in s.calls && s.calls[c] == Call(o, Assigning(row, d)) && o in s.orders && s.orders[o] == row
    ensures var e := Assign(c, 0, if lost then LostAck else Ok);
      && Step(s, e).Some?
      && var s' := Step(s, e).value;
      && Aside(s, s', c, o) && c in s'.calls
      && s'.calls[c] == Call(o, if lost then Unassigning(row, d) else IndexingAssigned(AssignedRow(row, d)))
      && s' == s.(calls := s'.calls, orders := s.orders[o := AssignedRow(row, d)])
  {
  }

  lemma IndexesLast(s: State, c: nat, o: string, row: Order)
    requires c in s.calls && s.calls[c].orderId == o
    requires s.calls[c].phase == IndexingAssigned(row) || s.calls[c].phase == IndexingLast(row)
    ensures Step(s, Index(c, true)).Some?
    ensures var s' := Step(s, Index(c, true)).value;
      && Aside(s, s', c, o) && c in s'.calls && s'.calls[c] == Call(o, Done(Returned(row)))
      && s' == s.(calls := s'.calls, index := s'.index)
  {
  }

  lemma ReleasesDriver(s: State, c: nat, o: string, row: Order, d: string)
    requires c in s.calls && d in s.drivers && row.driverId == Some(d)
    requires s.calls[c] == Call(o, Releasing(row, Completed))
    ensures Step(s, Release(c, true)).Some?
    ensures var s' := Step(s, Release(c, true)).value;
      && Aside(s, s', c, o) && c in s'.calls && s'.calls[c] == Call(o, Writing(row, Completed, true))
      && s' == s.(calls := s'.calls, drivers := s.drivers[d := s.drivers[d].(status := Available)])
  {
  }

  lemma GivesUpDriver(s: State, c: nat, o: string, row: Order, d: string)
    requires c in s.calls && s.calls[c] == Call(o, Unassigning(row, d))
    ensures Step(s, Release(c, true)).Some?
    ensures var s' := Step(s, Release(c, true)).value;
      && Aside(s, s', c, o) && c in s'.calls && s'.calls[c] == Call(o, Done(Returned(row)))
      && s'.orders == s.orders && s'.index == s.index
  {
  }

  // ----- A document behind its row -----

  /** AssignDriver takes effect and reports an error, and CreateOrder returns the order as it was. */
  lemma {:induction false} LoseAssignment(es: seq<Event>, s: State, c: nat, o: string, row: Order, d: string)
    returns (es': seq<Event>, s': State)
    requires Run(es) == Some(s) && PerOrder(es) && Disjoint(s) && Alone(s, c, o) && o in s.orders && s.orders[o] == row
    requires c in s.calls && s.calls[c] == Call(o, Claiming(row)) && CanClaim(s, d, row.taxiType)
    ensures es' == es + [Claim(c, Some(d), true), Assign(c, 0, LostAck), Release(c, true)]
    ensures Run(es') == Some(s') && PerOrder(es') && c in s'.calls && s'.calls[c] == Call(o, Done(Returned(row)))
    ensures s'.index == s.index
  {
    hide Run, Step, PerOrder, CarefulRun, Disjoint, Alone, Aside, Careful;
    ClaimsDriver(s, c, o, row, d);
    var t := Step(s, Claim(c, Some(d), true)).value;
    AsideKeepsDisjoint(s, t, c, o);
    es' := GoEasily(es, s, Claim(c, Some(d), true), t);
    AssignsDriver(t, c, o, row, d, true);
    var u := Step(t, Assign(c, 0, LostAck)).value;
    AsideKeepsDisjoint(t, u, c, o);
    es' := Go(es', t, Assign(c, 0, LostAck), u);
    GivesUpDriver(u, c, o, row, d);
    s' := Step(u, Release(c, true)).value;
    AsideKeepsDisjoint(u, s', c, o);
    es' := GoEasily(es', u, Release(c, true), s');
  }

  /**
   Every IndexOrder of the only call takes effect, an AssignDriver is lost, and
   the document shows an order without the driver that its row has.
   */
  lemma LostAssignmentLeavesStaleDocument() returns (es: seq<Event>)
    ensures Run(es).Some? && PerOrder(es) && LastIndexTook(es, 8, 0, "o") && AssignLost(es, 8, 0)
    ensures var s := Run(es).value;
      && 0 in s.calls && s.calls[0].phase.Done? && "o" in s.index && "o" in s.orders
      && Behind(s.index["o"], s.orders["o"])
  {
    hide Step, Run, PerOrder, CarefulRun, Disjoint, Alone, Placeable, LastIndexTook, Matches, Behind, Aside;
    var before := Start();
    ReadyToPlace();
    var s: State;
    es, s := Place(before, Ready(), 0, "o", RIDE, 200, 1);
    CanStillClaim(s);
    var row := s.orders["o"];
    var placed := es;
    var s': State;
    es, s' := LoseAssignment(placed, s, 0, "o", row, "d");
    IndexWasLast(before, placed, es);
    assert AssignLost(es, 8, 0) by { assert es[10] == Assign(0, 0, LostAck); }
    FinishedCallMirrors(es, 8, 0, "o");
    IndexIsThere(es);
  }

  lemma CanStillClaim(s: State)
    requires Placed(Ready(), s, 0, "o", RIDE, 200)
    ensures CanClaim(s, "d", Economy) && s.orders["o"].taxiType == Economy
  {
  }

  lemma {:induction false} IndexWasLast(before: seq<Event>, placed: seq<Event>, es: seq<Event>)
    requires |before| == 4 && placed == before + PlacingEvents(0, "o", RIDE, 200, 1)
    requires es == placed + [Claim(0, Some("d"), true), Assign(0, 0, LostAck), Release(0, true)] && Run(es).Some?
    ensures LastIndexTook(es, 8, 0, "o") && |es| == 12
  {
    assert es[8] == Index(0, true) && es[4] == CreateOrder(0, "o", RIDE, 200);
    assert forall j :: 8 < j < |es| ==> !es[j].Index? && es[j].call == 0;
    KeepsOrderId(es, 4, 8);
    hide Run, CallEffect;
  }

  /** A call keeps the order it was made for. */
  lemma {:induction false} KeepsOrderId(es: seq<Event>, i: nat, k: nat)
    requires Run(es).Some? && i < k <= |es| && es[i].CreateOrder?
    ensures Run(es[..k]).Some? && es[i].call in Run(es[..k]).value.calls
    ensures Run(es[..k]).value.calls[es[i].call].orderId == es[i].orderId
  {
    PrefixGrows(es, k);
    PrefixGrows(es, k - 1);
    assert es[..k][..k - 1] == es[..k - 1];
    var s, s' := Run(es[..k - 1]).value, Run(es[..k]).value;
    if i < k - 1 { KeepsOrderId(es, i, k - 1); }
    hide Run;
    StepKeepsOrderId(s, s', es[k - 1], es[i].call);
    if i == k - 1 { CreatesCall(s, s', es[i]); }
  }

  lemma StepKeepsOrderId(s: State, s': State, e: Event, c: nat)
    requires Step(s, e) == Some(s')
    ensures c in s.calls ==> c in s'.calls && s'.calls[c].orderId == s.calls[c].orderId
  {
    hide EffectOf, StepOutside, FreshOrderId, Invalid;
    if Outside(e) { OutsideLeavesOrders(s, s', e); }
  }

  lemma CreatesCall(s: State, s': State, e: Event)
    requires Step(s, e) == Some(s') && e.CreateOrder?
    ensures e.call in s'.calls && s'.calls[e.call].orderId == e.orderId
  {
    CreateFrame(s, s', e.call, e.orderId, e.input, e.price);
  }

  lemma {:induction false} IndexIsThere(es: seq<Event>)
    requires Run(es).Some? && PerOrder(es) && !Matches(Run(es).value, "o") && "o" in Run(es).value.index
    ensures "o" in Run(es).value.orders && Behind(Run(es).value.index["o"], Run(es).value.orders["o"])
  {
    MatchesIffIndexedLast(es, "o");
  }

  // ----- Two active orders, one driver -----

  /** One step of the only call on its order, with everything that `Go` needs. */
  lemma {:induction false} GoOn(es: seq<Event>, s: State, e: Event, c: nat, o: string) returns (es': seq<Event>, s': State)
    requires Run(es) == Some(s) && PerOrder(es) && CarefulRun(es) && Disjoint(s) && Alone(s, c, o)
    requires Step(s, e).Some? && Careful(s, e)
    requires var t := Step(s, e).value; Aside(s, t, c, o) && c in t.calls && t.calls[c].orderId == o
    ensures es' == es + [e] && s' == Step(s, e).value && Run(es') == Some(s')
    ensures PerOrder(es') && CarefulRun(es') && Disjoint(s') && Alone(s', c, o)
  {
    hide Run, Step, PerOrder, CarefulRun, Disjoint, Alone, Aside, Careful;
    s' := Step(s, e).value;
    AsideKeepsDisjoint(s, s', c, o);
    es' := Go(es, s, e, s');
  }

  /** CreateOrder claims the driver and assigns him. */
  lemma {:induction false} Assigns(es: seq<Event>, s: State, c: nat, o: string, row: Order, d: string)
    returns (es': seq<Event>, s': State)
    requires Run(es) == Some(s) && PerOrder(es) && CarefulRun(es) && Disjoint(s) && Alone(s, c, o)
    requires o in s.orders && s.orders[o] == row
    requires c in s.calls && s.calls[c] == Call(o, Claiming(row)) && CanClaim(s, d, row.taxiType)
    ensures Run(es') == Some(s') && PerOrder(es') && CarefulRun(es') && Disjoint(s') && Alone(s', c, o)
    ensures Aside(s, s', c, o) && c in s'.calls && s'.calls[c] == Call(o, IndexingAssigned(AssignedRow(row, d)))
    ensures s'.orders == s.orders[o := AssignedRow(row, d)] && s'.book == s.book && s'.bills == s.bills
    ensures d in s'.drivers && s'.drivers[d] == Driver(row.taxiType, OnTrip)
  {
    hide Run, Step, PerOrder, CarefulRun, Disjoint, Alone, Aside, Careful;
    ClaimsDriver(s, c, o, row, d);
    EasilyCareful(s, Claim(c, Some(d), true));
    var t: State;
    es', t := GoOn(es, s, Claim(c, Some(d), true), c, o);
    AssignsDriver(t, c, o, row, d, false);
    AssignIsCareful(t, c);
    es', s' := GoOn(es', t, Assign(c, 0, Ok), c, o);
    AsideChains(s, t, s', c, o);
  }

  lemma AssignIsCareful(s: State, c: nat)
    ensures Careful(s, Assign(c, 0, Ok)) && forall x: nat :: Careful(s, Write(x, 0, Ok))
  {
  }

  lemma ActsBegin(s: State, c: nat, o: string, action: Action)
    requires c !in s.calls && ValidRating(action) && !action.Rate?
    ensures Step(s, Act(c, o, action)).Some? && Careful(s, Act(c, o, action))
    ensures var s' := Step(s, Act(c, o, action)).value;
      && Aside(s, s', c, o) && c in s'.calls && s'.calls[c] == Call(o, Reading(action)) && s' == s.(calls := s'.calls)
  {
  }

  lemma Reads(s: State, c: nat, o: string, action: Action)
    requires c in s.calls && s.calls[c] == Call(o, Reading(action)) && o in s.orders && !Gate(action, s.orders[o]).Refunding?
    ensures Step(s, Read(c, true)).Some? && Careful(s, Read(c, true))
    ensures var s' := Step(s, Read(c, true)).value;
      && Aside(s, s', c, o) && c in s'.calls && s'.calls[c] == Call(o, Gate(action, s.orders[o]))
      && s' == s.(calls := s'.calls)
  {
    hide Gate;
  }

  lemma WritesStatus(s: State, c: nat, o: string, row: Order, status: Status, released: bool)
    requires c in s.calls && s.calls[c] == Call(o, Writing(row, status, released)) && o in s.orders && s.orders[o] == row
    ensures Step(s, Write(c, 0, Ok)).Some?
    ensures var s' := Step(s, Write(c, 0, Ok)).value; var next := row.(status := status, updatedAt := 0);
      && Aside(s, s', c, o) && c in s'.calls && s'.calls[c] == Call(o, IndexingLast(next))
      && s' == s.(calls := s'.calls, orders := s.orders[o := next])
  {
  }

  lemma AloneAfter(s: State, c: nat, d: nat, o: string)
    requires Alone(s, c, o) && c in s.calls && s.calls[c].phase.Done?
    ensures Alone(s, d, o)
  {
  }

  lemma AloneElsewhere(s: State, c: nat, o: string)
    requires c !in s.calls && forall x :: x in s.calls ==> s.calls[x].orderId != o
    ensures Alone(s, c, o)
  {
  }

  /** A run that stands after some calls on "o": who works on it, and what its row and the driver are. */
  ghost predicate Stands(es: seq<Event>, s: State, c: nat, row: Order, status: DriverStatus) {
    && Run(es) == Some(s) && PerOrder(es) && CarefulRun(es) && Disjoint(s) && Alone(s, c, "o")
    && (forall x: nat :: x in s.calls <==> x <= c) && (forall x :: x in s.calls ==> s.calls[x].orderId == "o")
    && "o" in s.orders && s.orders["o"] == row && row.id == "o" && row.driverId == Some("d") && row.taxiType == Economy
    && (forall x :: x in s.orders ==> x == "o") && (forall x :: x in s.bills ==> x == "o")
    && "d" in s.drivers && s.drivers["d"] == Driver(Economy, status)
    && CanPay(s.book, "u", 200, "p")
  }

  /** One more step of call `c` that touches neither wallet nor bills. */
  lemma {:induction false} StandsOn(es: seq<Event>, s: State, c: nat, row: Order, status: DriverStatus, e: Event, d: nat)
    returns (es': seq<Event>, s': State)
    requires Stands(es, s, c, row, status) && c <= d <= c + 1 && Alone(s, d, "o") && Step(s, e).Some? && Careful(s, e)
    requires var t := Step(s, e).value;
      && Aside(s, t, d, "o") && d in t.calls && t.calls[d].orderId == "o" && t.book == s.book && t.bills == s.bills
      && "d" in t.drivers && t.drivers["d"].taxiType == Economy && "o" in t.orders
      && t.orders["o"].id == "o" && t.orders["o"].driverId == Some("d") && t.orders["o"].taxiType == Economy
    ensures s' == Step(s, e).value && Stands(es', s', d, s'.orders["o"], s'.drivers["d"].status)
  {
    hide Run, Step, PerOrder, CarefulRun, Disjoint, Alone, Careful, CanPay;
    es', s' := GoOn(es, s, e, d, "o");
    StandsThere(s, s', c, d);
  }

  lemma StandsThere(s: State, s': State, c: nat, d: nat)
    requires Aside(s, s', d, "o") && d in s'.calls && s'.calls[d].orderId == "o" && c <= d <= c + 1
    requires (forall x: nat :: x in s.calls <==> x <= c) && (forall x :: x in s.calls ==> s.calls[x].orderId == "o")
    requires forall x :: x in s.orders ==> x == "o"
    ensures (forall x: nat :: x in s'.calls <==> x <= d) && (forall x :: x in s'.calls ==> s'.calls[x].orderId == "o")
    ensures forall x :: x in s'.orders ==> x == "o"
  {
  }

  lemma OrderTaken() returns (es: seq<Event>, s: State, row: Order)
    ensures Stands(es, s, 0, row, OnTrip) && row.status == DriverAssigned && s.calls[0].phase.Done?
  {
    hide Step, Run, PerOrder, CarefulRun, Disjoint, Alone, Placeable, Aside, Careful;
    es := Start();
    ReadyToPlace();
    var t: State;
    es, t := Place(es, Ready(), 0, "o", RIDE, 200, 1);
    CanStillClaim(t);
    var first := t.orders["o"];
    es, s := Assigns(es, t, 0, "o", first, "d");
    row := AssignedRow(first, "d");
    TakenStands(es, t, s, row);
    IndexesLast(s, 0, "o", row);
    EasilyCareful(s, Index(0, true));
    es, s := StandsOn(es, s, 0, row, OnTrip, Index(0, true), 0);
  }

  lemma {:induction false} TakenStands(es: seq<Event>, t: State, s: State, row: Order)
    requires Placed(Ready(), t, 0, "o", RIDE, 200) && Aside(t, s, 0, "o") && s.book == t.book && s.bills == t.bills
    requires row == AssignedRow(t.orders["o"], "d") && s.orders == t.orders["o" := row]
    requires 0 in s.calls && s.calls[0].orderId == "o" && "d" in s.drivers && s.drivers["d"] == Driver(Economy, OnTrip)
    requires Run(es) == Some(s) && PerOrder(es) && CarefulRun(es) && Disjoint(s) && Alone(s, 0, "o")
    ensures Stands(es, s, 0, row, OnTrip)
  {
    hide Run, PerOrder, CarefulRun, Disjoint, Alone;
    assert "p" != "o" && "p" != "topup";
    assert CanPay(s.book, "u", 200, "p");
    assert forall x :: x in t.orders ==> x == "o";
    assert forall x: nat :: x in s.calls <==> x <= 0;
  }

  /** StartTrip goes through. */
  lemma TripStarted() returns (es: seq<Event>, s: State, row: Order)
    ensures Stands(es, s, 1, row, OnTrip) && row.status == InProgress && s.calls[1].phase.Done?
  {
    es, s, row := OrderTaken();
    AloneAfter(s, 0, 1, "o");
    hide Step, Run, PerOrder, CarefulRun, Disjoint, Alone, Aside, Careful, CanPay;
    var go := Action.Start("d");
    ActsBegin(s, 1, "o", go);
    es, s := StandsOn(es, s, 0, row, OnTrip, Act(1, "o", go), 1);
    Reads(s, 1, "o", go);
    es, s := StandsOn(es, s, 1, row, OnTrip, Read(1, true), 1);
    WritesStatus(s, 1, "o", row, InProgress, false);
    AssignIsCareful(s, 1);
    es, s := StandsOn(es, s, 1, row, OnTrip, Write(1, 0, Ok), 1);
    row := s.orders["o"];
    IndexesLast(s, 1, "o", row);
    EasilyCareful(s, Index(1, true));
    es, s := StandsOn(es, s, 1, row, OnTrip, Index(1, true), 1);
  }

  /** CompleteTrip has set the driver free and not yet written the status. */
  lemma TripReleased() returns (es: seq<Event>, s: State, row: Order)
    ensures Stands(es, s, 2, row, Available) && row.status == InProgress
  {
    es, s, row := TripStarted();
    AloneAfter(s, 1, 2, "o");
    hide Step, Run, PerOrder, CarefulRun, Disjoint, Alone, Aside, Careful, CanPay;
    var finish := Complete("d");
    ActsBegin(s, 2, "o", finish);
    es, s := StandsOn(es, s, 1, row, OnTrip, Act(2, "o", finish), 2);
    Reads(s, 2, "o", finish);
    es, s := StandsOn(es, s, 2, row, OnTrip, Read(2, true), 2);
    ReleasesDriver(s, 2, "o", row, "d");
    EasilyCareful(s, Release(2, true));
    es, s := StandsOn(es, s, 2, row, OnTrip, Release(2, true), 2);
  }

  /**
   Between the release and the status write another order claims the driver: two
   active orders share him, in a careful run without calls that overlap on an order.
   */
  lemma TwoOrdersShareDriver() returns (es: seq<Event>)
    ensures Run(es).Some? && PerOrder(es) && CarefulRun(es)
    ensures var s := Run(es).value;
      && "o" in s.orders && "p" in s.orders && OrderDrivers.Active(s.orders["o"]) && OrderDrivers.Active(s.orders["p"])
      && s.orders["o"].driverId == s.orders["p"].driverId == Some("d")
  {
    var s, t, row;
    es, s, row := TripReleased();
    AloneElsewhere(s, 3, "p");
    hide Step, Run, PerOrder, CarefulRun, Disjoint, Alone, Careful;
    es, t := Place(es, s, 3, "p", RIDE, 200, 2);
    var first := t.orders["p"];
    es, s := Assigns(es, t, 3, "p", first, "d");
  }
}
