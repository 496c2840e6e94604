/**
 The order service in the source's own form: CreateOrder, CancelOrder,
 StartTrip, CompleteTrip and RateTrip as methods over the shared stores. Before
 each remote call or SQL statement anything else may run (`Wait`). The trace
 records every step, so each method is a run of the order machine and inherits
 its theorems.
 */
module OrderService {
  import opened Prelude
  import opened Ledger
  import opened OrderTypes
  import opened OrderMachine
  import opened OrderMoney
  import opened OrderLifecycle
  import opened OrderIndex
  import opened OrderPlacement
  import opened OrderTrips
  import opened OrderRights
  import opened Pricing

  /** What a repository read or update returns. */
  datatype Fetch<+T> = Found(value: T) | Missing | Error

  /**
   What the stores and the other services do with the calls of one service call,
   if it comes to them; `now` is what their clocks say, `walletRow` the id that the
   wallet gives a new row, and `pick` the driver that the registry finds.
   */
  datatype World = World(
    now: int, walletRow: nat, wallet: Fate, read: bool, insert: Fate, index: Fate, claim: Fate,
    pick: (map<string, Driver>, TaxiType) -> string, assign: Fate, release: Fate, write: Fate)
  {
    /** A driver is found if there is one. */
    ghost predicate Picks() {
      forall drivers, t :: Finds(drivers, t, pick(drivers, t))
    }

    predicate Acts() { read && wallet.Ok? && write.Ok? }

    predicate Places() { wallet.Ok? && insert.Ok? }
  }

  predicate Free(drivers: map<string, Driver>, t: TaxiType, d: string) {
    d in drivers && drivers[d] == Driver(t, Available)
  }

  predicate Finds(drivers: map<string, Driver>, t: TaxiType, found: string) {
    (exists d :: d in drivers && Free(drivers, t, d)) ==> Free(drivers, t, found)
  }

  /** The ledger would refuse the request: no such wallet, or too little in it. */
  ghost predicate Refuses(es: seq<Event>, req: Request) {
    Run(es).Some? && Apply(Run(es).value.book, req, 0, 0).1.Rejected?
  }

  ghost predicate NobodyFree(es: seq<Event>, t: TaxiType) {
    Run(es).Some? && forall d :: d in Run(es).value.drivers ==> !Free(Run(es).value.drivers, t, d)
  }

  /** The event is a step of call `c`. */
  predicate StepOf(e: Event, c: nat) {
    !Outside(e) && e.call == c
  }

  lemma {:induction false} OthersLeaveCall(es: seq<Event>, more: seq<Event>, c: nat)
    requires Run(more).Some? && es <= more && (forall i :: |es| <= i < |more| ==> !StepOf(more[i], c))
    ensures Run(es).Some?
    ensures var s, t := Run(es).value, Run(more).value;
      && (c in s.calls ==> c in t.calls && t.calls[c] == s.calls[c])
      && (c !in s.calls ==> c !in t.calls)
  {
    if |es| == |more| {
      assert es == more;
    } else {
      var shorter, e := more[..|more| - 1], more[|more| - 1];
      OthersLeaveCall(es, shorter, c);
      OtherStepLeavesCall(Run(shorter).value, Run(more).value, e, c);
      hide Step;
    }
  }

  lemma OtherStepLeavesCall(s: State, s': State, e: Event, c: nat)
    requires Step(s, e) == Some(s') && !StepOf(e, c)
    ensures c in s.calls ==> c in s'.calls && s'.calls[c] == s.calls[c]
    ensures c !in s.calls ==> c !in s'.calls
  {
    if e.CreateOrder? {
      CreateFrame(s, s', e.call, e.orderId, e.input, e.price);
      hide StepCreate;
    } else {
      hide EffectOf, Apply, Ledger.OpenWallet;
    }
  }

  lemma {:induction false} BillsStay(es: seq<Event>, more: seq<Event>)
    requires Run(more).Some? && es <= more
    ensures Run(es).Some?
    ensures forall o :: o in Run(es).value.bills ==>
      o in Run(more).value.bills && Run(more).value.bills[o] == Run(es).value.bills[o]
  {
    PrefixGrows(more, |es|);
    assert more[..|es|] == es;
  }

  lemma {:induction false} TripsStay(es: seq<Event>, more: seq<Event>)
    requires Run(more).Some? && es <= more
    ensures Run(es).Some?
    ensures forall o :: o in Run(es).value.orders ==>
      o in Run(more).value.orders && SameTrip(Run(es).value.orders[o], Run(more).value.orders[o])
  {
    PrefixGrows(more, |es|);
    assert more[..|es|] == es;
    forall o | o in Run(es).value.orders
      ensures o in Run(more).value.orders && SameTrip(Run(es).value.orders[o], Run(more).value.orders[o])
    {
      TripsNeverChange(more, |es|, o);
    }
  }

  lemma SameTripIsReflexive(order: Order)
    ensures SameTrip(order, order)
  {
  }

  lemma AssignedSameTrip(order: Order, before: Order, row: Order)
    requires SameTrip(order, before) && before.driverId == None
    requires row == before.(driverId := row.driverId, status := row.status, updatedAt := row.updatedAt)
    ensures SameTrip(order, row) && order.driverId == None
  {
  }

  /** The row that a call has written still belongs to the rider, and to the driver, of the one it read. */
  lemma KeepsItsPeople(order: Order, before: Order, row: Order)
    requires SameTrip(order, before)
    requires row == before.(status := row.status, rating := row.rating, comment := row.comment, updatedAt := row.updatedAt)
    ensures row.userId == order.userId && (order.driverId.Some? ==> row.driverId == order.driverId)
  {
  }

  /** The step of a call that reads a row, and the refund request that goes out with it. */
  lemma ReadsRow(s: State, k: Call)
    requires k.phase.Reading? && k.orderId in s.orders && s.orders[k.orderId].price.Some?
    ensures var order := s.orders[k.orderId]; var next := Gate(k.phase.action, order);
      ReadBack(s, k, true) == Some(To(next).(request :=
        if next.Refunding? then Some(Request(order.userId, Credit, order.price.value, order.id)) else None))
  {
    hide Gate;
  }

  lemma ReadsNothing(s: State, k: Call, up: bool)
    requires k.phase.Reading? && (!up || k.orderId !in s.orders)
    ensures ReadBack(s, k, up) == Some(To(Done(Refused(if up then OrderNotFound else Unavailable))))
  {
  }

  /** Whether the ledger refuses a request does not depend on what a new row would look like. */
  lemma RejectsAnyRow(book: Book, req: Request, id: nat, at: int)
    ensures Apply(book, req, id, at).1.Rejected? <==> Apply(book, req, 0, 0).1.Rejected?
  {
  }

  lemma StepIsEffect(s: State, e: Event, f: Effect)
    requires CallEffect(s, e) == Some(f)
    ensures Step(s, e) == Some(Perform(s, e.call, f))
  {
    hide EffectOf, Perform;
  }

  class OrderService {
    const math: MathLibrary

    var book: Book
    var orders: map<string, Order>
    var drivers: map<string, Driver>
    var index: map<string, OrderDocument>
    var calls: map<nat, Call>
    var bills: map<string, Bill>
    ghost var sent: set<Request>
    ghost var trace: seq<Event>

    ghost function Snapshot(): State reads this { State(book, sent, bills, orders, drivers, index, calls) }

    /** Everything that ever happened is a run of the machine, and this is where it led. */
    ghost predicate Valid() reads this { math.Lawful() && Run(trace) == Some(Snapshot()) }

    /** The run began with these events. */
    ghost predicate Past(es: seq<Event>) reads `trace { es <= trace }

    /** Order `o` was billed so. */
    ghost predicate Billed(o: string, bill: Bill) reads `bills { o in bills && bills[o] == bill }

    /** The stored order is this one, later perhaps but with the same trip. */
    ghost predicate Kept(o: string, order: Order) reads `orders { o in orders && SameTrip(order, orders[o]) }

    /** After a first part of the run that goes on from `start`, the wallet would have refused this. */
    ghost predicate WasRefused(start: seq<Event>, req: Request) reads `trace {
      exists es :: start <= es && Past(es) && Refuses(es, req)
    }

    /** After a first part of the run that goes on from `start`, no driver of the type was available. */
    ghost predicate WasBusy(start: seq<Event>, t: TaxiType) reads `trace {
      exists es :: start <= es && Past(es) && NobodyFree(es, t)
    }

    constructor (math: MathLibrary)
      requires math.Lawful()
      ensures Valid() && trace == [] && this.math == math
    {
      this.math := math;
      book, orders, drivers, index, calls := Book(map[], []), map[], map[], map[], map[];
      sent, bills, trace := {}, map[], [];
    }

    lemma StepIsValid(before: State, es: seq<Event>, e: Event)
      requires math.Lawful() && Run(es) == Some(before) && trace == es + [e] && Step(before, e) == Some(Snapshot())
      ensures Valid() && forall past :: past <= es ==> Past(past)
    {
      hide Step;
      assert (es + [e])[..|es|] == es;
    }

    /** The step of a call, taken from a valid state, leads to a valid one. */
    lemma TookIsValid(before: State, es: seq<Event>, e: Event, f: Effect)
      requires math.Lawful() && Run(es) == Some(before) && trace == es + [e]
      requires CallEffect(before, e) == Some(f) && Snapshot() == Perform(before, e.call, f)
      ensures Valid() && forall past :: past <= es ==> Past(past)
    {
      StepIsEffect(before, e, f);
      StepIsValid(before, es, e);
    }

    /** Any other calls, drivers, riders and wallet requests may run here. */
    method Others(c: nat)
      requires Valid()
      modifies this
      ensures Valid() && old(trace) <= trace
      ensures forall i :: |old(trace)| <= i < |trace| ==> !StepOf(trace[i], c)
    {
    }

    /** They run; this call's own record is as it was. */
    method Wait(c: nat)
      requires Valid()
      modifies this
      ensures Valid() && (forall es :: old(Past(es)) ==> Past(es))
      ensures c in old(calls) ==> c in calls && calls[c] == old(calls[c])
      ensures c !in old(calls) ==> c !in calls
      ensures forall o, bill :: old(Billed(o, bill)) ==> Billed(o, bill)
      ensures forall o, order :: old(Kept(o, order)) ==> Kept(o, order)
    {
      Others(c);
      OthersLeaveCall(old(trace), trace, c);
      BillsStay(old(trace), trace);
      assert forall o :: o in old(orders) ==> o in orders && SameTrip(old(orders[o]), orders[o]) by {
        TripsStay(old(trace), trace);
      }
      hide Run;
    }

    /** The wallet executes a request that was sent to it. */
    method Execute(req: Request, id: nat, at: int)
      requires Valid() && req in sent
      modifies `book, `trace
      ensures Valid() && (forall es :: old(Past(es)) ==> Past(es))
      ensures book == Apply(old(book), req, id, at).0
    {
      hide Run, Apply;
      book := Apply(book, req, id, at).0;
      trace := trace + [Deliver(req, id, at)];
      StepIsValid(old(Snapshot()), old(trace), Deliver(req, id, at));
    }

    /** The request whose answer a call waits for has been sent. */
    lemma RequestIsOut(c: nat)
      requires Valid() && c in calls && Awaited(Snapshot(), calls[c].orderId, calls[c].phase).Some?
      ensures Awaited(Snapshot(), calls[c].orderId, calls[c].phase).value in sent
    {
      RunKeepsRequests(trace);
    }

    // ----- What a call may say of moments that are past -----

    lemma RefusedNow(start: seq<Event>, req: Request)
      requires Valid() && Past(start) && Apply(book, req, 0, 0).1.Rejected?
      ensures start <= trace && Past(trace) && Refuses(trace, req)
    {
    }

    lemma BusyNow(start: seq<Event>, t: TaxiType)
      requires Valid() && Past(start) && forall d :: d in drivers ==> !Free(drivers, t, d)
      ensures start <= trace && Past(trace) && NobodyFree(trace, t)
    {
    }

    // ----- Repository and gateway calls -----

    /** Charge: the wallet executes the request, unless it is lost on the way, and answers. */
    method ChargeWallet(c: nat, userId: string, price: Int64, orderId: string, fate: Fate, id: nat, now: int)
      returns (err: bool)
      requires Valid() && c in calls && calls[c].orderId == orderId && calls[c].phase.Charging? && price > 0
      requires Billed(orderId, Bill(userId, price))
      modifies `book, `calls, `trace
      ensures Valid() && (forall es :: old(Past(es)) ==> Past(es))
      ensures c in calls && calls[c].orderId == orderId
      ensures calls[c].phase == if err then Done(Refused(Unavailable)) else Inserting(old(calls[c].phase.input))
      ensures var req := Request(userId, Debit, price, orderId);
        && book == (if fate.NoEffect? then old(book) else Apply(old(book), req, id, now).0)
        && (err <==> !fate.Ok? || Apply(old(book), req, id, now).1.Rejected?)
    {
      hide Run, Inserted, Indexed, Claimed, Assigned, Released, ReadBack, Written, Rated, Apply;
      var req := Request(userId, Debit, price, orderId);
      RequestIsOut(c);
      ExecutedIffAccepted(book, req, id, now);
      if !fate.NoEffect? { Execute(req, id, now); }
      label executed:
      err := !fate.Ok? || !Accepts(book, req);
      var next := if err then Done(Refused(Unavailable)) else Inserting(calls[c].phase.input);
      calls := calls[c := Call(orderId, next)];
      trace := trace + [WalletReply(c, !err)];
      TookIsValid(old@executed(Snapshot()), old@executed(trace), WalletReply(c, !err), To(next));
    }

    /** The refund after a failed insert; an error is only logged. */
    method RefundUnpersisted(c: nat, fate: Fate, id: nat, now: int) returns (err: bool)
      requires Valid() && c in calls && calls[c].phase.Compensating? && calls[c].orderId in bills
      modifies `book, `calls, `trace
      ensures Valid() && (forall es :: old(Past(es)) ==> Past(es))
      ensures c in calls && calls[c].orderId == old(calls[c].orderId)
      ensures calls[c].phase == Done(Refused(Unavailable))
      ensures book == if fate.NoEffect? then old(book)
                      else Apply(old(book), RefundRequest(old(calls[c].orderId), bills[old(calls[c].orderId)]), id, now).0
    {
      hide Run, Inserted, Indexed, Claimed, Assigned, Released, ReadBack, Written, Rated, Apply;
      var req := RefundRequest(calls[c].orderId, bills[calls[c].orderId]);
      RequestIsOut(c);
      if !fate.NoEffect? { Execute(req, id, now); }
      label executed:
      err := !fate.Ok?;
      calls := calls[c := Call(calls[c].orderId, Done(Refused(Unavailable)))];
      trace := trace + [WalletReply(c, !err)];
      TookIsValid(old@executed(Snapshot()), old@executed(trace), WalletReply(c, !err), To(Done(Refused(Unavailable))));
    }

    /** The refund of a cancelled order: the wallet exists, so it is refused only if something fails. */
    method RefundWallet(c: nat, userId: string, price: Int64, orderId: string, fate: Fate, id: nat, now: int)
      returns (err: bool)
      requires Valid() && c in calls && calls[c].phase.Refunding? && price > 0
      requires var order := calls[c].phase.order;
        order.userId == userId && order.price == Some(price) && order.id == orderId
      modifies `book, `calls, `trace
      ensures Valid() && (forall es :: old(Past(es)) ==> Past(es))
      ensures c in calls && calls[c].orderId == old(calls[c].orderId)
      ensures calls[c].phase == if err then Done(Refused(Unavailable)) else AfterRefund(old(calls[c].phase.order))
      ensures book == if fate.NoEffect? then old(book)
                      else Apply(old(book), Request(userId, Credit, price, orderId), id, now).0
      ensures err <==> !fate.Ok?
    {
      HasWallet(c);
      hide Run, Inserted, Indexed, Claimed, Assigned, Released, ReadBack, Written, Rated, Apply;
      var req := Request(userId, Credit, price, orderId);
      RequestIsOut(c);
      ExecutedIffAccepted(book, req, id, now);
      if !fate.NoEffect? { Execute(req, id, now); }
      label executed:
      err := !fate.Ok? || !Accepts(book, req);
      var next := if err then Done(Refused(Unavailable)) else AfterRefund(calls[c].phase.order);
      calls := calls[c := Call(calls[c].orderId, next)];
      trace := trace + [WalletReply(c, !err)];
      TookIsValid(old@executed(Snapshot()), old@executed(trace), WalletReply(c, !err), To(next));
    }

    /** Whoever is refunded has paid, so has a wallet. */
    lemma HasWallet(c: nat)
      requires Valid() && c in calls && calls[c].phase.Refunding?
      ensures calls[c].phase.order.userId in book.wallets
    {
      RunKeepsMoney(trace);
      assert PhaseOk(Snapshot(), calls[c].orderId, calls[c].phase);
    }

    /** INSERT INTO orders. After an error the refund request goes out. */
    method InsertOrder(c: nat, orderId: string, price: Int64, input: Input, now: int, fate: Fate) returns (r: Option<Order>)
      requires Valid() && c in calls && calls[c] == Call(orderId, Inserting(input))
      requires Billed(orderId, Bill(input.userId, price))
      modifies `orders, `calls, `sent, `trace
      ensures Valid() && (forall es :: old(Past(es)) ==> Past(es))
      ensures c in calls
      ensures calls[c] == Call(orderId, if r.Some? then Indexing(r.value) else Compensating(input))
      ensures r.Some? <==> fate.Ok?
      ensures if fate.NoEffect? then orders == old(orders)
              else && orderId !in old(orders) && orderId in orders && orders == old(orders)[orderId := orders[orderId]]
                   && IsInsertOf(orders[orderId], orderId, input, price, now)
      ensures r.Some? ==> r.value == orders[orderId] && sent == old(sent)
      ensures r.None? ==> sent == old(sent) + {RefundRequest(orderId, Bill(input.userId, price))}
    {
      NotYetStored(c);
      hide Run, Reply, Indexed, Claimed, Assigned, Released, ReadBack, Written, Rated;
      var row := NewOrder(orderId, input, price, now);
      ghost var f := Inserted(Snapshot(), calls[c], now, fate).value;
      if !fate.NoEffect? { orders := orders[orderId := row]; }
      if fate.Ok? {
        r := Some(row);
        calls := calls[c := Call(orderId, Indexing(row))];
      } else {
        r := None;
        calls := calls[c := Call(orderId, Compensating(input))];
        sent := sent + {RefundRequest(orderId, Bill(input.userId, price))};
      }
      trace := trace + [Insert(c, now, fate)];
      TookIsValid(old(Snapshot()), old(trace), Insert(c, now, fate), f);
    }

    /** The row of a new order: the trip that was asked for, at this price, without driver or rating. */
    predicate IsInsertOf(row: Order, orderId: string, input: Input, price: Int64, now: int) {
      && row.id == orderId && row.userId == input.userId && row.taxiType == input.taxiType
      && row.start == input.start && row.destination == input.destination && row.price == Some(price)
      && row.status == Created && row.driverId == None && row.rating == None && row.comment == None
      && row.createdAt == now && row.updatedAt == now
    }

    lemma NotYetStored(c: nat)
      requires Valid() && c in calls && calls[c].phase.Inserting?
      ensures calls[c].orderId !in orders
    {
      RunKeepsCreators(trace);
      assert CreatorOk(Snapshot(), calls[c].orderId, calls[c].phase);
    }

    /** Overwrites the document of one order; callers only log an error. */
    method IndexOrder(c: nat, order: Order, fate: Fate) returns (err: bool)
      requires Valid() && c in calls
      requires calls[c].phase in {Indexing(order), IndexingAssigned(order), IndexingLast(order)}
      modifies `index, `calls, `trace
      ensures Valid() && (forall es :: old(Past(es)) ==> Past(es))
      ensures c in calls && calls[c].orderId == old(calls[c].orderId)
      ensures calls[c].phase == if old(calls[c].phase.Indexing?) then Claiming(order) else Done(Returned(order))
      ensures index == if fate.NoEffect? then old(index) else old(index)[order.id := DocumentFromDomain(order)]
      ensures err <==> !fate.Ok?
    {
      hide Run, Reply, Inserted, Claimed, Assigned, Released, ReadBack, Written, Rated;
      var took := !fate.NoEffect?;
      ghost var f := Indexed(calls[c], took).value;
      var next := if calls[c].phase.Indexing? then Claiming(order) else Done(Returned(order));
      if took { index := index[order.id := DocumentFromDomain(order)]; }
      calls := calls[c := Call(calls[c].orderId, next)];
      trace := trace + [Index(c, took)];
      TookIsValid(old(Snapshot()), old(trace), Index(c, took), f);
      return !fate.Ok?;
    }

    /**
     FindOneAndUpdate of one available driver of the type, `found` if there is any.
     An error may hide a claim that took effect.
     */
    method ClaimAvailableDriver(c: nat, taxiType: TaxiType, found: string, fate: Fate) returns (r: Fetch<string>)
      requires Valid() && c in calls && calls[c].phase.Claiming? && calls[c].phase.order.taxiType == taxiType
      requires Finds(drivers, taxiType, found)
      modifies `drivers, `calls, `trace
      ensures Valid() && (forall es :: old(Past(es)) ==> Past(es))
      ensures c in calls && calls[c].orderId == old(calls[c].orderId)
      ensures var order := old(calls[c].phase.order);
        calls[c].phase == if r.Found? then Assigning(order, r.value) else Done(Returned(order))
      ensures drivers == if fate.NoEffect? || !Free(old(drivers), taxiType, found) then old(drivers)
                         else old(drivers)[found := Driver(taxiType, OnTrip)]
      ensures r.Error? <==> !fate.Ok?
      ensures r.Found? ==> r.value == found && Free(old(drivers), taxiType, found)
      ensures r.Missing? ==> forall d :: d in drivers ==> !Free(drivers, taxiType, d)
    {
      hide Run, Reply, Inserted, Indexed, Assigned, Released, ReadBack, Written, Rated;
      var k, acked := calls[c], fate.Ok?;
      var order := k.phase.order;
      ghost var claimed: Option<string>;
      if !fate.NoEffect? && Free(drivers, taxiType, found) {
        claimed := Some(found);
        r := if acked then Found(found) else Error;
        drivers := drivers[found := drivers[found].(status := OnTrip)];
      } else {
        claimed := None;
        r := if acked then Missing else Error;
      }
      calls := calls[c := Call(k.orderId, if r.Found? then Assigning(order, r.value) else Done(Returned(order)))];
      trace := trace + [Claim(c, claimed, acked)];
      TookIsValid(old(Snapshot()), old(trace), Claim(c, claimed, acked), Claimed(old(Snapshot()), k, claimed, acked).value);
    }

    /** UPDATE orders SET driver_id, status WHERE id. */
    method AssignDriver(c: nat, orderId: string, driverId: string, now: int, fate: Fate) returns (r: Fetch<Order>)
      requires Valid() && c in calls && calls[c].orderId == orderId
      requires calls[c].phase.Assigning? && calls[c].phase.driverId == driverId
      modifies `orders, `calls, `trace
      ensures Valid() && (forall es :: old(Past(es)) ==> Past(es))
      ensures c in calls && calls[c].orderId == orderId
      ensures calls[c].phase == if r.Found? then IndexingAssigned(r.value) else Unassigning(old(calls[c].phase.order), driverId)
      ensures orderId in old(orders) && old(orders[orderId]).driverId == None
      ensures var row := old(orders[orderId]).(driverId := Some(driverId), status := DriverAssigned, updatedAt := now);
        && orders == (if fate.NoEffect? then old(orders) else old(orders)[orderId := row])
        && r == if fate.Ok? then Found(row) else Error
    {
      StoredWithoutDriver(c);
      hide Run, Reply, Inserted, Indexed, Claimed, Released, ReadBack, Written, Rated;
      var k := calls[c];
      r := Error;
      if !fate.NoEffect? {
        var row := orders[orderId].(driverId := Some(driverId), status := DriverAssigned, updatedAt := now);
        orders := orders[orderId := row];
        if fate.Ok? { r := Found(row); }
      }
      calls := calls[c := Call(orderId, if r.Found? then IndexingAssigned(r.value) else Unassigning(k.phase.order, driverId))];
      trace := trace + [Assign(c, now, fate)];
      TookIsValid(old(Snapshot()), old(trace), Assign(c, now, fate), Assigned(old(Snapshot()), k, now, fate).value);
    }

    /** Rows are not deleted, and only the call that placed an order gives it a driver. */
    lemma StoredWithoutDriver(c: nat)
      requires Valid() && c in calls && calls[c].phase.Assigning?
      ensures calls[c].orderId in orders && orders[calls[c].orderId].driverId == None
    {
      RunKeepsCreators(trace);
      assert CreatorOk(Snapshot(), calls[c].orderId, calls[c].phase);
    }

    /** UpdateStatusByUserID(driver, available); callers only log an error. */
    method ReleaseDriver(c: nat, driverId: string, fate: Fate) returns (err: bool)
      requires Valid() && c in calls
      requires match calls[c].phase
        case Unassigning(_, d) => d == driverId
        case Releasing(order, _) => order.driverId == Some(driverId)
        case _ => false
      modifies `drivers, `calls, `trace
      ensures Valid() && (forall es :: old(Past(es)) ==> Past(es))
      ensures c in calls && calls[c].orderId == old(calls[c].orderId)
      ensures match old(calls[c].phase)
        case Unassigning(order, _) => calls[c].phase == Done(Returned(order))
        case Releasing(order, target) => calls[c].phase == Writing(order, target, !fate.NoEffect?)
        case _ => true
      ensures drivers == if fate.NoEffect? || driverId !in old(drivers) then old(drivers)
                         else old(drivers)[driverId := old(drivers[driverId]).(status := Available)]
      ensures err <==> !fate.Ok? || driverId !in old(drivers)
    {
      hide Run, Reply, Inserted, Indexed, Claimed, Assigned, ReadBack, Written, Rated;
      var took, known := !fate.NoEffect?, driverId in drivers;
      var k := calls[c];
      var next := if k.phase.Unassigning? then Done(Returned(k.phase.order))
                  else Writing(k.phase.order, k.phase.target, took);
      if took && known { drivers := drivers[driverId := drivers[driverId].(status := Available)]; }
      calls := calls[c := Call(k.orderId, next)];
      trace := trace + [Release(c, took)];
      TookIsValid(old(Snapshot()), old(trace), Release(c, took), Released(k, took).value);
      return !fate.Ok? || !known;
    }

    /**
     The row, and with it what the call does next: it goes on exactly if its caller
     may do this with the row, and a refund request goes out at once.
     */
    method GetOrderByID(c: nat, orderId: string, up: bool) returns (r: Fetch<Order>)
      requires Valid() && c in calls && calls[c].orderId == orderId && calls[c].phase.Reading?
      modifies `calls, `sent, `trace
      ensures Valid() && (forall es :: old(Past(es)) ==> Past(es))
      ensures c in calls && calls[c].orderId == orderId
      ensures r.Error? <==> !up
      ensures match r
        case Found(order) =>
          && orderId in orders && order == orders[orderId] && order.id == orderId
          && order.price.Some? && order.price.value > 0
          && calls[c].phase == Gate(old(calls[c].phase.action), order)
          && (calls[c].phase.Done? <==> !May(old(calls[c].phase.action), order))
          && sent == if calls[c].phase.Refunding?
                     then old(sent) + {Request(order.userId, Credit, order.price.value, order.id)} else old(sent)
        case Missing => orderId !in orders && calls[c].phase == Done(Refused(OrderNotFound)) && sent == old(sent)
        case Error => calls[c].phase == Done(Refused(Unavailable)) && sent == old(sent)
    {
      ghost var action := calls[c].phase.action;
      RatingIsValid(c);
      hide Run, Reply, Inserted, Indexed, Claimed, Assigned, Released, ReadBack, Written, Rated, Gate, May;
      var k := calls[c];
      ghost var f: Effect;
      if !up {
        r := Error;
        ReadsNothing(Snapshot(), k, up);
        f := To(Done(Refused(Unavailable)));
      } else if orderId !in orders {
        r := Missing;
        ReadsNothing(Snapshot(), k, up);
        f := To(Done(Refused(OrderNotFound)));
      } else {
        r := Found(orders[orderId]);
        IsRow(trace, orderId);
        IsPriced(orderId);
        GateOpensIffAllowed(action, r.value);
        ReadsRow(Snapshot(), k);
        f := ReadBack(Snapshot(), k, up).value;
        if f.request.Some? { sent := sent + {f.request.value}; }
      }
      calls := calls[c := Call(orderId, match r
                                        case Found(order) => Gate(k.phase.action, order)
                                        case Missing => Done(Refused(OrderNotFound))
                                        case Error => Done(Refused(Unavailable)))];
      trace := trace + [Read(c, up)];
      assert CallEffect(old(Snapshot()), Read(c, up)) == Some(f);
      hide CallEffect, EffectOf;
      TookIsValid(old(Snapshot()), old(trace), Read(c, up), f);
    }

    lemma RatingIsValid(c: nat)
      requires Valid() && c in calls && calls[c].phase.Reading?
      ensures ValidRating(calls[c].phase.action)
    {
      RunKeepsFields(trace);
      assert PhaseFieldsOk(calls[c].phase);
    }

    lemma IsPriced(orderId: string)
      requires Valid() && orderId in orders
      ensures orders[orderId].price.Some? && orders[orderId].price.value > 0
    {
      RunKeepsMoney(trace);
      assert OrderOk(Snapshot(), orderId);
    }

    /** UPDATE orders SET status WHERE id, whatever the status was. */
    method UpdateOrderStatus(c: nat, orderId: string, status: Status, now: int, fate: Fate) returns (r: Fetch<Order>)
      requires Valid() && c in calls && calls[c].orderId == orderId
      requires calls[c].phase.Writing? && calls[c].phase.target == status
      modifies `orders, `calls, `trace
      ensures Valid() && (forall es :: old(Past(es)) ==> Past(es))
      ensures c in calls && calls[c].orderId == orderId
      ensures fate.NoEffect? || orderId !in old(orders) ==> orders == old(orders)
      ensures !fate.NoEffect? && orderId in old(orders) ==>
        orders == old(orders)[orderId := old(orders[orderId]).(status := status, updatedAt := now)]
      ensures r.Error? ==> !fate.Ok?
      ensures match r
        case Found(row) =>
          && fate.Ok? && orderId in old(orders) && row == old(orders[orderId]).(status := status, updatedAt := now)
          && row.id == orderId && calls[c].phase == IndexingLast(row)
        case Missing => orderId !in orders && calls[c].phase == Done(Refused(OrderNotFound))
        case Error => calls[c].phase == Done(Refused(Unavailable))
    {
      hide Run, Reply, Inserted, Indexed, Claimed, Assigned, Released, ReadBack, Rated;
      var k := calls[c];
      r := Error;
      if !fate.NoEffect? && orderId !in orders { r := Missing; }
      if !fate.NoEffect? && orderId in orders {
        IsRow(trace, orderId);
        var row := orders[orderId].(status := status, updatedAt := now);
        orders := orders[orderId := row];
        if fate.Ok? { r := Found(row); }
      }
      calls := calls[c := Call(orderId, match r
                                        case Found(row) => IndexingLast(row)
                                        case Missing => Done(Refused(OrderNotFound))
                                        case Error => Done(Refused(Unavailable)))];
      trace := trace + [Write(c, now, fate)];
      TookIsValid(old(Snapshot()), old(trace), Write(c, now, fate), Written(old(Snapshot()), k, now, fate).value);
    }

    /** UPDATE orders SET rating, comment WHERE id AND rating IS NULL; no row means already rated. */
    method RateOrder(c: nat, orderId: string, rating: int, comment: Option<string>, now: int, fate: Fate)
      returns (r: Fetch<Order>)
      requires Valid() && c in calls && calls[c].orderId == orderId
      requires calls[c].phase.RatingRow? && calls[c].phase.rating == rating && calls[c].phase.comment == comment
      modifies `orders, `calls, `trace
      ensures Valid() && (forall es :: old(Past(es)) ==> Past(es))
      ensures c in calls && calls[c].orderId == orderId
      ensures var unrated := orderId in old(orders) && old(orders[orderId].rating.None?);
        && (fate.NoEffect? || !unrated ==> orders == old(orders))
        && (!fate.NoEffect? && unrated ==> orders == old(orders)[orderId :=
              old(orders[orderId]).(rating := Some(rating), comment := comment, updatedAt := now)])
      ensures r.Error? ==> !fate.Ok?
      ensures match r
        case Found(row) =>
          && fate.Ok? && orderId in old(orders) && old(orders[orderId].rating.None?) && row.id == orderId
          && row == old(orders[orderId]).(rating := Some(rating), comment := comment, updatedAt := now)
          && calls[c].phase == IndexingLast(row)
        case Missing => (orderId in orders ==> orders[orderId].rating.Some?) && calls[c].phase == Done(Refused(AlreadyRated))
        case Error => calls[c].phase == Done(Refused(Unavailable))
    {
      hide Run, Reply, Inserted, Indexed, Claimed, Assigned, Released, ReadBack, Written;
      var k := calls[c];
      r := Error;
      if !fate.NoEffect? {
        if orderId !in orders || orders[orderId].rating.Some? {
          r := Missing;
        } else {
          IsRow(trace, orderId);
          var row := orders[orderId].(rating := Some(rating), comment := comment, updatedAt := now);
          orders := orders[orderId := row];
          if fate.Ok? { r := Found(row); }
        }
      }
      calls := calls[c := Call(orderId, match r
                                        case Found(row) => IndexingLast(row)
                                        case Missing => Done(Refused(AlreadyRated))
                                        case Error => Done(Refused(Unavailable)))];
      trace := trace + [RateRow(c, now, fate)];
      TookIsValid(old(Snapshot()), old(trace), RateRow(c, now, fate), Rated(old(Snapshot()), k, now, fate).value);
    }

    // ----- What drivers do on their own -----

    /** A second registration is a duplicate key; an error may hide a first one that took effect. */
    method CreateDriver(userId: string, taxiType: TaxiType, fate: Fate) returns (err: bool)
      requires Valid() && userId != ""
      modifies `drivers, `trace
      ensures Valid()
      ensures err <==> userId in old(drivers) || !fate.Ok?
      ensures drivers == if fate.NoEffect? || userId in old(drivers) then old(drivers)
                         else old(drivers)[userId := Driver(taxiType, Offline)]
    {
      if fate.NoEffect? || userId in drivers { return true; }
      drivers := drivers[userId := Driver(taxiType, Offline)];
      trace := trace + [NewDriver(userId, taxiType)];
      StepIsValid(old(Snapshot()), old(trace), NewDriver(userId, taxiType));
      return !fate.Ok?;
    }

    /** The driver's own status change; an error may hide one that took effect. */
    method UpdateStatusByUserID(userId: string, status: DriverStatus, fate: Fate) returns (err: bool)
      requires Valid()
      modifies `drivers, `trace
      ensures Valid()
      ensures err <==> userId !in old(drivers) || !fate.Ok?
      ensures drivers == if fate.NoEffect? || userId !in old(drivers) then old(drivers)
                         else old(drivers)[userId := old(drivers[userId]).(status := status)]
    {
      if fate.NoEffect? || userId !in drivers { return true; }
      drivers := drivers[userId := drivers[userId].(status := status)];
      trace := trace + [DriverSets(userId, status)];
      StepIsValid(old(Snapshot()), old(trace), DriverSets(userId, status));
      return !fate.Ok?;
    }

    // ----- The calls of the service -----

    /** The request arrives: a checked one draws an order id, computes the price and asks the wallet. */
    method ReceiveCreate(c: nat, orderId: string, input: Input, price: int)
      requires Valid() && c !in calls
      requires Invalid(input).None? ==> 0 < price < TWO_63 && FreshOrderId(Snapshot(), orderId)
      modifies `bills, `sent, `calls, `trace
      ensures Valid() && (forall es :: old(Past(es)) ==> Past(es))
      ensures c in calls && calls[c].orderId == orderId
      ensures match Invalid(input)
        case Some(reason) => calls[c].phase == Done(Refused(reason)) && bills == old(bills) && sent == old(sent)
        case None => calls[c].phase == Charging(input) && Billed(orderId, Bill(input.userId, price))
    {
      hide Run, FreshOrderId;
      ghost var e := Event.CreateOrder(c, orderId, input, if Invalid(input).None? then price else 0);
      if Invalid(input).Some? {
        calls := calls[c := Call(orderId, Done(Refused(Invalid(input).value)))];
      } else {
        bills := bills[orderId := Bill(input.userId, price)];
        sent := sent + {Request(input.userId, Debit, price, orderId)};
        calls := calls[c := Call(orderId, Charging(input))];
      }
      trace := trace + [e];
      assert StepCreate(old(Snapshot()), c, orderId, input, e.price) == Some(Snapshot());
      hide StepCreate;
      StepIsValid(old(Snapshot()), old(trace), e);
    }

    method ReceiveAction(c: nat, orderId: string, action: Action)
      requires Valid() && c !in calls && (action.Rate? ==> action.comment != Some(""))
      modifies `calls, `trace
      ensures Valid() && (forall es :: old(Past(es)) ==> Past(es))
      ensures c in calls
      ensures calls[c] == Call(orderId, if ValidRating(action) then Reading(action) else Done(Refused(InvalidRating)))
    {
      calls := calls[c := Call(orderId, if ValidRating(action) then Reading(action) else Done(Refused(InvalidRating)))];
      trace := trace + [Act(c, orderId, action)];
      StepIsValid(old(Snapshot()), old(trace), Act(c, orderId, action));
    }

    /** An order that a call returns was a row, paid for at its price, and refunded if cancelled. */
    ghost predicate Genuine(order: Order)
      reads this
    {
      && WasRow(trace, order)
      && order.id in bills && order.userId == bills[order.id].userId && order.price == Some(bills[order.id].price)
      && Posted(Snapshot(), order.id, Debit)
      && (order.status == Cancelled ==> Posted(Snapshot(), order.id, Credit) && Net(book.rows, order.id) == 0)
    }

    lemma ReturnedIsGenuine(c: nat, order: Order)
      requires Valid() && c in calls && calls[c].phase == Done(Returned(order))
      ensures Genuine(order)
    {
      ReturnedOrdersWereRows(trace, c, order);
      var k: nat :| RowAt(trace, k, order);
      PrefixGrows(trace, k);
      RunKeepsMoney(trace[..k]);
      assert OrderOk(Run(trace[..k]).value, order.id);
      RunKeepsMoney(trace);
      DebitedIsPosted(Snapshot(), order.id);
      if order.status == Cancelled { CancelledWasRefunded(trace, k, order.id); }
    }

    lemma PickFinds(w: World, t: TaxiType)
      requires w.Picks()
      ensures Finds(drivers, t, w.pick(drivers, t))
    {
    }

    /**
     Claim a driver and assign him; on any failure the order is returned as it was.
     With nothing failing, that is so only if nobody was available.
     */
    method TryAssignDriver(c: nat, order: Order, w: World, ghost start: seq<Event>) returns (r: Order)
      requires Valid() && c in calls && calls[c] == Call(order.id, Claiming(order)) && w.Picks() && Past(start)
      requires Kept(order.id, order)
      modifies this
      ensures Valid() && (forall es :: old(Past(es)) ==> Past(es))
      ensures c in calls && calls[c] == Call(order.id, Done(Returned(r))) && SameTrip(order, r)
      ensures r == order || (r.status == DriverAssigned && r.driverId.Some?)
      ensures r == order && w.claim.Ok? && w.assign.Ok? ==> WasBusy(start, order.taxiType)
      ensures forall o, bill :: old(Billed(o, bill)) ==> Billed(o, bill)
    {
      hide Run, Valid, Past, World.Picks, NobodyFree, SameTrip, Finds, Kept;
      PickFinds(w, order.taxiType);
      SameTripIsReflexive(order);
      var claimed := ClaimAvailableDriver(c, order.taxiType, w.pick(drivers, order.taxiType), w.claim);
      if !claimed.Found? {
        if claimed.Missing? { BusyNow(start, order.taxiType); }
        return order;
      }
      Wait(c);
      KeptIs(order.id, order);
      ghost var before := orders[order.id];
      var updated := AssignDriver(c, order.id, claimed.value, w.now, w.assign);
      if updated.Found? { AssignedSameTrip(order, before, updated.value); }
      Wait(c);
      if !updated.Found? {
        var _ := ReleaseDriver(c, claimed.value, w.release);
        return order;
      }
      var _ := IndexOrder(c, updated.value, w.index);
      return updated.value;
    }

    /** Charge, and insert or else refund. */
    method PayAndStore(c: nat, orderId: string, price: Int64, input: Input, w: World, ghost start: seq<Event>)
      returns (r: Option<Order>)
      requires Valid() && c in calls && calls[c] == Call(orderId, Charging(input)) && Past(start)
      requires Billed(orderId, Bill(input.userId, price)) && price > 0
      modifies this
      ensures Valid() && (forall es :: old(Past(es)) ==> Past(es)) && Billed(orderId, Bill(input.userId, price))
      ensures r.None? ==>
        && c in calls && calls[c] == Call(orderId, Done(Refused(Unavailable)))
        && (!w.Places() || WasRefused(start, Request(input.userId, Debit, price, orderId)))
      ensures r.Some? ==>
        && c in calls && calls[c] == Call(orderId, Indexing(r.value))
        && IsInsertOf(r.value, orderId, input, price, w.now) && Kept(orderId, r.value)
    {
      hide Run, Valid, Past, Billed, Refuses, Apply, Kept, IsInsertOf;
      Wait(c);
      var req := Request(input.userId, Debit, price, orderId);
      RejectsAnyRow(book, req, w.walletRow, w.now);
      if Apply(book, req, w.walletRow, w.now).1.Rejected? { RefusedNow(start, req); }
      var err := ChargeWallet(c, input.userId, price, orderId, w.wallet, w.walletRow, w.now);
      if err { return None; }
      Wait(c);
      r := InsertOrder(c, orderId, price, input, w.now, w.insert);
      if r.Some? {
        KeptNow(orderId, r.value);
      } else {
        Wait(c);
        HasBill(orderId, Bill(input.userId, price));
        var _ := RefundUnpersisted(c, w.wallet, w.walletRow, w.now);
      }
    }

    /** Charge, insert or else refund, index, and look for a driver. */
    method PlaceOrder(c: nat, orderId: string, price: Int64, input: Input, w: World, ghost start: seq<Event>)
      returns (r: Answer)
      requires Valid() && c in calls && calls[c] == Call(orderId, Charging(input)) && w.Picks() && Past(start)
      requires Billed(orderId, Bill(input.userId, price)) && price > 0
      modifies this
      ensures Valid() && (forall es :: old(Past(es)) ==> Past(es))
      ensures c in calls && calls[c] == Call(orderId, Done(r)) && Billed(orderId, Bill(input.userId, price))
      ensures r.Refused? ==>
        && r == Refused(Unavailable)
        && (!w.Places() || WasRefused(start, Request(input.userId, Debit, price, orderId)))
      ensures r.Returned? ==>
        && Genuine(r.order) && r.order.id == orderId && IsTripOf(r.order, input, price, w.now)
        && (r.order.status == Created || (r.order.status == DriverAssigned && r.order.driverId.Some?))
        && (r.order.status == Created && w.claim.Ok? && w.assign.Ok? ==> WasBusy(start, input.taxiType))
    {
      hide Run, Valid, Past, Genuine, Billed, World.Picks, Kept, WasRefused, WasBusy;
      var stored := PayAndStore(c, orderId, price, input, w, start);
      if stored.None? { return Refused(Unavailable); }
      Wait(c);
      var _ := IndexOrder(c, stored.value, w.index);
      Wait(c);
      var order := TryAssignDriver(c, stored.value, w, start);
      ReturnedIsGenuine(c, order);
      return Returned(order);
    }

    lemma KeptNow(orderId: string, order: Order)
      requires orderId in orders && orders[orderId] == order
      ensures Kept(orderId, order)
    {
    }

    lemma KeptIs(orderId: string, order: Order)
      requires Kept(orderId, order)
      ensures orderId in orders && SameTrip(order, orders[orderId])
    {
    }

    lemma HasBill(orderId: string, bill: Bill)
      requires Billed(orderId, bill)
      ensures orderId in bills
    {
    }

    /** The order is the trip of this input, at this price, placed at this moment. */
    predicate IsTripOf(order: Order, input: Input, price: Int64, now: int) {
      && order.userId == input.userId && order.taxiType == input.taxiType
      && order.start == input.start && order.destination == input.destination
      && order.price == Some(price) && order.createdAt == now
    }

    /** uuid.NewV7: no order and no other wallet request has used it. */
    method NewOrderId() returns (orderId: string)
      ensures FreshOrderId(Snapshot(), orderId)
    {
      var used := bills.Keys + set t | t in book.rows :: t.reference;
      orderId := NewUUID(used);
      assert forall t :: t in book.rows ==> t.reference in used;
    }

    /**
     CreateOrder. A returned order is a stored row, the trip that was asked for, and
     paid for at the price of that trip; an order id that was drawn is billed to the
     rider at that price. A refusal is given only for its reason.
     */
    method CreateOrder(c: nat, input: Input, w: World) returns (r: Answer)
      requires Valid() && c !in calls && w.Picks()
      modifies this
      ensures Valid() && (forall es :: old(Past(es)) ==> Past(es))
      ensures c in calls && calls[c].phase == Done(r)
      ensures r == Refused(InvalidTaxiType) <==> input.taxiType == NoTaxiType
      ensures r == Refused(InvalidLocation) <==>
        && input.taxiType != NoTaxiType
        && (input.start == Location(0.0, 0.0) || input.destination == Location(0.0, 0.0))
      ensures r in {Refused(InvalidTaxiType), Refused(InvalidLocation)} ==>
        orders == old(orders) && bills == old(bills) && sent == old(sent)
      ensures r !in {Refused(InvalidTaxiType), Refused(InvalidLocation)} ==> var orderId := calls[c].orderId;
        && old(FreshOrderId(Snapshot(), orderId))
        && orderId in bills && bills[orderId].userId == input.userId
        && bills[orderId].price == PriceForTrip(math, input.taxiType, input.start, input.destination)
      ensures r.Refused? ==> r.reason in {InvalidTaxiType, InvalidLocation, Unavailable}
      ensures r == Refused(Unavailable) ==> var orderId := calls[c].orderId;
        && orderId in bills
        && (!w.Places() || WasRefused(old(trace), Request(input.userId, Debit, bills[orderId].price, orderId)))
      ensures r.Returned? ==>
        && Genuine(r.order) && r.order.id == calls[c].orderId
        && r.order.userId == input.userId && r.order.taxiType == input.taxiType
        && r.order.start == input.start && r.order.destination == input.destination && r.order.createdAt == w.now
        && (r.order.status == Created || (r.order.status == DriverAssigned && r.order.driverId.Some?))
        && (r.order.status == Created && w.claim.Ok? && w.assign.Ok? ==> WasBusy(old(trace), input.taxiType))
    {
      var price := PriceForTrip(math, input.taxiType, input.start, input.destination);
      if Invalid(input).None? { PriceWithinBounds(math, input.taxiType, input.start, input.destination); }
      PastNow();
      hide Run, Valid, Past, PriceForTrip, Genuine, FreshOrderId, MathLibrary.Lawful, World.Picks, WasRefused, WasBusy;
      ghost var start := trace;
      var orderId := "";
      if Invalid(input).None? { orderId := NewOrderId(); }
      ReceiveCreate(c, orderId, input, price);
      if Invalid(input).Some? { return Refused(Invalid(input).value); }
      r := PlaceOrder(c, orderId, price, input, w, start);
    }

    lemma PastNow()
      ensures Past(trace)
    {
    }

    /**
     CancelOrder. A returned order is the rider's own, cancelled and refunded in full;
     the answer to a foreign, missing or too advanced order names the reason, and
     nothing else is refused while nothing fails.
     */
    method CancelOrder(c: nat, orderId: string, userId: string, w: World) returns (r: Answer)
      requires Valid() && c !in calls
      modifies this
      ensures Valid() && (forall es :: old(Past(es)) ==> Past(es))
      ensures c in calls && calls[c] == Call(orderId, Done(r))
      ensures r.Returned? ==> && Genuine(r.order) && r.order.id == orderId && r.order.status == Cancelled
                              && r.order.userId == userId
      ensures r.Refused? ==> r.reason in {OrderNotFound, NotCancellable, Unavailable}
      ensures r == Refused(OrderNotFound) ==> orderId in orders ==> orders[orderId].userId != userId
      ensures r == Refused(NotCancellable) ==>
        && orderId in orders && orders[orderId].userId == userId
        && orders[orderId].status != Created && orders[orderId].status != DriverAssigned
      ensures r == Refused(Unavailable) ==> !w.Acts()
    {
      hide Run, Valid, Past, Genuine, SameTrip, Kept, Apply;
      ReceiveAction(c, orderId, Cancel(userId));
      Wait(c);
      var read := GetOrderByID(c, orderId, w.read);
      if read.Error? { return Refused(Unavailable); }
      if read.Missing? { return Refused(OrderNotFound); }
      var order := read.value;
      if order.userId != userId { return Refused(OrderNotFound); }
      if order.status != Created && order.status != DriverAssigned { return Refused(NotCancellable); }
      KeptNow(orderId, order);
      if order.price.Some? && order.price.value > 0 {
        Wait(c);
        var err := RefundWallet(c, order.userId, order.price.value, order.id, w.wallet, w.walletRow, w.now);
        if err { return Refused(Unavailable); }
      }
      if order.driverId.Some? {
        Wait(c);
        var _ := ReleaseDriver(c, order.driverId.value, w.release);
      }
      Wait(c);
      KeptIs(orderId, order);
      ghost var before := orders;
      var updated := UpdateOrderStatus(c, orderId, Cancelled, w.now, w.write);
      if updated.Error? { return Refused(Unavailable); }
      if updated.Missing? { return Refused(OrderNotFound); }
      KeepsItsPeople(order, before[orderId], updated.value);
      Wait(c);
      var _ := IndexOrder(c, updated.value, w.index);
      ReturnedIsGenuine(c, updated.value);
      return Returned(updated.value);
    }

    /** StartTrip, by the driver on the order; a refusal names its reason. */
    method StartTrip(c: nat, orderId: string, driverId: string, w: World) returns (r: Answer)
      requires Valid() && c !in calls
      modifies this
      ensures Valid() && (forall es :: old(Past(es)) ==> Past(es))
      ensures c in calls && calls[c] == Call(orderId, Done(r))
      ensures r.Returned? ==> && Genuine(r.order) && r.order.id == orderId && r.order.status == InProgress
                              && r.order.driverId == Some(driverId)
      ensures r.Refused? ==> r.reason in {OrderNotFound, NotStartable, Unavailable}
      ensures r == Refused(OrderNotFound) ==> orderId in orders ==> orders[orderId].driverId != Some(driverId)
      ensures r == Refused(NotStartable) ==>
        orderId in orders && orders[orderId].driverId == Some(driverId) && orders[orderId].status != DriverAssigned
      ensures r == Refused(Unavailable) ==> !w.Acts()
    {
      hide Run, Valid, Past, Genuine, SameTrip, Kept;
      ReceiveAction(c, orderId, Start(driverId));
      Wait(c);
      var read := GetOrderByID(c, orderId, w.read);
      if read.Error? { return Refused(Unavailable); }
      if read.Missing? { return Refused(OrderNotFound); }
      var order := read.value;
      if order.driverId.None? || order.driverId.value != driverId { return Refused(OrderNotFound); }
      if order.status != DriverAssigned { return Refused(NotStartable); }
      KeptNow(orderId, order);
      Wait(c);
      KeptIs(orderId, order);
      ghost var before := orders;
      var updated := UpdateOrderStatus(c, orderId, InProgress, w.now, w.write);
      if updated.Error? { return Refused(Unavailable); }
      if updated.Missing? { return Refused(OrderNotFound); }
      KeepsItsPeople(order, before[orderId], updated.value);
      Wait(c);
      var _ := IndexOrder(c, updated.value, w.index);
      ReturnedIsGenuine(c, updated.value);
      return Returned(updated.value);
    }

    /** CompleteTrip, by the driver on the order, who is released before the status is written. */
    method CompleteTrip(c: nat, orderId: string, driverId: string, w: World) returns (r: Answer)
      requires Valid() && c !in calls
      modifies this
      ensures Valid() && (forall es :: old(Past(es)) ==> Past(es))
      ensures c in calls && calls[c] == Call(orderId, Done(r))
      ensures r.Returned? ==> && Genuine(r.order) && r.order.id == orderId && r.order.status == Completed
                              && r.order.driverId == Some(driverId)
      ensures r.Refused? ==> r.reason in {OrderNotFound, NotCompletable, Unavailable}
      ensures r == Refused(OrderNotFound) ==> orderId in orders ==> orders[orderId].driverId != Some(driverId)
      ensures r == Refused(NotCompletable) ==>
        orderId in orders && orders[orderId].driverId == Some(driverId) && orders[orderId].status != InProgress
      ensures r == Refused(Unavailable) ==> !w.Acts()
    {
      hide Run, Valid, Past, Genuine, SameTrip, Kept;
      ReceiveAction(c, orderId, Complete(driverId));
      Wait(c);
      var read := GetOrderByID(c, orderId, w.read);
      if read.Error? { return Refused(Unavailable); }
      if read.Missing? { return Refused(OrderNotFound); }
      var order := read.value;
      if order.driverId.None? || order.driverId.value != driverId { return Refused(OrderNotFound); }
      if order.status != InProgress { return Refused(NotCompletable); }
      KeptNow(orderId, order);
      Wait(c);
      var _ := ReleaseDriver(c, order.driverId.value, w.release);
      Wait(c);
      KeptIs(orderId, order);
      ghost var before := orders;
      var updated := UpdateOrderStatus(c, orderId, Completed, w.now, w.write);
      if updated.Error? { return Refused(Unavailable); }
      if updated.Missing? { return Refused(OrderNotFound); }
      KeepsItsPeople(order, before[orderId], updated.value);
      Wait(c);
      var _ := IndexOrder(c, updated.value, w.index);
      ReturnedIsGenuine(c, updated.value);
      return Returned(updated.value);
    }

    /** RateTrip, by the rider: a returned order carries this rating, and the stored row carries it from then on. */
    method RateTrip(c: nat, orderId: string, userId: string, rating: int, comment: Option<string>, w: World)
      returns (r: Answer)
      requires Valid() && c !in calls && comment != Some("")
      modifies this
      ensures Valid() && (forall es :: old(Past(es)) ==> Past(es))
      ensures c in calls && calls[c] == Call(orderId, Done(r))
      ensures r == Refused(InvalidRating) <==> rating < 1 || rating > 5
      ensures r.Returned? ==>
        && Genuine(r.order) && r.order.id == orderId && r.order.rating == Some(rating) && r.order.comment == comment
        && r.order.userId == userId
        && orderId in orders && orders[orderId].rating == Some(rating) && orders[orderId].comment == comment
      ensures r.Refused? ==> r.reason in {InvalidRating, OrderNotFound, NotRatable, AlreadyRated, Unavailable}
      ensures r == Refused(OrderNotFound) ==> orderId in orders ==> orders[orderId].userId != userId
      ensures r == Refused(NotRatable) ==>
        orderId in orders && orders[orderId].userId == userId && orders[orderId].status != Completed
      ensures r == Refused(AlreadyRated) ==> orderId in orders ==> orders[orderId].rating.Some?
      ensures r == Refused(Unavailable) ==> !w.Acts()
    {
      hide Run, Valid, Past, Genuine, SameTrip, Kept;
      ReceiveAction(c, orderId, Rate(userId, rating, comment));
      if rating < 1 || rating > 5 { return Refused(InvalidRating); }
      Wait(c);
      var read := GetOrderByID(c, orderId, w.read);
      if read.Error? { return Refused(Unavailable); }
      if read.Missing? { return Refused(OrderNotFound); }
      var order := read.value;
      if order.userId != userId { return Refused(OrderNotFound); }
      if order.status != Completed { return Refused(NotRatable); }
      if order.rating.Some? { return Refused(AlreadyRated); }
      KeptNow(orderId, order);
      Wait(c);
      KeptIs(orderId, order);
      ghost var before := orders;
      var rated := RateOrder(c, orderId, rating, comment, w.now, w.write);
      if rated.Error? { return Refused(Unavailable); }
      if rated.Missing? { return Refused(AlreadyRated); }
      KeepsItsPeople(order, before[orderId], rated.value);
      Wait(c);
      var _ := IndexOrder(c, rated.value, w.index);
      ReturnedIsGenuine(c, rated.value);
      RatingStays(rated.value);
      return Returned(rated.value);
    }

    lemma RatingStays(order: Order)
      requires Valid() && WasRow(trace, order) && order.rating.Some?
      ensures order.id in orders && orders[order.id].rating == order.rating && orders[order.id].comment == order.comment
    {
      var k: nat :| RowAt(trace, k, order);
      RatingIsWrittenOnce(trace, k, order.id);
    }
  }
}
