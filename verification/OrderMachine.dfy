/**
 Orders, payments and drivers as one concurrent machine. Every remote call or
 SQL statement of an order call is a step with a fate: it succeeds, it takes
 effect but reports an error, or it fails without effect. The wallet is the
 atomic ledger; a request sent to it may be executed at any later time, any
 number of times, or never, whatever the sender was told.
 */
module OrderMachine {
  import opened Prelude
  import opened Ledger
  import opened OrderTypes

  datatype DriverStatus = Available | OnTrip | Offline

  datatype Driver = Driver(taxiType: TaxiType, status: DriverStatus)

  datatype Input = Input(userId: string, taxiType: TaxiType, start: Location, destination: Location)

  /** Who pays what for an order id: fixed when CreateOrder draws the id and computes the price. */
  datatype Bill = Bill(userId: string, price: Int64)

  datatype Action =
    | Cancel(userId: string)
    | Start(driverId: string)
    | Complete(driverId: string)
    | Rate(userId: string, rating: int, comment: Option<string>)

  datatype Refusal =
    | InvalidTaxiType | InvalidLocation | InvalidRating
    | OrderNotFound | NotCancellable | NotStartable | NotCompletable | NotRatable | AlreadyRated
    | Unavailable

  datatype Answer = Returned(order: Order) | Refused(reason: Refusal)

  /**
   What an in-flight call does next; `order` is the row version it works on.
   `released` records that the driver was set free, which the code does not know.
   */
  datatype Phase =
    | Charging(input: Input)
    | Inserting(input: Input)
    | Compensating(input: Input)
    | Indexing(order: Order)
    | Claiming(order: Order)
    | Assigning(order: Order, driverId: string)
    | Unassigning(order: Order, driverId: string)
    | IndexingAssigned(order: Order)
    | Reading(action: Action)
    | Refunding(order: Order)
    | Releasing(order: Order, target: Status)
    | Writing(order: Order, target: Status, released: bool)
    | RatingRow(order: Order, rating: int, comment: Option<string>)
    | IndexingLast(order: Order)
    | Done(answer: Answer)

  datatype Call = Call(orderId: string, phase: Phase)

  datatype State = State(
    book: Book,
    sent: set<Request>,              // everything order_service ever asked of the wallet
    bills: map<string, Bill>,
    orders: map<string, Order>,
    drivers: map<string, Driver>,
    index: map<string, OrderDocument>,
    calls: map<nat, Call>)

  const Init := State(Book(map[], []), {}, map[], map[], map[], map[], map[])

  datatype Event =
    | OpenWallet(walletUser: string, walletId: string)
    | External(req: Request, id: nat, at: int)
    | Deliver(req: Request, id: nat, at: int)
    | NewDriver(driver: string, taxiType: TaxiType)
    | DriverSets(driver: string, status: DriverStatus)
    | DriverMoves(driver: string, taxiType: TaxiType)
    | CreateOrder(call: nat, orderId: string, input: Input, price: Int64)
    | Act(call: nat, orderId: string, action: Action)
    | WalletReply(call: nat, ok: bool)
    | Insert(call: nat, now: int, fate: Fate)
    | Index(call: nat, took: bool)
    | Claim(call: nat, claimed: Option<string>, acked: bool)
    | Assign(call: nat, now: int, fate: Fate)
    | Release(call: nat, took: bool)
    | Read(call: nat, up: bool)
    | Write(call: nat, now: int, fate: Fate)
    | RateRow(call: nat, now: int, fate: Fate)

  // ----- Decisions of the service code -----

  function ChargeRequest(orderId: string, bill: Bill): Request {
    Request(bill.userId, Debit, bill.price, orderId)
  }

  function RefundRequest(orderId: string, bill: Bill): Request {
    Request(bill.userId, Credit, bill.price, orderId)
  }

  function AfterRefund(order: Order): Phase {
    if order.driverId.Some? then Releasing(order, Cancelled) else Writing(order, Cancelled, false)
  }

  /** What CancelOrder, StartTrip, CompleteTrip and RateTrip do with the row they have read. */
  function Gate(action: Action, order: Order): Phase {
    match action
    case Cancel(u) =>
      if order.userId != u then Done(Refused(OrderNotFound))
      else if order.status != Created && order.status != DriverAssigned then Done(Refused(NotCancellable))
      else if order.price.Some? && order.price.value > 0 then Refunding(order)
      else AfterRefund(order)
    case Start(d) =>
      if order.driverId != Some(d) then Done(Refused(OrderNotFound))
      else if order.status != DriverAssigned then Done(Refused(NotStartable))
      else Writing(order, InProgress, false)
    case Complete(d) =>
      if order.driverId != Some(d) then Done(Refused(OrderNotFound))
      else if order.status != InProgress then Done(Refused(NotCompletable))
      else Releasing(order, Completed)
    case Rate(u, rating, comment) =>
      if order.userId != u then Done(Refused(OrderNotFound))
      else if order.status != Completed then Done(Refused(NotRatable))
      else if order.rating.Some? then Done(Refused(AlreadyRated))
      else RatingRow(order, rating, comment)
  }

  predicate ValidRating(action: Action) {
    action.Rate? ==> 1 <= action.rating <= 5
  }

  function NewOrder(orderId: string, input: Input, price: Int64, now: int): Order {
    Order(orderId, input.userId, None, input.taxiType, input.start, input.destination, Created,
          Some(price), None, None, now, now)
  }

  // ----- Steps of order calls -----

  /** What one step does: the call's next phase, and at most one write to each store. */
  datatype Effect = Effect(
    phase: Phase,
    row: Option<Order>,                // new version of the call's order row
    request: Option<Request>,          // sent to the wallet
    driver: Option<string>,            // driver whose status is set
    driverStatus: DriverStatus,
    document: Option<Order>)           // order written to the search index

  function To(phase: Phase): Effect {
    Effect(phase, None, None, None, Available, None)
  }

  function Perform(s: State, c: nat, f: Effect): State
    requires c in s.calls
  {
    var o := s.calls[c].orderId;
    s.(calls := s.calls[c := Call(o, f.phase)],
       orders := if f.row.Some? then s.orders[o := f.row.value] else s.orders,
       sent := if f.request.Some? then s.sent + {f.request.value} else s.sent,
       drivers := if f.driver.Some? && f.driver.value in s.drivers
                  then s.drivers[f.driver.value := s.drivers[f.driver.value].(status := f.driverStatus)]
                  else s.drivers,
       index := if f.document.Some?
                then s.index[f.document.value.id := DocumentFromDomain(f.document.value)] else s.index)
  }

  /** The wallet's 200 or 201: it has the row of this request. */
  predicate Accepts(book: Book, req: Request) {
    req.userId in book.wallets
    && Find(book.rows, book.wallets[req.userId].id, req.reference, req.kind).Some?
  }

  function Reply(s: State, k: Call, ok: bool): Option<Effect> {
    match k.phase
    case Charging(input) =>
      if !ok then Some(To(Done(Refused(Unavailable))))
      else if k.orderId in s.bills && Accepts(s.book, ChargeRequest(k.orderId, s.bills[k.orderId]))
      then Some(To(Inserting(input)))
      else None
    case Compensating(_) => Some(To(Done(Refused(Unavailable))))
    case Refunding(order) =>
      if !ok then Some(To(Done(Refused(Unavailable))))
      else if order.price.Some? && Accepts(s.book, Request(order.userId, Credit, order.price.value, order.id))
      then Some(To(AfterRefund(order)))
      else None
    case _ => None
  }

  function Inserted(s: State, k: Call, now: int, fate: Fate): Option<Effect> {
    if !k.phase.Inserting? || k.orderId !in s.bills then None
    else
      var bill := s.bills[k.orderId];
      var row := NewOrder(k.orderId, k.phase.input, bill.price, now);
      var refund := Some(RefundRequest(k.orderId, bill));
      if fate.NoEffect? then Some(To(Compensating(k.phase.input)).(request := refund))
      else if k.orderId in s.orders then None
      else if fate.LostAck? then Some(To(Compensating(k.phase.input)).(request := refund, row := Some(row)))
      else Some(To(Indexing(row)).(row := Some(row)))
  }

  function Indexed(k: Call, took: bool): Option<Effect> {
    match k.phase
    case Indexing(order) => Some(To(Claiming(order)).(document := if took then Some(order) else None))
    case IndexingAssigned(order) => Some(To(Done(Returned(order))).(document := if took then Some(order) else None))
    case IndexingLast(order) => Some(To(Done(Returned(order))).(document := if took then Some(order) else None))
    case _ => None
  }

  predicate CanClaim(s: State, d: string, taxiType: TaxiType) {
    d in s.drivers && s.drivers[d] == Driver(taxiType, Available)
  }

  function Claimed(s: State, k: Call, claimed: Option<string>, acked: bool): Option<Effect> {
    if !k.phase.Claiming? then None
    else
      var order := k.phase.order;
      match claimed
      case Some(d) =>
        if !CanClaim(s, d, order.taxiType) then None
        else Some(To(if acked then Assigning(order, d) else Done(Returned(order)))
                  .(driver := Some(d), driverStatus := OnTrip))
      case None =>
        if acked && (exists d :: d in s.drivers && CanClaim(s, d, order.taxiType)) then None
        else Some(To(Done(Returned(order))))
  }

  function Assigned(s: State, k: Call, now: int, fate: Fate): Option<Effect> {
    if !k.phase.Assigning? then None
    else
      var order, d := k.phase.order, k.phase.driverId;
      if fate.NoEffect? || k.orderId !in s.orders then Some(To(Unassigning(order, d)))
      else
        var row := s.orders[k.orderId].(driverId := Some(d), status := DriverAssigned, updatedAt := now);
        Some(To(if fate.Ok? then IndexingAssigned(row) else Unassigning(order, d)).(row := Some(row)))
  }

  function Released(k: Call, took: bool): Option<Effect> {
    match k.phase
    case Unassigning(order, d) =>
      Some(To(Done(Returned(order))).(driver := if took then Some(d) else None))
    case Releasing(order, target) =>
      Some(To(Writing(order, target, took)).(driver := if took then order.driverId else None))
    case _ => None
  }

  function ReadBack(s: State, k: Call, up: bool): Option<Effect> {
    if !k.phase.Reading? then None
    else if !up then Some(To(Done(Refused(Unavailable))))
    else if k.orderId !in s.orders then Some(To(Done(Refused(OrderNotFound))))
    else
      var order := s.orders[k.orderId];
      var next := Gate(k.phase.action, order);
      Some(To(next).(request := if next.Refunding? && order.price.Some?
                                then Some(Request(order.userId, Credit, order.price.value, order.id)) else None))
  }

  /** UPDATE ... WHERE id: it does not look at the status it overwrites. */
  function Written(s: State, k: Call, now: int, fate: Fate): Option<Effect> {
    if !k.phase.Writing? then None
    else if fate.NoEffect? then Some(To(Done(Refused(Unavailable))))
    else if k.orderId !in s.orders then Some(To(Done(Refused(OrderNotFound))))
    else
      var row := s.orders[k.orderId].(status := k.phase.target, updatedAt := now);
      Some(To(if fate.Ok? then IndexingLast(row) else Done(Refused(Unavailable))).(row := Some(row)))
  }

  /** UPDATE ... WHERE id AND rating IS NULL. */
  function Rated(s: State, k: Call, now: int, fate: Fate): Option<Effect> {
    if !k.phase.RatingRow? then None
    else if fate.NoEffect? then Some(To(Done(Refused(Unavailable))))
    else if k.orderId !in s.orders || s.orders[k.orderId].rating.Some? then
      Some(To(Done(Refused(AlreadyRated))))
    else
      var row := s.orders[k.orderId].(rating := Some(k.phase.rating), comment := k.phase.comment, updatedAt := now);
      Some(To(if fate.Ok? then IndexingLast(row) else Done(Refused(Unavailable))).(row := Some(row)))
  }

  function EffectOf(s: State, k: Call, e: Event): Option<Effect> {
    match e
    case WalletReply(_, ok) => Reply(s, k, ok)
    case Insert(_, now, fate) => Inserted(s, k, now, fate)
    case Index(_, took) => Indexed(k, took)
    case Claim(_, claimed, acked) => Claimed(s, k, claimed, acked)
    case Assign(_, now, fate) => Assigned(s, k, now, fate)
    case Release(_, took) => Released(k, took)
    case Read(_, up) => ReadBack(s, k, up)
    case Write(_, now, fate) => Written(s, k, now, fate)
    case RateRow(_, now, fate) => Rated(s, k, now, fate)
    case _ => None
  }

  // ----- New calls -----

  /** A UUID: no order and no other wallet request has used it. */
  predicate FreshOrderId(s: State, o: string) {
    o !in s.bills && forall t :: t in s.book.rows ==> t.reference != o
  }

  /** The checks that CreateOrder makes before it draws an id. */
  function Invalid(input: Input): Option<Refusal> {
    if input.taxiType.NoTaxiType? then Some(InvalidTaxiType)
    else if input.start.IsZero() || input.destination.IsZero() then Some(InvalidLocation)
    else None
  }

  function StepCreate(s: State, c: nat, orderId: string, input: Input, price: Int64): Option<State> {
    if c in s.calls then None
    else if Invalid(input).Some? then
      Some(s.(calls := s.calls[c := Call(orderId, Done(Refused(Invalid(input).value)))]))
    else if price <= 0 || !FreshOrderId(s, orderId) then None
    else
      var bill := Bill(input.userId, price);
      Some(s.(bills := s.bills[orderId := bill], sent := s.sent + {ChargeRequest(orderId, bill)},
              calls := s.calls[c := Call(orderId, Charging(input))]))
  }

  /** The gRPC server turns an empty comment into none. */
  function StepAct(s: State, c: nat, orderId: string, action: Action): Option<State> {
    if c in s.calls || (action.Rate? && action.comment == Some("")) then None
    else
      var phase := if ValidRating(action) then Reading(action) else Done(Refused(InvalidRating));
      Some(s.(calls := s.calls[c := Call(orderId, phase)]))
  }

  // ----- Everything else, and runs -----

  /** Wallets, other wallet callers, and drivers acting on their own. */
  predicate Outside(e: Event) {
    e.OpenWallet? || e.External? || e.Deliver? || e.NewDriver? || e.DriverSets? || e.DriverMoves?
  }

  function StepOutside(s: State, e: Event): Option<State> {
    match e
    case OpenWallet(u, w) =>
      if FreshWalletId(s.book, w) then Some(s.(book := Ledger.OpenWallet(s.book, u, w))) else None
    case External(req, id, at) =>
      if req.reference in s.bills then None else Some(s.(book := Apply(s.book, req, id, at).0))
    case Deliver(req, id, at) =>
      if req !in s.sent then None else Some(s.(book := Apply(s.book, req, id, at).0))
    case NewDriver(d, t) =>
      if d == "" || d in s.drivers then None else Some(s.(drivers := s.drivers[d := Driver(t, Offline)]))
    case DriverSets(d, status) =>
      if d !in s.drivers then None else Some(s.(drivers := s.drivers[d := s.drivers[d].(status := status)]))
    case DriverMoves(d, t) =>
      if d !in s.drivers then None else Some(s.(drivers := s.drivers[d := s.drivers[d].(taxiType := t)]))
    case _ => None
  }

  function Step(s: State, e: Event): Option<State> {
    if Outside(e) then StepOutside(s, e)
    else if e.CreateOrder? then StepCreate(s, e.call, e.orderId, e.input, e.price)
    else if e.Act? then StepAct(s, e.call, e.orderId, e.action)
    else if e.call !in s.calls then None
    else
      var f := EffectOf(s, s.calls[e.call], e);
      if f.None? then None else Some(Perform(s, e.call, f.value))
  }

  function Run(es: seq<Event>): Option<State> {
    if es == [] then Some(Init)
    else
      var before := Run(es[..|es| - 1]);
      if before.None? then None else Step(before.value, es[|es| - 1])
  }
}
