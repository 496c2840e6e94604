/**
 How order rows change. Some facts hold in every interleaving (a rating is
 written once, fields are well formed); the status lifecycle holds when calls
 on the same order do not overlap, for UPDATE does not check the status.
 */
module OrderLifecycle {
  import opened Prelude
  import opened Ledger
  import opened OrderTypes
  import opened OrderMachine
  import opened OrderMoney

  // ----- In every interleaving -----

  ghost predicate RowFieldsOk(o: Order) {
    Normal(o) && o.price.Some? && (o.rating.Some? ==> 1 <= o.rating.value <= 5)
  }

  ghost predicate PhaseFieldsOk(p: Phase) {
    match p
    case Charging(_) => true
    case Inserting(_) => true
    case Compensating(_) => true
    case Assigning(order, d) => RowFieldsOk(order) && d != ""
    case Unassigning(order, d) => RowFieldsOk(order) && d != ""
    case Reading(action) => ValidRating(action) && (action.Rate? ==> action.comment != Some(""))
    case RatingRow(order, rating, comment) => RowFieldsOk(order) && 1 <= rating <= 5 && comment != Some("")
    case Done(answer) => answer.Returned? ==> RowFieldsOk(answer.order)
    case _ => RowFieldsOk(p.order)
  }

  ghost predicate FieldsInv(s: State) {
    && (forall o :: o in s.bills ==> s.bills[o].price > 0)
    && (forall d :: d in s.drivers ==> d != "")
    && (forall o :: o in s.orders ==> RowFieldsOk(s.orders[o]))
    && (forall c :: c in s.calls ==> PhaseFieldsOk(s.calls[c].phase))
  }

  ghost predicate WriteFieldsOk(f: Effect) {
    PhaseFieldsOk(f.phase) && (f.row.Some? ==> RowFieldsOk(f.row.value))
  }

  /** A row that satisfies the field rules keeps them under every UPDATE. */
  lemma RowWriteFieldsOk(s: State, k: Call, now: int, fate: Fate)
    requires PhaseFieldsOk(k.phase) && (k.orderId in s.orders ==> RowFieldsOk(s.orders[k.orderId]))
    ensures Assigned(s, k, now, fate).Some? ==> WriteFieldsOk(Assigned(s, k, now, fate).value)
    ensures Written(s, k, now, fate).Some? ==> WriteFieldsOk(Written(s, k, now, fate).value)
    ensures Rated(s, k, now, fate).Some? ==> WriteFieldsOk(Rated(s, k, now, fate).value)
  {
  }

  lemma EffectFieldsOk(s: State, c: nat, e: Event)
    requires FieldsInv(s) && c in s.calls && EffectOf(s, s.calls[c], e).Some?
    ensures WriteFieldsOk(EffectOf(s, s.calls[c], e).value)
  {
    var k := s.calls[c];
    assert PhaseFieldsOk(k.phase);
    assert k.orderId in s.orders ==> RowFieldsOk(s.orders[k.orderId]);
    assert k.orderId in s.bills ==> s.bills[k.orderId].price > 0;
    assert e.Claim? && e.claimed.Some? && e.claimed.value in s.drivers ==> e.claimed.value != "";
    hide FieldsInv, Accepts, Assigned, Written, Rated;
    match e
    case Assign(_, now, fate) => RowWriteFieldsOk(s, k, now, fate);
    case Write(_, now, fate) => RowWriteFieldsOk(s, k, now, fate);
    case RateRow(_, now, fate) => RowWriteFieldsOk(s, k, now, fate);
    case _ =>
  }

  lemma PerformKeepsFields(s: State, c: nat, f: Effect)
    requires FieldsInv(s) && c in s.calls && WriteFieldsOk(f)
    ensures FieldsInv(Perform(s, c, f))
  {
  }

  lemma OutsideKeepsFields(s: State, s': State, e: Event)
    requires FieldsInv(s) && StepOutside(s, e) == Some(s')
    ensures FieldsInv(s')
  {
    hide Apply, Ledger.OpenWallet, FreshWalletId, RowFieldsOk, PhaseFieldsOk;
  }

  lemma StepKeepsFields(s: State, s': State, e: Event)
    requires FieldsInv(s) && Step(s, e) == Some(s')
    ensures FieldsInv(s')
  {
    hide EffectOf, Perform, StepOutside, RowFieldsOk, StepCreate;
    if Outside(e) {
      OutsideKeepsFields(s, s', e);
    } else if e.CreateOrder? {
      CreateFrame(s, s', e.call, e.orderId, e.input, e.price);
      CreateLeavesDrivers(s, s', e);
    } else if !e.Act? {
      EffectFieldsOk(s, e.call, e);
      PerformKeepsFields(s, e.call, EffectOf(s, s.calls[e.call], e).value);
    }
  }

  lemma CreateLeavesDrivers(s: State, s': State, e: Event)
    requires Step(s, e) == Some(s') && e.CreateOrder?
    ensures s'.drivers == s.drivers && s'.index == s.index
  {
  }

  lemma {:induction false} RunKeepsFields(es: seq<Event>)
    requires Run(es).Some?
    ensures FieldsInv(Run(es).value)
  {
    if es != [] {
      RunKeepsFields(es[..|es| - 1]);
      StepKeepsFields(Run(es[..|es| - 1]).value, Run(es).value, es[|es| - 1]);
    }
  }

  /** Every stored or returned order survives the trip through the search index unchanged. */
  lemma {:induction false} ReachableOrdersRoundTrip(es: seq<Event>, o: Order)
    requires Run(es).Some?
    requires var s := Run(es).value;
      (o.id in s.orders && s.orders[o.id] == o)
      || exists c :: c in s.calls && s.calls[c].phase == Done(Returned(o))
    ensures DocumentFromDomain(o).ToDomain() == o
  {
    RunKeepsFields(es);
    RoundTripIffNormal(o);
  }

  /** What one step may do to a row, whoever else is at work on it. */
  ghost predicate RatingKept(s: State, s': State, o: string) {
    o in s.orders ==>
      && o in s'.orders
      && (s.orders[o].rating.Some? ==>
            s'.orders[o].rating == s.orders[o].rating && s'.orders[o].comment == s.orders[o].comment)
  }

  lemma EffectRow(s: State, k: Call, e: Event)
    requires EffectOf(s, k, e).Some? && EffectOf(s, k, e).value.row.Some? && k.orderId in s.orders
    ensures var row, before := EffectOf(s, k, e).value.row.value, s.orders[k.orderId];
      before.rating.Some? ==> row.rating == before.rating && row.comment == before.comment
  {
    hide Accepts;
  }

  lemma StepKeepsRating(s: State, s': State, e: Event, o: string)
    requires Step(s, e) == Some(s')
    ensures RatingKept(s, s', o)
  {
    if Outside(e) {
      hide Apply, Ledger.OpenWallet;
    } else if e.CreateOrder? {
      CreateFrame(s, s', e.call, e.orderId, e.input, e.price);
      hide StepCreate;
    } else if !e.Act? {
      var k := s.calls[e.call];
      if k.orderId in s.orders && EffectOf(s, k, e).value.row.Some? { EffectRow(s, k, e); }
      hide EffectOf;
    }
  }

  /** In every interleaving a rating is in 1..5 and, once set, never changes, nor does its comment. */
  lemma {:induction false} RatingIsWrittenOnce(es: seq<Event>, k: nat, o: string)
    requires Run(es).Some? && k <= |es|
    requires Run(es[..k]).Some? ==> o in Run(es[..k]).value.orders && Run(es[..k]).value.orders[o].rating.Some?
    ensures Run(es[..k]).Some? && o in Run(es).value.orders
    ensures var early, late := Run(es[..k]).value.orders[o], Run(es).value.orders[o];
      late.rating == early.rating && late.comment == early.comment && 1 <= late.rating.value <= 5
  {
    PrefixGrows(es, k);
    RunKeepsFields(es);
    if k == |es| {
      assert es[..k] == es;
    } else {
      var shorter := es[..|es| - 1];
      assert shorter[..k] == es[..k];
      RatingIsWrittenOnce(shorter, k, o);
      StepKeepsRating(Run(shorter).value, Run(es).value, es[|es| - 1], o);
    }
  }

  // ----- When calls on one order do not overlap -----

  predicate InFlight(s: State, c: nat) {
    c in s.calls && !s.calls[c].phase.Done?
  }

  ghost predicate Disjoint(s: State) {
    forall c, d :: InFlight(s, c) && InFlight(s, d) && s.calls[c].orderId == s.calls[d].orderId ==> c == d
  }

  /** In every state of the run at most one call is at work on each order. */
  ghost predicate PerOrder(es: seq<Event>) {
    forall k :: 0 <= k <= |es| && Run(es[..k]).Some? ==> Disjoint(Run(es[..k]).value)
  }

  predicate Edge(a: Status, b: Status) {
    match a
    case Created => b == DriverAssigned || b == Cancelled
    case DriverAssigned => b == InProgress || b == Cancelled
    case InProgress => b == Completed
    case _ => false
  }

  /** Reachable by one edge or more; nothing is later than completed or cancelled. */
  predicate Later(a: Status, b: Status) {
    match a
    case Created => b == DriverAssigned || b == InProgress || b == Completed || b == Cancelled
    case DriverAssigned => b == InProgress || b == Completed || b == Cancelled
    case InProgress => b == Completed
    case _ => false
  }

  lemma LaterIsTransitiveAndTerminates(a: Status, b: Status, c: Status)
    ensures Edge(a, b) ==> Later(a, b)
    ensures Later(a, b) && Later(b, c) ==> Later(a, c)
    ensures !Later(a, a) && !Later(Completed, b) && !Later(Cancelled, b)
  {
  }

  /** Statuses that have a driver, and ratings only on completed orders. */
  predicate LifeOk(o: Order) {
    && o.status != NoStatus
    && (o.status == DriverAssigned || o.status == InProgress || o.status == Completed ==> o.driverId.Some?)
    && (o.status == Created ==> o.driverId.None?)
    && (o.rating.Some? ==> o.status == Completed)
  }

  /** The version that a call works on is the current row, and its next write is a legal move. */
  predicate SnapOk(orders: map<string, Order>, o: string, p: Phase) {
    match p
    case Charging(_) => o !in orders
    case Inserting(_) => o !in orders
    case Compensating(_) => o in orders ==> orders[o].status == Created
    case Reading(_) => true
    case Done(_) => true
    case Unassigning(order, d) =>
      o in orders && (orders[o].status == Created || (orders[o].status == DriverAssigned && orders[o].driverId == Some(d)))
    case _ =>
      && o in orders && orders[o] == p.order
      && match p
         case Indexing(order) => order.status == Created
         case Claiming(order) => order.status == Created
         case Assigning(order, _) => order.status == Created
         case IndexingAssigned(order) => order.status == DriverAssigned
         case Refunding(order) => Edge(order.status, Cancelled)
         case Releasing(order, t) => (t == Cancelled || t == Completed) && Edge(order.status, t) && order.driverId.Some?
         case Writing(order, t, _) => t != DriverAssigned && Edge(order.status, t)
         case RatingRow(order, _, _) => order.status == Completed && order.rating.None?
         case _ => true
  }

  ghost predicate LifeInv(s: State) {
    && (forall o :: o in s.orders ==> o in s.bills && LifeOk(s.orders[o]))
    && (forall c :: c in s.calls ==> SnapOk(s.orders, s.calls[c].orderId, s.calls[c].phase))
  }

  /** A write of an order row: a first insert in `created`, a legal move, or a first rating. */
  ghost predicate MoveOk(orders: map<string, Order>, o: string, row: Order) {
    && LifeOk(row)
    && if o !in orders then row.status == Created
       else
         || Edge(orders[o].status, row.status)
         || (row.status == orders[o].status == Completed && orders[o].rating.None? && row.rating.Some?)
  }

  ghost predicate EffectLifeOk(s: State, k: Call, f: Effect) {
    && (f.row.Some? ==> k.orderId in s.bills && MoveOk(s.orders, k.orderId, f.row.value))
    && SnapOk(if f.row.Some? then s.orders[k.orderId := f.row.value] else s.orders, k.orderId, f.phase)
  }

  lemma WriteLife(s: State, k: Call, now: int, fate: Fate)
    requires SnapOk(s.orders, k.orderId, k.phase)
    requires k.orderId in s.orders ==> k.orderId in s.bills && LifeOk(s.orders[k.orderId])
    ensures Assigned(s, k, now, fate).Some? ==> EffectLifeOk(s, k, Assigned(s, k, now, fate).value)
    ensures Written(s, k, now, fate).Some? ==> EffectLifeOk(s, k, Written(s, k, now, fate).value)
    ensures Rated(s, k, now, fate).Some? ==> EffectLifeOk(s, k, Rated(s, k, now, fate).value)
  {
  }

  lemma EffectLife(s: State, k: Call, e: Event)
    requires EffectOf(s, k, e).Some? && SnapOk(s.orders, k.orderId, k.phase)
    requires k.orderId in s.orders ==> k.orderId in s.bills && LifeOk(s.orders[k.orderId])
    ensures EffectLifeOk(s, k, EffectOf(s, k, e).value)
  {
    hide Accepts, Assigned, Written, Rated;
    match e
    case Assign(_, now, fate) => WriteLife(s, k, now, fate);
    case Write(_, now, fate) => WriteLife(s, k, now, fate);
    case RateRow(_, now, fate) => WriteLife(s, k, now, fate);
    case _ =>
  }

  lemma CallKeepsLife(s: State, s': State, c: nat, f: Effect)
    requires LifeInv(s) && Disjoint(s) && InFlight(s, c) && EffectLifeOk(s, s.calls[c], f) && s' == Perform(s, c, f)
    ensures LifeInv(s')
  {
    hide LifeOk, MoveOk;
    assert f.row.Some? ==> LifeOk(f.row.value) by { MoveIsOk(s, c, f); }
    forall d | d in s'.calls ensures SnapOk(s'.orders, s'.calls[d].orderId, s'.calls[d].phase) {
      if d != c && InFlight(s, d) {
        SnapElsewhere(s.orders, s'.orders, s.calls[d].orderId, s.calls[d].phase);
      }
    }
  }

  lemma MoveIsOk(s: State, c: nat, f: Effect)
    requires c in s.calls && EffectLifeOk(s, s.calls[c], f)
    ensures f.row.Some? ==> LifeOk(f.row.value)
  {
  }

  lemma SnapElsewhere(orders: map<string, Order>, orders': map<string, Order>, o: string, p: Phase)
    requires SnapOk(orders, o, p)
    requires (o in orders <==> o in orders') && (o in orders ==> orders'[o] == orders[o])
    ensures SnapOk(orders', o, p)
  {
  }

  lemma StepKeepsLife(s: State, s': State, e: Event)
    requires LifeInv(s) && Disjoint(s) && Step(s, e) == Some(s')
    ensures LifeInv(s')
  {
    hide EffectOf, Perform, StepCreate, LifeOk, SnapOk, EffectLifeOk, Apply, Ledger.OpenWallet;
    if Outside(e) {
      assert s'.orders == s.orders && s'.calls == s.calls && s'.bills == s.bills;
    } else if e.CreateOrder? {
      CreateFrame(s, s', e.call, e.orderId, e.input, e.price);
      CreateSnap(s, s', e);
    } else if e.Act? {
      assert SnapOk(s.orders, e.orderId, s'.calls[e.call].phase) by { ActSnap(s, s', e); }
    } else {
      var k := s.calls[e.call];
      EffectInFlight(s, k, e);
      EffectLife(s, k, e);
      CallKeepsLife(s, s', e.call, EffectOf(s, k, e).value);
    }
  }

  lemma EffectInFlight(s: State, k: Call, e: Event)
    requires EffectOf(s, k, e).Some?
    ensures !k.phase.Done?
  {
    hide Accepts;
  }

  lemma ActSnap(s: State, s': State, e: Event)
    requires Step(s, e) == Some(s') && e.Act?
    ensures SnapOk(s.orders, e.orderId, s'.calls[e.call].phase)
  {
  }

  lemma CreateSnap(s: State, s': State, e: Event)
    requires Step(s, e) == Some(s') && e.CreateOrder? && LifeInv(s)
    ensures SnapOk(s.orders, e.orderId, s'.calls[e.call].phase)
  {
    CreateFrame(s, s', e.call, e.orderId, e.input, e.price);
    hide StepCreate;
  }

  lemma {:induction false} RunKeepsLife(es: seq<Event>)
    requires Run(es).Some? && PerOrder(es)
    ensures LifeInv(Run(es).value)
  {
    if es != [] {
      var shorter := es[..|es| - 1];
      PerOrderShorter(es);
      RunKeepsLife(shorter);
      assert es[..|shorter|] == shorter;
      StepKeepsLife(Run(shorter).value, Run(es).value, es[|es| - 1]);
    }
  }

  lemma {:induction false} PerOrderShorter(es: seq<Event>)
    requires PerOrder(es) && es != []
    ensures PerOrder(es[..|es| - 1])
  {
    var shorter := es[..|es| - 1];
    assert forall k :: 0 <= k <= |shorter| ==> shorter[..k] == es[..k];
  }

  /** One step changes the status of an order by one edge of the lifecycle, or not at all. */
  lemma {:induction false} StepFollowsEdge(es: seq<Event>, e: Event, o: string)
    requires PerOrder(es) && Run(es).Some? && Step(Run(es).value, e).Some? && o in Run(es).value.orders
    ensures var before, after := Run(es).value.orders, Step(Run(es).value, e).value.orders;
      o in after && (after[o].status == before[o].status || Edge(before[o].status, after[o].status))
  {
    RunKeepsLife(es);
    var s, s' := Run(es).value, Step(Run(es).value, e).value;
    if Outside(e) {
      hide Apply, Ledger.OpenWallet;
    } else if e.CreateOrder? {
      CreateFrame(s, s', e.call, e.orderId, e.input, e.price);
      hide StepCreate;
    } else if !e.Act? {
      EffectLife(s, s.calls[e.call], e);
      hide EffectOf, LifeOk, SnapOk, LifeInv;
    }
  }

  /**
   Along a run a status only moves forward: the later status is the same or
   strictly later in the lifecycle, and completed and cancelled are final.
   */
  lemma {:induction false} StatusOnlyMovesForward(es: seq<Event>, k: nat, o: string)
    requires Run(es).Some? && PerOrder(es) && k <= |es|
    requires Run(es[..k]).Some? ==> o in Run(es[..k]).value.orders
    ensures Run(es[..k]).Some? && o in Run(es).value.orders
    ensures var early, late := Run(es[..k]).value.orders[o].status, Run(es).value.orders[o].status;
      && (early == late || Later(early, late))
      && (early == Completed || early == Cancelled ==> late == early)
  {
    PrefixGrows(es, k);
    if k == |es| {
      assert es[..k] == es;
    } else {
      var shorter := es[..|es| - 1];
      assert shorter[..k] == es[..k];
      PerOrderShorter(es);
      StatusOnlyMovesForward(shorter, k, o);
      StepFollowsEdge(shorter, es[|es| - 1], o);
      LaterIsTransitiveAndTerminates(Run(es[..k]).value.orders[o].status, Run(shorter).value.orders[o].status,
                                     Run(es).value.orders[o].status);
      hide Step;
    }
  }

  /** A rating appears only on a completed order, and then the order has a driver. */
  lemma {:induction false} RatedOrdersAreCompleted(es: seq<Event>, o: string)
    requires Run(es).Some? && PerOrder(es) && o in Run(es).value.orders
    ensures var order := Run(es).value.orders[o];
      order.rating.Some? ==>
        1 <= order.rating.value <= 5 && order.status == Completed && order.driverId.Some?
  {
    RunKeepsLife(es);
    RunKeepsFields(es);
  }
}
