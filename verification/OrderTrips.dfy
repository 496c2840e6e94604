/**
 What is ordered is what is driven: in every interleaving a row bears the trip of
 the CreateOrder call that stored it, and keeps it; a driver, once set, stays.
 */
module OrderTrips {
  import opened Prelude
  import opened Ledger
  import opened OrderTypes
  import opened OrderMachine
  import opened OrderMoney
  import opened OrderLifecycle
  import opened OrderIndex

  /** A later version of the same order: what was ordered is unchanged, and so is the driver if there was one. */
  predicate SameTrip(a: Order, b: Order) {
    && b.id == a.id && b.userId == a.userId && b.taxiType == a.taxiType && b.start == a.start
    && b.destination == a.destination && b.price == a.price && b.createdAt == a.createdAt
    && (a.driverId.Some? ==> b.driverId == a.driverId)
  }

  // ----- The call that creates an order -----

  /** The phases of CreateOrder before its order can have a driver. */
  predicate Creating(p: Phase) {
    p.Charging? || p.Inserting? || p.Compensating? || p.Indexing? || p.Claiming? || p.Assigning?
  }

  predicate CreatorOk(s: State, o: string, p: Phase) {
    Creating(p) ==>
      && o in s.bills && (o in s.orders ==> s.orders[o].driverId.None?)
      && (p.Charging? || p.Inserting? ==> o !in s.orders)
      && (p.Indexing? || p.Claiming? || p.Assigning? ==> o in s.orders)
  }

  predicate Creates(s: State, c: nat) {
    c in s.calls && Creating(s.calls[c].phase)
  }

  /** One call at most creates an order, and until it assigns a driver the order has none. */
  ghost predicate CreatorInv(s: State) {
    && (forall o :: o in s.orders ==> o in s.bills)
    && (forall c :: c in s.calls ==> CreatorOk(s, s.calls[c].orderId, s.calls[c].phase))
    && (forall c, d :: Creates(s, c) && Creates(s, d) && s.calls[c].orderId == s.calls[d].orderId ==> c == d)
  }

  /** The row that an INSERT stores is the trip of the input, at the billed price and without a driver. */
  predicate Fresh(row: Order, o: string, input: Input, bill: Bill) {
    && row.id == o && row.userId == input.userId && row.taxiType == input.taxiType
    && row.start == input.start && row.destination == input.destination
    && row.price == Some(bill.price) && row.driverId.None? && row.status == Created
  }

  /** A step writes the row of a new order in its INSERT, and a later version of it otherwise. */
  ghost predicate TripEffect(s: State, k: Call, e: Event, f: Effect) {
    var o := k.orderId;
    && (Creating(f.phase) ==> Creating(k.phase) && (f.row.Some? ==> f.row.value.driverId.None?))
    && CreatorOk(s.(orders := if f.row.Some? then s.orders[o := f.row.value] else s.orders), o, f.phase)
    && (f.row.Some? ==>
          if o in s.orders then
            SameTrip(s.orders[o], f.row.value) && (!k.phase.Assigning? ==> f.row.value.driverId == s.orders[o].driverId)
          else && e.Insert? && k.phase.Inserting? && o in s.bills && f.row.value.createdAt == e.now
               && Fresh(f.row.value, o, k.phase.input, s.bills[o]))
  }

  lemma WriteKeepsTrip(s: State, k: Call, now: int, fate: Fate)
    requires CreatorOk(s, k.orderId, k.phase)
    ensures Assigned(s, k, now, fate).Some? ==> TripEffect(s, k, Assign(0, now, fate), Assigned(s, k, now, fate).value)
    ensures Written(s, k, now, fate).Some? ==> TripEffect(s, k, Write(0, now, fate), Written(s, k, now, fate).value)
    ensures Rated(s, k, now, fate).Some? ==> TripEffect(s, k, RateRow(0, now, fate), Rated(s, k, now, fate).value)
  {
  }

  lemma InsertKeepsTrip(s: State, k: Call, now: int, fate: Fate)
    requires CreatorOk(s, k.orderId, k.phase)
    ensures Inserted(s, k, now, fate).Some? ==> TripEffect(s, k, Insert(0, now, fate), Inserted(s, k, now, fate).value)
  {
  }

  lemma EffectKeepsTrip(s: State, k: Call, e: Event)
    requires CreatorOk(s, k.orderId, k.phase) && EffectOf(s, k, e).Some?
    ensures TripEffect(s, k, e, EffectOf(s, k, e).value)
  {
    hide Accepts, Assigned, Written, Rated, Inserted;
    match e
    case Insert(_, now, fate) => InsertKeepsTrip(s, k, now, fate);
    case Assign(_, now, fate) => WriteKeepsTrip(s, k, now, fate);
    case Write(_, now, fate) => WriteKeepsTrip(s, k, now, fate);
    case RateRow(_, now, fate) => WriteKeepsTrip(s, k, now, fate);
    case _ =>
  }

  lemma CallKeepsCreators(s: State, c: nat, e: Event, f: Effect)
    requires CreatorInv(s) && c in s.calls && TripEffect(s, s.calls[c], e, f)
    requires f.row.Some? ==> s.calls[c].orderId in s.bills
    ensures CreatorInv(Perform(s, c, f))
  {
    var s', o := Perform(s, c, f), s.calls[c].orderId;
    hide SameTrip, Fresh;
    forall d | d in s'.calls ensures CreatorOk(s', s'.calls[d].orderId, s'.calls[d].phase) {
      if d != c {
        assert CreatorOk(s, s.calls[d].orderId, s.calls[d].phase);
        if s.calls[d].orderId == o && Creating(s.calls[d].phase) { OtherIsNoCreator(s, c, d, e, f); }
      }
    }
  }

  /** A call that writes a row leaves no other call creating the order. */
  lemma OtherIsNoCreator(s: State, c: nat, d: nat, e: Event, f: Effect)
    requires CreatorInv(s) && c in s.calls && d != c && TripEffect(s, s.calls[c], e, f)
    requires Creates(s, d) && s.calls[d].orderId == s.calls[c].orderId
    ensures f.row.Some? ==> s.calls[c].orderId in s.orders && f.row.value.driverId.None?
  {
    hide SameTrip, Fresh;
    assert CreatorOk(s, s.calls[d].orderId, s.calls[d].phase);
    assert !Creates(s, c);
  }

  lemma CreateKeepsCreators(s: State, s': State, e: Event)
    requires CreatorInv(s) && Step(s, e) == Some(s') && e.CreateOrder?
    ensures CreatorInv(s')
  {
    CreateFrame(s, s', e.call, e.orderId, e.input, e.price);
    CreateBills(s, s', e);
    hide Step, StepCreate;
    var c := e.call;
    assert s'.calls[c].phase.Charging? ==> e.orderId !in s.bills;
    assert !s'.calls[c].phase.Charging? ==> s'.calls[c].phase.Done?;
    hide FreshOrderId;
    forall d | d in s'.calls ensures CreatorOk(s', s'.calls[d].orderId, s'.calls[d].phase) {
      if d != c { assert CreatorOk(s, s.calls[d].orderId, s.calls[d].phase); }
    }
    forall d | Creates(s', d) && d != c ensures Creates(s, d) && s.calls[d].orderId in s.bills {
      assert CreatorOk(s, s.calls[d].orderId, s.calls[d].phase);
    }
    hide CreatorOk, Creating;
  }

  lemma CreateBills(s: State, s': State, e: Event)
    requires Step(s, e) == Some(s') && e.CreateOrder?
    ensures forall o :: o in s.bills ==> o in s'.bills && s'.bills[o] == s.bills[o]
    ensures s'.calls[e.call].phase.Charging? ==>
      e.orderId in s'.bills && s'.bills[e.orderId] == Bill(e.input.userId, e.price)
  {
  }

  /** Events that are neither steps of order calls nor new orders. */
  lemma QuietFrame(s: State, s': State, e: Event)
    requires Step(s, e) == Some(s') && CallEffect(s, e).None? && !e.CreateOrder?
    ensures s'.bills == s.bills && s'.orders == s.orders
    ensures forall d :: d in s.calls ==> d in s'.calls && s'.calls[d] == s.calls[d]
    ensures forall d :: d in s'.calls && d !in s.calls ==> !Creating(s'.calls[d].phase)
  {
    hide EffectOf, Apply, Ledger.OpenWallet, FreshWalletId;
  }

  lemma QuietKeepsCreators(s: State, s': State, e: Event)
    requires CreatorInv(s) && Step(s, e) == Some(s') && CallEffect(s, e).None? && !e.CreateOrder?
    ensures CreatorInv(s')
  {
    QuietFrame(s, s', e);
    hide Step, CallEffect;
    forall d | d in s'.calls ensures CreatorOk(s', s'.calls[d].orderId, s'.calls[d].phase) {
      if d in s.calls { assert CreatorOk(s, s.calls[d].orderId, s.calls[d].phase); }
    }
    assert forall d :: Creates(s', d) ==> Creates(s, d) && s.calls[d] == s'.calls[d];
  }

  lemma StepKeepsCreators(s: State, s': State, e: Event)
    requires CreatorInv(s) && Step(s, e) == Some(s')
    ensures CreatorInv(s')
  {
    if CallEffect(s, e).Some? {
      var c, f := e.call, CallEffect(s, e).value;
      assert CreatorOk(s, s.calls[c].orderId, s.calls[c].phase);
      EffectKeepsTrip(s, s.calls[c], e);
      hide EffectOf, CreatorOk, SameTrip, Fresh;
      CallKeepsCreators(s, c, e, f);
      hide Perform;
    } else if e.CreateOrder? {
      CreateKeepsCreators(s, s', e);
    } else {
      QuietKeepsCreators(s, s', e);
    }
  }

  lemma {:induction false} RunKeepsCreators(es: seq<Event>)
    requires Run(es).Some?
    ensures CreatorInv(Run(es).value)
  {
    if es != [] {
      RunKeepsCreators(es[..|es| - 1]);
      StepKeepsCreators(Run(es[..|es| - 1]).value, Run(es).value, es[|es| - 1]);
    }
  }

  // ----- The trip is kept -----

  lemma StepKeepsTrip(s: State, s': State, e: Event, o: string)
    requires CreatorInv(s) && Step(s, e) == Some(s') && o in s.orders
    ensures o in s'.orders && SameTrip(s.orders[o], s'.orders[o])
  {
    if CallEffect(s, e).Some? {
      var k := s.calls[e.call];
      assert CreatorOk(s, k.orderId, k.phase);
      EffectKeepsTrip(s, k, e);
      hide EffectOf, CreatorOk, Fresh;
    } else {
      QuietStep(s, s', e);
      hide Step;
    }
  }

  /**
   In every interleaving an order keeps its rider, taxi type, start, destination,
   price and creation time from its INSERT on, and its driver once it has one.
   */
  lemma {:induction false} TripsNeverChange(es: seq<Event>, k: nat, o: string)
    requires Run(es).Some? && k <= |es|
    requires Run(es[..k]).Some? ==> o in Run(es[..k]).value.orders
    ensures Run(es[..k]).Some? && o in Run(es).value.orders
    ensures var early, late := Run(es[..k]).value.orders[o], Run(es).value.orders[o];
      && late.id == early.id && late.userId == early.userId && late.taxiType == early.taxiType
      && late.start == early.start && late.destination == early.destination
      && late.price == early.price && late.createdAt == early.createdAt
      && (early.driverId.Some? ==> late.driverId == early.driverId)
  {
    PrefixGrows(es, k);
    if k == |es| {
      assert es[..k] == es;
    } else {
      var shorter := es[..|es| - 1];
      assert shorter[..k] == es[..k];
      TripsNeverChange(shorter, k, o);
      RunKeepsCreators(shorter);
      StepKeepsTrip(Run(shorter).value, Run(es).value, es[|es| - 1], o);
      hide Step, CreatorInv;
    }
  }

  // ----- The trip is the one that was ordered -----

  /** This CreateOrder event ordered the trip of the row, and this INSERT stored it. */
  predicate OrderedBy(c: nat, input: Input, price: Int64, fate: Fate, es: seq<Event>, row: Order) {
    && CreateOrder(c, row.id, input, price) in es && Insert(c, row.createdAt, fate) in es
    && row.userId == input.userId && row.taxiType == input.taxiType
    && row.start == input.start && row.destination == input.destination && row.price == Some(price)
  }

  ghost predicate WasOrdered(es: seq<Event>, row: Order) {
    exists c: nat, input: Input, price: Int64, fate: Fate :: OrderedBy(c, input, price, fate, es, row)
  }

  /** A call that is about to pay or to insert works on the input and the bill of its own CreateOrder event. */
  ghost predicate InputOk(es: seq<Event>, s: State, c: nat) {
    c in s.calls && (s.calls[c].phase.Charging? || s.calls[c].phase.Inserting?) ==>
      && s.calls[c].orderId in s.bills
      && CreateOrder(c, s.calls[c].orderId, s.calls[c].phase.input, s.bills[s.calls[c].orderId].price) in es
      && s.bills[s.calls[c].orderId].userId == s.calls[c].phase.input.userId
  }

  ghost predicate OrderedInv(es: seq<Event>, s: State) {
    && (forall c :: InputOk(es, s, c))
    && (forall o :: o in s.orders ==> s.orders[o].id == o && WasOrdered(es, s.orders[o]))
  }

  lemma {:induction false} OrderedStays(es: seq<Event>, e: Event, early: Order, late: Order)
    requires WasOrdered(es, early) && SameTrip(early, late)
    ensures WasOrdered(es + [e], late)
  {
    var c: nat, input: Input, price: Int64, fate: Fate :| OrderedBy(c, input, price, fate, es, early);
    assert OrderedBy(c, input, price, fate, es + [e], late);
  }

  lemma {:induction false} InsertIsOrdered(es: seq<Event>, s: State, e: Event)
    requires e.Insert? && InputOk(es, s, e.call)
    requires e.call in s.calls && s.calls[e.call].phase.Inserting? && s.calls[e.call].orderId in s.bills
    ensures forall row: Order :: row.createdAt == e.now
                          && Fresh(row, s.calls[e.call].orderId, s.calls[e.call].phase.input, s.bills[s.calls[e.call].orderId])
                          ==> WasOrdered(es + [e], row)
  {
    var k := s.calls[e.call];
    forall row: Order | row.createdAt == e.now && Fresh(row, k.orderId, k.phase.input, s.bills[k.orderId])
      ensures WasOrdered(es + [e], row)
    {
      assert OrderedBy(e.call, k.phase.input, s.bills[k.orderId].price, e.fate, es + [e], row);
    }
  }

  /** A step leaves the input of a call alone, or the call is past its INSERT. */
  lemma EffectKeepsInput(s: State, k: Call, e: Event)
    requires EffectOf(s, k, e).Some?
    ensures var p := EffectOf(s, k, e).value.phase;
      !p.Charging? && (p.Inserting? ==> k.phase.Charging? && p.input == k.phase.input)
  {
    hide Accepts;
  }

  lemma {:induction false} StepKeepsInput(es: seq<Event>, e: Event, s: State, s': State, c: nat)
    requires Step(s, e) == Some(s') && InputOk(es, s, c)
    ensures InputOk(es + [e], s', c)
  {
    assert e in es + [e] && forall x :: x in es ==> x in es + [e];
    if CallEffect(s, e).Some? {
      EffectKeepsInput(s, s.calls[e.call], e);
      hide EffectOf;
    } else if e.CreateOrder? {
      CreateFrame(s, s', e.call, e.orderId, e.input, e.price);
      CreateBills(s, s', e);
      hide StepCreate;
    } else {
      QuietFrame(s, s', e);
      hide Step;
    }
  }

  lemma {:induction false} StepKeepsOrdered(es: seq<Event>, e: Event, s: State, s': State, o: string)
    requires CreatorInv(s) && OrderedInv(es, s) && Step(s, e) == Some(s') && o in s'.orders
    ensures s'.orders[o].id == o && WasOrdered(es + [e], s'.orders[o])
  {
    if o in s.orders {
      StepKeepsTrip(s, s', e, o);
      OrderedStays(es, e, s.orders[o], s'.orders[o]);
    } else if CallEffect(s, e).Some? {
      var k := s.calls[e.call];
      assert CreatorOk(s, k.orderId, k.phase) && InputOk(es, s, e.call);
      EffectKeepsTrip(s, k, e);
      hide EffectOf, WasOrdered, SameTrip, InputOk;
      if e.Insert? { InsertIsOrdered(es, s, e); }
    } else {
      QuietStep(s, s', e);
      hide Step;
    }
  }

  lemma {:induction false} RunKeepsOrdered(es: seq<Event>)
    requires Run(es).Some?
    ensures OrderedInv(es, Run(es).value)
  {
    if es != [] {
      var shorter, e := es[..|es| - 1], es[|es| - 1];
      var s, s' := Run(shorter).value, Run(es).value;
      RunKeepsOrdered(shorter);
      RunKeepsCreators(shorter);
      assert es == shorter + [e];
      hide Run, Step, WasOrdered, InputOk, CreatorInv;
      forall c ensures InputOk(es, s', c) { StepKeepsInput(shorter, e, s, s', c); }
      forall o | o in s'.orders ensures s'.orders[o].id == o && WasOrdered(es, s'.orders[o]) {
        StepKeepsOrdered(shorter, e, s, s', o);
      }
    }
  }

  /**
   In every interleaving each stored order is the trip that one CreateOrder asked
   for: its rider, taxi type, start, destination and price, stored when it says.
   */
  lemma {:induction false} StoredTripWasOrdered(es: seq<Event>, o: string)
    requires Run(es).Some? && o in Run(es).value.orders
    ensures exists c: nat, input: Input, price: Int64, fate: Fate ::
      OrderedBy(c, input, price, fate, es, Run(es).value.orders[o])
    ensures Run(es).value.orders[o].id == o
  {
    RunKeepsOrdered(es);
    hide Run;
  }
}
