/** Who holds which driver, between claim and release. */
module OrderDrivers {
  import opened Prelude
  import opened Ledger
  import opened OrderTypes
  import opened OrderMachine
  import opened OrderMoney
  import opened OrderLifecycle

  // ----- In every interleaving -----

  /** The step is a claim that took driver `d`, whether or not the caller learned of it. */
  predicate Claims(e: Event, d: string) {
    e.Claim? && e.claimed == Some(d)
  }

  /** The step writes `available` into the status of driver `d`. */
  predicate SetsAvailable(s: State, e: Event, d: string) {
    || (e.DriverSets? && e.driver == d && e.status == Available)
    || (e.Release? && e.call in s.calls && EffectOf(s, s.calls[e.call], e).Some?
        && EffectOf(s, s.calls[e.call], e).value.driver == Some(d))
  }

  ghost predicate Taken(s: State, d: string) {
    d in s.drivers && s.drivers[d].status != Available
  }

  lemma EffectOnDriver(s: State, k: Call, e: Event)
    requires EffectOf(s, k, e).Some? && EffectOf(s, k, e).value.driver.Some?
    ensures e.Release? || (e.Claim? && e.claimed == EffectOf(s, k, e).value.driver
                           && EffectOf(s, k, e).value.driverStatus == OnTrip)
    ensures e.Claim? ==> e.claimed.value in s.drivers && s.drivers[e.claimed.value].status == Available
    ensures e.Release? ==> EffectOf(s, k, e).value.driverStatus == Available
  {
    hide Accepts;
  }

  lemma StaysTaken(s: State, s': State, e: Event, d: string)
    requires Step(s, e) == Some(s') && (Taken(s, d) || Claims(e, d))
    ensures Taken(s', d) || SetsAvailable(s, e, d)
  {
    hide Apply, Ledger.OpenWallet, StepCreate;
    if e.CreateOrder? {
      CreateLeavesDrivers(s, s', e);
    } else if !Outside(e) && !e.Act? {
      var f := EffectOf(s, s.calls[e.call], e).value;
      assert Claims(e, d) ==> f.driver == Some(d) && f.driverStatus == OnTrip && d in s.drivers by {
        hide Accepts;
      }
      if f.driver.Some? { EffectOnDriver(s, s.calls[e.call], e); }
      hide EffectOf;
    }
  }

  lemma ClaimNeedsAvailable(s: State, e: Event, d: string)
    requires Step(s, e).Some? && Claims(e, d)
    ensures !Taken(s, d)
  {
    EffectOnDriver(s, s.calls[e.call], e);
  }

  lemma {:induction false} TakenUntilSet(es: seq<Event>, i: nat, m: nat, d: string)
    requires Run(es).Some? && i < m <= |es| && Claims(es[i], d)
    requires forall k :: i < k < m && Run(es[..k]).Some? ==> !SetsAvailable(Run(es[..k]).value, es[k], d)
    ensures Run(es[..m]).Some? && Taken(Run(es[..m]).value, d)
  {
    PrefixGrows(es, m);
    PrefixGrows(es, m - 1);
    assert es[..m][..m - 1] == es[..m - 1];
    var s, s' := Run(es[..m - 1]).value, Run(es[..m]).value;
    if i < m - 1 { TakenUntilSet(es, i, m - 1, d); }
    StaysTaken(s, s', es[m - 1], d);
    assert m - 1 == i ==> !SetsAvailable(s, es[i], d);
  }

  /** Two claims of one driver are separated by a write of `available` to that driver. */
  lemma {:induction false} ClaimsAreSeparated(es: seq<Event>, i: nat, j: nat, d: string)
    requires Run(es).Some? && i < j < |es| && Claims(es[i], d) && Claims(es[j], d)
    ensures exists k :: i < k < j && Run(es[..k]).Some? && SetsAvailable(Run(es[..k]).value, es[k], d)
  {
    if !exists k :: i < k < j && Run(es[..k]).Some? && SetsAvailable(Run(es[..k]).value, es[k], d) {
      TakenUntilSet(es, i, j, d);
      hide Step, EffectOf, Taken, SetsAvailable, Grows;
      PrefixGrows(es, j + 1);
      assert es[..j + 1][..j] == es[..j];
      ClaimNeedsAvailable(Run(es[..j]).value, es[j], d);
    }
  }

  // ----- When calls on one order do not overlap -----

  predicate Active(o: Order) {
    o.status == DriverAssigned || o.status == InProgress
  }

  /** The call has set the driver free and is about to write a final status. */
  predicate PastRelease(p: Phase) {
    p.Writing? && p.released && p.target != InProgress
  }

  /** A call in this phase has claimed `d`, or is about to release it after a failed assignment. */
  predicate HasClaimed(p: Phase, d: string) {
    (p.Assigning? || p.Unassigning?) && p.driverId == d
  }

  /** Order `o` holds driver `d`: an in-flight CreateOrder claimed it, or the row is active with it. */
  ghost predicate Holds(s: State, o: string, d: string) {
    || (exists c :: c in s.calls && s.calls[c].orderId == o && HasClaimed(s.calls[c].phase, d))
    || (&& o in s.orders && Active(s.orders[o]) && s.orders[o].driverId == Some(d)
        && !exists c :: c in s.calls && s.calls[c].orderId == o && PastRelease(s.calls[c].phase))
  }

  /**
   The conditions of the claim: the status write after a release takes effect, an
   AssignDriver error means no effect, and a held driver does not set himself available.
   */
  ghost predicate Careful(s: State, e: Event) {
    && (e.Write? && e.call in s.calls && PastRelease(s.calls[e.call].phase) ==> !e.fate.NoEffect?)
    && (e.Assign? ==> !e.fate.LostAck?)
    && (e.DriverSets? && e.status == Available ==> forall o :: !Holds(s, o, e.driver))
  }

  ghost predicate CarefulRun(es: seq<Event>) {
    forall k :: 0 <= k < |es| && Run(es[..k]).Some? ==> Careful(Run(es[..k]).value, es[k])
  }

  ghost predicate HoldInv(s: State) {
    && (forall o, p, d :: Holds(s, o, d) && Holds(s, p, d) ==> o == p)
    && (forall o, d :: Holds(s, o, d) ==> Taken(s, d))
    && (forall c :: c in s.calls && s.calls[c].phase.Unassigning? && s.calls[c].orderId in s.orders ==>
          s.orders[s.calls[c].orderId].status == Created)
  }

  /** `Holds` for an order whose only in-flight call is in phase `p`. */
  predicate Keeps(orders: map<string, Order>, o: string, p: Phase, d: string) {
    || HasClaimed(p, d)
    || (o in orders && Active(orders[o]) && orders[o].driverId == Some(d) && !PastRelease(p))
  }

  lemma KeepsIsHolds(s: State, c: nat, d: string)
    requires c in s.calls
    requires forall x :: InFlight(s, x) && s.calls[x].orderId == s.calls[c].orderId ==> x == c
    ensures Holds(s, s.calls[c].orderId, d) <==> Keeps(s.orders, s.calls[c].orderId, s.calls[c].phase, d)
  {
  }

  /** One step of the only call on an order, in terms of that order alone. */
  lemma EffectOnHolds(s: State, k: Call, e: Event, d: string)
    requires EffectOf(s, k, e).Some? && SnapOk(s.orders, k.orderId, k.phase) && Careful(s, e)
    requires k.orderId in s.orders ==> LifeOk(s.orders[k.orderId])
    requires k.phase.Unassigning? ==> s.orders[k.orderId].status == Created
    requires e.Write? ==> e.call in s.calls && s.calls[e.call] == k
    ensures var f := EffectOf(s, k, e).value;
      var orders' := if f.row.Some? then s.orders[k.orderId := f.row.value] else s.orders;
      && (Keeps(orders', k.orderId, f.phase, d) ==> Keeps(s.orders, k.orderId, k.phase, d) || Claims(e, d))
      && (f.driver == Some(d) && !Claims(e, d) ==>
            Keeps(s.orders, k.orderId, k.phase, d) && !Keeps(orders', k.orderId, f.phase, d))
      && (f.phase.Unassigning? ==> k.orderId in orders' && orders'[k.orderId].status == Created)
  {
    hide Accepts;
  }

  lemma HoldsElsewhere(s: State, c: nat, f: Effect, o: string, d: string)
    requires c in s.calls && o != s.calls[c].orderId
    ensures Holds(Perform(s, c, f), o, d) <==> Holds(s, o, d)
  {
    var s' := Perform(s, c, f);
    assert forall x :: x in s.calls <==> x in s'.calls;
    assert forall x :: x in s.calls && s.calls[x].orderId == o ==> s'.calls[x] == s.calls[x];
    assert forall x :: x in s'.calls && s'.calls[x].orderId == o ==> s'.calls[x] == s.calls[x];
    hide Perform, Active, PastRelease, HasClaimed;
  }

  /** The step of a call: what it holds it held before or has just claimed; what it frees it no longer holds. */
  lemma CallOnHolds(s: State, s': State, e: Event, o: string, d: string)
    requires LifeInv(s) && Disjoint(s) && HoldInv(s) && Careful(s, e) && Step(s, e) == Some(s')
    requires !Outside(e) && !e.CreateOrder? && !e.Act?
    ensures var own := o == s.calls[e.call].orderId;
      && (Holds(s', o, d) ==> Holds(s, o, d) || (own && Claims(e, d)))
      && (SetsAvailable(s, e, d) && own ==> Holds(s, o, d) && !Holds(s', o, d))
  {
    var c := e.call;
    var k := s.calls[c];
    var f := EffectOf(s, k, e).value;
    if o == k.orderId {
      EffectInFlight(s, k, e);
      assert SnapOk(s.orders, k.orderId, k.phase) && (o in s.orders ==> LifeOk(s.orders[o]));
      EffectOnHolds(s, k, e, d);
      assert f.driver == Some(d) && Claims(e, d) ==> !e.Release?;
      hide EffectOf, LifeOk, SnapOk, LifeInv, HoldInv, Keeps, Holds, Careful;
      KeepsIsHolds(s, c, d);
      KeepsIsHolds(s', c, d);
    } else {
      HoldsElsewhere(s, c, f, o, d);
    }
  }

  lemma CallUnassigns(s: State, s': State, e: Event, x: nat)
    requires LifeInv(s) && Disjoint(s) && HoldInv(s) && Careful(s, e) && Step(s, e) == Some(s')
    requires !Outside(e) && !e.CreateOrder? && !e.Act?
    requires x in s'.calls && s'.calls[x].phase.Unassigning?
    ensures s'.calls[x].orderId in s'.orders && s'.orders[s'.calls[x].orderId].status == Created
  {
    var c := e.call;
    var k := s.calls[c];
    EffectInFlight(s, k, e);
    assert SnapOk(s.orders, k.orderId, k.phase) && (k.orderId in s.orders ==> LifeOk(s.orders[k.orderId]));
    if x == c {
      EffectOnHolds(s, k, e, "");
      hide EffectOf, LifeOk, SnapOk, LifeInv, HoldInv, Keeps, Careful;
    } else {
      assert InFlight(s, x) && SnapOk(s.orders, s.calls[x].orderId, s.calls[x].phase);
      hide EffectOf, LifeOk, LifeInv, Careful;
    }
  }

  lemma OutsideLeavesOrders(s: State, s': State, e: Event)
    requires Step(s, e) == Some(s') && Outside(e)
    ensures s'.orders == s.orders && s'.calls == s.calls
  {
    hide Apply, Ledger.OpenWallet;
  }

  lemma NewCallIsEarly(s: State, s': State, e: Event)
    requires Step(s, e) == Some(s') && (e.CreateOrder? || e.Act?)
    ensures e.call !in s.calls && e.call in s'.calls && s'.orders == s.orders
    ensures s'.calls == s.calls[e.call := s'.calls[e.call]]
    ensures var p := s'.calls[e.call].phase; p.Charging? || p.Reading? || p.Done?
  {
    if e.CreateOrder? {
      CreateFrame(s, s', e.call, e.orderId, e.input, e.price);
      hide StepCreate;
    }
  }

  /** A new call, or anything done outside order_service, changes nobody's holdings. */
  lemma OthersOnHolds(s: State, s': State, e: Event, o: string, d: string)
    requires Step(s, e) == Some(s') && (Outside(e) || e.CreateOrder? || e.Act?)
    ensures Holds(s', o, d) <==> Holds(s, o, d)
    ensures s'.orders == s.orders
    ensures forall x :: x in s'.calls && s'.calls[x].phase.Unassigning? ==> x in s.calls && s.calls[x] == s'.calls[x]
  {
    if Outside(e) {
      OutsideLeavesOrders(s, s', e);
      hide Step;
    } else {
      NewCallIsEarly(s, s', e);
      hide Step;
      assert forall x :: x in s.calls ==> x in s'.calls && s'.calls[x] == s.calls[x];
    }
  }

  lemma StepKeepsHolds(s: State, s': State, e: Event)
    requires LifeInv(s) && Disjoint(s) && HoldInv(s) && Careful(s, e) && Step(s, e) == Some(s')
    ensures HoldInv(s')
  {
    var quiet := Outside(e) || e.CreateOrder? || e.Act?;
    forall o, d | Holds(s', o, d) ensures Holds(s, o, d) || (!quiet && o == s.calls[e.call].orderId && Claims(e, d)) {
      if quiet { OthersOnHolds(s, s', e, o, d); } else { CallOnHolds(s, s', e, o, d); }
    }
    forall o, p, d | Holds(s', o, d) && Holds(s', p, d) ensures o == p {
      if Claims(e, d) && !quiet { ClaimNeedsAvailable(s, e, d); }
      hide Holds, Step, Careful, Taken;
    }
    forall o, d | Holds(s', o, d) ensures Taken(s', d) {
      StaysTaken(s, s', e, d);
      if SetsAvailable(s, e, d) {
        if quiet {
          OthersOnHolds(s, s', e, o, d);
        } else {
          CallOnHolds(s, s', e, s.calls[e.call].orderId, d);
          CallOnHolds(s, s', e, o, d);
        }
      }
      hide Holds, Step, LifeInv, Disjoint, Taken;
    }
    forall x | x in s'.calls && s'.calls[x].phase.Unassigning? && s'.calls[x].orderId in s'.orders
      ensures s'.orders[s'.calls[x].orderId].status == Created
    {
      if quiet { OthersOnHolds(s, s', e, "", ""); } else { CallUnassigns(s, s', e, x); }
    }
    hide Holds, Step, Careful, Taken, LifeInv, Disjoint;
  }

  lemma {:induction false} RunKeepsHolds(es: seq<Event>)
    requires Run(es).Some? && PerOrder(es) && CarefulRun(es)
    ensures HoldInv(Run(es).value)
  {
    if es != [] {
      var shorter := es[..|es| - 1];
      assert es[..|shorter|] == shorter;
      assert forall k :: 0 <= k < |shorter| ==> shorter[..k] == es[..k] && shorter[k] == es[k];
      PerOrderShorter(es);
      RunKeepsHolds(shorter);
      RunKeepsLife(shorter);
      StepKeepsHolds(Run(shorter).value, Run(es).value, es[|es| - 1]);
    }
  }

  /**
   Active orders have pairwise distinct drivers, none of them available, except
   while a call has set the driver free and is about to write the final status.
   */
  lemma {:induction false} ActiveOrdersHaveTheirOwnDrivers(es: seq<Event>, o: string, p: string)
    requires Run(es).Some? && PerOrder(es) && CarefulRun(es)
    requires var s := Run(es).value;
      && o in s.orders && p in s.orders && Active(s.orders[o]) && Active(s.orders[p])
      && forall c :: InFlight(s, c) && s.calls[c].orderId in {o, p} ==> !PastRelease(s.calls[c].phase)
    ensures var s := Run(es).value;
      && s.orders[o].driverId.Some? && s.orders[o].driverId.value in s.drivers
      && s.drivers[s.orders[o].driverId.value].status != Available
      && (o != p ==> s.orders[o].driverId != s.orders[p].driverId)
  {
    RunKeepsHolds(es);
    RunKeepsLife(es);
    var s := Run(es).value;
    assert LifeOk(s.orders[o]) && LifeOk(s.orders[p]);
    assert Holds(s, o, s.orders[o].driverId.value);
    assert Holds(s, p, s.orders[p].driverId.value);
    hide Holds, LifeInv;
  }

  /**
   The exception is real: a release leaves the order active, and from then on its
   driver is available if and only if the release took effect.
   */
  lemma {:induction false} ReleaseFreesActiveDriver(es: seq<Event>, c: nat, took: bool)
    requires Run(es).Some? && PerOrder(es) && CarefulRun(es)
    requires c in Run(es).value.calls && Run(es).value.calls[c].phase.Releasing?
    ensures var s, o := Run(es).value, Run(es).value.calls[c].orderId;
      && Step(s, Release(c, took)).Some?
      && var s' := Step(s, Release(c, took)).value;
      && o in s'.orders && Active(s'.orders[o])
      && s'.orders[o].driverId.Some? && s'.orders[o].driverId.value in s'.drivers
      && (s'.drivers[s'.orders[o].driverId.value].status == Available <==> took)
  {
    RunKeepsHolds(es);
    RunKeepsLife(es);
    var s := Run(es).value;
    assert es[..|es|] == es && Disjoint(s);
    assert SnapOk(s.orders, s.calls[c].orderId, s.calls[c].phase) && InFlight(s, c);
    assert s.calls[c].orderId in s.orders ==> LifeOk(s.orders[s.calls[c].orderId]);
    hide LifeInv, Run, PerOrder, CarefulRun;
    ReleasingHolds(s, c);
    hide Holds, SnapOk, Disjoint, LifeOk;
  }

  lemma ReleasingHolds(s: State, c: nat)
    requires Disjoint(s) && InFlight(s, c) && s.calls[c].phase.Releasing?
    requires SnapOk(s.orders, s.calls[c].orderId, s.calls[c].phase)
    requires s.calls[c].orderId in s.orders ==> LifeOk(s.orders[s.calls[c].orderId])
    ensures var o, order := s.calls[c].orderId, s.calls[c].phase.order;
      && o in s.orders && s.orders[o] == order && Active(order) && order.driverId.Some?
      && Holds(s, o, order.driverId.value)
  {
    KeepsIsHolds(s, c, s.calls[c].phase.order.driverId.value);
  }

  // ----- No driver is stranded -----

  /** Claims are acknowledged, releases take effect, and drivers do not put themselves on a trip. */
  predicate Tidy(e: Event) {
    && (e.Claim? && e.claimed.Some? ==> e.acked)
    && (e.Release? ==> e.took)
    && (e.DriverSets? ==> e.status != OnTrip)
  }

  predicate OnATrip(s: State, d: string) {
    d in s.drivers && s.drivers[d].status == OnTrip
  }

  /** A final status is written after a release that took effect, or there was no driver. */
  predicate Freed(p: Phase) {
    p.Writing? && p.target != InProgress && !p.released ==> p.order.driverId.None?
  }

  /** What an order holds it keeps, unless this step releases it; and a claim is held. */
  lemma EffectKeepsHold(s: State, k: Call, e: Event, d: string)
    requires EffectOf(s, k, e).Some? && SnapOk(s.orders, k.orderId, k.phase) && Tidy(e) && Freed(k.phase)
    requires k.orderId in s.orders ==> LifeOk(s.orders[k.orderId])
    ensures var f := EffectOf(s, k, e).value;
      var orders' := if f.row.Some? then s.orders[k.orderId := f.row.value] else s.orders;
      && (Keeps(s.orders, k.orderId, k.phase, d) ==> Keeps(orders', k.orderId, f.phase, d) || f.driver == Some(d))
      && (Claims(e, d) ==> Keeps(orders', k.orderId, f.phase, d))
      && Freed(f.phase)
  {
    hide Accepts;
  }

  lemma OnTripBefore(s: State, s': State, e: Event, d: string)
    requires Step(s, e) == Some(s') && Tidy(e) && OnATrip(s', d)
    ensures OnATrip(s, d) || Claims(e, d)
  {
    hide Apply, Ledger.OpenWallet, StepCreate;
    if e.CreateOrder? {
      CreateLeavesDrivers(s, s', e);
    } else if !Outside(e) && !e.Act? {
      var f := EffectOf(s, s.calls[e.call], e).value;
      if f.driver.Some? { EffectOnDriver(s, s.calls[e.call], e); }
      hide EffectOf;
    }
  }

  /** A released driver is available after the step. */
  lemma ReleasedIsOffTrip(s: State, s': State, e: Event, d: string)
    requires Step(s, e) == Some(s') && SetsAvailable(s, e, d)
    ensures !OnATrip(s', d)
  {
    hide Apply, Ledger.OpenWallet, StepCreate;
    if e.Release? {
      EffectOnDriver(s, s.calls[e.call], e);
      hide EffectOf;
    }
  }

  lemma CallKeepsHold(s: State, s': State, e: Event, o: string, d: string)
    requires LifeInv(s) && Disjoint(s) && Tidy(e) && Unstranded(s) && Step(s, e) == Some(s') && OnATrip(s', d)
    requires !Outside(e) && !e.CreateOrder? && !e.Act?
    requires if Claims(e, d) then o == s.calls[e.call].orderId else Holds(s, o, d)
    ensures Holds(s', o, d)
  {
    var c := e.call;
    var k := s.calls[c];
    var f := EffectOf(s, k, e).value;
    if o == k.orderId {
      EffectInFlight(s, k, e);
      assert SnapOk(s.orders, k.orderId, k.phase) && (o in s.orders ==> LifeOk(s.orders[o]));
      EffectKeepsHold(s, k, e, d);
      assert f.driver == Some(d) && !Claims(e, d) ==> SetsAvailable(s, e, d) by {
        if f.driver.Some? { EffectOnDriver(s, k, e); }
        hide EffectOf;
      }
      if SetsAvailable(s, e, d) { ReleasedIsOffTrip(s, s', e, d); }
      hide EffectOf, LifeOk, SnapOk, LifeInv, Keeps, Holds, SetsAvailable;
      KeepsIsHolds(s, c, d);
      KeepsIsHolds(s', c, d);
    } else {
      HoldsElsewhere(s, c, f, o, d);
    }
  }

  ghost predicate Unstranded(s: State) {
    && (forall d :: OnATrip(s, d) ==> exists o :: Holds(s, o, d))
    && (forall c :: c in s.calls ==> Freed(s.calls[c].phase))
  }

  lemma StepKeepsFreed(s: State, s': State, e: Event)
    requires LifeInv(s) && Tidy(e) && Step(s, e) == Some(s') && Unstranded(s)
    ensures forall c :: c in s'.calls ==> Freed(s'.calls[c].phase)
  {
    if Outside(e) {
      OutsideLeavesOrders(s, s', e);
      hide Step;
    } else if e.CreateOrder? || e.Act? {
      NewCallIsEarly(s, s', e);
      hide Step;
    } else {
      var k := s.calls[e.call];
      assert k.orderId in s.orders ==> LifeOk(s.orders[k.orderId]);
      EffectKeepsHold(s, k, e, "");
      hide EffectOf, Holds, LifeInv;
    }
  }

  lemma StepKeepsUnstranded(s: State, s': State, e: Event)
    requires LifeInv(s) && Disjoint(s) && Tidy(e) && Step(s, e) == Some(s') && Unstranded(s)
    ensures Unstranded(s')
  {
    var quiet := Outside(e) || e.CreateOrder? || e.Act?;
    assert !quiet ==> e.call in s.calls;
    StepKeepsFreed(s, s', e);
    hide Holds, Step, LifeInv, Disjoint;
    forall d | OnATrip(s', d) ensures exists o :: Holds(s', o, d) {
      OnTripBefore(s, s', e, d);
      if Claims(e, d) && !quiet {
        CallKeepsHold(s, s', e, s.calls[e.call].orderId, d);
      } else {
        var o :| Holds(s, o, d);
        if quiet { OthersOnHolds(s, s', e, o, d); } else { CallKeepsHold(s, s', e, o, d); }
      }
    }
  }

  lemma {:induction false} NoDriverIsStranded(es: seq<Event>)
    requires Run(es).Some? && PerOrder(es) && (forall e :: e in es ==> Tidy(e))
    ensures Unstranded(Run(es).value)
  {
    if es != [] {
      var shorter := es[..|es| - 1];
      assert es[..|shorter|] == shorter && es[|es| - 1] in es;
      PerOrderShorter(es);
      NoDriverIsStranded(shorter);
      RunKeepsLife(shorter);
      StepKeepsUnstranded(Run(shorter).value, Run(es).value, es[|es| - 1]);
    }
  }

  /** With nothing in flight, a driver is on a trip only for an active order of his. */
  lemma {:induction false} BusyDriversHaveAnOrder(es: seq<Event>, d: string)
    requires Run(es).Some? && PerOrder(es) && (forall e :: e in es ==> Tidy(e))
    requires OnATrip(Run(es).value, d) && forall c :: !InFlight(Run(es).value, c)
    ensures var s := Run(es).value;
      exists o :: o in s.orders && Active(s.orders[o]) && s.orders[o].driverId == Some(d)
  {
    NoDriverIsStranded(es);
    var o :| Holds(Run(es).value, o, d);
    forall c | c in Run(es).value.calls ensures Run(es).value.calls[c].phase.Done? {
      assert !InFlight(Run(es).value, c);
    }
  }
}
