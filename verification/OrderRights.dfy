/**
 Who may act on an order: the rider cancels and rates, the assigned driver starts
 and completes, each only in the right status of the row that the call has read.
 A call that may not act writes no row, asks for no refund and frees no driver.
 */
module OrderRights {
  import opened Prelude
  import opened Ledger
  import opened OrderTypes
  import opened OrderMachine
  import opened OrderMoney
  import opened OrderLifecycle
  import opened OrderIndex
  import opened OrderTrips

  predicate May(action: Action, order: Order) {
    match action
    case Cancel(u) => order.userId == u && (order.status == Created || order.status == DriverAssigned)
    case Start(d) => order.driverId == Some(d) && order.status == DriverAssigned
    case Complete(d) => order.driverId == Some(d) && order.status == InProgress
    case Rate(u, rating, _) =>
      order.userId == u && order.status == Completed && order.rating.None? && 1 <= rating <= 5
  }

  /** Any other order is refused at once, and one that is not the caller's as if it did not exist. */
  lemma GateOpensIffAllowed(action: Action, order: Order)
    requires ValidRating(action)
    ensures May(action, order) <==> !Gate(action, order).Done?
    ensures Gate(action, order).Done? ==> Gate(action, order).answer.Refused?
    ensures Gate(action, order) == Done(Refused(OrderNotFound)) <==> match action
      case Cancel(u) => order.userId != u
      case Start(d) => order.driverId != Some(d)
      case Complete(d) => order.driverId != Some(d)
      case Rate(u, _, _) => order.userId != u
  {
  }

  // ----- What a call has read -----

  /** Call `c` read this version of order `o` at event `k`. */
  predicate ReadAt(es: seq<Event>, k: nat, c: nat, o: string, order: Order) {
    && k < |es| && es[k] == Read(c, true) && Run(es[..k]).Some?
    && o in Run(es[..k]).value.orders && Run(es[..k]).value.orders[o] == order
  }

  /** The call has read a version of the order with which it may do what it was asked for. */
  ghost predicate Allowed(es: seq<Event>, c: nat, o: string, action: Action, order: Order) {
    May(action, order) && exists k: nat :: ReadAt(es, k, c, o, order)
  }

  ghost predicate Admitted(es: seq<Event>, c: nat, o: string, action: Action) {
    exists order :: Allowed(es, c, o, action, order)
  }

  function Goal(action: Action): Status {
    match action
    case Cancel(_) => Cancelled
    case Start(_) => InProgress
    case Complete(_) => Completed
    case Rate(_, _, _) => Completed
  }

  ghost predicate PhaseRights(es: seq<Event>, c: nat, o: string, action: Action, p: Phase) {
    match p
    case Reading(a) => a == action && ValidRating(action)
    case Refunding(order) => action.Cancel? && Allowed(es, c, o, action, order)
    case Releasing(order, t) => (action.Cancel? || action.Complete?) && t == Goal(action) && Allowed(es, c, o, action, order)
    case Writing(order, t, _) => !action.Rate? && t == Goal(action) && Allowed(es, c, o, action, order)
    case RatingRow(order, rating, comment) =>
      && action.Rate? && action.rating == rating && action.comment == comment && Allowed(es, c, o, action, order)
    case IndexingLast(_) => Admitted(es, c, o, action)
    case Done(answer) => answer.Returned? ==> Admitted(es, c, o, action)
    case _ => false
  }

  ghost predicate RightsOk(es: seq<Event>, s: State, c: nat, o: string, action: Action) {
    Act(c, o, action) in es ==>
      c in s.calls && s.calls[c].orderId == o && PhaseRights(es, c, o, action, s.calls[c].phase)
  }

  ghost predicate RightsInv(es: seq<Event>, s: State) {
    forall c, o, action :: RightsOk(es, s, c, o, action)
  }

  lemma {:induction false} AllowedStays(es: seq<Event>, e: Event, c: nat, o: string, action: Action, order: Order)
    requires Allowed(es, c, o, action, order)
    ensures Allowed(es + [e], c, o, action, order)
  {
    var k: nat :| ReadAt(es, k, c, o, order);
    assert (es + [e])[..k] == es[..k];
    assert ReadAt(es + [e], k, c, o, order);
  }

  lemma {:induction false} RightsStay(es: seq<Event>, e: Event, c: nat, o: string, action: Action, p: Phase)
    requires PhaseRights(es, c, o, action, p)
    ensures PhaseRights(es + [e], c, o, action, p)
  {
    forall order | Allowed(es, c, o, action, order) ensures Allowed(es + [e], c, o, action, order) {
      AllowedStays(es, e, c, o, action, order);
    }
    hide Allowed;
  }

  /** The step that reads the row decides whether the call goes on. */
  lemma {:induction false} ReadIsGate(es: seq<Event>, e: Event, s: State, k: Call, action: Action)
    requires Run(es) == Some(s) && e.Read? && k.phase == Reading(action) && ValidRating(action)
    requires EffectOf(s, k, e).Some?
    ensures PhaseRights(es + [e], e.call, k.orderId, action, EffectOf(s, k, e).value.phase)
  {
    var o := k.orderId;
    if e.up && o in s.orders {
      assert (es + [e])[..|es|] == es;
      assert ReadAt(es + [e], |es|, e.call, o, s.orders[o]);
      GateOpensIffAllowed(action, s.orders[o]);
      assert May(action, s.orders[o]) ==> Allowed(es + [e], e.call, o, action, s.orders[o]);
      hide Allowed;
    }
  }

  lemma {:induction false} EffectRights(es: seq<Event>, e: Event, s: State, k: Call, action: Action)
    requires Run(es) == Some(s) && !Outside(e) && EffectOf(s, k, e).Some?
    requires PhaseRights(es, e.call, k.orderId, action, k.phase)
    ensures PhaseRights(es + [e], e.call, k.orderId, action, EffectOf(s, k, e).value.phase)
  {
    if e.Read? {
      ReadIsGate(es, e, s, k, action);
    } else {
      RightsStay(es, e, e.call, k.orderId, action, k.phase);
      hide Run;
      LaterRights(es + [e], e, s, k, action);
    }
  }

  /** After the read a call keeps the version that admitted it until it has written. */
  lemma {:induction false} LaterRights(es: seq<Event>, e: Event, s: State, k: Call, action: Action)
    requires !Outside(e) && !e.Read? && EffectOf(s, k, e).Some? && PhaseRights(es, e.call, k.orderId, action, k.phase)
    ensures PhaseRights(es, e.call, k.orderId, action, EffectOf(s, k, e).value.phase)
  {
    hide Accepts, Allowed;
    if k.phase.Writing? || k.phase.RatingRow? {
      assert Allowed(es, e.call, k.orderId, action, k.phase.order);
      assert Admitted(es, e.call, k.orderId, action);
      hide Admitted;
      assert e.Write? || e.RateRow?;
    } else {
      hide Admitted;
    }
  }

  lemma {:induction false} StepKeepsRights(es: seq<Event>, e: Event, s: State, s': State, c: nat, o: string, action: Action)
    requires Run(es) == Some(s) && Step(s, e) == Some(s') && RightsOk(es, s, c, o, action)
    ensures RightsOk(es + [e], s', c, o, action)
  {
    hide PhaseRights, Run;
    if Act(c, o, action) in es {
      if CallEffect(s, e).Some? && e.call == c {
        EffectRights(es, e, s, s.calls[c], action);
        hide EffectOf;
      } else {
        OtherCallStays(s, s', e, c);
        RightsStay(es, e, c, o, action, s.calls[c].phase);
      }
    } else if e == Act(c, o, action) {
      ActBegins(es + [e], s, s', c, o, action);
    }
  }

  lemma ActBegins(es: seq<Event>, s: State, s': State, c: nat, o: string, action: Action)
    requires Step(s, Act(c, o, action)) == Some(s')
    ensures c in s'.calls && s'.calls[c].orderId == o && PhaseRights(es, c, o, action, s'.calls[c].phase)
  {
  }

  lemma OtherCallStays(s: State, s': State, e: Event, c: nat)
    requires Step(s, e) == Some(s') && c in s.calls && !(CallEffect(s, e).Some? && e.call == c)
    ensures c in s'.calls && s'.calls[c] == s.calls[c]
  {
    if e.CreateOrder? {
      CreateFrame(s, s', e.call, e.orderId, e.input, e.price);
      hide StepCreate;
    } else {
      hide EffectOf, Apply, Ledger.OpenWallet, FreshWalletId;
    }
  }

  lemma {:induction false} RunKeepsRights(es: seq<Event>)
    requires Run(es).Some?
    ensures RightsInv(es, Run(es).value)
  {
    if es != [] {
      var shorter, e := es[..|es| - 1], es[|es| - 1];
      var s, s' := Run(shorter).value, Run(es).value;
      RunKeepsRights(shorter);
      assert es == shorter + [e];
      hide RightsOk, Step;
      forall c, o, action ensures RightsOk(es, s', c, o, action) { StepKeepsRights(shorter, e, s, s', c, o, action); }
    }
  }

  // ----- Theorems -----

  /** What a step writes, asks for, frees or returns. */
  predicate Acts(f: Effect) {
    f.row.Some? || f.request.Some? || f.driver.Some? || f.document.Some? || (f.phase.Done? && f.phase.answer.Returned?)
  }

  /** What the action makes of a row: a new status, or a rating with its comment; nothing else. */
  function Changed(row: Order, action: Action, now: int): Order {
    match action
    case Cancel(_) => row.(status := Cancelled, updatedAt := now)
    case Start(_) => row.(status := InProgress, updatedAt := now)
    case Complete(_) => row.(status := Completed, updatedAt := now)
    case Rate(_, rating, comment) => row.(rating := Some(rating), comment := comment, updatedAt := now)
  }

  /** With the version it has read, a step of this action does to row, wallet and driver what the action means. */
  predicate Means(s: State, o: string, action: Action, order: Order, f: Effect) {
    && (f.row.Some? ==> o in s.orders && f.row.value == Changed(s.orders[o], action, f.row.value.updatedAt))
    && (f.request.Some? ==> action.Cancel? && order.price.Some?)
    && (f.request.Some? ==> f.request.value == Request(action.userId, Credit, order.price.value, order.id))
    && (f.driver.Some? ==> (action.Cancel? || action.Complete?) && f.driver == order.driverId && f.driverStatus == Available)
  }

  lemma {:induction false} EffectMeans(es: seq<Event>, s: State, k: Call, e: Event, action: Action)
    requires Run(es) == Some(s) && !Outside(e) && PhaseRights(es, e.call, k.orderId, action, k.phase)
    requires EffectOf(s, k, e).Some? && Acts(EffectOf(s, k, e).value)
    ensures exists order ::
      Allowed(es + [e], e.call, k.orderId, action, order) && Means(s, k.orderId, action, order, EffectOf(s, k, e).value)
  {
    EffectRights(es, e, s, k, action);
    RightsStay(es, e, e.call, k.orderId, action, k.phase);
    var f, o := EffectOf(s, k, e).value, k.orderId;
    if k.phase.Refunding? || k.phase.Releasing? || k.phase.Writing? || k.phase.RatingRow? {
      hide Run, Accepts;
      assert Allowed(es + [e], e.call, o, action, k.phase.order) && Means(s, o, action, k.phase.order, f);
    } else if k.phase.IndexingLast? {
      hide Run, Accepts;
      var order :| Allowed(es + [e], e.call, o, action, order);
      assert Means(s, o, action, order, f);
    } else {
      ReadMeans(es, s, k, e, action);
    }
  }

  lemma {:induction false} ReadMeans(es: seq<Event>, s: State, k: Call, e: Event, action: Action)
    requires Run(es) == Some(s) && k.phase == Reading(action) && ValidRating(action)
    requires EffectOf(s, k, e).Some? && Acts(EffectOf(s, k, e).value)
    ensures !Outside(e) && e.Read?
    ensures exists order ::
      Allowed(es + [e], e.call, k.orderId, action, order) && Means(s, k.orderId, action, order, EffectOf(s, k, e).value)
  {
    var o := k.orderId;
    assert (es + [e])[..|es|] == es;
    hide Run, Accepts;
    assert e == Read(e.call, true) && o in s.orders;
    assert ReadAt(es + [e], |es|, e.call, o, s.orders[o]);
    GateOpensIffAllowed(action, s.orders[o]);
    assert Allowed(es + [e], e.call, o, action, s.orders[o]);
    assert Means(s, o, action, s.orders[o], EffectOf(s, k, e).value);
  }

  /**
   In every interleaving a call that was asked to cancel, start, complete or rate
   writes, refunds, frees or returns something only after it has read a version of
   the row that lets this caller do this, and then does to it what was asked.
   */
  lemma {:induction false} OnlyTheEntitledAct(es: seq<Event>, c: nat, o: string, action: Action, e: Event)
    requires Run(es).Some? && Act(c, o, action) in es && !Outside(e) && e.call == c
    requires CallEffect(Run(es).value, e).Some? && Acts(CallEffect(Run(es).value, e).value)
    ensures var s := Run(es).value; exists order ::
      Allowed(es + [e], c, o, action, order) && Means(s, o, action, order, CallEffect(s, e).value)
  {
    RunKeepsRights(es);
    var s := Run(es).value;
    assert RightsOk(es, s, c, o, action);
    hide Run;
    EffectMeans(es, s, s.calls[c], e, action);
  }

  // ----- Who brought an order where it is -----

  /** The phases of the calls that act on an order. */
  predicate ActPhase(p: Phase) {
    p.Reading? || p.Refunding? || p.Releasing? || p.Writing? || p.RatingRow? || p.IndexingLast?
  }

  ghost predicate Asked(es: seq<Event>, c: nat, o: string) {
    exists action :: Act(c, o, action) in es
  }

  ghost predicate AskedInv(es: seq<Event>, s: State) {
    forall c :: c in s.calls && ActPhase(s.calls[c].phase) ==> Asked(es, c, s.calls[c].orderId)
  }

  /** Somebody who may have asked for what the row now says. */
  ghost predicate HasActors(es: seq<Event>, o: string, row: Order) {
    && (row.status == Cancelled ==> exists c: nat :: Act(c, o, Cancel(row.userId)) in es)
    && (row.status == InProgress ==> row.driverId.Some? && exists c: nat :: Act(c, o, Start(row.driverId.value)) in es)
    && (row.status == Completed ==> row.driverId.Some? && exists c: nat :: Act(c, o, Complete(row.driverId.value)) in es)
    && (row.rating.Some? ==> exists c: nat :: Act(c, o, Rate(row.userId, row.rating.value, row.comment)) in es)
  }

  lemma {:induction false} RunKeepsAsked(es: seq<Event>)
    requires Run(es).Some?
    ensures AskedInv(es, Run(es).value)
  {
    if es != [] {
      var shorter, e := es[..|es| - 1], es[|es| - 1];
      var s, s' := Run(shorter).value, Run(es).value;
      RunKeepsAsked(shorter);
      assert es == shorter + [e];
      forall c | c in s'.calls && ActPhase(s'.calls[c].phase) ensures Asked(es, c, s'.calls[c].orderId) {
        ActPhaseBegins(s, s', e, c);
        if c in s.calls && ActPhase(s.calls[c].phase) {
          var action :| Act(c, s.calls[c].orderId, action) in shorter;
          assert Act(c, s.calls[c].orderId, action) in es;
        } else {
          assert Act(c, s'.calls[c].orderId, e.action) in es;
        }
      }
    }
  }

  lemma ActPhaseBegins(s: State, s': State, e: Event, c: nat)
    requires Step(s, e) == Some(s') && c in s'.calls && ActPhase(s'.calls[c].phase)
    ensures (c in s.calls && ActPhase(s.calls[c].phase) && s'.calls[c].orderId == s.calls[c].orderId)
         || (e.Act? && e == Act(c, s'.calls[c].orderId, e.action))
  {
    if CallEffect(s, e).Some? {
      if c == e.call { EffectStaysActing(s, s.calls[c], e); }
      hide EffectOf;
    } else if e.CreateOrder? {
      CreateFrame(s, s', e.call, e.orderId, e.input, e.price);
      hide StepCreate;
    } else {
      hide EffectOf, Apply, Ledger.OpenWallet, FreshWalletId;
    }
  }

  lemma EffectStaysActing(s: State, k: Call, e: Event)
    requires EffectOf(s, k, e).Some? && ActPhase(EffectOf(s, k, e).value.phase)
    ensures ActPhase(k.phase)
  {
    hide Accepts;
  }

  /** Rows are written by acting calls, and by an INSERT or an assignment. */
  lemma OtherWriters(s: State, k: Call, e: Event)
    requires EffectOf(s, k, e).Some? && EffectOf(s, k, e).value.row.Some? && !ActPhase(k.phase)
    ensures var row := EffectOf(s, k, e).value.row.value;
      && (row.status == Created || row.status == DriverAssigned)
      && (row.rating.Some? ==> k.orderId in s.orders && row == s.orders[k.orderId].(
            driverId := row.driverId, status := row.status, updatedAt := row.updatedAt))
  {
    hide Accepts;
  }

  lemma {:induction false} ActorsStay(es: seq<Event>, e: Event, o: string, row: Order)
    requires HasActors(es, o, row)
    ensures HasActors(es + [e], o, row)
  {
    assert forall x :: x in es ==> x in es + [e];
  }

  /** The row that an acting call writes names the one who asked for it. */
  lemma {:induction false} ActorIsNamed(es: seq<Event>, s: State, e: Event, c: nat, o: string)
    requires Run(es) == Some(s) && !Outside(e) && e.call == c && CallEffect(s, e).Some? && CallEffect(s, e).value.row.Some?
    requires ActPhase(s.calls[c].phase) && s.calls[c].orderId == o && (o in s.orders ==> HasActors(es, o, s.orders[o]))
    ensures HasActors(es + [e], o, CallEffect(s, e).value.row.value)
  {
    RunKeepsAsked(es);
    var action :| Act(c, o, action) in es;
    OnlyTheEntitledAct(es, c, o, action, e);
    var f := CallEffect(s, e).value;
    var order :| Allowed(es + [e], c, o, action, order) && Means(s, o, action, order, f);
    var k: nat :| ReadAt(es + [e], k, c, o, order);
    ReadIsEarlier(es, e, k, c, o, order, f);
    TripsNeverChange(es, k, o);
    hide Run, CallEffect;
    assert Act(c, o, action) in es + [e];
    ActorsStay(es, e, o, s.orders[o]);
    NamedActor(es + [e], c, o, action, s.orders[o], f.row.value);
  }

  lemma NamedActor(es: seq<Event>, c: nat, o: string, action: Action, row: Order, written: Order)
    requires Act(c, o, action) in es && HasActors(es, o, row) && written == Changed(row, action, written.updatedAt)
    requires match action
      case Cancel(u) => row.userId == u
      case Rate(u, _, _) => row.userId == u
      case Start(d) => row.driverId == Some(d)
      case Complete(d) => row.driverId == Some(d)
    ensures HasActors(es, o, written)
  {
  }

  lemma {:induction false} ReadIsEarlier(es: seq<Event>, e: Event, k: nat, c: nat, o: string, order: Order, f: Effect)
    requires Run(es).Some? && CallEffect(Run(es).value, e) == Some(f) && f.row.Some?
    requires ReadAt(es + [e], k, c, o, order)
    ensures k < |es| && es[..k] == (es + [e])[..k]
  {
    hide Run, Accepts;
    assert e.Read? ==> f.row.None?;
    assert (es + [e])[|es|] == e;
  }

  lemma {:induction false} StepKeepsActors(es: seq<Event>, e: Event, s: State, s': State, o: string)
    requires Run(es) == Some(s) && Step(s, e) == Some(s') && o in s'.orders
    requires o in s.orders ==> HasActors(es, o, s.orders[o])
    ensures HasActors(es + [e], o, s'.orders[o])
  {
    hide Run;
    if CallEffect(s, e).Some? && s.calls[e.call].orderId == o && CallEffect(s, e).value.row.Some? {
      var k := s.calls[e.call];
      if ActPhase(k.phase) {
        ActorIsNamed(es, s, e, e.call, o);
      } else {
        OtherWriters(s, k, e);
        if o in s.orders { ActorsStay(es, e, o, s.orders[o]); }
        RunKeepsCreators(es);
        if o in s.orders { StepKeepsTrip(s, s', e, o); }
      }
      hide EffectOf;
    } else if CallEffect(s, e).Some? {
      hide EffectOf;
      ActorsStay(es, e, o, s.orders[o]);
    } else {
      QuietStep(s, s', e);
      hide Step;
      ActorsStay(es, e, o, s.orders[o]);
    }
  }

  /**
   In every interleaving an order is cancelled and rated only at the word of its own
   rider, and started and completed only at that of the driver on its row.
   */
  lemma {:induction false} OrdersNameTheirActors(es: seq<Event>, o: string)
    requires Run(es).Some? && o in Run(es).value.orders
    ensures HasActors(es, o, Run(es).value.orders[o])
  {
    if es != [] {
      var shorter, e := es[..|es| - 1], es[|es| - 1];
      var s := Run(shorter).value;
      if o in s.orders { OrdersNameTheirActors(shorter, o); }
      assert es == shorter + [e];
      StepKeepsActors(shorter, e, s, Run(es).value, o);
    }
  }
}
