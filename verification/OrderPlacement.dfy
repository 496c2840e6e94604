/**
 CreateOrder pays before it stores. Where the money of an order without a row
 is: a refund is asked for exactly when the charge was not reported as failed.
 */
module OrderPlacement {
  import opened Prelude
  import opened Ledger
  import opened OrderTypes
  import opened OrderMachine
  import opened OrderMoney

  /** The wallet reported an error for the charge of order `o`, whether or not it had taken effect. */
  ghost predicate ChargeErred(es: seq<Event>, o: string) {
    exists i: nat :: i < |es| && ChargeErrsAt(es, i, o)
  }

  predicate ChargeErrsAt(es: seq<Event>, i: nat, o: string)
    requires i < |es|
  {
    && es[i].WalletReply? && !es[i].ok && Run(es[..i]).Some? && es[i].call in Run(es[..i]).value.calls
    && Run(es[..i]).value.calls[es[i].call].orderId == o
    && Run(es[..i]).value.calls[es[i].call].phase.Charging?
  }

  /** A call is before or at the insert of this order. */
  ghost predicate BeingPlaced(s: State, o: string) {
    exists c :: c in s.calls && s.calls[c].orderId == o && (s.calls[c].phase.Charging? || s.calls[c].phase.Inserting?)
  }

  ghost predicate Placed(es: seq<Event>, s: State, o: string) {
    || o in s.orders || BeingPlaced(s, o) || ChargeErred(es, o)
    || (o in s.bills && RefundRequest(o, s.bills[o]) in s.sent)
  }

  lemma EffectPlaces(s: State, k: Call, e: Event)
    requires EffectOf(s, k, e).Some? && (k.phase.Charging? || k.phase.Inserting?)
    ensures var f := EffectOf(s, k, e).value;
      || f.row.Some? || f.phase.Inserting? || (e.WalletReply? && !e.ok && k.phase.Charging?)
      || (k.orderId in s.bills && f.request == Some(RefundRequest(k.orderId, s.bills[k.orderId])))
  {
    hide Accepts;
  }

  lemma {:induction false} StepPlaces(es: seq<Event>, s: State, s': State, e: Event, o: string)
    requires Run(es) == Some(s) && Step(s, e) == Some(s') && Placed(es, s, o) && o in s.bills
    ensures Placed(es + [e], s', o)
  {
    if ChargeErred(es, o) { ErredStays(es, e, o); }
    StepGrows(s, s', e);
    if BeingPlaced(s, o) {
      var c :| c in s.calls && s.calls[c].orderId == o && (s.calls[c].phase.Charging? || s.calls[c].phase.Inserting?);
      if !Outside(e) && !e.CreateOrder? && !e.Act? && e.call == c {
        EffectPlaces(s, s.calls[c], e);
        var f := EffectOf(s, s.calls[c], e).value;
        hide EffectOf, Grows;
        if f.phase.Inserting? { assert s'.calls[c].phase.Inserting?; }
        if e.WalletReply? && !e.ok && s.calls[c].phase.Charging? {
          assert (es + [e])[..|es|] == es;
          assert ChargeErrsAt(es + [e], |es|, o);
        }
      } else {
        PlacingStays(s, s', e, c);
      }
    } else {
      OrdersStay(s, s', e, o);
    }
    hide Step, ChargeErred, BeingPlaced;
  }

  lemma {:induction false} ErredStays(es: seq<Event>, e: Event, o: string)
    requires ChargeErred(es, o)
    ensures ChargeErred(es + [e], o)
  {
    var i: nat :| i < |es| && ChargeErrsAt(es, i, o);
    assert (es + [e])[..i] == es[..i];
    assert ChargeErrsAt(es + [e], i, o);
  }

  lemma PlacingStays(s: State, s': State, e: Event, c: nat)
    requires Step(s, e) == Some(s') && c in s.calls && (Outside(e) || e.CreateOrder? || e.Act? || e.call != c)
    ensures c in s'.calls && s'.calls[c] == s.calls[c]
  {
    if e.CreateOrder? {
      CreateFrame(s, s', e.call, e.orderId, e.input, e.price);
      hide StepCreate;
    } else {
      hide EffectOf, Apply, Ledger.OpenWallet;
    }
  }

  /** Rows are never deleted, nor are requests unsent. */
  lemma OrdersStay(s: State, s': State, e: Event, o: string)
    requires Step(s, e) == Some(s')
    ensures (o in s.orders ==> o in s'.orders) && s.sent <= s'.sent
  {
    if e.CreateOrder? {
      CreateFrame(s, s', e.call, e.orderId, e.input, e.price);
      hide StepCreate;
    } else {
      hide EffectOf, Apply, Ledger.OpenWallet;
    }
  }

  lemma {:induction false} RunPlaces(es: seq<Event>, o: string)
    requires Run(es).Some? && o in Run(es).value.bills
    ensures Placed(es, Run(es).value, o)
  {
    if es != [] {
      var shorter, e := es[..|es| - 1], es[|es| - 1];
      var s, s' := Run(shorter).value, Run(es).value;
      assert es == shorter + [e];
      if o in s.bills {
        RunPlaces(shorter, o);
        StepPlaces(shorter, s, s', e, o);
      } else {
        NewBillIsCharging(s, s', e, o);
      }
    }
  }

  lemma NewBillIsCharging(s: State, s': State, e: Event, o: string)
    requires Step(s, e) == Some(s') && o in s'.bills && o !in s.bills
    ensures BeingPlaced(s', o)
  {
    if e.CreateOrder? {
      CreateFrame(s, s', e.call, e.orderId, e.input, e.price);
      hide StepCreate;
      assert s'.calls[e.call].phase.Charging?;
    } else {
      hide EffectOf, Apply, Ledger.OpenWallet;
    }
  }

  predicate Placing(s: State, c: nat) {
    c in s.calls && (s.calls[c].phase.Charging? || s.calls[c].phase.Inserting?)
  }

  /** The order is not stored, and no refund was asked for. */
  ghost predicate Blank(s: State, o: string) {
    o in s.bills && o !in s.orders && RefundRequest(o, s.bills[o]) !in s.sent
  }

  /** One call at most places an order, and until it has, there is neither row nor refund. */
  ghost predicate PlacingInv(s: State) {
    && (forall c :: Placing(s, c) ==> Blank(s, s.calls[c].orderId))
    && (forall c, d :: Placing(s, c) && Placing(s, d) && s.calls[c].orderId == s.calls[d].orderId ==> c == d)
  }

  /** A row or a refund comes from the call that places the order, or the row was there. */
  lemma EffectOnBlank(s: State, k: Call, e: Event)
    requires EffectOf(s, k, e).Some? && (k.orderId in s.orders ==> s.orders[k.orderId].id == k.orderId)
    ensures var f := EffectOf(s, k, e).value;
      && (f.row.Some? || f.request.Some? ==> k.phase.Inserting? || k.orderId in s.orders)
      && (f.request.Some? ==> f.request.value.reference == k.orderId)
      && (f.phase.Charging? || f.phase.Inserting? ==> k.phase.Charging? && f.row.None? && f.request.None?)
      && (f.row.Some? || f.request.Some? ==> !f.phase.Charging? && !f.phase.Inserting?)
  {
    hide Accepts;
  }

  /** A step leaves an order blank, unless it is the insert of the call that places it. */
  lemma StaysBlank(s: State, s': State, e: Event, o: string)
    requires MoneyInv(s) && Step(s, e) == Some(s') && Blank(s, o)
    requires !Outside(e) && !e.CreateOrder? && !e.Act? ==>
      !(s.calls[e.call].orderId == o && s.calls[e.call].phase.Inserting?)
    ensures Blank(s', o)
  {
    if e.CreateOrder? {
      CreateFrame(s, s', e.call, e.orderId, e.input, e.price);
      hide StepCreate, MoneyInv;
    } else if Outside(e) || e.Act? {
      hide Apply, Ledger.OpenWallet, MoneyInv;
    } else {
      var k := s.calls[e.call];
      assert k.orderId in s.orders ==> OrderOk(s, k.orderId);
      EffectOnBlank(s, k, e);
      hide EffectOf, MoneyInv;
    }
  }

  lemma StepKeepsPlacing(s: State, s': State, e: Event)
    requires MoneyInv(s) && PlacingInv(s) && Step(s, e) == Some(s')
    ensures PlacingInv(s')
  {
    forall c | Placing(s', c)
      ensures Blank(s', s'.calls[c].orderId)
      ensures forall d :: Placing(s', d) && s'.calls[d].orderId == s'.calls[c].orderId ==> c == d
    {
      PlacingBefore(s, s', e, c);
      forall d | Placing(s', d) && s'.calls[d].orderId == s'.calls[c].orderId ensures c == d {
        PlacingBefore(s, s', e, d);
      }
    }
  }

  /** A placing call was placing before, or has just begun with a blank order of its own. */
  lemma PlacingBefore(s: State, s': State, e: Event, c: nat)
    requires MoneyInv(s) && PlacingInv(s) && Step(s, e) == Some(s') && Placing(s', c)
    ensures Blank(s', s'.calls[c].orderId)
    ensures if e.CreateOrder? && e.call == c then s'.calls[c].orderId !in s.bills
            else Placing(s, c) && s.calls[c].orderId == s'.calls[c].orderId
  {
    if e.CreateOrder? && e.call == c {
      CreateFrame(s, s', c, e.orderId, e.input, e.price);
      assert forall r :: r in s.sent ==> SentOk(s, r);
      assert forall o :: o in s.orders ==> OrderOk(s, o);
      hide StepCreate, MoneyInv, PlacingInv, Accepts;
    } else {
      WasPlacing(s, s', e, c);
      StaysBlank(s, s', e, s.calls[c].orderId);
    }
  }

  lemma WasPlacing(s: State, s': State, e: Event, c: nat)
    requires MoneyInv(s) && PlacingInv(s) && Step(s, e) == Some(s') && Placing(s', c) && !(e.CreateOrder? && e.call == c)
    ensures Placing(s, c) && s.calls[c].orderId == s'.calls[c].orderId
    ensures !Outside(e) && !e.CreateOrder? && !e.Act? ==>
      !(s.calls[e.call].orderId == s.calls[c].orderId && s.calls[e.call].phase.Inserting?)
  {
    if !Outside(e) && !e.CreateOrder? && !e.Act? {
      var k := s.calls[e.call];
      assert k.orderId in s.orders ==> OrderOk(s, k.orderId);
      EffectOnBlank(s, k, e);
      assert Placing(s, e.call) <==> k.phase.Charging? || k.phase.Inserting?;
      hide EffectOf, MoneyInv;
    } else if e.CreateOrder? {
      CreateFrame(s, s', e.call, e.orderId, e.input, e.price);
      hide StepCreate, MoneyInv;
    } else {
      hide Apply, Ledger.OpenWallet, MoneyInv;
    }
  }

  lemma {:induction false} RunKeepsPlacing(es: seq<Event>)
    requires Run(es).Some?
    ensures PlacingInv(Run(es).value)
  {
    if es != [] {
      RunKeepsPlacing(es[..|es| - 1]);
      RunKeepsMoney(es[..|es| - 1]);
      StepKeepsPlacing(Run(es[..|es| - 1]).value, Run(es).value, es[|es| - 1]);
    }
  }

  /** Once the charge is reported as failed, the order is never stored and no refund is asked for. */
  lemma {:induction false} ErredStaysBlank(es: seq<Event>, o: string)
    requires Run(es).Some? && ChargeErred(es, o)
    ensures Blank(Run(es).value, o) && !BeingPlaced(Run(es).value, o)
  {
    var shorter, e := es[..|es| - 1], es[|es| - 1];
    var s, s' := Run(shorter).value, Run(es).value;
    var i: nat :| i < |es| && ChargeErrsAt(es, i, o);
    RunKeepsPlacing(shorter);
    RunKeepsMoney(shorter);
    if i < |shorter| {
      assert shorter[..i] == es[..i];
      assert ChargeErrsAt(shorter, i, o);
      ErredStaysBlank(shorter, o);
      UnplacedStays(s, s', e, o);
    } else {
      assert Placing(s, e.call);
      StaysBlank(s, s', e, o);
      ErringEnds(s, s', e, o);
    }
  }

  lemma UnplacedStays(s: State, s': State, e: Event, o: string)
    requires MoneyInv(s) && PlacingInv(s) && Step(s, e) == Some(s') && Blank(s, o) && !BeingPlaced(s, o)
    ensures Blank(s', o) && !BeingPlaced(s', o)
  {
    if BeingPlaced(s', o) {
      var c :| c in s'.calls && s'.calls[c].orderId == o && (s'.calls[c].phase.Charging? || s'.calls[c].phase.Inserting?);
      PlacingBefore(s, s', e, c);
    }
    if !Outside(e) && !e.CreateOrder? && !e.Act? { assert e.call in s.calls; }
    StaysBlank(s, s', e, o);
  }

  lemma ErringEnds(s: State, s': State, e: Event, o: string)
    requires MoneyInv(s) && PlacingInv(s) && Step(s, e) == Some(s')
    requires e.WalletReply? && !e.ok && e.call in s.calls && s.calls[e.call].orderId == o && s.calls[e.call].phase.Charging?
    ensures !BeingPlaced(s', o)
  {
    assert Placing(s, e.call) && s'.calls[e.call].phase.Done?;
    if BeingPlaced(s', o) {
      var c :| c in s'.calls && s'.calls[c].orderId == o && (s'.calls[c].phase.Charging? || s'.calls[c].phase.Inserting?);
      PlacingBefore(s, s', e, c);
    }
  }

  /**
   A rider paid for an order that is not stored, and CreateOrder is over: a
   refund was asked for if and only if the charge was not reported as failed.
   One that was, although it took effect, is never refunded.
   */
  lemma {:induction false} PaidButNotStored(es: seq<Event>, o: string)
    requires Run(es).Some? && Debited(Run(es).value, o) && o !in Run(es).value.orders
    requires forall c :: c in Run(es).value.calls && Run(es).value.calls[c].orderId == o ==> Run(es).value.calls[c].phase.Done?
    ensures RefundRequest(o, Run(es).value.bills[o]) in Run(es).value.sent <==> !ChargeErred(es, o)
  {
    RunPlaces(es, o);
    if ChargeErred(es, o) { ErredStaysBlank(es, o); }
  }

  // ----- Requests on their way -----

  /** The request whose answer a call in this phase waits for. */
  function Awaited(s: State, o: string, p: Phase): Option<Request> {
    match p
    case Charging(_) => if o in s.bills then Some(ChargeRequest(o, s.bills[o])) else None
    case Compensating(_) => if o in s.bills then Some(RefundRequest(o, s.bills[o])) else None
    case Refunding(order) =>
      if order.price.Some? then Some(Request(order.userId, Credit, order.price.value, order.id)) else None
    case _ => None
  }

  ghost predicate RequestsOut(s: State) {
    forall c :: c in s.calls && Awaited(s, s.calls[c].orderId, s.calls[c].phase).Some? ==>
      Awaited(s, s.calls[c].orderId, s.calls[c].phase).value in s.sent
  }

  /** A step that begins to wait for the wallet sends the request. */
  lemma EffectAsks(s: State, k: Call, e: Event)
    requires EffectOf(s, k, e).Some?
    ensures var f := EffectOf(s, k, e).value;
      Awaited(s, k.orderId, f.phase).Some? ==> f.request == Awaited(s, k.orderId, f.phase)
  {
    hide Accepts;
  }

  lemma CreateAsks(s: State, s': State, e: Event)
    requires RequestsOut(s) && MoneyInv(s) && Step(s, e) == Some(s') && e.CreateOrder?
    ensures RequestsOut(s')
  {
    CreateFrame(s, s', e.call, e.orderId, e.input, e.price);
    hide Step, StepCreate, FreshOrderId;
    forall c | c in s'.calls && c != e.call && Awaited(s', s'.calls[c].orderId, s'.calls[c].phase).Some?
      ensures Awaited(s', s'.calls[c].orderId, s'.calls[c].phase).value in s'.sent
    {
      assert PhaseOk(s, s.calls[c].orderId, s.calls[c].phase);
      KnownBill(s, s', e, s.calls[c].orderId);
    }
    hide MoneyInv;
  }

  lemma KnownBill(s: State, s': State, e: Event, o: string)
    requires Step(s, e) == Some(s') && e.CreateOrder? && o in s.bills
    ensures o in s'.bills && s'.bills[o] == s.bills[o]
  {
  }

  lemma CallAsks(s: State, c: nat, f: Effect)
    requires RequestsOut(s) && c in s.calls
    requires Awaited(s, s.calls[c].orderId, f.phase).Some? ==> f.request == Awaited(s, s.calls[c].orderId, f.phase)
    ensures RequestsOut(Perform(s, c, f))
  {
    var s' := Perform(s, c, f);
    forall d | d in s'.calls ensures Awaited(s', s'.calls[d].orderId, s'.calls[d].phase)
                                  == Awaited(s, s'.calls[d].orderId, s'.calls[d].phase) {}
    hide Awaited;
  }

  /** Events that neither order anything nor are steps of order calls. */
  lemma QuietAsks(s: State, s': State, e: Event)
    requires RequestsOut(s) && Step(s, e) == Some(s') && (Outside(e) || e.Act?)
    ensures RequestsOut(s')
  {
    QuietSends(s, s', e);
    hide Step;
    forall d | d in s'.calls && Awaited(s', s'.calls[d].orderId, s'.calls[d].phase).Some?
      ensures Awaited(s', s'.calls[d].orderId, s'.calls[d].phase).value in s'.sent
    {
      assert d in s.calls && s'.calls[d] == s.calls[d];
    }
  }

  lemma QuietSends(s: State, s': State, e: Event)
    requires Step(s, e) == Some(s') && (Outside(e) || e.Act?)
    ensures s'.bills == s.bills && s'.sent == s.sent
    ensures forall d :: d in s'.calls ==> (d in s.calls && s'.calls[d] == s.calls[d]) || s'.calls[d].phase.Reading? || s'.calls[d].phase.Done?
  {
    hide Apply, Ledger.OpenWallet, FreshWalletId, EffectOf;
  }

  lemma StepKeepsRequests(s: State, s': State, e: Event)
    requires RequestsOut(s) && MoneyInv(s) && Step(s, e) == Some(s')
    ensures RequestsOut(s')
  {
    if e.CreateOrder? {
      CreateAsks(s, s', e);
    } else if Outside(e) || e.Act? {
      QuietAsks(s, s', e);
    } else {
      EffectAsks(s, s.calls[e.call], e);
      hide EffectOf, MoneyInv, RequestsOut, Perform, Awaited;
      CallAsks(s, e.call, EffectOf(s, s.calls[e.call], e).value);
    }
  }

  lemma {:induction false} RunKeepsRequests(es: seq<Event>)
    requires Run(es).Some?
    ensures RequestsOut(Run(es).value)
  {
    if es != [] {
      RunKeepsRequests(es[..|es| - 1]);
      RunKeepsMoney(es[..|es| - 1]);
      StepKeepsRequests(Run(es[..|es| - 1]).value, Run(es).value, es[|es| - 1]);
    }
  }

  /** The wallet, once it executes a request, accepts it or refuses it for good reason. */
  lemma ExecutedIffAccepted(book: Book, req: Request, id: nat, at: int)
    requires req.amount > 0
    ensures var (after, outcome) := Apply(book, req, id, at);
      && (Accepts(after, req) <==> outcome.Accepted?)
      && (outcome.Rejected? <==>
            || req.userId !in book.wallets
            || (req.kind.Debit? && book.wallets[req.userId].balance < req.amount && !Accepts(book, req)))
  {
    var (after, outcome) := Apply(book, req, id, at);
    if outcome.Accepted? && outcome.created {
      var w := book.wallets[req.userId];
      FindAppend(book.rows, outcome.record, w.id, req.reference, req.kind);
    }
  }
}
