/**
 The money of an order, in every interleaving of order calls, with requests
 lost, late or executed twice: nobody pays for an order more than once, nothing
 is refunded that was not paid, and a cancelled order has been refunded.
 */
module OrderMoney {
  import opened Prelude
  import opened Ledger
  import opened OrderTypes
  import opened OrderMachine

  ghost predicate Debited(s: State, o: string) {
    o in s.bills && Accepts(s.book, ChargeRequest(o, s.bills[o]))
  }

  ghost predicate Credited(s: State, o: string) {
    o in s.bills && Accepts(s.book, RefundRequest(o, s.bills[o]))
  }

  /** A row of the transactions table that names an order bears that order's user and price. */
  ghost predicate RowOk(s: State, t: Transaction) {
    t.reference in s.bills ==>
      var bill := s.bills[t.reference];
      && bill.userId in s.book.wallets && t.walletId == s.book.wallets[bill.userId].id
      && t.amount == bill.price
      && (t.kind.Credit? ==> Debited(s, t.reference))
  }

  ghost predicate SentOk(s: State, r: Request) {
    && r.reference in s.bills
    && var bill := s.bills[r.reference];
    && r == (if r.kind.Debit? then ChargeRequest(r.reference, bill) else RefundRequest(r.reference, bill))
    && (r.kind.Credit? ==> Debited(s, r.reference))
  }

  /** A version of the row of order `o`: paid for, and carrying its bill. */
  ghost predicate VersionOk(s: State, o: string, order: Order) {
    && order.id == o && o in s.bills && Debited(s, o)
    && order.userId == s.bills[o].userId && order.price == Some(s.bills[o].price)
  }

  ghost predicate OrderOk(s: State, o: string)
    requires o in s.orders
  {
    VersionOk(s, o, s.orders[o]) && (s.orders[o].status == Cancelled ==> Credited(s, o))
  }

  ghost predicate PhaseOk(s: State, o: string, p: Phase) {
    match p
    case Charging(input) => o in s.bills && input.userId == s.bills[o].userId
    case Inserting(input) => Debited(s, o) && input.userId == s.bills[o].userId
    case Compensating(_) => Debited(s, o)
    case Reading(_) => true
    case Done(_) => true
    case Releasing(order, target) => VersionOk(s, o, order) && (target == Cancelled ==> Credited(s, o))
    case Writing(order, target, _) => VersionOk(s, o, order) && (target == Cancelled ==> Credited(s, o))
    case _ => VersionOk(s, o, p.order)
  }

  ghost predicate MoneyInv(s: State) {
    && WellFormed(s.book)
    && (forall o :: o in s.bills ==> s.bills[o].price > 0)
    && (forall t :: t in s.book.rows ==> RowOk(s, t))
    && (forall r :: r in s.sent ==> SentOk(s, r))
    && (forall o :: o in s.orders ==> OrderOk(s, o))
    && (forall c :: c in s.calls ==> PhaseOk(s, s.calls[c].orderId, s.calls[c].phase))
  }

  // ----- What only grows -----

  /** Bills and wallets are kept, and so is whatever was debited or credited. */
  ghost predicate Grows(s: State, s': State) {
    && (forall o :: o in s.bills ==> o in s'.bills && s'.bills[o] == s.bills[o])
    && (forall u :: u in s.book.wallets ==> u in s'.book.wallets && s'.book.wallets[u].id == s.book.wallets[u].id)
    && (forall o :: Debited(s, o) ==> Debited(s', o))
    && (forall o :: Credited(s, o) ==> Credited(s', o))
  }

  /** Everything in `s'` is either as it was in `s` or in order by itself. */
  lemma Carry(s: State, s': State)
    requires MoneyInv(s) && Grows(s, s') && WellFormed(s'.book)
    requires forall o :: o in s'.bills ==> o in s.bills || s'.bills[o].price > 0
    requires forall t :: t in s'.book.rows ==>
      RowOk(s', t) || (t in s.book.rows && (t.reference in s'.bills ==> t.reference in s.bills))
    requires forall r :: r in s'.sent ==> r in s.sent || SentOk(s', r)
    requires forall x :: x in s'.orders ==> (x in s.orders && s'.orders[x] == s.orders[x]) || OrderOk(s', x)
    requires forall c :: c in s'.calls ==>
      (c in s.calls && s'.calls[c] == s.calls[c]) || PhaseOk(s', s'.calls[c].orderId, s'.calls[c].phase)
    ensures MoneyInv(s')
  {
    hide Accepts, WellFormed;
    forall t | t in s'.book.rows ensures RowOk(s', t) { assert t in s.book.rows ==> RowOk(s, t); }
    forall r | r in s'.sent ensures SentOk(s', r) { assert r in s.sent ==> SentOk(s, r); }
    forall x | x in s'.orders ensures OrderOk(s', x) { assert x in s.orders ==> OrderOk(s, x); }
    forall c | c in s'.calls ensures PhaseOk(s', s'.calls[c].orderId, s'.calls[c].phase) {
      if c in s.calls && s'.calls[c] == s.calls[c] { PhaseStays(s, s', s.calls[c].orderId, s.calls[c].phase); }
    }
  }

  lemma PhaseStays(s: State, s': State, o: string, p: Phase)
    requires Grows(s, s') && PhaseOk(s, o, p)
    ensures PhaseOk(s', o, p)
  {
    hide Accepts;
  }

  // ----- Steps that change the wallet -----

  lemma AcceptsStays(book: Book, req: Request, id: nat, at: int, known: Request)
    requires Accepts(book, known)
    ensures Accepts(Apply(book, req, id, at).0, known)
    ensures Apply(book, req, id, at).0.wallets[known.userId].id == book.wallets[known.userId].id
  {
    var after := Apply(book, req, id, at).0;
    if |after.rows| > |book.rows| {
      FindAppend(book.rows, after.rows[|book.rows|], book.wallets[known.userId].id, known.reference, known.kind);
    }
  }

  lemma ApplyGrows(s: State, req: Request, id: nat, at: int)
    ensures Grows(s, s.(book := Apply(s.book, req, id, at).0))
  {
    var s' := s.(book := Apply(s.book, req, id, at).0);
    forall o | Debited(s, o) ensures Debited(s', o) {
      AcceptsStays(s.book, req, id, at, ChargeRequest(o, s.bills[o]));
    }
    forall o | Credited(s, o) ensures Credited(s', o) {
      AcceptsStays(s.book, req, id, at, RefundRequest(o, s.bills[o]));
    }
  }

  lemma ApplyKeepsMoney(s: State, req: Request, id: nat, at: int)
    requires MoneyInv(s) && (req.reference !in s.bills || req in s.sent)
    ensures MoneyInv(s.(book := Apply(s.book, req, id, at).0))
  {
    var s' := s.(book := Apply(s.book, req, id, at).0);
    ApplyGrows(s, req, id, at);
    forall t | t in s'.book.rows && t !in s.book.rows ensures RowOk(s', t) {
      assert t == s'.book.rows[|s.book.rows|];
      assert req.reference in s.bills ==> SentOk(s, req);
    }
    hide RowOk, Grows;
    Carry(s, s');
  }

  // ----- Steps of order calls -----

  lemma CreateFrame(s: State, s': State, c: nat, o: string, input: Input, price: Int64)
    requires StepCreate(s, c, o, input, price) == Some(s')
    ensures s'.book == s.book && s'.orders == s.orders && c !in s.calls && s'.calls.Keys == s.calls.Keys + {c}
    ensures forall d :: d in s.calls ==> s'.calls[d] == s.calls[d]
    ensures s'.calls[c].orderId == o && (s'.calls[c].phase.Done? || s'.calls[c].phase == Charging(input))
    ensures s'.calls[c].phase.Done? ==>
      s'.calls[c].phase.answer.Refused? && s'.bills == s.bills && s'.sent == s.sent
    ensures !s'.calls[c].phase.Done? ==>
      && FreshOrderId(s, o) && price > 0 && s'.bills == s.bills[o := Bill(input.userId, price)]
      && s'.sent == s.sent + {ChargeRequest(o, s'.bills[o])}
  {
    hide FreshOrderId, Invalid;
  }

  lemma CreateKeepsMoney(s: State, s': State, c: nat, o: string, input: Input, price: Int64)
    requires MoneyInv(s) && StepCreate(s, c, o, input, price) == Some(s')
    ensures MoneyInv(s')
  {
    CreateFrame(s, s', c, o, input, price);
    hide StepCreate, Accepts, WellFormed;
    if s'.calls[c].phase.Done? {
      ElsewhereKeepsMoney(s, s');
    } else {
      assert Grows(s, s') && SentOk(s', ChargeRequest(o, s'.bills[o]));
      hide SentOk, RowOk, Grows, OrderOk;
      Carry(s, s');
    }
  }

  /** A step of an order call writes only what is in order. */
  ghost predicate EffectOk(s: State, o: string, f: Effect) {
    && PhaseOk(s, o, f.phase)
    && (f.row.Some? ==> VersionOk(s, o, f.row.value) && (f.row.value.status == Cancelled ==> Credited(s, o)))
    && (f.request.Some? ==> SentOk(s, f.request.value))
  }

  lemma ReplyOk(s: State, k: Call, ok: bool)
    requires PhaseOk(s, k.orderId, k.phase) && Reply(s, k, ok).Some?
    ensures EffectOk(s, k.orderId, Reply(s, k, ok).value)
  {
    hide Accepts;
  }

  lemma InsertOk(s: State, k: Call, now: int, fate: Fate)
    requires PhaseOk(s, k.orderId, k.phase) && Inserted(s, k, now, fate).Some?
    ensures EffectOk(s, k.orderId, Inserted(s, k, now, fate).value)
  {
    hide Accepts;
  }

  lemma ReadOk(s: State, k: Call, up: bool)
    requires ReadBack(s, k, up).Some?
    requires k.orderId in s.orders ==> OrderOk(s, k.orderId) && s.bills[k.orderId].price > 0
    ensures EffectOk(s, k.orderId, ReadBack(s, k, up).value)
  {
    hide Accepts;
  }

  lemma RowWriteOk(s: State, k: Call, now: int, fate: Fate)
    requires PhaseOk(s, k.orderId, k.phase) && (k.orderId in s.orders ==> OrderOk(s, k.orderId))
    ensures Assigned(s, k, now, fate).Some? ==> EffectOk(s, k.orderId, Assigned(s, k, now, fate).value)
    ensures Written(s, k, now, fate).Some? ==> EffectOk(s, k.orderId, Written(s, k, now, fate).value)
    ensures Rated(s, k, now, fate).Some? ==> EffectOk(s, k.orderId, Rated(s, k, now, fate).value)
  {
    hide Accepts;
  }

  lemma NoRowWriteOk(s: State, k: Call)
    requires PhaseOk(s, k.orderId, k.phase)
    ensures forall took :: Indexed(k, took).Some? ==> EffectOk(s, k.orderId, Indexed(k, took).value)
    ensures forall took :: Released(k, took).Some? ==> EffectOk(s, k.orderId, Released(k, took).value)
    ensures forall d, acked :: Claimed(s, k, d, acked).Some? ==> EffectOk(s, k.orderId, Claimed(s, k, d, acked).value)
  {
    hide Accepts;
  }

  lemma EffectsOk(s: State, c: nat, e: Event)
    requires MoneyInv(s) && c in s.calls && EffectOf(s, s.calls[c], e).Some?
    ensures EffectOk(s, s.calls[c].orderId, EffectOf(s, s.calls[c], e).value)
  {
    var k := s.calls[c];
    assert PhaseOk(s, k.orderId, k.phase);
    assert k.orderId in s.orders ==> OrderOk(s, k.orderId) && s.bills[k.orderId].price > 0;
    hide MoneyInv, OrderOk, PhaseOk, EffectOk, Reply, Inserted, ReadBack, Assigned, Written, Rated, Indexed, Released, Claimed;
    match e
    case WalletReply(_, ok) => ReplyOk(s, k, ok);
    case Insert(_, now, fate) => InsertOk(s, k, now, fate);
    case Read(_, up) => ReadOk(s, k, up);
    case Assign(_, now, fate) => RowWriteOk(s, k, now, fate);
    case Write(_, now, fate) => RowWriteOk(s, k, now, fate);
    case RateRow(_, now, fate) => RowWriteOk(s, k, now, fate);
    case _ => NoRowWriteOk(s, k);
  }

  lemma CallKeepsMoney(s: State, s': State, c: nat, f: Effect)
    requires MoneyInv(s) && c in s.calls && EffectOk(s, s.calls[c].orderId, f) && s' == Perform(s, c, f)
    ensures MoneyInv(s')
  {
    hide Accepts;
    Carry(s, s');
  }

  lemma StepKeepsMoney(s: State, s': State, e: Event)
    requires MoneyInv(s) && Step(s, e) == Some(s')
    ensures MoneyInv(s')
  {
    hide MoneyInv, EffectOf, EffectOk, Perform, StepCreate, Apply;
    match e
    case OpenWallet(u, w) => OpenKeepsMoney(s, u, w);
    case External(req, id, at) => ApplyKeepsMoney(s, req, id, at);
    case Deliver(req, id, at) => ApplyKeepsMoney(s, req, id, at);
    case CreateOrder(c, o, input, price) => CreateKeepsMoney(s, s', c, o, input, price);
    case NewDriver(_, _) => ElsewhereKeepsMoney(s, s');
    case DriverSets(_, _) => ElsewhereKeepsMoney(s, s');
    case DriverMoves(_, _) => ElsewhereKeepsMoney(s, s');
    case Act(_, _, _) => ElsewhereKeepsMoney(s, s');
    case _ =>
      EffectsOk(s, e.call, e);
      CallKeepsMoney(s, s', e.call, EffectOf(s, s.calls[e.call], e).value);
  }

  lemma OpenKeepsMoney(s: State, u: string, w: string)
    requires MoneyInv(s) && FreshWalletId(s.book, w)
    ensures MoneyInv(s.(book := Ledger.OpenWallet(s.book, u, w)))
  {
    var s' := s.(book := Ledger.OpenWallet(s.book, u, w));
    OpenAccepts(s.book, u, w);
    hide Ledger.OpenWallet, WellFormed, Accepts, FreshWalletId, RowOk, SentOk, OrderOk, PhaseOk;
    Carry(s, s');
  }

  lemma OpenAccepts(book: Book, u: string, w: string)
    requires FreshWalletId(book, w)
    ensures var book' := Ledger.OpenWallet(book, u, w);
      && (WellFormed(book) ==> WellFormed(book')) && book'.rows == book.rows
      && (forall r :: Accepts(book, r) ==> Accepts(book', r))
      && (forall v :: v in book.wallets ==> v in book'.wallets && book'.wallets[v] == book.wallets[v])
  {
  }

  /** Steps that touch neither wallet, bills, requests nor orders. */
  lemma ElsewhereKeepsMoney(s: State, s': State)
    requires MoneyInv(s) && s'.book == s.book && s'.bills == s.bills && s'.sent == s.sent && s'.orders == s.orders
    requires forall c :: c in s'.calls ==>
      (c in s.calls && s'.calls[c] == s.calls[c]) || s'.calls[c].phase.Reading? || s'.calls[c].phase.Done?
    ensures MoneyInv(s')
  {
    hide Accepts;
    Carry(s, s');
  }

  lemma {:induction false} RunKeepsMoney(es: seq<Event>)
    requires Run(es).Some?
    ensures MoneyInv(Run(es).value)
  {
    if es != [] {
      RunKeepsMoney(es[..|es| - 1]);
      StepKeepsMoney(Run(es[..|es| - 1]).value, Run(es).value, es[|es| - 1]);
    }
  }

  // ----- Theorems -----

  /** The ledger has a row of this kind for the order, on the rider's wallet and at the order's price. */
  ghost predicate Posted(s: State, o: string, kind: Kind) {
    && o in s.bills && s.bills[o].userId in s.book.wallets
    && exists t :: t in s.book.rows && t.reference == o && t.kind == kind && t.amount == s.bills[o].price
                   && t.walletId == s.book.wallets[s.bills[o].userId].id
  }

  /** What the rows naming `o` add to the rider's balance. */
  function Net(rows: seq<Transaction>, o: string): int {
    if rows == [] then 0
    else
      var last := rows[|rows| - 1];
      Net(rows[..|rows| - 1], o)
      + if last.reference != o then 0 else if last.kind.Credit? then last.amount else -(last.amount as int)
  }

  lemma {:induction false} NetOf(rows: seq<Transaction>, o: string, w: string, price: Int64)
    requires UniqueKeys(rows)
    requires forall t :: t in rows && t.reference == o ==> t.walletId == w && t.amount == price
    ensures Net(rows, o) == (if Find(rows, w, o, Credit).Some? then price else 0)
                            - (if Find(rows, w, o, Debit).Some? then price else 0)
  {
    if rows != [] {
      var n := |rows| - 1;
      NetOf(rows[..n], o, w, price);
      var last := rows[n];
      if last.reference == o {
        assert last in rows;
        assert forall t :: t in rows[..n] ==> !SameKey(t, last.walletId, last.reference, last.kind);
      }
    }
  }

  lemma DebitedIsPosted(s: State, o: string)
    requires MoneyInv(s)
    ensures Debited(s, o) <==> Posted(s, o, Debit)
    ensures Credited(s, o) <==> Posted(s, o, Credit)
  {
    if o in s.bills && s.bills[o].userId in s.book.wallets {
      var w := s.book.wallets[s.bills[o].userId].id;
      var debit, credit := Find(s.book.rows, w, o, Debit), Find(s.book.rows, w, o, Credit);
      assert debit.Some? ==> RowOk(s, debit.value);
      assert credit.Some? ==> RowOk(s, credit.value);
    }
  }

  /**
   In every interleaving an order has at most one debit and at most one credit,
   each at its price and on its rider's wallet; a credit only with the debit;
   so the rider is out of pocket by nothing or by exactly the price.
   */
  lemma {:induction false} OrderPaidAtMostOnce(es: seq<Event>, o: string)
    requires Run(es).Some? && o in Run(es).value.bills
    ensures var s := Run(es).value; var rows := s.book.rows;
      && (forall i, j :: 0 <= i < j < |rows| && rows[i].reference == o && rows[j].reference == o ==>
            rows[i].kind != rows[j].kind)
      && (forall t :: t in rows && t.reference == o ==> Posted(s, o, t.kind) && t.amount == s.bills[o].price)
      && (Posted(s, o, Credit) ==> Posted(s, o, Debit))
      && Net(rows, o) == if Posted(s, o, Debit) && !Posted(s, o, Credit) then -(s.bills[o].price as int) else 0
  {
    RunKeepsMoney(es);
    var s := Run(es).value;
    var rows, bill := s.book.rows, s.bills[o];
    forall t | t in rows && t.reference == o ensures RowOk(s, t) && Posted(s, o, t.kind) { assert RowOk(s, t); }
    DebitedIsPosted(s, o);
    if bill.userId in s.book.wallets {
      NetOf(rows, o, s.book.wallets[bill.userId].id, bill.price);
    } else {
      NetOf(rows, o, "", bill.price);
    }
  }

  lemma StepGrows(s: State, s': State, e: Event)
    requires Step(s, e) == Some(s')
    ensures Grows(s, s')
  {
    hide Accepts, EffectOf, StepCreate, Apply, Ledger.OpenWallet, FreshWalletId;
    if e.External? || e.Deliver? {
      ApplyGrows(s, e.req, e.id, e.at);
    } else if e.OpenWallet? {
      OpenAccepts(s.book, e.walletUser, e.walletId);
    } else if e.CreateOrder? {
      CreateFrame(s, s', e.call, e.orderId, e.input, e.price);
    } else {
      assert s'.book == s.book && s'.bills == s.bills;
    }
  }

  lemma {:induction false} PrefixGrows(es: seq<Event>, k: nat)
    requires Run(es).Some? && k <= |es|
    ensures Run(es[..k]).Some? && Grows(Run(es[..k]).value, Run(es).value)
  {
    if k == |es| {
      assert es[..k] == es;
    } else {
      var shorter := es[..|es| - 1];
      PrefixGrows(shorter, k);
      assert shorter[..k] == es[..k];
      StepGrows(Run(shorter).value, Run(es).value, es[|es| - 1]);
      hide Step, Accepts;
    }
  }

  /**
   In every interleaving and under every failure pattern, an order whose row
   ever said cancelled has its debit and its credit in the ledger from then on.
   */
  lemma {:induction false} CancelledWasRefunded(es: seq<Event>, k: nat, o: string)
    requires Run(es).Some? && k <= |es|
    requires Run(es[..k]).Some? ==>
      o in Run(es[..k]).value.orders && Run(es[..k]).value.orders[o].status == Cancelled
    ensures var s := Run(es).value;
      Posted(s, o, Debit) && Posted(s, o, Credit) && Net(s.book.rows, o) == 0
  {
    PrefixGrows(es, k);
    RunKeepsMoney(es[..k]);
    assert OrderOk(Run(es[..k]).value, o);
    RunKeepsMoney(es);
    DebitedIsPosted(Run(es).value, o);
    OrderPaidAtMostOnce(es, o);
  }

  /** No order row without its payment: a stored order was debited at the price it shows. */
  lemma {:induction false} StoredOrderWasPaid(es: seq<Event>, o: string)
    requires Run(es).Some? && o in Run(es).value.orders
    ensures var s := Run(es).value;
      && Posted(s, o, Debit)
      && s.orders[o].price == Some(s.bills[o].price) && s.orders[o].userId == s.bills[o].userId
  {
    RunKeepsMoney(es);
    assert OrderOk(Run(es).value, o);
    DebitedIsPosted(Run(es).value, o);
  }
}
