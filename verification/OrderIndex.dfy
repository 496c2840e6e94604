/**
 The search index as a mirror of the orders table. IndexOrder overwrites one
 document, its failures are only logged, and rows change under other calls.
 */
module OrderIndex {
  import opened Prelude
  import opened Ledger
  import opened OrderTypes
  import opened OrderMachine
  import opened OrderMoney
  import opened OrderLifecycle

  // ----- In every interleaving -----

  predicate RowAt(es: seq<Event>, k: nat, row: Order) {
    && k <= |es| && Run(es[..k]).Some?
    && row.id in Run(es[..k]).value.orders && Run(es[..k]).value.orders[row.id] == row
  }

  /** At some point of the run the table had exactly this row. */
  ghost predicate WasRow(es: seq<Event>, row: Order) {
    exists k: nat :: RowAt(es, k, row)
  }

  /** The row version that a call in this phase carries, or has returned. */
  function Snapshot(p: Phase): Option<Order> {
    if p.Charging? || p.Inserting? || p.Compensating? || p.Reading? then None
    else if p.Done? then if p.answer.Returned? then Some(p.answer.order) else None
    else Some(p.order)
  }

  /** What the step of an order call does; None for every other event. */
  function CallEffect(s: State, e: Event): Option<Effect> {
    if Outside(e) || e.CreateOrder? || e.Act? || e.call !in s.calls then None
    else EffectOf(s, s.calls[e.call], e)
  }

  /** A step indexes the version it carries, and carries on with that one, the one it wrote, or the one it read. */
  lemma EffectSnapshot(s: State, k: Call, e: Event)
    requires EffectOf(s, k, e).Some?
    ensures var f := EffectOf(s, k, e).value;
      && (f.document.Some? ==> f.row.None? && f.document == Snapshot(k.phase) && k.phase.Done? == false)
      && (Snapshot(f.phase).Some? ==>
            || Snapshot(f.phase) == Snapshot(k.phase)
            || Snapshot(f.phase) == f.row
            || (k.orderId in s.orders && Snapshot(f.phase) == Some(s.orders[k.orderId])))
  {
    hide Accepts;
  }

  ghost predicate MirrorInv(es: seq<Event>, s: State) {
    && (forall o :: o in s.index ==>
          exists row :: WasRow(es, row) && row.id == o && s.index[o] == DocumentFromDomain(row))
    && (forall c :: c in s.calls && Snapshot(s.calls[c].phase).Some? ==> WasRow(es, Snapshot(s.calls[c].phase).value))
  }

  lemma {:induction false} WasRowStays(es: seq<Event>, e: Event, row: Order)
    requires WasRow(es, row)
    ensures WasRow(es + [e], row)
  {
    var k: nat :| RowAt(es, k, row);
    assert (es + [e])[..k] == es[..k];
    assert RowAt(es + [e], k, row);
  }

  lemma {:induction false} IsRow(es: seq<Event>, o: string)
    requires Run(es).Some? && o in Run(es).value.orders
    ensures Run(es).value.orders[o].id == o && WasRow(es, Run(es).value.orders[o])
  {
    RunKeepsMoney(es);
    assert OrderOk(Run(es).value, o);
    assert es[..|es|] == es;
    assert RowAt(es, |es|, Run(es).value.orders[o]);
  }

  lemma {:induction false} CallKeepsSnapshots(es: seq<Event>, e: Event, s: State, s': State, f: Effect)
    requires Run(es) == Some(s) && Run(es + [e]) == Some(s') && MirrorInv(es, s)
    requires CallEffect(s, e) == Some(f) && s' == Perform(s, e.call, f)
    ensures forall d :: d in s'.calls && Snapshot(s'.calls[d].phase).Some? ==>
      WasRow(es + [e], Snapshot(s'.calls[d].phase).value)
  {
    var c := e.call;
    EffectSnapshot(s, s.calls[c], e);
    if f.row.Some? { IsRow(es + [e], s.calls[c].orderId); }
    if s.calls[c].orderId in s.orders { IsRow(es, s.calls[c].orderId); }
    hide EffectOf, WasRow, Run, Snapshot;
    forall d | d in s'.calls && Snapshot(s'.calls[d].phase).Some?
      ensures WasRow(es + [e], Snapshot(s'.calls[d].phase).value)
    {
      var row := Snapshot(s'.calls[d].phase).value;
      if d == c && f.row == Some(row) {
        assert s'.orders[s.calls[c].orderId] == row;
      } else {
        WasRowStays(es, e, row);
      }
    }
  }

  lemma {:induction false} CallKeepsDocuments(es: seq<Event>, e: Event, s: State, f: Effect, o: string)
    requires MirrorInv(es, s) && CallEffect(s, e) == Some(f) && o in Perform(s, e.call, f).index
    ensures exists row :: WasRow(es + [e], row) && row.id == o
                          && Perform(s, e.call, f).index[o] == DocumentFromDomain(row)
  {
    EffectSnapshot(s, s.calls[e.call], e);
    hide EffectOf, WasRow, Snapshot, DocumentFromDomain;
    if f.document.Some? && f.document.value.id == o {
      WasRowStays(es, e, f.document.value);
    } else {
      var row :| WasRow(es, row) && row.id == o && s.index[o] == DocumentFromDomain(row);
      WasRowStays(es, e, row);
    }
  }

  lemma {:induction false} CallKeepsMirror(es: seq<Event>, e: Event, s: State, s': State, f: Effect)
    requires Run(es) == Some(s) && Run(es + [e]) == Some(s') && MirrorInv(es, s)
    requires CallEffect(s, e) == Some(f) && s' == Perform(s, e.call, f)
    ensures MirrorInv(es + [e], s')
  {
    CallKeepsSnapshots(es, e, s, s', f);
    forall o | o in s'.index
      ensures exists row :: WasRow(es + [e], row) && row.id == o && s'.index[o] == DocumentFromDomain(row)
    {
      CallKeepsDocuments(es, e, s, f, o);
    }
    hide EffectOf, WasRow, Run, Snapshot, DocumentFromDomain, Perform;
  }

  lemma {:induction false} QuietKeepsMirror(es: seq<Event>, e: Event, s: State, s': State)
    requires MirrorInv(es, s) && s'.index == s.index
    requires forall c :: c in s'.calls && Snapshot(s'.calls[c].phase).Some? ==> c in s.calls && s'.calls[c] == s.calls[c]
    ensures MirrorInv(es + [e], s')
  {
    hide WasRow, Snapshot;
    forall c | c in s'.calls && Snapshot(s'.calls[c].phase).Some?
      ensures WasRow(es + [e], Snapshot(s'.calls[c].phase).value)
    {
      WasRowStays(es, e, Snapshot(s'.calls[c].phase).value);
    }
    forall o | o in s'.index
      ensures exists row :: WasRow(es + [e], row) && row.id == o && s'.index[o] == DocumentFromDomain(row)
    {
      var row :| WasRow(es, row) && row.id == o && s.index[o] == DocumentFromDomain(row);
      WasRowStays(es, e, row);
    }
  }

  /** Events that are not steps of order calls. */
  lemma QuietStep(s: State, s': State, e: Event)
    requires Step(s, e) == Some(s') && CallEffect(s, e).None?
    ensures s'.index == s.index && s'.orders == s.orders
    ensures forall c :: c in s'.calls && Snapshot(s'.calls[c].phase).Some? ==> c in s.calls && s'.calls[c] == s.calls[c]
  {
    if e.CreateOrder? {
      CreateFrame(s, s', e.call, e.orderId, e.input, e.price);
      CreateLeavesDrivers(s, s', e);
      hide StepCreate;
    } else {
      hide EffectOf;
    }
  }

  lemma {:induction false} RunKeepsMirror(es: seq<Event>)
    requires Run(es).Some?
    ensures MirrorInv(es, Run(es).value)
  {
    if es != [] {
      var shorter, e := es[..|es| - 1], es[|es| - 1];
      var s, s' := Run(shorter).value, Run(es).value;
      RunKeepsMirror(shorter);
      assert es == shorter + [e];
      if CallEffect(s, e).Some? {
        CallKeepsMirror(shorter, e, s, s', CallEffect(s, e).value);
      } else {
        QuietStep(s, s', e);
        QuietKeepsMirror(shorter, e, s, s');
      }
    }
  }

  /** The document bears the row's own fields, and zero values for the absent ones. */
  predicate Shows(doc: OrderDocument, row: Order) {
    && doc.id == row.id && doc.userId == row.userId && doc.taxiType == row.taxiType && doc.status == row.status
    && doc.start == row.start && doc.destination == row.destination
    && doc.createdAt == row.createdAt && doc.updatedAt == row.updatedAt
    && doc.driverId == (if row.driverId.Some? then row.driverId.value else "")
    && doc.price == (if row.price.Some? then row.price.value else 0)
    && doc.rating == (if row.rating.Some? then row.rating.value else 0)
    && doc.comment == (if row.comment.Some? then row.comment.value else "")
  }

  lemma ConversionShows(row: Order)
    ensures Shows(DocumentFromDomain(row), row)
  {
  }

  /** In every interleaving each document shows a version that its row really had, field by field. */
  lemma {:induction false} DocumentsWereRows(es: seq<Event>, o: string)
    requires Run(es).Some? && o in Run(es).value.index
    ensures exists row :: WasRow(es, row) && row.id == o && Shows(Run(es).value.index[o], row)
  {
    RunKeepsMirror(es);
    var row :| WasRow(es, row) && row.id == o && Run(es).value.index[o] == DocumentFromDomain(row);
    ConversionShows(row);
    hide Run, WasRow;
  }

  /** And so is every order that a call returns. */
  lemma {:induction false} ReturnedOrdersWereRows(es: seq<Event>, c: nat, order: Order)
    requires Run(es).Some? && c in Run(es).value.calls && Run(es).value.calls[c].phase == Done(Returned(order))
    ensures WasRow(es, order)
  {
    RunKeepsMirror(es);
    assert Snapshot(Run(es).value.calls[c].phase) == Some(order);
  }

  // ----- When calls on one order do not overlap -----

  predicate WritesRow(s: State, e: Event, o: string) {
    CallEffect(s, e).Some? && s.calls[e.call].orderId == o && CallEffect(s, e).value.row.Some?
  }

  predicate WritesDocument(s: State, e: Event, o: string) {
    CallEffect(s, e).Some? && s.calls[e.call].orderId == o && CallEffect(s, e).value.document.Some?
  }

  /** The last write of order `o`, to the table or to the index, was to the index. */
  predicate IndexedLast(es: seq<Event>, o: string) {
    if es == [] || Run(es[..|es| - 1]).None? then false
    else
      var s, e := Run(es[..|es| - 1]).value, es[|es| - 1];
      if WritesRow(s, e, o) then false
      else if WritesDocument(s, e, o) then true
      else IndexedLast(es[..|es| - 1], o)
  }

  predicate Matches(s: State, o: string) {
    o in s.orders && o in s.index && s.index[o] == DocumentFromDomain(s.orders[o])
  }

  /** The document shows an earlier stage of the order than the row. */
  predicate Behind(doc: OrderDocument, row: Order) {
    || Later(doc.status, row.status)
    || (doc.status == row.status == Completed && doc.rating == 0 && row.rating.Some?)
  }

  lemma BehindDiffers(doc: OrderDocument, row: Order)
    requires Behind(doc, row) && RowFieldsOk(row)
    ensures doc != DocumentFromDomain(row)
  {
  }

  /** A legal move leaves a matching document behind, and one that is behind further behind. */
  lemma MoveLeavesBehind(orders: map<string, Order>, o: string, row: Order, doc: OrderDocument)
    requires o in orders && MoveOk(orders, o, row)
    requires doc == DocumentFromDomain(orders[o]) || Behind(doc, orders[o])
    ensures Behind(doc, row)
  {
  }

  ghost predicate MirrorLag(s: State, o: string, indexedLast: bool) {
    && (indexedLast ==> Matches(s, o))
    && (!indexedLast && o in s.index ==> o in s.orders && Behind(s.index[o], s.orders[o]))
  }

  /** A document written is the current row; a row written is a legal move. */
  lemma EffectLag(s: State, e: Event)
    requires LifeInv(s) && MoneyInv(s) && CallEffect(s, e).Some?
    ensures var o, f := s.calls[e.call].orderId, CallEffect(s, e).value;
      && (f.document.Some? ==> f.row.None? && o in s.orders && f.document == Some(s.orders[o]) && s.orders[o].id == o)
      && (f.row.Some? ==> MoveOk(s.orders, o, f.row.value))
  {
    var k := s.calls[e.call];
    assert SnapOk(s.orders, k.orderId, k.phase) && PhaseOk(s, k.orderId, k.phase);
    assert k.orderId in s.orders ==> k.orderId in s.bills && LifeOk(s.orders[k.orderId]);
    hide LifeInv, MoneyInv, MoveOk, LifeOk, SnapOk, PhaseOk;
    EffectLife(s, k, e);
    EffectSnapshot(s, k, e);
    var f := EffectOf(s, k, e).value;
    hide EffectOf;
    if f.document.Some? { DocumentIsCurrent(s, k, e); }
  }

  lemma CallKeepsLag(s: State, c: nat, f: Effect, o: string, last: bool)
    requires MirrorLag(s, o, last) && c in s.calls
    requires var x := s.calls[c].orderId;
      && (f.document.Some? ==> f.row.None? && x in s.orders && f.document == Some(s.orders[x]) && s.orders[x].id == x)
      && (f.row.Some? ==> MoveOk(s.orders, x, f.row.value))
    ensures var own := s.calls[c].orderId == o;
      MirrorLag(Perform(s, c, f), o, if own && f.row.Some? then false else (own && f.document.Some?) || last)
  {
    if f.row.Some? && s.calls[c].orderId == o && o in s.index {
      MoveLeavesBehind(s.orders, o, f.row.value, s.index[o]);
    }
    hide Behind, DocumentFromDomain, MoveOk;
  }

  lemma DocumentIsCurrent(s: State, k: Call, e: Event)
    requires EffectOf(s, k, e).Some? && EffectOf(s, k, e).value.document.Some?
    requires SnapOk(s.orders, k.orderId, k.phase) && PhaseOk(s, k.orderId, k.phase)
    ensures k.orderId in s.orders && EffectOf(s, k, e).value.document == Some(s.orders[k.orderId])
    ensures s.orders[k.orderId].id == k.orderId
  {
    hide Accepts;
  }

  lemma {:induction false} RunKeepsLag(es: seq<Event>, o: string)
    requires Run(es).Some? && PerOrder(es)
    ensures MirrorLag(Run(es).value, o, IndexedLast(es, o))
  {
    if es != [] {
      var shorter, e := es[..|es| - 1], es[|es| - 1];
      var s, s' := Run(shorter).value, Run(es).value;
      PerOrderShorter(es);
      RunKeepsLag(shorter, o);
      RunKeepsLife(shorter);
      RunKeepsMoney(shorter);
      if CallEffect(s, e).Some? {
        EffectLag(s, e);
        CallKeepsLag(s, e.call, CallEffect(s, e).value, o, IndexedLast(shorter, o));
      } else {
        QuietStep(s, s', e);
      }
      hide EffectOf, LifeInv, MoneyInv, Behind, DocumentFromDomain, StepOutside, StepCreate, StepAct;
    }
  }

  /**
   The document of an order matches its row exactly when the last write of that
   order was one to the index; otherwise it shows an earlier stage of the order.
   */
  lemma {:induction false} MatchesIffIndexedLast(es: seq<Event>, o: string)
    requires Run(es).Some? && PerOrder(es)
    ensures Matches(Run(es).value, o) <==> IndexedLast(es, o)
    ensures o in Run(es).value.index && !IndexedLast(es, o) ==>
      o in Run(es).value.orders && Behind(Run(es).value.index[o], Run(es).value.orders[o])
  {
    RunKeepsLag(es, o);
    RunKeepsFields(es);
    var s := Run(es).value;
    if !IndexedLast(es, o) && o in s.index {
      assert RowFieldsOk(s.orders[o]);
      BehindDiffers(s.index[o], s.orders[o]);
    }
    hide Behind, RowFieldsOk, DocumentFromDomain, FieldsInv;
  }

  // ----- The claim per call -----

  /** AssignDriver of call `c` reported an error after step `i`, though the row was written. */
  ghost predicate AssignLost(es: seq<Event>, i: nat, c: nat) {
    exists j :: i < j < |es| && es[j].Assign? && es[j].call == c && es[j].fate.LostAck?
  }

  /** Step `i` is the last IndexOrder of call `c`, it took effect, and no other call works on the order after it. */
  ghost predicate LastIndexTook(es: seq<Event>, i: nat, c: nat, o: string) {
    && i < |es| && es[i] == Index(c, true)
    && Run(es[..i]).Some? && c in Run(es[..i]).value.calls && Run(es[..i]).value.calls[c].orderId == o
    && (forall j :: i < j < |es| ==> !(es[j].Index? && es[j].call == c))
    && (forall j :: i < j < |es| && Run(es[..j]).Some? && CallEffect(Run(es[..j]).value, es[j]).Some? && es[j].call != c ==>
          Run(es[..j]).value.calls[es[j].call].orderId != o)
  }

  ghost predicate AfterIndex(p: Phase, lost: bool, indexedLast: bool) {
    if lost then (p.Unassigning? || p.Done?) && !indexedLast
    else p.IndexingAssigned? || ((p.Claiming? || p.Assigning? || p.Unassigning? || p.Done?) && indexedLast)
  }

  /** How the steps that follow an IndexOrder in CreateOrder move the call. */
  lemma EffectAfterIndex(s: State, k: Call, e: Event, lost: bool, last: bool)
    requires EffectOf(s, k, e).Some? && AfterIndex(k.phase, lost, last) && !e.Index?
    requires SnapOk(s.orders, k.orderId, k.phase)
    ensures var f := EffectOf(s, k, e).value;
      AfterIndex(f.phase, lost || (e.Assign? && e.fate.LostAck?), last && f.row.None?) && f.document.None?
  {
    hide Accepts;
  }

  lemma KeptCall(s: State, s': State, e: Event, c: nat)
    requires Step(s, e) == Some(s') && c in s.calls
    requires CallEffect(s, e).Some? ==> e.call != c
    ensures c in s'.calls && s'.calls[c] == s.calls[c]
  {
    if e.CreateOrder? {
      CreateFrame(s, s', e.call, e.orderId, e.input, e.price);
      hide StepCreate;
    } else {
      hide EffectOf, Apply, Ledger.OpenWallet;
    }
  }

  lemma IndexedAt(s: State, s': State, c: nat)
    requires Step(s, Index(c, true)) == Some(s')
    ensures WritesDocument(s, Index(c, true), s.calls[c].orderId) && c in s'.calls
    ensures s'.calls[c].orderId == s.calls[c].orderId && AfterIndex(s'.calls[c].phase, false, true)
  {
  }

  lemma {:induction false} StepAfterIndex(es: seq<Event>, s: State, e: Event, c: nat, o: string, lost: bool)
    requires es != [] && es[|es| - 1] == e && Run(es[..|es| - 1]) == Some(s) && Run(es).Some? && LifeInv(s)
    requires c in s.calls && s.calls[c].orderId == o && AfterIndex(s.calls[c].phase, lost, IndexedLast(es[..|es| - 1], o))
    requires !(e.Index? && e.call == c)
    requires CallEffect(s, e).Some? && e.call != c ==> s.calls[e.call].orderId != o
    ensures var s' := Run(es).value;
      && c in s'.calls && s'.calls[c].orderId == o
      && AfterIndex(s'.calls[c].phase, lost || (e.Assign? && e.call == c && e.fate.LostAck?), IndexedLast(es, o))
  {
    var s' := Run(es).value;
    if CallEffect(s, e).Some? && e.call == c {
      assert SnapOk(s.orders, o, s.calls[c].phase);
      EffectAfterIndex(s, s.calls[c], e, lost, IndexedLast(es[..|es| - 1], o));
      hide EffectOf, AfterIndex, LifeInv, SnapOk;
    } else {
      hide AfterIndex, LifeInv;
      KeptCall(s, s', e, c);
      assert e.Assign? && e.call == c ==> CallEffect(s, e).Some?;
      hide Step, CallEffect;
    }
  }

  lemma {:induction false} AfterLastIndex(es: seq<Event>, i: nat, c: nat, o: string)
    requires PerOrder(es) && Run(es).Some? && LastIndexTook(es, i, c, o)
    ensures c in Run(es).value.calls && Run(es).value.calls[c].orderId == o
    ensures AfterIndex(Run(es).value.calls[c].phase, AssignLost(es, i, c), IndexedLast(es, o))
  {
    var shorter, e := es[..|es| - 1], es[|es| - 1];
    var s, s' := Run(shorter).value, Run(es).value;
    if i == |es| - 1 {
      assert es[..i] == shorter;
      IndexedAt(s, s', c);
      hide Step, CallEffect;
    } else {
      PerOrderShorter(es);
      RunKeepsLife(shorter);
      LastIndexShorter(es, i, c, o);
      AfterLastIndex(shorter, i, c, o);
      AssignLostSnoc(es, i, c);
      StepAfterIndex(es, s, e, c, o, AssignLost(shorter, i, c));
    }
  }

  lemma {:induction false} LastIndexShorter(es: seq<Event>, i: nat, c: nat, o: string)
    requires LastIndexTook(es, i, c, o) && i < |es| - 1 && Run(es).Some?
    ensures var shorter, e := es[..|es| - 1], es[|es| - 1];
      && LastIndexTook(shorter, i, c, o) && !(e.Index? && e.call == c)
      && (CallEffect(Run(shorter).value, e).Some? && e.call != c ==> Run(shorter).value.calls[e.call].orderId != o)
  {
    var shorter := es[..|es| - 1];
    assert forall j :: 0 <= j < |shorter| ==> shorter[..j] == es[..j] && shorter[j] == es[j];
    hide CallEffect, Step;
  }

  lemma {:induction false} AssignLostSnoc(es: seq<Event>, i: nat, c: nat)
    requires i < |es| - 1
    ensures var shorter, e := es[..|es| - 1], es[|es| - 1];
      AssignLost(es, i, c) <==> AssignLost(shorter, i, c) || (e.Assign? && e.call == c && e.fate.LostAck?)
  {
    var shorter := es[..|es| - 1];
    if AssignLost(shorter, i, c) {
      var j :| i < j < |shorter| && shorter[j].Assign? && shorter[j].call == c && shorter[j].fate.LostAck?;
      assert es[j] == shorter[j];
    }
    if AssignLost(es, i, c) {
      var j :| i < j < |es| && es[j].Assign? && es[j].call == c && es[j].fate.LostAck?;
      assert j < |shorter| ==> es[j] == shorter[j];
    }
  }

  /**
   After a finished call whose last IndexOrder took effect the document matches
   the row if and only if no AssignDriver wrote the row and reported an error:
   CreateOrder then releases the driver and does not index the row again.
   */
  lemma {:induction false} FinishedCallMirrors(es: seq<Event>, i: nat, c: nat, o: string)
    requires PerOrder(es) && Run(es).Some? && LastIndexTook(es, i, c, o)
    requires c in Run(es).value.calls && Run(es).value.calls[c].phase.Done?
    ensures Matches(Run(es).value, o) <==> !AssignLost(es, i, c)
  {
    AfterLastIndex(es, i, c, o);
    MatchesIffIndexedLast(es, o);
    hide Matches, AssignLost, IndexedLast, LastIndexTook;
  }

  // ----- Runs without lost acknowledgements -----

  /** IndexOrder takes effect, and no SQL write takes effect while it reports an error. */
  predicate Clean(e: Event) {
    && (e.Index? ==> e.took)
    && (e.Insert? || e.Assign? || e.Write? || e.RateRow? ==> !e.fate.LostAck?)
  }

  /** A call is about to index the order. */
  ghost predicate Pending(s: State, o: string) {
    exists c :: c in s.calls && s.calls[c].orderId == o && Indexes(s.calls[c].phase)
  }

  predicate Indexes(p: Phase) {
    p.Indexing? || p.IndexingAssigned? || p.IndexingLast?
  }

  lemma EffectIsPending(s: State, k: Call, e: Event)
    requires EffectOf(s, k, e).Some? && Clean(e)
    ensures var f := EffectOf(s, k, e).value;
      && (f.row.Some? ==> Indexes(f.phase)) && (Indexes(k.phase) ==> f.document.Some? && f.row.None?)
  {
    hide Accepts;
  }

  lemma {:induction false} StepKeepsPending(es: seq<Event>, s: State, s': State, e: Event, o: string)
    requires es != [] && es[|es| - 1] == e && Run(es[..|es| - 1]) == Some(s) && Run(es) == Some(s') && Clean(e)
    requires o in s'.orders && (o in s.orders ==> IndexedLast(es[..|es| - 1], o) || Pending(s, o))
    ensures IndexedLast(es, o) || Pending(s', o)
  {
    if CallEffect(s, e).Some? {
      var k, f := s.calls[e.call], CallEffect(s, e).value;
      EffectIsPending(s, k, e);
      hide EffectOf, Indexes;
      if k.orderId == o && f.row.Some? {
        assert s'.calls[e.call] == Call(o, f.phase);
      } else if Pending(s, o) && !IndexedLast(es, o) {
        var c :| c in s.calls && s.calls[c].orderId == o && Indexes(s.calls[c].phase);
        assert c != e.call && s'.calls[c] == s.calls[c];
      }
    } else {
      QuietStep(s, s', e);
      if Pending(s, o) {
        var c :| c in s.calls && s.calls[c].orderId == o && Indexes(s.calls[c].phase);
        KeptCall(s, s', e, c);
      }
      hide Step;
    }
  }

  lemma {:induction false} RunKeepsPending(es: seq<Event>, o: string)
    requires Run(es).Some? && (forall e :: e in es ==> Clean(e)) && o in Run(es).value.orders
    ensures IndexedLast(es, o) || Pending(Run(es).value, o)
  {
    if es != [] {
      var shorter, e := es[..|es| - 1], es[|es| - 1];
      assert e in es;
      if o in Run(shorter).value.orders { RunKeepsPending(shorter, o); }
      StepKeepsPending(es, Run(shorter).value, Run(es).value, e, o);
    }
  }

  /** Calls on one order not overlapping and nothing lost, the index shows every order that no call is at work on. */
  lemma {:induction false} CleanRunsMirror(es: seq<Event>, o: string)
    requires Run(es).Some? && PerOrder(es) && (forall e :: e in es ==> Clean(e))
    requires o in Run(es).value.orders
    requires forall c :: InFlight(Run(es).value, c) ==> Run(es).value.calls[c].orderId != o
    ensures Matches(Run(es).value, o)
  {
    RunKeepsPending(es, o);
    MatchesIffIndexedLast(es, o);
    assert !Pending(Run(es).value, o) by {
      assert forall c :: c in Run(es).value.calls && Indexes(Run(es).value.calls[c].phase) ==> InFlight(Run(es).value, c);
    }
    hide Matches, IndexedLast, Pending;
  }
}
