/**
 What a posted row says: every row of the transactions table was posted by one
 call, bears that call's user, amount, reference and kind, and its `created_at`
 is the moment at which that call's transaction began.
 */
module TransactionTimes {
  import opened Prelude
  import opened Ledger
  import opened WalletMachine
  import opened WalletRefinement
  import opened WalletTheorems
  import opened RecentTransactions

  // ----- Tables only grow -----

  /** Rows are appended, and a user keeps the wallet. */
  ghost predicate Grows(book: Book, after: Book) {
    && book.rows <= after.rows
    && forall u :: u in book.wallets ==> u in after.wallets && after.wallets[u].id == book.wallets[u].id
  }

  lemma {:induction false} BookGrows(es: seq<Event>, more: seq<Event>)
    requires Run(more).Some? && es <= more
    ensures Run(es).Some? && Grows(Run(es).value.book, Run(more).value.book)
  {
    if |es| == |more| {
      assert es == more;
    } else {
      var shorter, e := more[..|more| - 1], more[|more| - 1];
      BookGrows(es, shorter);
      var s := Run(shorter).value;
      RowsGrow(s, e);
      forall u | u in s.book.wallets ensures Accounted(s.book, Run(more).value.book, u) { EveryMoveHasItsRow(shorter, e, u); }
      hide Step;
    }
  }

  // ----- Calls begin once -----

  /** The transaction of a call began, so the call is past its first phase. */
  ghost predicate BegunOnce(es: seq<Event>, s: State) {
    && (forall e :: e in es && e.Begin? ==> e.call in s.calls && !s.calls[e.call].phase.Entered?)
    && (forall i, j :: 0 <= i < j < |es| && es[i].Begin? && es[j].Begin? ==> es[i].call != es[j].call)
  }

  lemma StaysBegun(s: State, s': State, e: Event)
    requires Step(s, e) == Some(s')
    ensures e.Begin? ==> e.call in s.calls && s.calls[e.call].phase.Entered? && e.call in s'.calls && s'.calls[e.call].phase.Begun?
    ensures forall c :: c in s.calls ==> c in s'.calls && (s'.calls[c].phase.Entered? ==> s.calls[c].phase.Entered?)
  {
    hide FreshWalletId, IsNewest, StepCall;
    if OfCall(s, e) {
      CallStepFrame(s, e.call, e);
      OwnPhase(s, e.call, e);
    }
  }

  /** A call leaves its first phase for good, and keeps an outcome once it has one. */
  lemma OwnPhase(s: State, c: nat, e: Event)
    requires c in s.calls && StepCall(s, c, e).Some?
    ensures var p, p' := s.calls[c].phase, StepCall(s, c, e).value.calls[c].phase;
      && !p'.Entered? && (e.Begin? ==> p.Entered? && p'.Begun?)
      && (OutcomeOf(p).Some? ==> OutcomeOf(p') == OutcomeOf(p))
  {
    hide InsertBlocked, Find, Flush, NewBalance, Release;
  }

  lemma {:induction false} RunKeepsBegun(es: seq<Event>)
    requires Run(es).Some?
    ensures BegunOnce(es, Run(es).value)
  {
    if es != [] {
      var shorter, e := es[..|es| - 1], es[|es| - 1];
      RunKeepsBegun(shorter);
      StaysBegun(Run(shorter).value, Run(es).value, e);
      assert forall x :: x in es ==> x in shorter || x == e;
      assert forall i :: 0 <= i < |shorter| ==> es[i] == shorter[i] && es[i] in shorter;
      hide Step;
    }
  }

  // ----- What a new row says -----

  /** The moment at which the transaction of a call in this phase began. */
  function Start(p: Phase): Option<int> {
    match p
    case Begun(at) => Some(at)
    case Locked(at, _) => Some(at)
    case Funded(at, _) => Some(at)
    case Updated(at, _) => Some(at)
    case Collided(at, _) => Some(at)
    case _ => None
  }

  /** The call has inserted this row, or was told so. */
  predicate Creates(p: Phase, t: Transaction) {
    p == Ready(t, true) || OutcomeOf(p) == Some(Accepted(t, true))
  }

  /** The row is the one the request asked for, stamped with the start of the transaction. */
  ghost predicate Stamped(es: seq<Event>, c: nat, req: Request, t: Transaction) {
    && t.kind == req.kind && t.amount == req.amount && t.reference == req.reference
    && Begin(c, t.createdAt) in es
  }

  ghost predicate CallTimes(es: seq<Event>, c: nat, k: Call) {
    && (Start(k.phase).Some? ==> Begin(c, Start(k.phase).value) in es)
    && (forall t :: Creates(k.phase, t) ==> Stamped(es, c, k.req, t))
  }

  ghost predicate TimesInv(es: seq<Event>, s: State) {
    && (forall c :: c in s.calls ==> CallTimes(es, c, s.calls[c]))
    && (forall t :: t in s.book.rows ==> exists c :: c in s.calls && OutcomeOf(s.calls[c].phase) == Some(Accepted(t, true)))
  }

  lemma CallStepTimes(es: seq<Event>, s: State, c: nat, e: Event)
    requires OfCall(s, e) && e.call == c && StepCall(s, c, e).Some? && CallTimes(es, c, s.calls[c])
    ensures CallTimes(es + [e], c, StepCall(s, c, e).value.calls[c])
  {
    hide InsertBlocked, Find, Flush, NewBalance, Release;
    var k, k' := s.calls[c], StepCall(s, c, e).value.calls[c];
    assert e in es + [e] && forall x :: x in es ==> x in es + [e];
    forall t | Creates(k'.phase, t) ensures Stamped(es + [e], c, k'.req, t) {
      assert e.InsertRow? || Creates(k.phase, t);
    }
  }

  lemma SameCallTimes(es: seq<Event>, e: Event, c: nat, k: Call)
    requires CallTimes(es, c, k)
    ensures CallTimes(es + [e], c, k)
  {
    assert forall x :: x in es ==> x in es + [e];
  }

  /** A committed row comes from the call that commits; the others' rows are theirs as before. */
  lemma RowsHaveCalls(s: State, s': State, e: Event)
    requires Inv(s) && Step(s, e) == Some(s')
    requires forall t :: t in s.book.rows ==> exists c :: c in s.calls && OutcomeOf(s.calls[c].phase) == Some(Accepted(t, true))
    ensures forall t :: t in s'.book.rows ==> exists c :: c in s'.calls && OutcomeOf(s'.calls[c].phase) == Some(Accepted(t, true))
  {
    forall t | t in s'.book.rows ensures exists c :: c in s'.calls && OutcomeOf(s'.calls[c].phase) == Some(Accepted(t, true)) {
      if t in s.book.rows {
        var c :| c in s.calls && OutcomeOf(s.calls[c].phase) == Some(Accepted(t, true));
        OutcomeStays(s, s', e, c);
      } else {
        NewRowIsOwn(s, s', e, t);
      }
    }
  }

  lemma OutcomeStays(s: State, s': State, e: Event, c: nat)
    requires Step(s, e) == Some(s') && c in s.calls && OutcomeOf(s.calls[c].phase).Some?
    ensures c in s'.calls && OutcomeOf(s'.calls[c].phase) == OutcomeOf(s.calls[c].phase)
  {
    hide FreshWalletId, IsNewest, StepCall;
    if OfCall(s, e) {
      CallStepFrame(s, e.call, e);
      OwnPhase(s, e.call, e);
    }
  }

  lemma NewRowIsOwn(s: State, s': State, e: Event, t: Transaction)
    requires Inv(s) && Step(s, e) == Some(s') && t in s'.book.rows && t !in s.book.rows
    ensures e.Commit? && e.call in s'.calls && OutcomeOf(s'.calls[e.call].phase) == Some(Accepted(t, true))
  {
    if e.Commit? {
      assert CallOk(s, e.call);
    } else {
      OnlyCommitPosts(s, e);
    }
  }

  lemma {:induction false} StepKeepsTimes(es: seq<Event>, e: Event, s: State, s': State)
    requires Run(es) == Some(s) && Inv(s) && Step(s, e) == Some(s') && TimesInv(es, s)
    ensures TimesInv(es + [e], s')
  {
    RowsHaveCalls(s, s', e);
    hide Run, Inv, CallTimes;
    forall c | c in s'.calls ensures CallTimes(es + [e], c, s'.calls[c]) {
      if OfCall(s, e) && c == e.call {
        CallStepTimes(es, s, c, e);
      } else if c in s.calls {
        OtherCallStays(s, s', e, c);
        SameCallTimes(es, e, c, s.calls[c]);
      } else {
        NewCallTimes(es + [e], s, s', e, c);
      }
    }
  }

  lemma OtherCallStays(s: State, s': State, e: Event, c: nat)
    requires Step(s, e) == Some(s') && c in s.calls && !(OfCall(s, e) && c == e.call)
    ensures c in s'.calls && s'.calls[c] == s.calls[c]
  {
    hide StepCall, FreshWalletId, IsNewest;
    if OfCall(s, e) { CallStepFrame(s, e.call, e); }
  }

  lemma NewCallTimes(es: seq<Event>, s: State, s': State, e: Event, c: nat)
    requires Step(s, e) == Some(s') && c in s'.calls && c !in s.calls
    ensures CallTimes(es, c, s'.calls[c])
  {
    hide StepCall, FreshWalletId, IsNewest;
    if OfCall(s, e) { CallStepFrame(s, e.call, e); }
  }

  lemma {:induction false} RunKeepsTimes(es: seq<Event>)
    requires Run(es).Some?
    ensures TimesInv(es, Run(es).value)
  {
    if es != [] {
      var shorter, e := es[..|es| - 1], es[|es| - 1];
      RunKeepsTimes(shorter);
      RunRefines(shorter);
      assert es == shorter + [e];
      StepKeepsTimes(shorter, e, Run(shorter).value, Run(es).value);
    }
  }

  // ----- Theorems -----

  /**
   In every interleaving the record of a call that was told it is new has the
   call's kind, amount and reference, and was created at the one moment at which
   the transaction of the call began.
   */
  lemma {:induction false} NewRowsBearTheirStart(es: seq<Event>, c: nat, t: Transaction, now: int)
    requires Run(es).Some? && c in Run(es).value.calls
    requires OutcomeOf(Run(es).value.calls[c].phase) == Some(Accepted(t, true))
    ensures var req := Run(es).value.calls[c].req;
      t.kind == req.kind && t.amount == req.amount && t.reference == req.reference
    ensures Begin(c, now) in es <==> t.createdAt == now
  {
    RunKeepsTimes(es);
    RunKeepsBegun(es);
    var s := Run(es).value;
    assert CallTimes(es, c, s.calls[c]) && Creates(s.calls[c].phase, t);
    assert Stamped(es, c, s.calls[c].req, t);
    if Begin(c, now) in es {
      var i :| 0 <= i < |es| && es[i] == Begin(c, now);
      var j :| 0 <= j < |es| && es[j] == Begin(c, t.createdAt);
      assert i == j;
    }
  }

  ghost predicate Posted(s: State, c: nat, t: Transaction) {
    && c in s.calls && OutcomeOf(s.calls[c].phase) == Some(Accepted(t, true))
    && s.calls[c].req.userId in s.book.wallets && s.book.wallets[s.calls[c].req.userId].id == t.walletId
  }

  /** In every interleaving each committed row was posted by exactly one call, on the wallet of its user. */
  lemma {:induction false} EveryRowHasItsCall(es: seq<Event>, t: Transaction)
    requires Run(es).Some? && t in Run(es).value.book.rows
    ensures exists c :: Posted(Run(es).value, c, t)
    ensures forall c, d :: Posted(Run(es).value, c, t) && Posted(Run(es).value, d, t) ==> c == d
  {
    RunKeepsTimes(es);
    RunRefines(es);
    SerialIdempotent(History(es));
    var s, trail := Run(es).value, Serial(History(es));
    var c :| c in s.calls && OutcomeOf(s.calls[c].phase) == Some(Accepted(t, true));
    hide Run, History, Sound, Inv;
    assert Recorded(trail, c);
    assert Posted(s, c, t);
    forall c, d | Posted(s, c, t) && Posted(s, d, t) ensures c == d {
      SameCreator(es, s, c, d, t);
    }
  }

  lemma {:induction false} SameCreator(es: seq<Event>, s: State, c: nat, d: nat, t: Transaction)
    requires Run(es) == Some(s) && Posted(s, c, t) && Posted(s, d, t)
    ensures c == d
  {
    RunKeepsTimes(es);
    RunRefines(es);
    assert Stamped(es, c, s.calls[c].req, t) && Stamped(es, d, s.calls[d].req, t);
    RetriesAreReplays(es, c, d);
  }
}
