/** What every interleaving of wallet calls guarantees, read off the refinement. */
module WalletTheorems {
  import opened Prelude
  import opened Ledger
  import opened WalletMachine
  import opened WalletRefinement

  /** The balance column equals the committed credits minus the committed debits, and is never negative. */
  lemma {:induction false} BalancesMatchRows(es: seq<Event>)
    requires Run(es).Some?
    ensures Balanced(Run(es).value.book) && WellFormed(Run(es).value.book)
  {
    RunRefines(es);
    SerialKeeps(History(es));
  }

  /**
   No insert ever meets the unique constraint or waits for another one: the
   branch that refetches the race's winner is dead, in every interleaving.
   */
  lemma {:induction false} InsertNeverLosesRace(es: seq<Event>, c: nat)
    requires Run(es).Some? && c in Run(es).value.calls
    ensures var s := Run(es).value; var k := s.calls[c];
      && !k.phase.Collided?
      && (k.phase.Updated? ==> forall id: nat ::
            var row := NewRow(k.phase.wallet.id, k.req, id, k.phase.at);
            !InsertBlocked(s, c, row) && StepInsert(s, c, k, id).Some?
            && StepInsert(s, c, k, id).value.calls[c].phase == Ready(row, true))
  {
    RunRefines(es);
    var s := Run(es).value;
    assert CallOk(s, c);
    if s.calls[c].phase.Updated? {
      forall d | d in s.calls && d != c && s.calls[d].row.Some?
        ensures s.calls[d].row.value.walletId != s.calls[c].phase.wallet.id
      {
        assert CallOk(s, d);
      }
    }
  }

  lemma OnlyCommitPosts(s: State, e: Event)
    requires Step(s, e).Some? && !e.Commit?
    ensures Step(s, e).value.book == if e.CreateWallet? then OpenWallet(s.book, e.userId, e.walletId) else s.book
    ensures s.calls.Keys <= Step(s, e).value.calls.Keys
  {
    if OfCall(s, e) {
      CallStepFrame(s, e.call, e);
    }
  }

  lemma CommitMoves(s: State, c: nat, acked: bool, u: string)
    requires Inv(s) && c in s.calls && s.calls[c].phase.Ready? && u in s.book.wallets
    ensures Accounted(s.book, StepCommit(s, c, s.calls[c], acked).value.book, u)
  {
    assert CallOk(s, c);
  }

  /** If the balance of `u` moved, exactly one row was posted and it accounts for the move. */
  ghost predicate Accounted(book: Book, after: Book, u: string)
    requires u in book.wallets
  {
    && u in after.wallets && after.wallets[u].id == book.wallets[u].id
    && (after.wallets[u] != book.wallets[u] ==>
          && |after.rows| == |book.rows| + 1 && after.rows[..|book.rows|] == book.rows
          && var row := after.rows[|book.rows|];
          && row.walletId == book.wallets[u].id
          && after.wallets[u].balance
             == Wrap64(book.wallets[u].balance + if row.kind.Debit? then -(row.amount as int) else row.amount as int))
  }

  /** A step that moves a balance posts, in the same commit, the one row that accounts for it. */
  lemma {:induction false} EveryMoveHasItsRow(es: seq<Event>, e: Event, u: string)
    requires Run(es).Some? && Step(Run(es).value, e).Some?
    requires u in Run(es).value.book.wallets
    ensures Accounted(Run(es).value.book, Step(Run(es).value, e).value.book, u)
  {
    RunRefines(es);
    var s := Run(es).value;
    if e.Commit? { CommitMoves(s, e.call, e.acked, u); } else { OnlyCommitPosts(s, e); }
  }

  /**
   Calls with the same user, reference and kind: every accepted one was given
   the same record, whatever amount it carried, and at most one created it.
   */
  lemma {:induction false} RetriesAreReplays(es: seq<Event>, c: nat, d: nat)
    requires Run(es).Some? && c in Run(es).value.calls && d in Run(es).value.calls
    requires var s := Run(es).value;
      && SameIntent(s.calls[c].req, s.calls[d].req)
      && OutcomeOf(s.calls[c].phase).Some? && OutcomeOf(s.calls[c].phase).value.Accepted?
      && OutcomeOf(s.calls[d].phase).Some? && OutcomeOf(s.calls[d].phase).value.Accepted?
    ensures var s := Run(es).value;
      var oc, od := OutcomeOf(s.calls[c].phase).value, OutcomeOf(s.calls[d].phase).value;
      && oc.record == od.record && oc.record in s.book.rows
      && (oc.created && od.created ==> c == d)
  {
    RunRefines(es);
    SerialIdempotent(History(es));
    var trail := Serial(History(es));
    assert Recorded(trail, c) && Recorded(trail, d);
    assert Creator(trail, c) && Creator(trail, d) ==> c == d;
  }

  ghost predicate Posts(ops: seq<Op>, i: nat, c: nat) {
    i < |ops| && ops[i].Post? && ops[i].call == c
  }

  /** The serial run has an operation of call `c`. */
  ghost predicate Appears(ops: seq<Op>, c: nat) {
    exists i: nat :: Posts(ops, i, c)
  }

  lemma {:induction false} PostedIffAnswered(ops: seq<Op>, c: nat)
    ensures Appears(ops, c) <==> c in Serial(ops).verdicts
  {
    if ops != [] {
      var n := |ops| - 1;
      PostedIffAnswered(ops[..n], c);
      forall i: nat ensures Posts(ops, i, c) <==> Posts(ops[..n], i, c) || (i == n && Posts(ops, n, c)) {}
      assert c in Serial(ops).verdicts <==> c in Serial(ops[..n]).verdicts || Posts(ops, n, c);
    }
  }

  /** A call that failed before its COMMIT took effect appears nowhere in the serial run. */
  lemma {:induction false} FailedCallLeavesNoTrace(es: seq<Event>, c: nat)
    requires Run(es).Some? && c in Run(es).value.calls
    ensures Appears(History(es), c) <==> OutcomeOf(Run(es).value.calls[c].phase).Some?
    ensures Run(es).value.calls[c].phase == Ended(Failed) ==> !Appears(History(es), c)
  {
    hide Run, Serial, History, Sound, Inv, Appears;
    RunRefines(es);
    PostedIffAnswered(History(es), c);
  }

  lemma {:induction false} PrefixRuns(es: seq<Event>, k: nat)
    requires Run(es).Some? && k <= |es|
    ensures Run(es[..k]).Some? && History(es[..k]) <= History(es)
    ensures Run(es[..k]).value.calls.Keys <= Run(es).value.calls.Keys
  {
    if k == |es| {
      assert es[..k] == es;
    } else {
      var shorter := es[..|es| - 1];
      PrefixRuns(shorter, k);
      assert shorter[..k] == es[..k];
      StepKeepsCalls(Run(shorter).value, Run(es).value, es[|es| - 1]);
      hide Step, Emits;
    }
  }

  lemma StepKeepsCalls(s: State, s': State, e: Event)
    requires Step(s, e) == Some(s')
    ensures s.calls.Keys <= s'.calls.Keys
  {
    hide StepCall, FreshWalletId, IsNewest;
    if OfCall(s, e) { CallStepFrame(s, e.call, e); }
  }

  /** The serial order respects real time: a call answered before another one was received comes first. */
  lemma {:induction false} SerialOrderIsRealTime(es: seq<Event>, k: nat, c: nat, d: nat, i: nat, j: nat)
    requires Run(es).Some? && k <= |es|
    requires Run(es[..k]).Some? ==>
      && c in Run(es[..k]).value.calls && OutcomeOf(Run(es[..k]).value.calls[c].phase).Some?
      && d !in Run(es[..k]).value.calls
    requires Posts(History(es), i, c) && Posts(History(es), j, d)
    ensures i < j
  {
    PrefixRuns(es, k);
    var early := History(es[..k]);
    FailedCallLeavesNoTrace(es[..k], c);
    RunRefines(es[..k]);
    PostedIffAnswered(early, d);
    assert !Posts(early, j, d);
    var i' :| Posts(early, i', c);
    assert Posts(History(es), i', c);
    RunRefines(es);
    PostedOnce(History(es), i, i', c);
  }

  lemma {:induction false} PostedOnce(ops: seq<Op>, i: nat, j: nat, c: nat)
    requires Sound(ops) && Posts(ops, i, c) && Posts(ops, j, c)
    ensures i == j
  {
    var n := |ops| - 1;
    if i < n && j < n {
      assert Posts(ops[..n], i, c) && Posts(ops[..n], j, c);
      PostedOnce(ops[..n], i, j, c);
    } else if i != j {
      var k := if i < n then i else j;
      assert Posts(ops[..n], k, c);
      PostedIffAnswered(ops[..n], c);
    }
  }

  // ----- Locks -----

  predicate PastLock(p: Phase) {
    p.Locked? || p.Funded? || p.Updated? || p.Collided? || p.Ready?
  }

  /** Every lock belongs to a call that is still in its transaction. */
  ghost predicate LocksOwned(s: State) {
    forall w :: w in s.locks ==> s.locks[w] in s.calls && PastLock(s.calls[s.locks[w]].phase)
  }

  lemma CallKeepsLocksOwned(s: State, c: nat, e: Event)
    requires LocksOwned(s) && c in s.calls && StepCall(s, c, e).Some?
    ensures LocksOwned(StepCall(s, c, e).value)
  {
    hide Find, InsertBlocked, Flush, NewBalance;
  }

  lemma {:induction false} RunKeepsLocksOwned(es: seq<Event>)
    requires Run(es).Some?
    ensures LocksOwned(Run(es).value)
  {
    if es != [] {
      var s, e := Run(es[..|es| - 1]).value, es[|es| - 1];
      RunKeepsLocksOwned(es[..|es| - 1]);
      if OfCall(s, e) {
        CallKeepsLocksOwned(s, e.call, e);
      } else {
        OthersKeepLocksOwned(s, Run(es).value, e);
      }
      hide StepCall, LocksOwned;
    }
  }

  lemma OthersKeepLocksOwned(s: State, s': State, e: Event)
    requires LocksOwned(s) && Step(s, e) == Some(s') && !OfCall(s, e)
    ensures LocksOwned(s')
  {
    hide StepCall, FreshWalletId, IsNewest;
  }

  /** The statement that a call past the lock issues next. */
  function NextOf(c: nat, p: Phase, id: nat): Event {
    if p.Locked? then Lookup(c)
    else if p.Funded? then UpdateBalance(c)
    else if p.Updated? then InsertRow(c, id)
    else Commit(c, true)
  }

  /**
   No deadlock, and no lock without an end: whoever holds a wallet's lock is a
   call in its transaction whose next statement can be carried out at once, and
   when it ends, committed or rolled back, the lock is free.
   */
  lemma {:induction false} LockHoldersNeverWait(es: seq<Event>, w: string, id: nat)
    requires Run(es).Some? && w in Run(es).value.locks
    ensures var s := Run(es).value; var c := s.locks[w];
      && c in s.calls && PastLock(s.calls[c].phase)
      && Step(s, NextOf(c, s.calls[c].phase, id)).Some?
      && Step(s, Fail(c)).Some? && w !in Step(s, Fail(c)).value.locks
      && (s.calls[c].phase.Ready? ==> forall acked ::
            Step(s, Commit(c, acked)).Some? && w !in Step(s, Commit(c, acked)).value.locks)
  {
    hide Run, CallOk;
    RunKeepsLocksOwned(es);
    RunRefines(es);
    var s := Run(es).value;
    var c := s.locks[w];
    InsertNeverLosesRace(es, c);
    NextIsEnabled(s, c, id);
    EndsFreeLocks(s, c, w);
    hide Step, LocksOwned, Inv, PastLock, NextOf, InsertBlocked;
  }

  lemma NextIsEnabled(s: State, c: nat, id: nat)
    requires c in s.calls && CallOk(s, c) && PastLock(s.calls[c].phase)
    requires s.calls[c].phase.Updated? ==> StepInsert(s, c, s.calls[c], id).Some?
    ensures Step(s, NextOf(c, s.calls[c].phase, id)).Some?
  {
    hide Find, InsertBlocked, Flush, NewBalance;
  }

  lemma EndsFreeLocks(s: State, c: nat, w: string)
    requires c in s.calls && PastLock(s.calls[c].phase) && w in s.locks && s.locks[w] == c
    ensures Step(s, Fail(c)).Some? && w !in Step(s, Fail(c)).value.locks
    ensures s.calls[c].phase.Ready? ==> forall acked ::
      Step(s, Commit(c, acked)).Some? && w !in Step(s, Commit(c, acked)).value.locks
  {
    hide Flush;
  }
}
