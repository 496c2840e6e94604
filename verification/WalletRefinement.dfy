/**
 The concurrent wallet machine refines the atomic ledger: its committed tables
 and its answers are those of a serial run of ledger operations.
 */
module WalletRefinement {
  import opened Prelude
  import opened Ledger
  import opened WalletMachine

  // ----- What the row lock protects -----

  /** The call holds its wallet's row lock, and `w` is the committed row. */
  ghost predicate Holds(s: State, c: nat, w: Wallet) {
    && c in s.calls
    && s.calls[c].req.userId in s.book.wallets
    && s.book.wallets[s.calls[c].req.userId] == w
    && w.id in s.locks && s.locks[w.id] == c
  }

  /** The checks made under the lock still hold: no such row, and funds for a debit. */
  ghost predicate Cleared(s: State, req: Request, w: Wallet) {
    && Find(s.book.rows, w.id, req.reference, req.kind).None?
    && (req.kind.Debit? ==> w.balance >= req.amount)
  }

  ghost predicate CallOk(s: State, c: nat)
    requires c in s.calls
  {
    var k := s.calls[c];
    && (Running(k.phase) ==> k.req.amount > 0)
    && match k.phase
       case Entered => k.balance.None? && k.row.None?
       case Begun(_) => k.balance.None? && k.row.None?
       case Locked(_, w) => Holds(s, c, w) && k.balance.None? && k.row.None?
       case Funded(_, w) => Holds(s, c, w) && Cleared(s, k.req, w) && k.balance.None? && k.row.None?
       case Updated(_, w) =>
         && Holds(s, c, w) && Cleared(s, k.req, w)
         && k.balance == Some(NewBalance(w.balance, k.req)) && k.row.None?
       case Collided(_, _) => false
       case Ready(record, created) =>
         && k.req.userId in s.book.wallets
         && var w := s.book.wallets[k.req.userId];
         && Holds(s, c, w)
         && if created then
              && Cleared(s, k.req, w)
              && k.balance == Some(NewBalance(w.balance, k.req)) && k.row == Some(record)
              && record == NewRow(w.id, k.req, record.id, record.createdAt)
            else
              && Find(s.book.rows, w.id, k.req.reference, k.req.kind) == Some(record)
              && k.balance.None? && k.row.None?
       case Committed(outcome) => outcome.Accepted? && outcome.created && k.balance.None? && k.row.None?
       case Ended(_) => k.balance.None? && k.row.None?
  }

  ghost predicate Inv(s: State) {
    && DistinctIds(s.book)
    && (forall c :: c in s.calls ==> CallOk(s, c))
  }

  // ----- Linearization points -----

  /** The ledger operations that a step performs. */
  ghost function Emits(s: State, e: Event): seq<Op> {
    match e
    case CreateWallet(u, w) => [Open(u, w)]
    case Receive(c, req) => if req.amount <= 0 then [Post(c, req, 0, 0)] else []
    case LockWallet(c) =>
      if c in s.calls && s.calls[c].req.userId !in s.book.wallets then [Post(c, s.calls[c].req, 0, 0)] else []
    case Lookup(c) =>
      if c in s.calls && s.calls[c].phase.Locked?
         && var k := s.calls[c];
            Find(s.book.rows, k.phase.wallet.id, k.req.reference, k.req.kind).None?
            && k.req.kind.Debit? && k.phase.wallet.balance < k.req.amount
      then [Post(c, s.calls[c].req, 0, 0)] else []
    case Commit(c, _) =>
      if c in s.calls && s.calls[c].phase.Ready?
      then [Post(c, s.calls[c].req, s.calls[c].phase.record.id, s.calls[c].phase.record.createdAt)] else []
    case _ => []
  }

  /** The serial run behind a concurrent one: operations in the order they took effect. */
  ghost function History(es: seq<Event>): seq<Op> {
    if es == [] || Run(es[..|es| - 1]).None? then []
    else History(es[..|es| - 1]) + Emits(Run(es[..|es| - 1]).value, es[|es| - 1])
  }

  /** The ledger outcome of a call that has one, acknowledged or not. */
  function OutcomeOf(p: Phase): Option<Outcome> {
    match p
    case Committed(o) => Some(o)
    case Ended(Verdict(o)) => Some(o)
    case Ended(Unacknowledged(o)) => Some(o)
    case _ => None
  }

  ghost predicate Agrees(s: State, trail: Trail) {
    && s.book == trail.book
    && trail.asked.Keys == trail.verdicts.Keys
    && (forall c :: c in trail.verdicts <==> c in s.calls && OutcomeOf(s.calls[c].phase).Some?)
    && (forall c :: c in trail.verdicts ==>
          OutcomeOf(s.calls[c].phase) == Some(trail.verdicts[c]) && trail.asked[c] == s.calls[c].req)
  }

  // ----- One step -----

  /** Steps that leave the committed tables alone keep every other call's facts. */
  lemma OthersKept(s: State, s': State, c: nat)
    requires Inv(s) && s'.book == s.book
    requires forall d :: d in s.calls && d != c ==> d in s'.calls && s'.calls[d] == s.calls[d]
    requires forall w :: w in s.locks && s.locks[w] != c ==> w in s'.locks && s'.locks[w] == s.locks[w]
    ensures forall d :: d in s.calls && d != c ==> CallOk(s', d)
  {
    forall d | d in s.calls && d != c ensures CallOk(s', d) { assert CallOk(s, d); }
  }

  /** A commit writes one wallet and one key, both under the committer's lock. */
  lemma CommitKeeps(s: State, c: nat, acked: bool)
    requires Inv(s) && c in s.calls && s.calls[c].phase.Ready?
    ensures Inv(StepCommit(s, c, s.calls[c], acked).value)
  {
    var k := s.calls[c];
    var s' := StepCommit(s, c, k, acked).value;
    assert CallOk(s, c);
    forall d | d in s'.calls ensures CallOk(s', d) {
      if d != c {
        assert CallOk(s, d);
        var other := s.calls[d];
        if k.row.Some? && other.req.userId in s.book.wallets {
          FindAppend(s.book.rows, k.row.value, s.book.wallets[other.req.userId].id,
                     other.req.reference, other.req.kind);
        }
      }
    }
  }

  lemma CreateKeeps(s: State, u: string, w: string)
    requires Inv(s) && FreshWalletId(s.book, w)
    ensures Inv(s.(book := OpenWallet(s.book, u, w)))
  {
    var s' := s.(book := OpenWallet(s.book, u, w));
    forall d | d in s'.calls ensures CallOk(s', d) { assert CallOk(s, d); }
  }

  /** A step of one call leaves the others' records and locks alone. */
  lemma CallStepFrame(s: State, c: nat, e: Event)
    requires c in s.calls && StepCall(s, c, e).Some?
    ensures var s' := StepCall(s, c, e).value;
      && s'.calls.Keys == s.calls.Keys && s'.calls[c].req == s.calls[c].req && s'.lists == s.lists
      && (forall w :: w in s'.cache ==> w in s.cache && s'.cache[w] == s.cache[w])
      && (!e.Commit? ==> s'.book == s.book)
      && (forall d :: d in s.calls && d != c ==> s'.calls[d] == s.calls[d])
      && (forall w :: w in s.locks && s.locks[w] != c ==> w in s'.locks && s'.locks[w] == s.locks[w])
  {
    hide InsertBlocked, Find, NewBalance, Flush;
    CallStepLocks(s, c, e);
    hide Release;
  }

  lemma CallStepLocks(s: State, c: nat, e: Event)
    requires c in s.calls && StepCall(s, c, e).Some?
    ensures var s' := StepCall(s, c, e).value;
      forall w :: w in s.locks && s.locks[w] != c ==> w in s'.locks && s'.locks[w] == s.locks[w]
  {
    hide InsertBlocked, Find, NewBalance, Flush;
  }

  lemma OwnCallKept(s: State, c: nat, e: Event)
    requires Inv(s) && c in s.calls && StepCall(s, c, e).Some? && !e.Commit?
    ensures CallOk(StepCall(s, c, e).value, c)
  {
    hide InsertBlocked, Flush, Wrap64;
    assert CallOk(s, c);
  }

  lemma CallStepKeepsInv(s: State, s': State, c: nat, e: Event)
    requires Inv(s) && c in s.calls && StepCall(s, c, e) == Some(s') && !e.Commit?
    ensures Inv(s')
  {
    CallStepFrame(s, c, e);
    OwnCallKept(s, c, e);
    OthersKept(s, s', c);
  }

  lemma StepKeepsInv(s: State, s': State, e: Event)
    requires Inv(s) && Step(s, e) == Some(s')
    ensures Inv(s')
  {
    hide FreshWalletId, Find, InsertBlocked;
    if e.CreateWallet? {
      CreateKeeps(s, e.userId, e.walletId);
    } else if e.Commit? {
      CommitKeeps(s, e.call, e.acked);
    } else if OfCall(s, e) {
      CallStepKeepsInv(s, s', e.call, e);
    } else {
      QuietKeepsInv(s, s', e);
    }
  }

  lemma QuietKeepsInv(s: State, s': State, e: Event)
    requires Inv(s) && Step(s, e) == Some(s') && !e.CreateWallet? && !OfCall(s, e)
    ensures Inv(s')
  {
    hide FreshWalletId, StepCall, IsNewest, CallOk;
    QuietFrame(s, s', e);
    hide Step;
    forall d | d in s'.calls ensures CallOk(s', d) {
      if d in s.calls { SameCallOk(s, s', d); } else { NewCallOk(s', d); }
    }
  }

  lemma QuietFrame(s: State, s': State, e: Event)
    requires Step(s, e) == Some(s') && !e.CreateWallet? && !OfCall(s, e)
    ensures s'.book == s.book && s'.locks == s.locks
    ensures forall d :: d in s.calls ==> d in s'.calls && s'.calls[d] == s.calls[d]
    ensures forall d :: d in s'.calls && d !in s.calls ==>
      && s'.calls[d].balance.None? && s'.calls[d].row.None?
      && ((s'.calls[d].phase.Entered? && s'.calls[d].req.amount > 0) || s'.calls[d].phase.Ended?)
  {
    hide FreshWalletId, StepCall, IsNewest;
  }

  lemma SameCallOk(s: State, s': State, d: nat)
    requires d in s.calls && d in s'.calls && CallOk(s, d) && s'.calls[d] == s.calls[d]
    requires s'.book == s.book && s'.locks == s.locks
    ensures CallOk(s', d)
  {
  }

  lemma NewCallOk(s: State, d: nat)
    requires d in s.calls && s.calls[d].balance.None? && s.calls[d].row.None?
    requires (s.calls[d].phase.Entered? && s.calls[d].req.amount > 0) || s.calls[d].phase.Ended?
    ensures CallOk(s, d)
  {
  }

  /** What the serial run does when `Emits` says so, starting from `trail`. */
  ghost predicate Simulates(s': State, trail: Trail, ops: seq<Op>) {
    || (ops == [] && Agrees(s', trail))
    || (|ops| == 1 && match ops[0]
        case Open(u, w) =>
          FreshWalletId(trail.book, w) && Agrees(s', trail.(book := OpenWallet(trail.book, u, w)))
        case Post(c, req, id, at) =>
          c !in trail.verdicts && Agrees(s', Ledger.Answer(trail, c, req, id, at)))
  }

  /** A step without an operation decides nothing and leaves the tables alone. */
  lemma SilentCallStep(s: State, c: nat, e: Event)
    requires Inv(s) && OfCall(s, e) && e.call == c && StepCall(s, c, e).Some?
    requires Emits(s, e) == []
    ensures var s' := StepCall(s, c, e).value;
      s'.book == s.book && OutcomeOf(s'.calls[c].phase) == OutcomeOf(s.calls[c].phase)
  {
    assert CallOk(s, c);
  }

  /** A step with an operation gives the call the outcome that the ledger gives its request. */
  lemma DecidingCallStep(s: State, c: nat, e: Event)
    requires Inv(s) && OfCall(s, e) && e.call == c && StepCall(s, c, e).Some?
    requires Emits(s, e) != []
    ensures var s' := StepCall(s, c, e).value;
      && |Emits(s, e)| == 1 && Emits(s, e)[0].Post?
      && var Post(d, req, id, at) := Emits(s, e)[0];
      && d == c && req == s.calls[c].req && OutcomeOf(s.calls[c].phase).None?
      && (s'.book, OutcomeOf(s'.calls[c].phase))
         == (Apply(s.book, req, id, at).0, Some(Apply(s.book, req, id, at).1))
  {
    assert CallOk(s, c);
  }

  /** Only the record of call `c` differs between the two states. */
  ghost predicate Differ(s: State, s': State, c: nat) {
    && c in s.calls && s'.calls.Keys == s.calls.Keys && s'.calls[c].req == s.calls[c].req
    && (forall d :: d in s.calls && d != c ==> s'.calls[d] == s.calls[d])
  }

  lemma SilentAgrees(s: State, s': State, trail: Trail, c: nat)
    requires Agrees(s, trail) && Differ(s, s', c) && s'.book == s.book
    requires OutcomeOf(s'.calls[c].phase) == OutcomeOf(s.calls[c].phase)
    ensures Agrees(s', trail)
  {
    assert forall d :: d in s'.calls ==>
      OutcomeOf(s'.calls[d].phase) == OutcomeOf(s.calls[d].phase) && s'.calls[d].req == s.calls[d].req;
  }

  lemma DecidedAgrees(s: State, s': State, trail: Trail, c: nat, req: Request, id: nat, at: int)
    requires Agrees(s, trail) && Differ(s, s', c) && req == s.calls[c].req && OutcomeOf(s.calls[c].phase).None?
    requires s'.book == Apply(s.book, req, id, at).0
    requires OutcomeOf(s'.calls[c].phase) == Some(Apply(s.book, req, id, at).1)
    ensures c !in trail.verdicts && Agrees(s', Ledger.Answer(trail, c, req, id, at))
  {
  }

  lemma CallStepSimulates(s: State, s': State, trail: Trail, c: nat, e: Event, ops: seq<Op>)
    requires Inv(s) && Agrees(s, trail) && OfCall(s, e) && e.call == c && StepCall(s, c, e) == Some(s')
    requires ops == Emits(s, e)
    ensures Simulates(s', trail, ops)
  {
    assert Differ(s, s', c) by { CallStepFrame(s, c, e); }
    if ops == [] {
      assert s'.book == s.book && OutcomeOf(s'.calls[c].phase) == OutcomeOf(s.calls[c].phase) by {
        SilentCallStep(s, c, e);
      }
      SilentAgrees(s, s', trail, c);
    } else {
      DecidingCallStep(s, c, e);
      DecidedAgrees(s, s', trail, c, ops[0].req, ops[0].id, ops[0].at);
    }
  }

  lemma ReceiveSimulates(s: State, s': State, trail: Trail, e: Event)
    requires Agrees(s, trail) && Step(s, e) == Some(s') && e.Receive?
    ensures Simulates(s', trail, Emits(s, e))
  {
    assert forall d :: d in s.calls ==> s'.calls[d] == s.calls[d];
    if e.req.amount <= 0 {
      assert Agrees(s', Ledger.Answer(trail, e.call, e.req, 0, 0));
    }
  }

  lemma StepSimulates(s: State, s': State, trail: Trail, e: Event)
    requires Inv(s) && Agrees(s, trail) && Step(s, e) == Some(s')
    ensures Simulates(s', trail, Emits(s, e))
  {
    hide Inv, StepCall, Apply, FreshWalletId, IsNewest, Find;
    if e.Receive? {
      hide Agrees;
      ReceiveSimulates(s, s', trail, e);
    } else if OfCall(s, e) {
      hide Agrees, Simulates;
      CallStepSimulates(s, s', trail, e.call, e, Emits(s, e));
    } else {
      assert s'.calls == s.calls;
    }
  }

  // ----- Whole runs -----

  /**
   Every interleaving, with failures anywhere, is a serial run of the atomic
   ledger: same tables, same answers, and no operation for a call that failed
   before its COMMIT.
   */
  lemma {:induction false} RunRefines(es: seq<Event>)
    requires Run(es).Some?
    ensures Inv(Run(es).value)
    ensures Sound(History(es))
    ensures Agrees(Run(es).value, Serial(History(es)))
  {
    if es != [] {
      var shorter := es[..|es| - 1];
      RunRefines(shorter);
      var s, e := Run(shorter).value, es[|es| - 1];
      var ops, emitted := History(shorter), Emits(s, e);
      StepKeepsInv(s, Run(es).value, e);
      StepSimulates(s, Run(es).value, Serial(ops), e);
      if emitted == [] {
        assert History(es) == ops;
      } else {
        assert emitted == [emitted[0]];
        assert History(es)[..|History(es)| - 1] == ops;
      }
    }
  }
}
