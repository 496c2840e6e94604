/**
 The wallet service in the source's own form: Charge, Refund and
 ListRecentTransactions as methods over the shared database and cache. Before
 each repository call any other calls may run (`Others`). The trace records
 every step taken, so each method is a run of the wallet machine and inherits
 its theorems.
 */
module WalletService {
  import opened Prelude
  import opened Ledger
  import opened WalletMachine
  import opened WalletRefinement
  import opened WalletTheorems
  import opened RecentTransactions
  import opened TransactionTimes

  /** What a repository read returns. */
  datatype Fetch<+T> = Found(value: T) | Missing | Error

  /** What a caller of Charge or Refund is told. */
  datatype Response = Success(record: Transaction, created: bool) | Refused(reason: Reason) | InternalError

  /** What Postgres does with the statements of one Charge or Refund; `now` is its clock at BEGIN. */
  datatype Database = Database(
    now: int, id: nat, begin: bool, lock: bool, lookup: bool, update: bool, insert: bool, refetch: bool, commit: Fate)
  {
    predicate Works() { begin && lock && lookup && update && insert && refetch && commit.Ok? }
  }

  function ResponseOf(r: Reply): Response {
    match r
    case Verdict(Accepted(t, created)) => Success(t, created)
    case Verdict(Rejected(reason)) => Refused(reason)
    case Unacknowledged(_) => InternalError
    case Failed => InternalError
  }

  ghost predicate ShortAt(es: seq<Event>, userId: string, amount: int) {
    && Run(es).Some? && userId in Run(es).value.book.wallets
    && Run(es).value.book.wallets[userId].balance < amount
  }

  ghost predicate LockedAt(es: seq<Event>, userId: string, c: nat) {
    && Run(es).Some? && userId in Run(es).value.book.wallets
    && var s := Run(es).value; var w := s.book.wallets[userId].id;
    && w in s.locks && s.locks[w] != c
  }

  ghost predicate NoWallet(es: seq<Event>, userId: string) {
    Run(es).Some? && userId !in Run(es).value.book.wallets
  }

  ghost predicate Absent(es: seq<Event>, t: Transaction) {
    Run(es).Some? && t !in Run(es).value.book.rows
  }

  /** The event is a step of call `c`. */
  predicate StepOf(e: Event, c: nat) {
    !e.CreateWallet? && !e.Expire? && e.call == c
  }

  lemma {:induction false} OthersLeaveCall(es: seq<Event>, more: seq<Event>, c: nat)
    requires Run(more).Some? && es <= more && (forall i :: |es| <= i < |more| ==> !StepOf(more[i], c))
    ensures Run(es).Some?
    ensures var s, t := Run(es).value, Run(more).value;
      && (c in s.calls ==> c in t.calls && t.calls[c] == s.calls[c])
      && (c in s.lists ==> c in t.lists && t.lists[c] == s.lists[c])
      && (c !in s.calls ==> c !in t.calls)
  {
    if |es| == |more| {
      assert es == more;
    } else {
      var shorter := more[..|more| - 1];
      OthersLeaveCall(es, shorter, c);
      var s, e := Run(shorter).value, more[|more| - 1];
      if OfCall(s, e) { CallStepFrame(s, e.call, e); }
      hide StepCall;
    }
  }

  class WalletService {
    var book: Book
    var calls: map<nat, Call>
    var locks: map<string, nat>
    var cache: map<string, seq<Transaction>>
    var lists: map<nat, ListPhase>
    ghost var trace: seq<Event>

    function Snapshot(): State reads this { State(book, calls, locks, cache, lists) }

    /** Everything that ever happened is a run of the machine, and this is where it led. */
    ghost predicate Valid() reads this { Run(trace) == Some(Snapshot()) }

    /** One step was taken from the given state. */
    ghost predicate Took(before: State, es: seq<Event>, e: Event)
      reads this
    {
      trace == es + [e] && Step(before, e) == Some(Snapshot())
    }

    /** The run began with these events. */
    ghost predicate Past(es: seq<Event>) reads `trace { es <= trace }

    /** After a first part of the run that goes on from `start`, the user had less than this. */
    ghost predicate WasShort(start: seq<Event>, userId: string, amount: int) reads `trace {
      exists es :: start <= es && Past(es) && ShortAt(es, userId, amount)
    }

    /** After a first part of the run that goes on from `start`, another call had locked the user's wallet. */
    ghost predicate WasLocked(start: seq<Event>, userId: string, c: nat) reads `trace {
      exists es :: start <= es && Past(es) && LockedAt(es, userId, c)
    }

    constructor ()
      ensures Valid() && trace == []
    {
      book, calls, locks, cache, lists := Init.book, map[], map[], map[], map[];
      trace := [];
    }

    /** A step from a valid state leads to a valid one. */
    lemma TookIsValid(before: State, es: seq<Event>, e: Event)
      requires Run(es) == Some(before) && Took(before, es, e)
      ensures Valid() && forall past :: past <= es ==> Past(past)
    {
      assert (es + [e])[..|es|] == es;
    }

    /** A call that has just begun owns no lock. */
    lemma NotYetLocking(c: nat)
      requires Valid() && c in calls && calls[c].phase.Begun?
      ensures forall w :: w in locks ==> locks[w] != c
    {
      RunKeepsLocksOwned(trace);
    }

    /** A call that is past its checks still owns the lock of its wallet. */
    lemma OwnLock(c: nat)
      requires Valid() && c in calls && calls[c].phase.Funded?
      ensures calls[c].phase.wallet.id in locks && locks[calls[c].phase.wallet.id] == c
    {
      RunRefines(trace);
      assert CallOk(Snapshot(), c);
    }

    /** No other call has its row in the way of this insert. */
    lemma InsertIsFree(c: nat, id: nat)
      requires Valid() && c in calls && calls[c].phase.Updated?
      ensures !InsertBlocked(Snapshot(), c, NewRow(calls[c].phase.wallet.id, calls[c].req, id, calls[c].phase.at))
    {
      InsertNeverLosesRace(trace, c);
    }

    /** Any other calls, and any wallet registrations or cache expiries, may run here. */
    method Others(c: nat)
      requires Valid()
      modifies this
      ensures Valid() && old(trace) <= trace
      ensures forall i :: |old(trace)| <= i < |trace| ==> !StepOf(trace[i], c)
    {
    }

    method Receive(c: nat, req: Request)
      requires Valid() && c !in calls && c !in lists
      modifies `calls, `trace
      ensures Valid() && (forall es :: old(Past(es)) ==> Past(es))
      ensures c in calls && calls[c].req == req
      ensures calls[c].phase == if req.amount <= 0 then Ended(Verdict(Rejected(InvalidAmount))) else Entered
    {
      var phase := if req.amount <= 0 then Ended(Verdict(Rejected(InvalidAmount))) else Entered;
      calls := calls[c := Call(req, phase, None, None)];
      trace := trace + [Event.Receive(c, req)];
      TookIsValid(old(Snapshot()), old(trace), Event.Receive(c, req));
    }

    /** A statement, BEGIN or COMMIT that fails: the transaction is rolled back. */
    method RollBack(c: nat)
      requires Valid() && c in calls && Running(calls[c].phase)
      modifies `calls, `locks, `trace
      ensures Valid() && (forall es :: old(Past(es)) ==> Past(es))
      ensures c in calls && calls[c] == Call(old(calls[c].req), Ended(Failed), None, None)
      ensures forall w :: w in locks <==> w in old(locks) && old(locks[w]) != c
    {
      calls := calls[c := Call(calls[c].req, Ended(Failed), None, None)];
      locks := Release(locks, c);
      trace := trace + [Fail(c)];
      TookIsValid(old(Snapshot()), old(trace), Fail(c));
    }

    method Start(c: nat, now: int, up: bool) returns (err: bool)
      requires Valid() && c in calls && calls[c].phase.Entered?
      modifies `calls, `locks, `trace
      ensures Valid() && (forall es :: old(Past(es)) ==> Past(es))
      ensures c in calls && calls[c].req == old(calls[c].req)
      ensures err <==> !up
      ensures calls[c].phase == if err then Ended(Failed) else Begun(now)
    {
      if !up {
        RollBack(c);
        return true;
      }
      calls := calls[c := calls[c].(phase := Begun(now))];
      trace := trace + [Begin(c, now)];
      TookIsValid(old(Snapshot()), old(trace), Begin(c, now));
      return false;
    }

    /** SELECT ... FOR UPDATE. A wait for another call's lock that is not granted ends in an error. */
    method GetWalletForUpdate(c: nat, userId: string, up: bool) returns (r: Fetch<Wallet>)
      requires Valid() && c in calls && calls[c].phase.Begun? && calls[c].req.userId == userId
      modifies `calls, `locks, `trace
      ensures Valid() && (forall es :: old(Past(es)) ==> Past(es))
      ensures c in calls && calls[c].req == old(calls[c].req)
      ensures match r
        case Found(w) =>
          && userId in book.wallets && book.wallets[userId] == w
          && w.id !in old(locks) && locks == old(locks)[w.id := c]
          && calls[c].phase == Locked(old(calls[c].phase.at), w)
        case Missing => userId !in book.wallets && calls[c].phase == Ended(Verdict(Rejected(WalletNotFound)))
        case Error => calls[c].phase == Ended(Failed) && (!up || old(LockedAt(trace, userId, c)))
    {
      NotYetLocking(c);
      if !up || (userId in book.wallets && book.wallets[userId].id in locks) {
        RollBack(c);
        return Error;
      }
      if userId !in book.wallets {
        calls := calls[c := Call(calls[c].req, Ended(Verdict(Rejected(WalletNotFound))), None, None)];
        locks := Release(locks, c);
        r := Missing;
      } else {
        var w := book.wallets[userId];
        calls := calls[c := calls[c].(phase := Locked(calls[c].phase.at, w))];
        locks := locks[w.id := c];
        r := Found(w);
      }
      trace := trace + [LockWallet(c)];
      TookIsValid(old(Snapshot()), old(trace), LockWallet(c));
    }

    method FindTransactionByReference(c: nat, walletId: string, reference: string, kind: Kind, up: bool)
      returns (r: Fetch<Transaction>)
      requires Valid() && c in calls && calls[c].phase.Locked? && calls[c].phase.wallet.id == walletId
      requires calls[c].req.reference == reference && calls[c].req.kind == kind
      modifies `calls, `locks, `trace
      ensures Valid() && (forall es :: old(Past(es)) ==> Past(es))
      ensures c in calls && calls[c].req == old(calls[c].req)
      ensures match r
        case Found(t) =>
          t in book.rows && SameKey(t, walletId, reference, kind) && calls[c].phase == Ready(t, false)
        case Missing =>
          var w := old(calls[c].phase.wallet);
          && (forall t :: t in book.rows ==> !SameKey(t, walletId, reference, kind))
          && calls[c].phase == if kind.Debit? && w.balance < calls[c].req.amount
                            then Ended(Verdict(Rejected(InsufficientFunds)))
                            else Funded(old(calls[c].phase.at), w)
        case Error => calls[c].phase == Ended(Failed)
      ensures r.Error? <==> !up
    {
      if !up {
        RollBack(c);
        return Error;
      }
      var k := calls[c];
      var existing := Find(book.rows, walletId, reference, kind);
      if existing.Some? {
        calls := calls[c := k.(phase := Ready(existing.value, false))];
        r := Found(existing.value);
      } else {
        if kind.Debit? && k.phase.wallet.balance < k.req.amount {
          calls := calls[c := Call(k.req, Ended(Verdict(Rejected(InsufficientFunds))), None, None)];
          locks := Release(locks, c);
        } else {
          calls := calls[c := k.(phase := Funded(k.phase.at, k.phase.wallet))];
        }
        r := Missing;
      }
      trace := trace + [Lookup(c)];
      TookIsValid(old(Snapshot()), old(trace), Lookup(c));
    }

    method UpdateBalance(c: nat, walletId: string, newBalance: Int64, up: bool) returns (err: bool)
      requires Valid() && c in calls && calls[c].phase.Funded? && calls[c].phase.wallet.id == walletId
      requires newBalance == NewBalance(calls[c].phase.wallet.balance, calls[c].req)
      modifies `calls, `locks, `trace
      ensures Valid() && (forall es :: old(Past(es)) ==> Past(es))
      ensures c in calls && calls[c].req == old(calls[c].req)
      ensures calls[c].phase == if err then Ended(Failed)
                                else Updated(old(calls[c].phase.at), old(calls[c].phase.wallet))
      ensures !err ==> calls[c].balance == Some(newBalance)
      ensures err <==> !up
    {
      OwnLock(c);
      if !up || (walletId in locks && locks[walletId] != c) {
        RollBack(c);
        return true;
      }
      var k := calls[c];
      calls := calls[c := k.(phase := Updated(k.phase.at, k.phase.wallet), balance := Some(newBalance))];
      locks := locks[walletId := c];
      trace := trace + [Event.UpdateBalance(c)];
      TookIsValid(old(Snapshot()), old(trace), Event.UpdateBalance(c));
      return false;
    }

    /** INSERT; on a unique violation (SQLSTATE 23505) the winner's row is fetched and returned instead. */
    method CreateTransaction(c: nat, walletId: string, kind: Kind, amount: Int64, reference: string,
                             id: nat, up: bool, refetched: bool)
      returns (err: bool, record: Option<Transaction>, isNew: bool)
      requires Valid() && c in calls && calls[c].phase.Updated? && calls[c].phase.wallet.id == walletId
      requires calls[c].req.kind == kind && calls[c].req.amount == amount && calls[c].req.reference == reference
      modifies `calls, `locks, `trace
      ensures Valid() && (forall es :: old(Past(es)) ==> Past(es))
      ensures c in calls && calls[c].req == old(calls[c].req)
      ensures if err then calls[c].phase == Ended(Failed)
              else record.Some? && calls[c].phase == Ready(record.value, isNew)
      ensures !err ==> SameKey(record.value, walletId, reference, kind)
      ensures !err && isNew ==> record.value.amount == amount && record.value.createdAt == old(calls[c].phase.at)
      ensures !err && isNew ==> record.value.id == id && calls[c].row == record
      ensures !err ==> (isNew <==> forall t :: t in book.rows ==> !SameKey(t, walletId, reference, kind))
      ensures !err && !isNew ==> record.value in book.rows
      ensures up && refetched ==> !err
    {
      InsertIsFree(c, id);
      hide Run, StepLock, StepLookup, StepUpdate, StepCommit, StepInvalidate, StepList;
      var k := calls[c];
      var row := Transaction(id, walletId, kind, amount, reference, k.phase.at);
      if !up || InsertBlocked(Snapshot(), c, row) {
        RollBack(c);
        return true, None, false;
      }
      var existing := Find(book.rows, walletId, reference, kind);
      if existing.None? {
        calls := calls[c := k.(phase := Ready(row, true), row := Some(row))];
        trace := trace + [InsertRow(c, id)];
        TookIsValid(old(Snapshot()), old(trace), InsertRow(c, id));
        return false, Some(row), true;
      }
      calls := calls[c := k.(phase := Collided(k.phase.at, k.phase.wallet))];
      trace := trace + [InsertRow(c, id)];
      TookIsValid(old(Snapshot()), old(trace), InsertRow(c, id));
      if !refetched {
        RollBack(c);
        return true, None, false;
      }
      label collided:
      calls := calls[c := calls[c].(phase := Ready(existing.value, false))];
      trace := trace + [Refetch(c)];
      TookIsValid(old@collided(Snapshot()), old@collided(trace), Refetch(c));
      return false, existing, false;
    }

    /** COMMIT. An error may mean that nothing was committed, or that only the answer was lost. */
    method Finish(c: nat, fate: Fate) returns (err: bool)
      requires Valid() && c in calls && calls[c].phase.Ready?
      modifies `book, `calls, `locks, `trace
      ensures Valid() && (forall es :: old(Past(es)) ==> Past(es))
      ensures c in calls && calls[c].req == old(calls[c].req)
      ensures var outcome := Accepted(old(calls[c].phase.record), old(calls[c].phase.created));
        calls[c].phase == match fate
                          case Ok => if outcome.created then Committed(outcome) else Ended(Verdict(outcome))
                          case LostAck => Ended(Unacknowledged(outcome))
                          case NoEffect => Ended(Failed)
      ensures err <==> !fate.Ok?
      ensures book == if fate.NoEffect? then old(book) else Flush(old(book), old(calls[c]))
      ensures forall w :: w in locks <==> w in old(locks) && old(locks[w]) != c
    {
      if fate.NoEffect? {
        RollBack(c);
        return true;
      }
      var k, acked := calls[c], fate.Ok?;
      var outcome := Accepted(k.phase.record, k.phase.created);
      book := Flush(book, k);
      var next := if !acked then Ended(Unacknowledged(outcome))
                  else if k.phase.created then Committed(outcome) else Ended(Verdict(outcome));
      calls := calls[c := Call(k.req, next, None, None)];
      locks := Release(locks, c);
      trace := trace + [Commit(c, acked)];
      TookIsValid(old(Snapshot()), old(trace), Commit(c, acked));
      return !acked;
    }

    method Invalidate(c: nat, walletId: string, fate: Fate) returns (err: bool)
      requires Valid() && c in calls && calls[c].phase.Committed? && calls[c].phase.outcome.Accepted?
      requires calls[c].phase.outcome.record.walletId == walletId
      modifies `cache, `calls, `trace
      ensures Valid() && (forall es :: old(Past(es)) ==> Past(es))
      ensures c in calls && calls[c].req == old(calls[c].req)
      ensures calls[c].phase == Ended(Verdict(old(calls[c].phase.outcome)))
      ensures cache == if fate.NoEffect? then old(cache) else old(cache) - {walletId}
      ensures err <==> !fate.Ok?
    {
      var done := !fate.NoEffect?;
      calls := calls[c := calls[c].(phase := Ended(Verdict(calls[c].phase.outcome)))];
      if done { cache := cache - {walletId}; }
      trace := trace + [Event.Invalidate(c, done)];
      TookIsValid(old(Snapshot()), old(trace), Event.Invalidate(c, done));
      return !fate.Ok?;
    }

    // ----- What a call may say of moments that are past -----

    lemma NowIs()
      requires Valid()
      ensures Run(trace) == Some(Snapshot()) && Past(trace)
    {
    }

    lemma ShortNow(start: seq<Event>, userId: string, amount: int)
      requires Valid() && Past(start) && userId in book.wallets && book.wallets[userId].balance < amount
      ensures start <= trace && Past(trace) && ShortAt(trace, userId, amount)
    {
    }

    lemma LockedNow(start: seq<Event>)
      requires Past(start)
      ensures start <= trace && Past(trace)
    {
    }

    lemma NoWalletThen(start: seq<Event>, userId: string)
      requires Valid() && Past(start) && userId !in book.wallets
      ensures NoWallet(start, userId)
    {
      BookGrows(start, trace);
    }

    lemma AbsentThen(start: seq<Event>, t: Transaction)
      requires Valid() && Past(start) && t !in book.rows
      ensures Absent(start, t)
    {
      BookGrows(start, trace);
      assert forall x :: x in Run(start).value.book.rows ==> x in book.rows;
    }

    /** The function that Charge runs inside its transaction: lock, look up, check funds, write, insert. */
    method ChargeBody(c: nat, userId: string, amount: Int64, reference: string, db: Database, ghost start: seq<Event>)
      returns (failure: Option<Response>, result: Option<Transaction>, created: bool)
      requires Valid() && c in calls && calls[c].phase.Begun? && calls[c].req.amount > 0 && Past(start)
      requires calls[c].req == Request(userId, Debit, amount, reference)
      modifies this
      ensures Valid() && (forall es :: old(Past(es)) ==> Past(es))
      ensures c in calls && calls[c].req == old(calls[c].req)
      ensures failure.Some? ==>
        !failure.value.Success? && calls[c].phase.Ended? && failure.value == ResponseOf(calls[c].phase.answer)
      ensures failure.None? ==> result.Some? && calls[c].phase == Ready(result.value, created)
      ensures created ==>
        && failure.None? && result.value.createdAt == old(calls[c].phase.at) && result.value.amount == amount
        && Absent(start, result.value)
      ensures match failure
        case Some(Refused(WalletNotFound)) => NoWallet(start, userId)
        case Some(Refused(InsufficientFunds)) => WasShort(start, userId, amount)
        case Some(Refused(InvalidAmount)) => false
        case Some(InternalError) => !db.Works() || WasLocked(start, userId, c)
        case _ => true
    {
      hide Run, Valid, Past, ShortAt, LockedAt, NoWallet, Absent;
      result, created := None, false;
      Wait(c);
      LockedNow(start);
      var locked := GetWalletForUpdate(c, userId, db.lock);
      if locked.Error? { return Some(InternalError), result, false; }
      if locked.Missing? {
        NoWalletThen(start, userId);
        return Some(Refused(WalletNotFound)), result, false;
      }
      var wallet := locked.value;
      if wallet.balance < amount { ShortNow(start, userId, amount); }
      Wait(c);
      var existing := FindTransactionByReference(c, wallet.id, reference, Debit, db.lookup);
      if existing.Error? { return Some(InternalError), result, false; }
      if existing.Found? { return None, Some(existing.value), false; }
      if wallet.balance < amount { return Some(Refused(InsufficientFunds)), result, false; }
      Wait(c);
      var err := UpdateBalance(c, wallet.id, wallet.balance - amount, db.update);
      if err { return Some(InternalError), result, false; }
      Wait(c);
      err, result, created := CreateTransaction(c, wallet.id, Debit, amount, reference, db.id, db.insert, db.refetch);
      if err { return Some(InternalError), result, false; }
      if created { AbsentThen(start, result.value); }
      return None, result, created;
    }

    /** The function that Refund runs inside its transaction; it checks no funds. */
    method RefundBody(c: nat, userId: string, amount: Int64, reference: string, db: Database, ghost start: seq<Event>)
      returns (failure: Option<Response>, result: Option<Transaction>, created: bool)
      requires Valid() && c in calls && calls[c].phase.Begun? && calls[c].req.amount > 0 && Past(start)
      requires calls[c].req == Request(userId, Credit, amount, reference)
      modifies this
      ensures Valid() && (forall es :: old(Past(es)) ==> Past(es))
      ensures c in calls && calls[c].req == old(calls[c].req)
      ensures failure.Some? ==>
        !failure.value.Success? && calls[c].phase.Ended? && failure.value == ResponseOf(calls[c].phase.answer)
      ensures failure.None? ==> result.Some? && calls[c].phase == Ready(result.value, created)
      ensures created ==>
        && failure.None? && result.value.createdAt == old(calls[c].phase.at) && result.value.amount == amount
        && Absent(start, result.value)
      ensures match failure
        case Some(Refused(reason)) => reason == WalletNotFound && NoWallet(start, userId)
        case Some(InternalError) => !db.Works() || WasLocked(start, userId, c)
        case _ => true
    {
      hide Run, Valid, Past, LockedAt, NoWallet, Absent;
      result, created := None, false;
      Wait(c);
      LockedNow(start);
      var locked := GetWalletForUpdate(c, userId, db.lock);
      if locked.Error? { return Some(InternalError), result, false; }
      if locked.Missing? {
        NoWalletThen(start, userId);
        return Some(Refused(WalletNotFound)), result, false;
      }
      var wallet := locked.value;
      Wait(c);
      var existing := FindTransactionByReference(c, wallet.id, reference, Credit, db.lookup);
      if existing.Error? { return Some(InternalError), result, false; }
      if existing.Found? { return None, Some(existing.value), false; }
      Wait(c);
      var err := UpdateBalance(c, wallet.id, Wrap64(wallet.balance + amount), db.update);
      if err { return Some(InternalError), result, false; }
      Wait(c);
      err, result, created := CreateTransaction(c, wallet.id, Credit, amount, reference, db.id, db.insert, db.refetch);
      if err { return Some(InternalError), result, false; }
      if created { AbsentThen(start, result.value); }
      return None, result, created;
    }

    /** COMMIT, and for a new row the invalidation of the cached list, whose failure is only logged. */
    method Conclude(c: nat, result: Transaction, created: bool, commit: Fate, drop: Fate) returns (r: Response)
      requires Valid() && c in calls && calls[c].phase == Ready(result, created)
      modifies this
      ensures Valid() && (forall es :: old(Past(es)) ==> Past(es))
      ensures c in calls && calls[c].req == old(calls[c].req)
      ensures calls[c].phase.Ended? && r == ResponseOf(calls[c].phase.answer)
      ensures r == if commit.Ok? then Success(result, created) else InternalError
      ensures r.Success? ==> calls[c].phase == Ended(Verdict(Accepted(result, created)))
    {
      hide Run, Valid, Past;
      Wait(c);
      var err := Finish(c, commit);
      if err { return InternalError; }
      if created {
        Wait(c);
        var _ := Invalidate(c, result.walletId, drop);
      }
      return Success(result, created);
    }

    /**
     Charge. The response is the one the atomic ledger gave this call, and a
     success names the stored debit of this user and reference; one that is told to
     be new is not older than the call and bears its amount and BEGIN time. A
     refusal or an error is given only for its reason.
     */
    method Charge(c: nat, userId: string, amount: Int64, reference: string, db: Database, drop: Fate) returns (r: Response)
      requires Valid() && c !in calls && c !in lists
      modifies this
      ensures Valid() && (forall es :: old(Past(es)) ==> Past(es))
      ensures c in calls && calls[c].req == Request(userId, Debit, amount, reference)
      ensures calls[c].phase.Ended? && r == ResponseOf(calls[c].phase.answer)
      ensures r.Success? ==>
        && calls[c].phase == Ended(Verdict(Accepted(r.record, r.created)))
        && userId in book.wallets && r.record in book.rows
        && SameKey(r.record, book.wallets[userId].id, reference, Debit)
      ensures r.Success? && r.created ==>
        r.record.amount == amount && r.record.createdAt == db.now && r.record !in old(book.rows)
      ensures r == Refused(InvalidAmount) <==> amount <= 0
      ensures r == Refused(WalletNotFound) ==> userId !in old(book.wallets)
      ensures r == Refused(InsufficientFunds) ==> WasShort(old(trace), userId, amount)
      ensures r.InternalError? ==> !db.Works() || WasLocked(old(trace), userId, c)
    {
      NowIs();
      hide Run, Valid, Past, ShortAt, LockedAt, WasShort, WasLocked;
      ghost var start := trace;
      Receive(c, Request(userId, Debit, amount, reference));
      if amount <= 0 { return Refused(InvalidAmount); }
      Wait(c);
      var err := Start(c, db.now, db.begin);
      if err { return InternalError; }
      var failure, result, created := ChargeBody(c, userId, amount, reference, db, start);
      if failure.Some? { return failure.value; }
      r := Conclude(c, result.value, created, db.commit, drop);
      if r.Success? { AcceptedIsStored(c); }
    }

    /** Refund, the crediting twin of Charge; it is never refused for want of funds. */
    method Refund(c: nat, userId: string, amount: Int64, reference: string, db: Database, drop: Fate) returns (r: Response)
      requires Valid() && c !in calls && c !in lists
      modifies this
      ensures Valid() && (forall es :: old(Past(es)) ==> Past(es))
      ensures c in calls && calls[c].req == Request(userId, Credit, amount, reference)
      ensures calls[c].phase.Ended? && r == ResponseOf(calls[c].phase.answer)
      ensures r.Success? ==>
        && calls[c].phase == Ended(Verdict(Accepted(r.record, r.created)))
        && userId in book.wallets && r.record in book.rows
        && SameKey(r.record, book.wallets[userId].id, reference, Credit)
      ensures r.Success? && r.created ==>
        r.record.amount == amount && r.record.createdAt == db.now && r.record !in old(book.rows)
      ensures r == Refused(InvalidAmount) <==> amount <= 0
      ensures r == Refused(WalletNotFound) ==> userId !in old(book.wallets)
      ensures r != Refused(InsufficientFunds)
      ensures r.InternalError? ==> !db.Works() || WasLocked(old(trace), userId, c)
    {
      NowIs();
      hide Run, Valid, Past, LockedAt, WasLocked;
      ghost var start := trace;
      Receive(c, Request(userId, Credit, amount, reference));
      if amount <= 0 { return Refused(InvalidAmount); }
      Wait(c);
      var err := Start(c, db.now, db.begin);
      if err { return InternalError; }
      var failure, result, created := RefundBody(c, userId, amount, reference, db, start);
      if failure.Some? { return failure.value; }
      r := Conclude(c, result.value, created, db.commit, drop);
      if r.Success? { AcceptedIsStored(c); }
    }

    /** `user_id` is unique; an error may hide an INSERT that took effect. */
    method CreateWallet(userId: string, walletId: string, fate: Fate) returns (err: bool)
      requires Valid() && FreshWalletId(book, walletId)
      modifies `book, `trace
      ensures Valid() && (forall es :: old(Past(es)) ==> Past(es))
      ensures err <==> userId in old(book.wallets) || !fate.Ok?
      ensures book == if fate.NoEffect? || userId in old(book.wallets) then old(book)
                      else old(book).(wallets := old(book.wallets)[userId := Wallet(walletId, 0)])
    {
      if fate.NoEffect? || userId in book.wallets { return true; }
      book := OpenWallet(book, userId, walletId);
      trace := trace + [Event.CreateWallet(userId, walletId)];
      TookIsValid(old(Snapshot()), old(trace), Event.CreateWallet(userId, walletId));
      return !fate.Ok?;
    }

    method ReceiveListCall(c: nat, userId: string)
      requires Valid() && c !in calls && c !in lists
      modifies `lists, `trace
      ensures Valid() && (forall es :: old(Past(es)) ==> Past(es))
      ensures c !in calls && c in lists && lists[c] == Asked(userId)
    {
      lists := lists[c := Asked(userId)];
      trace := trace + [ReceiveList(c, userId)];
      TookIsValid(old(Snapshot()), old(trace), ReceiveList(c, userId));
    }

    /** SetRecent, whose failure is only logged. */
    method SetRecent(c: nat, userId: string, walletId: string, txs: seq<Transaction>, written: bool)
      requires Valid() && c in lists && c !in calls && lists[c] == Fetched(userId, walletId, txs)
      modifies `lists, `cache, `trace
      ensures Valid() && (forall es :: old(Past(es)) ==> Past(es))
      ensures c in lists && lists[c] == Listed(userId, walletId, txs)
      ensures cache == if written then old(cache)[walletId := txs] else old(cache)
    {
      lists := lists[c := Listed(userId, walletId, txs)];
      if written { cache := cache[walletId := txs]; }
      trace := trace + [WriteCache(c, written)];
      TookIsValid(old(Snapshot()), old(trace), WriteCache(c, written));
    }

    /** A list that is handed out was the newest twenty rows of the caller's own wallet. */
    lemma ListIsReal(c: nat)
      requires Valid() && c in lists && lists[c].Listed?
      ensures Was(book.rows, lists[c].txs, lists[c].walletId) && |lists[c].txs| <= 20
      ensures OwnWallet(book, lists[c].userId, lists[c].walletId)
    {
      CachedListsWereReal(trace);
      RunKeepsListsOwn(trace);
    }

    /** A step of a list call, which is in the given phase afterwards. */
    method ListStep(c: nat, ghost e: Event, next: ListPhase)
      requires Valid() && c in lists && StepOf(e, c) && !OfCall(Snapshot(), e) && !e.Receive? && !e.ReceiveList?
      requires StepList(Snapshot(), c, e) == Some(Snapshot().(lists := lists[c := next]))
      modifies `lists, `trace
      ensures Valid() && (forall es :: old(Past(es)) ==> Past(es))
      ensures c in lists && lists[c] == next
    {
      lists := lists[c := next];
      trace := trace + [e];
      TookIsValid(old(Snapshot()), old(trace), e);
    }

    /**
     Cache-aside: what it returns was the newest twenty rows of the caller's wallet
     at some moment; an error means that the database failed or knew no such user.
     `newest` is how the table orders rows with equal timestamps.
     */
    method ListRecentTransactions(c: nat, userId: string, up: bool, cacheUp: bool, written: bool,
                                  newest: (seq<Transaction>, string) -> seq<Transaction>)
      returns (err: bool, txs: seq<Transaction>)
      requires Valid() && c !in calls && c !in lists
      requires forall rows, w :: IsNewest(newest(rows, w), rows, w, RECENT_LIMIT)
      modifies this
      ensures Valid() && (forall es :: old(Past(es)) ==> Past(es))
      ensures c in lists && if err then lists[c].ListFailed? else lists[c].Listed? && lists[c].txs == txs
      ensures !err ==> userId in book.wallets && Was(book.rows, txs, book.wallets[userId].id) && |txs| <= 20
      ensures err ==> !up || userId !in old(book.wallets)
    {
      NowIs();
      ghost var start := trace;
      hide Run, Valid, Past, IsNewest, Was;
      ReceiveListCall(c, userId);
      Wait(c);
      if !up || userId !in book.wallets {
        if up { NoWalletThen(start, userId); }
        ListStep(c, FailList(c), ListFailed);
        return true, [];
      }
      var walletId := book.wallets[userId].id;
      ListStep(c, ResolveWallet(c), Resolved(userId, walletId));
      err, txs := ReadThrough(c, userId, walletId, up, cacheUp, written, newest);
    }

    /** GetRecent: a cache that errs is only logged, and counts as a miss. */
    method GetRecent(c: nat, userId: string, walletId: string, up: bool) returns (r: Option<seq<Transaction>>)
      requires Valid() && c in lists && c !in calls && lists[c] == Resolved(userId, walletId)
      modifies `lists, `trace
      ensures Valid() && (forall es :: old(Past(es)) ==> Past(es))
      ensures c in lists
      ensures lists[c] == if r.Some? then Listed(userId, walletId, r.value) else Missed(userId, walletId)
      ensures r == if up && walletId in cache then Some(cache[walletId]) else None
    {
      if up && walletId in cache {
        r := Some(cache[walletId]);
        ListStep(c, ReadCache(c, true), Listed(userId, walletId, cache[walletId]));
      } else {
        r := None;
        ListStep(c, ReadCache(c, up), Missed(userId, walletId));
      }
    }

    /** The table's newest rows, in whatever order it puts equal timestamps. */
    method SelectRecent(c: nat, userId: string, walletId: string, up: bool, rows: seq<Transaction>)
      returns (err: bool, txs: seq<Transaction>)
      requires Valid() && c in lists && c !in calls && lists[c] == Missed(userId, walletId)
      requires IsNewest(rows, book.rows, walletId, RECENT_LIMIT)
      modifies `lists, `trace
      ensures Valid() && (forall es :: old(Past(es)) ==> Past(es))
      ensures c in lists
      ensures lists[c] == if err then ListFailed else Fetched(userId, walletId, txs)
      ensures err <==> !up
      ensures !err ==> txs == rows && IsNewest(txs, book.rows, walletId, 20)
    {
      if !up {
        ListStep(c, FailList(c), ListFailed);
        return true, [];
      }
      txs := [];
      for i := 0 to |rows|
        invariant txs == rows[..i]
      {
        txs := txs + [rows[i]];
      }
      ListStep(c, FetchRows(c, txs), Fetched(userId, walletId, txs));
      return false, txs;
    }

    /** The cached list if there is one and the cache answers, else the table's, which is then cached. */
    method ReadThrough(c: nat, userId: string, walletId: string, up: bool, cacheUp: bool, written: bool,
                       newest: (seq<Transaction>, string) -> seq<Transaction>)
      returns (err: bool, txs: seq<Transaction>)
      requires Valid() && c in lists && c !in calls && lists[c] == Resolved(userId, walletId)
      requires forall rows, w :: IsNewest(newest(rows, w), rows, w, RECENT_LIMIT)
      modifies this
      ensures Valid() && (forall es :: old(Past(es)) ==> Past(es))
      ensures c in lists && if err then lists[c].ListFailed? else lists[c] == Listed(userId, walletId, txs)
      ensures !err ==> Was(book.rows, txs, walletId) && OwnWallet(book, userId, walletId) && |txs| <= 20
      ensures err ==> !up
    {
      hide Run, Valid, Past, IsNewest, Was;
      Wait(c);
      var cached := GetRecent(c, userId, walletId, cacheUp);
      if cached.Some? {
        ListIsReal(c);
        return false, cached.value;
      }
      Wait(c);
      err, txs := SelectRecent(c, userId, walletId, up, newest(book.rows, walletId));
      if err { return true, []; }
      Wait(c);
      SetRecent(c, userId, walletId, txs, written);
      ListIsReal(c);
      return false, txs;
    }

    /** Other calls run; this call's own record is as it was. */
    method Wait(c: nat)
      requires Valid()
      modifies this
      ensures Valid() && (forall es :: old(Past(es)) ==> Past(es))
      ensures c in old(calls) ==> c in calls && calls[c] == old(calls[c])
      ensures c in old(lists) ==> c in lists && lists[c] == old(lists[c])
      ensures c !in old(calls) ==> c !in calls
    {
      Others(c);
      OthersLeaveCall(old(trace), trace, c);
    }

    lemma AcceptedIsStored(c: nat)
      requires Valid() && c in calls && OutcomeOf(calls[c].phase).Some? && OutcomeOf(calls[c].phase).value.Accepted?
      ensures var req, t := calls[c].req, OutcomeOf(calls[c].phase).value.record;
        && req.userId in book.wallets && t in book.rows
        && SameKey(t, book.wallets[req.userId].id, req.reference, req.kind)
    {
      RunRefines(trace);
      SerialIdempotent(History(trace));
      assert Recorded(Serial(History(trace)), c);
    }
  }
}
