/**
 The wallet service as a concurrent machine. Any number of Charge, Refund and
 ListRecentTransactions calls are in flight at once; every repository or cache
 call is one step, and any of them may fail. Statements run at READ COMMITTED:
 each reads the latest committed tables and its own transaction's writes.
 */
module WalletMachine {
  import opened Prelude
  import opened Ledger

  /** How far a Charge or Refund call has got; `at` is its transaction's `now()`. */
  datatype Phase =
    | Entered
    | Begun(at: int)
    | Locked(at: int, wallet: Wallet)
    | Funded(at: int, wallet: Wallet)
    | Updated(at: int, wallet: Wallet)
    | Collided(at: int, wallet: Wallet)
    | Ready(record: Transaction, created: bool)
    | Committed(outcome: Outcome)
    | Ended(answer: Reply)

  /**
   A failed call reports an error and so does an unacknowledged one, whose
   COMMIT took effect although Finish returned an error.
   */
  datatype Reply = Verdict(outcome: Outcome) | Unacknowledged(outcome: Outcome) | Failed

  /** An in-flight call with the uncommitted writes of its transaction. */
  datatype Call = Call(req: Request, phase: Phase, balance: Option<Int64>, row: Option<Transaction>)

  datatype ListPhase =
    | Asked(userId: string)
    | Resolved(userId: string, walletId: string)
    | Missed(userId: string, walletId: string)
    | Fetched(userId: string, walletId: string, txs: seq<Transaction>)
    | Listed(userId: string, walletId: string, txs: seq<Transaction>)
    | ListFailed

  datatype State = State(
    book: Book,                             // committed tables
    calls: map<nat, Call>,
    locks: map<string, nat>,                // wallet row -> call that locked it
    cache: map<string, seq<Transaction>>,   // recentKey(wallet) -> list
    lists: map<nat, ListPhase>)

  const RECENT_LIMIT := 20

  datatype Event =
    | CreateWallet(userId: string, walletId: string)
    | Receive(call: nat, req: Request)
    | Begin(call: nat, now: int)
    | LockWallet(call: nat)
    | Lookup(call: nat)
    | UpdateBalance(call: nat)
    | InsertRow(call: nat, id: nat)
    | Refetch(call: nat)
    | Commit(call: nat, acked: bool)
    | Fail(call: nat)
    | Invalidate(call: nat, done: bool)
    | ReceiveList(call: nat, user: string)
    | ResolveWallet(call: nat)
    | ReadCache(call: nat, up: bool)
    | FetchRows(call: nat, txs: seq<Transaction>)
    | WriteCache(call: nat, done: bool)
    | FailList(call: nat)
    | Expire(key: string)

  const Init := State(Book(map[], []), map[], map[], map[], map[])

  // ----- The newest rows of a wallet -----

  /**
   `ORDER BY created_at DESC LIMIT limit` over one wallet: rows with equal
   timestamps may come in any order.
   */
  predicate IsNewest(txs: seq<Transaction>, rows: seq<Transaction>, walletId: string, limit: nat) {
    && |txs| <= limit
    && (forall i, j :: 0 <= i < j < |txs| ==> txs[i] != txs[j] && txs[i].createdAt >= txs[j].createdAt)
    && (forall t :: t in txs ==> t in rows && t.walletId == walletId)
    && (forall r :: r in rows && r.walletId == walletId && r !in txs ==>
          |txs| == limit && forall t :: t in txs ==> t.createdAt >= r.createdAt)
  }

  // ----- Steps -----

  function Move(s: State, c: nat, phase: Phase): State
    requires c in s.calls
  {
    s.(calls := s.calls[c := s.calls[c].(phase := phase)])
  }

  function Release(locks: map<string, nat>, c: nat): map<string, nat> {
    map w | w in locks && locks[w] != c :: locks[w]
  }

  /** The end of a transaction: uncommitted writes and row locks are gone. */
  function Close(s: State, c: nat, phase: Phase): State
    requires c in s.calls
  {
    s.(calls := s.calls[c := Call(s.calls[c].req, phase, None, None)], locks := Release(s.locks, c))
  }

  /** Another open transaction has inserted the same unique key and has not ended. */
  predicate InsertBlocked(s: State, c: nat, row: Transaction) {
    exists d :: d in s.calls && d != c && s.calls[d].row.Some?
                && SameKey(s.calls[d].row.value, row.walletId, row.reference, row.kind)
  }

  function StepLock(s: State, c: nat, k: Call): Option<State>
    requires c in s.calls
  {
    if !k.phase.Begun? then None
    else if k.req.userId !in s.book.wallets then
      Some(Close(s, c, Ended(Verdict(Rejected(WalletNotFound)))))
    else
      var w := s.book.wallets[k.req.userId];
      if w.id in s.locks then None
      else Some(Move(s, c, Locked(k.phase.at, w)).(locks := s.locks[w.id := c]))
  }

  function StepLookup(s: State, c: nat, k: Call): Option<State>
    requires c in s.calls
  {
    if !k.phase.Locked? then None
    else
      var w := k.phase.wallet;
      var existing := Find(s.book.rows, w.id, k.req.reference, k.req.kind);
      if existing.Some? then Some(Move(s, c, Ready(existing.value, false)))
      else if k.req.kind.Debit? && w.balance < k.req.amount then
        Some(Close(s, c, Ended(Verdict(Rejected(InsufficientFunds)))))
      else Some(Move(s, c, Funded(k.phase.at, w)))
  }

  function StepUpdate(s: State, c: nat, k: Call): Option<State>
    requires c in s.calls
  {
    if !k.phase.Funded? then None
    else
      var w := k.phase.wallet;
      if w.id in s.locks && s.locks[w.id] != c then None
      else
        var written := k.(phase := Updated(k.phase.at, w), balance := Some(NewBalance(w.balance, k.req)));
        Some(s.(calls := s.calls[c := written], locks := s.locks[w.id := c]))
  }

  function StepInsert(s: State, c: nat, k: Call, id: nat): Option<State>
    requires c in s.calls
  {
    if !k.phase.Updated? then None
    else
      var w := k.phase.wallet;
      var row := NewRow(w.id, k.req, id, k.phase.at);
      if InsertBlocked(s, c, row) then None
      else if Find(s.book.rows, w.id, k.req.reference, k.req.kind).Some? then
        Some(Move(s, c, Collided(k.phase.at, w)))
      else Some(s.(calls := s.calls[c := k.(phase := Ready(row, true), row := Some(row))]))
  }

  function StepRefetch(s: State, c: nat, k: Call): Option<State>
    requires c in s.calls
  {
    if !k.phase.Collided? then None
    else
      var existing := Find(s.book.rows, k.phase.wallet.id, k.req.reference, k.req.kind);
      if existing.None? then None else Some(Move(s, c, Ready(existing.value, false)))
  }

  /** The committed tables once the pending writes of a call reach them. */
  function Flush(book: Book, k: Call): Book {
    var wallets :=
      if k.balance.Some? && k.req.userId in book.wallets then
        book.wallets[k.req.userId := book.wallets[k.req.userId].(balance := k.balance.value)]
      else book.wallets;
    Book(wallets, if k.row.Some? then book.rows + [k.row.value] else book.rows)
  }

  function StepCommit(s: State, c: nat, k: Call, acked: bool): Option<State>
    requires c in s.calls
  {
    if !k.phase.Ready? then None
    else
      var outcome := Accepted(k.phase.record, k.phase.created);
      var next := if !acked then Ended(Unacknowledged(outcome))
                  else if k.phase.created then Committed(outcome)
                  else Ended(Verdict(outcome));
      Some(Close(s, c, next).(book := Flush(s.book, k)))
  }

  predicate Running(p: Phase) {
    !p.Committed? && !p.Ended?
  }

  function StepInvalidate(s: State, c: nat, k: Call, done: bool): Option<State>
    requires c in s.calls
  {
    if !(k.phase.Committed? && k.phase.outcome.Accepted?) then None
    else
      var key := k.phase.outcome.record.walletId;
      Some(Move(s, c, Ended(Verdict(k.phase.outcome))).(cache := if done then s.cache - {key} else s.cache))
  }

  function StepCall(s: State, c: nat, e: Event): Option<State>
    requires c in s.calls
  {
    var k := s.calls[c];
    match e
    case Begin(_, now) => if k.phase.Entered? then Some(Move(s, c, Begun(now))) else None
    case LockWallet(_) => StepLock(s, c, k)
    case Lookup(_) => StepLookup(s, c, k)
    case UpdateBalance(_) => StepUpdate(s, c, k)
    case InsertRow(_, id) => StepInsert(s, c, k, id)
    case Refetch(_) => StepRefetch(s, c, k)
    case Commit(_, acked) => StepCommit(s, c, k, acked)
    case Fail(_) => if Running(k.phase) then Some(Close(s, c, Ended(Failed))) else None
    case Invalidate(_, done) => StepInvalidate(s, c, k, done)
    case _ => None
  }

  ghost function StepList(s: State, c: nat, e: Event): Option<State>
    requires c in s.lists
  {
    var p := s.lists[c];
    match e
    case ResolveWallet(_) =>
      if p.Asked? && p.userId in s.book.wallets
      then Some(s.(lists := s.lists[c := Resolved(p.userId, s.book.wallets[p.userId].id)])) else None
    case ReadCache(_, up) =>
      if !p.Resolved? then None
      else if up && p.walletId in s.cache
      then Some(s.(lists := s.lists[c := Listed(p.userId, p.walletId, s.cache[p.walletId])]))
      else Some(s.(lists := s.lists[c := Missed(p.userId, p.walletId)]))
    case FetchRows(_, txs) =>
      if p.Missed? && IsNewest(txs, s.book.rows, p.walletId, RECENT_LIMIT)
      then Some(s.(lists := s.lists[c := Fetched(p.userId, p.walletId, txs)])) else None
    case WriteCache(_, done) =>
      if p.Fetched?
      then Some(s.(lists := s.lists[c := Listed(p.userId, p.walletId, p.txs)],
                   cache := if done then s.cache[p.walletId := p.txs] else s.cache)) else None
    case FailList(_) =>
      if p.Asked? || p.Missed? then Some(s.(lists := s.lists[c := ListFailed])) else None
    case _ => None
  }

  /** The event is a step of a Charge or Refund call that is in flight. */
  predicate OfCall(s: State, e: Event) {
    !e.CreateWallet? && !e.Expire? && !e.Receive? && !e.ReceiveList? && e.call in s.calls
  }

  /** One step, or None where the event cannot happen (or must wait) in this state. */
  ghost function Step(s: State, e: Event): Option<State> {
    match e
    case CreateWallet(u, w) =>
      if FreshWalletId(s.book, w) then Some(s.(book := OpenWallet(s.book, u, w))) else None
    case Expire(key) => Some(s.(cache := s.cache - {key}))
    case Receive(c, req) =>
      if c in s.calls || c in s.lists then None
      else
        var phase := if req.amount <= 0 then Ended(Verdict(Rejected(InvalidAmount))) else Entered;
        Some(s.(calls := s.calls[c := Call(req, phase, None, None)]))
    case ReceiveList(c, u) =>
      if c in s.calls || c in s.lists then None else Some(s.(lists := s.lists[c := Asked(u)]))
    case _ =>
      if e.call in s.calls then StepCall(s, e.call, e)
      else if e.call in s.lists then StepList(s, e.call, e)
      else None
  }

  /** The state a sequence of events leads to, if each of them can happen in turn. */
  ghost function Run(es: seq<Event>): Option<State> {
    if es == [] then Some(Init)
    else
      var before := Run(es[..|es| - 1]);
      if before.None? then None else Step(before.value, es[|es| - 1])
  }
}
