/** The cache-aside list of a wallet's newest transactions, on the wallet machine. */
module RecentTransactions {
  import opened Prelude
  import opened Ledger
  import opened WalletMachine
  import opened WalletRefinement
  import opened WalletTheorems

  /** The list was the newest rows of the wallet at some moment up to now. */
  ghost predicate Was(rows: seq<Transaction>, txs: seq<Transaction>, walletId: string) {
    exists k :: 0 <= k <= |rows| && IsNewest(txs, rows[..k], walletId, RECENT_LIMIT)
  }

  ghost predicate Current(s: State, txs: seq<Transaction>, walletId: string) {
    IsNewest(txs, s.book.rows, walletId, RECENT_LIMIT)
  }

  ghost predicate ListsOk(s: State) {
    && (forall w :: w in s.cache ==> Was(s.book.rows, s.cache[w], w))
    && (forall c :: c in s.lists && (s.lists[c].Fetched? || s.lists[c].Listed?) ==>
          Was(s.book.rows, s.lists[c].txs, s.lists[c].walletId))
  }

  lemma {:induction false} WasGrows(rows: seq<Transaction>, more: seq<Transaction>, txs: seq<Transaction>, walletId: string)
    requires Was(rows, txs, walletId) && rows <= more
    ensures Was(more, txs, walletId)
  {
    var k :| 0 <= k <= |rows| && IsNewest(txs, rows[..k], walletId, RECENT_LIMIT);
    assert more[..k] == rows[..k];
  }

  lemma RowsGrow(s: State, e: Event)
    requires Step(s, e).Some?
    ensures s.book.rows <= Step(s, e).value.book.rows
  {
    if !e.Commit? { OnlyCommitPosts(s, e); }
  }

  /** Where the stored lists of a step come from: kept, or just read from the table or the cache. */
  lemma StoredLists(s: State, s': State, e: Event)
    requires ListsOk(s) && Step(s, e) == Some(s')
    ensures forall w :: w in s'.cache ==> Was(s.book.rows, s'.cache[w], w)
    ensures forall c :: c in s'.lists && (s'.lists[c].Fetched? || s'.lists[c].Listed?) ==>
              Was(s.book.rows, s'.lists[c].txs, s'.lists[c].walletId)
  {
    hide StepCall, FreshWalletId, IsNewest, Was;
    forall txs, w | IsNewest(txs, s.book.rows, w, RECENT_LIMIT) ensures Was(s.book.rows, txs, w) { NowWas(s.book.rows, txs, w); }
    if OfCall(s, e) { CallStepFrame(s, e.call, e); }
  }

  lemma {:induction false} NowWas(rows: seq<Transaction>, txs: seq<Transaction>, w: string)
    requires IsNewest(txs, rows, w, RECENT_LIMIT)
    ensures Was(rows, txs, w)
  {
    assert rows[..|rows|] == rows;
  }

  lemma StepKeepsLists(s: State, e: Event)
    requires ListsOk(s) && Step(s, e).Some?
    ensures ListsOk(Step(s, e).value)
  {
    var s' := Step(s, e).value;
    RowsGrow(s, e);
    StoredLists(s, s', e);
    hide Step;
    forall w | w in s'.cache ensures Was(s'.book.rows, s'.cache[w], w) {
      WasGrows(s.book.rows, s'.book.rows, s'.cache[w], w);
    }
    forall c | c in s'.lists && (s'.lists[c].Fetched? || s'.lists[c].Listed?)
      ensures Was(s'.book.rows, s'.lists[c].txs, s'.lists[c].walletId)
    {
      WasGrows(s.book.rows, s'.book.rows, s'.lists[c].txs, s'.lists[c].walletId);
    }
  }

  /**
   In every interleaving a cached list, and every list a caller is given, is the
   newest twenty rows of some committed state of that wallet.
   */
  lemma {:induction false} CachedListsWereReal(es: seq<Event>)
    requires Run(es).Some?
    ensures ListsOk(Run(es).value)
  {
    if es != [] {
      CachedListsWereReal(es[..|es| - 1]);
      StepKeepsLists(Run(es[..|es| - 1]).value, es[|es| - 1]);
    }
  }

  /** A commit posts at most one row, so every prefix of the table was the table once. */
  lemma {:induction false} EveryPrefixWasTheTable(es: seq<Event>, k: nat)
    requires Run(es).Some? && k <= |Run(es).value.book.rows|
    ensures exists j: nat :: TableAt(es, j, Run(es).value.book.rows[..k])
  {
    var rows := Run(es).value.book.rows;
    if k == |rows| {
      assert es[..|es|] == es && rows[..k] == rows;
      assert TableAt(es, |es|, rows);
    } else {
      var shorter := es[..|es| - 1];
      var before := Run(shorter).value.book.rows;
      AtMostOneRow(Run(shorter).value, es[|es| - 1]);
      EveryPrefixWasTheTable(shorter, k);
      var j: nat :| TableAt(shorter, j, before[..k]);
      assert shorter[..j] == es[..j] && rows[..k] == before[..k];
      assert TableAt(es, j, rows[..k]);
    }
  }

  lemma AtMostOneRow(s: State, e: Event)
    requires Step(s, e).Some?
    ensures s.book.rows <= Step(s, e).value.book.rows && |Step(s, e).value.book.rows| <= |s.book.rows| + 1
  {
    if !e.Commit? { OnlyCommitPosts(s, e); }
  }

  ghost predicate TableAt(es: seq<Event>, j: nat, rows: seq<Transaction>) {
    j <= |es| && Run(es[..j]).Some? && Run(es[..j]).value.book.rows == rows
  }

  /** In every interleaving a cached list was the newest twenty rows of an earlier committed state. */
  lemma {:induction false} CachedListWasNewest(es: seq<Event>, w: string)
    requires Run(es).Some? && w in Run(es).value.cache
    ensures exists j: nat, rows ::
      TableAt(es, j, rows) && IsNewest(Run(es).value.cache[w], rows, w, RECENT_LIMIT)
  {
    CachedListsWereReal(es);
    var rows := Run(es).value.book.rows;
    var k :| 0 <= k <= |rows| && IsNewest(Run(es).value.cache[w], rows[..k], w, RECENT_LIMIT);
    EveryPrefixWasTheTable(es, k);
  }

  // ----- Whose list it is -----

  /** Every list call works on the wallet of the user who asked. */
  ghost predicate ListsOwn(s: State) {
    forall c :: c in s.lists && !s.lists[c].Asked? && !s.lists[c].ListFailed? ==>
      OwnWallet(s.book, s.lists[c].userId, s.lists[c].walletId)
  }

  predicate OwnWallet(book: Book, u: string, w: string) {
    u in book.wallets && book.wallets[u].id == w
  }

  lemma ListStepOwn(s: State, s': State, e: Event)
    requires Step(s, e) == Some(s')
    ensures forall c :: c in s'.lists && !s'.lists[c].Asked? && !s'.lists[c].ListFailed? ==>
      || OwnWallet(s.book, s'.lists[c].userId, s'.lists[c].walletId)
      || (c in s.lists && !s.lists[c].Asked? && !s.lists[c].ListFailed?
          && s.lists[c].userId == s'.lists[c].userId && s.lists[c].walletId == s'.lists[c].walletId)
  {
    hide StepCall, FreshWalletId, IsNewest;
    if OfCall(s, e) { CallStepFrame(s, e.call, e); }
  }

  lemma {:induction false} RunKeepsListsOwn(es: seq<Event>)
    requires Run(es).Some?
    ensures ListsOwn(Run(es).value)
  {
    if es != [] {
      var shorter, e := es[..|es| - 1], es[|es| - 1];
      var s, s' := Run(shorter).value, Run(es).value;
      RunKeepsListsOwn(shorter);
      ListStepOwn(s, s', e);
      forall u, w | OwnWallet(s.book, u, w) ensures OwnWallet(s'.book, u, w) { EveryMoveHasItsRow(shorter, e, u); }
      hide Step, OwnWallet;
    }
  }

  // ----- When the cached list is up to date -----

  ghost predicate Active(s: State, c: nat) {
    || (c in s.calls && !s.calls[c].phase.Ended?)
    || (c in s.lists && !s.lists[c].Listed? && !s.lists[c].ListFailed?)
  }

  ghost predicate Idle(s: State) {
    forall c :: !Active(s, c)
  }

  /** The cache entry of this wallet is about to be dropped by a call that has just committed. */
  ghost predicate AboutToDrop(s: State, w: string) {
    exists c :: c in s.calls && s.calls[c].phase.Committed? && s.calls[c].phase.outcome.Accepted?
                && s.calls[c].phase.outcome.record.walletId == w
  }

  /** No call is received while another one is in flight. */
  ghost predicate OneAtATime(es: seq<Event>) {
    forall k :: 0 <= k < |es| && (es[k].Receive? || es[k].ReceiveList?) && Run(es[..k]).Some? ==>
      Idle(Run(es[..k]).value)
  }

  ghost predicate Acknowledged(e: Event) {
    && (e.Commit? ==> e.acked)
    && (e.Invalidate? ==> e.done)
  }

  ghost predicate CacheCurrent(s: State) {
    && (forall c, d :: Active(s, c) && Active(s, d) ==> c == d)
    && (forall w :: w in s.cache ==> Current(s, s.cache[w], w) || AboutToDrop(s, w))
    && (forall c :: c in s.lists && s.lists[c].Fetched? ==>
          Current(s, s.lists[c].txs, s.lists[c].walletId))
    && (forall c :: c in s.calls ==> c !in s.lists)
  }

  lemma {:induction false} AppendOther(txs: seq<Transaction>, rows: seq<Transaction>, row: Transaction, w: string, n: nat)
    requires IsNewest(txs, rows, w, n) && row.walletId != w
    ensures IsNewest(txs, rows + [row], w, n)
  {
  }

  /** A list survives a new row of its wallet exactly when it is full and no older than the row. */
  lemma {:induction false} AppendOwn(txs: seq<Transaction>, rows: seq<Transaction>, row: Transaction, w: string, n: nat)
    requires IsNewest(txs, rows, w, n) && row.walletId == w && row !in rows
    ensures IsNewest(txs, rows + [row], w, n) <==>
      |txs| == n && forall t :: t in txs ==> t.createdAt >= row.createdAt
  {
    assert row in rows + [row] && row !in txs;
  }

  lemma CommitKeepsCurrent(s: State, c: nat)
    requires Inv(s) && CacheCurrent(s) && c in s.calls && s.calls[c].phase.Ready?
    ensures CacheCurrent(StepCommit(s, c, s.calls[c], true).value)
  {
    var s' := StepCommit(s, c, s.calls[c], true).value;
    assert CallOk(s, c);
    assert Active(s, c);
    assert forall d :: Active(s', d) ==> Active(s, d);
    forall w | w in s'.cache ensures Current(s', s'.cache[w], w) || AboutToDrop(s', w) {
      if AboutToDrop(s, w) {
        var d :| d in s.calls && s.calls[d].phase.Committed? && s.calls[d].phase.outcome.Accepted?
                && s.calls[d].phase.outcome.record.walletId == w;
        assert Active(s, d);
      }
      if s.calls[c].phase.created {
        var row := s.calls[c].phase.record;
        assert s'.calls[c].phase == Committed(Accepted(row, true));
        if row.walletId != w { AppendOther(s.cache[w], s.book.rows, row, w, RECENT_LIMIT); }
      }
    }
    forall d | d in s'.lists && s'.lists[d].Fetched? ensures false { assert Active(s, d); }
  }

  /** Any other step of a Charge or Refund call. */
  lemma CallKeepsCurrent(s: State, c: nat, e: Event)
    requires Inv(s) && CacheCurrent(s) && OfCall(s, e) && e.call == c && StepCall(s, c, e).Some?
    requires !e.Commit? && Acknowledged(e)
    ensures CacheCurrent(StepCall(s, c, e).value)
  {
    var s' := StepCall(s, c, e).value;
    CallStepFrame(s, c, e);
    assert forall d :: Active(s', d) ==> Active(s, d);
    forall w | w in s'.cache ensures Current(s', s'.cache[w], w) || AboutToDrop(s', w) {
      assert s'.cache[w] == s.cache[w];
      if AboutToDrop(s, w) {
        var d :| d in s.calls && s.calls[d].phase.Committed? && s.calls[d].phase.outcome.Accepted?
                && s.calls[d].phase.outcome.record.walletId == w;
        if d != c { assert s'.calls[d] == s.calls[d]; }
      }
    }
  }

  lemma OtherStepFrame(s: State, s': State, e: Event)
    requires Step(s, e) == Some(s') && !OfCall(s, e)
    ensures s'.book.rows == s.book.rows
    ensures forall c :: c in s.calls ==> c in s'.calls && s'.calls[c] == s.calls[c]
    ensures forall c :: Active(s', c) ==> Active(s, c) || ((e.Receive? || e.ReceiveList?) && c == e.call)
    ensures forall c :: c in s.calls || c in s.lists ==> (c in s.lists <==> c in s'.lists)
    ensures forall c :: c in s'.calls ==> c in s.calls || (e.Receive? && c == e.call && c !in s'.lists)
    ensures forall c :: c in s'.lists ==> c in s.lists || (e.ReceiveList? && c == e.call && c !in s'.calls)
  {
    hide StepCall, FreshWalletId, IsNewest;
  }

  /** What a list call stores, in the cache or in its own record, is current. */
  lemma OtherStepStores(s: State, s': State, e: Event)
    requires CacheCurrent(s) && Step(s, e) == Some(s') && !OfCall(s, e)
    ensures forall w :: w in s'.cache ==> (w in s.cache && s'.cache[w] == s.cache[w]) || Current(s', s'.cache[w], w)
    ensures forall c :: c in s'.lists && s'.lists[c].Fetched? ==> Current(s', s'.lists[c].txs, s'.lists[c].walletId)
  {
  }

  lemma OtherStepKeepsCurrent(s: State, s': State, e: Event)
    requires CacheCurrent(s) && Step(s, e) == Some(s') && !OfCall(s, e)
    requires e.Receive? || e.ReceiveList? ==> Idle(s)
    ensures CacheCurrent(s')
  {
    OtherStepFrame(s, s', e);
    OtherStepStores(s, s', e);
    KeptCurrent(s, s', if e.Receive? || e.ReceiveList? then Some(e.call) else None);
  }

  lemma KeptCurrent(s: State, s': State, received: Option<nat>)
    requires CacheCurrent(s) && s'.book.rows == s.book.rows
    requires received.Some? ==> Idle(s)
    requires forall c: nat :: Active(s', c) ==> Active(s, c) || received == Some(c)
    requires forall c :: c in s.calls ==> c in s'.calls && s'.calls[c] == s.calls[c]
    requires forall c :: c in s'.calls ==> c !in s'.lists
    requires forall w :: w in s'.cache ==> (w in s.cache && s'.cache[w] == s.cache[w]) || Current(s', s'.cache[w], w)
    requires forall c :: c in s'.lists && s'.lists[c].Fetched? ==> Current(s', s'.lists[c].txs, s'.lists[c].walletId)
    ensures CacheCurrent(s')
  {
    forall w | w in s'.cache ensures Current(s', s'.cache[w], w) || AboutToDrop(s', w) {
      if w in s.cache && s'.cache[w] == s.cache[w] && AboutToDrop(s, w) {
        var d :| d in s.calls && s.calls[d].phase.Committed? && s.calls[d].phase.outcome.Accepted?
                && s.calls[d].phase.outcome.record.walletId == w;
        assert s'.calls[d] == s.calls[d];
      }
    }
  }

  lemma {:induction false} QuietRunInvariant(es: seq<Event>)
    requires Run(es).Some? && OneAtATime(es) && (forall e :: e in es ==> Acknowledged(e))
    ensures CacheCurrent(Run(es).value)
  {
    if es != [] {
      var shorter := es[..|es| - 1];
      assert forall k :: 0 <= k < |shorter| ==> shorter[..k] == es[..k];
      QuietRunInvariant(shorter);
      RunRefines(shorter);
      var s, e := Run(shorter).value, es[|es| - 1];
      assert e in es;
      if e.Commit? {
        CommitKeepsCurrent(s, e.call);
      } else if OfCall(s, e) {
        CallKeepsCurrent(s, e.call, e);
      } else {
        OtherStepKeepsCurrent(s, Run(es).value, e);
      }
    }
  }

  /**
   When calls do not overlap, every COMMIT is acknowledged and every Invalidate
   succeeds, then between calls each cached list is the newest twenty rows now.
   */
  lemma {:induction false} QuietCacheIsCurrent(es: seq<Event>, w: string)
    requires Run(es).Some? && OneAtATime(es) && (forall e :: e in es ==> Acknowledged(e))
    requires Idle(Run(es).value) && w in Run(es).value.cache
    ensures Current(Run(es).value, Run(es).value.cache[w], w)
  {
    QuietRunInvariant(es);
    var s := Run(es).value;
    if AboutToDrop(s, w) {
      var c :| c in s.calls && s.calls[c].phase.Committed? && s.calls[c].phase.outcome.Accepted?
              && s.calls[c].phase.outcome.record.walletId == w;
      assert Active(s, c);
    }
  }

  /** One more step of a run, in which calls may or may not overlap. */
  lemma {:induction false} Extend(es: seq<Event>, s: State, e: Event, s': State) returns (es': seq<Event>)
    requires Run(es) == Some(s) && Step(s, e) == Some(s')
    ensures es' == es + [e] && Run(es') == Some(s')
    ensures OneAtATime(es) && (e.Receive? || e.ReceiveList? ==> Idle(s)) ==> OneAtATime(es')
  {
    hide Step, Idle;
    es' := es + [e];
    assert es'[..|es|] == es;
    assert forall k :: 0 <= k <= |es| ==> es'[..k] == es[..k];
    assert es[..|es|] == es;
  }

  lemma Overwrite<V>(c: nat, a: V, b: V)
    ensures map[c := a][c := b] == map[c := b]
  {
  }

  /** One wallet, no transactions, and a list call in the given phase. */
  function Listing(p: ListPhase): State {
    State(Book(map["u" := Wallet("w", 0)], []), map[], map[], map[], map[0 := p])
  }

  lemma FirstListSteps()
    ensures Step(Init, CreateWallet("u", "w")) == Some(Listing(Asked("u")).(lists := map[]))
    ensures Step(Listing(Asked("u")).(lists := map[]), ReceiveList(0, "u")) == Some(Listing(Asked("u")))
    ensures Idle(Listing(Asked("u")).(lists := map[]))
    ensures Step(Listing(Asked("u")), ResolveWallet(0)) == Some(Listing(Resolved("u", "w")))
  {
    Overwrite(0, Asked("u"), Resolved("u", "w"));
  }

  lemma LastListSteps()
    ensures Step(Listing(Resolved("u", "w")), ReadCache(0, true)) == Some(Listing(Missed("u", "w")))
    ensures Step(Listing(Missed("u", "w")), FetchRows(0, [])) == Some(Listing(Fetched("u", "w", [])))
    ensures Step(Listing(Fetched("u", "w", [])), WriteCache(0, true))
         == Some(Listing(Listed("u", "w", [])).(cache := map["w" := []]))
  {
    Overwrite(0, Resolved("u", "w"), Missed("u", "w"));
    Overwrite(0, Missed("u", "w"), Fetched("u", "w", []));
    Overwrite(0, Fetched("u", "w", []), Listed("u", "w", []));
  }

  lemma ResolveEmptyWallet() returns (es: seq<Event>)
    ensures Run(es) == Some(Listing(Resolved("u", "w"))) && OneAtATime(es)
    ensures forall e :: e in es ==> Acknowledged(e)
  {
    assert Run([]) == Some(Init) && OneAtATime([]);
    hide Step, OneAtATime, Idle, Listing, Run;
    FirstListSteps();
    var noLists := Listing(Asked("u")).(lists := map[]);
    es := Extend([], Init, CreateWallet("u", "w"), noLists);
    es := Extend(es, noLists, ReceiveList(0, "u"), Listing(Asked("u")));
    es := Extend(es, Listing(Asked("u")), ResolveWallet(0), Listing(Resolved("u", "w")));
  }

  /** A run in which a list call has fetched the rows of a new wallet, none, and not yet cached them. */
  lemma FetchEmptyList() returns (es: seq<Event>)
    ensures Run(es) == Some(Listing(Fetched("u", "w", []))) && OneAtATime(es)
    ensures forall e :: e in es ==> Acknowledged(e)
  {
    hide Step, OneAtATime, Idle, Listing, Run;
    es := ResolveEmptyWallet();
    LastListSteps();
    es := Extend(es, Listing(Resolved("u", "w")), ReadCache(0, true), Listing(Missed("u", "w")));
    es := Extend(es, Listing(Missed("u", "w")), FetchRows(0, []), Listing(Fetched("u", "w", [])));
  }

  /** A run that leaves the empty list of transactions of a new wallet in the cache. */
  lemma CacheEmptyList() returns (es: seq<Event>)
    ensures Run(es) == Some(Listing(Listed("u", "w", [])).(cache := map["w" := []])) && OneAtATime(es)
    ensures forall e :: e in es ==> Acknowledged(e)
  {
    hide Step, OneAtATime, Idle, Listing, Run;
    es := FetchEmptyList();
    LastListSteps();
    es := Extend(es, Listing(Fetched("u", "w", [])), WriteCache(0, true), Listing(Listed("u", "w", [])).(cache := map["w" := []]));
  }

  const REFUND := Request("u", Credit, 5, "r")
  const ROW := NewRow("w", REFUND, 9, 7)

  const W0 := Wallet("w", 0)

  /** That wallet, with no transaction and no Charge or Refund call, whatever the list calls and the cache. */
  predicate Fresh(s: State) {
    s.book == Book(map["u" := W0], []) && s.calls == map[] && s.locks == map[] && 1 !in s.lists
  }

  /** That state with a refund call in flight. */
  function Refunding(s: State, k: Call, locked: bool): State {
    s.(calls := map[1 := k], locks := if locked then map["w" := 1] else map[])
  }

  lemma FirstRefundSteps(s: State)
    requires Fresh(s)
    ensures Step(s, Receive(1, REFUND)) == Some(Refunding(s, Call(REFUND, Entered, None, None), false))
    ensures Step(Refunding(s, Call(REFUND, Entered, None, None), false), Begin(1, 7))
         == Some(Refunding(s, Call(REFUND, Begun(7), None, None), false))
    ensures Step(Refunding(s, Call(REFUND, Begun(7), None, None), false), LockWallet(1))
         == Some(Refunding(s, Call(REFUND, Locked(7, W0), None, None), true))
  {
    Overwrite(1, Call(REFUND, Entered, None, None), Call(REFUND, Begun(7), None, None));
    Overwrite(1, Call(REFUND, Begun(7), None, None), Call(REFUND, Locked(7, W0), None, None));
  }

  lemma LastRefundSteps(s: State)
    requires Fresh(s)
    ensures Step(Refunding(s, Call(REFUND, Locked(7, W0), None, None), true), Lookup(1))
         == Some(Refunding(s, Call(REFUND, Funded(7, W0), None, None), true))
    ensures Step(Refunding(s, Call(REFUND, Funded(7, W0), None, None), true), UpdateBalance(1))
         == Some(Refunding(s, Call(REFUND, Updated(7, W0), Some(5), None), true))
    ensures Step(Refunding(s, Call(REFUND, Updated(7, W0), Some(5), None), true), InsertRow(1, 9))
         == Some(Refunding(s, Call(REFUND, Ready(ROW, true), Some(5), Some(ROW)), true))
  {
    Overwrite(1, Call(REFUND, Locked(7, W0), None, None), Call(REFUND, Funded(7, W0), None, None));
    Overwrite(1, Call(REFUND, Funded(7, W0), None, None), Call(REFUND, Updated(7, W0), Some(5), None));
    Overwrite(1, Call(REFUND, Updated(7, W0), Some(5), None), Call(REFUND, Ready(ROW, true), Some(5), Some(ROW)));
    assert map["w" := 1]["w" := 1] == map["w" := 1];
  }

  /** A refund up to its COMMIT, on any such state; it can be one of a run with one call at a time. */
  lemma {:induction false} PrepareRefund(es: seq<Event>, s: State) returns (es': seq<Event>)
    requires Run(es) == Some(s) && Fresh(s)
    ensures es <= es' && Run(es') == Some(Refunding(s, Call(REFUND, Ready(ROW, true), Some(5), Some(ROW)), true))
    ensures OneAtATime(es) && Idle(s) ==> OneAtATime(es')
    ensures (forall e :: e in es ==> Acknowledged(e)) ==> forall e :: e in es' ==> Acknowledged(e)
  {
    hide Run, Step, OneAtATime, Idle, Refunding;
    FirstRefundSteps(s);
    LastRefundSteps(s);
    var k0 := Refunding(s, Call(REFUND, Entered, None, None), false);
    es' := Extend(es, s, Receive(1, REFUND), k0);
    var k1 := Refunding(s, Call(REFUND, Begun(7), None, None), false);
    es' := Extend(es', k0, Begin(1, 7), k1);
    var k2 := Refunding(s, Call(REFUND, Locked(7, W0), None, None), true);
    es' := Extend(es', k1, LockWallet(1), k2);
    var k3 := Refunding(s, Call(REFUND, Funded(7, W0), None, None), true);
    es' := Extend(es', k2, Lookup(1), k3);
    var k4 := Refunding(s, Call(REFUND, Updated(7, W0), Some(5), None), true);
    es' := Extend(es', k3, UpdateBalance(1), k4);
    es' := Extend(es', k4, InsertRow(1, 9), Refunding(s, Call(REFUND, Ready(ROW, true), Some(5), Some(ROW)), true));
  }

  lemma CommitRefund(s: State, acked: bool)
    requires Fresh(s)
    ensures var before := Refunding(s, Call(REFUND, Ready(ROW, true), Some(5), Some(ROW)), true);
      && Step(before, Commit(1, acked)).Some?
      && var s' := Step(before, Commit(1, acked)).value;
      && ROW in s'.book.rows && s'.cache == s.cache && s'.lists == s.lists && 1 in s'.calls
      && s'.calls == map[1 := s'.calls[1]]
      && s'.calls[1].phase == (if acked then Committed(Accepted(ROW, true)) else Ended(Unacknowledged(Accepted(ROW, true))))
  {
    Overwrite(1, Call(REFUND, Ready(ROW, true), Some(5), Some(ROW)),
              Step(Refunding(s, Call(REFUND, Ready(ROW, true), Some(5), Some(ROW)), true), Commit(1, acked)).value.calls[1]);
  }

  lemma EmptyIsStale(s: State)
    requires ROW in s.book.rows && "w" in s.cache && s.cache["w"] == []
    ensures !Current(s, s.cache["w"], "w")
  {
    assert ROW.walletId == "w";
  }

  /**
   Without the acknowledgement the claim fails, even with one call at a time:
   a list is cached, a refund commits but Finish reports an error, and the
   cached list lacks the new row.
   */
  lemma UnacknowledgedCommitLeavesStaleCache() returns (es: seq<Event>)
    ensures Run(es).Some? && OneAtATime(es)
    ensures forall e :: e in es && e.Invalidate? ==> e.done
    ensures var s := Run(es).value; Idle(s) && "w" in s.cache && !Current(s, s.cache["w"], "w")
  {
    var s := Listing(Listed("u", "w", [])).(cache := map["w" := []]);
    assert Fresh(s) && Idle(s);
    CommitRefund(s, false);
    hide Run, Step, OneAtATime, Current, Listing, Refunding;
    es := CacheEmptyList();
    es := PrepareRefund(es, s);
    var before := Refunding(s, Call(REFUND, Ready(ROW, true), Some(5), Some(ROW)), true);
    var after := Step(before, Commit(1, false)).value;
    es := Extend(es, before, Commit(1, false), after);
    EmptyIsStale(after);
    hide Idle;
    EndedIsIdle(s, after);
  }

  lemma EndedIsIdle(s: State, s': State)
    requires Idle(s) && s'.lists == s.lists && forall c :: c in s'.calls ==> s'.calls[c].phase.Ended?
    ensures Idle(s')
  {
    forall c ensures !Active(s', c) { assert !Active(s, c); }
  }

  /** Rows fetched before a refund are cached after its Invalidate. */
  lemma LateSteps(s: State)
    requires s.lists == map[0 := Fetched("u", "w", [])] && ROW in s.book.rows
    requires 1 in s.calls && s.calls == map[1 := s.calls[1]] && s.calls[1].phase == Committed(Accepted(ROW, true))
    ensures Step(s, Invalidate(1, true)).Some?
    ensures Step(Step(s, Invalidate(1, true)).value, WriteCache(0, true)).Some?
    ensures var s' := Step(Step(s, Invalidate(1, true)).value, WriteCache(0, true)).value;
      ROW in s'.book.rows && "w" in s'.cache && s'.cache["w"] == [] && Idle(s')
  {
    hide IsNewest, Find, FreshWalletId, InsertBlocked;
    var t := Step(s, Invalidate(1, true)).value;
    assert t.lists == s.lists && t.calls.Keys == {1} && t.calls[1].phase.Ended?;
  }

  /**
   Overlapping calls make it fail though everything is acknowledged: a list call
   fetches the rows, a refund commits and invalidates, and then the list is cached.
   */
  lemma LateWriteLeavesStaleCache() returns (es: seq<Event>)
    ensures Run(es).Some? && (forall e :: e in es ==> Acknowledged(e))
    ensures var s := Run(es).value; Idle(s) && "w" in s.cache && !Current(s, s.cache["w"], "w")
  {
    var s := Listing(Fetched("u", "w", []));
    assert Fresh(s) && s.lists == map[0 := Fetched("u", "w", [])];
    CommitRefund(s, true);
    hide Run, Step, OneAtATime, Current, Listing, Refunding, Idle;
    es := FetchEmptyList();
    es := PrepareRefund(es, s);
    var before := Refunding(s, Call(REFUND, Ready(ROW, true), Some(5), Some(ROW)), true);
    var t := Step(before, Commit(1, true)).value;
    es := Extend(es, before, Commit(1, true), t);
    LateSteps(t);
    var u := Step(t, Invalidate(1, true)).value;
    es := Extend(es, t, Invalidate(1, true), u);
    var v := Step(u, WriteCache(0, true)).value;
    es := Extend(es, u, WriteCache(0, true), v);
    EmptyIsStale(v);
  }

  // ----- Exactly when a cached list is stale, in every interleaving -----

  /** How many rows the table had when call `c` fetched its list. */
  ghost function FetchedAt(es: seq<Event>, c: nat): nat {
    if es == [] || Run(es[..|es| - 1]).None? then 0
    else if es[|es| - 1].FetchRows? && es[|es| - 1].call == c then |Run(es[..|es| - 1]).value.book.rows|
    else FetchedAt(es[..|es| - 1], c)
  }

  predicate Caches(s: State, e: Event, w: string) {
    e.WriteCache? && e.done && e.call in s.lists && s.lists[e.call].Fetched? && s.lists[e.call].walletId == w
  }

  /** How many rows the table had when the cached list of wallet `w` was fetched. */
  ghost function CachedFrom(es: seq<Event>, w: string): nat {
    if es == [] || Run(es[..|es| - 1]).None? then 0
    else if Caches(Run(es[..|es| - 1]).value, es[|es| - 1], w) then FetchedAt(es[..|es| - 1], es[|es| - 1].call)
    else CachedFrom(es[..|es| - 1], w)
  }

  ghost predicate NewestAt(rows: seq<Transaction>, k: nat, txs: seq<Transaction>, w: string) {
    k <= |rows| && IsNewest(txs, rows[..k], w, RECENT_LIMIT)
  }

  ghost predicate StampInv(es: seq<Event>, s: State) {
    && (forall w :: w in s.cache ==> NewestAt(s.book.rows, CachedFrom(es, w), s.cache[w], w))
    && (forall c :: c in s.lists && s.lists[c].Fetched? ==>
          NewestAt(s.book.rows, FetchedAt(es, c), s.lists[c].txs, s.lists[c].walletId))
  }

  /** Where the lists of a step come from, with the call that brings them. */
  lemma StoredFrom(s: State, s': State, e: Event)
    requires Step(s, e) == Some(s')
    ensures forall w :: w in s'.cache && !Caches(s, e, w) ==> w in s.cache && s'.cache[w] == s.cache[w]
    ensures forall w :: w in s'.cache && Caches(s, e, w) && e.call !in s.calls ==> s'.cache[w] == s.lists[e.call].txs
    ensures e.WriteCache? ==> e.call !in s.calls
    ensures forall c :: c in s'.lists && s'.lists[c].Fetched? && !(e.FetchRows? && e.call == c) ==>
              c in s.lists && s'.lists[c] == s.lists[c]
    ensures e.FetchRows? ==>
      && e.call in s'.lists && s'.lists[e.call].Fetched? && s'.book.rows == s.book.rows
      && IsNewest(s'.lists[e.call].txs, s.book.rows, s'.lists[e.call].walletId, RECENT_LIMIT)
  {
    hide StepCall, FreshWalletId, IsNewest;
    if OfCall(s, e) {
      CallStepFrame(s, e.call, e);
      CallIsNoList(s, e);
    }
  }

  lemma CallIsNoList(s: State, e: Event)
    requires OfCall(s, e) && StepCall(s, e.call, e).Some?
    ensures !e.WriteCache? && !e.FetchRows?
  {
  }

  lemma {:induction false} RunKeepsStamps(es: seq<Event>)
    requires Run(es).Some?
    ensures StampInv(es, Run(es).value)
  {
    if es != [] {
      var shorter, e := es[..|es| - 1], es[|es| - 1];
      var s, s' := Run(shorter).value, Run(es).value;
      RunKeepsStamps(shorter);
      RowsGrow(s, e);
      StoredFrom(s, s', e);
      assert s.book.rows[..|s.book.rows|] == s.book.rows;
      assert forall k :: 0 <= k <= |s.book.rows| ==> s'.book.rows[..k] == s.book.rows[..k];
      hide Step, IsNewest;
    }
  }

  /** The list is full, and the row is older than everything on it or as old. */
  predicate Hidden(txs: seq<Transaction>, row: Transaction) {
    |txs| == RECENT_LIMIT && forall t :: t in txs ==> t.createdAt >= row.createdAt
  }

  /** A list of the newest rows stays one exactly as long as every later row of its wallet is hidden. */
  lemma {:induction false} NewestIffHidden(txs: seq<Transaction>, rows: seq<Transaction>, k: nat, w: string)
    requires NewestAt(rows, k, txs, w) && UniqueKeys(rows)
    ensures IsNewest(txs, rows, w, RECENT_LIMIT)
      <==> forall i :: k <= i < |rows| && rows[i].walletId == w ==> Hidden(txs, rows[i])
  {
    assert forall t :: t in txs ==> t in rows[..k];
    forall i | k <= i < |rows| ensures rows[i] !in rows[..k] {
      assert forall j :: 0 <= j < k ==> !SameKey(rows[j], rows[i].walletId, rows[i].reference, rows[i].kind);
    }
    if IsNewest(txs, rows, w, RECENT_LIMIT) {
      forall i | k <= i < |rows| && rows[i].walletId == w ensures Hidden(txs, rows[i]) {
        assert rows[i] in rows && rows[i] !in txs;
      }
    } else if forall i :: k <= i < |rows| && rows[i].walletId == w ==> Hidden(txs, rows[i]) {
      forall r | r in rows && r.walletId == w && r !in txs
        ensures |txs| == RECENT_LIMIT && forall t :: t in txs ==> t.createdAt >= r.createdAt
      {
        var i :| 0 <= i < |rows| && rows[i] == r;
        if i < k { assert r in rows[..k]; }
      }
    }
  }

  /**
   In every interleaving, whatever failed: a cached list is the newest twenty rows
   now if and only if every row of its wallet that was committed after the list
   was fetched is too old to show.
   */
  lemma {:induction false} CurrentIffNothingSince(es: seq<Event>, w: string)
    requires Run(es).Some? && w in Run(es).value.cache
    ensures var s, k := Run(es).value, CachedFrom(es, w);
      && k <= |s.book.rows|
      && (Current(s, s.cache[w], w)
          <==> forall i :: k <= i < |s.book.rows| && s.book.rows[i].walletId == w ==> Hidden(s.cache[w], s.book.rows[i]))
  {
    hide IsNewest, Run, CachedFrom, Hidden, UniqueKeys, Balanced, DistinctIds;
    RunKeepsStamps(es);
    BalancesMatchRows(es);
    var s := Run(es).value;
    NewestIffHidden(s.cache[w], s.book.rows, CachedFrom(es, w), w);
  }

  /** The cache after a commit and, if Finish acknowledged it, the invalidation that follows. */
  ghost function AfterCommit(s: State, c: nat, acked: bool, done: bool): Option<State>
    requires c in s.calls
  {
    var committed := StepCommit(s, c, s.calls[c], acked);
    if committed.None? || !acked then committed
    else StepInvalidate(committed.value, c, committed.value.calls[c], done)
  }

  /**
   Exactly when an up-to-date cached list outlives a new row without harm: the
   commit was acknowledged and the key deleted, or the row is too old to show.
   */
  lemma {:induction false} StaleExactlyWhen(es: seq<Event>, c: nat, acked: bool, done: bool)
    requires Run(es).Some? && c in Run(es).value.calls
    requires var s := Run(es).value;
      && s.calls[c].phase.Ready? && s.calls[c].phase.created
      && s.calls[c].phase.record.walletId in s.cache
      && Current(s, s.cache[s.calls[c].phase.record.walletId], s.calls[c].phase.record.walletId)
    ensures var s := Run(es).value;
      var row := s.calls[c].phase.record; var txs := s.cache[row.walletId];
      && AfterCommit(s, c, acked, done).Some?
      && var after := AfterCommit(s, c, acked, done).value;
      (row.walletId in after.cache ==> Current(after, after.cache[row.walletId], row.walletId))
      <==> (acked && done) || (|txs| == RECENT_LIMIT && forall t :: t in txs ==> t.createdAt >= row.createdAt)
  {
    RunRefines(es);
    var s := Run(es).value;
    assert CallOk(s, c);
    var row := s.calls[c].phase.record;
    assert !SameKey(row, row.walletId, row.reference, row.kind) || row !in s.book.rows;
    AppendOwn(s.cache[row.walletId], s.book.rows, row, row.walletId, RECENT_LIMIT);
  }
}
