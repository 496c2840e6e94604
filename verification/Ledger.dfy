/**
 The atomic ledger: what Charge and Refund mean when each runs alone. It is the
 specification that the concurrent wallet machine refines, and the wallet that
 the order saga talks to.
 */
module Ledger {
  import opened Prelude

  datatype Kind = Debit | Credit

  /** A row of the wallets table, which is keyed by user id. */
  datatype Wallet = Wallet(id: string, balance: Int64)

  /** A row of the transactions table. */
  datatype Transaction = Transaction(
    id: nat, walletId: string, kind: Kind, amount: Int64, reference: string, createdAt: int)

  datatype Book = Book(wallets: map<string, Wallet>, rows: seq<Transaction>)

  /** A Charge (Debit) or a Refund (Credit). */
  datatype Request = Request(userId: string, kind: Kind, amount: Int64, reference: string)

  datatype Reason = InvalidAmount | WalletNotFound | InsufficientFunds

  datatype Outcome = Accepted(record: Transaction, created: bool) | Rejected(reason: Reason)

  predicate SameKey(t: Transaction, walletId: string, reference: string, kind: Kind) {
    t.walletId == walletId && t.reference == reference && t.kind == kind
  }

  /** The row with the given unique key, if the table has one. */
  function Find(rows: seq<Transaction>, walletId: string, reference: string, kind: Kind): (r: Option<Transaction>)
    ensures r.Some? ==> r.value in rows && SameKey(r.value, walletId, reference, kind)
    ensures r.None? ==> forall t :: t in rows ==> !SameKey(t, walletId, reference, kind)
  {
    if rows == [] then None
    else
      var last := rows[|rows| - 1];
      if SameKey(last, walletId, reference, kind) then Some(last)
      else Find(rows[..|rows| - 1], walletId, reference, kind)
  }

  function NewBalance(balance: Int64, req: Request): Int64 {
    if req.kind.Debit? then Wrap64(balance - req.amount) else Wrap64(balance + req.amount)
  }

  function NewRow(walletId: string, req: Request, id: nat, at: int): Transaction {
    Transaction(id, walletId, req.kind, req.amount, req.reference, at)
  }

  /** The idempotent ledger operation: refuse, replay, or post one new row. */
  function Apply(book: Book, req: Request, id: nat, at: int): (Book, Outcome) {
    if req.amount <= 0 then (book, Rejected(InvalidAmount))
    else if req.userId !in book.wallets then (book, Rejected(WalletNotFound))
    else
      var w := book.wallets[req.userId];
      var known := Find(book.rows, w.id, req.reference, req.kind);
      if known.Some? then (book, Accepted(known.value, false))
      else if req.kind.Debit? && w.balance < req.amount then (book, Rejected(InsufficientFunds))
      else
        var row := NewRow(w.id, req, id, at);
        (Book(book.wallets[req.userId := w.(balance := NewBalance(w.balance, req))], book.rows + [row]),
         Accepted(row, true))
  }

  /** CreateWallet: `user_id` is unique, the balance column defaults to 0. */
  function OpenWallet(book: Book, userId: string, walletId: string): Book {
    if userId in book.wallets then book
    else book.(wallets := book.wallets[userId := Wallet(walletId, 0)])
  }

  predicate FreshWalletId(book: Book, walletId: string) {
    && (forall u :: u in book.wallets ==> book.wallets[u].id != walletId)
    && (forall t :: t in book.rows ==> t.walletId != walletId)
  }

  /** The amounts posted to one wallet with one kind. */
  function Total(rows: seq<Transaction>, walletId: string, kind: Kind): int {
    if rows == [] then 0
    else
      var last := rows[|rows| - 1];
      Total(rows[..|rows| - 1], walletId, kind)
      + if last.walletId == walletId && last.kind == kind then last.amount else 0
  }

  ghost predicate UniqueKeys(rows: seq<Transaction>) {
    forall i, j :: 0 <= i < j < |rows| ==> !SameKey(rows[i], rows[j].walletId, rows[j].reference, rows[j].kind)
  }

  ghost predicate DistinctIds(book: Book) {
    forall u, v :: u in book.wallets && v in book.wallets && book.wallets[u].id == book.wallets[v].id ==> u == v
  }

  ghost predicate WellFormed(book: Book) {
    && DistinctIds(book)
    && UniqueKeys(book.rows)
    && (forall t :: t in book.rows ==> t.amount > 0)
  }

  /**
   The balance column agrees with the posted rows, as long as what was ever
   credited to the wallet fits in the column.
   */
  ghost predicate Balanced(book: Book) {
    forall u :: u in book.wallets ==>
      var w := book.wallets[u];
      Total(book.rows, w.id, Credit) < TWO_63 ==>
        0 <= w.balance == Total(book.rows, w.id, Credit) - Total(book.rows, w.id, Debit)
  }

  lemma {:induction false} TotalNonNegative(rows: seq<Transaction>, walletId: string, kind: Kind)
    requires forall t :: t in rows ==> t.amount > 0
    ensures Total(rows, walletId, kind) >= 0
  {
    if rows != [] { TotalNonNegative(rows[..|rows| - 1], walletId, kind); }
  }

  lemma {:induction false} TotalOfStranger(rows: seq<Transaction>, walletId: string, kind: Kind)
    requires forall t :: t in rows ==> t.walletId != walletId
    ensures Total(rows, walletId, kind) == 0
  {
    if rows != [] { TotalOfStranger(rows[..|rows| - 1], walletId, kind); }
  }

  /** In a table with unique keys a stored row is what a lookup of its key returns. */
  lemma {:induction false} FindStored(rows: seq<Transaction>, t: Transaction)
    requires UniqueKeys(rows) && t in rows
    ensures Find(rows, t.walletId, t.reference, t.kind) == Some(t)
  {
    var n := |rows| - 1;
    if rows[n] != t {
      var i :| 0 <= i < |rows| && rows[i] == t;
      assert rows[..n][i] == t;
      FindStored(rows[..n], t);
    }
  }

  /** Appending a row leaves every other key's lookup as it was. */
  lemma {:induction false} FindAppend(rows: seq<Transaction>, row: Transaction, walletId: string, reference: string, kind: Kind)
    ensures Find(rows + [row], walletId, reference, kind)
         == if SameKey(row, walletId, reference, kind) then Some(row) else Find(rows, walletId, reference, kind)
  {
    assert (rows + [row])[..|rows|] == rows;
  }

  lemma {:induction false} TotalAppend(rows: seq<Transaction>, row: Transaction, walletId: string, kind: Kind)
    ensures Total(rows + [row], walletId, kind)
         == Total(rows, walletId, kind) + if row.walletId == walletId && row.kind == kind then row.amount else 0
  {
    assert (rows + [row])[..|rows|] == rows;
  }

  /**
   One ledger operation: it keeps the table well formed and the balances exact,
   touches one wallet at most, and moves a balance exactly when it posts a row
   of its own.
   */
  lemma ApplyKeeps(book: Book, req: Request, id: nat, at: int)
    requires WellFormed(book) && Balanced(book)
    ensures var (after, outcome) := Apply(book, req, id, at);
      && WellFormed(after) && Balanced(after)
      && (after != book <==> outcome.Accepted? && outcome.created)
      && (outcome.Accepted? ==> outcome.record in after.rows)
      && book.rows <= after.rows && |after.rows| <= |book.rows| + 1
      && (|after.rows| == |book.rows| ==> after.wallets == book.wallets)
      && (forall u :: u in book.wallets && u != req.userId ==> u in after.wallets && after.wallets[u] == book.wallets[u])
  {
    hide WellFormed, Balanced, Find, NewBalance;
    var (after, outcome) := Apply(book, req, id, at);
    if outcome.Accepted? && outcome.created { PostKeeps(book, req, id, at); }
  }

  lemma PostKeeps(book: Book, req: Request, id: nat, at: int)
    requires WellFormed(book) && Balanced(book) && Apply(book, req, id, at).1.Accepted? && Apply(book, req, id, at).1.created
    ensures WellFormed(Apply(book, req, id, at).0) && Balanced(Apply(book, req, id, at).0)
  {
    var after := Apply(book, req, id, at).0;
    PostKeepsWellFormed(book, req, id, at);
    hide Apply, WellFormed;
    forall u | u in after.wallets
      ensures Total(after.rows, after.wallets[u].id, Credit) < TWO_63 ==>
        0 <= after.wallets[u].balance
          == Total(after.rows, after.wallets[u].id, Credit) - Total(after.rows, after.wallets[u].id, Debit)
    {
      PostKeepsBalance(book, req, id, at, u);
    }
  }

  lemma PostKeepsWellFormed(book: Book, req: Request, id: nat, at: int)
    requires WellFormed(book) && Apply(book, req, id, at).1.Accepted? && Apply(book, req, id, at).1.created
    ensures WellFormed(Apply(book, req, id, at).0)
  {
    hide Find, NewBalance;
  }

  lemma PostKeepsBalance(book: Book, req: Request, id: nat, at: int, u: string)
    requires WellFormed(book) && Balanced(book) && Apply(book, req, id, at).1.Accepted? && Apply(book, req, id, at).1.created
    requires u in Apply(book, req, id, at).0.wallets
    ensures var after := Apply(book, req, id, at).0;
      Total(after.rows, after.wallets[u].id, Credit) < TWO_63 ==>
        0 <= after.wallets[u].balance
          == Total(after.rows, after.wallets[u].id, Credit) - Total(after.rows, after.wallets[u].id, Debit)
  {
    hide UniqueKeys, Find, Wrap64;
    var after, w := Apply(book, req, id, at).0, book.wallets[req.userId];
    var row := NewRow(w.id, req, id, at);
    assert after.rows == book.rows + [row];
    assert after.wallets == book.wallets[req.userId := w.(balance := NewBalance(w.balance, req))];
    assert req.amount > 0 && (req.kind.Debit? ==> req.amount <= w.balance);
    assert forall t :: t in book.rows ==> t.amount > 0;
    assert u != req.userId ==> book.wallets[u].id != w.id;
    hide Apply, WellFormed;
    var v := after.wallets[u].id;
    TotalAppend(book.rows, row, v, Credit);
    TotalAppend(book.rows, row, v, Debit);
    TotalNonNegative(book.rows, v, Debit);
    TotalNonNegative(book.rows, v, Credit);
    hide Total;
  }

  lemma OpenKeeps(book: Book, userId: string, walletId: string)
    requires WellFormed(book) && Balanced(book) && FreshWalletId(book, walletId)
    ensures WellFormed(OpenWallet(book, userId, walletId)) && Balanced(OpenWallet(book, userId, walletId))
  {
    TotalOfStranger(book.rows, walletId, Credit);
    TotalOfStranger(book.rows, walletId, Debit);
  }

  // ----- Serial runs -----

  /** One operation of a serial run; Post carries the call it answers. */
  datatype Op = Open(userId: string, walletId: string) | Post(call: nat, req: Request, id: nat, at: int)

  /** A book and the outcome of every call answered so far. */
  datatype Trail = Trail(book: Book, asked: map<nat, Request>, verdicts: map<nat, Outcome>)

  /** The trail after one more answered call. */
  function Answer(before: Trail, c: nat, req: Request, id: nat, at: int): Trail {
    var (book, outcome) := Apply(before.book, req, id, at);
    Trail(book, before.asked[c := req], before.verdicts[c := outcome])
  }

  function Serial(ops: seq<Op>): Trail {
    if ops == [] then Trail(Book(map[], []), map[], map[])
    else
      var before := Serial(ops[..|ops| - 1]);
      match ops[|ops| - 1]
      case Open(u, w) => before.(book := OpenWallet(before.book, u, w))
      case Post(c, req, id, at) => Answer(before, c, req, id, at)
  }

  /** Wallet ids are fresh whenever a wallet is opened, and no call is answered twice. */
  ghost predicate Sound(ops: seq<Op>) {
    ops == [] ||
    var before := Serial(ops[..|ops| - 1]);
    && Sound(ops[..|ops| - 1])
    && match ops[|ops| - 1]
       case Open(_, w) => FreshWalletId(before.book, w)
       case Post(c, _, _, _) => c !in before.verdicts
  }

  lemma {:induction false} SerialKeeps(ops: seq<Op>)
    requires Sound(ops)
    ensures WellFormed(Serial(ops).book) && Balanced(Serial(ops).book)
    ensures Serial(ops).asked.Keys == Serial(ops).verdicts.Keys
  {
    if ops != [] {
      SerialKeeps(ops[..|ops| - 1]);
      var before := Serial(ops[..|ops| - 1]);
      match ops[|ops| - 1]
      case Open(u, w) => OpenKeeps(before.book, u, w);
      case Post(c, req, id, at) => ApplyKeeps(before.book, req, id, at);
    }
  }

  /** Every accepted call of a serial run was given the stored row of its own user, reference and kind. */
  ghost predicate Recorded(trail: Trail, c: nat) {
    c in trail.asked && c in trail.verdicts && trail.verdicts[c].Accepted? ==>
      var req := trail.asked[c];
      && req.userId in trail.book.wallets
      && Find(trail.book.rows, trail.book.wallets[req.userId].id, req.reference, req.kind)
         == Some(trail.verdicts[c].record)
  }

  ghost predicate Creator(trail: Trail, c: nat) {
    c in trail.asked && c in trail.verdicts && trail.verdicts[c].Accepted? && trail.verdicts[c].created
  }

  predicate SameIntent(a: Request, b: Request) {
    a.userId == b.userId && a.reference == b.reference && a.kind == b.kind
  }

  /** Accepted calls carry the stored row, and of the calls with one intent at most one created it. */
  ghost predicate Idempotent(trail: Trail) {
    && (forall c :: Recorded(trail, c))
    && (forall c, d :: Creator(trail, c) && Creator(trail, d) && SameIntent(trail.asked[c], trail.asked[d]) ==> c == d)
  }

  lemma AnswerRecords(before: Trail, c: nat, req: Request, id: nat, at: int, d: nat)
    requires WellFormed(before.book) && Recorded(before, d)
    requires c !in before.asked && c !in before.verdicts
    ensures Recorded(Answer(before, c, req, id, at), d)
  {
    var after := Answer(before, c, req, id, at);
    if after.book != before.book && d in after.asked && after.asked[d].userId in before.book.wallets {
      var other := after.asked[d];
      FindAppend(before.book.rows, after.verdicts[c].record,
                 before.book.wallets[other.userId].id, other.reference, other.kind);
    }
  }

  lemma AnswerIdempotent(before: Trail, c: nat, req: Request, id: nat, at: int)
    requires WellFormed(before.book) && Idempotent(before)
    requires c !in before.asked && c !in before.verdicts
    ensures Idempotent(Answer(before, c, req, id, at))
  {
    var after := Answer(before, c, req, id, at);
    forall d ensures Recorded(after, d) { AnswerRecords(before, c, req, id, at, d); }
    forall d | d != c && Creator(after, c) && Creator(after, d)
      ensures !SameIntent(after.asked[c], after.asked[d])
    {
      assert Recorded(before, d);
    }
    forall d, e | Creator(after, d) && Creator(after, e) && SameIntent(after.asked[d], after.asked[e])
      ensures d == e
    {
      assert d != c ==> Creator(before, d);
      assert e != c ==> Creator(before, e);
    }
  }

  lemma {:induction false} SerialIdempotent(ops: seq<Op>)
    requires Sound(ops)
    ensures Idempotent(Serial(ops))
  {
    if ops != [] {
      SerialIdempotent(ops[..|ops| - 1]);
      SerialKeeps(ops[..|ops| - 1]);
      var before := Serial(ops[..|ops| - 1]);
      match ops[|ops| - 1]
      case Open(u, w) =>
        forall d ensures Recorded(Serial(ops), d) { assert Recorded(before, d); }
        forall d, e | Creator(Serial(ops), d) && Creator(Serial(ops), e)
                      && SameIntent(Serial(ops).asked[d], Serial(ops).asked[e])
          ensures d == e
        {
          assert Creator(before, d) && Creator(before, e);
        }
      case Post(c, req, id, at) => AnswerIdempotent(before, c, req, id, at);
    }
  }
}
