// The double-entry ledger that supplier invoices, supplier payments and verified settlements post to.
// All three sites insert a transaction unless its reference already has one, then insert a debit and a
// credit unless the transaction already has entries.
module Ledger {
  import opened Common

  datatype TransactionKind = SupplierInvoice | SupplierPayment | Payment
  datatype Transaction = Transaction(kind: TransactionKind, reference: nat)
  datatype Entry = Entry(tx: nat, account: string, currency: string, debit: real, credit: real)
  datatype Books = Books(txs: seq<Transaction>, entries: seq<Entry>)

  // What one posting site asks for.
  datatype Posting = Posting(tx: Transaction, debit: string, credit: string, currency: string, amount: real)

  // Account codes are cut to 64 characters.
  function Code(prefix: string, currency: string): string {
    var code := prefix + currency;
    if |code| > 64 then code[..64] else code
  }

  function FindTransaction(txs: seq<Transaction>, tx: Transaction): (found: Option<nat>)
    ensures found.Some? ==> found.value < |txs| && txs[found.value] == tx
    ensures found.None? ==> tx !in txs
  {
    FindBy(txs, (t: Transaction) => t == tx)
  }

  function Post(b: Books, p: Posting): Books {
    var found := FindTransaction(b.txs, p.tx);
    var txs := if found.Some? then b.txs else b.txs + [p.tx];
    var id := if found.Some? then found.value else |b.txs|;
    if exists k :: 0 <= k < |b.entries| && b.entries[k].tx == id then Books(txs, b.entries)
    else Books(txs, b.entries + [Entry(id, p.debit, p.currency, p.amount, 0.0),
                                 Entry(id, p.credit, p.currency, 0.0, p.amount)])
  }

  class LedgerTables {
    var txs: seq<Transaction>
    var entries: seq<Entry>

    ghost function Contents(): Books
      reads this
    {
      Books(txs, entries)
    }

    constructor ()
      ensures Contents() == Books([], [])
    {
      txs, entries := [], [];
    }

    method PostTransaction(p: Posting)
      modifies this
      ensures Contents() == Post(old(Contents()), p)
    {
      var found := FindTransaction(txs, p.tx);
      var id := |txs|;
      if found.Some? { id := found.value; } else { txs := txs + [p.tx]; }
      var k := 0;
      while k < |entries| && entries[k].tx != id
        invariant 0 <= k <= |entries|
        invariant forall j :: 0 <= j < k ==> entries[j].tx != id
      {
        k := k + 1;
      }
      if k == |entries| {
        entries := entries + [Entry(id, p.debit, p.currency, p.amount, 0.0),
                              Entry(id, p.credit, p.currency, 0.0, p.amount)];
      }
    }
  }

  // ---- Double entry ----

  function DebitIn(t: nat): Entry -> real { (e: Entry) => if e.tx == t then e.debit else 0.0 }
  function CreditIn(t: nat): Entry -> real { (e: Entry) => if e.tx == t then e.credit else 0.0 }
  function CountIn(t: nat): Entry -> real { (e: Entry) => if e.tx == t then 1.0 else 0.0 }
  function CreditTo(account: string): Entry -> real {
    (e: Entry) => if e.account == account then e.credit - e.debit else 0.0
  }

  function CreditBalance(b: Books, account: string): real { SumBy(b.entries, CreditTo(account)) }

  // Transaction t has exactly two entries and its debits equal its credits.
  ghost predicate Balanced(b: Books, t: nat) {
    && SumBy(b.entries, CountIn(t)) == 2.0
    && SumBy(b.entries, DebitIn(t)) == SumBy(b.entries, CreditIn(t))
  }

  ghost predicate BooksOk(b: Books) {
    && (forall j, k :: 0 <= j < k < |b.txs| ==> b.txs[j] != b.txs[k])
    && (forall k :: 0 <= k < |b.entries| ==> b.entries[k].tx < |b.txs|)
    && (forall t :: 0 <= t < |b.txs| ==> Balanced(b, t))
  }

  lemma AppendTwo<T>(rows: seq<T>, x: T, y: T, f: T -> real)
    ensures SumBy(rows + [x, y], f) == SumBy(rows, f) + f(x) + f(y)
  {
    SumAppend(rows, x, f);
    SumAppend(rows + [x], y, f);
    assert rows + [x, y] == rows + [x] + [y];
  }

  lemma SomeEntry(entries: seq<Entry>, t: nat)
    requires SumBy(entries, CountIn(t)) != 0.0
    ensures exists k :: 0 <= k < |entries| && entries[k].tx == t
  {
    if forall k :: 0 <= k < |entries| ==> entries[k].tx != t { SumZero(entries, CountIn(t)); }
  }

  // A known reference posts nothing; a new one adds one balanced transaction.
  lemma PostKeeps(b: Books, p: Posting)
    requires BooksOk(b)
    ensures BooksOk(Post(b, p)) && p.tx in Post(b, p).txs
    ensures p.tx in b.txs ==> Post(b, p) == b
    ensures p.tx !in b.txs && p.debit != p.credit ==>
      forall account :: CreditBalance(Post(b, p), account) == CreditBalance(b, account)
        + (if account == p.credit then p.amount else if account == p.debit then -p.amount else 0.0)
  {
    var c := Post(b, p);
    var found := FindTransaction(b.txs, p.tx);
    if found.Some? {
      assert Balanced(b, found.value);
      SomeEntry(b.entries, found.value);
    } else {
      var x := Entry(|b.txs|, p.debit, p.currency, p.amount, 0.0);
      var y := Entry(|b.txs|, p.credit, p.currency, 0.0, p.amount);
      assert c.entries == b.entries + [x, y];
      assert c.txs[|b.txs|] == p.tx;
      forall t | 0 <= t < |c.txs| ensures Balanced(c, t) {
        AppendTwo(b.entries, x, y, CountIn(t));
        AppendTwo(b.entries, x, y, DebitIn(t));
        AppendTwo(b.entries, x, y, CreditIn(t));
        if t < |b.txs| {
          assert Balanced(b, t);
        } else {
          SumZero(b.entries, CountIn(t));
          SumZero(b.entries, DebitIn(t));
          SumZero(b.entries, CreditIn(t));
        }
      }
      forall account ensures CreditBalance(c, account) == CreditBalance(b, account)
                             + CreditTo(account)(x) + CreditTo(account)(y) {
        AppendTwo(b.entries, x, y, CreditTo(account));
      }
    }
  }
}
