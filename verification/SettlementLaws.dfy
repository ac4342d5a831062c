// What settlements and the other requests on customer money store, in the terms of the requests, and which accounts
// settlements move over a run. Accounts are named by their texts.
module SettlementLaws {
  import opened Arithmetic
  import opened Common
  import opened Ledger
  import opened Finance
  import opened FinanceLaws
  import PayableLaws

  // ---- The entries of a settled payment ----

  function CashDebit(t: nat, p: PaymentRow): Entry {
    Entry(t, PayableLaws.CashText(p.provider, p.currency), p.currency, p.amount, 0.0)
  }

  function RevenueCredit(t: nat, p: PaymentRow): Entry {
    Entry(t, PayableLaws.RevenueText(p.currency), p.currency, 0.0, p.amount)
  }

  // Entries x and y are the transaction's, and there are no others.
  ghost predicate EntriesAre(b: Books, t: nat, x: nat, y: nat, debit: Entry, credit: Entry) {
    && x < y < |b.entries| && b.entries[x] == debit && b.entries[y] == credit
    && forall k :: 0 <= k < |b.entries| && b.entries[k].tx == t ==> k == x || k == y
  }

  // Transaction t, if a payment's, debits its provider's cash account and credits revenue with its amount.
  ghost predicate Posted(s: Money, t: nat)
    requires t < |s.books.txs|
  {
    var tx := s.books.txs[t];
    tx.kind == Payment ==>
      && tx.reference < |s.payments|
      && var p := s.payments[tx.reference];
         exists x, y :: EntriesAre(s.books, t, x, y, CashDebit(t, p), RevenueCredit(t, p))
  }

  ghost predicate AllPosted(s: Money) {
    BooksOk(s.books) && forall t :: 0 <= t < |s.books.txs| ==> Posted(s, t)
  }

  // A posting under a new reference appends its two entries.
  lemma PostAppends(b: Books, p: Posting)
    requires BooksOk(b) && p.tx !in b.txs
    ensures BooksOk(Post(b, p)) && Post(b, p).txs == b.txs + [p.tx]
    ensures Post(b, p).entries == b.entries + [Entry(|b.txs|, p.debit, p.currency, p.amount, 0.0),
                                               Entry(|b.txs|, p.credit, p.currency, 0.0, p.amount)]
  {
    Ledger.PostKeeps(b, p);
  }

  lemma OldStayPosted(s: Money, u: Money, t: nat)
    requires AllPosted(s) && Follows(s, u) && t < |s.books.txs|
    requires s.books.entries <= u.books.entries
    requires forall k :: |s.books.entries| <= k < |u.books.entries| ==> u.books.entries[k].tx != t
    ensures Posted(u, t)
  {
    assert Posted(s, t) && u.books.txs[t] == s.books.txs[t];
    if s.books.txs[t].kind == Payment {
      var p := s.books.txs[t].reference;
      assert SettledRow(s.payments[p], u.payments[p]);
      var x, y :| EntriesAre(s.books, t, x, y, CashDebit(t, s.payments[p]), RevenueCredit(t, s.payments[p]));
      assert EntriesAre(u.books, t, x, y, CashDebit(t, u.payments[p]), RevenueCredit(t, u.payments[p]));
    }
  }

  lemma PostingKeepsPosted(s: Money, u: Money, p: Posting)
    requires AllPosted(s) && Follows(s, u) && u.books == Post(s.books, p)
    requires p.tx.kind == Payment && p.tx !in s.books.txs ==>
               p.tx.reference < |u.payments| && var row := u.payments[p.tx.reference];
                 && p.debit == PayableLaws.CashText(row.provider, row.currency)
                 && p.credit == PayableLaws.RevenueText(row.currency)
                 && p.currency == row.currency && p.amount == row.amount
    ensures AllPosted(u)
  {
    Ledger.PostKeeps(s.books, p);
    if p.tx in s.books.txs {
      forall t | 0 <= t < |u.books.txs| ensures Posted(u, t) { OldStayPosted(s, u, t); }
    } else {
      PostAppends(s.books, p);
      var n, e := |s.books.txs|, |s.books.entries|;
      forall t | 0 <= t < |u.books.txs| ensures Posted(u, t) {
        if t < n {
          OldStayPosted(s, u, t);
        } else if p.tx.kind == Payment {
          var row := u.payments[p.tx.reference];
          assert EntriesAre(u.books, n, e, e + 1, CashDebit(n, row), RevenueCredit(n, row));
        }
      }
    }
  }

  lemma SettleKeepsPosted(s: Money, id: nat, amount: real, currency: string, provider: string)
    requires AllPosted(s)
    ensures AllPosted(Settle(s, id, amount, currency, provider).0)
  {
    var (u, r) := Settle(s, id, amount, currency, provider);
    SettleFollows(s, id, amount, currency, provider);
    if u != s { PostingKeepsPosted(s, u, Payables.SettlementPosting(id, provider, currency, amount)); }
  }

  lemma SameBooksPosted(s: Money, u: Money)
    requires AllPosted(s) && Follows(s, u) && u.books == s.books
    ensures AllPosted(u)
  {
    forall t | 0 <= t < |u.books.txs| ensures Posted(u, t) { OldStayPosted(s, u, t); }
  }

  lemma StepKeepsPosted(d: Desk, op: Op)
    requires AllPosted(d.money)
    ensures AllPosted(Step(d, op).money)
  {
    StepFollows(d, op);
    match op
    case Settling(id, amount, currency, provider) => SettleKeepsPosted(d.money, id, amount, currency, provider);
    case Elsewhere(p) => if SupplierPosting(p) { PostingKeepsPosted(d.money, Step(d, op).money, p); }
    case _ => SameBooksPosted(d.money, Step(d, op).money);
  }

  // In every run the transaction of a payment has exactly two entries: the payment's amount is debited to
  // CASH:<provider>:<currency> and credited to REVENUE:WIFI:<currency>, each cut to 64 characters.
  lemma {:induction false} SettlementsDebitCash(ops: seq<Op>)
    ensures AllPosted(Run(EMPTY, ops).money)
  {
    if ops != [] {
      SettlementsDebitCash(ops[..|ops| - 1]);
      StepKeepsPosted(Run(EMPTY, ops[..|ops| - 1]), ops[|ops| - 1]);
    }
  }

  // ---- Revenue ----

  predicate HasSettled(s: Money, p: nat) { Transaction(Payment, p) in s.books.txs }

  // The amounts of the first n payments that are settled in the currency.
  function SettledUpTo(s: Money, n: nat, c: string): real
    requires n <= |s.payments|
  {
    if n == 0 then 0.0
    else SettledUpTo(s, n - 1, c)
         + if HasSettled(s, n - 1) && s.payments[n - 1].currency == c then s.payments[n - 1].amount else 0.0
  }

  ghost predicate RevenueAgrees(s: Money, c: string) {
    CreditBalance(s.books, "REVENUE:WIFI:" + c) == SettledUpTo(s, |s.payments|, c)
  }

  // No transaction is of a payment that does not exist.
  ghost predicate TxsPlaced(s: Money) {
    forall t :: 0 <= t < |s.books.txs| && s.books.txs[t].kind == Payment ==> s.books.txs[t].reference < |s.payments|
  }

  lemma {:induction false} SameSettled(s: Money, u: Money, n: nat, c: string)
    requires n <= |s.payments| <= |u.payments| && Follows(s, u)
    requires forall p: nat :: p < n ==> (HasSettled(u, p) <==> HasSettled(s, p))
    ensures SettledUpTo(u, n, c) == SettledUpTo(s, n, c)
  {
    if n > 0 {
      SameSettled(s, u, n - 1, c);
      assert SettledRow(s.payments[n - 1], u.payments[n - 1]);
    }
  }

  lemma {:induction false} OneMoreSettled(s: Money, u: Money, n: nat, id: nat, c: string)
    requires id < |s.payments| == |u.payments| && n <= |s.payments| && Follows(s, u)
    requires !HasSettled(s, id) && forall p: nat :: HasSettled(u, p) <==> HasSettled(s, p) || p == id
    ensures SettledUpTo(u, n, c)
         == SettledUpTo(s, n, c) + if id < n && s.payments[id].currency == c then s.payments[id].amount else 0.0
  {
    if n > 0 {
      OneMoreSettled(s, u, n - 1, id, c);
      assert SettledRow(s.payments[n - 1], u.payments[n - 1]);
    }
  }

  lemma RevenueTexts(c: string, currency: string, provider: string)
    requires |c| == 3
    ensures PayableLaws.RevenueText(currency) == "REVENUE:WIFI:" + c <==> currency == c
    ensures PayableLaws.CashText(provider, currency) != "REVENUE:WIFI:" + c
  {
    assert PayableLaws.CashText(provider, currency)[0] == 'C' && ("REVENUE:WIFI:" + c)[0] == 'R';
    assert ("REVENUE:WIFI:" + c)[13..] == c;
    assert ("REVENUE:WIFI:" + currency)[13..] == currency;
  }

  lemma SettleAgrees(s: Money, id: nat, amount: real, currency: string, provider: string, c: string)
    requires BooksOk(s.books) && TxsPlaced(s) && RevenueAgrees(s, c) && |c| == 3
    ensures var u := Settle(s, id, amount, currency, provider).0;
      BooksOk(u.books) && TxsPlaced(u) && RevenueAgrees(u, c)
  {
    var u := Settle(s, id, amount, currency, provider).0;
    if u != s {
      SettleFollows(s, id, amount, currency, provider);
      Ledger.PostKeeps(s.books, Payables.SettlementPosting(id, provider, currency, amount));
      PayableLaws.SettlementPosts(s.books, id, provider, currency, amount, "REVENUE:WIFI:" + c);
      RevenueTexts(c, currency, provider);
      if HasSettled(s, id) {
        SameSettled(s, u, |s.payments|, c);
      } else {
        PostAppends(s.books, Payables.SettlementPosting(id, provider, currency, amount));
        OneMoreSettled(s, u, |s.payments|, id, c);
      }
    }
  }

  lemma ElsewhereAgrees(s: Money, p: Posting, c: string)
    requires BooksOk(s.books) && TxsPlaced(s) && RevenueAgrees(s, c) && SupplierPosting(p)
    ensures var u := s.(books := Post(s.books, p)); BooksOk(u.books) && TxsPlaced(u) && RevenueAgrees(u, c)
  {
    var u := s.(books := Post(s.books, p));
    Ledger.PostKeeps(s.books, p);
    assert p.debit[0] != 'R' && p.credit[0] != 'R' && p.debit[0] != p.credit[0] && ("REVENUE:WIFI:" + c)[0] == 'R';
    if p.tx !in s.books.txs { PostAppends(s.books, p); }
    SameSettled(s, u, |s.payments|, c);
  }

  lemma OthersAgree(s: Money, u: Money, c: string)
    requires BooksOk(s.books) && TxsPlaced(s) && RevenueAgrees(s, c) && Follows(s, u) && u.books == s.books
    requires |u.payments| <= |s.payments| + 1
    ensures BooksOk(u.books) && TxsPlaced(u) && RevenueAgrees(u, c)
  {
    SameSettled(s, u, |s.payments|, c);
    assert !HasSettled(u, |s.payments|);
  }

  lemma StepAgrees(d: Desk, op: Op, c: string)
    requires BooksOk(d.money.books) && TxsPlaced(d.money) && RevenueAgrees(d.money, c) && |c| == 3
    ensures var s := Step(d, op).money; BooksOk(s.books) && TxsPlaced(s) && RevenueAgrees(s, c)
  {
    StepFollows(d, op);
    match op
    case Settling(id, amount, currency, provider) => SettleAgrees(d.money, id, amount, currency, provider, c);
    case Elsewhere(p) => if SupplierPosting(p) { ElsewhereAgrees(d.money, p, c); }
    case _ => OthersAgree(d.money, Step(d, op).money, c);
  }

  // In every run the credit balance of a currency's revenue account is the sum of the settled payments in it.
  lemma {:induction false} RevenueIsSettled(ops: seq<Op>, c: string)
    requires |c| == 3
    ensures var s := Run(EMPTY, ops).money; BooksOk(s.books) && TxsPlaced(s) && RevenueAgrees(s, c)
  {
    if ops != [] {
      var before, op := Run(EMPTY, ops[..|ops| - 1]), ops[|ops| - 1];
      RevenueIsSettled(ops[..|ops| - 1], c);
      StepAgrees(before, op, c);
    }
  }

  // ---- The other requests ----

  // A settlement is accepted exactly for a PAID payment whose provider, amount and currency it names; it verifies that
  // payment and touches neither lines nor refunds.
  lemma SettlementIsAsRequested(s: Money, id: nat, amount: real, currency: string, provider: string)
    requires BooksOk(s.books)
    ensures var (t, r) := Settle(s, id, amount, currency, provider);
      && (r.Ok? <==> id < |s.payments| && s.payments[id].status == Paid && s.payments[id].provider == provider
                     && s.payments[id].amount == amount && s.payments[id].currency == currency)
      && (r.Err? ==> t == s && r == Err(Conflict))
      && t.lines == s.lines && t.refunds == s.refunds && |t.payments| == |s.payments|
      && (r.Ok? ==>
            t.payments[id].verified && r.value < |t.books.txs| && t.books.txs[r.value] == Transaction(Payment, id))
      && (forall p :: 0 <= p < |s.payments| && p != id ==> t.payments[p] == s.payments[p])
  {
    Ledger.PostKeeps(s.books, Payables.SettlementPosting(id, provider, currency, amount));
  }

  ghost predicate RefundKeyFree(s: Money, key: string) { forall k :: 0 <= k < |s.refunds| ==> s.refunds[k].key != key }

  // What the live refunds have taken of the payment.
  function Taken(refunds: seq<Refund>, payment: nat): real {
    if refunds == [] then 0.0
    else
      var r := refunds[|refunds| - 1];
      Taken(refunds[..|refunds| - 1], payment)
      + if r.payment == payment && r.status != Rejected then r.amount else 0.0
  }

  lemma {:induction false} TakenIsSum(refunds: seq<Refund>, payment: nat)
    ensures SumBy(refunds, LiveFor(payment)) == Taken(refunds, payment)
  {
    if refunds != [] { TakenIsSum(refunds[..|refunds| - 1], payment); }
  }

  // A refund under a new key is granted exactly within what the live refunds leave of a PAID payment; it is stored as
  // requested, in the payment's currency.
  lemma RefundIsAsRequested(s: Money, payment: nat, amount: real, key: string)
    requires RefundKeyFree(s, key)
    ensures var (t, r) := RequestRefund(s, payment, amount, key);
      && (r == Err(BadRequest) <==> amount < 0.000001)
      && (r == Err(NotFound) <==> amount >= 0.000001 && payment >= |s.payments|)
      && (r == Err(Conflict) <==>
            && amount >= 0.000001 && payment < |s.payments|
            && (s.payments[payment].status != Paid
                || Taken(s.refunds, payment) + amount > s.payments[payment].amount))
      && (r.Err? ==> t == s)
      && (r.Ok? ==>
            && r.value == |s.refunds|
            && t == s.(refunds := s.refunds + [Refund(payment, amount, s.payments[payment].currency, key, Requested)]))
  {
    TakenIsSum(s.refunds, payment);
    if FindRefund(s.refunds, key).Some? { assert false; }
  }

  // An approval is accepted exactly for a REQUESTED refund, and changes its status alone.
  lemma ApprovalIsAsRequested(s: Money, id: nat)
    ensures var (t, r) := ApproveRefund(s, id);
      && r == (if id < |s.refunds| && s.refunds[id].status == Requested then Ok(id) else Err(Conflict))
      && (r.Err? ==> t == s)
      && (r.Ok? ==> t == s.(refunds := s.refunds[id := s.refunds[id].(status := Approved)]))
  {
  }

  // An invoice is issued exactly under a new number for a purchase that has none; its total is net and tax, to the
  // cent.
  lemma InvoiceIsAsRequested(s: Money, number: string, purchase: Option<nat>, currency: string, subtotal: real,
                             tax: real)
    ensures var (t, r) := CreateInvoice(s, number, purchase, currency, subtotal, tax);
      && (r.Ok? <==>
            && (forall k :: 0 <= k < |s.invoices| ==> s.invoices[k].number != number)
            && (purchase.Some? ==> forall k :: 0 <= k < |s.invoices| ==> s.invoices[k].purchase != purchase))
      && (r.Err? ==> t == s && r == Err(Conflict))
      && (r.Ok? ==>
            && r.value == |s.invoices| && |t.invoices| == |s.invoices| + 1 && t.invoices[..|s.invoices|] == s.invoices
            && t == s.(invoices := t.invoices)
            && var i := t.invoices[|s.invoices|];
               && i == Invoice(number, purchase, currency, i.total, 0.0, Issued)
               && subtotal + tax - 0.005 < i.total <= subtotal + tax + 0.005)
  {
    if CreateInvoice(s, number, purchase, currency, subtotal, tax).1.Err? {
      var k :| 0 <= k < |s.invoices| && (s.invoices[k].number == number
                                         || (purchase.Some? && s.invoices[k].purchase == purchase));
    }
  }

  // A line belongs to its invoice and is worth quantity times price and the tax, to a millionth.
  lemma LineIsAsRequested(invoice: nat, quantity: real, price: real, tax: real)
    ensures var l := LineOf(invoice, quantity, price, tax);
      && l.invoice == invoice && l.tax == tax
      && quantity * price - 0.0000005 < l.subtotal <= quantity * price + 0.0000005
      && l.subtotal + tax - 0.0000005 < l.total <= l.subtotal + tax + 0.0000005
  {
  }

  // A line request passes its check exactly with a positive quantity, no negative price or tax, and an invoice that is
  // neither paid nor void.
  lemma LineCheckIsAsRequested(s: Money, id: nat, quantity: real, price: real, tax: real)
    ensures var sensible := quantity >= 0.000001 && price >= 0.0 && tax >= 0.0;
      var objection := LineObjection(s, id, quantity, price, tax);
      && (objection == Some(BadRequest) <==> !sensible)
      && (objection == Some(NotFound) <==> sensible && id >= |s.invoices|)
      && (objection == Some(Conflict) <==> sensible && id < |s.invoices|
                                           && (s.invoices[id].status == FullyPaid || s.invoices[id].status == Void))
  {
  }
}
