// What supplier invoices and payments mean for the books, in the terms of the requests: what is accepted, what is
// stored, and which accounts move by how much over a run. Accounts are named by their texts.
module PayableLaws {
  import opened Common
  import opened Ledger
  import opened Payables
  import Inventory

  // ---- Requests ----

  predicate OrderKnown(cat: Catalog, d: InvoiceInput) { d.order.Some? ==> d.order.value in cat.orders }

  predicate OrderApproved(cat: Catalog, d: InvoiceInput)
    requires OrderKnown(cat, d)
  {
    d.order.Some? ==>
      var status := cat.orders[d.order.value].status;
      status == Inventory.Approved || status == Inventory.PartiallyReceived || status == Inventory.Received
  }

  predicate OrderMatches(cat: Catalog, d: InvoiceInput)
    requires OrderKnown(cat, d)
  {
    d.order.Some? ==>
      cat.orders[d.order.value].supplier == d.supplier && cat.orders[d.order.value].currency == d.currency
  }

  // An order without a total bounds nothing.
  predicate OrderCovers(cat: Catalog, d: InvoiceInput)
    requires OrderKnown(cat, d)
  {
    d.order.Some? && cat.orders[d.order.value].total > 0.0 ==>
      d.subtotal + d.taxTotal <= cat.orders[d.order.value].total
  }

  // The invoice can be read and its supplier and order are known.
  predicate Placed(cat: Catalog, d: InvoiceInput) {
    IsCurrency(d.currency) && d.supplier in cat.suppliers && OrderKnown(cat, d)
  }

  ghost predicate NumberFree(s: Payable, d: InvoiceInput) {
    forall i :: 0 <= i < |s.invoices| ==> s.invoices[i].supplier != d.supplier || s.invoices[i].number != d.number
  }

  // An invoice is refused exactly under these conditions, and otherwise stored as requested, for net and tax together.
  lemma InvoiceIsAsRequested(s: Payable, cat: Catalog, d: InvoiceInput)
    ensures var (t, r) := CreateInvoice(s, cat, d);
      && (r == Err(NotFound) <==> IsCurrency(d.currency) && !Placed(cat, d))
      && (r == Err(BadRequest) <==>
            || !IsCurrency(d.currency)
            || (Placed(cat, d) && OrderApproved(cat, d)
                && (!OrderMatches(cat, d) || (OrderCovers(cat, d) && d.subtotal + d.taxTotal <= 0.0))))
      && (r == Err(Conflict) <==>
            && Placed(cat, d)
            && (!OrderApproved(cat, d)
                || (OrderMatches(cat, d)
                    && (!OrderCovers(cat, d) || (d.subtotal + d.taxTotal > 0.0 && !NumberFree(s, d))))))
      && (r.Err? ==> t == s)
      && (r.Ok? ==>
            && r.value == |s.invoices| && t.payments == s.payments
            && t.invoices == s.invoices + [Invoice(d.supplier, d.order, d.number, d.currency,
                                                   d.subtotal + d.taxTotal, 0.0, Received)])
  {
  }

  // The payment's row, of a known key.
  ghost predicate Recorded(s: Payable, k: nat, i: nat, d: PaymentInput) {
    k < |s.payments| && s.payments[k] == InvoicePayment(i, d.key, d.amount, d.currency)
  }

  ghost predicate KeyFree(s: Payable, key: string) { forall k :: 0 <= k < |s.payments| ==> s.payments[k].key != key }

  predicate CanBePaid(i: Invoice) { i.status != Void && i.status != Disputed }

  // A payment under a new key is accepted exactly within the open balance of an open invoice in its currency; it adds
  // its row and raises the amount paid by its amount, and no other invoice changes.
  lemma PaymentIsAsRequested(s: Payable, i: nat, d: PaymentInput)
    requires KeyFree(s, d.key)
    ensures var (t, r) := Pay(s, i, d);
      && (r == Err(NotFound) <==> d.amount > 0.0 && i >= |s.invoices|)
      && (r == Err(BadRequest) <==>
            d.amount <= 0.0 || (i < |s.invoices| && CanBePaid(s.invoices[i]) && s.invoices[i].currency != d.currency))
      && (r == Err(Conflict) <==>
            && d.amount > 0.0 && i < |s.invoices|
            && (!CanBePaid(s.invoices[i])
                || (s.invoices[i].currency == d.currency
                    && s.invoices[i].amountPaid + d.amount > s.invoices[i].total)))
      && (r.Err? ==> t == s)
      && (r.Ok? ==>
            && r.value == PaymentMade(false, |s.payments|)
            && t.payments == s.payments + [InvoicePayment(i, d.key, d.amount, d.currency)]
            && |t.invoices| == |s.invoices|
            && t.invoices[i].amountPaid == s.invoices[i].amountPaid + d.amount
            && (t.invoices[i].status == Paid <==> t.invoices[i].amountPaid == s.invoices[i].total)
            && (t.invoices[i].status != Paid ==> t.invoices[i].status == PartiallyPaid)
            && t.invoices[i].(amountPaid := s.invoices[i].amountPaid, status := s.invoices[i].status) == s.invoices[i]
            && (forall k :: 0 <= k < |s.invoices| && k != i ==> t.invoices[k] == s.invoices[k]))
  {
    if FindPayment(s.payments, d.key).Some? { assert false; }
  }

  lemma {:induction false} RunKeepsPayments(s: Payable, ops: seq<Op>)
    ensures s.payments <= Run(s, ops).payments
  {
    if ops != [] { RunKeepsPayments(s, ops[..|ops| - 1]); }
  }

  // A key that was accepted changes nothing ever after, and is answered with its row exactly for the same payment.
  lemma PaymentReplays(s: Payable, i: nat, d: PaymentInput, ops: seq<Op>, j: nat, e: PaymentInput)
    requires PayableOk(s) && Pay(s, i, d).1.Ok? && e.key == d.key && e.amount > 0.0
    ensures var (t, r) := Pay(s, i, d); var later := Run(t, ops);
      Pay(later, j, e) == (later, if j == i && e == d then Ok(PaymentMade(true, r.value.payment)) else Err(Conflict))
  {
    var (t, r) := Pay(s, i, d);
    var k, later := r.value.payment, Run(t, ops);
    PayKeeps(s, i, d);
    RunKeeps(t, ops);
    RunKeepsPayments(t, ops);
    assert Recorded(t, k, i, d) && Recorded(later, k, i, d);
    assert FindPayment(later.payments, d.key) == Some(k);
  }

  // ---- Accounts ----

  lemma Texts(c: string)
    requires IsCurrency(c)
    ensures PayableCode(c) == "ACCOUNTS_PAYABLE:" + c && ExpenseCode(c) == "PROCUREMENT:" + c
    ensures SupplierCashCode(c) == "CASH:AP:" + c
  {
  }

  lemma TextsDiffer(c: string, d: string)
    requires IsCurrency(c) && IsCurrency(d)
    ensures "ACCOUNTS_PAYABLE:" + c == "ACCOUNTS_PAYABLE:" + d <==> c == d
    ensures "PROCUREMENT:" + c == "PROCUREMENT:" + d <==> c == d
    ensures "CASH:AP:" + c == "CASH:AP:" + d <==> c == d
    ensures "ACCOUNTS_PAYABLE:" + c != "PROCUREMENT:" + d && "ACCOUNTS_PAYABLE:" + c != "CASH:AP:" + d
    ensures "PROCUREMENT:" + c != "CASH:AP:" + d
  {
    assert ("ACCOUNTS_PAYABLE:" + c)[17..] == c && ("ACCOUNTS_PAYABLE:" + d)[17..] == d;
    assert ("PROCUREMENT:" + c)[12..] == c && ("PROCUREMENT:" + d)[12..] == d;
    assert ("CASH:AP:" + c)[8..] == c && ("CASH:AP:" + d)[8..] == d;
    assert ("ACCOUNTS_PAYABLE:" + c)[0] == 'A' && ("PROCUREMENT:" + d)[0] == 'P' && ("PROCUREMENT:" + c)[0] == 'P';
    assert ("CASH:AP:" + d)[0] == 'C';
  }

  // Between two books the account's credit balance rises by x, or its debit balance by -x.
  predicate Rises(s: Payable, t: Payable, account: string, x: real) {
    CreditBalance(t.books, account) == CreditBalance(s.books, account) + x
  }

  // An accepted invoice debits the expense account and credits payables with net and tax, and moves no other account.
  lemma InvoicePosts(s: Payable, cat: Catalog, d: InvoiceInput, account: string)
    requires PayableOk(s) && CreateInvoice(s, cat, d).1.Ok?
    ensures var t := CreateInvoice(s, cat, d).0;
      Rises(s, t, account, if account == "ACCOUNTS_PAYABLE:" + d.currency then d.subtotal + d.taxTotal
                           else if account == "PROCUREMENT:" + d.currency then -(d.subtotal + d.taxTotal) else 0.0)
  {
    Texts(d.currency);
    TextsDiffer(d.currency, d.currency);
    Ledger.PostKeeps(s.books, Posting(Transaction(SupplierInvoice, |s.invoices|), ExpenseCode(d.currency),
                                      PayableCode(d.currency), d.currency, d.subtotal + d.taxTotal));
  }

  // An accepted payment debits payables and credits supplier cash.
  lemma PaymentPosts(s: Payable, i: nat, d: PaymentInput, account: string)
    requires PayableOk(s) && Accepted(s, i, d)
    ensures var t := Pay(s, i, d).0;
      Rises(s, t, account, if account == "CASH:AP:" + d.currency then d.amount
                           else if account == "ACCOUNTS_PAYABLE:" + d.currency then -d.amount else 0.0)
  {
    assert InvoiceOk(s, i);
    Texts(d.currency);
    TextsDiffer(d.currency, d.currency);
    Ledger.PostKeeps(s.books, PaymentPosting(|s.payments|, d));
  }

  // An account's text, cut to 64 characters.
  function Cut(text: string): string { if |text| <= 64 then text else text[..64] }

  function CashText(provider: string, currency: string): string { Cut("CASH:" + provider + ":" + currency) }
  function RevenueText(currency: string): string { Cut("REVENUE:WIFI:" + currency) }

  // A customer settlement debits the provider's cash account and credits revenue, once a payment.
  lemma SettlementPosts(b: Books, payment: nat, provider: string, currency: string, amount: real, account: string)
    requires BooksOk(b)
    ensures CreditBalance(Post(b, SettlementPosting(payment, provider, currency, amount)), account)
         == CreditBalance(b, account) + if Transaction(Payment, payment) in b.txs then 0.0
                                        else if account == RevenueText(currency) then amount
                                        else if account == CashText(provider, currency) then -amount else 0.0
  {
    assert RevenueText(currency)[0] == 'R' && CashText(provider, currency)[0] == 'C';
    Ledger.PostKeeps(b, SettlementPosting(payment, provider, currency, amount));
  }

  // ---- Over runs ----

  // What the operation bills in the currency, if it is an invoice that is accepted: net and tax.
  ghost function Bills(s: Payable, op: Op, c: string): real {
    if op.Invoiced? && CreateInvoice(s, op.catalog, op.input).1.Ok? && op.input.currency == c
    then op.input.subtotal + op.input.taxTotal else 0.0
  }

  // What it pays, if it is a payment that is accepted and no replay.
  ghost function Pays(s: Payable, op: Op, c: string): real {
    if op.PaidOff? && Accepted(s, op.invoice, op.remittance) && op.remittance.currency == c
    then op.remittance.amount else 0.0
  }

  // What it takes in under an account of that text, if it is the first settlement of a customer's payment.
  ghost function Takes(s: Payable, op: Op, account: string): real {
    if op.Settled? && Transaction(Payment, op.settlement) !in s.books.txs
       && CashText(op.provider, op.currency) == account
    then op.amount else 0.0
  }

  ghost function Total(ops: seq<Op>, of: (Payable, Op) -> real): real {
    if ops == [] then 0.0
    else Total(ops[..|ops| - 1], of) + of(Run(EMPTY, ops[..|ops| - 1]), ops[|ops| - 1])
  }

  ghost function Billed(ops: seq<Op>, c: string): real { Total(ops, (s: Payable, op: Op) => Bills(s, op, c)) }
  ghost function Remitted(ops: seq<Op>, c: string): real { Total(ops, (s: Payable, op: Op) => Pays(s, op, c)) }
  ghost function PaidInto(ops: seq<Op>, account: string): real {
    Total(ops, (s: Payable, op: Op) => Takes(s, op, account))
  }

  // The three accounts of a currency move as the operation bills, pays and takes.
  ghost predicate Moves(s: Payable, op: Op, c: string) {
    var t := Step(s, op);
    && Rises(s, t, "ACCOUNTS_PAYABLE:" + c, Bills(s, op, c) - Pays(s, op, c))
    && Rises(s, t, "PROCUREMENT:" + c, -Bills(s, op, c))
    && Rises(s, t, "CASH:AP:" + c, Pays(s, op, c) - Takes(s, op, "CASH:AP:" + c))
  }

  lemma InvoiceMoves(s: Payable, cat: Catalog, d: InvoiceInput, c: string)
    requires PayableOk(s) && IsCurrency(c)
    ensures Moves(s, Invoiced(cat, d), c)
  {
    if CreateInvoice(s, cat, d).1.Ok? {
      TextsDiffer(c, d.currency);
      TextsDiffer(d.currency, c);
      InvoicePosts(s, cat, d, "ACCOUNTS_PAYABLE:" + c);
      InvoicePosts(s, cat, d, "PROCUREMENT:" + c);
      InvoicePosts(s, cat, d, "CASH:AP:" + c);
    }
  }

  lemma PaymentMoves(s: Payable, i: nat, d: PaymentInput, c: string)
    requires PayableOk(s) && IsCurrency(c)
    ensures Moves(s, PaidOff(i, d), c)
  {
    if Accepted(s, i, d) {
      assert InvoiceOk(s, i);
      TextsDiffer(c, d.currency);
      TextsDiffer(d.currency, c);
      PaymentPosts(s, i, d, "ACCOUNTS_PAYABLE:" + c);
      PaymentPosts(s, i, d, "PROCUREMENT:" + c);
      PaymentPosts(s, i, d, "CASH:AP:" + c);
    }
  }

  lemma SettlementMoves(s: Payable, payment: nat, provider: string, currency: string, amount: real, c: string)
    requires PayableOk(s) && IsCurrency(c)
    ensures Moves(s, Settled(payment, provider, currency, amount), c)
  {
    assert RevenueText(currency)[0] == 'R' && CashText(provider, currency)[0] == 'C';
    assert ("ACCOUNTS_PAYABLE:" + c)[0] == 'A' && ("PROCUREMENT:" + c)[0] == 'P' && ("CASH:AP:" + c)[0] == 'C';
    SettlementPosts(s.books, payment, provider, currency, amount, "ACCOUNTS_PAYABLE:" + c);
    SettlementPosts(s.books, payment, provider, currency, amount, "PROCUREMENT:" + c);
    SettlementPosts(s.books, payment, provider, currency, amount, "CASH:AP:" + c);
  }

  lemma StepMoves(s: Payable, op: Op, c: string)
    requires PayableOk(s) && IsCurrency(c)
    ensures Moves(s, op, c)
  {
    match op
    case Invoiced(cat, d) => InvoiceMoves(s, cat, d, c);
    case PaidOff(i, d) => PaymentMoves(s, i, d, c);
    case Settled(p, provider, currency, amount) => SettlementMoves(s, p, provider, currency, amount, c);
    case _ =>
  }

  // In every run and currency payables owe what was billed less what was paid, expenses hold what was billed, and
  // supplier cash has given out what was paid, but for what settlements of a provider named AP brought in.
  lemma {:induction false} AccountsFollowRequests(ops: seq<Op>, c: string)
    requires IsCurrency(c)
    ensures var b := Run(EMPTY, ops).books;
      && CreditBalance(b, "ACCOUNTS_PAYABLE:" + c) == Billed(ops, c) - Remitted(ops, c)
      && CreditBalance(b, "PROCUREMENT:" + c) == -Billed(ops, c)
      && CreditBalance(b, "CASH:AP:" + c) == Remitted(ops, c) - PaidInto(ops, "CASH:AP:" + c)
  {
    if ops != [] {
      var front := ops[..|ops| - 1];
      AccountsFollowRequests(front, c);
      RunKeeps(EMPTY, front);
      StepMoves(Run(EMPTY, front), ops[|ops| - 1], c);
    }
  }
}
