// Supplier invoices and their payments, and the accounts-payable control account they post to
// (createSupplierInvoice, recordSupplierInvoicePayment).
module Payables {
  import opened Common
  import opened Ledger
  import Inventory

  datatype InvoiceStatus = Received | PartiallyPaid | Paid | Void | Disputed

  datatype Invoice = Invoice(supplier: nat, order: Option<nat>, number: string, currency: string,
                             total: real, amountPaid: real, status: InvoiceStatus)

  datatype InvoicePayment = InvoicePayment(invoice: nat, key: string, amount: real, currency: string)

  datatype Payable = Payable(invoices: seq<Invoice>, payments: seq<InvoicePayment>, books: Books)

  // The active suppliers and the purchase orders the invoice function looks up.
  datatype OrderInfo = OrderInfo(supplier: nat, currency: string, total: real, status: Inventory.OrderStatus)
  datatype Catalog = Catalog(suppliers: set<nat>, orders: map<nat, OrderInfo>)

  datatype InvoiceInput = InvoiceInput(supplier: nat, order: Option<nat>, number: string, currency: string,
                                       subtotal: real, taxTotal: real)

  datatype PaymentInput = PaymentInput(amount: real, currency: string, key: string)

  datatype PaymentMade = PaymentMade(duplicate: bool, payment: nat)

  // The request types admit three upper-case letters.
  predicate IsCurrency(c: string) { |c| == 3 && forall i :: 0 <= i < 3 ==> 'A' <= c[i] <= 'Z' }

  function PayableCode(currency: string): string { Code("ACCOUNTS_PAYABLE:", currency) }
  function ExpenseCode(currency: string): string { Code("PROCUREMENT:", currency) }
  function SupplierCashCode(currency: string): string { Code("CASH:AP:", currency) }

  function OrderObjection(cat: Catalog, d: InvoiceInput): Option<Failure> {
    if d.order.None? then None
    else if d.order.value !in cat.orders then Some(NotFound)
    else
      var po := cat.orders[d.order.value];
      if po.status !in {Inventory.Approved, Inventory.PartiallyReceived, Inventory.Received} then Some(Conflict)
      else if po.supplier != d.supplier then Some(BadRequest)
      else if po.currency != d.currency then Some(BadRequest)
      else if d.subtotal + d.taxTotal > po.total && po.total > 0.0 then Some(Conflict)
      else None
  }

  function CreateInvoice(s: Payable, cat: Catalog, d: InvoiceInput): (Payable, Result<nat>) {
    var total := d.subtotal + d.taxTotal;
    if !IsCurrency(d.currency) then (s, Err(BadRequest))
    else if d.supplier !in cat.suppliers then (s, Err(NotFound))
    else match OrderObjection(cat, d)
      case Some(e) => (s, Err(e))
      case None =>
        if total <= 0.0 then (s, Err(BadRequest))
        else if exists i :: 0 <= i < |s.invoices| && s.invoices[i].supplier == d.supplier
                                                  && s.invoices[i].number == d.number then (s, Err(Conflict))
        else
          var id := |s.invoices|;
          (Payable(s.invoices + [Invoice(d.supplier, d.order, d.number, d.currency, total, 0.0, Received)], s.payments,
                   Post(s.books, Posting(Transaction(SupplierInvoice, id), ExpenseCode(d.currency),
                                         PayableCode(d.currency), d.currency, total))),
           Ok(id))
  }

  function FindPayment(payments: seq<InvoicePayment>, key: string): (found: Option<nat>)
    ensures found.Some? ==> found.value < |payments| && payments[found.value].key == key
    ensures found.None? ==> forall k :: 0 <= k < |payments| ==> payments[k].key != key
  {
    FindBy(payments, (p: InvoicePayment) => p.key == key)
  }

  function Pay(s: Payable, invoiceId: nat, d: PaymentInput): (Payable, Result<PaymentMade>) {
    if d.amount <= 0.0 then (s, Err(BadRequest))
    else match FindPayment(s.payments, d.key)
      case Some(k) =>
        var p := s.payments[k];
        (s, if p.invoice == invoiceId && p.amount == d.amount && p.currency == d.currency
            then Ok(PaymentMade(true, k)) else Err(Conflict))
      case None =>
        if invoiceId >= |s.invoices| then (s, Err(NotFound))
        else
          var i := s.invoices[invoiceId];
          if i.status == Void || i.status == Disputed then (s, Err(Conflict))
          else if i.currency != d.currency then (s, Err(BadRequest))
          else if d.amount > i.total - i.amountPaid then (s, Err(Conflict))
          else
            var paid := i.amountPaid + d.amount;
            var id := |s.payments|;
            var status := if paid >= i.total then Paid else PartiallyPaid;
            (Payable(s.invoices[invoiceId := i.(amountPaid := paid, status := status)],
                     s.payments + [InvoicePayment(invoiceId, d.key, d.amount, d.currency)],
                     Post(s.books, PaymentPosting(id, d))),
             Ok(PaymentMade(false, id)))
  }

  function PaymentPosting(paymentId: nat, d: PaymentInput): Posting {
    Posting(Transaction(SupplierPayment, paymentId), PayableCode(d.currency), SupplierCashCode(d.currency), d.currency,
            d.amount)
  }

  // The customer side of the same ledger (recordVerifiedSettlement).
  function SettlementPosting(paymentId: nat, provider: string, currency: string, amount: real): Posting {
    Posting(Transaction(Payment, paymentId), Code("CASH:" + provider + ":", currency), Code("REVENUE:WIFI:", currency),
            currency, amount)
  }

  class PayableTables {
    var invoices: seq<Invoice>
    var payments: seq<InvoicePayment>
    const ledger: LedgerTables

    ghost function Contents(): Payable
      reads this, ledger
    {
      Payable(invoices, payments, ledger.Contents())
    }

    constructor (ledger: LedgerTables)
      ensures this.ledger == ledger && Contents() == Payable([], [], ledger.Contents())
    {
      this.ledger := ledger;
      invoices, payments := [], [];
    }

    method CreateSupplierInvoice(cat: Catalog, d: InvoiceInput) returns (r: Result<nat>)
      modifies this, ledger
      ensures Contents() == CreateInvoice(old(Contents()), cat, d).0
      ensures r == CreateInvoice(old(Contents()), cat, d).1
    {
      if !IsCurrency(d.currency) { return Err(BadRequest); }
      if d.supplier !in cat.suppliers { return Err(NotFound); }
      if d.order.Some? {
        if d.order.value !in cat.orders { return Err(NotFound); }
        var po := cat.orders[d.order.value];
        if po.status != Inventory.Approved && po.status != Inventory.PartiallyReceived
           && po.status != Inventory.Received { return Err(Conflict); }
        if po.supplier != d.supplier { return Err(BadRequest); }
        if po.currency != d.currency { return Err(BadRequest); }
        if d.subtotal + d.taxTotal > po.total && po.total > 0.0 { return Err(Conflict); }
      }
      var total := d.subtotal + d.taxTotal;
      if total <= 0.0 { return Err(BadRequest); }
      for i := 0 to |invoices|
        invariant forall k :: 0 <= k < i ==> invoices[k].supplier != d.supplier || invoices[k].number != d.number
      {
        if invoices[i].supplier == d.supplier && invoices[i].number == d.number { return Err(Conflict); }
      }
      var id := |invoices|;
      invoices := invoices + [Invoice(d.supplier, d.order, d.number, d.currency, total, 0.0, Received)];
      ledger.PostTransaction(Posting(Transaction(SupplierInvoice, id), ExpenseCode(d.currency),
                                     PayableCode(d.currency), d.currency, total));
      r := Ok(id);
    }

    method RecordSupplierInvoicePayment(invoiceId: nat, d: PaymentInput) returns (r: Result<PaymentMade>)
      modifies this, ledger
      ensures Contents() == Pay(old(Contents()), invoiceId, d).0 && r == Pay(old(Contents()), invoiceId, d).1
    {
      if d.amount <= 0.0 { return Err(BadRequest); }
      var prior := FindPayment(payments, d.key);
      if prior.Some? {
        var p := payments[prior.value];
        if p.invoice != invoiceId || p.amount != d.amount || p.currency != d.currency { return Err(Conflict); }
        return Ok(PaymentMade(true, prior.value));
      }
      if invoiceId >= |invoices| { return Err(NotFound); }
      var i := invoices[invoiceId];
      if i.status == Void || i.status == Disputed { return Err(Conflict); }
      if i.currency != d.currency { return Err(BadRequest); }
      if d.amount > i.total - i.amountPaid { return Err(Conflict); }
      var id := |payments|;
      payments := payments + [InvoicePayment(invoiceId, d.key, d.amount, d.currency)];
      var paid := i.amountPaid + d.amount;
      invoices := invoices[invoiceId := i.(amountPaid := paid,
                                             status := if paid >= i.total then Paid else PartiallyPaid)];
      ledger.PostTransaction(Posting(Transaction(SupplierPayment, id), PayableCode(d.currency),
                                     SupplierCashCode(d.currency), d.currency, d.amount));
      r := Ok(PaymentMade(false, id));
    }
  }

  // ---- Runs ----

  datatype Op =
    | Invoiced(catalog: Catalog, input: InvoiceInput)
    | PaidOff(invoice: nat, remittance: PaymentInput)
    | Withdrawn(invoice: nat, disputed: bool)  // voided or disputed elsewhere; both functions test for it
    | Settled(settlement: nat, provider: string, currency: string, amount: real)

  function Step(s: Payable, op: Op): Payable {
    match op
    case Invoiced(cat, d) => CreateInvoice(s, cat, d).0
    case PaidOff(i, d) => Pay(s, i, d).0
    case Withdrawn(i, disputed) =>
      if i < |s.invoices|
      then s.(invoices := s.invoices[i := s.invoices[i].(status := if disputed then Disputed else Void)]) else s
    case Settled(p, provider, c, amount) => s.(books := Post(s.books, SettlementPosting(p, provider, c, amount)))
  }

  ghost function Run(s: Payable, ops: seq<Op>): Payable {
    if ops == [] then s else Step(Run(s, ops[..|ops| - 1]), ops[|ops| - 1])
  }

  const EMPTY := Payable([], [], Books([], []))

  function PaidTo(i: nat): InvoicePayment -> real { (p: InvoicePayment) => if p.invoice == i then p.amount else 0.0 }
  function OwedIn(c: string): Invoice -> real {
    (i: Invoice) => if i.currency == c then i.total - i.amountPaid else 0.0
  }

  ghost predicate InvoiceOk(s: Payable, i: nat)
    requires i < |s.invoices|
  {
    var inv := s.invoices[i];
    && inv.total > 0.0 && 0.0 <= inv.amountPaid <= inv.total && IsCurrency(inv.currency)
    && inv.amountPaid == SumBy(s.payments, PaidTo(i))
    && (inv.status == Paid ==> inv.amountPaid == inv.total)
    && (inv.status == Received ==> inv.amountPaid == 0.0)
    && (inv.status == PartiallyPaid ==> 0.0 < inv.amountPaid < inv.total)
  }

  // The control account of currency c owes what the subledger owes.
  ghost predicate ControlAgrees(s: Payable, c: string) {
    CreditBalance(s.books, PayableCode(c)) == SumBy(s.invoices, OwedIn(c))
  }

  ghost predicate RefersToRow(s: Payable, tx: Transaction) {
    match tx.kind
    case SupplierInvoice => tx.reference < |s.invoices|
    case SupplierPayment => tx.reference < |s.payments|
    case Payment => true
  }

  ghost predicate PayableOk(s: Payable) {
    && BooksOk(s.books)
    && (forall i :: 0 <= i < |s.invoices| ==> InvoiceOk(s, i))
    && (forall k :: 0 <= k < |s.payments| ==> s.payments[k].amount > 0.0 && s.payments[k].invoice < |s.invoices|)
    && (forall j, k :: 0 <= j < k < |s.payments| ==> s.payments[j].key != s.payments[k].key)
    && (forall k :: 0 <= k < |s.books.txs| ==> RefersToRow(s, s.books.txs[k]))
    && (forall c :: IsCurrency(c) ==> ControlAgrees(s, c))
  }

  lemma CodesDiffer(c: string, d: string, provider: string)
    requires IsCurrency(c) && IsCurrency(d)
    ensures PayableCode(c) == PayableCode(d) <==> c == d
    ensures PayableCode(c) != ExpenseCode(d) && PayableCode(c) != SupplierCashCode(d)
  {
    assert |PayableCode(c)| == 20 && PayableCode(c)[17..] == c;
    assert PayableCode(d)[17..] == d;
    assert PayableCode(c)[0] == 'A' && ExpenseCode(d)[0] == 'P' && SupplierCashCode(d)[0] == 'C';
  }

  lemma SettlementAvoidsPayables(c: string, p: Posting, payment: nat, provider: string, currency: string, amount: real)
    requires p == SettlementPosting(payment, provider, currency, amount)
    ensures PayableCode(c) != p.debit && PayableCode(c) != p.credit && p.debit != p.credit
  {
    assert PayableCode(c)[0] == 'A' && p.debit[0] == 'C' && p.credit[0] == 'R';
  }

  lemma InvoiceKeeps(s: Payable, cat: Catalog, d: InvoiceInput)
    requires PayableOk(s)
    ensures PayableOk(CreateInvoice(s, cat, d).0)
  {
    var (t, r) := CreateInvoice(s, cat, d);
    if r.Ok? {
      var inv := t.invoices[|s.invoices|];
      var p := Posting(Transaction(SupplierInvoice, |s.invoices|), ExpenseCode(d.currency), PayableCode(d.currency),
                       d.currency, inv.total);
      Ledger.PostKeeps(s.books, p);
      CodesDiffer(d.currency, d.currency, "");
      forall i | 0 <= i < |t.invoices| ensures InvoiceOk(t, i) {
        if i < |s.invoices| { assert InvoiceOk(s, i); } else { SumZero(s.payments, PaidTo(i)); }
      }
      assert forall k :: 0 <= k < |s.books.txs| ==> RefersToRow(s, s.books.txs[k]);
      forall c | IsCurrency(c) ensures ControlAgrees(t, c) {
        assert ControlAgrees(s, c);
        OwingKeepsControl(s, t, inv, p, c);
      }
    }
  }

  // An unpaid invoice posted to the account of its currency adds as much to what is owed as to the account.
  lemma OwingKeepsControl(s: Payable, t: Payable, inv: Invoice, p: Posting, c: string)
    requires BooksOk(s.books) && ControlAgrees(s, c) && IsCurrency(c) && IsCurrency(inv.currency)
    requires t.invoices == s.invoices + [inv] && t.books == Post(s.books, p) && p.tx !in s.books.txs
    requires p.debit == ExpenseCode(inv.currency) && p.credit == PayableCode(inv.currency)
    requires p.amount == inv.total && inv.amountPaid == 0.0
    ensures ControlAgrees(t, c)
  {
    Ledger.PostKeeps(s.books, p);
    CodesDiffer(c, inv.currency, "");
    CodesDiffer(inv.currency, inv.currency, "");
    SumAppend(s.invoices, inv, OwedIn(c));
  }

  predicate Accepted(s: Payable, i: nat, d: PaymentInput) {
    var r := Pay(s, i, d).1;
    r.Ok? && !r.value.duplicate
  }

  lemma PayKeepsInvoices(s: Payable, i: nat, d: PaymentInput, k: nat)
    requires PayableOk(s) && Accepted(s, i, d) && k < |s.invoices|
    ensures InvoiceOk(Pay(s, i, d).0, k)
  {
    assert InvoiceOk(s, k);
    SumAppend(s.payments, Pay(s, i, d).0.payments[|s.payments|], PaidTo(k));
  }

  lemma PayKeepsControl(s: Payable, i: nat, d: PaymentInput, c: string)
    requires PayableOk(s) && Accepted(s, i, d) && IsCurrency(c)
    ensures ControlAgrees(Pay(s, i, d).0, c)
  {
    assert InvoiceOk(s, i) && ControlAgrees(s, c);
    Ledger.PostKeeps(s.books, PaymentPosting(|s.payments|, d));
    CodesDiffer(d.currency, d.currency, "");
    CodesDiffer(c, d.currency, "");
    SumUpdate(s.invoices, i, Pay(s, i, d).0.invoices[i], OwedIn(c));
  }

  lemma PayKeeps(s: Payable, i: nat, d: PaymentInput)
    requires PayableOk(s)
    ensures PayableOk(Pay(s, i, d).0)
  {
    if Accepted(s, i, d) {
      var t := Pay(s, i, d).0;
      assert InvoiceOk(s, i);
      CodesDiffer(d.currency, d.currency, "");
      Ledger.PostKeeps(s.books, PaymentPosting(|s.payments|, d));
      forall k | 0 <= k < |t.invoices| ensures InvoiceOk(t, k) { PayKeepsInvoices(s, i, d, k); }
      forall c | IsCurrency(c) ensures ControlAgrees(t, c) { PayKeepsControl(s, i, d, c); }
    }
  }

  lemma StepKeeps(s: Payable, op: Op)
    requires PayableOk(s)
    ensures PayableOk(Step(s, op))
  {
    var t := Step(s, op);
    match op
    case Invoiced(cat, d) => InvoiceKeeps(s, cat, d);
    case PaidOff(i, d) => PayKeeps(s, i, d);
    case Withdrawn(i, _) =>
      forall k | 0 <= k < |t.invoices| ensures InvoiceOk(t, k) { assert InvoiceOk(s, k); }
      forall c | IsCurrency(c) ensures ControlAgrees(t, c) {
        assert ControlAgrees(s, c);
        if i < |s.invoices| { SumUpdate(s.invoices, i, t.invoices[i], OwedIn(c)); }
      }
    case Settled(payment, provider, currency, amount) =>
      var p := SettlementPosting(payment, provider, currency, amount);
      Ledger.PostKeeps(s.books, p);
      forall k | 0 <= k < |t.invoices| ensures InvoiceOk(t, k) { assert InvoiceOk(s, k); }
      forall c | IsCurrency(c) ensures ControlAgrees(t, c) {
        assert ControlAgrees(s, c);
        SettlementAvoidsPayables(c, p, payment, provider, currency, amount);
      }
  }

  lemma {:induction false} RunKeeps(s: Payable, ops: seq<Op>)
    requires PayableOk(s)
    ensures PayableOk(Run(s, ops))
  {
    if ops != [] {
      RunKeeps(s, ops[..|ops| - 1]);
      StepKeeps(Run(s, ops[..|ops| - 1]), ops[|ops| - 1]);
    }
  }

  // In every reachable state and currency the accounts-payable credit balance is the sum of the open balances.
  lemma ControlAccountAgrees(ops: seq<Op>, c: string)
    requires IsCurrency(c)
    ensures ControlAgrees(Run(EMPTY, ops), c)
  {
    RunKeeps(EMPTY, ops);
  }

  // Each invoice's amount paid is the sum of its payments, at most its total; PAID means fully paid.
  lemma PaymentsExplainInvoices(ops: seq<Op>, i: nat)
    requires i < |Run(EMPTY, ops).invoices|
    ensures InvoiceOk(Run(EMPTY, ops), i)
  {
    RunKeeps(EMPTY, ops);
  }

  // Across the three posting sites every ledger transaction has one debit, one credit and equal sums.
  lemma EveryTransactionBalances(ops: seq<Op>, t: nat)
    requires t < |Run(EMPTY, ops).books.txs|
    ensures Balanced(Run(EMPTY, ops).books, t)
  {
    RunKeeps(EMPTY, ops);
  }
}
