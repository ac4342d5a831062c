// Customer payments: verified settlement, the invoices it pays, invoice lines, and refunds
// (payments.service.ts recordVerifiedSettlement, finance.service.ts).
module Finance {
  import opened Arithmetic
  import opened Common
  import opened Ledger
  import Payables

  datatype PaymentStatus = Initiated | Pending | Authorized | Paid | Failed

  datatype PaymentRow = PaymentRow(purchase: Option<nat>, provider: string, amount: real, currency: string,
                                   status: PaymentStatus, verified: bool)

  datatype InvoiceStatus = Issued | PartlyPaid | FullyPaid | Overdue | Void

  datatype Invoice = Invoice(number: string, purchase: Option<nat>, currency: string, total: real, amountPaid: real,
                             status: InvoiceStatus)

  datatype InvoiceLine = InvoiceLine(invoice: nat, subtotal: real, tax: real, total: real)

  datatype RefundStatus = Requested | Approved | Processing | Succeeded | Rejected

  datatype Refund = Refund(payment: nat, amount: real, currency: string, key: string, status: RefundStatus)

  datatype Money = Money(payments: seq<PaymentRow>, invoices: seq<Invoice>, lines: seq<InvoiceLine>,
                         refunds: seq<Refund>, books: Books)

  // ---- Settlement ----

  function Received(purchase: Option<nat>, currency: string): PaymentRow -> real {
    (p: PaymentRow) => if p.purchase == purchase && p.status == Paid && p.currency == currency then p.amount else 0.0
  }

  function Least(x: real, y: real): real { if x <= y then x else y }

  function Credit(payments: seq<PaymentRow>, i: Invoice): Invoice {
    var received := SumBy(payments, Received(i.purchase, i.currency));
    i.(amountPaid := Least(i.total, received),
       status := if received >= i.total then FullyPaid else if received > 0.0 then PartlyPaid else i.status)
  }

  predicate PaysFor(i: Invoice, purchase: Option<nat>) { purchase.Some? && i.purchase == purchase && i.status != Void }

  function CreditAll(payments: seq<PaymentRow>, invoices: seq<Invoice>, purchase: Option<nat>): (t: seq<Invoice>)
    ensures |t| == |invoices|
  {
    seq(|invoices|, k requires 0 <= k < |invoices| =>
      if PaysFor(invoices[k], purchase) then Credit(payments, invoices[k]) else invoices[k])
  }

  // recordVerifiedSettlement; the result is the ledger transaction.
  function Settle(s: Money, id: nat, amount: real, currency: string, provider: string): (Money, Result<nat>) {
    if id >= |s.payments| || s.payments[id].status != Paid || s.payments[id].provider != provider
       || s.payments[id].amount != amount || s.payments[id].currency != currency then (s, Err(Conflict))
    else
      var p := s.payments[id];
      var payments := s.payments[id := p.(verified := true)];
      var books := Post(s.books, Payables.SettlementPosting(id, provider, currency, amount));
      var t := FindTransaction(books.txs, Transaction(Payment, id));
      (s.(payments := payments, invoices := CreditAll(payments, s.invoices, p.purchase), books := books),
       if t.Some? then Ok(t.value) else Err(Conflict))
  }

  // ---- Invoices ----

  function CreateInvoice(s: Money, number: string, purchase: Option<nat>, currency: string, subtotal: real, tax: real)
    : (Money, Result<nat>)
  {
    if exists k :: 0 <= k < |s.invoices| && (s.invoices[k].number == number
                   || (purchase.Some? && s.invoices[k].purchase == purchase)) then (s, Err(Conflict))
    else (s.(invoices := s.invoices + [Invoice(number, purchase, currency, RoundTo(subtotal + tax, 100), 0.0, Issued)]),
          Ok(|s.invoices|))
  }

  function LineOf(invoice: nat, quantity: real, price: real, tax: real): InvoiceLine {
    var subtotal := RoundTo(quantity * price, 1000000);
    InvoiceLine(invoice, subtotal, tax, RoundTo(subtotal + tax, 1000000))
  }

  function TotalIn(invoice: nat): InvoiceLine -> real {
    (l: InvoiceLine) => if l.invoice == invoice then l.total else 0.0
  }

  // addInvoiceLine runs three statements, each its own transaction: the check, the INSERT and the UPDATE of the total.
  function LineObjection(s: Money, id: nat, quantity: real, price: real, tax: real): Option<Failure> {
    if quantity < 0.000001 || price < 0.0 || tax < 0.0 then Some(BadRequest)
    else if id >= |s.invoices| then Some(NotFound)
    else if s.invoices[id].status in {FullyPaid, Void} then Some(Conflict)
    else None
  }

  function InsertLine(s: Money, line: InvoiceLine): Money { s.(lines := s.lines + [line]) }

  function WriteTotal(s: Money, id: nat): Money {
    if id < |s.invoices|
    then s.(invoices := s.invoices[id := s.invoices[id].(total := SumBy(s.lines, TotalIn(id)))])
    else s
  }

  // The three without a break.
  function AddLine(s: Money, id: nat, quantity: real, price: real, tax: real): (Money, Result<nat>) {
    match LineObjection(s, id, quantity, price, tax)
    case Some(e) => (s, Err(e))
    case None => (WriteTotal(InsertLine(s, LineOf(id, quantity, price, tax)), id), Ok(|s.lines|))
  }

  // ---- Refunds ----

  predicate Live(status: RefundStatus) { status in {Requested, Approved, Processing, Succeeded} }

  function LiveFor(payment: nat): Refund -> real {
    (r: Refund) => if r.payment == payment && Live(r.status) then r.amount else 0.0
  }

  function FindRefund(refunds: seq<Refund>, key: string): (found: Option<nat>)
    ensures found.Some? ==> found.value < |refunds| && refunds[found.value].key == key
    ensures found.None? ==> forall k :: 0 <= k < |refunds| ==> refunds[k].key != key
  {
    FindBy(refunds, (r: Refund) => r.key == key)
  }

  function RequestRefund(s: Money, payment: nat, amount: real, key: string): (Money, Result<nat>) {
    if amount < 0.000001 then (s, Err(BadRequest))
    else if payment >= |s.payments| then (s, Err(NotFound))
    else if s.payments[payment].status != Paid then (s, Err(Conflict))
    else match FindRefund(s.refunds, key)
      case Some(k) =>
        (s, if s.refunds[k].payment == payment && s.refunds[k].amount == amount then Ok(k) else Err(Conflict))
      case None =>
        if SumBy(s.refunds, LiveFor(payment)) + amount > s.payments[payment].amount then (s, Err(Conflict))
        else (s.(refunds := s.refunds + [Refund(payment, amount, s.payments[payment].currency, key, Requested)]),
              Ok(|s.refunds|))
  }

  function ApproveRefund(s: Money, id: nat): (Money, Result<nat>) {
    if id >= |s.refunds| || s.refunds[id].status != Requested then (s, Err(Conflict))
    else (s.(refunds := s.refunds[id := s.refunds[id].(status := Approved)]), Ok(id))
  }

  // The tables, updated in place.
  class FinanceTables {
    var payments: seq<PaymentRow>
    var invoices: seq<Invoice>
    var lines: seq<InvoiceLine>
    var refunds: seq<Refund>
    const ledger: LedgerTables

    ghost function Contents(): Money
      reads this, ledger
    {
      Money(payments, invoices, lines, refunds, ledger.Contents())
    }

    constructor (ledger: LedgerTables)
      ensures this.ledger == ledger && Contents() == Money([], [], [], [], ledger.Contents())
    {
      this.ledger := ledger;
      payments, invoices, lines, refunds := [], [], [], [];
    }

    method RecordVerifiedSettlement(id: nat, amount: real, currency: string, provider: string) returns (r: Result<nat>)
      modifies this, ledger
      ensures Contents() == Settle(old(Contents()), id, amount, currency, provider).0
      ensures r == Settle(old(Contents()), id, amount, currency, provider).1
    {
      if id >= |payments| || payments[id].status != Paid { return Err(Conflict); }
      var p := payments[id];
      if p.provider != provider { return Err(Conflict); }
      if p.amount != amount || p.currency != currency { return Err(Conflict); }
      ghost var before := Contents();
      payments := payments[id := p.(verified := true)];
      ledger.PostTransaction(Payables.SettlementPosting(id, provider, currency, amount));
      var t := FindTransaction(ledger.txs, Transaction(Payment, id));
      if p.purchase.Some? { CreditInvoices(p.purchase); }
      assert invoices == CreditAll(payments, before.invoices, p.purchase);
      r := if t.Some? then Ok(t.value) else Err(Conflict);
    }

    // The bulk update of the invoices of the purchase.
    method CreditInvoices(purchase: Option<nat>)
      requires purchase.Some?
      modifies this`invoices
      ensures invoices == CreditAll(payments, old(invoices), purchase)
    {
      ghost var before := invoices;
      for k := 0 to |invoices|
        invariant |invoices| == |before|
        invariant forall j :: 0 <= j < k ==> invoices[j] == CreditAll(payments, before, purchase)[j]
        invariant forall j :: k <= j < |invoices| ==> invoices[j] == before[j]
      {
        var i := invoices[k];
        if i.purchase == purchase && i.status != Void {
          var received := SumBy(payments, Received(i.purchase, i.currency));
          var status := if received >= i.total then FullyPaid else if received > 0.0 then PartlyPaid else i.status;
          invoices := invoices[k := i.(amountPaid := Least(i.total, received), status := status)];
        }
      }
    }

    method AddInvoiceLine(id: nat, quantity: real, price: real, tax: real) returns (r: Result<nat>)
      modifies this
      ensures Contents() == AddLine(old(Contents()), id, quantity, price, tax).0
      ensures r == AddLine(old(Contents()), id, quantity, price, tax).1
    {
      if quantity < 0.000001 || price < 0.0 || tax < 0.0 { return Err(BadRequest); }
      if id >= |invoices| { return Err(NotFound); }
      if invoices[id].status == FullyPaid || invoices[id].status == Void { return Err(Conflict); }
      r := Ok(|lines|);
      InsertInvoiceLine(LineOf(id, quantity, price, tax));
      TotalInvoice(id);
    }

    method InsertInvoiceLine(line: InvoiceLine)
      modifies this`lines
      ensures Contents() == InsertLine(old(Contents()), line)
    {
      lines := lines + [line];
    }

    method TotalInvoice(id: nat)
      modifies this`invoices
      ensures Contents() == WriteTotal(old(Contents()), id)
    {
      if id < |invoices| {
        var total := SumBy(lines, TotalIn(id));
        invoices := invoices[id := invoices[id].(total := total)];
      }
    }

    method RecordRefundRequest(payment: nat, amount: real, key: string) returns (r: Result<nat>)
      modifies this`refunds
      ensures Contents() == RequestRefund(old(Contents()), payment, amount, key).0
      ensures r == RequestRefund(old(Contents()), payment, amount, key).1
    {
      if amount < 0.000001 { return Err(BadRequest); }
      if payment >= |payments| { return Err(NotFound); }
      var p := payments[payment];
      if p.status != Paid { return Err(Conflict); }
      var existing := FindRefund(refunds, key);
      if existing.Some? {
        var refund := refunds[existing.value];
        if refund.payment != payment || refund.amount != amount { return Err(Conflict); }
        return Ok(existing.value);
      }
      var used := SumBy(refunds, LiveFor(payment));
      if used + amount > p.amount { return Err(Conflict); }
      r := Ok(|refunds|);
      refunds := refunds + [Refund(payment, amount, p.currency, key, Requested)];
    }

    method RecordRefundApproval(id: nat) returns (r: Result<nat>)
      modifies this`refunds
      ensures Contents() == ApproveRefund(old(Contents()), id).0 && r == ApproveRefund(old(Contents()), id).1
    {
      if id >= |refunds| || refunds[id].status != Requested { return Err(Conflict); }
      refunds := refunds[id := refunds[id].(status := Approved)];
      r := Ok(id);
    }
  }
}
