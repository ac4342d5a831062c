// What settlements, invoice lines and refunds keep.
module FinanceLaws {
  import opened Arithmetic
  import opened Common
  import opened Ledger
  import opened Finance
  import Payables

  // ---- Runs ----

  datatype Op =
    | Paying(row: PaymentRow)                          // a payment row, from an intent or a confirmation
    | Changes(payment: nat, status: PaymentStatus)     // its status moves; amount and currency never do
    | Invoicing(number: string, purchase: Option<nat>, currency: string, subtotal: real, tax: real)
    | Marks(invoice: nat, mark: InvoiceStatus)         // overdue, or void, which no service writes
    | Settling(id: nat, amount: real, currencyPaid: string, provider: string)
    | Lining(lined: nat, quantity: real, price: real, lineTax: real)  // a line request passes its check
    | Going(request: nat)                              // and runs its next statement
    | Refunding(refunded: nat, refund: real, key: string)
    | Approving(approved: nat)
    | Progress(moved: nat, to: RefundStatus)           // the provider's answer; a dead refund never revives
    | Elsewhere(posting: Posting)                      // supplier invoices and payments post to the same books

  // A line request between its statements; one that never runs its next one was cut off.
  datatype LinePc = Inserting | Totaling | Closed
  datatype LineRequest = LineRequest(line: InvoiceLine, pc: LinePc)

  datatype Desk = Desk(money: Money, requests: seq<LineRequest>)

  // A posting of a supplier invoice or of its payment.
  predicate SupplierPosting(p: Posting) {
    && p.tx.kind != Payment
    && (("PROCUREMENT:" <= p.debit && "ACCOUNTS_PAYABLE:" <= p.credit)
        || ("ACCOUNTS_PAYABLE:" <= p.debit && "CASH:AP:" <= p.credit))
  }

  // What the operations that are one transaction do.
  function Change(s: Money, op: Op): Money {
    match op
    case Paying(row) => if row.amount >= 0.0 then s.(payments := s.payments + [row]) else s
    case Changes(i, status) =>
      if i < |s.payments| then s.(payments := s.payments[i := s.payments[i].(status := status)]) else s
    case Invoicing(number, purchase, currency, subtotal, tax) =>
      if subtotal >= 0.0 && tax >= 0.0 then CreateInvoice(s, number, purchase, currency, subtotal, tax).0 else s
    case Marks(i, mark) =>
      if i < |s.invoices| && (mark == Void || (mark == Overdue && s.invoices[i].status in {Issued, PartlyPaid}))
      then s.(invoices := s.invoices[i := s.invoices[i].(status := mark)])
      else s
    case Settling(id, amount, currency, provider) => Settle(s, id, amount, currency, provider).0
    case Refunding(p, amount, key) => RequestRefund(s, p, amount, key).0
    case Approving(id) => ApproveRefund(s, id).0
    case Progress(id, to) =>
      if id < |s.refunds| && (Live(s.refunds[id].status) || !Live(to))
      then s.(refunds := s.refunds[id := s.refunds[id].(status := to)]) else s
    case Elsewhere(p) => if SupplierPosting(p) then s.(books := Post(s.books, p)) else s
    case Lining(_, _, _, _) => s
    case Going(_) => s
  }

  function Continue(d: Desk, k: nat): Desk
    requires k < |d.requests|
  {
    var x := d.requests[k];
    match x.pc
    case Inserting => Desk(InsertLine(d.money, x.line), d.requests[k := x.(pc := Totaling)])
    case Totaling => Desk(WriteTotal(d.money, x.line.invoice), d.requests[k := x.(pc := Closed)])
    case Closed => d
  }

  function Step(d: Desk, op: Op): Desk {
    match op
    case Lining(i, quantity, price, tax) =>
      if LineObjection(d.money, i, quantity, price, tax).None?
      then d.(requests := d.requests + [LineRequest(LineOf(i, quantity, price, tax), Inserting)])
      else d
    case Going(k) => if k < |d.requests| then Continue(d, k) else d
    case _ => d.(money := Change(d.money, op))
  }

  ghost function Run(d: Desk, ops: seq<Op>): Desk {
    if ops == [] then d else Step(Run(d, ops[..|ops| - 1]), ops[|ops| - 1])
  }

  const EMPTY := Desk(Money([], [], [], [], Books([], [])), [])

  // ---- Refunds ----

  ghost predicate WithinPayment(s: Money, p: nat)
    requires p < |s.payments|
  {
    SumBy(s.refunds, LiveFor(p)) <= s.payments[p].amount
  }

  ghost predicate RefundsOk(s: Money) {
    && (forall p :: 0 <= p < |s.payments| ==> WithinPayment(s, p))
    && (forall k :: 0 <= k < |s.refunds| ==> s.refunds[k].amount > 0.0 && s.refunds[k].payment < |s.payments|)
    && (forall j, k :: 0 <= j < k < |s.refunds| ==> s.refunds[j].key != s.refunds[k].key)
  }

  lemma NewPaymentKeeps(s: Money, row: PaymentRow)
    requires RefundsOk(s) && row.amount >= 0.0
    ensures RefundsOk(s.(payments := s.payments + [row]))
  {
    var t := s.(payments := s.payments + [row]);
    forall p | 0 <= p < |t.payments| ensures WithinPayment(t, p) {
      if p < |s.payments| { assert WithinPayment(s, p); } else { SumZero(s.refunds, LiveFor(p)); }
    }
  }

  lemma RequestKeeps(s: Money, payment: nat, amount: real, key: string)
    requires RefundsOk(s)
    ensures RefundsOk(RequestRefund(s, payment, amount, key).0)
  {
    var t := RequestRefund(s, payment, amount, key).0;
    if t != s {
      forall p | 0 <= p < |t.payments| ensures WithinPayment(t, p) {
        assert WithinPayment(s, p);
        SumAppend(s.refunds, t.refunds[|s.refunds|], LiveFor(p));
      }
    }
  }

  // A refund that stays live keeps its share; one that dies gives it back.
  lemma MoveKeeps(s: Money, id: nat, to: RefundStatus)
    requires RefundsOk(s) && id < |s.refunds| && (Live(s.refunds[id].status) || !Live(to))
    ensures RefundsOk(s.(refunds := s.refunds[id := s.refunds[id].(status := to)]))
  {
    var t := s.(refunds := s.refunds[id := s.refunds[id].(status := to)]);
    forall p | 0 <= p < |t.payments| ensures WithinPayment(t, p) {
      assert WithinPayment(s, p);
      SumUpdate(s.refunds, id, t.refunds[id], LiveFor(p));
    }
  }

  lemma SameAmounts(s: Money, t: Money)
    requires RefundsOk(s) && t.refunds == s.refunds && |t.payments| == |s.payments|
    requires forall p :: 0 <= p < |s.payments| ==> t.payments[p].amount == s.payments[p].amount
    ensures RefundsOk(t)
  {
    forall p | 0 <= p < |t.payments| ensures WithinPayment(t, p) { assert WithinPayment(s, p); }
  }

  lemma StepKeepsRefunds(d: Desk, op: Op)
    requires RefundsOk(d.money)
    ensures RefundsOk(Step(d, op).money)
  {
    var s := d.money;
    match op
    case Paying(row) => if row.amount >= 0.0 { NewPaymentKeeps(s, row); }
    case Refunding(p, amount, key) => RequestKeeps(s, p, amount, key);
    case Approving(id) => if id < |s.refunds| && s.refunds[id].status == Requested { MoveKeeps(s, id, Approved); }
    case Progress(id, to) => if id < |s.refunds| && (Live(s.refunds[id].status) || !Live(to)) { MoveKeeps(s, id, to); }
    case _ => SameAmounts(s, Step(d, op).money);
  }

  // Over any interleaving of requests, retries, approvals and provider answers, the live refunds of a payment never
  // sum above its amount.
  lemma RefundsAreBounded(ops: seq<Op>)
    ensures RefundsOk(Run(EMPTY, ops).money)
  {
    RunKeepsRefunds(EMPTY, ops);
  }

  // Asking again under a key that was granted answers with the same refund and changes nothing, as long as the payment
  // is still PAID; under that key any other payment or amount is refused.
  lemma RefundReplays(s: Money, p: nat, amount: real, key: string, q: nat, other: real)
    requires RequestRefund(s, p, amount, key).1.Ok? && other >= 0.000001
    ensures var (t, r) := RequestRefund(s, p, amount, key);
      var (u, again) := RequestRefund(t, q, other, key);
      u == t && (again.Ok? <==> q == p && other == amount) && (again.Ok? ==> again == r)
  {
    var (t, r) := RequestRefund(s, p, amount, key);
    if t != s {
      assert t.refunds[|s.refunds|].key == key;
      assert FindRefund(t.refunds, key) == Some(|s.refunds|);
    }
  }

  // ---- Settlement ----

  // Payment p has at most one ledger transaction; if it has one, it holds one debit and one credit of its amount.
  ghost predicate Booked(s: Money, t: nat)
    requires t < |s.books.txs|
  {
    var tx := s.books.txs[t];
    tx.kind == Payment ==>
      && tx.reference < |s.payments|
      && SumBy(s.books.entries, CountIn(t)) == 2.0
      && SumBy(s.books.entries, DebitIn(t)) == s.payments[tx.reference].amount
      && SumBy(s.books.entries, CreditIn(t)) == s.payments[tx.reference].amount
  }

  ghost predicate SettlementsOk(s: Money) {
    BooksOk(s.books) && forall t :: 0 <= t < |s.books.txs| ==> Booked(s, t)
  }

  lemma PostBooks(b: Books, p: Posting, t: nat)
    requires BooksOk(b) && p.tx !in b.txs && t <= |b.txs|
    ensures |Post(b, p).txs| == |b.txs| + 1 && Post(b, p).txs[..|b.txs|] == b.txs && Post(b, p).txs[|b.txs|] == p.tx
    ensures t < |b.txs| ==>
              && SumBy(Post(b, p).entries, CountIn(t)) == SumBy(b.entries, CountIn(t))
              && SumBy(Post(b, p).entries, DebitIn(t)) == SumBy(b.entries, DebitIn(t))
              && SumBy(Post(b, p).entries, CreditIn(t)) == SumBy(b.entries, CreditIn(t))
    ensures t == |b.txs| ==>
              && SumBy(Post(b, p).entries, CountIn(t)) == 2.0
              && SumBy(Post(b, p).entries, DebitIn(t)) == p.amount == SumBy(Post(b, p).entries, CreditIn(t))
  {
    var x := Entry(|b.txs|, p.debit, p.currency, p.amount, 0.0);
    var y := Entry(|b.txs|, p.credit, p.currency, 0.0, p.amount);
    assert Post(b, p).entries == b.entries + [x, y];
    AppendTwo(b.entries, x, y, CountIn(t));
    AppendTwo(b.entries, x, y, DebitIn(t));
    AppendTwo(b.entries, x, y, CreditIn(t));
    if t == |b.txs| {
      SumZero(b.entries, CountIn(t));
      SumZero(b.entries, DebitIn(t));
      SumZero(b.entries, CreditIn(t));
    }
  }

  lemma SettleKeeps(s: Money, id: nat, amount: real, currency: string, provider: string)
    requires SettlementsOk(s)
    ensures SettlementsOk(Settle(s, id, amount, currency, provider).0)
  {
    var (t, r) := Settle(s, id, amount, currency, provider);
    if t != s {
      var p := Payables.SettlementPosting(id, provider, currency, amount);
      Ledger.PostKeeps(s.books, p);
      forall k | 0 <= k < |t.books.txs| ensures Booked(t, k) {
        if p.tx in s.books.txs {
          assert Booked(s, k);
        } else {
          PostBooks(s.books, p, k);
          if k < |s.books.txs| { assert Booked(s, k); }
        }
      }
    }
  }

  lemma ElsewhereKeeps(s: Money, p: Posting)
    requires SettlementsOk(s) && SupplierPosting(p)
    ensures SettlementsOk(s.(books := Post(s.books, p)))
  {
    var t := s.(books := Post(s.books, p));
    Ledger.PostKeeps(s.books, p);
    forall k | 0 <= k < |t.books.txs| ensures Booked(t, k) {
      if p.tx in s.books.txs {
        assert Booked(s, k);
      } else {
        PostBooks(s.books, p, k);
        if k < |s.books.txs| { assert Booked(s, k); }
      }
    }
  }

  lemma SameSettlements(s: Money, t: Money)
    requires SettlementsOk(s) && t.books == s.books && |s.payments| <= |t.payments|
    requires forall p :: 0 <= p < |s.payments| ==> t.payments[p].amount == s.payments[p].amount
    ensures SettlementsOk(t)
  {
    forall k | 0 <= k < |t.books.txs| ensures Booked(t, k) { assert Booked(s, k); }
  }

  // In every run, settling a payment any number of times has booked at most one transaction, balanced and of its
  // amount.
  lemma SettledOnce(ops: seq<Op>)
    ensures SettlementsOk(Run(EMPTY, ops).money)
  {
    RunKeepsSettlements(EMPTY, ops);
  }

  // A second settlement with the same details returns the same transaction and changes nothing.
  lemma SettlingAgainChangesNothing(s: Money, id: nat, amount: real, currency: string, provider: string)
    requires SettlementsOk(s) && Settle(s, id, amount, currency, provider).1.Ok?
    ensures var (t, r) := Settle(s, id, amount, currency, provider);
      Settle(t, id, amount, currency, provider) == (t, r)
  {
    var (t, r) := Settle(s, id, amount, currency, provider);
    var p := Payables.SettlementPosting(id, provider, currency, amount);
    Ledger.PostKeeps(s.books, p);
    Ledger.PostKeeps(t.books, p);
    assert t.payments[id := t.payments[id]] == t.payments;
    var again := CreditAll(t.payments, t.invoices, t.payments[id].purchase);
    assert again == t.invoices;
  }

  // What later operations leave of a settlement: the row, but for its status, and the transaction.
  ghost predicate Follows(s: Money, t: Money) {
    && |s.payments| <= |t.payments| && s.books.txs <= t.books.txs
    && (forall p :: 0 <= p < |s.payments| ==> SettledRow(s.payments[p], t.payments[p]))
    && |s.refunds| <= |t.refunds|
    && (forall k :: 0 <= k < |s.refunds| ==> SameRefund(s.refunds[k], t.refunds[k]))
  }

  predicate SettledRow(p: PaymentRow, q: PaymentRow) {
    q == p.(status := q.status, verified := q.verified) && (p.verified ==> q.verified)
  }

  predicate SameRefund(r: Refund, q: Refund) { q == r.(status := q.status) }

  lemma {:induction false} RunFollows(d: Desk, ops: seq<Op>)
    ensures Follows(d.money, Run(d, ops).money)
  {
    if ops != [] {
      var before := Run(d, ops[..|ops| - 1]);
      RunFollows(d, ops[..|ops| - 1]);
      StepFollows(before, ops[|ops| - 1]);
      FollowsOn(d.money, before.money, Run(d, ops).money);
    }
  }

  lemma FollowsOn(s: Money, t: Money, u: Money)
    requires Follows(s, t) && Follows(t, u)
    ensures Follows(s, u)
  {
    forall p | 0 <= p < |s.payments| ensures SettledRow(s.payments[p], u.payments[p]) {
      assert SettledRow(s.payments[p], t.payments[p]) && SettledRow(t.payments[p], u.payments[p]);
    }
    forall k | 0 <= k < |s.refunds| ensures SameRefund(s.refunds[k], u.refunds[k]) {
      assert SameRefund(s.refunds[k], t.refunds[k]) && SameRefund(t.refunds[k], u.refunds[k]);
    }
  }

  lemma SettleFollows(s: Money, id: nat, amount: real, currency: string, provider: string)
    ensures Follows(s, Settle(s, id, amount, currency, provider).0)
  {
  }

  lemma ChangeFollows(s: Money, op: Op)
    ensures Follows(s, Change(s, op))
  {
    match op
    case Settling(id, amount, currency, provider) => SettleFollows(s, id, amount, currency, provider);
    case _ =>
  }

  lemma StepFollows(d: Desk, op: Op)
    ensures Follows(d.money, Step(d, op).money)
  {
    ChangeFollows(d.money, op);
  }

  lemma StepKeepsSettlements(d: Desk, op: Op)
    requires SettlementsOk(d.money)
    ensures SettlementsOk(Step(d, op).money)
  {
    match op
    case Settling(id, amount, currency, provider) => SettleKeeps(d.money, id, amount, currency, provider);
    case Elsewhere(p) => if SupplierPosting(p) { ElsewhereKeeps(d.money, p); }
    case _ => SameSettlements(d.money, Step(d, op).money);
  }

  lemma {:induction false} RunKeepsSettlements(d: Desk, ops: seq<Op>)
    requires SettlementsOk(d.money)
    ensures SettlementsOk(Run(d, ops).money)
  {
    if ops != [] {
      RunKeepsSettlements(d, ops[..|ops| - 1]);
      StepKeepsSettlements(Run(d, ops[..|ops| - 1]), ops[|ops| - 1]);
    }
  }

  // The tables after the settlement and any later operations, whatever line requests were under way.
  ghost function AfterSettling(d: Desk, id: nat, amount: real, currency: string, provider: string, ops: seq<Op>): Money
  {
    Run(d.(money := Settle(d.money, id, amount, currency, provider).0), ops).money
  }

  // Once settled, a payment has exactly one transaction ever after: the one it was answered with.
  lemma SettledForGood(d: Desk, id: nat, amount: real, currency: string, provider: string, ops: seq<Op>, t: nat)
    requires SettlementsOk(d.money) && Settle(d.money, id, amount, currency, provider).1.Ok?
    requires t < |AfterSettling(d, id, amount, currency, provider, ops).books.txs|
    ensures var r := Settle(d.money, id, amount, currency, provider).1;
      var later := AfterSettling(d, id, amount, currency, provider, ops);
      && r.value < |later.books.txs| && Booked(later, r.value)
      && (later.books.txs[t] == Transaction(Payment, id) <==> t == r.value)
  {
    SettledStays(d, id, amount, currency, provider, ops);
  }

  lemma SettledStays(d: Desk, id: nat, amount: real, currency: string, provider: string, ops: seq<Op>)
    requires SettlementsOk(d.money) && Settle(d.money, id, amount, currency, provider).1.Ok?
    ensures var (after, r) := Settle(d.money, id, amount, currency, provider);
      var later := AfterSettling(d, id, amount, currency, provider, ops);
      && SettlementsOk(later) && Follows(after, later)
      && r.value < |later.books.txs| && later.books.txs[r.value] == Transaction(Payment, id)
  {
    var (after, r) := Settle(d.money, id, amount, currency, provider);
    SettleKeeps(d.money, id, amount, currency, provider);
    RunKeepsSettlements(d.(money := after), ops);
    RunFollows(d.(money := after), ops);
    var later := AfterSettling(d, id, amount, currency, provider, ops);
    assert later.books.txs[r.value] == after.books.txs[r.value];
  }

  // Settling again at any later time at which the payment is still PAID answers with the same transaction and changes
  // neither payments nor books.
  lemma SettlementReplays(d: Desk, id: nat, amount: real, currency: string, provider: string, ops: seq<Op>)
    requires SettlementsOk(d.money) && Settle(d.money, id, amount, currency, provider).1.Ok?
    requires var later := AfterSettling(d, id, amount, currency, provider, ops);
      id < |later.payments| && later.payments[id].status == Paid
    ensures var r := Settle(d.money, id, amount, currency, provider).1;
      var later := AfterSettling(d, id, amount, currency, provider, ops);
      var (again, answer) := Settle(later, id, amount, currency, provider);
      answer == r && again.payments == later.payments && again.books == later.books
  {
    var (after, r) := Settle(d.money, id, amount, currency, provider);
    var later := AfterSettling(d, id, amount, currency, provider, ops);
    SettledStays(d, id, amount, currency, provider, ops);
    assert SettledRow(after.payments[id], later.payments[id]);
    SettlesAsKnown(later, id, amount, currency, provider, r.value);
  }

  // A verified payment with a transaction settles as before.
  lemma SettlesAsKnown(s: Money, id: nat, amount: real, currency: string, provider: string, t: nat)
    requires SettlementsOk(s) && id < |s.payments| && t < |s.books.txs| && s.books.txs[t] == Transaction(Payment, id)
    requires var p := s.payments[id];
      p.status == Paid && p.verified && p.provider == provider && p.amount == amount && p.currency == currency
    ensures var (again, r) := Settle(s, id, amount, currency, provider);
      r == Ok(t) && again.payments == s.payments && again.books == s.books
  {
    var p := Payables.SettlementPosting(id, provider, currency, amount);
    Ledger.PostKeeps(s.books, p);
    assert s.payments[id := s.payments[id]] == s.payments;
    assert FindTransaction(s.books.txs, p.tx) == Some(t);
  }

  // A granted refund key changes nothing ever after, whoever uses it. It is answered with its refund exactly when the
  // same amount of the same payment is asked for and the payment is still PAID.
  lemma RefundReplaysLater(d: Desk, p: nat, amount: real, key: string, ops: seq<Op>, q: nat, other: real)
    requires RefundsOk(d.money) && RequestRefund(d.money, p, amount, key).1.Ok?
    ensures var (t, r) := RequestRefund(d.money, p, amount, key);
      var later := Run(d.(money := t), ops).money;
      var (again, answer) := RequestRefund(later, q, other, key);
      && again == later && p < |later.payments|
      && (answer.Ok? <==> q == p && other == amount && later.payments[p].status == Paid) && (answer.Ok? ==> answer == r)
  {
    var (t, r) := RequestRefund(d.money, p, amount, key);
    var later := Run(d.(money := t), ops).money;
    RequestKeeps(d.money, p, amount, key);
    RunKeepsRefunds(d.(money := t), ops);
    RunFollows(d.(money := t), ops);
    assert SameRefund(t.refunds[r.value], later.refunds[r.value]);
    KnownKey(later, r.value, q, other);
  }

  lemma KnownKey(s: Money, k: nat, q: nat, other: real)
    requires RefundsOk(s) && k < |s.refunds|
    ensures var (again, answer) := RequestRefund(s, q, other, s.refunds[k].key);
      && again == s && (answer.Ok? ==> answer == Ok(k))
      && (answer.Ok? <==> other >= 0.000001 && q < |s.payments| && s.payments[q].status == Paid
                          && q == s.refunds[k].payment && other == s.refunds[k].amount)
  {
    assert FindRefund(s.refunds, s.refunds[k].key) == Some(k);
  }

  lemma {:induction false} RunKeepsRefunds(d: Desk, ops: seq<Op>)
    requires RefundsOk(d.money)
    ensures RefundsOk(Run(d, ops).money)
  {
    if ops != [] {
      RunKeepsRefunds(d, ops[..|ops| - 1]);
      StepKeepsRefunds(Run(d, ops[..|ops| - 1]), ops[|ops| - 1]);
    }
  }

  // Verification touches no amount, status or purchase.
  lemma VerifyingChangesNoSum(payments: seq<PaymentRow>, id: nat, purchase: Option<nat>, currency: string)
    requires id < |payments|
    ensures SumBy(payments[id := payments[id].(verified := true)], Received(purchase, currency))
         == SumBy(payments, Received(purchase, currency))
  {
    SumUpdate(payments, id, payments[id].(verified := true), Received(purchase, currency));
  }

  lemma CreditAgrees(payments: seq<PaymentRow>, id: nat, invoices: seq<Invoice>, purchase: Option<nat>)
    requires id < |payments|
    ensures CreditAll(payments[id := payments[id].(verified := true)], invoices, purchase)
         == CreditAll(payments, invoices, purchase)
  {
    forall k | 0 <= k < |invoices|
      ensures Credit(payments[id := payments[id].(verified := true)], invoices[k]) == Credit(payments, invoices[k])
    {
      VerifyingChangesNoSum(payments, id, invoices[k].purchase, invoices[k].currency);
    }
  }

  lemma CreditsCommute(payments: seq<PaymentRow>, invoices: seq<Invoice>, x: Option<nat>, y: Option<nat>)
    ensures CreditAll(payments, CreditAll(payments, invoices, x), y) ==
            CreditAll(payments, CreditAll(payments, invoices, y), x)
  {
  }

  lemma SettledTables(s: Money, id: nat, amount: real, currency: string, provider: string)
    requires Settle(s, id, amount, currency, provider).1.Ok?
    ensures id < |s.payments|
    ensures var t := Settle(s, id, amount, currency, provider).0;
      && t.payments == s.payments[id := s.payments[id].(verified := true)]
      && t.invoices == CreditAll(s.payments, s.invoices, s.payments[id].purchase)
  {
    CreditAgrees(s.payments, id, s.invoices, s.payments[id].purchase);
  }

  // Settling one payment does not keep another from settling.
  lemma StillSettles(s: Money, p: nat, amountP: real, currencyP: string, providerP: string,
                     q: nat, amountQ: real, currencyQ: string, providerQ: string)
    requires Settle(s, p, amountP, currencyP, providerP).1.Ok? && Settle(s, q, amountQ, currencyQ, providerQ).1.Ok?
    ensures Settle(Settle(s, p, amountP, currencyP, providerP).0, q, amountQ, currencyQ, providerQ).1.Ok?
  {
    var books := Settle(s, p, amountP, currencyP, providerP).0.books;
    Posted(books, Payables.SettlementPosting(q, providerQ, currencyQ, amountQ));
  }

  lemma Posted(b: Books, p: Posting)
    ensures FindTransaction(Post(b, p).txs, p.tx).Some?
  {
    if FindTransaction(b.txs, p.tx).None? { assert Post(b, p).txs[|b.txs|] == p.tx; }
  }

  // The invoice holds what was received for it, up to its total, and says so.
  ghost predicate Square(s: Money, i: Invoice) {
    var received := SumBy(s.payments, Received(i.purchase, i.currency));
    && i.amountPaid <= i.total && i.amountPaid <= received && (i.amountPaid == i.total || i.amountPaid == received)
    && (i.status == FullyPaid <== i.amountPaid == i.total)
    && (i.status == PartlyPaid <== 0.0 < i.amountPaid < i.total)
  }

  // Settlement squares every invoice of the payment's purchase that is not void and leaves the others as they were.
  lemma SettlementSquaresInvoices(s: Money, id: nat, amount: real, currency: string, provider: string, k: nat)
    requires Settle(s, id, amount, currency, provider).1.Ok? && k < |s.invoices|
    ensures var t := Settle(s, id, amount, currency, provider).0;
      if PaysFor(s.invoices[k], s.payments[id].purchase) then Square(t, t.invoices[k])
      else t.invoices[k] == s.invoices[k]
  {
    VerifyingChangesNoSum(s.payments, id, s.invoices[k].purchase, s.invoices[k].currency);
  }

  // The order in which two payments settle does not show in the payments or the invoices.
  lemma SettlementsCommute(s: Money, p: nat, q: nat, amountP: real, amountQ: real, currencyP: string, currencyQ: string,
                           providerP: string, providerQ: string)
    requires Settle(s, p, amountP, currencyP, providerP).1.Ok? && Settle(s, q, amountQ, currencyQ, providerQ).1.Ok?
    ensures var pq := Settle(Settle(s, p, amountP, currencyP, providerP).0, q, amountQ, currencyQ, providerQ).0;
      var qp := Settle(Settle(s, q, amountQ, currencyQ, providerQ).0, p, amountP, currencyP, providerP).0;
      pq.payments == qp.payments && pq.invoices == qp.invoices
  {
    var sp := Settle(s, p, amountP, currencyP, providerP).0;
    var sq := Settle(s, q, amountQ, currencyQ, providerQ).0;
    SettledTables(s, p, amountP, currencyP, providerP);
    SettledTables(s, q, amountQ, currencyQ, providerQ);
    StillSettles(s, p, amountP, currencyP, providerP, q, amountQ, currencyQ, providerQ);
    StillSettles(s, q, amountQ, currencyQ, providerQ, p, amountP, currencyP, providerP);
    SettledTables(sp, q, amountQ, currencyQ, providerQ);
    SettledTables(sq, p, amountP, currencyP, providerP);
    CreditAgrees(s.payments, p, sp.invoices, s.payments[q].purchase);
    CreditAgrees(s.payments, q, sq.invoices, s.payments[p].purchase);
    CreditsCommute(s.payments, s.invoices, s.payments[p].purchase, s.payments[q].purchase);
  }

  // ---- Invoice lines ----

  ghost predicate HasLine(s: Money, i: nat) { exists l :: 0 <= l < |s.lines| && s.lines[l].invoice == i }

  predicate Placed(s: Money, line: InvoiceLine) { line.invoice < |s.invoices| && line.total >= 0.0 }

  ghost predicate LinesOk(d: Desk) {
    && (forall l :: 0 <= l < |d.money.lines| ==> Placed(d.money, d.money.lines[l]))
    && (forall k :: 0 <= k < |d.requests| ==> Placed(d.money, d.requests[k].line))
  }

  lemma LineIsNonNegative(i: nat, quantity: real, price: real, tax: real)
    requires quantity >= 0.0 && price >= 0.0 && tax >= 0.0
    ensures LineOf(i, quantity, price, tax).total >= 0.0
  {
    NonNegativeProduct(quantity, price);
    RoundNonNegative(quantity * price, 1000000);
    RoundNonNegative(RoundTo(quantity * price, 1000000) + tax, 1000000);
  }

  lemma StepKeepsLines(d: Desk, op: Op)
    requires LinesOk(d)
    ensures LinesOk(Step(d, op)) && |Step(d, op).money.invoices| >= |d.money.invoices|
  {
    match op
    case Lining(i, quantity, price, tax) =>
      if LineObjection(d.money, i, quantity, price, tax).None? { LineIsNonNegative(i, quantity, price, tax); }
    case Going(_) =>
    case _ => assert Change(d.money, op).lines == d.money.lines;
  }

  lemma {:induction false} RunKeepsLines(ops: seq<Op>)
    ensures LinesOk(Run(EMPTY, ops))
  {
    if ops != [] {
      RunKeepsLines(ops[..|ops| - 1]);
      StepKeepsLines(Run(EMPTY, ops[..|ops| - 1]), ops[|ops| - 1]);
    }
  }

  // The operation is a request's INSERT, or the UPDATE of the invoice's total.
  predicate Inserts(d: Desk, op: Op) {
    op.Going? && op.request < |d.requests| && d.requests[op.request].pc == Inserting
  }

  predicate Totals(d: Desk, op: Op, i: nat) {
    op.Going? && op.request < |d.requests| && d.requests[op.request].pc == Totaling
    && d.requests[op.request].line.invoice == i
  }

  // The invoice's total has been written from its lines.
  ghost predicate Totaled(ops: seq<Op>, i: nat) {
    ops != [] && (Totaled(ops[..|ops| - 1], i) || Totals(Run(EMPTY, ops[..|ops| - 1]), ops[|ops| - 1], i))
  }

  // The lines inserted since it last was.
  ghost function Uncounted(ops: seq<Op>, i: nat): real {
    if ops == [] then 0.0
    else
      var before, op := Run(EMPTY, ops[..|ops| - 1]), ops[|ops| - 1];
      if Totals(before, op, i) then 0.0
      else Uncounted(ops[..|ops| - 1], i)
           + if Inserts(before, op) then TotalIn(i)(before.requests[op.request].line) else 0.0
  }

  lemma {:induction false} UncountedIsNonNegative(ops: seq<Op>, i: nat)
    ensures Uncounted(ops, i) >= 0.0
  {
    if ops != [] {
      UncountedIsNonNegative(ops[..|ops| - 1], i);
      RunKeepsLines(ops[..|ops| - 1]);
    }
  }

  lemma OtherStepsKeepTotals(d: Desk, op: Op, i: nat)
    requires !Inserts(d, op) && !Totals(d, op, i) && i < |d.money.invoices|
    ensures var t := Step(d, op).money;
      t.lines == d.money.lines && i < |t.invoices| && t.invoices[i].total == d.money.invoices[i].total
  {
  }

  // In every run the lines of an invoice sum to its total, once that has been written, and what was inserted since.
  lemma {:induction false} LinesAreTotalAndUncounted(ops: seq<Op>, i: nat)
    ensures var s := Run(EMPTY, ops).money;
      && (Totaled(ops, i) ==> i < |s.invoices|)
      && SumBy(s.lines, TotalIn(i)) == (if Totaled(ops, i) then s.invoices[i].total else 0.0) + Uncounted(ops, i)
  {
    if ops != [] {
      var front, op := ops[..|ops| - 1], ops[|ops| - 1];
      var before := Run(EMPTY, front);
      LinesAreTotalAndUncounted(front, i);
      RunKeepsLines(front);
      if Inserts(before, op) {
        SumAppend(before.money.lines, before.requests[op.request].line, TotalIn(i));
      } else {
        LinesStay(before, op);
        if !Totals(before, op, i) && i < |before.money.invoices| { OtherStepsKeepTotals(before, op, i); }
      }
    }
  }

  lemma LinesStay(d: Desk, op: Op)
    requires !Inserts(d, op)
    ensures Step(d, op).money.lines == d.money.lines
  {
  }

  // A written total is that of the lines exactly when nothing is left uncounted, and never above it.
  lemma TotalsFollowLinesIff(ops: seq<Op>, i: nat)
    requires Totaled(ops, i)
    ensures var s := Run(EMPTY, ops).money;
      && i < |s.invoices| && s.invoices[i].total <= SumBy(s.lines, TotalIn(i))
      && (s.invoices[i].total == SumBy(s.lines, TotalIn(i)) <==> Uncounted(ops, i) == 0.0)
  {
    LinesAreTotalAndUncounted(ops, i);
    UncountedIsNonNegative(ops, i);
  }

  // A request for the invoice stands between its INSERT and its UPDATE.
  ghost predicate Halfway(d: Desk, i: nat) {
    exists k :: 0 <= k < |d.requests| && d.requests[k].pc == Totaling && d.requests[k].line.invoice == i
  }

  lemma {:induction false} UncountedNeedsRequest(ops: seq<Op>, i: nat)
    requires Uncounted(ops, i) != 0.0 || (HasLine(Run(EMPTY, ops).money, i) && !Totaled(ops, i))
    ensures Halfway(Run(EMPTY, ops), i)
  {
    if ops != [] {
      var front, op := ops[..|ops| - 1], ops[|ops| - 1];
      var before, after := Run(EMPTY, front), Run(EMPTY, ops);
      if Inserts(before, op) && before.requests[op.request].line.invoice == i {
        assert after.requests[op.request].pc == Totaling;
      } else {
        HasLineBefore(before, op, i);
        UncountedNeedsRequest(front, i);
        var k :| 0 <= k < |before.requests| && before.requests[k].pc == Totaling
                 && before.requests[k].line.invoice == i;
        assert after.requests[k] == before.requests[k];
      }
    }
  }

  lemma HasLineBefore(d: Desk, op: Op, i: nat)
    requires !(Inserts(d, op) && d.requests[op.request].line.invoice == i)
    ensures HasLine(Step(d, op).money, i) ==> HasLine(d.money, i)
  {
    var t := Step(d, op).money;
    if HasLine(t, i) {
      var l :| 0 <= l < |t.lines| && t.lines[l].invoice == i;
      assert l < |d.money.lines| && d.money.lines[l] == t.lines[l];
    }
  }

  // So in every run an invoice with lines totals them, unless a request stopped, or has yet to go on, in between.
  lemma TotalsFollowLines(ops: seq<Op>, i: nat)
    requires var d := Run(EMPTY, ops); i < |d.money.invoices| && HasLine(d.money, i) && !Halfway(d, i)
    ensures var s := Run(EMPTY, ops).money; s.invoices[i].total == SumBy(s.lines, TotalIn(i))
  {
    if !Totaled(ops, i) || Uncounted(ops, i) != 0.0 { UncountedNeedsRequest(ops, i); }
    TotalsFollowLinesIff(ops, i);
  }

  // Writing a total keeps the amount paid within it exactly when it had been written before or the lines cover what was
  // paid.
  lemma LineKeepsPaidWithinTotal(ops: seq<Op>, i: nat)
    requires var s := Run(EMPTY, ops).money; i < |s.invoices| && s.invoices[i].amountPaid <= s.invoices[i].total
    ensures var s := Run(EMPTY, ops).money;
      var after := WriteTotal(s, i).invoices[i];
      after.amountPaid <= after.total <==>
        Totaled(ops, i) || s.invoices[i].amountPaid <= SumBy(s.lines, TotalIn(i))
  {
    if Totaled(ops, i) { TotalsFollowLinesIff(ops, i); }
  }

  // ---- Amount paid and total over whole runs ----

  ghost predicate Within(s: Money) {
    forall i :: 0 <= i < |s.invoices| ==> s.invoices[i].amountPaid <= s.invoices[i].total
  }

  // At every moment of the run.
  ghost predicate AlwaysWithin(ops: seq<Op>) {
    Within(Run(EMPTY, ops).money) && (ops == [] || AlwaysWithin(ops[..|ops| - 1]))
  }

  // The operation writes an invoice's first total, and its lines do not cover what was paid.
  ghost predicate Undercuts(ops: seq<Op>, op: Op) {
    var d := Run(EMPTY, ops);
    && op.Going? && op.request < |d.requests| && d.requests[op.request].pc == Totaling
    && var i := d.requests[op.request].line.invoice;
       !Totaled(ops, i) && i < |d.money.invoices| && d.money.invoices[i].amountPaid > SumBy(d.money.lines, TotalIn(i))
  }

  ghost predicate CoveredRun(ops: seq<Op>) {
    ops == [] || (CoveredRun(ops[..|ops| - 1]) && !Undercuts(ops[..|ops| - 1], ops[|ops| - 1]))
  }

  lemma ChangeKeepsWithin(s: Money, op: Op)
    requires Within(s)
    ensures Within(Change(s, op))
  {
    if op.Invoicing? && op.subtotal >= 0.0 && op.tax >= 0.0 { RoundNonNegative(op.subtotal + op.tax, 100); }
  }

  lemma StepKeepsWithinIff(ops: seq<Op>, op: Op)
    requires Within(Run(EMPTY, ops).money)
    ensures Within(Step(Run(EMPTY, ops), op).money) <==> !Undercuts(ops, op)
  {
    var d := Run(EMPTY, ops);
    match op
    case Lining(_, _, _, _) =>
    case Going(k) =>
      if k < |d.requests| && d.requests[k].pc == Totaling {
        var i := d.requests[k].line.invoice;
        RunKeepsLines(ops);
        assert Placed(d.money, d.requests[k].line);
        LineKeepsPaidWithinTotal(ops, i);
        assert Step(d, op).money.invoices[i] == WriteTotal(d.money, i).invoices[i];
      }
    case _ => ChangeKeepsWithin(d.money, op);
  }

  // The amount paid of every invoice stays within its total throughout a run exactly when no first total was written
  // that the lines so far left below what was paid.
  lemma {:induction false} PaidStaysWithinIff(ops: seq<Op>)
    ensures AlwaysWithin(ops) <==> CoveredRun(ops)
  {
    if ops != [] {
      PaidStaysWithinIff(ops[..|ops| - 1]);
      if AlwaysWithin(ops[..|ops| - 1]) { StepKeepsWithinIff(ops[..|ops| - 1], ops[|ops| - 1]); }
    }
  }

  // ---- Runs outside the conditions ----

  lemma RunMore(d: Desk, ops: seq<Op>, op: Op)
    ensures Run(d, ops + [op]) == Step(Run(d, ops), op)
  {
    assert (ops + [op])[..|ops|] == ops;
  }

  const INVOICED := [Invoicing("INV-1", Some(0), "TZS", 100.0, 0.0)]
  const CHECKED := INVOICED + [Lining(0, 1.0, 10.0, 0.0)]
  const TEN := InvoiceLine(0, 10.0, 0.0, 10.0)

  function Bill(total: real, paid: real, status: InvoiceStatus): Invoice {
    Invoice("INV-1", Some(0), "TZS", total, paid, status)
  }

  lemma TenIsTen()
    ensures LineOf(0, 1.0, 10.0, 0.0) == TEN && SumBy([TEN], TotalIn(0)) == 10.0
  {
    RoundWhole(10, 1000000);
    SumAppend([], TEN, TotalIn(0));
    assert [] + [TEN] == [TEN];
  }

  lemma BillIssued()
    ensures Run(EMPTY, INVOICED) == EMPTY.(money := EMPTY.money.(invoices := [Bill(100.0, 0.0, Issued)]))
  {
    RunMore(EMPTY, [], Invoicing("INV-1", Some(0), "TZS", 100.0, 0.0));
    assert [] + INVOICED == INVOICED;
    RoundWhole(100, 100);
  }

  lemma RequestChecked(d: Desk, i: nat, quantity: real, price: real, tax: real, line: InvoiceLine)
    requires LineObjection(d.money, i, quantity, price, tax).None? && LineOf(i, quantity, price, tax) == line
    ensures Step(d, Lining(i, quantity, price, tax)) == d.(requests := d.requests + [LineRequest(line, Inserting)])
  {
  }

  lemma LineChecked()
    ensures var d := Run(EMPTY, CHECKED);
      && d.money == EMPTY.money.(invoices := [Bill(100.0, 0.0, Issued)]) && d.requests == [LineRequest(TEN, Inserting)]
  {
    BillIssued();
    TenIsTen();
    RunMore(EMPTY, INVOICED, Lining(0, 1.0, 10.0, 0.0));
    RequestChecked(Run(EMPTY, INVOICED), 0, 1.0, 10.0, 0.0, TEN);
  }

  // A request that is cut off after its INSERT leaves a line of 10 on a total of 100.
  lemma CutRequestLeavesTotal()
    ensures var d := Run(EMPTY, CHECKED + [Going(0)]);
      && d.money.invoices == [Bill(100.0, 0.0, Issued)] && d.money.lines == [TEN] && HasLine(d.money, 0)
      && SumBy(d.money.lines, TotalIn(0)) == 10.0 && Halfway(d, 0)
  {
    LineChecked();
    TenIsTen();
    RunMore(EMPTY, CHECKED, Going(0));
    var d := Run(EMPTY, CHECKED + [Going(0)]);
    assert d.money.lines[0].invoice == 0 && d.requests[0].pc == Totaling;
  }

  function PaymentOf(amount: real, verified: bool): PaymentRow {
    PaymentRow(Some(0), "manual", amount, "TZS", Paid, verified)
  }

  // The payment of the invoice's purchase, and its settlement.
  function Settlement(amount: real): seq<Op> {
    [Paying(PaymentOf(amount, false)), Settling(0, amount, "TZS", "manual")]
  }

  lemma SettledBill(d: Desk, amount: real)
    requires d.money.payments == [] && d.money.books == EMPTY.money.books
    requires d.money.invoices == [Bill(100.0, 0.0, Issued)] && 0.0 < amount <= 100.0
    ensures var t := Run(d, Settlement(amount));
      && t.money.invoices == [Bill(100.0, amount, if amount == 100.0 then FullyPaid else PartlyPaid)]
      && t.money.lines == d.money.lines && t.requests == d.requests
  {
    var paying, settling := Settlement(amount)[0], Settlement(amount)[1];
    RunMore(d, [], paying);
    RunMore(d, [paying], settling);
    assert [] + [paying] == [paying] && [paying] + [settling] == Settlement(amount);
    var paid := Step(d, paying);
    assert paid.money.payments == [PaymentOf(amount, false)];
    CreditedBill(paid.money, amount);
  }

  lemma CreditedBill(s: Money, amount: real)
    requires s.payments == [PaymentOf(amount, false)] && s.invoices == [Bill(100.0, 0.0, Issued)]
    requires 0.0 < amount <= 100.0
    ensures Settle(s, 0, amount, "TZS", "manual").0.invoices
         == [Bill(100.0, amount, if amount == 100.0 then FullyPaid else PartlyPaid)]
  {
    var payments := [PaymentOf(amount, true)];
    assert s.payments[0 := PaymentOf(amount, true)] == payments;
    SumAppend([], PaymentOf(amount, true), Received(Some(0), "TZS"));
    assert [] + payments == payments;
    assert SumBy(payments, Received(Some(0), "TZS")) == amount;
    assert CreditAll(payments, s.invoices, Some(0)) == [Credit(payments, s.invoices[0])];
  }

  lemma {:induction false} RunConcat(d: Desk, ops: seq<Op>, more: seq<Op>)
    ensures Run(d, ops + more) == Run(Run(d, ops), more)
  {
    if more == [] {
      assert ops + more == ops;
    } else {
      RunConcat(d, ops, more[..|more| - 1]);
      assert (ops + more)[..|ops + more| - 1] == ops + more[..|more| - 1];
    }
  }

  // A settlement between a request's check and its INSERT puts a line on a PAID invoice, which the check refuses.
  lemma LateLineOnPaidInvoice()
    ensures var d := Run(EMPTY, CHECKED + Settlement(100.0) + [Going(0)]);
      && d.money.invoices == [Bill(100.0, 100.0, FullyPaid)] && d.money.lines == [TEN]
      && LineObjection(Run(EMPTY, CHECKED + Settlement(100.0)).money, 0, 1.0, 10.0, 0.0) == Some(Conflict)
  {
    LineChecked();
    RunConcat(EMPTY, CHECKED, Settlement(100.0));
    SettledBill(Run(EMPTY, CHECKED), 100.0);
    RunMore(EMPTY, CHECKED + Settlement(100.0), Going(0));
  }

  // A purchase has 50 paid on its invoice of 100, and then the invoice gets a first line of 10.
  lemma FirstLineCanUndercutPayment()
    ensures var ops := CHECKED + Settlement(50.0) + [Going(0)] + [Going(0)];
      && Run(EMPTY, ops).money.invoices == [Bill(10.0, 50.0, PartlyPaid)] && !CoveredRun(ops)
  {
    var settled := CHECKED + Settlement(50.0);
    var ops := settled + [Going(0)] + [Going(0)];
    LineChecked();
    RunConcat(EMPTY, CHECKED, Settlement(50.0));
    SettledBill(Run(EMPTY, CHECKED), 50.0);
    RunMore(EMPTY, settled, Going(0));
    RunMore(EMPTY, settled + [Going(0)], Going(0));
    TenIsTen();
    assert Run(EMPTY, ops).money.invoices[0].amountPaid > Run(EMPTY, ops).money.invoices[0].total;
    PaidStaysWithinIff(ops);
  }
}
