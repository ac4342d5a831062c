// Whether a completed renewal has been paid for. The worker that confirms a renewal looks its debit up, or enters it,
// and never its refund; a renewal that was refunded and is claimed again finds its old debit and completes.
module SagaPaid {
  import opened Common
  import opened Wallets
  import opened Saga
  import opened SagaLaws

  // About to complete a renewal it confirmed, rather than found settled.
  predicate Confirmed(x: Worker) { x.pc == Complete && x.debited }

  predicate Refunded(s: Commerce, execution: string) { FindEntry(s.entries, RefundKey(execution)).Some? }

  ghost predicate Paid(s: Commerce, execution: string) { Covered(s, execution) && !Refunded(s, execution) }

  // The worker completes a renewal it confirmed, whether or not it learns so.
  predicate Completes(w: World, op: Op) {
    op.Work? && op.worker < |w.workers| && Confirmed(w.workers[op.worker]) && (op.answer.ok || op.answer.applied)
  }

  // ---- How a confirmed renewal comes to be refunded ----

  predicate IsNew(s: Commerce, customer: nat, d: EntryInput) {
    AddEntry(s, customer, d).1 == Ok(EntryAdded(false, |s.entries|))
  }

  // The operation enters the execution's refund.
  predicate EntersRefund(w: World, op: Op, execution: string) {
    match op
    case Manual(customer, d) => d.key == RefundKey(execution) && IsNew(w.db, customer, d)
    case Work(i, a) =>
      && i < |w.workers| && w.workers[i].pc == RefundWallet && w.workers[i].execution == execution
      && (a.ok || a.applied)
      && var x := w.workers[i];
         IsNew(w.db, x.customer, RefundInput(x.execution, x.purchase, x.amount, x.currency))
    case Compensate(i, ok, applied, _) =>
      && i < |w.comps| && w.comps[i].pc == Compensating && w.comps[i].execution == execution && (ok || applied)
      && var c := w.comps[i];
         IsNew(w.db, c.customer, RefundInput(c.execution, Some(c.purchase), c.amount, c.currency))
    case _ => false
  }

  // Worker i confirms a renewal that has been refunded, or has confirmed it and the refund is entered now.
  predicate Unpays(w: World, op: Op, i: nat) {
    && i < |w.workers|
    && var x := w.workers[i];
       || (op.Work? && op.worker == i && x.pc == Confirm && op.answer.ok && Refunded(w.db, x.execution))
       || (Confirmed(x) && EntersRefund(w, op, x.execution))
  }

  ghost predicate Unpaid(ops: seq<Op>, i: nat) {
    ops != [] && (Unpaid(ops[..|ops| - 1], i) || Unpays(Run(START, ops[..|ops| - 1]), ops[|ops| - 1], i))
  }

  lemma AddedKey(s: Commerce, customer: nat, d: EntryInput, key: string)
    ensures FindEntry(AddEntry(s, customer, d).0.entries, key).Some?
       <==> FindEntry(s.entries, key).Some? || (d.key == key && IsNew(s, customer, d))
  {
    var t := AddEntry(s, customer, d).0;
    if IsNew(s, customer, d) {
      assert t.entries[|s.entries|].key == d.key;
      assert forall k :: 0 <= k < |s.entries| ==> t.entries[k] == s.entries[k];
    }
  }

  lemma DebitedKey(s: Commerce, x: Worker, key: string)
    requires x.purchase.Some? && key != DebitKey(x.execution)
    ensures var t := Debit(s, x.customer, x.amount, x.currency, x.purchase.value, x.execution).0;
      FindEntry(t.entries, key).Some? <==> FindEntry(s.entries, key).Some?
  {
    var t := Debit(s, x.customer, x.amount, x.currency, x.purchase.value, x.execution).0;
    if t != s { assert forall k :: 0 <= k < |s.entries| ==> t.entries[k] == s.entries[k]; }
  }

  lemma QuietWork(s: Commerce, x: Worker, a: Answer)
    requires x.pc != RefundWallet && !(x.pc == DebitWallet && x.purchase.Some?)
    ensures WorkDb(s, x, a).entries == s.entries
  {
  }

  lemma RefundKeysTell(d: string, e: string)
    ensures RefundKey(d) == RefundKey(e) <==> d == e
  {
    KeysSeparate(d, e);
  }

  // An entry under one execution's refund key is another's refund exactly when the executions are the same.
  lemma AddedRefund(s: Commerce, customer: nat, d: EntryInput, owner: string, execution: string)
    requires d.key == RefundKey(owner)
    ensures Refunded(AddEntry(s, customer, d).0, execution)
       <==> Refunded(s, execution) || (owner == execution && IsNew(s, customer, d))
  {
    RefundKeysTell(owner, execution);
    AddedKey(s, customer, d, RefundKey(execution));
  }

  lemma RefundingRefunds(w: World, i: nat, a: Answer, execution: string)
    requires i < |w.workers| && w.workers[i].pc == RefundWallet
    ensures Refunded(WorkDb(w.db, w.workers[i], a), execution)
       <==> Refunded(w.db, execution) || EntersRefund(w, Work(i, a), execution)
  {
    var x := w.workers[i];
    AddedRefund(w.db, x.customer, RefundInput(x.execution, x.purchase, x.amount, x.currency), x.execution, execution);
  }

  lemma WorkRefunds(w: World, i: nat, a: Answer, execution: string)
    requires i < |w.workers|
    ensures Refunded(WorkStep(w, i, a).db, execution)
       <==> Refunded(w.db, execution) || EntersRefund(w, Work(i, a), execution)
  {
    var x := w.workers[i];
    if x.pc == RefundWallet {
      RefundingRefunds(w, i, a, execution);
    } else if x.pc == DebitWallet && x.purchase.Some? {
      assert RefundKey(execution) != DebitKey(x.execution) by { KeysSeparate(execution, x.execution); }
      DebitedKey(w.db, x, RefundKey(execution));
    } else {
      QuietWork(w.db, x, a);
    }
  }

  lemma CompRefunds(w: World, i: nat, ok: bool, applied: bool, now: int, execution: string)
    requires i < |w.comps|
    ensures Refunded(CompStep(w, i, ok, ok || applied, now).db, execution)
       <==> Refunded(w.db, execution) || EntersRefund(w, Compensate(i, ok, applied, now), execution)
  {
    var c := w.comps[i];
    if c.pc == Compensating {
      var d := RefundInput(c.execution, Some(c.purchase), c.amount, c.currency);
      AddedRefund(w.db, c.customer, d, c.execution, execution);
    }
  }

  // A step enters an execution's refund exactly when EntersRefund says so.
  lemma StepRefunds(w: World, op: Op, execution: string)
    ensures Refunded(Step(w, op).db, execution) <==> Refunded(w.db, execution) || EntersRefund(w, op, execution)
  {
    match op
    case Manual(customer, d) => AddedKey(w.db, customer, d, RefundKey(execution));
    case Work(i, a) => if i < |w.workers| { WorkRefunds(w, i, a, execution); }
    case Compensate(i, ok, applied, now) => if i < |w.comps| { CompRefunds(w, i, ok, applied, now, execution); }
    case _ => assert Step(w, op).db.entries == w.db.entries;
  }

  // ---- Workers on their way ----

  predicate Early(x: Worker) {
    x.pc in {ReadPlan, GetPurchase, KeepPurchase, FindDebit, CheckWallet, DebitWallet, Confirm}
  }

  // A worker is debited from its confirmation on, and not before.
  predicate Staged(x: Worker) { Early(x) ==> (x.debited <==> x.pc == Confirm) }

  ghost predicate AllStaged(w: World) { forall i :: 0 <= i < |w.workers| ==> Staged(w.workers[i]) }

  lemma WorkStages(s: Commerce, x: Worker, a: Answer, created: nat)
    requires Staged(x)
    ensures var y := WorkNext(s, x, a, created);
      && Staged(y) && (Early(y) ==> Early(x))
      && (Confirmed(y) ==> x.pc == Confirm && a.ok && y.execution == x.execution)
  {
  }

  lemma StepStages(w: World, op: Op, i: nat)
    requires AllStaged(w) && i < |Step(w, op).workers|
    ensures var y := Step(w, op).workers[i];
      && Staged(y)
      && (i < |w.workers| && !(op.Work? && op.worker == i) ==> y == w.workers[i])
      && (i >= |w.workers| ==> y.pc == ReadPlan)
  {
    match op
    case Work(j, a) => if j < |w.workers| { WorkStages(w.db, w.workers[j], a, |w.origins|); }
    case _ =>
  }

  lemma {:induction false} RunStages(ops: seq<Op>)
    ensures AllStaged(Run(START, ops))
  {
    if ops != [] {
      var before, op := Run(START, ops[..|ops| - 1]), ops[|ops| - 1];
      RunStages(ops[..|ops| - 1]);
      forall i | 0 <= i < |Run(START, ops).workers| ensures Staged(Run(START, ops).workers[i]) {
        StepStages(before, op, i);
      }
    }
  }

  // No renewal is unpaid before its worker has confirmed it.
  lemma {:induction false} EarlyIsNotUnpaid(ops: seq<Op>, i: nat)
    requires i >= |Run(START, ops).workers| || Early(Run(START, ops).workers[i])
    ensures !Unpaid(ops, i)
  {
    if ops != [] {
      var before, op := Run(START, ops[..|ops| - 1]), ops[|ops| - 1];
      RunStages(ops[..|ops| - 1]);
      WorkersStay(before, op);
      if i < |before.workers| {
        StepStages(before, op, i);
        if op.Work? && op.worker == i { WorkStages(before.db, before.workers[i], op.answer, |before.origins|); }
      }
      EarlyIsNotUnpaid(ops[..|ops| - 1], i);
    }
  }

  lemma WorkersStay(w: World, op: Op)
    ensures |Step(w, op).workers| >= |w.workers|
  {
  }

  // The refund of a confirmed renewal is entered exactly when it was before the confirmation or came in since.
  lemma {:induction false} ConfirmedUnpaidIff(ops: seq<Op>, i: nat)
    requires i < |Run(START, ops).workers| && Confirmed(Run(START, ops).workers[i])
    ensures Refunded(Run(START, ops).db, Run(START, ops).workers[i].execution) <==> Unpaid(ops, i)
  {
    var front, op := ops[..|ops| - 1], ops[|ops| - 1];
    var before := Run(START, front);
    RunStages(front);
    StepStages(before, op, i);
    StepRefunds(before, op, before.workers[i].execution);
    if op.Work? && op.worker == i {
      WorkStages(before.db, before.workers[i], op.answer, |before.origins|);
      EarlyIsNotUnpaid(front, i);
    } else {
      ConfirmedUnpaidIff(front, i);
    }
  }

  // ---- Completions ----

  // Each renewal the run completed after confirming it had its debit entered, and its refund key was free.
  ghost predicate CompletionsPaid(ops: seq<Op>) {
    ops == [] ||
    var w, op := Run(START, ops[..|ops| - 1]), ops[|ops| - 1];
    CompletionsPaid(ops[..|ops| - 1]) && (Completes(w, op) ==> Paid(w.db, w.workers[op.worker].execution))
  }

  // None of them was confirmed after its refund, or refunded between its confirmation and its completion.
  ghost predicate NoneUnpaid(ops: seq<Op>) {
    ops == [] ||
    var w, op := Run(START, ops[..|ops| - 1]), ops[|ops| - 1];
    NoneUnpaid(ops[..|ops| - 1]) && (Completes(w, op) ==> !Unpaid(ops[..|ops| - 1], op.worker))
  }

  // The debit of a completed renewal is always there; it has not been given back exactly when NoneUnpaid holds.
  lemma {:induction false} CompletionsArePaidIff(ops: seq<Op>)
    ensures CompletionsPaid(ops) <==> NoneUnpaid(ops)
  {
    if ops != [] {
      var front, op := ops[..|ops| - 1], ops[|ops| - 1];
      CompletionsArePaidIff(front);
      RunSafe(front);
      if Completes(Run(START, front), op) {
        assert WorkerSafe(Run(START, front).db, Run(START, front).workers[op.worker]);
        ConfirmedUnpaidIff(front, op.worker);
      }
    }
  }
}
