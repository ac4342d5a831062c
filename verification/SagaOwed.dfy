// A refund that could not be entered is recorded, once an execution, and stays on record as it was until it has been
// entered. Nothing here refers to how the row is written.
module SagaOwed {
  import opened Common
  import opened Wallets
  import opened Saga
  import opened SagaLaws
  import opened SagaPaid

  // The row says whom the worker owes what, and has not been tried.
  predicate Names(d: Debt, x: Worker) {
    && d.schedule == x.schedule && d.execution == x.execution && Some(d.purchase) == x.purchase
    && d.customer == x.customer && d.amount == x.amount && d.currency == x.currency && d.attempts == 0
  }

  // The row waits to be tried from now on.
  predicate Waits(d: Debt, now: int) { d.status == Pending && d.nextAttemptAt == now && d.updatedAt == now }

  // What never changes of a row.
  predicate SameClaim(d: Debt, e: Debt) {
    && d.schedule == e.schedule && d.execution == e.execution && d.purchase == e.purchase
    && d.customer == e.customer && d.amount == e.amount && d.currency == e.currency
  }

  ghost predicate OnRecord(s: Commerce, execution: string) {
    exists k :: 0 <= k < |s.debts| && s.debts[k].execution == execution
  }

  ghost predicate OnePerExecution(s: Commerce) {
    forall j, k :: 0 <= j < k < |s.debts| ==> s.debts[j].execution != s.debts[k].execution
  }

  // ---- The owe statement ----

  // A worker that owes has a purchase to owe for.
  ghost predicate OwersHavePurchase(w: World) {
    forall i :: 0 <= i < |w.workers| && w.workers[i].pc in {CancelPurchase, RefundWallet, OweRefund} ==>
      w.workers[i].purchase.Some?
  }

  lemma {:induction false} RunOwersHavePurchase(ops: seq<Op>)
    ensures OwersHavePurchase(Run(START, ops))
  {
    if ops != [] {
      var before, op := Run(START, ops[..|ops| - 1]), ops[|ops| - 1];
      RunOwersHavePurchase(ops[..|ops| - 1]);
      match op
      case Work(i, a) => if i < |before.workers| { WorkerKeepsPurchase(before, i, a); }
      case _ =>
    }
  }

  lemma WorkerKeepsPurchase(w: World, i: nat, a: Answer)
    requires OwersHavePurchase(w) && i < |w.workers|
    ensures OwersHavePurchase(WorkStep(w, i, a))
  {
    var y := WorkNext(w.db, w.workers[i], a, |w.origins|);
    assert y.pc in {CancelPurchase, RefundWallet, OweRefund} ==> y.purchase.Some?;
    assert WorkStep(w, i, a).workers == w.workers[i := y];
  }

  // Whenever the statement takes effect, known to the worker or not, the execution has a row that waits; a new one
  // names the worker's claim, a known one keeps its own, and no other row is touched.
  lemma OweRecords(ops: seq<Op>, i: nat, a: Answer)
    requires i < |Run(START, ops).workers| && Run(START, ops).workers[i].pc == OweRefund && (a.ok || a.applied)
    ensures var w := Run(START, ops);
      var s, t, x := w.db, Step(w, Work(i, a)).db, w.workers[i];
      && (exists k :: 0 <= k < |t.debts| && t.debts[k].execution == x.execution && Waits(t.debts[k], a.now)
            && (if OnRecord(s, x.execution) then k < |s.debts| && SameClaim(t.debts[k], s.debts[k])
                                                 && t.debts[k].attempts == s.debts[k].attempts
                else Names(t.debts[k], x)))
      && |s.debts| <= |t.debts|
      && (forall j :: 0 <= j < |s.debts| && s.debts[j].execution != x.execution ==> t.debts[j] == s.debts[j])
  {
    var w := Run(START, ops);
    var s, t, x := w.db, Step(w, Work(i, a)).db, w.workers[i];
    RunOwersHavePurchase(ops);
    var found := FindDebt(s.debts, x.execution);
    var k := if found.Some? then found.value else |s.debts|;
    assert t.debts[k].execution == x.execution && Waits(t.debts[k], a.now);
  }

  // ---- What later steps leave of a row ----

  ghost predicate KeepsRows(s: Commerce, t: Commerce) {
    && |s.debts| <= |t.debts|
    && (forall k :: 0 <= k < |s.debts| ==> SameClaim(t.debts[k], s.debts[k]))
  }

  lemma WorkKeepsRows(s: Commerce, x: Worker, a: Answer)
    requires OnePerExecution(s)
    ensures KeepsRows(s, WorkDb(s, x, a)) && OnePerExecution(WorkDb(s, x, a))
  {
    var t := WorkDb(s, x, a);
    if x.pc == OweRefund && t != s {
      var found := FindDebt(s.debts, x.execution);
      if found.Some? { assert t.debts == s.debts[found.value := t.debts[found.value]]; }
    } else {
      assert t.debts == s.debts;
    }
  }

  lemma SameRows(s: Commerce, t: Commerce)
    requires OnePerExecution(s) && |t.debts| == |s.debts| && KeepsRows(s, t)
    ensures OnePerExecution(t)
  {
  }

  lemma CompKeepsRows(s: Commerce, c: Compensator, applied: bool, now: int)
    requires OnePerExecution(s)
    ensures KeepsRows(s, CompDb(s, c, applied, now)) && OnePerExecution(CompDb(s, c, applied, now))
  {
    SameRows(s, CompDb(s, c, applied, now));
  }

  lemma StepKeepsRows(w: World, op: Op)
    requires OnePerExecution(w.db)
    ensures KeepsRows(w.db, Step(w, op).db) && OnePerExecution(Step(w, op).db)
  {
    match op
    case Work(i, a) => if i < |w.workers| { WorkKeepsRows(w.db, w.workers[i], a); }
    case Compensate(i, ok, applied, now) =>
      if i < |w.comps| { CompKeepsRows(w.db, w.comps[i], ok || applied, now); }
    case ReclaimOwed(_) => SameRows(w.db, Step(w, op).db);
    case ClaimOwed(_, _) => SameRows(w.db, Step(w, op).db);
    case _ => assert Step(w, op).db.debts == w.db.debts;
  }

  lemma {:induction false} RunKeepsRows(w: World, more: seq<Op>)
    requires OnePerExecution(w.db)
    ensures KeepsRows(w.db, Run(w, more).db) && OnePerExecution(Run(w, more).db)
  {
    if more != [] {
      RunKeepsRows(w, more[..|more| - 1]);
      StepKeepsRows(Run(w, more[..|more| - 1]), more[|more| - 1]);
    }
  }

  // ---- Resolved means refunded ----

  // A compensator works on the row of its execution, and closes it once the refund is in.
  predicate CompOk(s: Commerce, c: Compensator) {
    && c.debt < |s.debts| && s.debts[c.debt].execution == c.execution
    && (c.pc == Resolving ==> Refunded(s, c.execution))
  }

  ghost predicate ClosedRight(w: World) {
    && (forall k :: 0 <= k < |w.db.debts| && w.db.debts[k].status == Resolved ==>
          Refunded(w.db, w.db.debts[k].execution))
    && (forall i :: 0 <= i < |w.comps| ==> CompOk(w.db, w.comps[i]))
  }

  // Rows keep their execution, refund keys stay, and no row is resolved but by a compensator.
  ghost predicate Onward(s: Commerce, t: Commerce) {
    && KeepsRows(s, t)
    && (forall execution :: Refunded(s, execution) ==> Refunded(t, execution))
  }

  lemma StepOnward(w: World, op: Op)
    requires OnePerExecution(w.db)
    ensures Onward(w.db, Step(w, op).db)
  {
    StepKeepsRows(w, op);
    forall execution | Refunded(w.db, execution) ensures Refunded(Step(w, op).db, execution) {
      StepRefunds(w, op, execution);
    }
  }

  lemma OthersStayClosed(w: World, v: World)
    requires ClosedRight(w) && Onward(w.db, v.db)
    requires forall k :: 0 <= k < |v.db.debts| && v.db.debts[k].status == Resolved ==>
               k < |w.db.debts| && w.db.debts[k].status == Resolved
    requires v.comps == w.comps
    ensures ClosedRight(v)
  {
    forall k | 0 <= k < |v.db.debts| && v.db.debts[k].status == Resolved
      ensures Refunded(v.db, v.db.debts[k].execution)
    {
      assert SameClaim(v.db.debts[k], w.db.debts[k]);
    }
    forall i | 0 <= i < |v.comps| ensures CompOk(v.db, v.comps[i]) {
      assert CompOk(w.db, w.comps[i]) && SameClaim(v.db.debts[w.comps[i].debt], w.db.debts[w.comps[i].debt]);
    }
  }

  // The compensator that moves: its refund is in when it goes on to close the row.
  lemma MoverCloses(w: World, i: nat, ok: bool, applied: bool, now: int)
    requires ClosedRight(w) && i < |w.comps| && OnePerExecution(w.db)
    requires Onward(w.db, CompStep(w, i, ok, applied, now).db) && (ok ==> applied)
    ensures CompOk(CompStep(w, i, ok, applied, now).db, CompNext(w.db, w.comps[i], ok))
  {
    var c, t := w.comps[i], CompStep(w, i, ok, applied, now).db;
    assert CompOk(w.db, c) && SameClaim(t.debts[c.debt], w.db.debts[c.debt]);
    if c.pc == Compensating && CompNext(w.db, c, ok).pc == Resolving {
      AddedRefund(w.db, c.customer, RefundInput(c.execution, Some(c.purchase), c.amount, c.currency), c.execution,
                  c.execution);
      AddedOrKnown(w.db, c.customer, RefundInput(c.execution, Some(c.purchase), c.amount, c.currency));
    }
  }

  lemma AddedOrKnown(s: Commerce, customer: nat, d: EntryInput)
    requires AddEntry(s, customer, d).1.Ok?
    ensures IsNew(s, customer, d) || FindEntry(s.entries, d.key).Some?
  {
  }

  lemma CompStepCloses(w: World, i: nat, ok: bool, applied: bool, now: int)
    requires ClosedRight(w) && i < |w.comps| && OnePerExecution(w.db)
    requires Onward(w.db, CompStep(w, i, ok, applied, now).db) && (ok ==> applied)
    ensures ClosedRight(CompStep(w, i, ok, applied, now))
  {
    var v, c := CompStep(w, i, ok, applied, now), w.comps[i];
    assert CompOk(w.db, c);
    MoverCloses(w, i, ok, applied, now);
    forall k | 0 <= k < |v.db.debts| && v.db.debts[k].status == Resolved
      ensures Refunded(v.db, v.db.debts[k].execution)
    {
      assert SameClaim(v.db.debts[k], w.db.debts[k]);
      if w.db.debts[k].status != Resolved { assert c.pc == Resolving && k == c.debt; }
    }
    forall j | 0 <= j < |v.comps| && j != i ensures CompOk(v.db, v.comps[j]) {
      assert CompOk(w.db, w.comps[j]) && SameClaim(v.db.debts[w.comps[j].debt], w.db.debts[w.comps[j].debt]);
    }
  }

  lemma ClaimOwedCloses(w: World, k: nat, now: int)
    requires ClosedRight(w) && Onward(w.db, ClaimOwedStep(w, k, now).db)
    ensures ClosedRight(ClaimOwedStep(w, k, now))
  {
    var v := ClaimOwedStep(w, k, now);
    if v != w {
      OthersStayClosed(w, v.(comps := w.comps));
      assert v.comps[..|w.comps|] == w.comps;
    }
  }

  lemma WorkClosesNothing(s: Commerce, x: Worker, a: Answer)
    ensures var t := WorkDb(s, x, a);
      forall k :: 0 <= k < |t.debts| && t.debts[k].status == Resolved ==> k < |s.debts| && s.debts[k].status == Resolved
  {
  }

  lemma StepCloses(w: World, op: Op)
    requires ClosedRight(w) && OnePerExecution(w.db)
    ensures ClosedRight(Step(w, op))
  {
    StepOnward(w, op);
    match op
    case Compensate(i, ok, applied, now) => if i < |w.comps| { CompStepCloses(w, i, ok, ok || applied, now); }
    case ClaimOwed(k, now) => ClaimOwedCloses(w, k, now);
    case Work(i, a) =>
      if i < |w.workers| {
        WorkClosesNothing(w.db, w.workers[i], a);
        OthersStayClosed(w, Step(w, op));
      }
    case _ => OthersStayClosed(w, Step(w, op));
  }

  // In every run an execution has at most one row, and a row is RESOLVED only with the execution's refund entered.
  lemma {:induction false} ResolvedIsRefunded(ops: seq<Op>)
    ensures OnePerExecution(Run(START, ops).db) && ClosedRight(Run(START, ops))
  {
    if ops != [] {
      ResolvedIsRefunded(ops[..|ops| - 1]);
      StepKeepsRows(Run(START, ops[..|ops| - 1]), ops[|ops| - 1]);
      StepCloses(Run(START, ops[..|ops| - 1]), ops[|ops| - 1]);
    }
  }

  lemma {:induction false} RunConcat(w: World, ops: seq<Op>, more: seq<Op>)
    ensures Run(w, ops + more) == Run(Run(w, ops), more)
  {
    if more == [] {
      assert ops + more == ops;
    } else {
      RunConcat(w, ops, more[..|more| - 1]);
      assert (ops + more)[..|ops + more| - 1] == ops + more[..|more| - 1];
    }
  }

  // So a refund that could not be entered is never lost: from the owe statement on, at any later moment the execution
  // has one row, of the amount recorded, and that is still open unless the refund has been entered.
  lemma OwedUntilRefunded(ops: seq<Op>, i: nat, a: Answer, more: seq<Op>)
    requires i < |Run(START, ops).workers| && Run(START, ops).workers[i].pc == OweRefund && (a.ok || a.applied)
    requires !OnRecord(Run(START, ops).db, Run(START, ops).workers[i].execution)
    ensures var x, later := Run(START, ops).workers[i], Run(START, ops + [Work(i, a)] + more).db;
      && OnePerExecution(later)
      && exists k :: 0 <= k < |later.debts| && later.debts[k].execution == x.execution
                     && Some(later.debts[k].purchase) == x.purchase && later.debts[k].customer == x.customer
                     && later.debts[k].amount == x.amount && later.debts[k].currency == x.currency
                     && (later.debts[k].status == Resolved ==> Refunded(later, x.execution))
  {
    var w, op := Run(START, ops), Work(i, a);
    var x := w.workers[i];
    OweRecords(ops, i, a);
    assert (ops + [op])[..|ops|] == ops;
    var v := Run(START, ops + [op]);
    var k :| 0 <= k < |v.db.debts| && v.db.debts[k].execution == x.execution && Names(v.db.debts[k], x);
    ResolvedIsRefunded(ops + [op]);
    RunKeepsRows(v, more);
    RunConcat(START, ops + [op], more);
    ResolvedIsRefunded(ops + [op] + more);
    assert SameClaim(Run(v, more).db.debts[k], v.db.debts[k]);
  }

  // ---- Waiting longer ----

  // A failed try waits at least a minute and at most an hour, longer with every attempt, and the eighth is the last.
  lemma RetriesBackOff(s: Commerce, t: Commerce, k: nat, now: int)
    requires k < |s.debts| && k < |t.debts| && s.debts[k].attempts <= t.debts[k].attempts
    ensures var d, e := RetryDebt(s, k, now).debts[k], RetryDebt(t, k, now).debts[k];
      && SameClaim(d, s.debts[k]) && d.attempts == s.debts[k].attempts
      && now + 60 <= d.nextAttemptAt <= e.nextAttemptAt <= now + 3600
      && (d.attempts == 0 ==> d.nextAttemptAt == now + 60)
      && (1 <= d.attempts <= 30 ==> d.nextAttemptAt == now + 120 * d.attempts)
      && (d.attempts > 30 ==> d.nextAttemptAt == now + 3600)
      && d.status == if d.attempts >= 8 then GivenUp else Pending
  {
  }
}
