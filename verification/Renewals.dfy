// The loop bodies of processDueRenewals and reconcileRenewalCompensations as the service writes them, with their try
// and catch blocks, proved to take exactly the steps of the machines in Saga.
module Renewals {
  import opened Common
  import opened Wallets
  import opened Saga

  // The worker from its n-th statement on, each statement meeting its answer; created is the id of a new purchase.
  function Pass(s: Commerce, w: Worker, answers: seq<Answer>, n: nat, created: nat): (Commerce, Worker)
    requires n <= |answers|
    decreases |answers| - n
  {
    if n == |answers| || w.pc == Done then (s, w)
    else Pass(WorkDb(s, w, answers[n]), WorkNext(s, w, answers[n], created), answers, n + 1, created)
  }

  // A statement takes effect if it succeeds, or if its commit is hidden by an error.
  predicate Effective(a: Answer) { a.ok || a.applied }

  // Where a block of statements leaves the loop's variables; after is the step machine's worker then.
  datatype Progress = Progress(failed: bool, n: nat, after: Worker)

  // Reads the plan, finds or creates the purchase, and looks the debit up. Not failed, the worker is at Complete (the
  // purchase is already settled), at Confirm (already debited) or at CheckWallet.
  method Prepare(db: CommerceTables, x: Worker, answers: seq<Answer>, created: nat) returns (p: Progress)
    requires x.pc == ReadPlan && !x.debited && |answers| >= 4
    modifies db
    ensures p.n <= 4
    ensures Pass(old(db.Contents()), x, answers, 0, created) == Pass(db.Contents(), p.after, answers, p.n, created)
    ensures p.failed ==> p.after == Fail(p.after)
    ensures !p.failed ==> p.after.purchase.Some? && p.after.pc == if p.after.debited then Confirm else p.after.pc
    ensures !p.failed ==> p.after.pc in {Complete, Confirm, CheckWallet}
  {
    ghost var start := db.Contents();
    var plan := answers[0];
    if !plan.ok { return Progress(true, 1, Fail(x)); }
    var w := x.(amount := plan.price, currency := plan.currency, pc := GetPurchase);
    assert Pass(start, x, answers, 0, created) == Pass(db.Contents(), w, answers, 1, created);
    var purchase := answers[1];
    if !purchase.ok { return Progress(true, 2, Fail(w)); }
    var n := 2;
    if w.purchase.Some? {
      if purchase.settled { return Progress(false, 2, w.(pc := Complete)); }
      w := w.(pc := FindDebit);
    } else {
      w := w.(purchase := Some(created), pc := KeepPurchase);
      assert Pass(start, x, answers, 0, created) == Pass(db.Contents(), w, answers, 2, created);
      if Effective(answers[2]) { db.KeepPurchase(x.schedule, created); }
      if !answers[2].ok { return Progress(true, 3, Fail(w)); }
      w := w.(pc := FindDebit);
      n := 3;
    }
    assert Pass(start, x, answers, 0, created) == Pass(db.Contents(), w, answers, n, created);
    if !answers[n].ok { return Progress(true, n + 1, Fail(w)); }
    var prior := FindEntry(db.entries, DebitKey(x.execution));
    p := Progress(false, n + 1, w.(debited := prior.Some?, pc := if prior.Some? then Confirm else CheckWallet));
  }

  // The wallet is read, then read again under its lock and debited.
  method Charge(db: CommerceTables, w: Worker, answers: seq<Answer>, n: nat, created: nat) returns (p: Progress)
    requires w.pc == CheckWallet && w.purchase.Some? && n + 2 <= |answers|
    modifies db
    ensures p.n <= n + 2
    ensures Pass(old(db.Contents()), w, answers, n, created) == Pass(db.Contents(), p.after, answers, p.n, created)
    ensures p.after == if p.failed then Fail(w) else w.(debited := true, pc := Confirm)
  {
    ghost var start := db.Contents();
    var found := FindWallet(db.wallets, w.customer, w.currency);
    if !answers[n].ok || found.None? || !db.wallets[found.value].active || db.wallets[found.value].balance < w.amount {
      return Progress(true, n + 1, Fail(w));
    }
    var locking := w.(pc := DebitWallet);
    assert Pass(start, w, answers, n, created) == Pass(db.Contents(), locking, answers, n + 1, created);
    var r: Result<nat> := Err(Conflict);
    if Effective(answers[n + 1]) {
      r := db.DebitRenewal(w.customer, w.amount, w.currency, w.purchase.value, w.execution);
    }
    if !answers[n + 1].ok || r.Err? { return Progress(true, n + 2, Fail(w)); }
    p := Progress(false, n + 2, w.(debited := true, pc := Confirm));
  }

  // Confirms the purchase, unless it is settled, and completes the schedule.
  method Conclude(db: CommerceTables, w: Worker, answers: seq<Answer>, n: nat, created: nat) returns (p: Progress)
    requires w.pc in {Confirm, Complete} && n + 2 <= |answers|
    modifies db
    ensures p.n <= n + 2
    ensures Pass(old(db.Contents()), w, answers, n, created) == Pass(db.Contents(), p.after, answers, p.n, created)
    ensures p.after == if p.failed then Fail(w) else w.(pc := Done)
  {
    ghost var start := db.Contents();
    var k := n;
    if w.pc == Confirm {
      if !answers[k].ok { return Progress(true, k + 1, Fail(w)); }
      k := k + 1;
    }
    assert Pass(start, w, answers, n, created) == Pass(db.Contents(), w.(pc := Complete), answers, k, created);
    if Effective(answers[k]) { db.CompleteRenewal(w.schedule, answers[k].now); }
    if !answers[k].ok { return Progress(true, k + 1, Fail(w)); }
    p := Progress(false, k + 1, w.(pc := Done));
  }

  // Enters the refund, or records it as owed.
  method RefundOrOwe(db: CommerceTables, w: Worker, answers: seq<Answer>, n: nat, created: nat) returns (p: Progress)
    requires w.pc == RefundWallet && w.purchase.Some? && n + 2 <= |answers|
    modifies db
    ensures p.n <= n + 2
    ensures Pass(old(db.Contents()), w, answers, n, created) == Pass(db.Contents(), p.after, answers, p.n, created)
    ensures p.after == w.(pc := MarkFailed)
  {
    ghost var start := db.Contents();
    var r: Result<EntryAdded> := Err(Conflict);
    if Effective(answers[n]) {
      r := db.AddWalletEntry(w.customer, RefundInput(w.execution, w.purchase, w.amount, w.currency));
    }
    if answers[n].ok && r.Ok? { return Progress(true, n + 1, w.(pc := MarkFailed)); }
    assert Pass(start, w, answers, n, created) == Pass(db.Contents(), w.(pc := OweRefund), answers, n + 1, created);
    if Effective(answers[n + 1]) {
      db.RecordFailedRefund(Debt(w.schedule, w.execution, w.purchase.value, w.customer, w.amount, w.currency,
                                 Pending, 0,
                                 answers[n + 1].now, answers[n + 1].now));
    }
    p := Progress(true, n + 2, w.(pc := MarkFailed));
  }

  // The catch block of a debited renewal: unless the purchase turns out settled, cancel it and give back what its
  // newest PURCHASE entry says.
  method Compensate(db: CommerceTables, w: Worker, answers: seq<Answer>, n: nat, created: nat) returns (p: Progress)
    requires w.pc == ReadState && w.purchase.Some? && n + 4 <= |answers|
    modifies db
    ensures p.n <= n + 4
    ensures Pass(old(db.Contents()), w, answers, n, created) == Pass(db.Contents(), p.after, answers, p.n, created)
    ensures p.after.pc == MarkFailed && p.after.schedule == w.schedule
  {
    ghost var start := db.Contents();
    if !answers[n].ok || answers[n].settled { return Progress(true, n + 1, w.(pc := MarkFailed)); }
    var latest := Latest(db.entries, w.purchase.value);
    var amount, currency := 0.0, "TZS";
    if latest.Some? { amount, currency := db.entries[latest.value].amount, db.entries[latest.value].currency; }
    var x := w.(amount := amount, currency := currency, pc := CancelPurchase);
    assert Pass(start, w, answers, n, created) == Pass(db.Contents(), x, answers, n + 1, created);
    // A failing cancellation is ignored.
    if amount <= 0.0 { return Progress(true, n + 2, x.(pc := MarkFailed)); }
    x := x.(pc := RefundWallet);
    assert Pass(start, w, answers, n, created) == Pass(db.Contents(), x, answers, n + 2, created);
    p := RefundOrOwe(db, x, answers, n + 2, created);
  }

  // The catch block.
  method Recover(db: CommerceTables, w: Worker, answers: seq<Answer>, n: nat, created: nat)
    requires w == Fail(w) && n + 5 <= |answers|
    modifies db
    ensures db.Contents() == Pass(old(db.Contents()), w, answers, n, created).0
    ensures Pass(old(db.Contents()), w, answers, n, created).1.pc == Done
  {
    ghost var start := db.Contents();
    var p := Progress(true, n, w);
    if w.debited && w.purchase.Some? { p := Compensate(db, w, answers, n, created); }
    assert Pass(start, w, answers, n, created) == Pass(db.Contents(), p.after, answers, p.n, created);
    if Effective(answers[p.n]) { db.MarkRenewalFailed(p.after.schedule); }
  }

  // One claimed schedule, from try to catch.
  method ProcessRenewal(db: CommerceTables, x: Worker, answers: seq<Answer>, created: nat)
    requires x.pc == ReadPlan && !x.debited && |answers| >= 13
    modifies db
    ensures db.Contents() == Pass(old(db.Contents()), x, answers, 0, created).0
    ensures Pass(old(db.Contents()), x, answers, 0, created).1.pc == Done
  {
    ghost var start := db.Contents();
    var p := Prepare(db, x, answers, created);
    if !p.failed && p.after.pc == CheckWallet { p := Charge(db, p.after, answers, p.n, created); }
    if !p.failed { p := Conclude(db, p.after, answers, p.n, created); }
    assert Pass(start, x, answers, 0, created) == Pass(db.Contents(), p.after, answers, p.n, created);
    if p.failed { Recover(db, p.after, answers, p.n, created); }
  }

  // ---- The compensation worker ----

  function CompPass(s: Commerce, c: Compensator, answers: seq<Answer>, n: nat): (Commerce, Compensator)
    requires n <= |answers|
    decreases |answers| - n
  {
    if n == |answers| || c.pc == Settled then (s, c)
    else CompPass(CompDb(s, c, Effective(answers[n]), answers[n].now), CompNext(s, c, answers[n].ok), answers, n + 1)
  }

  method ProcessCompensation(db: CommerceTables, c: Compensator, answers: seq<Answer>)
    requires c.pc == Compensating && c.debt < |db.debts| && |answers| >= 3
    modifies db
    ensures db.Contents() == CompPass(old(db.Contents()), c, answers, 0).0
    ensures CompPass(old(db.Contents()), c, answers, 0).1.pc == Settled
  {
    ghost var start := db.Contents();
    var r: Result<EntryAdded> := Err(Conflict);
    if Effective(answers[0]) {
      r := db.AddWalletEntry(c.customer, RefundInput(c.execution, Some(c.purchase), c.amount, c.currency));
    }
    var n := 1;
    if answers[0].ok && r.Ok? {
      assert CompPass(start, c, answers, 0) == CompPass(db.Contents(), c.(pc := Resolving), answers, 1);
      if Effective(answers[1]) { db.SettleDebt(c.debt, answers[1].now); }
      if answers[1].ok {
        assert CompPass(start, c, answers, 0) == CompPass(db.Contents(), c.(pc := Settled), answers, 2);
        return;
      }
      n := 2;
    }
    assert CompPass(start, c, answers, 0) == CompPass(db.Contents(), c.(pc := Retrying), answers, n);
    if Effective(answers[n]) { db.PostponeDebt(c.debt, answers[n].now); }
    assert CompPass(start, c, answers, 0) == CompPass(db.Contents(), c.(pc := Settled), answers, n + 1);
  }
}
