// A compensation refunds whatever the newest PURCHASE entry for the worker's purchase says. Refunds give back their own
// debits exactly as long as every such reading is the worker's own debit, and it is in every run that keeps each
// renewal purchase to one execution.
module SagaRefunds {
  import opened Common
  import opened Wallets
  import opened Saga
  import opened SagaLaws

  // Entry j is the execution's debit, of that amount, from a wallet of that customer.
  predicate IsDebit(s: Commerce, j: nat, execution: string, customer: nat, amount: real, currency: string)
    requires j < |s.entries|
  {
    var e := s.entries[j];
    && e.key == DebitKey(execution) && e.amount == amount && e.currency == currency
    && e.wallet < |s.wallets| && s.wallets[e.wallet].customer == customer && s.wallets[e.wallet].currency == currency
  }

  ghost predicate Owes(s: Commerce, execution: string, customer: nat, amount: real, currency: string) {
    exists j :: 0 <= j < |s.entries| && IsDebit(s, j, execution, customer, amount, currency)
  }

  // Refund k gives back an earlier debit of its execution: same wallet, same amount, same currency.
  ghost predicate Returned(entries: seq<Entry>, k: nat)
    requires k < |entries| && REFUND <= entries[k].key
  {
    exists j :: 0 <= j < k && entries[j].key == DebitKey(entries[k].key[|REFUND|..])
                && entries[j].wallet == entries[k].wallet
                && entries[j].amount == entries[k].amount && entries[j].currency == entries[k].currency
  }

  // ---- Every refund in preparation ----

  // The saga is about to refund, or has on record to refund, only what its own executions were debited.
  ghost predicate WorkerAccounted(s: Commerce, x: Worker) {
    x.pc in {CancelPurchase, RefundWallet, OweRefund} && x.amount > 0.0 ==>
      Owes(s, x.execution, x.customer, x.amount, x.currency)
  }

  ghost predicate EntryReturned(entries: seq<Entry>, k: nat)
    requires k < |entries|
  {
    REFUND <= entries[k].key ==> Returned(entries, k)
  }

  ghost predicate EntriesReturned(entries: seq<Entry>) { forall k :: 0 <= k < |entries| ==> EntryReturned(entries, k) }

  ghost predicate DebtAccounted(s: Commerce, d: Debt) { Owes(s, d.execution, d.customer, d.amount, d.currency) }

  ghost predicate CompAccounted(s: Commerce, c: Compensator) { Owes(s, c.execution, c.customer, c.amount, c.currency) }

  ghost predicate WorkersAccounted(w: World) {
    forall i :: 0 <= i < |w.workers| ==> WorkerAccounted(w.db, w.workers[i])
  }

  ghost predicate DebtsAccounted(w: World) {
    && (forall k :: 0 <= k < |w.db.debts| ==> DebtAccounted(w.db, w.db.debts[k]))
    && (forall i :: 0 <= i < |w.comps| ==> CompAccounted(w.db, w.comps[i]))
  }

  ghost predicate Accounted(w: World) { EntriesReturned(w.db.entries) && WorkersAccounted(w) && DebtsAccounted(w) }

  // A worker enters or records only a positive refund.
  ghost predicate Positive(w: World) {
    forall i :: 0 <= i < |w.workers| && w.workers[i].pc in {RefundWallet, OweRefund} ==> w.workers[i].amount > 0.0
  }

  lemma StepPositive(w: World, op: Op)
    requires Positive(w)
    ensures Positive(Step(w, op))
  {
    match op
    case Work(i, a) => if i < |w.workers| { WorkPositive(w, i, a); }
    case _ =>
  }

  lemma WorkPositive(w: World, i: nat, a: Answer)
    requires Positive(w) && i < |w.workers|
    ensures Positive(WorkStep(w, i, a))
  {
    var y := WorkNext(w.db, w.workers[i], a, |w.origins|);
    assert y.pc in {RefundWallet, OweRefund} ==> y.amount > 0.0;
    assert WorkStep(w, i, a).workers == w.workers[i := y];
  }

  lemma {:induction false} RunPositive(ops: seq<Op>)
    ensures Positive(Run(START, ops))
  {
    if ops != [] {
      RunPositive(ops[..|ops| - 1]);
      StepPositive(Run(START, ops[..|ops| - 1]), ops[|ops| - 1]);
    }
  }

  // ---- The steps that decide ----

  // The compensating query finds an amount to refund.
  predicate Reads(w: World, x: Worker, a: Answer) {
    && x.pc == ReadState && a.ok && !a.settled && x.purchase.Some?
    && Latest(w.db.entries, x.purchase.value).Some?
    && w.db.entries[Latest(w.db.entries, x.purchase.value).value].amount > 0.0
  }

  // What it found is the debit of the worker's own execution.
  ghost predicate ReadsOwn(w: World, x: Worker)
    requires x.purchase.Some? && Latest(w.db.entries, x.purchase.value).Some?
  {
    var e := w.db.entries[Latest(w.db.entries, x.purchase.value).value];
    Owes(w.db, x.execution, x.customer, e.amount, e.currency)
  }

  // A manual entry under a refund key gives back the entry under the debit key.
  predicate ManualReturns(s: Commerce, customer: nat, d: EntryInput)
    requires REFUND <= d.key
  {
    var debit := FindEntry(s.entries, DebitKey(d.key[|REFUND|..]));
    var wallet := FindWallet(s.wallets, customer, d.currency);
    && debit.Some? && Some(s.entries[debit.value].wallet) == wallet
    && s.entries[debit.value].amount == d.amount && s.entries[debit.value].currency == d.currency
  }

  ghost predicate Faithful(w: World, op: Op) {
    match op
    case Manual(customer, d) =>
      REFUND <= d.key && AddEntry(w.db, customer, d).1 == Ok(EntryAdded(false, |w.db.entries|)) ==>
        ManualReturns(w.db, customer, d)
    case Work(i, a) => i < |w.workers| && Reads(w, w.workers[i], a) ==> ReadsOwn(w, w.workers[i])
    case _ => true
  }

  // ---- What only grows ----

  ghost predicate DbExtends(s: Commerce, t: Commerce) {
    && Grows(s, t) && |s.wallets| <= |t.wallets|
    && (forall i :: 0 <= i < |s.wallets| ==>
          t.wallets[i].customer == s.wallets[i].customer && t.wallets[i].currency == s.wallets[i].currency)
  }

  ghost predicate Extends(w: World, v: World) {
    && DbExtends(w.db, v.db)
    && |w.origins| <= |v.origins| && (forall p :: 0 <= p < |w.origins| ==> v.origins[p] == w.origins[p])
    && (forall e :: e in w.issued ==> e in v.issued && v.issued[e] == w.issued[e])
  }

  lemma AddEntryExtends(s: Commerce, customer: nat, d: EntryInput)
    ensures DbExtends(s, AddEntry(s, customer, d).0)
  {
    var t := AddEntry(s, customer, d).0;
    if t != s { assert t.entries[..|s.entries|] == s.entries; }
  }

  lemma WorkExtends(s: Commerce, x: Worker, a: Answer)
    ensures DbExtends(s, WorkDb(s, x, a))
  {
    var t := WorkDb(s, x, a);
    if x.pc == RefundWallet {
      AddEntryExtends(s, x.customer, RefundInput(x.execution, x.purchase, x.amount, x.currency));
    } else if t.entries != s.entries {
      assert t.entries[..|s.entries|] == s.entries;
    }
  }

  lemma CompExtends(w: World, i: nat, ok: bool, applied: bool, now: int)
    requires i < |w.comps|
    ensures Extends(w, CompStep(w, i, ok, applied, now))
    ensures var v := CompStep(w, i, ok, applied, now);
      && |v.db.debts| == |w.db.debts| && v.comps == w.comps[i := w.comps[i].(pc := v.comps[i].pc)]
      && (forall k :: 0 <= k < |w.db.debts| ==> SameDebt(v.db.debts[k], w.db.debts[k]))
  {
    var c := w.comps[i];
    AddEntryExtends(w.db, c.customer, RefundInput(c.execution, Some(c.purchase), c.amount, c.currency));
  }

  lemma StepExtends(w: World, op: Op)
    ensures Extends(w, Step(w, op))
  {
    match op
    case Manual(customer, d) => AddEntryExtends(w.db, customer, d);
    case Work(i, a) => if i < |w.workers| { WorkExtends(w.db, w.workers[i], a); }
    case Compensate(i, ok, applied, now) => if i < |w.comps| { CompExtends(w, i, ok, ok || applied, now); }
    case _ =>
  }

  lemma StillOwes(s: Commerce, t: Commerce, execution: string, customer: nat, amount: real, currency: string)
    requires DbExtends(s, t) && Owes(s, execution, customer, amount, currency)
    ensures Owes(t, execution, customer, amount, currency)
  {
    var j :| 0 <= j < |s.entries| && IsDebit(s, j, execution, customer, amount, currency);
    assert t.entries[j] == s.entries[j];
    assert IsDebit(t, j, execution, customer, amount, currency);
  }

  // ---- What one step does ----

  lemma EntriesExtend(s: Commerce, t: Commerce)
    requires DbExtends(s, t)
    ensures EntriesReturned(t.entries) <==>
              EntriesReturned(s.entries) && (|t.entries| > |s.entries| ==> EntryReturned(t.entries, |s.entries|))
  {
    forall k | 0 <= k < |s.entries| ensures EntryReturned(t.entries, k) <==> EntryReturned(s.entries, k) {
      assert forall j :: 0 <= j <= k ==> t.entries[j] == s.entries[j];
    }
  }

  // Entering the refund of a debt puts it into the wallet the debit came from.
  lemma RefundReturns(s: Commerce, execution: string, customer: nat, purchase: Option<nat>, amount: real,
                      currency: string)
    requires MoneyOk(s) && Owes(s, execution, customer, amount, currency)
    ensures var t := AddEntry(s, customer, RefundInput(execution, purchase, amount, currency)).0;
      |t.entries| > |s.entries| ==> EntryReturned(t.entries, |s.entries|)
  {
    var t := AddEntry(s, customer, RefundInput(execution, purchase, amount, currency)).0;
    var n := |s.entries|;
    KeysSeparate(execution, execution);
    if |t.entries| > n {
      var j :| 0 <= j < n && IsDebit(s, j, execution, customer, amount, currency);
      assert t.entries[n].key == RefundKey(execution) && t.entries[j] == s.entries[j];
      assert s.entries[j].wallet == t.entries[n].wallet;
      assert Returned(t.entries, n);
    }
  }

  lemma DebitIsNoRefund(s: Commerce, x: Worker)
    requires x.purchase.Some?
    ensures var t := Debit(s, x.customer, x.amount, x.currency, x.purchase.value, x.execution).0;
      |t.entries| > |s.entries| ==> EntryReturned(t.entries, |s.entries|)
  {
    KeysSeparate(x.execution, x.execution);
  }

  lemma ManualReturnsIff(w: World, op: Op)
    requires MoneyOk(w.db) && op.Manual? && |Step(w, op).db.entries| > |w.db.entries|
    ensures EntryReturned(Step(w, op).db.entries, |w.db.entries|) <==> Faithful(w, op)
  {
    var t, n, d := Step(w, op).db, |w.db.entries|, op.input;
    assert forall j :: 0 <= j < n ==> t.entries[j] == w.db.entries[j];
    if REFUND <= d.key {
      var found := FindEntry(w.db.entries, DebitKey(d.key[|REFUND|..]));
      if found.Some? {
        forall j | 0 <= j < n && w.db.entries[j].key == DebitKey(d.key[|REFUND|..]) ensures j == found.value {}
      }
    }
  }

  lemma OthersAccounted(w: World, t: Commerce)
    requires DbExtends(w.db, t) && WorkersAccounted(w) && DebtsAccounted(w)
    ensures forall i :: 0 <= i < |w.workers| ==> WorkerAccounted(t, w.workers[i])
    ensures forall k :: 0 <= k < |w.db.debts| ==> DebtAccounted(t, w.db.debts[k])
    ensures forall i :: 0 <= i < |w.comps| ==> CompAccounted(t, w.comps[i])
  {
    forall i | 0 <= i < |w.workers| ensures WorkerAccounted(t, w.workers[i]) {
      var x := w.workers[i];
      assert WorkerAccounted(w.db, x);
      if x.pc in {CancelPurchase, RefundWallet, OweRefund} && x.amount > 0.0 {
        StillOwes(w.db, t, x.execution, x.customer, x.amount, x.currency);
      }
    }
    forall k | 0 <= k < |w.db.debts| ensures DebtAccounted(t, w.db.debts[k]) {
      var d := w.db.debts[k];
      assert DebtAccounted(w.db, d);
      StillOwes(w.db, t, d.execution, d.customer, d.amount, d.currency);
    }
    forall i | 0 <= i < |w.comps| ensures CompAccounted(t, w.comps[i]) {
      var c := w.comps[i];
      assert CompAccounted(w.db, c);
      StillOwes(w.db, t, c.execution, c.customer, c.amount, c.currency);
    }
  }

  predicate SameDebt(d: Debt, e: Debt) {
    d.execution == e.execution && d.customer == e.customer && d.amount == e.amount && d.currency == e.currency
  }

  // A worker goes on with what it owes, or reads it.
  lemma NextAccountedIff(w: World, x: Worker, a: Answer)
    requires WorkerAccounted(w.db, x)
    ensures WorkerAccounted(w.db, WorkNext(w.db, x, a, |w.origins|)) <==> (Reads(w, x, a) ==> ReadsOwn(w, x))
  {
  }

  lemma WorkEntryReturned(s: Commerce, x: Worker, a: Answer)
    requires MoneyOk(s) && WorkerAccounted(s, x) && (x.pc == RefundWallet ==> x.amount > 0.0)
    ensures |WorkDb(s, x, a).entries| > |s.entries| ==> EntryReturned(WorkDb(s, x, a).entries, |s.entries|)
  {
    if x.pc == RefundWallet {
      RefundReturns(s, x.execution, x.customer, x.purchase, x.amount, x.currency);
    } else if x.pc == DebitWallet && x.purchase.Some? {
      DebitIsNoRefund(s, x);
    }
  }

  // A debt after the worker's statement is one from before, or the worker's own.
  lemma WorkDebtAccounted(w: World, x: Worker, a: Answer, k: nat)
    requires DebtsAccounted(w) && WorkerAccounted(w.db, x) && (x.pc == OweRefund ==> x.amount > 0.0)
    requires k < |WorkDb(w.db, x, a).debts|
    ensures DebtAccounted(WorkDb(w.db, x, a), WorkDb(w.db, x, a).debts[k])
  {
    var t := WorkDb(w.db, x, a);
    WorkExtends(w.db, x, a);
    var d := t.debts[k];
    if k < |w.db.debts| {
      var e := w.db.debts[k];
      assert SameDebt(d, e) && DebtAccounted(w.db, e);
    }
    StillOwes(w.db, t, d.execution, d.customer, d.amount, d.currency);
  }

  lemma WorkAccountedIff(w: World, i: nat, a: Answer)
    requires MoneyOk(w.db) && Positive(w) && Accounted(w) && i < |w.workers|
    ensures Accounted(WorkStep(w, i, a)) <==> Faithful(w, Work(i, a))
  {
    var x, v := w.workers[i], WorkStep(w, i, a);
    WorkExtends(w.db, x, a);
    assert WorkerAccounted(w.db, x);
    OthersAccounted(w, v.db);
    EntriesExtend(w.db, v.db);
    WorkEntryReturned(w.db, x, a);
    forall k | 0 <= k < |v.db.debts| ensures DebtAccounted(v.db, v.db.debts[k]) { WorkDebtAccounted(w, x, a, k); }
    NextWorkerIff(w, x, a);
    assert v.workers[i] == WorkNext(w.db, x, a, |w.origins|);
    forall k | 0 <= k < |v.workers| && k != i ensures WorkerAccounted(v.db, v.workers[k]) {
      assert WorkerAccounted(v.db, w.workers[k]);
    }
  }

  lemma NextWorkerIff(w: World, x: Worker, a: Answer)
    requires WorkerAccounted(w.db, x)
    ensures WorkerAccounted(WorkDb(w.db, x, a), WorkNext(w.db, x, a, |w.origins|)) <==>
            (Reads(w, x, a) ==> ReadsOwn(w, x))
  {
    var t, y := WorkDb(w.db, x, a), WorkNext(w.db, x, a, |w.origins|);
    NextAccountedIff(w, x, a);
    WorkExtends(w.db, x, a);
    if x.pc == ReadState {
      assert t == w.db;
    } else if y.pc in {CancelPurchase, RefundWallet, OweRefund} && y.amount > 0.0 {
      StillOwes(w.db, t, y.execution, y.customer, y.amount, y.currency);
    }
  }

  lemma CompEntryReturned(w: World, i: nat, ok: bool, applied: bool, now: int)
    requires MoneyOk(w.db) && DebtsAccounted(w) && i < |w.comps|
    ensures var t := CompStep(w, i, ok, applied, now).db;
      |t.entries| > |w.db.entries| ==> EntryReturned(t.entries, |w.db.entries|)
  {
    var c := w.comps[i];
    assert CompAccounted(w.db, c);
    RefundReturns(w.db, c.execution, c.customer, Some(c.purchase), c.amount, c.currency);
  }

  lemma CompStepAccounted(w: World, i: nat, ok: bool, applied: bool, now: int)
    requires MoneyOk(w.db) && Accounted(w) && i < |w.comps|
    ensures Accounted(CompStep(w, i, ok, applied, now))
  {
    var v := CompStep(w, i, ok, applied, now);
    CompExtends(w, i, ok, applied, now);
    OthersAccounted(w, v.db);
    assert EntriesReturned(v.db.entries) by {
      EntriesExtend(w.db, v.db);
      CompEntryReturned(w, i, ok, applied, now);
    }
    DebtsStayAccounted(w, v);
  }

  // The debts and compensators keep what they are about.
  lemma DebtsStayAccounted(w: World, v: World)
    requires DbExtends(w.db, v.db) && WorkersAccounted(w) && DebtsAccounted(w)
    requires |v.db.debts| == |w.db.debts| && |v.comps| == |w.comps|
    requires forall k :: 0 <= k < |w.db.debts| ==> SameDebt(v.db.debts[k], w.db.debts[k])
    requires forall i :: 0 <= i < |w.comps| ==> v.comps[i] == w.comps[i].(pc := v.comps[i].pc)
    ensures DebtsAccounted(v)
  {
    OthersAccounted(w, v.db);
    forall k | 0 <= k < |v.db.debts| ensures DebtAccounted(v.db, v.db.debts[k]) {
      assert SameDebt(v.db.debts[k], w.db.debts[k]) && DebtAccounted(v.db, w.db.debts[k]);
    }
    forall k | 0 <= k < |v.comps| ensures CompAccounted(v.db, v.comps[k]) { assert CompAccounted(v.db, w.comps[k]); }
  }

  lemma ClaimOwedAccounted(w: World, k: nat, now: int)
    requires Accounted(w)
    ensures Accounted(ClaimOwedStep(w, k, now))
  {
    var v := ClaimOwedStep(w, k, now);
    if v != w {
      DebtsStayAccounted(w, v.(comps := w.comps));
      OthersAccounted(w, v.db);
      assert DebtAccounted(v.db, w.db.debts[k]);
    }
  }

  // Every other step enters nothing and keeps every row's execution, customer and amount.
  lemma QuietAccounted(w: World, op: Op)
    requires Accounted(w) && !op.Manual? && !op.Work? && !op.Compensate? && !op.ClaimOwed?
    ensures Accounted(Step(w, op))
  {
    var v := Step(w, op);
    StepExtends(w, op);
    OthersAccounted(w, v.db);
    assert v.db.entries == w.db.entries;
    DebtsStayAccounted(w, v);
  }

  lemma ManualAccountedIff(w: World, op: Op)
    requires MoneyOk(w.db) && Accounted(w) && op.Manual?
    ensures Accounted(Step(w, op)) <==> Faithful(w, op)
  {
    var v := Step(w, op);
    StepExtends(w, op);
    OthersAccounted(w, v.db);
    EntriesExtend(w.db, v.db);
    if |v.db.entries| > |w.db.entries| { ManualReturnsIff(w, op); }
  }

  lemma StepAccountedIff(w: World, op: Op)
    requires MoneyOk(w.db) && Positive(w) && Accounted(w)
    ensures Accounted(Step(w, op)) <==> Faithful(w, op)
  {
    match op
    case Manual(_, _) => ManualAccountedIff(w, op);
    case Work(i, a) => if i < |w.workers| { WorkAccountedIff(w, i, a); }
    case Compensate(i, ok, applied, now) => if i < |w.comps| { CompStepAccounted(w, i, ok, ok || applied, now); }
    case ClaimOwed(k, now) => ClaimOwedAccounted(w, k, now);
    case _ => QuietAccounted(w, op);
  }

  // ---- Whole runs ----

  ghost predicate AlwaysAccounted(ops: seq<Op>) {
    Accounted(Run(START, ops)) && (ops == [] || AlwaysAccounted(ops[..|ops| - 1]))
  }

  ghost predicate FaithfulRun(ops: seq<Op>) {
    ops == [] || (FaithfulRun(ops[..|ops| - 1]) && Faithful(Run(START, ops[..|ops| - 1]), ops[|ops| - 1]))
  }

  // At every moment of a run each refund entered gives back its execution's debit (same amount, currency and wallet)
  // and each refund in preparation or on record will, exactly when every compensating query of the run read the
  // worker's own debit and every manual entry under a refund key gave back the entry under the debit key.
  lemma {:induction false} RefundsAreFaithfulIff(ops: seq<Op>)
    ensures AlwaysAccounted(ops) <==> FaithfulRun(ops)
  {
    if ops != [] {
      var front := ops[..|ops| - 1];
      RefundsAreFaithfulIff(front);
      if AlwaysAccounted(front) {
        BalancesReplay(front);
        RunPositive(front);
        StepAccountedIff(Run(START, front), ops[|ops| - 1]);
      }
    }
  }

  // ---- One execution a purchase ----

  ghost predicate EntryLinked(w: World, e: Entry) {
    && (e.kind == Purchase && e.reference.Some? ==>
          && e.reference.value < |w.origins|
          && (w.origins[e.reference.value].Some? ==> e.key == DebitKey(w.origins[e.reference.value].value)))
    && (REFUND <= e.key ==> e.kind == Refund)
    && (DEBIT <= e.key ==>
          && e.kind == Purchase && e.key[|DEBIT|..] in w.issued && e.wallet < |w.db.wallets|
          && w.db.wallets[e.wallet].customer == w.issued[e.key[|DEBIT|..]])
  }

  ghost predicate ScheduleLinked(w: World, r: Schedule) {
    && (r.execution.Some? ==> r.execution.value in w.issued && w.issued[r.execution.value] == r.customer)
    && (r.purchase.Some? ==>
          r.execution.Some? && r.purchase.value < |w.origins| && w.origins[r.purchase.value] == r.execution)
  }

  ghost predicate WorkerLinked(w: World, x: Worker) {
    && x.execution in w.issued && w.issued[x.execution] == x.customer
    && (x.purchase.Some? ==> x.purchase.value < |w.origins| && w.origins[x.purchase.value] == Some(x.execution))
  }

  ghost predicate EntriesLinked(w: World) {
    forall k :: 0 <= k < |w.db.entries| ==> EntryLinked(w, w.db.entries[k])
  }

  ghost predicate SchedulesLinked(w: World) {
    forall i :: 0 <= i < |w.db.schedules| ==> ScheduleLinked(w, w.db.schedules[i])
  }

  ghost predicate WorkersLinked(w: World) { forall i :: 0 <= i < |w.workers| ==> WorkerLinked(w, w.workers[i]) }

  ghost predicate Linked(w: World) { EntriesLinked(w) && SchedulesLinked(w) && WorkersLinked(w) }

  // The old entries stay linked; a new one has to be.
  lemma EntriesStay(w: World, v: World)
    requires EntriesLinked(w) && Extends(w, v)
    requires |v.db.entries| > |w.db.entries| ==> EntryLinked(v, v.db.entries[|w.db.entries|])
    ensures EntriesLinked(v)
  {
    forall k | 0 <= k < |v.db.entries| ensures EntryLinked(v, v.db.entries[k]) {
      if k < |w.db.entries| { assert EntryLinked(w, w.db.entries[k]) && v.db.entries[k] == w.db.entries[k]; }
    }
  }

  lemma SchedulesStay(w: World, v: World)
    requires SchedulesLinked(w) && Extends(w, v) && v.db.schedules == w.db.schedules
    ensures SchedulesLinked(v)
  {
    forall i | 0 <= i < |v.db.schedules| ensures ScheduleLinked(v, v.db.schedules[i]) {
      assert ScheduleLinked(w, w.db.schedules[i]);
    }
  }

  lemma WorkersStay(w: World, v: World)
    requires WorkersLinked(w) && Extends(w, v) && v.workers == w.workers
    ensures WorkersLinked(v)
  {
    forall i | 0 <= i < |v.workers| ensures WorkerLinked(v, v.workers[i]) { assert WorkerLinked(w, w.workers[i]); }
  }

  // What the compensating query reads is the worker's own debit.
  lemma LatestIsOwn(w: World, x: Worker)
    requires EntriesLinked(w) && MoneyOk(w.db) && WorkerLinked(w, x) && x.purchase.Some?
    requires Latest(w.db.entries, x.purchase.value).Some?
    ensures w.db.entries[Latest(w.db.entries, x.purchase.value).value].key == DebitKey(x.execution) && ReadsOwn(w, x)
  {
    var j := Latest(w.db.entries, x.purchase.value).value;
    var e := w.db.entries[j];
    KeysSeparate(x.execution, x.execution);
    assert EntryLinked(w, e) && EntryPlaced(w.db, e);
    assert IsDebit(w.db, j, x.execution, x.customer, e.amount, e.currency);
  }

  // A key a person makes up.
  predicate OwnKey(key: string) { !(DEBIT <= key) && !(REFUND <= key) }

  // A manual PURCHASE entry names no renewal's purchase, and a worker keeps its purchase on the schedule only while
  // the schedule is still on the worker's execution.
  ghost predicate Disciplined(w: World, op: Op) {
    match op
    case Manual(_, d) => OwnKey(d.key) && (d.kind == Purchase && d.reference.Some? ==>
                           d.reference.value < |w.origins| && w.origins[d.reference.value].None?)
    case Work(i, _) => i < |w.workers| && w.workers[i].pc == KeepPurchase && Held(w.db, w.workers[i].schedule) ==>
                         w.db.schedules[w.workers[i].schedule].execution == Some(w.workers[i].execution)
    case _ => true
  }

  lemma DisciplinedIsFaithful(w: World, op: Op)
    requires Linked(w) && MoneyOk(w.db) && Disciplined(w, op)
    ensures Faithful(w, op)
  {
    if op.Work? && op.worker < |w.workers| && Reads(w, w.workers[op.worker], op.answer) {
      assert WorkerLinked(w, w.workers[op.worker]);
      LatestIsOwn(w, w.workers[op.worker]);
    }
  }

  lemma ManualLinked(w: World, op: Op)
    requires Linked(w) && op.Manual? && Disciplined(w, op)
    ensures Linked(Step(w, op))
  {
    var v := Step(w, op);
    StepExtends(w, op);
    if |v.db.entries| > |w.db.entries| { assert EntryLinked(v, v.db.entries[|w.db.entries|]); }
    EntriesStay(w, v);
    SchedulesStay(w, v);
    WorkersStay(w, v);
  }

  lemma ClaimLinked(w: World, i: nat, now: int, uuid: string)
    requires Linked(w)
    ensures Linked(ClaimStep(w, i, now, uuid))
  {
    var v := ClaimStep(w, i, now, uuid);
    StepExtends(w, ClaimRenewal(i, now, uuid));
    if v != w {
      EntriesStay(w, v);
      assert ScheduleLinked(w, w.db.schedules[i]);
      forall k | 0 <= k < |v.db.schedules| ensures ScheduleLinked(v, v.db.schedules[k]) {
        assert ScheduleLinked(w, w.db.schedules[k]);
      }
      forall k | 0 <= k < |v.workers| ensures WorkerLinked(v, v.workers[k]) {
        if k < |w.workers| { assert WorkerLinked(w, w.workers[k]); }
      }
    }
  }

  lemma CompLinked(w: World, i: nat, ok: bool, applied: bool, now: int)
    requires Linked(w) && i < |w.comps|
    ensures Linked(CompStep(w, i, ok, applied, now))
  {
    var v, c := CompStep(w, i, ok, applied, now), w.comps[i];
    AddEntryExtends(w.db, c.customer, RefundInput(c.execution, Some(c.purchase), c.amount, c.currency));
    RefundEntryLinked(w, v, c.execution);
    EntriesStay(w, v);
    SchedulesStay(w, v);
    WorkersStay(w, v);
  }

  // A refund entry is no purchase and no debit.
  lemma RefundEntryLinked(w: World, v: World, execution: string)
    ensures forall e: Entry :: e.kind == Refund && e.key == RefundKey(execution) ==> EntryLinked(v, e)
  {
    KeysSeparate(execution, execution);
  }

  lemma WorkEntryLinked(w: World, i: nat, a: Answer)
    requires Linked(w) && i < |w.workers|
    ensures EntriesLinked(WorkStep(w, i, a))
  {
    StepExtends(w, Work(i, a));
    assert WorkerLinked(w, w.workers[i]);
    if |WorkStep(w, i, a).db.entries| > |w.db.entries| { NewEntryLinked(w, WorkStep(w, i, a), w.workers[i], a); }
    EntriesStay(w, WorkStep(w, i, a));
  }

  lemma NewEntryLinked(w: World, v: World, x: Worker, a: Answer)
    requires WorkerLinked(w, x) && Extends(w, v) && v.db == WorkDb(w.db, x, a) && |v.db.entries| > |w.db.entries|
    ensures EntryLinked(v, v.db.entries[|w.db.entries|])
  {
    KeysSeparate(x.execution, x.execution);
    RefundEntryLinked(w, v, x.execution);
  }

  lemma WorkSchedules(w: World, i: nat, a: Answer)
    requires Linked(w) && i < |w.workers| && Disciplined(w, Work(i, a))
    ensures SchedulesLinked(WorkStep(w, i, a))
  {
    var x, v := w.workers[i], WorkStep(w, i, a);
    StepExtends(w, Work(i, a));
    assert WorkerLinked(w, x);
    forall k | 0 <= k < |v.db.schedules| ensures ScheduleLinked(v, v.db.schedules[k]) {
      assert ScheduleLinked(w, w.db.schedules[k]);
    }
  }

  lemma WorkWorkers(w: World, i: nat, a: Answer)
    requires Linked(w) && i < |w.workers|
    ensures WorkersLinked(WorkStep(w, i, a))
  {
    var v := WorkStep(w, i, a);
    StepExtends(w, Work(i, a));
    forall k | 0 <= k < |v.workers| ensures WorkerLinked(v, v.workers[k]) { assert WorkerLinked(w, w.workers[k]); }
  }

  // The remaining steps keep every row's execution, purchase and customer.
  lemma QuietLinked(w: World, op: Op)
    requires Linked(w) && !op.Manual? && !op.ClaimRenewal? && !op.Work? && !op.Compensate?
    ensures Linked(Step(w, op))
  {
    var v := Step(w, op);
    StepExtends(w, op);
    EntriesStay(w, v);
    WorkersStay(w, v);
    forall i | 0 <= i < |v.db.schedules| ensures ScheduleLinked(v, v.db.schedules[i]) {
      if i < |w.db.schedules| { assert ScheduleLinked(w, w.db.schedules[i]); }
    }
  }

  lemma StepLinked(w: World, op: Op)
    requires Linked(w) && Disciplined(w, op)
    ensures Linked(Step(w, op))
  {
    match op
    case Manual(_, _) => ManualLinked(w, op);
    case ClaimRenewal(i, now, uuid) => ClaimLinked(w, i, now, uuid);
    case Work(i, a) =>
      if i < |w.workers| {
        WorkEntryLinked(w, i, a);
        WorkSchedules(w, i, a);
        WorkWorkers(w, i, a);
      }
    case Compensate(i, ok, applied, now) => if i < |w.comps| { CompLinked(w, i, ok, ok || applied, now); }
    case _ => QuietLinked(w, op);
  }

  ghost predicate DisciplinedRun(ops: seq<Op>) {
    ops == [] || (DisciplinedRun(ops[..|ops| - 1]) && Disciplined(Run(START, ops[..|ops| - 1]), ops[|ops| - 1]))
  }

  lemma {:induction false} DisciplinedRuns(ops: seq<Op>)
    requires DisciplinedRun(ops)
    ensures Linked(Run(START, ops)) && FaithfulRun(ops)
  {
    if ops != [] {
      var front := ops[..|ops| - 1];
      DisciplinedRuns(front);
      BalancesReplay(front);
      StepLinked(Run(START, front), ops[|ops| - 1]);
      DisciplinedIsFaithful(Run(START, front), ops[|ops| - 1]);
    }
  }

  // So in every faithful run, and every disciplined one is, crashes and overtaken workers included, each renewal refund
  // gives back the debit of its own execution.
  lemma RefundsReturnDebits(ops: seq<Op>, k: nat)
    requires FaithfulRun(ops) && k < |Run(START, ops).db.entries|
    requires REFUND <= Run(START, ops).db.entries[k].key
    ensures Returned(Run(START, ops).db.entries, k)
  {
    RefundsAreFaithfulIff(ops);
    assert EntryReturned(Run(START, ops).db.entries, k);
  }

  // What entries under the key did to the wallet.
  function Under(key: string, w: nat): Entry -> real {
    (e: Entry) => if e.key == key && e.wallet == w then Signed(e.kind, e.amount) else 0.0
  }

  lemma {:induction false} UniqueSum(entries: seq<Entry>, j: nat, w: nat)
    requires KeysUnique(entries) && j < |entries|
    ensures SumBy(entries, Under(entries[j].key, w)) == Under(entries[j].key, w)(entries[j])
  {
    var last := |entries| - 1;
    if j == last {
      SumZero(entries[..last], Under(entries[j].key, w));
    } else {
      UniqueSum(entries[..last], j, w);
    }
  }

  // What the two entries of an execution did to the wallet.
  function NetOf(entries: seq<Entry>, execution: string, w: nat): real {
    SumBy(entries, Under(DebitKey(execution), w)) + SumBy(entries, Under(RefundKey(execution), w))
  }

  predicate Outgoing(kind: EntryKind) { kind == Purchase || kind == TransferOut }

  // What a debit and a refund of one amount did to their wallet.
  function Moved(debit: Entry, refund: Entry): real {
    Signed(debit.kind, refund.amount) + Signed(refund.kind, refund.amount)
  }

  lemma NetOfReturned(entries: seq<Entry>, j: nat, k: nat, execution: string, w: nat)
    requires KeysUnique(entries) && j < k < |entries|
    requires entries[j].key == DebitKey(execution) && entries[k].key == RefundKey(execution)
    requires entries[j].wallet == entries[k].wallet && entries[j].amount == entries[k].amount
    ensures NetOf(entries, execution, w) == if w == entries[k].wallet then Moved(entries[j], entries[k]) else 0.0
  {
    UniqueSum(entries, j, w);
    UniqueSum(entries, k, w);
  }

  lemma NetOfAllReturned(entries: seq<Entry>, j: nat, k: nat, execution: string)
    requires KeysUnique(entries) && j < k < |entries|
    requires entries[j].key == DebitKey(execution) && entries[k].key == RefundKey(execution)
    requires entries[j].wallet == entries[k].wallet && entries[j].amount == entries[k].amount
    ensures (forall w: nat :: NetOf(entries, execution, w) == 0.0) <==> Moved(entries[j], entries[k]) == 0.0
  {
    forall w: nat
      ensures NetOf(entries, execution, w) == if w == entries[k].wallet then Moved(entries[j], entries[k]) else 0.0
    {
      NetOfReturned(entries, j, k, execution, w);
    }
    NetOfReturned(entries, j, k, execution, entries[k].wallet);
  }

  // In any run a refund that gives back its debit leaves every wallet where it was exactly when one of the two entries
  // took money out and the other brought it in, or no money moved. The saga's own pair is a PURCHASE and a REFUND.
  lemma ReturnedCostsNothingIff(ops: seq<Op>, k: nat)
    requires k < |Run(START, ops).db.entries| && REFUND <= Run(START, ops).db.entries[k].key
    requires Returned(Run(START, ops).db.entries, k)
    ensures var entries := Run(START, ops).db.entries;
      var execution := entries[k].key[|REFUND|..];
      var j := FindEntry(entries, DebitKey(execution));
      && j.Some?
      && ((forall w: nat :: NetOf(entries, execution, w) == 0.0) <==>
            entries[k].amount == 0.0 || Outgoing(entries[j.value].kind) != Outgoing(entries[k].kind))
  {
    BalancesReplay(ops);
    ReturnedNets(Run(START, ops).db.entries, k);
  }

  lemma ReturnedNets(entries: seq<Entry>, k: nat)
    requires KeysUnique(entries) && k < |entries| && REFUND <= entries[k].key && Returned(entries, k)
    ensures var execution := entries[k].key[|REFUND|..];
      var j := FindEntry(entries, DebitKey(execution));
      && j.Some?
      && ((forall w: nat :: NetOf(entries, execution, w) == 0.0) <==>
            entries[k].amount == 0.0 || Outgoing(entries[j.value].kind) != Outgoing(entries[k].kind))
  {
    var execution := entries[k].key[|REFUND|..];
    var j :| 0 <= j < k && entries[j].key == DebitKey(execution) && entries[j].wallet == entries[k].wallet
             && entries[j].amount == entries[k].amount && entries[j].currency == entries[k].currency;
    assert FindEntry(entries, DebitKey(execution)) == Some(j);
    assert entries[k].key == RefundKey(execution);
    NetOfAllReturned(entries, j, k, execution);
  }

  // So a refunded renewal of a disciplined run has cost every wallet nothing.
  lemma RefundedCostsNothing(ops: seq<Op>, k: nat, w: nat)
    requires DisciplinedRun(ops) && k < |Run(START, ops).db.entries|
    requires REFUND <= Run(START, ops).db.entries[k].key
    ensures NetOf(Run(START, ops).db.entries, Run(START, ops).db.entries[k].key[|REFUND|..], w) == 0.0
  {
    var world := Run(START, ops);
    var execution := world.db.entries[k].key[|REFUND|..];
    DisciplinedRuns(ops);
    RefundsReturnDebits(ops, k);
    ReturnedCostsNothingIff(ops, k);
    KeysSeparate(execution, execution);
    var j := FindEntry(world.db.entries, DebitKey(execution)).value;
    assert EntryLinked(world, world.db.entries[k]) && EntryLinked(world, world.db.entries[j]);
  }
}
