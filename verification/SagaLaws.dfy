// What every run of the renewal saga keeps, whatever crashes, overtaken workers and failed calls it contains.
module SagaLaws {
  import opened Common
  import opened Wallets
  import opened Saga

  // ---- Money ----

  function SignedIn(w: nat): Entry -> real {
    (e: Entry) => if e.wallet == w then Signed(e.kind, e.amount) else 0.0
  }

  ghost predicate WalletOk(s: Commerce, w: nat)
    requires w < |s.wallets|
  {
    s.wallets[w].balance == SumBy(s.entries, SignedIn(w)) && s.wallets[w].balance >= 0.0
  }

  ghost predicate KeysUnique(entries: seq<Entry>) {
    forall j, k :: 0 <= j < k < |entries| ==> entries[j].key != entries[k].key
  }

  ghost predicate WalletsUnique(wallets: seq<Wallet>) {
    forall j, k :: 0 <= j < k < |wallets| ==>
                     wallets[j].customer != wallets[k].customer || wallets[j].currency != wallets[k].currency
  }

  ghost predicate EntryPlaced(s: Commerce, e: Entry) {
    e.wallet < |s.wallets| && s.wallets[e.wallet].currency == e.currency
  }

  // Every balance is the signed sum of its entries and never negative; keys are unique.
  ghost predicate MoneyOk(s: Commerce) {
    && WalletsUnique(s.wallets)
    && KeysUnique(s.entries)
    && (forall k :: 0 <= k < |s.entries| ==> EntryPlaced(s, s.entries[k]))
    && (forall w :: 0 <= w < |s.wallets| ==> WalletOk(s, w))
  }

  lemma EnterKeeps(s: Commerce, w: nat, kind: EntryKind, amount: real, reference: Option<nat>, key: string)
    requires MoneyOk(s) && w < |s.wallets| && s.wallets[w].balance + Signed(kind, amount) >= 0.0
    requires forall k :: 0 <= k < |s.entries| ==> s.entries[k].key != key
    ensures MoneyOk(Enter(s, w, kind, amount, reference, key))
  {
    var t := Enter(s, w, kind, amount, reference, key);
    var e := t.entries[|s.entries|];
    forall v | 0 <= v < |t.wallets| ensures WalletOk(t, v) {
      assert WalletOk(s, v);
      SumAppend(s.entries, e, SignedIn(v));
    }
    forall k | 0 <= k < |t.entries| ensures EntryPlaced(t, t.entries[k]) {
      if k < |s.entries| { assert EntryPlaced(s, s.entries[k]); }
    }
  }

  lemma AddEntryKeeps(s: Commerce, customer: nat, d: EntryInput)
    requires MoneyOk(s)
    ensures MoneyOk(AddEntry(s, customer, d).0)
  {
    var w := FindWallet(s.wallets, customer, d.currency);
    if AddEntry(s, customer, d).0 != s { EnterKeeps(s, w.value, d.kind, d.amount, d.reference, d.key); }
  }

  lemma DebitKeeps(s: Commerce, customer: nat, amount: real, currency: string, purchase: nat, execution: string)
    requires MoneyOk(s)
    ensures MoneyOk(Debit(s, customer, amount, currency, purchase, execution).0)
  {
    var w := FindWallet(s.wallets, customer, currency);
    if Debit(s, customer, amount, currency, purchase, execution).1.Ok? {
      EnterKeeps(s, w.value, Purchase, amount, Some(purchase), DebitKey(execution));
    }
  }

  // A change outside the wallets and entries.
  lemma SameMoney(s: Commerce, t: Commerce)
    requires MoneyOk(s) && t.wallets == s.wallets && t.entries == s.entries
    ensures MoneyOk(t)
  {
    forall w | 0 <= w < |t.wallets| ensures WalletOk(t, w) { assert WalletOk(s, w); }
    forall k | 0 <= k < |t.entries| ensures EntryPlaced(t, t.entries[k]) { assert EntryPlaced(s, s.entries[k]); }
  }

  lemma WorkKeepsMoney(s: Commerce, x: Worker, a: Answer)
    requires MoneyOk(s)
    ensures MoneyOk(WorkDb(s, x, a))
  {
    if (a.ok || a.applied) && x.pc == DebitWallet && x.purchase.Some? {
      DebitKeeps(s, x.customer, x.amount, x.currency, x.purchase.value, x.execution);
    } else if (a.ok || a.applied) && x.pc == RefundWallet {
      AddEntryKeeps(s, x.customer, RefundInput(x.execution, x.purchase, x.amount, x.currency));
    } else {
      SameMoney(s, WorkDb(s, x, a));
    }
  }

  lemma CompKeepsMoney(s: Commerce, c: Compensator, applied: bool, now: int)
    requires MoneyOk(s)
    ensures MoneyOk(CompDb(s, c, applied, now))
  {
    if applied && c.pc == Compensating {
      AddEntryKeeps(s, c.customer, RefundInput(c.execution, Some(c.purchase), c.amount, c.currency));
    } else {
      SameMoney(s, CompDb(s, c, applied, now));
    }
  }

  lemma WalletStepKeepsMoney(s: Commerce, t: Commerce, op: Op)
    requires MoneyOk(s) && (op.OpenWallet? || op.SwitchWallet?)
    requires t == Step(World(s, [], [], map[], []), op).db
    ensures MoneyOk(t)
  {
    forall w | 0 <= w < |t.wallets| ensures WalletOk(t, w) {
      if w < |s.wallets| {
        assert WalletOk(s, w);
      } else {
        forall k | 0 <= k < |s.entries| ensures SignedIn(w)(s.entries[k]) == 0.0 {
          assert EntryPlaced(s, s.entries[k]);
        }
        SumZero(s.entries, SignedIn(w));
      }
    }
    forall k | 0 <= k < |t.entries| ensures EntryPlaced(t, t.entries[k]) { assert EntryPlaced(s, s.entries[k]); }
  }

  lemma StepKeepsMoney(w: World, op: Op)
    requires MoneyOk(w.db)
    ensures MoneyOk(Step(w, op).db)
  {
    match op
    case OpenWallet(_, _) => WalletStepKeepsMoney(w.db, Step(w, op).db, op);
    case SwitchWallet(_, _) => WalletStepKeepsMoney(w.db, Step(w, op).db, op);
    case Manual(customer, d) => AddEntryKeeps(w.db, customer, d);
    case Work(i, a) => if i < |w.workers| { WorkKeepsMoney(w.db, w.workers[i], a); }
    case Compensate(i, ok, applied, now) =>
      if i < |w.comps| { CompKeepsMoney(w.db, w.comps[i], ok || applied, now); }
    case _ => SameMoney(w.db, Step(w, op).db);
  }

  // In every run, whatever manual entries, crashes and overtaken workers it contains, every wallet balance is
  // non-negative and the signed sum of its entries, and no key is entered twice.
  lemma {:induction false} BalancesReplay(ops: seq<Op>)
    ensures MoneyOk(Run(START, ops).db)
  {
    if ops != [] {
      BalancesReplay(ops[..|ops| - 1]);
      StepKeepsMoney(Run(START, ops[..|ops| - 1]), ops[|ops| - 1]);
    }
  }

  // ---- Debits and refunds ----

  lemma KeysSeparate(d: string, e: string)
    ensures DebitKey(d) == DebitKey(e) <==> d == e
    ensures RefundKey(d) == RefundKey(e) <==> d == e
    ensures DEBIT <= DebitKey(d) && REFUND <= RefundKey(d)
    ensures RefundKey(d)[|REFUND|..] == d && DebitKey(d)[|DEBIT|..] == d
    ensures !(REFUND <= DebitKey(e)) && !(DEBIT <= RefundKey(e))
  {
    assert DebitKey(d)[|DEBIT|..] == d && DebitKey(e)[|DEBIT|..] == e;
    assert RefundKey(d)[|REFUND|..] == d && RefundKey(e)[|REFUND|..] == e;
    assert DebitKey(e)[8] == 'd' && RefundKey(e)[8] == 'r' && REFUND[8] == 'r' && DEBIT[8] == 'd';
  }

  // One of the first n entries is under the execution's debit key.
  ghost predicate HasDebit(entries: seq<Entry>, n: nat, execution: string)
    requires n <= |entries|
  {
    exists j :: 0 <= j < n && entries[j].key == DebitKey(execution)
  }

  // Entry k, if it is under a refund key, comes after an entry under its execution's debit key.
  ghost predicate Backed(entries: seq<Entry>, k: nat)
    requires k < |entries|
  {
    REFUND <= entries[k].key ==> HasDebit(entries, k, entries[k].key[|REFUND|..])
  }

  ghost predicate AllBacked(entries: seq<Entry>) {
    forall k :: 0 <= k < |entries| ==> Backed(entries, k)
  }

  ghost predicate Covered(s: Commerce, execution: string) { HasDebit(s.entries, |s.entries|, execution) }

  ghost predicate WorkerSafe(s: Commerce, x: Worker) {
    && (x.debited ==> Covered(s, x.execution))
    && (x.pc in {ReadState, CancelPurchase, RefundWallet, OweRefund} ==> x.debited)
  }

  ghost predicate DebtsSafe(s: Commerce) { forall k :: 0 <= k < |s.debts| ==> Covered(s, s.debts[k].execution) }

  // Whoever may enter a refund has its debit entered.
  ghost predicate Safe(w: World) {
    && DebtsSafe(w.db)
    && (forall i :: 0 <= i < |w.workers| ==> WorkerSafe(w.db, w.workers[i]))
    && (forall i :: 0 <= i < |w.comps| ==> Covered(w.db, w.comps[i].execution))
  }

  ghost predicate Grows(s: Commerce, t: Commerce) {
    t.entries == s.entries || (|t.entries| == |s.entries| + 1 && t.entries[..|s.entries|] == s.entries)
  }

  lemma StillCovered(s: Commerce, t: Commerce, execution: string)
    requires Grows(s, t) && Covered(s, execution)
    ensures Covered(t, execution)
  {
    var j :| 0 <= j < |s.entries| && s.entries[j].key == DebitKey(execution);
    assert t.entries[j] == s.entries[j];
  }

  lemma AddEntryGrows(s: Commerce, customer: nat, d: EntryInput)
    ensures Grows(s, AddEntry(s, customer, d).0) && AddEntry(s, customer, d).0.debts == s.debts
  {
    var t := AddEntry(s, customer, d).0;
    if t != s { assert t.entries[..|s.entries|] == s.entries; }
  }

  lemma DebitGrows(s: Commerce, customer: nat, amount: real, currency: string, purchase: nat, execution: string)
    ensures var (t, r) := Debit(s, customer, amount, currency, purchase, execution);
      Grows(s, t) && t.debts == s.debts && (r.Ok? ==> Covered(t, execution))
  {
    var (t, r) := Debit(s, customer, amount, currency, purchase, execution);
    if r.Ok? {
      assert t.entries[..|s.entries|] == s.entries;
      assert t.entries[|s.entries|].key == DebitKey(execution);
    }
  }

  lemma SameDebtsSafe(s: Commerce, t: Commerce)
    requires DebtsSafe(s) && Grows(s, t) && t.debts == s.debts
    ensures DebtsSafe(t)
  {
    forall k | 0 <= k < |t.debts| ensures Covered(t, t.debts[k].execution) { StillCovered(s, t, s.debts[k].execution); }
  }

  lemma FoundDebit(s: Commerce, execution: string)
    ensures FindEntry(s.entries, DebitKey(execution)).Some? <==> Covered(s, execution)
  {
  }

  lemma WorkSafe(s: Commerce, x: Worker, a: Answer, created: nat)
    requires DebtsSafe(s) && WorkerSafe(s, x)
    ensures DebtsSafe(WorkDb(s, x, a)) && Grows(s, WorkDb(s, x, a))
    ensures WorkerSafe(WorkDb(s, x, a), WorkNext(s, x, a, created))
  {
    var t := WorkDb(s, x, a);
    if x.pc == DebitWallet && x.purchase.Some? {
      DebitGrows(s, x.customer, x.amount, x.currency, x.purchase.value, x.execution);
      SameDebtsSafe(s, t);
    } else if x.pc == RefundWallet {
      AddEntryGrows(s, x.customer, RefundInput(x.execution, x.purchase, x.amount, x.currency));
      SameDebtsSafe(s, t);
    } else {
      forall k | 0 <= k < |t.debts| ensures Covered(t, t.debts[k].execution) {
        if k < |s.debts| { assert Covered(s, s.debts[k].execution); }
      }
      if x.pc == FindDebit { FoundDebit(s, x.execution); }
    }
    if x.debited { StillCovered(s, t, x.execution); }
  }

  lemma CompSafe(s: Commerce, c: Compensator, applied: bool, now: int)
    requires DebtsSafe(s)
    ensures DebtsSafe(CompDb(s, c, applied, now)) && Grows(s, CompDb(s, c, applied, now))
  {
    var t := CompDb(s, c, applied, now);
    if c.pc == Compensating {
      AddEntryGrows(s, c.customer, RefundInput(c.execution, Some(c.purchase), c.amount, c.currency));
      SameDebtsSafe(s, t);
    } else {
      forall k | 0 <= k < |t.debts| ensures Covered(t, t.debts[k].execution) {
        assert Covered(s, s.debts[k].execution);
      }
    }
  }

  lemma OthersStaySafe(w: World, t: Commerce)
    requires Safe(w) && Grows(w.db, t)
    ensures forall i :: 0 <= i < |w.workers| ==> WorkerSafe(t, w.workers[i])
    ensures forall i :: 0 <= i < |w.comps| ==> Covered(t, w.comps[i].execution)
  {
    forall i | 0 <= i < |w.workers| ensures WorkerSafe(t, w.workers[i]) {
      if w.workers[i].debited { StillCovered(w.db, t, w.workers[i].execution); }
    }
    forall i | 0 <= i < |w.comps| ensures Covered(t, w.comps[i].execution) {
      StillCovered(w.db, t, w.comps[i].execution);
    }
  }

  // Steps that leave the entries alone.
  lemma QuietStepSafe(w: World, op: Op)
    requires Safe(w) && !op.Manual? && !op.Work? && !op.Compensate?
    ensures Safe(Step(w, op)) && Step(w, op).db.entries == w.db.entries
  {
    var v := Step(w, op);
    forall k | 0 <= k < |v.db.debts| ensures Covered(v.db, v.db.debts[k].execution) {
      assert Covered(w.db, w.db.debts[k].execution);
    }
    OthersStaySafe(w, v.db);
  }

  lemma StepSafe(w: World, op: Op)
    requires Safe(w)
    ensures Safe(Step(w, op)) && Grows(w.db, Step(w, op).db)
  {
    match op
    case Manual(customer, d) =>
      AddEntryGrows(w.db, customer, d);
      SameDebtsSafe(w.db, Step(w, op).db);
      OthersStaySafe(w, Step(w, op).db);
    case Work(i, a) =>
      if i < |w.workers| {
        WorkSafe(w.db, w.workers[i], a, |w.origins|);
        OthersStaySafe(w, Step(w, op).db);
      }
    case Compensate(i, ok, applied, now) =>
      if i < |w.comps| {
        CompSafe(w.db, w.comps[i], ok || applied, now);
        OthersStaySafe(w, Step(w, op).db);
      }
    case _ => QuietStepSafe(w, op);
  }

  // In every run, whatever manual entries it contains, every worker past its debit lookup that may still refund, every
  // recorded debt and every compensator has an entry under its execution's debit key.
  lemma {:induction false} RunSafe(ops: seq<Op>)
    ensures Safe(Run(START, ops))
  {
    if ops != [] {
      RunSafe(ops[..|ops| - 1]);
      StepSafe(Run(START, ops[..|ops| - 1]), ops[|ops| - 1]);
    }
  }

  // ---- When a refund has no debit ----

  // A manual entry is about to take a refund key whose debit key nobody has entered.
  predicate Unbacked(w: World, op: Op) {
    && op.Manual? && REFUND <= op.input.key
    && AddEntry(w.db, op.owner, op.input).1 == Ok(EntryAdded(false, |w.db.entries|))
    && FindEntry(w.db.entries, DebitKey(op.input.key[|REFUND|..])).None?
  }

  ghost predicate BackedRun(ops: seq<Op>) {
    ops == [] || (BackedRun(ops[..|ops| - 1]) && !Unbacked(Run(START, ops[..|ops| - 1]), ops[|ops| - 1]))
  }

  lemma PrefixBacked(s: Commerce, t: Commerce)
    requires Grows(s, t)
    ensures AllBacked(t.entries) <==>
            AllBacked(s.entries) && (|t.entries| > |s.entries| ==> Backed(t.entries, |s.entries|))
  {
    forall k | 0 <= k < |s.entries| ensures Backed(t.entries, k) <==> Backed(s.entries, k) {
      assert forall j :: 0 <= j <= k ==> t.entries[j] == s.entries[j];
    }
  }

  // The saga's own entries are backed: its debits are no refunds, and its refunds have their debit.
  lemma WorkBacked(s: Commerce, x: Worker, a: Answer)
    requires WorkerSafe(s, x) && |WorkDb(s, x, a).entries| > |s.entries|
    ensures Backed(WorkDb(s, x, a).entries, |s.entries|)
  {
    var t := WorkDb(s, x, a);
    KeysSeparate(x.execution, x.execution);
    if x.pc == RefundWallet {
      RefundBacked(s, t, x.execution);
    } else {
      assert t.entries[|s.entries|].key == DebitKey(x.execution);
    }
  }

  lemma RefundBacked(s: Commerce, t: Commerce, execution: string)
    requires Covered(s, execution) && |t.entries| == |s.entries| + 1
    requires forall j :: 0 <= j < |s.entries| ==> t.entries[j] == s.entries[j]
    requires t.entries[|s.entries|].key == RefundKey(execution)
    ensures Backed(t.entries, |s.entries|)
  {
    KeysSeparate(execution, execution);
    var j :| 0 <= j < |s.entries| && s.entries[j].key == DebitKey(execution);
    assert t.entries[j].key == DebitKey(execution);
  }

  lemma ManualBackedIff(w: World, op: Op)
    requires op.Manual? && |Step(w, op).db.entries| > |w.db.entries|
    ensures Backed(Step(w, op).db.entries, |w.db.entries|) <==> !Unbacked(w, op)
  {
    var t := Step(w, op).db;
    assert t.entries[|w.db.entries|].key == op.input.key;
    assert forall j :: 0 <= j < |w.db.entries| ==> t.entries[j] == w.db.entries[j];
  }

  lemma StepBackedIff(w: World, op: Op)
    requires Safe(w)
    ensures AllBacked(Step(w, op).db.entries) <==> AllBacked(w.db.entries) && !Unbacked(w, op)
  {
    var t := Step(w, op).db;
    StepSafe(w, op);
    PrefixBacked(w.db, t);
    if |t.entries| > |w.db.entries| {
      match op
      case Manual(_, _) => ManualBackedIff(w, op);
      case Work(i, a) => WorkBacked(w.db, w.workers[i], a);
      case Compensate(i, _, _, _) => RefundBacked(w.db, t, w.comps[i].execution);
      case _ => QuietStepSafe(w, op);
    }
  }

  // Every refund comes after its debit exactly when no manual entry took a refund key whose debit was not entered.
  lemma {:induction false} RefundsAreBackedIff(ops: seq<Op>)
    ensures AllBacked(Run(START, ops).db.entries) <==> BackedRun(ops)
  {
    if ops != [] {
      RefundsAreBackedIff(ops[..|ops| - 1]);
      RunSafe(ops[..|ops| - 1]);
      StepBackedIff(Run(START, ops[..|ops| - 1]), ops[|ops| - 1]);
    }
  }

  // How many entries carry the key.
  function CountOf(entries: seq<Entry>, key: string): nat {
    if entries == [] then 0
    else CountOf(entries[..|entries| - 1], key) + if entries[|entries| - 1].key == key then 1 else 0
  }

  lemma {:induction false} NoneCounted(entries: seq<Entry>, key: string)
    requires forall k :: 0 <= k < |entries| ==> entries[k].key != key
    ensures CountOf(entries, key) == 0
  {
    if entries != [] { NoneCounted(entries[..|entries| - 1], key); }
  }

  lemma {:induction false} UniqueCounts(entries: seq<Entry>, key: string)
    requires KeysUnique(entries)
    ensures CountOf(entries, key) <= 1
  {
    if entries != [] {
      var last := |entries| - 1;
      UniqueCounts(entries[..last], key);
      if entries[last].key == key { NoneCounted(entries[..last], key); }
    }
  }

  lemma {:induction false} Counted(entries: seq<Entry>, key: string)
    requires CountOf(entries, key) > 0
    ensures exists k :: 0 <= k < |entries| && entries[k].key == key
  {
    if entries[|entries| - 1].key != key { Counted(entries[..|entries| - 1], key); }
  }

  lemma {:induction false} OccursCounts(entries: seq<Entry>, k: nat)
    requires k < |entries|
    ensures CountOf(entries, entries[k].key) > 0
  {
    if k < |entries| - 1 { OccursCounts(entries[..|entries| - 1], k); }
  }

  // In every run an execution is debited at most once and refunded at most once.
  lemma AtMostOnce(ops: seq<Op>, execution: string)
    ensures var entries := Run(START, ops).db.entries;
      CountOf(entries, DebitKey(execution)) <= 1 && CountOf(entries, RefundKey(execution)) <= 1
  {
    BalancesReplay(ops);
    UniqueCounts(Run(START, ops).db.entries, DebitKey(execution));
    UniqueCounts(Run(START, ops).db.entries, RefundKey(execution));
  }

  // And never refunded without a debit, unless a manual entry did it.
  lemma RefundsFollowDebits(ops: seq<Op>, execution: string)
    requires BackedRun(ops)
    ensures var entries := Run(START, ops).db.entries;
      CountOf(entries, RefundKey(execution)) <= CountOf(entries, DebitKey(execution)) <= 1
  {
    var entries := Run(START, ops).db.entries;
    AtMostOnce(ops, execution);
    RefundsAreBackedIff(ops);
    if CountOf(entries, RefundKey(execution)) > 0 { BackedCounts(entries, execution); }
  }

  lemma BackedCounts(entries: seq<Entry>, execution: string)
    requires AllBacked(entries) && CountOf(entries, RefundKey(execution)) > 0
    ensures CountOf(entries, DebitKey(execution)) > 0
  {
    Counted(entries, RefundKey(execution));
    var k :| 0 <= k < |entries| && entries[k].key == RefundKey(execution);
    KeysSeparate(execution, execution);
    assert Backed(entries, k);
    var j :| 0 <= j < k && entries[j].key == DebitKey(execution);
    OccursCounts(entries, j);
  }

  // ---- Bounded compensation ----

  function TriesOf(comps: seq<Compensator>, k: nat): nat {
    if comps == [] then 0
    else TriesOf(comps[..|comps| - 1], k) + if comps[|comps| - 1].debt == k then 1 else 0
  }

  lemma {:induction false} NoTries(comps: seq<Compensator>, k: nat)
    requires forall i :: 0 <= i < |comps| ==> comps[i].debt != k
    ensures TriesOf(comps, k) == 0
  {
    if comps != [] { NoTries(comps[..|comps| - 1], k); }
  }

  lemma {:induction false} SameTries(comps: seq<Compensator>, i: nat, c: Compensator, k: nat)
    requires i < |comps| && c.debt == comps[i].debt
    ensures TriesOf(comps[i := c], k) == TriesOf(comps, k)
  {
    var last := |comps| - 1;
    if i == last {
      assert comps[i := c][..last] == comps[..last];
    } else {
      assert comps[i := c][..last] == comps[..last][i := c];
      SameTries(comps[..last], i, c, k);
    }
  }

  // Every claim of a debt has made one compensator and counts as one attempt, reopened or not.
  ghost predicate DebtCounted(w: World, k: nat)
    requires k < |w.db.debts|
  {
    w.db.debts[k].attempts == TriesOf(w.comps, k) && w.db.debts[k].attempts <= MAX_ATTEMPTS
  }

  ghost predicate DebtsCounted(w: World) {
    && (forall k :: 0 <= k < |w.db.debts| ==> DebtCounted(w, k))
    && (forall i :: 0 <= i < |w.comps| ==> w.comps[i].debt < |w.db.debts|)
  }

  // The debts keep their attempts, and a new one starts with none.
  ghost predicate KeepsAttempts(s: Commerce, t: Commerce) {
    && |s.debts| <= |t.debts|
    && (forall k :: 0 <= k < |s.debts| ==> t.debts[k].attempts == s.debts[k].attempts)
    && (forall k :: |s.debts| <= k < |t.debts| ==> t.debts[k].attempts == 0)
  }

  lemma SameCounts(w: World, v: World)
    requires DebtsCounted(w) && v.comps == w.comps && KeepsAttempts(w.db, v.db)
    ensures DebtsCounted(v)
  {
    forall k | 0 <= k < |v.db.debts| ensures DebtCounted(v, k) {
      if k < |w.db.debts| { assert DebtCounted(w, k); } else { NoTries(w.comps, k); }
    }
  }

  lemma ClaimCounts(w: World, k: nat, now: int)
    requires DebtsCounted(w)
    ensures DebtsCounted(ClaimOwedStep(w, k, now))
  {
    var v := ClaimOwedStep(w, k, now);
    if v != w {
      assert v.comps[..|w.comps|] == w.comps;
      forall i | 0 <= i < |v.db.debts| ensures DebtCounted(v, i) { assert DebtCounted(w, i); }
    }
  }

  lemma CompCounts(w: World, i: nat, ok: bool, applied: bool, now: int)
    requires DebtsCounted(w) && i < |w.comps|
    ensures DebtsCounted(CompStep(w, i, ok, applied, now))
  {
    var v := CompStep(w, i, ok, applied, now);
    assert KeepsAttempts(w.db, v.db);
    forall k | 0 <= k < |v.db.debts| ensures DebtCounted(v, k) {
      assert DebtCounted(w, k);
      SameTries(w.comps, i, v.comps[i], k);
    }
  }

  lemma StepCounts(w: World, op: Op)
    requires DebtsCounted(w)
    ensures DebtsCounted(Step(w, op))
  {
    match op
    case ClaimOwed(k, now) => ClaimCounts(w, k, now);
    case Compensate(i, ok, applied, now) => if i < |w.comps| { CompCounts(w, i, ok, ok || applied, now); }
    case Work(i, a) =>
      if i < |w.workers| {
        WorkKeepsAttempts(w.db, w.workers[i], a);
        SameCounts(w, Step(w, op));
      }
    case _ => SameCounts(w, Step(w, op));
  }

  lemma WorkKeepsAttempts(s: Commerce, x: Worker, a: Answer)
    ensures KeepsAttempts(s, WorkDb(s, x, a))
  {
  }

  // A refund that could not be entered is tried again at most eight times in its life, however often it is reopened.
  lemma {:induction false} CompensationIsBounded(ops: seq<Op>)
    ensures DebtsCounted(Run(START, ops))
  {
    if ops != [] {
      CompensationIsBounded(ops[..|ops| - 1]);
      StepCounts(Run(START, ops[..|ops| - 1]), ops[|ops| - 1]);
    }
  }
}
