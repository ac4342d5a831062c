// Runs outside the conditions of SagaLaws, SagaRefunds and SagaPaid: the code refunds a renewal that was never debited,
// refunds another amount than was debited, and completes a renewal it has refunded.
module SagaGaps {
  import opened Common
  import opened Wallets
  import opened Saga
  import opened SagaLaws
  import opened SagaRefunds
  import opened SagaPaid

  // Manual entries under their own keys, PURCHASE ones only if allowed.
  predicate Plain(op: Op, purchases: bool) {
    op.Manual? ==> OwnKey(op.input.key) && (purchases || op.input.kind != Purchase)
  }

  ghost predicate PlainRun(ops: seq<Op>, purchases: bool) {
    ops == [] || (PlainRun(ops[..|ops| - 1], purchases) && Plain(ops[|ops| - 1], purchases))
  }

  ghost predicate ReachableWith(w: World, purchases: bool) {
    exists ops :: Run(START, ops) == w && PlainRun(ops, purchases)
  }

  ghost predicate Reachable(w: World) { ReachableWith(w, false) }

  lemma Begin()
    ensures Reachable(START)
  {
    var none: seq<Op> := [];
    assert Run(START, none) == START;
  }

  lemma Next(w: World, op: Op, v: World, purchases: bool)
    requires ReachableWith(w, purchases) && Plain(op, purchases) && Step(w, op) == v
    ensures ReachableWith(v, purchases)
  {
    var ops :| Run(START, ops) == w && PlainRun(ops, purchases);
    assert (ops + [op])[..|ops|] == ops;
    assert Run(START, ops + [op]) == v;
  }

  lemma Widen(w: World)
    requires Reachable(w)
    ensures ReachableWith(w, true)
  {
    var ops :| Run(START, ops) == w && PlainRun(ops, false);
    StillPlain(ops);
  }

  lemma {:induction false} StillPlain(ops: seq<Op>)
    requires PlainRun(ops, false)
    ensures PlainRun(ops, true)
  {
    if ops != [] { StillPlain(ops[..|ops| - 1]); }
  }

  // Execution a was debited one amount and refunded another.
  ghost predicate Mismatch(entries: seq<Entry>, debit: real, refund: real) {
    exists j, k :: 0 <= j < k < |entries| && entries[j].key == DebitKey("a") && entries[j].amount == debit
                   && entries[k].key == RefundKey("a") && entries[k].amount == refund
  }

  // ---- One wallet and one monthly renewal ----

  function At(balance: real, entries: seq<Entry>, s: Schedule, workers: seq<Worker>, issued: map<string, nat>,
              origins: seq<Option<string>>): World
  {
    World(Commerce([Wallet(1, "TZS", balance, true)], entries, [s], []), workers, [], issued, origins)
  }

  function Row(status: RenewalStatus, next: int, claimed: Option<int>, execution: Option<string>, purchase: Option<nat>)
    : Schedule
  {
    Schedule(1, status, next, claimed, execution, purchase, 0, true, 30)
  }

  function Pass(execution: string, purchase: Option<nat>, amount: real, debited: bool, pc: Pc): Worker {
    Worker(0, 1, execution, purchase, amount, if pc == ReadPlan then "" else "TZS", debited, pc)
  }

  function Good(price: real, now: int): Answer { Answer(true, true, price, "TZS", false, now) }
  const BAD := Answer(false, false, 0.0, "", false, 0)

  const TOPUP := Entry(0, Topup, 100.0, "TZS", None, "top")
  const DEBIT_A := Entry(0, Purchase, 10.0, "TZS", Some(1), DebitKey("a"))
  const DEBIT_B := Entry(0, Purchase, 20.0, "TZS", Some(0), DebitKey("b"))

  const OPEN := OpenWallet(1, "TZS")
  const TOP := Manual(1, EntryInput(Topup, 100.0, "TZS", "top", None))
  const RENEW := NewRenewal(1, true, 30, 0)
  const OPENED := START.(db := Commerce([Wallet(1, "TZS", 0.0, true)], [], [], []))
  const TOPPED := START.(db := Commerce([Wallet(1, "TZS", 100.0, true)], [TOPUP], [], []))
  const FUNDED := At(100.0, [TOPUP], Row(Active, 0, None, None, None), [], map[], [])

  lemma TopIsPlain()
    ensures Plain(TOP, false)
  {
    assert TOP.input.key[0] == 't' && DEBIT[0] == 'r' && REFUND[0] == 'r';
  }

  lemma OpeningSteps()
    ensures Step(START, OPEN) == OPENED && Step(OPENED, TOP) == TOPPED && Step(TOPPED, RENEW) == FUNDED
  {
    assert FindWallet(OPENED.db.wallets, 1, "TZS") == Some(0);
    assert FindEntry(OPENED.db.entries, "top") == None;
  }

  // ---- A manual entry under a refund key ----

  const GRAB := Manual(1, EntryInput(Topup, 10.0, "TZS", RefundKey("e"), None))
  const GRABBED := Entry(0, Topup, 10.0, "TZS", None, RefundKey("e"))

  lemma GrabStep()
    ensures Step(OPENED, GRAB).db.entries == [GRABBED] && Unbacked(OPENED, GRAB)
  {
    assert FindWallet(OPENED.db.wallets, 1, "TZS") == Some(0);
    assert FindEntry(OPENED.db.entries, RefundKey("e")) == None;
    KeysSeparate("e", "e");
  }

  lemma GrabCounts()
    ensures CountOf([GRABBED], RefundKey("e")) == 1 && CountOf([GRABBED], DebitKey("e")) == 0
  {
    KeysSeparate("e", "e");
    assert [GRABBED][..0] == [];
  }

  // A manual entry takes a refund key that nobody was debited under: the run SagaLaws.RefundsAreBackedIff excludes.
  lemma ReservedKeyRefundsWithoutDebit()
    ensures exists ops :: !BackedRun(ops) && CountOf(Run(START, ops).db.entries, RefundKey("e")) == 1
                          && CountOf(Run(START, ops).db.entries, DebitKey("e")) == 0
  {
    var ops := [OPEN, GRAB];
    OpeningSteps();
    GrabStep();
    GrabCounts();
    assert ops[..1] == [OPEN] && ops[..1][..0] == [];
    assert Run(START, ops[..1]) == OPENED;
    assert !BackedRun(ops);
  }

  // ---- The opening of every run below ----

  lemma Funded()
    ensures Reachable(FUNDED)
  {
    Begin();
    TopIsPlain();
    OpeningSteps();
    Next(START, OPEN, OPENED, false);
    Next(OPENED, TOP, TOPPED, false);
    Next(TOPPED, RENEW, FUNDED, false);
  }

  // ---- An overtaken worker ----

  // Worker 0 creates purchase 0 and stalls before keeping it; its lock goes stale and worker 1 takes over execution a.
  const STALLED := Pass("a", Some(0), 10.0, false, KeepPurchase)
  const WINNER := Pass("a", Some(1), 10.0, true, Done)
  const ID_A := map["a" := 1]
  const ONE := [Some("a")]
  const BOTH := [Some("a"), Some("a")]

  // The world of worker 0 alone.
  function Alone(status: RenewalStatus, claimed: Option<int>, workers: seq<Worker>,
                 origins: seq<Option<string>>): World
  {
    At(100.0, [TOPUP], Row(status, 0, claimed, Some("a"), None), workers, ID_A, origins)
  }

  const CLAIMED := Alone(Processing, Some(0), [Pass("a", None, 0.0, false, ReadPlan)], [])
  const PLANNED := Alone(Processing, Some(0), [Pass("a", None, 10.0, false, GetPurchase)], [])
  const CREATED := Alone(Processing, Some(0), [STALLED], ONE)
  const FREED := Alone(Active, None, [STALLED], ONE)
  const RIVALS := Second(100.0, [TOPUP], None, Pass("a", None, 0.0, false, ReadPlan), ONE)
  const GO := Work(0, Good(10.0, 0))

  lemma StallingSteps()
    ensures Step(FUNDED, ClaimRenewal(0, 0, "a")) == CLAIMED && Step(CLAIMED, GO) == PLANNED
    ensures Step(PLANNED, GO) == CREATED
  {
    var claimed := Step(FUNDED, ClaimRenewal(0, 0, "a"));
    assert claimed.workers == CLAIMED.workers && claimed.db == CLAIMED.db;
    assert Step(PLANNED, GO).origins == ONE;
  }

  lemma FreeingSteps()
    ensures Step(CREATED, Reclaim(601)) == FREED && Step(FREED, ClaimRenewal(0, 601, "x")) == RIVALS
  {
    assert Step(CREATED, Reclaim(601)).db.schedules == FREED.db.schedules;
    var rivals := Step(FREED, ClaimRenewal(0, 601, "x"));
    assert rivals.workers == RIVALS.workers && rivals.db == RIVALS.db;
  }

  lemma Rivals()
    ensures Reachable(RIVALS)
  {
    Funded();
    StallingSteps();
    FreeingSteps();
    Next(FUNDED, ClaimRenewal(0, 0, "a"), CLAIMED, false);
    Next(CLAIMED, GO, PLANNED, false);
    Next(PLANNED, GO, CREATED, false);
    Next(CREATED, Reclaim(601), FREED, false);
    Next(FREED, ClaimRenewal(0, 601, "x"), RIVALS, false);
  }

  // Worker 1's world while it runs.
  function Second(balance: real, entries: seq<Entry>, purchase: Option<nat>, x: Worker,
                  origins: seq<Option<string>>): World
  {
    At(balance, entries, Row(Processing, 0, Some(601), Some("a"), purchase), [STALLED, x], ID_A, origins)
  }

  const GO_1 := Work(1, Good(10.0, 601))
  const SECOND_1 := Second(100.0, [TOPUP], None, Pass("a", None, 10.0, false, GetPurchase), ONE)
  const SECOND_2 := Second(100.0, [TOPUP], None, Pass("a", Some(1), 10.0, false, KeepPurchase), BOTH)
  const SECOND_3 := Second(100.0, [TOPUP], Some(1), Pass("a", Some(1), 10.0, false, FindDebit), BOTH)
  const SECOND_4 := Second(100.0, [TOPUP], Some(1), Pass("a", Some(1), 10.0, false, CheckWallet), BOTH)
  const SECOND_5 := Second(100.0, [TOPUP], Some(1), Pass("a", Some(1), 10.0, false, DebitWallet), BOTH)
  const SECOND_6 := Second(90.0, [TOPUP, DEBIT_A], Some(1), Pass("a", Some(1), 10.0, true, Confirm), BOTH)
  const SECOND_7 := Second(90.0, [TOPUP, DEBIT_A], Some(1), Pass("a", Some(1), 10.0, true, Complete), BOTH)

  lemma NoDebitYet(entries: seq<Entry>, execution: string)
    requires (entries == [TOPUP] && execution == "a") || (entries == [TOPUP, DEBIT_A] && execution == "b")
    ensures FindEntry(entries, DebitKey(execution)) == None
  {
    KeysSeparate("a", execution);
    assert TOPUP.key[0] == 't' && DebitKey(execution)[0] == 'r';
  }

  lemma KeepingSteps()
    ensures Step(RIVALS, GO_1) == SECOND_1 && Step(SECOND_1, GO_1) == SECOND_2 && Step(SECOND_2, GO_1) == SECOND_3
  {
  }

  lemma CheckingSteps()
    ensures Step(SECOND_3, GO_1) == SECOND_4 && Step(SECOND_4, GO_1) == SECOND_5
  {
    NoDebitYet([TOPUP], "a");
    assert FindWallet(SECOND_4.db.wallets, 1, "TZS") == Some(0);
  }

  lemma DebitingStep()
    ensures Step(SECOND_5, GO_1) == SECOND_6
  {
    NoDebitYet([TOPUP], "a");
    assert FindWallet(SECOND_5.db.wallets, 1, "TZS") == Some(0);
    assert [TOPUP] + [DEBIT_A] == [TOPUP, DEBIT_A];
    var t := Debit(SECOND_5.db, 1, 10.0, "TZS", 1, "a").0;
    assert t.wallets == SECOND_6.db.wallets && t.entries == SECOND_6.db.entries;
  }

  lemma WinnerDebits()
    ensures Reachable(SECOND_6)
  {
    Rivals();
    KeepingSteps();
    CheckingSteps();
    DebitingStep();
    Next(RIVALS, GO_1, SECOND_1, false);
    Next(SECOND_1, GO_1, SECOND_2, false);
    Next(SECOND_2, GO_1, SECOND_3, false);
    Next(SECOND_3, GO_1, SECOND_4, false);
    Next(SECOND_4, GO_1, SECOND_5, false);
    Next(SECOND_5, GO_1, SECOND_6, false);
  }

  const NEXT_MONTH := 2592601
  const IDS := map["a" := 1, "b" := 1]
  const LOST := Pass("b", None, 0.0, false, ReadPlan)
  const WOKEN := STALLED.(pc := FindDebit)

  // Months later execution b is claimed, worker 0 wakes and puts its purchase on the schedule, and the worker that
  // takes b over is handed it.
  function Month(status: RenewalStatus, claimed: Option<int>, execution: Option<string>, purchase: Option<nat>,
                 workers: seq<Worker>, issued: map<string, nat>): World
  {
    At(90.0, [TOPUP, DEBIT_A], Row(status, NEXT_MONTH, claimed, execution, purchase), workers, issued, BOTH)
  }

  const MONTH_0 := Month(Active, None, None, None, [STALLED, WINNER], ID_A)
  const MONTH_1 := Month(Processing, Some(NEXT_MONTH), Some("b"), None, [STALLED, WINNER, LOST], IDS)
  const MONTH_2 := Month(Processing, Some(NEXT_MONTH), Some("b"), Some(0), [WOKEN, WINNER, LOST], IDS)
  const MONTH_3 := Month(Active, None, Some("b"), Some(0), [WOKEN, WINNER, LOST], IDS)
  const WAKE := Work(0, Good(10.0, NEXT_MONTH))
  const CLAIM_B := ClaimRenewal(0, NEXT_MONTH, "b")
  const TAKE_B := ClaimRenewal(0, NEXT_MONTH + 602, "y")

  lemma FinishingSteps()
    ensures Step(SECOND_6, GO_1) == SECOND_7 && Step(SECOND_7, GO_1) == MONTH_0
  {
  }

  lemma WakingSteps()
    ensures Step(MONTH_0, CLAIM_B) == MONTH_1 && Step(MONTH_1, WAKE) == MONTH_2
  {
    var claimed := Step(MONTH_0, CLAIM_B);
    assert claimed.workers == MONTH_1.workers && claimed.db == MONTH_1.db;
  }

  lemma TakingSteps()
    ensures Step(MONTH_2, Reclaim(NEXT_MONTH + 601)) == MONTH_3 && Step(MONTH_3, TAKE_B) == THIRD_0
  {
    assert Step(MONTH_2, Reclaim(NEXT_MONTH + 601)).db.schedules == MONTH_3.db.schedules;
    var taken := Step(MONTH_3, TAKE_B);
    assert taken.workers == THIRD_0.workers && taken.db == THIRD_0.db;
  }

  lemma Overtaken()
    ensures Reachable(THIRD_0)
  {
    WinnerDebits();
    FinishingSteps();
    WakingSteps();
    TakingSteps();
    Next(SECOND_6, GO_1, SECOND_7, false);
    Next(SECOND_7, GO_1, MONTH_0, false);
    Next(MONTH_0, CLAIM_B, MONTH_1, false);
    Next(MONTH_1, WAKE, MONTH_2, false);
    Next(MONTH_2, Reclaim(NEXT_MONTH + 601), MONTH_3, false);
    Next(MONTH_3, TAKE_B, THIRD_0, false);
  }

  // Worker 3's world while it runs.
  function Third(balance: real, entries: seq<Entry>, x0: Worker, x3: Worker): World {
    At(balance, entries, Row(Processing, NEXT_MONTH, Some(NEXT_MONTH + 602), Some("b"), Some(0)),
       [x0, WINNER, LOST, x3],
       IDS, BOTH)
  }

  const GO_3 := Work(3, Good(20.0, NEXT_MONTH))
  const THIRD_0 := Third(90.0, [TOPUP, DEBIT_A], WOKEN, Pass("b", Some(0), 0.0, false, ReadPlan))
  const THIRD_1 := Third(90.0, [TOPUP, DEBIT_A], WOKEN, Pass("b", Some(0), 20.0, false, GetPurchase))
  const THIRD_2 := Third(90.0, [TOPUP, DEBIT_A], WOKEN, Pass("b", Some(0), 20.0, false, FindDebit))
  const THIRD_3 := Third(90.0, [TOPUP, DEBIT_A], WOKEN, Pass("b", Some(0), 20.0, false, CheckWallet))
  const THIRD_4 := Third(90.0, [TOPUP, DEBIT_A], WOKEN, Pass("b", Some(0), 20.0, false, DebitWallet))

  lemma OtherLookingSteps()
    ensures Step(THIRD_0, GO_3) == THIRD_1 && Step(THIRD_1, GO_3) == THIRD_2
  {
  }

  lemma OtherCheckingSteps()
    ensures Step(THIRD_2, GO_3) == THIRD_3 && Step(THIRD_3, GO_3) == THIRD_4
  {
    NoDebitYet([TOPUP, DEBIT_A], "b");
    assert FindWallet(THIRD_3.db.wallets, 1, "TZS") == Some(0);
  }

  lemma OtherDebitingStep()
    ensures Step(THIRD_4, GO_3) == Last(WOKEN)
  {
    NoDebitYet([TOPUP, DEBIT_A], "b");
    assert FindWallet(THIRD_4.db.wallets, 1, "TZS") == Some(0);
    assert [TOPUP, DEBIT_A] + [DEBIT_B] == [TOPUP, DEBIT_A, DEBIT_B];
    var t := Debit(THIRD_4.db, 1, 20.0, "TZS", 0, "b").0;
    assert t.wallets == Last(WOKEN).db.wallets && t.entries == Last(WOKEN).db.entries;
  }

  lemma OtherDebits()
    ensures Reachable(Last(WOKEN))
  {
    Overtaken();
    OtherLookingSteps();
    OtherCheckingSteps();
    OtherDebitingStep();
    Next(THIRD_0, GO_3, THIRD_1, false);
    Next(THIRD_1, GO_3, THIRD_2, false);
    Next(THIRD_2, GO_3, THIRD_3, false);
    Next(THIRD_3, GO_3, THIRD_4, false);
    Next(THIRD_4, GO_3, Last(WOKEN), false);
  }

  // Worker 0's world at the end.
  function Last(x0: Worker): World {
    Third(70.0, [TOPUP, DEBIT_A, DEBIT_B], x0, Pass("b", Some(0), 20.0, true, Confirm))
  }

  const FAIL_0 := Work(0, BAD)
  const CONFIRMING := Pass("a", Some(0), 10.0, true, Confirm)
  const READING := Pass("a", Some(0), 10.0, true, ReadState)
  const CANCELING := Pass("a", Some(0), 20.0, true, CancelPurchase)
  const REFUNDING := Pass("a", Some(0), 20.0, true, RefundWallet)

  lemma FoundA()
    ensures FindEntry([TOPUP, DEBIT_A, DEBIT_B], DebitKey("a")) == Some(1)
  {
    var key := DebitKey("a");
    KeysSeparate("a", "b");
    assert TOPUP.key[0] == 't' && key[0] == 'r';
    assert TOPUP.key != key && DEBIT_B.key != key;
    OnlyAt([TOPUP, DEBIT_A, DEBIT_B], key, 1);
  }

  lemma OnlyAt(entries: seq<Entry>, key: string, k: nat)
    requires k < |entries| && forall j :: 0 <= j < |entries| ==> (entries[j].key == key <==> j == k)
    ensures FindEntry(entries, key) == Some(k)
  {
    assert entries[k].key == key;
  }

  lemma LatestIsOther()
    ensures Latest([TOPUP, DEBIT_A, DEBIT_B], 0) == Some(2)
  {
  }

  lemma WakingAgainStep()
    ensures Step(Last(WOKEN), WAKE) == Last(CONFIRMING)
  {
    FoundA();
  }

  lemma FailingStep()
    ensures Step(Last(CONFIRMING), FAIL_0) == Last(READING)
  {
  }

  lemma MisreadingSteps()
    ensures Step(Last(READING), WAKE) == Last(CANCELING) && Step(Last(CANCELING), WAKE) == Last(REFUNDING)
  {
    LatestIsOther();
  }

  lemma NoRefundYet()
    ensures FindEntry([TOPUP, DEBIT_A, DEBIT_B], RefundKey("a")) == None
  {
    KeysSeparate("a", "a");
    KeysSeparate("b", "a");
    assert TOPUP.key[0] == 't' && RefundKey("a")[0] == 'r';
  }

  lemma OtherMismatch()
    ensures Mismatch(Step(Last(REFUNDING), WAKE).db.entries, 10.0, 20.0)
  {
    NoRefundYet();
    assert FindWallet(Last(REFUNDING).db.wallets, 1, "TZS") == Some(0);
    var entries := Step(Last(REFUNDING), WAKE).db.entries;
    assert entries == [TOPUP, DEBIT_A, DEBIT_B] + [Entry(0, Refund, 20.0, "TZS", Some(0), RefundKey("a"))];
    assert entries[1] == DEBIT_A && entries[3].key == RefundKey("a") && entries[3].amount == 20.0;
  }

  // Worker 0 finds execution a's debit, fails to confirm purchase 0 and refunds what was debited for it: b's amount.
  lemma OvertakenWorkerRefundsAnothersDebit()
    ensures exists w :: Reachable(w) && Mismatch(w.db.entries, 10.0, 20.0)
  {
    OtherDebits();
    WakingAgainStep();
    FailingStep();
    MisreadingSteps();
    OtherMismatch();
    Next(Last(WOKEN), WAKE, Last(CONFIRMING), false);
    Next(Last(CONFIRMING), FAIL_0, Last(READING), false);
    Next(Last(READING), WAKE, Last(CANCELING), false);
    Next(Last(CANCELING), WAKE, Last(REFUNDING), false);
    Next(Last(REFUNDING), WAKE, Step(Last(REFUNDING), WAKE), false);
  }

  // ---- A manual purchase under a renewal's purchase id ----

  const OWN := Entry(0, Purchase, 3.0, "TZS", Some(1), "own")
  const BUY := Manual(1, EntryInput(Purchase, 3.0, "TZS", "own", Some(1)))
  const FAIL_1 := Work(1, BAD)

  function Namesake(amount: real, pc: Pc): World {
    Second(87.0, [TOPUP, DEBIT_A, OWN], Some(1), Pass("a", Some(1), amount, true, pc), BOTH)
  }

  lemma BuyIsPlain()
    ensures Plain(BUY, true)
  {
    assert BUY.input.key[0] == 'o' && DEBIT[0] == 'r' && REFUND[0] == 'r';
  }

  lemma BuyingStep()
    ensures Step(SECOND_6, BUY) == Namesake(10.0, Confirm)
  {
    assert FindWallet(SECOND_6.db.wallets, 1, "TZS") == Some(0);
    assert "own"[0] == 'o' && TOPUP.key[0] == 't' && DEBIT_A.key[0] == 'r';
    assert FindEntry([TOPUP, DEBIT_A], "own") == None;
    assert AddEntry(SECOND_6.db, 1, BUY.input).0 == Namesake(10.0, Confirm).db;
  }

  lemma LatestIsOwn()
    ensures Latest([TOPUP, DEBIT_A, OWN], 1) == Some(2)
  {
  }

  lemma NamesakeFailingStep()
    ensures Step(Namesake(10.0, Confirm), FAIL_1) == Namesake(10.0, ReadState)
  {
  }

  lemma NamesakeReadingStep()
    ensures Step(Namesake(10.0, ReadState), GO_1) == Namesake(3.0, CancelPurchase)
  {
    LatestIsOwn();
  }

  lemma NamesakeCancelingStep()
    ensures Step(Namesake(3.0, CancelPurchase), GO_1) == Namesake(3.0, RefundWallet)
  {
  }

  lemma NamesakeRefundFree()
    ensures FindEntry([TOPUP, DEBIT_A, OWN], RefundKey("a")) == None
  {
    KeysSeparate("a", "a");
    assert TOPUP.key[0] == 't' && OWN.key[0] == 'o' && RefundKey("a")[0] == 'r';
  }

  lemma NamesakeMismatch()
    ensures Mismatch(Step(Namesake(3.0, RefundWallet), GO_1).db.entries, 10.0, 3.0)
  {
    NamesakeRefundFree();
    assert FindWallet(Namesake(3.0, RefundWallet).db.wallets, 1, "TZS") == Some(0);
    var entries := Step(Namesake(3.0, RefundWallet), GO_1).db.entries;
    assert entries == [TOPUP, DEBIT_A, OWN] + [Entry(0, Refund, 3.0, "TZS", Some(1), RefundKey("a"))];
    assert entries[1] == DEBIT_A && entries[3].key == RefundKey("a") && entries[3].amount == 3.0;
  }

  // No overtaken worker keeps a purchase here: the renewal debited 10 is refunded the 3 of the manual entry.
  lemma NamesakePurchaseShrinksRefund()
    ensures exists w :: ReachableWith(w, true) && Mismatch(w.db.entries, 10.0, 3.0)
  {
    WinnerDebits();
    Widen(SECOND_6);
    BuyIsPlain();
    BuyingStep();
    NamesakeFailingStep();
    NamesakeReadingStep();
    NamesakeCancelingStep();
    NamesakeMismatch();
    Next(SECOND_6, BUY, Namesake(10.0, Confirm), true);
    Next(Namesake(10.0, Confirm), FAIL_1, Namesake(10.0, ReadState), true);
    Next(Namesake(10.0, ReadState), GO_1, Namesake(3.0, CancelPurchase), true);
    Next(Namesake(3.0, CancelPurchase), GO_1, Namesake(3.0, RefundWallet), true);
    Next(Namesake(3.0, RefundWallet), GO_1, Step(Namesake(3.0, RefundWallet), GO_1), true);
  }

  // ---- A refunded renewal that completes ----

  const REFUND_A := Entry(0, Refund, 10.0, "TZS", Some(1), RefundKey("a"))
  const LEDGER_A := [TOPUP, DEBIT_A, REFUND_A]

  // Worker 1 fails to confirm, cancels and refunds.
  const BACK_1 := Second(90.0, [TOPUP, DEBIT_A], Some(1), Pass("a", Some(1), 10.0, true, ReadState), BOTH)
  const BACK_2 := Second(90.0, [TOPUP, DEBIT_A], Some(1), Pass("a", Some(1), 10.0, true, CancelPurchase), BOTH)
  const BACK_3 := Second(90.0, [TOPUP, DEBIT_A], Some(1), Pass("a", Some(1), 10.0, true, RefundWallet), BOTH)
  const BACK_4 := Second(100.0, LEDGER_A, Some(1), Pass("a", Some(1), 10.0, true, MarkFailed), BOTH)

  lemma BackingSteps()
    ensures Step(SECOND_6, FAIL_1) == BACK_1 && Step(BACK_1, GO_1) == BACK_2 && Step(BACK_2, GO_1) == BACK_3
  {
    assert Latest([TOPUP, DEBIT_A], 1) == Some(1);
  }

  lemma NoRefundOfA()
    ensures FindEntry([TOPUP, DEBIT_A], RefundKey("a")) == None
  {
    KeysSeparate("a", "a");
    assert TOPUP.key[0] == 't' && RefundKey("a")[0] == 'r';
  }

  lemma RefundingStep()
    ensures Step(BACK_3, GO_1) == BACK_4
  {
    NoRefundOfA();
    assert FindWallet(BACK_3.db.wallets, 1, "TZS") == Some(0);
    assert [TOPUP, DEBIT_A] + [REFUND_A] == LEDGER_A;
    var t := AddEntry(BACK_3.db, 1, RefundInput("a", Some(1), 10.0, "TZS")).0;
    assert t.wallets == BACK_4.db.wallets && t.entries == BACK_4.db.entries;
  }

  // The schedule keeps execution a and its purchase, and is claimed again.
  function Retried(s: Schedule, workers: seq<Worker>): World {
    At(100.0, LEDGER_A, s.(failures := 1), [STALLED, Pass("a", Some(1), 10.0, true, Done)] + workers, ID_A, BOTH)
  }

  function Retry(x: Worker): World { Retried(Row(Processing, 0, Some(601), Some("a"), Some(1)), [x]) }

  const FAILED_1 := Retried(Row(Active, 0, None, Some("a"), Some(1)), [])
  const RETRY_0 := Retry(Pass("a", Some(1), 0.0, false, ReadPlan))
  const RETRY_1 := Retry(Pass("a", Some(1), 10.0, false, GetPurchase))
  const RETRY_2 := Retry(Pass("a", Some(1), 10.0, false, FindDebit))
  const RETRY_3 := Retry(Pass("a", Some(1), 10.0, true, Confirm))
  const RETRY_4 := Retry(Pass("a", Some(1), 10.0, true, Complete))
  const GO_2 := Work(2, Good(10.0, 601))
  const CLAIM_A := ClaimRenewal(0, 601, "z")

  lemma MarkingStep()
    ensures Step(BACK_4, GO_1) == FAILED_1
  {
    assert Step(BACK_4, GO_1).workers == FAILED_1.workers;
    assert Step(BACK_4, GO_1).db.schedules == FAILED_1.db.schedules;
  }

  lemma ReclaimingStep()
    ensures Step(FAILED_1, CLAIM_A) == RETRY_0
  {
    var v := Step(FAILED_1, CLAIM_A);
    assert v.workers == RETRY_0.workers && v.db == RETRY_0.db;
  }

  lemma RetryStep(x: Worker, y: Worker)
    requires WorkDb(Retry(x).db, x, GO_2.answer) == Retry(x).db && WorkNext(Retry(x).db, x, GO_2.answer, 2) == y
    requires x.purchase.Some?
    ensures Step(Retry(x), GO_2) == Retry(y)
  {
    assert Step(Retry(x), GO_2).workers == Retry(y).workers;
  }

  lemma DebitOfAFound()
    ensures FindEntry(LEDGER_A, DebitKey("a")) == Some(1)
  {
    var key := DebitKey("a");
    KeysSeparate("a", "a");
    assert TOPUP.key[0] == 't' && key[0] == 'r';
    assert TOPUP.key != key && REFUND_A.key != key;
    OnlyAt(LEDGER_A, key, 1);
  }

  lemma RetryingSteps()
    ensures Step(RETRY_0, GO_2) == RETRY_1 && Step(RETRY_1, GO_2) == RETRY_2 && Step(RETRY_2, GO_2) == RETRY_3
    ensures Step(RETRY_3, GO_2) == RETRY_4
  {
    DebitOfAFound();
    RetryStep(RETRY_0.workers[2], RETRY_1.workers[2]);
    RetryStep(RETRY_1.workers[2], RETRY_2.workers[2]);
    RetryStep(RETRY_2.workers[2], RETRY_3.workers[2]);
    RetryStep(RETRY_3.workers[2], RETRY_4.workers[2]);
  }

  lemma RefundedAndRetried()
    ensures Reachable(RETRY_0)
  {
    WinnerDebits();
    BackingSteps();
    RefundingStep();
    MarkingStep();
    ReclaimingStep();
    Next(SECOND_6, FAIL_1, BACK_1, false);
    Next(BACK_1, GO_1, BACK_2, false);
    Next(BACK_2, GO_1, BACK_3, false);
    Next(BACK_3, GO_1, BACK_4, false);
    Next(BACK_4, GO_1, FAILED_1, false);
    Next(FAILED_1, CLAIM_A, RETRY_0, false);
  }

  lemma RefundOfAFound()
    ensures Refunded(RETRY_4.db, "a")
  {
    assert LEDGER_A[2].key == RefundKey("a");
  }

  lemma RetryConfirmed()
    ensures Reachable(RETRY_4)
  {
    RefundedAndRetried();
    RetryingSteps();
    Next(RETRY_0, GO_2, RETRY_1, false);
    Next(RETRY_1, GO_2, RETRY_2, false);
    Next(RETRY_2, GO_2, RETRY_3, false);
    Next(RETRY_3, GO_2, RETRY_4, false);
  }

  lemma CompletingStep()
    ensures Completes(RETRY_4, GO_2) && RETRY_4.workers[2].execution == "a"
    ensures Step(RETRY_4, GO_2).db.schedules == [Row(Active, 2592601, None, None, None)]
  {
  }

  // One renewal, one worker at a time: refunded after a failed confirmation, claimed again, found debited, confirmed
  // and moved on to the next month.
  lemma RefundedRenewalCompletes()
    ensures exists w, op :: Reachable(w) && Completes(w, op) && Refunded(w.db, w.workers[op.worker].execution)
                            && Step(w, op).db.schedules == [Row(Active, 2592601, None, None, None)]
  {
    RetryConfirmed();
    RefundOfAFound();
    CompletingStep();
    var w := RETRY_4;
    assert Reachable(w) && Completes(w, GO_2) && Refunded(w.db, w.workers[GO_2.worker].execution);
  }
}
