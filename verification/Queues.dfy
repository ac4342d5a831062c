// The retrying work queues: the notification outbox, the domain-event outbox and the webhook outbox.
// One row machine covers the three; where they differ, the definition matches on the queue.
module Queues {
  import opened Arithmetic

  datatype Queue = Notifications | DomainEvents | Webhooks

  // Waiting: PENDING (or RETRY). InFlight: PROCESSING (DELIVERING). Done: SENT, PROCESSED, DELIVERED.
  // Failed: FAILED (DEAD).
  datatype Status = Waiting | InFlight | Done | Failed

  // Times are in seconds.
  datatype Row = Row(sms: bool, status: Status, attempts: nat, dueAt: int, lockedAt: int)

  // `held` holds, per webhook row a live worker has claimed, the attempt number it read when claiming.
  datatype Table = Table(queue: Queue, rows: seq<Row>, held: map<nat, nat>)

  const BUDGET := 8

  function Clamp(n: int, low: int, high: int): int { if n < low then low else if n > high then high else n }

  function Backoff(attempt: nat): int {
    var step := 15 * Pow2(if attempt < 1 then 0 else if attempt > 9 then 8 else attempt - 1);
    if step > 3600 then 3600 else step
  }

  predicate Claimable(q: Queue, r: Row, now: int) {
    match q
    case Notifications => r.status == Waiting && r.dueAt <= now && r.attempts < BUDGET
    case DomainEvents => (r.status == Waiting || r.status == Failed) && r.dueAt <= now && r.attempts < BUDGET
    case Webhooks => r.status == Waiting && r.dueAt <= now
  }

  datatype Op =
    | Enqueue(sms: bool, dueAt: int)
    | Claim(chosen: set<nat>, now: int)     // rows locked elsewhere are skipped, so any subset may be chosen
    | Recover(now: int, minutes: int)
    | Defer(id: nat, now: int)              // SMS provider not configured
    | Finish(id: nat)
    | FinishUnseen(id: nat)                 // the update commits but its answer is lost, which looks like an error
    | Reject(id: nat)                       // permanent provider rejection
    | Fail(id: nat, now: int, delay: int)
    | Crash(id: nat)                        // the webhook worker holding id dies

  function AfterFailure(q: Queue, r: Row, attempt: nat, now: int, delay: int): Row {
    match q
    case Notifications =>
      if attempt >= BUDGET then r.(status := Failed)
      else r.(status := Waiting, dueAt := now + Clamp(delay, 5, 86400))
    case DomainEvents =>
      if attempt >= BUDGET then r.(status := Failed, dueAt := now + 60) else r.(status := Waiting, dueAt := now + 5)
    case Webhooks =>
      r.(status := if attempt >= BUDGET then Failed else Waiting, dueAt := now + Backoff(attempt))
  }

  function FinishRow(t: Table, id: nat, i: nat): Row
    requires id < |t.rows|
  {
    var r := t.rows[id];
    if i == id && (if t.queue == Webhooks then id in t.held else r.status == InFlight) then r.(status := Done) else r
  }

  // What an operation does to row id. The webhook worker writes by row id alone, without testing the status;
  // the other queues write only while the row is in flight.
  function Touch(t: Table, id: nat, op: Op): Row
    requires id < |t.rows|
  {
    var r := t.rows[id];
    match op
    case Enqueue(_, _) => r
    case Claim(chosen, now) =>
      if id in chosen && Claimable(t.queue, r, now)
      then r.(status := InFlight, attempts := r.attempts + 1, lockedAt := now) else r
    case Recover(now, minutes) =>
      if t.queue != Webhooks && r.status == InFlight && r.lockedAt < now - 60 * Clamp(minutes, 1, 1440)
      then if r.attempts >= BUDGET then r.(status := Failed, dueAt := if t.queue == DomainEvents then now else r.dueAt)
           else r.(status := Waiting, dueAt := now)
      else r
    case Defer(i, now) =>
      if i == id && t.queue == Notifications && r.status == InFlight
      then r.(status := Waiting, attempts := if r.attempts > 0 then r.attempts - 1 else 0, dueAt := now + 300) else r
    case Finish(i) => FinishRow(t, id, i)
    case FinishUnseen(i) => FinishRow(t, id, i)
    case Reject(i) =>
      if i == id && t.queue == Notifications && r.status == InFlight then r.(status := Failed) else r
    case Fail(i, now, delay) =>
      if i != id then r
      else if t.queue == Webhooks then
        if id in t.held then AfterFailure(Webhooks, r, t.held[id], now, delay) else r
      else if r.status == InFlight then AfterFailure(t.queue, r, r.attempts, now, delay)
      else r
    case Crash(_) => r
  }

  function HeldAfter(t: Table, op: Op): map<nat, nat> {
    match op
    case Claim(chosen, now) =>
      if t.queue != Webhooks then t.held
      else t.held + map i | i in chosen && i < |t.rows| && Claimable(Webhooks, t.rows[i], now) :: t.rows[i].attempts + 1
    case Finish(i) => t.held - {i}
    case Fail(i, _, _) => t.held - {i}
    case Crash(i) => t.held - {i}
    case _ => t.held
  }

  function Step(t: Table, op: Op): Table {
    var rows := seq(|t.rows|, i requires 0 <= i < |t.rows| => Touch(t, i, op));
    Table(t.queue, if op.Enqueue? then rows + [Row(op.sms, Waiting, 0, op.dueAt, 0)] else rows, HeldAfter(t, op))
  }

  ghost function Run(t: Table, ops: seq<Op>): Table {
    if ops == [] then t else Step(Run(t, ops[..|ops| - 1]), ops[|ops| - 1])
  }

  // ---- What every interleaving keeps ----

  ghost predicate RowOk(r: Row) {
    && (r.status == Waiting ==> r.attempts < BUDGET)
    && (r.status == InFlight ==> 1 <= r.attempts <= BUDGET)
    && r.attempts <= BUDGET
  }

  ghost predicate TableOk(t: Table) {
    && (forall i :: 0 <= i < |t.rows| ==> RowOk(t.rows[i]))
    && (t.queue != Notifications ==>
          forall i :: 0 <= i < |t.rows| && t.rows[i].status == Failed ==> t.rows[i].attempts == BUDGET)
    && (forall i :: i in t.held ==>
          && i < |t.rows| && t.queue == Webhooks
          && t.rows[i].status in {InFlight, Done} && t.rows[i].attempts == t.held[i])
  }

  lemma TouchKeeps(t: Table, i: nat, op: Op)
    requires TableOk(t) && i < |t.rows|
    ensures RowOk(Touch(t, i, op))
    ensures t.queue != Notifications && Touch(t, i, op).status == Failed ==> Touch(t, i, op).attempts == BUDGET
  {
    assert RowOk(t.rows[i]);
  }

  lemma HeldKeeps(t: Table, op: Op, i: nat)
    requires TableOk(t) && i in HeldAfter(t, op)
    ensures i < |t.rows| && t.queue == Webhooks && Touch(t, i, op).status in {InFlight, Done}
    ensures Touch(t, i, op).attempts == HeldAfter(t, op)[i]
  {
  }

  lemma StepKeeps(t: Table, op: Op)
    requires TableOk(t)
    ensures TableOk(Step(t, op))
  {
    var u := Step(t, op);
    forall i | 0 <= i < |t.rows| ensures u.rows[i] == Touch(t, i, op) && RowOk(u.rows[i])
      && (t.queue != Notifications && u.rows[i].status == Failed ==> u.rows[i].attempts == BUDGET)
    {
      TouchKeeps(t, i, op);
    }
    forall i | i in u.held
      ensures i < |u.rows| && t.queue == Webhooks && u.rows[i].status in {InFlight, Done}
      ensures u.rows[i].attempts == u.held[i]
    {
      HeldKeeps(t, op, i);
    }
  }

  lemma {:induction false} RunKeeps(t: Table, ops: seq<Op>)
    requires TableOk(t)
    ensures TableOk(Run(t, ops)) && |Run(t, ops).rows| >= |t.rows| && Run(t, ops).queue == t.queue
  {
    if ops != [] {
      RunKeeps(t, ops[..|ops| - 1]);
      StepKeeps(Run(t, ops[..|ops| - 1]), ops[|ops| - 1]);
    }
  }

  lemma EveryRunIsOk(queue: Queue, ops: seq<Op>)
    ensures TableOk(Run(Table(queue, [], map[]), ops))
  {
    RunKeeps(Table(queue, [], map[]), ops);
  }

  predicate Terminal(r: Row) { r.status == Done || r.status == Failed }

  // A row that is sent, delivered, dead or failed, and that no webhook worker still takes for undelivered, never
  // changes again, although the domain-event claim selects FAILED rows.
  lemma {:induction false} TerminalIsAbsorbing(t: Table, ops: seq<Op>, i: nat)
    requires TableOk(t) && i < |t.rows| && Terminal(t.rows[i]) && i !in t.held
    ensures i < |Run(t, ops).rows| && Run(t, ops).rows[i] == t.rows[i] && i !in Run(t, ops).held
  {
    RunKeeps(t, ops);
    if ops != [] {
      var before := Run(t, ops[..|ops| - 1]);
      TerminalIsAbsorbing(t, ops[..|ops| - 1], i);
      RunKeeps(t, ops[..|ops| - 1]);
      assert Run(t, ops).rows[i] == Touch(before, i, ops[|ops| - 1]);
    }
  }

  // A terminal row can still change exactly as long as a webhook worker holds it, whose DELIVERED update committed
  // unseen.
  lemma TerminalMovesIffHeld(t: Table, i: nat)
    requires TableOk(t) && i < |t.rows| && Terminal(t.rows[i])
    ensures i in t.held <==> exists op :: Step(t, op).rows[i] != t.rows[i]
  {
    if i in t.held {
      assert Step(t, Fail(i, 0, 0)).rows[i].status != Done;
    } else {
      forall op ensures Step(t, op).rows[i] == t.rows[i] { assert Step(t, op).rows[i] == Touch(t, i, op); }
    }
  }

  // ---- Attempts are claims minus deferrals ----

  predicate IsClaim(t: Table, i: nat, op: Op) {
    op.Claim? && i in op.chosen && i < |t.rows| && Claimable(t.queue, t.rows[i], op.now)
  }

  predicate IsDeferral(t: Table, i: nat, op: Op) {
    op.Defer? && op.id == i && i < |t.rows| && t.queue == Notifications && t.rows[i].status == InFlight
  }

  ghost function Claims(t: Table, ops: seq<Op>, i: nat): nat {
    if ops == [] then 0
    else Claims(t, ops[..|ops| - 1], i) + if IsClaim(Run(t, ops[..|ops| - 1]), i, ops[|ops| - 1]) then 1 else 0
  }

  ghost function Deferrals(t: Table, ops: seq<Op>, i: nat): nat {
    if ops == [] then 0
    else Deferrals(t, ops[..|ops| - 1], i) + if IsDeferral(Run(t, ops[..|ops| - 1]), i, ops[|ops| - 1]) then 1 else 0
  }

  lemma {:induction false} NoClaimYet(t: Table, ops: seq<Op>, i: nat)
    requires i >= |Run(t, ops).rows|
    ensures Claims(t, ops, i) == 0 && Deferrals(t, ops, i) == 0
  {
    if ops != [] { NoClaimYet(t, ops[..|ops| - 1], i); }
  }

  // Over every run from an empty queue: attempts is claims minus deferrals, so a row is claimed at most
  // eight times net of deferrals.
  lemma {:induction false} AttemptsAreClaims(t: Table, ops: seq<Op>, i: nat)
    requires t.rows == [] && t.held == map[] && i < |Run(t, ops).rows|
    ensures Run(t, ops).rows[i].attempts == Claims(t, ops, i) - Deferrals(t, ops, i)
    ensures Claims(t, ops, i) <= BUDGET + Deferrals(t, ops, i)
  {
    var before, op := Run(t, ops[..|ops| - 1]), ops[|ops| - 1];
    RunKeeps(t, ops[..|ops| - 1]);
    if i < |before.rows| {
      AttemptsAreClaims(t, ops[..|ops| - 1], i);
      TouchCounts(before, i, op);
      assert Run(t, ops).rows[i] == Touch(before, i, op);
    } else {
      NoClaimYet(t, ops[..|ops| - 1], i);
    }
    RunKeeps(t, ops);
    assert RowOk(Run(t, ops).rows[i]);
  }

  // A step counts an attempt when it claims the row, and gives one back when it defers it.
  lemma TouchCounts(t: Table, i: nat, op: Op)
    requires TableOk(t) && i < |t.rows|
    ensures Touch(t, i, op).attempts
         == t.rows[i].attempts + (if IsClaim(t, i, op) then 1 else 0) - (if IsDeferral(t, i, op) then 1 else 0)
  {
    assert RowOk(t.rows[i]);
  }

  const NO_WEBHOOKS := Table(Webhooks, [], map[])
  const CLAIM := [Enqueue(false, 0), Claim({0}, 0)]
  const CLAIMED := Table(Webhooks, [Row(false, InFlight, 1, 0, 0)], map[0 := 1])

  lemma RunMore(t: Table, ops: seq<Op>, op: Op)
    ensures Run(t, ops + [op]) == Step(Run(t, ops), op)
  {
    assert (ops + [op])[..|ops|] == ops;
  }

  lemma OneClaimed()
    ensures Run(NO_WEBHOOKS, CLAIM) == CLAIMED
  {
    var waiting := Table(Webhooks, [Row(false, Waiting, 0, 0, 0)], map[]);
    assert CLAIM[..1][..0] == [];
    assert Step(NO_WEBHOOKS, CLAIM[0]).rows == waiting.rows;
    assert Step(waiting, CLAIM[1]).rows == CLAIMED.rows;
    assert HeldAfter(waiting, CLAIM[1]) == CLAIMED.held;
  }

  // It happens: a worker claims a row and dies.
  lemma WorkersAbandon()
    ensures var t := Run(NO_WEBHOOKS, CLAIM + [Crash(0)]);
      TableOk(t) && |t.rows| == 1 && t.rows[0].status == InFlight && 0 !in t.held
  {
    OneClaimed();
    RunMore(NO_WEBHOOKS, CLAIM, Crash(0));
    RunKeeps(NO_WEBHOOKS, CLAIM + [Crash(0)]);
  }

  // It happens: a row is delivered and its update commits unseen, the worker writes RETRY over DELIVERED, and the row
  // is claimed to be delivered again.
  lemma DeliveredTwice()
    ensures Run(NO_WEBHOOKS, CLAIM + [FinishUnseen(0)]).rows == [Row(false, Done, 1, 0, 0)]
    ensures Run(NO_WEBHOOKS, CLAIM + [FinishUnseen(0)] + [Fail(0, 0, 0)] + [Claim({0}, 15)]).rows
         == [Row(false, InFlight, 2, 15, 15)]
  {
    var done, retry := Table(Webhooks, [Row(false, Done, 1, 0, 0)], map[0 := 1]),
                       Table(Webhooks, [Row(false, Waiting, 1, 15, 0)], map[]);
    OneClaimed();
    RunMore(NO_WEBHOOKS, CLAIM, FinishUnseen(0));
    RunMore(NO_WEBHOOKS, CLAIM + [FinishUnseen(0)], Fail(0, 0, 0));
    RunMore(NO_WEBHOOKS, CLAIM + [FinishUnseen(0)] + [Fail(0, 0, 0)], Claim({0}, 15));
    assert Step(CLAIMED, FinishUnseen(0)) == done by { assert Step(CLAIMED, FinishUnseen(0)).rows == done.rows; }
    RetriedAfterDone(done, retry);
    assert Step(retry, Claim({0}, 15)).rows == [Row(false, InFlight, 2, 15, 15)];
  }

  lemma RetriedAfterDone(done: Table, retry: Table)
    requires done == Table(Webhooks, [Row(false, Done, 1, 0, 0)], map[0 := 1])
    requires retry == Table(Webhooks, [Row(false, Waiting, 1, 15, 0)], map[])
    ensures Step(done, Fail(0, 0, 0)) == retry
  {
    assert Pow2(0) == 1 && Backoff(1) == 15;
    assert Step(done, Fail(0, 0, 0)).rows == retry.rows;
  }

  // A webhook row in flight can still change exactly as long as a live worker holds it.
  lemma DeliveryMovesIffHeld(t: Table, i: nat)
    requires TableOk(t) && t.queue == Webhooks && i < |t.rows| && t.rows[i].status == InFlight
    ensures i in t.held <==> exists op :: Step(t, op).rows[i] != t.rows[i]
  {
    if i in t.held {
      assert Step(t, Finish(i)).rows[i].status == Done;
    } else {
      forall op ensures Step(t, op).rows[i] == t.rows[i] { assert Step(t, op).rows[i] == Touch(t, i, op); }
    }
  }

  // A webhook row whose worker dies stays in flight: nothing recovers it.
  lemma {:induction false} AbandonedDeliveryIsStuck(t: Table, ops: seq<Op>, i: nat)
    requires TableOk(t) && t.queue == Webhooks && i < |t.rows| && t.rows[i].status == InFlight && i !in t.held
    ensures i < |Run(t, ops).rows| && Run(t, ops).rows[i] == t.rows[i] && i !in Run(t, ops).held
  {
    RunKeeps(t, ops);
    if ops != [] {
      AbandonedDeliveryIsStuck(t, ops[..|ops| - 1], i);
      RunKeeps(t, ops[..|ops| - 1]);
      assert Run(t, ops).rows[i] == Touch(Run(t, ops[..|ops| - 1]), i, ops[|ops| - 1]);
    }
  }
}
