// What each queue operation does to a row, in the terms of the clock and of the row's attempts: when a claim may take
// it, when a lock is stale, and how long a failed row waits.
module QueueRequests {
  import opened Arithmetic
  import opened Queues
  import opened QueueTable

  // ---- Claims ----

  // The row may be claimed: it waits, or is a failed event, its time has come and its attempts are not used up, which
  // the webhook queue does not test.
  predicate Takes(q: Queue, r: Row, now: int) {
    && (r.status == Waiting || (q == DomainEvents && r.status == Failed))
    && r.dueAt <= now && (q != Webhooks ==> r.attempts < 8)
  }

  // A claim takes the chosen rows that may be taken, counts an attempt and locks them now; it touches no others. The
  // webhook worker holds what it takes, with the attempt.
  lemma ClaimTakesDue(t: Table, chosen: set<nat>, now: int, i: nat)
    requires i < |t.rows|
    ensures var u, r := Step(t, Claim(chosen, now)), t.rows[i];
      && |u.rows| == |t.rows| && u.queue == t.queue
      && u.rows[i] == (if i in chosen && Takes(t.queue, r, now)
                       then r.(status := InFlight, attempts := r.attempts + 1, lockedAt := now) else r)
      && (if t.queue == Webhooks && i in chosen && Takes(t.queue, r, now)
          then i in u.held && u.held[i] == r.attempts + 1
          else (i in u.held <==> i in t.held) && (i in t.held ==> u.held[i] == t.held[i]))
  {
  }

  // ---- Stale locks ----

  // The age a lock may reach, in minutes: between one and a day.
  predicate AgeOf(minutes: int, age: int) {
    1 <= age <= 1440 && (1 <= minutes <= 1440 ==> age == minutes) && (minutes < 1 ==> age == 1)
    && (minutes > 1440 ==> age == 1440)
  }

  // Recovery frees exactly the rows whose lock is older than that: they wait again from now on, or have failed if their
  // attempts are used up. The webhook queue recovers nothing.
  lemma RecoveryFreesStale(t: Table, now: int, minutes: int, age: int, i: nat)
    requires i < |t.rows| && AgeOf(minutes, age)
    ensures var u, r := Step(t, Recover(now, minutes)), t.rows[i];
      && |u.rows| == |t.rows| && u.held == t.held
      && (if t.queue != Webhooks && r.status == InFlight && r.lockedAt < now - 60 * age
          then && u.rows[i].attempts == r.attempts && u.rows[i].lockedAt == r.lockedAt && u.rows[i].sms == r.sms
               && (r.attempts < 8 ==> u.rows[i].status == Waiting && u.rows[i].dueAt == now)
               && (r.attempts >= 8 ==> u.rows[i].status == Failed
                                       && u.rows[i].dueAt == if t.queue == DomainEvents then now else r.dueAt)
          else u.rows[i] == r)
  {
  }

  // ---- One row at a time ----

  predicate AboutRow(op: Op, i: nat) {
    match op
    case Defer(id, _) => id == i
    case Finish(id) => id == i
    case FinishUnseen(id) => id == i
    case Reject(id) => id == i
    case Fail(id, _, _) => id == i
    case Crash(id) => id == i
    case _ => false
  }

  // These touch no other row, and let go of no other.
  lemma OthersAreUntouched(t: Table, op: Op, i: nat, k: nat)
    requires AboutRow(op, i) && k != i && k < |t.rows|
    ensures |Step(t, op).rows| == |t.rows| && Step(t, op).rows[k] == t.rows[k]
    ensures (k in Step(t, op).held <==> k in t.held) && (k in t.held ==> Step(t, op).held[k] == t.held[k])
  {
  }

  // The caller may write the row: an outbox worker while it is in flight, a webhook worker while it holds it.
  predicate Writes(t: Table, i: nat)
    requires i < |t.rows|
  {
    if t.queue == Webhooks then i in t.held else t.rows[i].status == InFlight
  }

  // A finished row is done, and let go of unless its worker did not learn so; a rejected notification has failed; a
  // deferred one gives its attempt back and waits five minutes; a crash changes no row.
  lemma RowEnds(t: Table, i: nat, now: int)
    requires i < |t.rows|
    ensures var r, mine := t.rows[i], Writes(t, i);
      && Step(t, Finish(i)).rows[i] == (if mine then r.(status := Done) else r) && i !in Step(t, Finish(i)).held
      && Step(t, FinishUnseen(i)).rows[i] == (if mine then r.(status := Done) else r)
      && Step(t, FinishUnseen(i)).held == t.held
      && Step(t, Reject(i)).rows[i] == (if mine && t.queue == Notifications then r.(status := Failed) else r)
      && Step(t, Defer(i, now)).rows[i] ==
           (if mine && t.queue == Notifications
            then r.(status := Waiting, attempts := if r.attempts == 0 then 0 else r.attempts - 1, dueAt := now + 300)
            else r)
      && Step(t, Crash(i)).rows[i] == r && i !in Step(t, Crash(i)).held
  {
  }

  // A failed notification waits as long as its worker asks, between five seconds and a day; a failed event five
  // seconds, or a minute once it has failed for good; a failed delivery waits by its attempt. At eight attempts the
  // row has failed.
  lemma FailuresWait(t: Table, i: nat, now: int, delay: int)
    requires TableOk(t) && i < |t.rows| && Writes(t, i)
    ensures var u, r := Step(t, Fail(i, now, delay)).rows[i], t.rows[i];
      && u == r.(status := u.status, dueAt := u.dueAt) && i !in Step(t, Fail(i, now, delay)).held
      && (u.status == Failed <==> r.attempts >= 8) && (u.status == Waiting <==> r.attempts < 8)
      && (t.queue == Notifications ==>
            && (r.attempts >= 8 ==> u.dueAt == r.dueAt)
            && (r.attempts < 8 ==> now + 5 <= u.dueAt <= now + 86400)
            && (r.attempts < 8 && 5 <= delay <= 86400 ==> u.dueAt == now + delay)
            && (r.attempts < 8 && delay < 5 ==> u.dueAt == now + 5)
            && (r.attempts < 8 && delay > 86400 ==> u.dueAt == now + 86400))
      && (t.queue == DomainEvents ==> u.dueAt == now + if r.attempts >= 8 then 60 else 5)
      && (t.queue == Webhooks ==> u.dueAt == now + Backoff(r.attempts))
  {
  }

  lemma NoFailureOfOthers(t: Table, i: nat, now: int, delay: int)
    requires i < |t.rows| && !Writes(t, i)
    ensures Step(t, Fail(i, now, delay)).rows[i] == t.rows[i]
  {
  }

  // A delivery's first retry comes after 15 seconds; each further one takes twice as long, up to an hour.
  lemma {:induction false} BackoffDoubles(attempt: nat)
    ensures Backoff(1) == 15
    ensures attempt >= 1 ==> Backoff(attempt + 1) == if 2 * Backoff(attempt) > 3600 then 3600 else 2 * Backoff(attempt)
  {
    assert Pow2(0) == 1;
    if 1 <= attempt <= 8 {
      assert Pow2(attempt) == 2 * Pow2(attempt - 1);
    } else if attempt > 8 {
      assert Pow2(4) == 16 && Pow2(8) == 256;
    }
  }

  // A new row waits from the time given, without attempts.
  lemma NewRowWaits(t: Table, sms: bool, dueAt: int)
    ensures var u := Step(t, Enqueue(sms, dueAt));
      && |u.rows| == |t.rows| + 1 && u.held == t.held && (forall i :: 0 <= i < |t.rows| ==> u.rows[i] == t.rows[i])
      && u.rows[|t.rows|].sms == sms && u.rows[|t.rows|].status == Waiting && u.rows[|t.rows|].attempts == 0
      && u.rows[|t.rows|].dueAt == dueAt
  {
  }

  // ---- The order and size of a claim ----

  // A claim asks for at least one row and at most a hundred, and for 25 if it does not say.
  lemma LimitIsSafe(limit: int)
    ensures 1 <= SafeLimit(limit) <= 100 && (1 <= limit <= 100 ==> SafeLimit(limit) == limit)
    ensures SafeLimit(0) == 25 && (limit < 0 ==> SafeLimit(limit) == 1) && (limit > 100 ==> SafeLimit(limit) == 100)
  {
  }

  // Rows are taken by age, or by the time they are due and then by age; and only rows a claim takes that nobody locks.
  lemma OrderIsByAge(byDue: bool, rows: seq<Row>, i: nat, j: nat)
    requires i < |rows| && j < |rows|
    ensures Ahead(byDue, rows, i, j) <==>
            if byDue then rows[i].dueAt < rows[j].dueAt || (rows[i].dueAt == rows[j].dueAt && i < j) else i < j
  {
  }

  lemma SelectedMayBeTaken(q: Queue, rows: seq<Row>, smsOnly: bool, locked: set<nat>, now: int, i: nat)
    requires i < |rows|
    ensures Selectable(q, rows, smsOnly, locked, now, i) <==>
            Takes(q, rows[i], now) && i !in locked && (smsOnly ==> rows[i].sms)
  {
  }
}
