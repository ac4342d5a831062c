// Laws of the field-job tables: offline batches are idempotent and compose, and the event trail replays to
// the stored job state across manual and offline writers.
module FieldLaws {
  import opened Common
  import opened FieldJobs

  // ---- Receipts ----

  ghost predicate ReceiptsOk(s: Field) {
    forall id :: id in s.receipts ==> s.receipts[id].answer == Ack(id, s.receipts[id].job, s.receipts[id].kind, false)
  }

  // s holds a receipt that answers op.
  predicate Known(s: Field, op: Operation) {
    op.id in s.receipts && s.receipts[op.id].job == op.job && s.receipts[op.id].kind == op.kind
  }

  ghost predicate KeepsReceipts(s: Field, t: Field) {
    forall id :: id in s.receipts ==> id in t.receipts && t.receipts[id] == s.receipts[id]
  }

  function Answer(op: Operation, replayed: bool): Ack { Ack(op.id, op.job, op.kind, replayed) }

  lemma ReceiveOne(b: Batch, actor: nat, op: Operation, now: int)
    requires ReceiptsOk(b.state) && Receive(b, actor, op, now).Ok?
    ensures var c := Receive(b, actor, op, now).value;
      && ReceiptsOk(c.state) && KeepsReceipts(b.state, c.state) && Known(c.state, op)
      && c.report.answers == b.report.answers + [Answer(op, op.id in b.state.receipts)]
      && c.report.accepted + c.report.replayed == b.report.accepted + b.report.replayed + 1
  {
    if op.id !in b.state.receipts {
      var t := Perform(b.state, actor, op, now).value;
      assert t.receipts == b.state.receipts;
    }
  }

  lemma {:induction false} ReceiveManyKeeps(b: Batch, actor: nat, ops: seq<Operation>, now: int)
    requires ReceiptsOk(b.state) && ReceiveAll(b, actor, ops, now).Ok?
    ensures var c := ReceiveAll(b, actor, ops, now).value;
      && ReceiptsOk(c.state) && KeepsReceipts(b.state, c.state)
      && (forall k :: 0 <= k < |ops| ==> Known(c.state, ops[k]))
  {
    if ops != [] {
      var n := |ops| - 1;
      ReceiveManyKeeps(b, actor, ops[..n], now);
      var m := ReceiveAll(b, actor, ops[..n], now).value;
      ReceiveOne(m, actor, ops[n], now);
      forall k | 0 <= k < n ensures Known(m.state, ops[k]) { assert ops[..n][k] == ops[k]; }
    }
  }

  ghost predicate Answered(before: SyncReport, after: SyncReport, ops: seq<Operation>) {
    && |after.answers| == |before.answers| + |ops|
    && (forall k :: 0 <= k < |ops| ==>
          after.answers[|before.answers| + k] == Answer(ops[k], after.answers[|before.answers| + k].replayed))
    && after.accepted + after.replayed == before.accepted + before.replayed + |ops|
  }

  lemma AnsweredMore(before: SyncReport, middle: SyncReport, after: SyncReport, front: seq<Operation>, op: Operation,
                     replayed: bool)
    requires Answered(before, middle, front) && after.answers == middle.answers + [Answer(op, replayed)]
    requires after.accepted + after.replayed == middle.accepted + middle.replayed + 1
    ensures Answered(before, after, front + [op])
  {
  }

  lemma {:induction false} ReceiveMany(b: Batch, actor: nat, ops: seq<Operation>, now: int)
    requires ReceiptsOk(b.state) && ReceiveAll(b, actor, ops, now).Ok?
    ensures var c := ReceiveAll(b, actor, ops, now).value;
      && ReceiptsOk(c.state) && KeepsReceipts(b.state, c.state)
      && (forall k :: 0 <= k < |ops| ==> Known(c.state, ops[k]))
      && Answered(b.report, c.report, ops)
  {
    ReceiveManyKeeps(b, actor, ops, now);
    if ops != [] {
      var front, op := ops[..|ops| - 1], ops[|ops| - 1];
      ReceiveMany(b, actor, front, now);
      var m := ReceiveAll(b, actor, front, now).value;
      ReceiveOne(m, actor, op, now);
      assert ops == front + [op];
      var c := ReceiveAll(b, actor, ops, now).value;
      AnsweredMore(b.report, m.report, c.report, front, op, op.id in m.state.receipts);
    }
  }

  // Every operation of a successful batch is answered, in order, as accepted or replayed.
  lemma SyncAnswersAll(s: Field, actor: nat, ops: seq<Operation>, now: int)
    requires ReceiptsOk(s) && Sync(s, actor, ops, now).1.Ok?
    ensures var (t, r) := Sync(s, actor, ops, now);
      && r.value.accepted + r.value.replayed == |ops| == |r.value.answers|
      && (forall k :: 0 <= k < |ops| ==> r.value.answers[k] == Answer(ops[k], r.value.answers[k].replayed))
      && ReceiptsOk(t) && KeepsReceipts(s, t) && forall k :: 0 <= k < |ops| ==> Known(t, ops[k])
  {
    ReceiveMany(Batch(s, NOTHING), actor, ops, now);
    AnsweredFromNothing(Sync(s, actor, ops, now).1.value, ops);
  }

  lemma AnsweredFromNothing(report: SyncReport, ops: seq<Operation>)
    requires Answered(NOTHING, report, ops)
    ensures report.accepted + report.replayed == |ops| == |report.answers|
    ensures forall k :: 0 <= k < |ops| ==> report.answers[k] == Answer(ops[k], report.answers[k].replayed)
  {
    forall k | 0 <= k < |ops| ensures report.answers[k] == Answer(ops[k], report.answers[k].replayed) {
      assert report.answers[|NOTHING.answers| + k] == report.answers[k];
    }
  }

  lemma {:induction false} ReplayMany(s: Field, r: SyncReport, actor: nat, ops: seq<Operation>, now: int)
    requires ReceiptsOk(s) && forall k :: 0 <= k < |ops| ==> Known(s, ops[k])
    ensures ReceiveAll(Batch(s, r), actor, ops, now).Ok?
    ensures var c := ReceiveAll(Batch(s, r), actor, ops, now).value;
      c.state == s && c.report.accepted == r.accepted && c.report.replayed == r.replayed + |ops|
  {
    if ops != [] { ReplayMany(s, r, actor, ops[..|ops| - 1], now); }
  }

  // Resubmitting a batch, then or after anything that keeps its receipts, replays every operation and changes nothing.
  lemma ResubmissionReplays(s: Field, actor: nat, ops: seq<Operation>, now: int, u: Field, actor': nat, now': int)
    requires ReceiptsOk(s) && Sync(s, actor, ops, now).1.Ok?
    requires ReceiptsOk(u) && KeepsReceipts(Sync(s, actor, ops, now).0, u)
    ensures var (v, r) := Sync(u, actor', ops, now');
      v == u && r.Ok? && r.value.accepted == 0 && r.value.replayed == |ops|
  {
    SyncAnswersAll(s, actor, ops, now);
    ReplayMany(u, NOTHING, actor', ops, now');
  }

  // ---- Batches compose ----

  function Plus(a: SyncReport, b: SyncReport): SyncReport {
    SyncReport(a.accepted + b.accepted, a.replayed + b.replayed, a.answers + b.answers)
  }

  // A batch does not read the report so far or the audit rows.
  lemma {:induction false} ReceiveShifts(s: Field, audits: seq<Audit>, r: SyncReport, actor: nat,
                                        ops: seq<Operation>, now: int)
    ensures var plain := ReceiveAll(Batch(s, NOTHING), actor, ops, now);
      ReceiveAll(Batch(s.(audits := audits), r), actor, ops, now) ==
        match plain
        case Err(e) => Err(e)
        case Ok(b) => Ok(Batch(b.state.(audits := audits), Plus(r, b.report)))
  {
    if ops == [] {
      assert r.answers + [] == r.answers;
    } else {
      var n := |ops| - 1;
      ReceiveShifts(s, audits, r, actor, ops[..n], now);
      var plain := ReceiveAll(Batch(s, NOTHING), actor, ops[..n], now);
      if plain.Ok? { ReceiveOneShifts(plain.value, audits, r, actor, ops[n], now); }
    }
  }

  lemma ReceiveOneShifts(b: Batch, audits: seq<Audit>, r: SyncReport, actor: nat, op: Operation, now: int)
    ensures Receive(Batch(b.state.(audits := audits), Plus(r, b.report)), actor, op, now) ==
        match Receive(b, actor, op, now)
        case Err(e) => Err(e)
        case Ok(c) => Ok(Batch(c.state.(audits := audits), Plus(r, c.report)))
  {
    var one := Receive(b, actor, op, now);
    if one.Ok? {
      var last := one.value.report.answers[|b.report.answers|];
      assert r.answers + (b.report.answers + [last]) == (r.answers + b.report.answers) + [last];
    }
  }

  function Continue(r: Result<Batch>, actor: nat, ops: seq<Operation>, now: int): Result<Batch> {
    if r.Ok? then ReceiveAll(r.value, actor, ops, now) else r
  }

  lemma ReceiveLast(b: Batch, actor: nat, ops: seq<Operation>, op: Operation, now: int)
    ensures ReceiveAll(b, actor, ops + [op], now) == Continue(ReceiveAll(b, actor, ops, now), actor, [op], now)
  {
    assert (ops + [op])[..|ops|] == ops;
    var r := ReceiveAll(b, actor, ops, now);
    if r.Ok? {
      assert [op][..0] == [];
      assert ReceiveAll(r.value, actor, [], now) == r;
    }
  }

  lemma {:induction false} ReceiveConcat(b: Batch, actor: nat, first: seq<Operation>, second: seq<Operation>, now: int)
    ensures ReceiveAll(b, actor, first + second, now) == Continue(ReceiveAll(b, actor, first, now), actor, second, now)
  {
    if second == [] {
      assert first + second == first;
    } else {
      var n := |second| - 1;
      var r := ReceiveAll(b, actor, first, now);
      ReceiveConcat(b, actor, first, second[..n], now);
      ReceiveLast(b, actor, first + second[..n], second[n], now);
      assert first + second == first + second[..n] + [second[n]] && second == second[..n] + [second[n]];
      if r.Ok? { ReceiveLast(r.value, actor, second[..n], second[n], now); }
    }
  }

  // Syncing a concatenation succeeds exactly when syncing its parts in order does, with the same answers and the
  // same tables up to audit rows.
  lemma SyncConcat(s: Field, actor: nat, first: seq<Operation>, second: seq<Operation>, now: int)
    requires 1 <= |first| && 1 <= |second| && |first| + |second| <= 100
    ensures var (whole, r) := Sync(s, actor, first + second, now);
      var (half, p) := Sync(s, actor, first, now);
      var (parts, q) := Sync(half, actor, second, now);
      && (r.Ok? <==> p.Ok? && q.Ok?)
      && (r.Ok? ==> parts.(audits := whole.audits) == whole && r.value == Plus(p.value, q.value))
  {
    ReceiveConcat(Batch(s, NOTHING), actor, first, second, now);
    var a := ReceiveAll(Batch(s, NOTHING), actor, first, now);
    if a.Ok? {
      var m := a.value;
      ReceiveShifts(m.state, m.state.audits, m.report, actor, second, now);
      ReceiveShifts(m.state, Sync(s, actor, first, now).0.audits, NOTHING, actor, second, now);
      assert m.state.(audits := m.state.audits) == m.state;
      var tail := ReceiveAll(Batch(m.state, NOTHING), actor, second, now);
      if tail.Ok? { assert [] + tail.value.report.answers == tail.value.report.answers; }
    }
  }

  // ---- Trails ----

  datatype Op =
    | Add(assignee: Option<nat>, priority: string, description: string, scheduledAt: Option<int>)
    | Change(job: nat, update: JobUpdate, at: int)
    | Upload(actor: nat, operations: seq<Operation>, now: int)

  function Step(s: Field, op: Op): Field {
    match op
    case Add(a, p, description, at) => CreateJob(s, a, p, description, at).0
    case Change(j, d, at) => UpdateJob(s, j, d, at).0
    case Upload(actor, ops, now) => Sync(s, actor, ops, now).0
  }

  ghost function Run(s: Field, ops: seq<Op>): Field {
    if ops == [] then s else Step(Run(s, ops[..|ops| - 1]), ops[|ops| - 1])
  }

  const EMPTY := Field([], [], map[], map[], [])

  // The status the trail says job j has.
  function Replayed(events: seq<JobEvent>, j: nat): Option<JobStatus> {
    if events == [] then None
    else
      var last := events[|events| - 1];
      if last.job == j then Some(last.to) else Replayed(events[..|events| - 1], j)
  }

  // Event k starts from the status the earlier events of its job led to.
  ghost predicate Links(events: seq<JobEvent>, k: nat)
    requires k < |events|
  {
    events[k].from == Replayed(events[..k], events[k].job)
  }

  ghost predicate EventOk(e: JobEvent) {
    match e.kind
    case Created => e.from == None && e.to == Open
    case Note => e.from == Some(e.to)
    case StatusChanged => e.from.Some? && e.from.value != e.to
    case OfflineStatusChanged => e.from.Some? && e.to in Allowed(e.from.value)
  }

  ghost predicate JobsOk(s: Field) {
    && (forall k :: 0 <= k < |s.events| ==> Links(s.events, k) && EventOk(s.events[k]) && s.events[k].job < |s.jobs|)
    && (forall j :: 0 <= j < |s.jobs| ==>
          && Replayed(s.events, j) == Some(s.jobs[j].status)
          && (s.jobs[j].completedAt.Some? <==> s.jobs[j].status == Completed))
  }

  ghost predicate FieldOk(s: Field) { JobsOk(s) && ReceiptsOk(s) }

  lemma {:induction false} NoEvents(events: seq<JobEvent>, j: nat)
    requires forall k :: 0 <= k < |events| ==> events[k].job != j
    ensures Replayed(events, j) == None
  {
    if events != [] { NoEvents(events[..|events| - 1], j); }
  }

  // Appending an event that starts where its job's trail ends, together with the job it describes.
  lemma Appended(s: Field, t: Field, e: JobEvent)
    requires JobsOk(s) && t.events == s.events + [e] && EventOk(e) && e.from == Replayed(s.events, e.job)
    requires e.job < |t.jobs| && |s.jobs| <= |t.jobs| <= |s.jobs| + 1 && (|t.jobs| > |s.jobs| ==> e.job == |s.jobs|)
    requires forall j :: 0 <= j < |t.jobs| && j != e.job ==> t.jobs[j] == s.jobs[j]
    requires t.jobs[e.job].status == e.to && (t.jobs[e.job].completedAt.Some? <==> e.to == Completed)
    ensures JobsOk(t)
  {
    assert t.events[..|s.events|] == s.events;
    forall k | 0 <= k < |t.events| ensures Links(t.events, k) {
      if k < |s.events| {
        assert Links(s.events, k);
        assert t.events[..k] == s.events[..k];
      }
    }
  }

  lemma PerformKeeps(s: Field, actor: nat, op: Operation, now: int)
    requires JobsOk(s) && Perform(s, actor, op, now).Ok?
    ensures JobsOk(Perform(s, actor, op, now).value)
  {
    var t := Perform(s, actor, op, now).value;
    if t.events != s.events { Appended(s, t, t.events[|s.events|]); }
  }

  lemma {:induction false} ReceiveAllKeeps(b: Batch, actor: nat, ops: seq<Operation>, now: int)
    requires JobsOk(b.state) && ReceiveAll(b, actor, ops, now).Ok?
    ensures JobsOk(ReceiveAll(b, actor, ops, now).value.state)
  {
    if ops != [] {
      ReceiveAllKeeps(b, actor, ops[..|ops| - 1], now);
      var m := ReceiveAll(b, actor, ops[..|ops| - 1], now).value;
      if ops[|ops| - 1].id !in m.state.receipts { PerformKeeps(m.state, actor, ops[|ops| - 1], now); }
    }
  }

  lemma StepKeeps(s: Field, op: Op)
    requires FieldOk(s)
    ensures FieldOk(Step(s, op)) && KeepsReceipts(s, Step(s, op))
  {
    var t := Step(s, op);
    match op
    case Add(_, _, _, _) =>
      NoEvents(s.events, |s.jobs|);
      Appended(s, t, t.events[|s.events|]);
    case Change(j, d, at) =>
      if j < |s.jobs| {
        if |t.events| > |s.events| { Appended(s, t, t.events[|s.events|]); }
        else { assert t.events == s.events; }
      }
    case Upload(actor, ops, now) => SyncKeeps(s, actor, ops, now);
  }

  lemma SyncKeeps(s: Field, actor: nat, ops: seq<Operation>, now: int)
    requires FieldOk(s)
    ensures FieldOk(Sync(s, actor, ops, now).0) && KeepsReceipts(s, Sync(s, actor, ops, now).0)
  {
    if Sync(s, actor, ops, now).1.Ok? {
      ReceiveAllKeeps(Batch(s, NOTHING), actor, ops, now);
      SyncAnswersAll(s, actor, ops, now);
    }
  }

  // In every run, consecutive events of a job link up, the last one is the stored status, a job has a completion
  // time exactly when COMPLETED, and offline changes follow the transition table.
  lemma {:induction false} TrailsReplay(s: Field, ops: seq<Op>)
    requires FieldOk(s)
    ensures FieldOk(Run(s, ops)) && KeepsReceipts(s, Run(s, ops))
  {
    if ops != [] {
      TrailsReplay(s, ops[..|ops| - 1]);
      StepKeeps(Run(s, ops[..|ops| - 1]), ops[|ops| - 1]);
    }
  }

  // ---- Transitions ----

  predicate Closed(j: Job) { j.status == Completed || j.status == Canceled }

  // No batch moves a job out of COMPLETED or CANCELED.
  lemma {:induction false} BatchKeepsClosedJobs(b: Batch, actor: nat, ops: seq<Operation>, now: int, j: nat)
    requires j < |b.state.jobs| && Closed(b.state.jobs[j]) && ReceiveAll(b, actor, ops, now).Ok?
    ensures var t := ReceiveAll(b, actor, ops, now).value.state; j < |t.jobs| && t.jobs[j] == b.state.jobs[j]
  {
    if ops != [] { BatchKeepsClosedJobs(b, actor, ops[..|ops| - 1], now, j); }
  }

  // Status by status, the way a job moves is a walk in the transition table.
  ghost predicate Walk(path: seq<JobStatus>) {
    && path != []
    && forall k :: 0 <= k < |path| - 1 ==> path[k + 1] in Allowed(path[k])
  }

  ghost predicate Connects(path: seq<JobStatus>, from: JobStatus, to: JobStatus) {
    Walk(path) && path[0] == from && path[|path| - 1] == to
  }

  // The event of an offline status change.
  predicate IsMove(e: JobEvent, j: nat) { e.job == j && e.kind == OfflineStatusChanged }

  // The statuses that offline changes gave the job, in order.
  function Moves(events: seq<JobEvent>, j: nat): seq<JobStatus> {
    if events == [] then []
    else
      var e := events[|events| - 1];
      Moves(events[..|events| - 1], j) + if IsMove(e, j) then [e.to] else []
  }

  // The job's status in s, and those the events appended since gave it.
  function PathOf(s: Field, t: Field, j: nat): seq<JobStatus>
    requires j < |s.jobs| && |s.events| <= |t.events|
  {
    [s.jobs[j].status] + Moves(t.events[|s.events|..], j)
  }

  ghost predicate Walked(s: Field, t: Field, j: nat)
    requires j < |s.jobs|
  {
    && j < |t.jobs| && s.events <= t.events
    && Connects(PathOf(s, t, j), s.jobs[j].status, t.jobs[j].status)
  }

  lemma MovesMore(events: seq<JobEvent>, e: JobEvent, j: nat)
    ensures Moves(events + [e], j)
         == Moves(events, j) + if IsMove(e, j) then [e.to] else []
  {
    assert (events + [e])[..|events|] == events;
  }

  // An operation appends at most one event, and a move exactly when it changes the job's status.
  lemma PerformMoves(m: Field, actor: nat, op: Operation, now: int, j: nat)
    requires j < |m.jobs| && Perform(m, actor, op, now).Ok?
    ensures var t := Perform(m, actor, op, now).value;
      && j < |t.jobs| && m.events <= t.events && |t.events| <= |m.events| + 1
      && (if |t.events| > |m.events| && IsMove(t.events[|m.events|], j)
          then t.events[|m.events|].to == t.jobs[j].status && t.jobs[j].status in Allowed(m.jobs[j].status)
          else t.jobs[j].status == m.jobs[j].status)
  {
  }

  lemma ConnectsMore(path: seq<JobStatus>, a: JobStatus, b: JobStatus, c: JobStatus)
    requires Connects(path, a, b) && c in Allowed(b)
    ensures Connects(path + [c], a, c)
  {
  }

  // So it adds at most one step to the job's path.
  lemma PerformWalks(s: Field, m: Field, actor: nat, op: Operation, now: int, j: nat)
    requires j < |s.jobs| && Walked(s, m, j) && Perform(m, actor, op, now).Ok?
    ensures Walked(s, Perform(m, actor, op, now).value, j)
  {
    var t := Perform(m, actor, op, now).value;
    PerformMoves(m, actor, op, now, j);
    if |t.events| > |m.events| { PathGrows(s, m, t, j); } else { assert t.events == m.events; }
  }

  lemma PathGrows(s: Field, m: Field, t: Field, j: nat)
    requires j < |s.jobs| && Walked(s, m, j) && j < |t.jobs| && m.events <= t.events && |t.events| == |m.events| + 1
    requires if IsMove(t.events[|m.events|], j)
             then t.events[|m.events|].to == t.jobs[j].status && t.jobs[j].status in Allowed(m.jobs[j].status)
             else t.jobs[j].status == m.jobs[j].status
    ensures Walked(s, t, j)
  {
    var e, path := t.events[|m.events|], PathOf(s, m, j);
    assert t.events[|s.events|..] == m.events[|s.events|..] + [e];
    MovesMore(m.events[|s.events|..], e, j);
    if IsMove(e, j) {
      assert PathOf(s, t, j) == path + [e.to];
      ConnectsMore(path, s.jobs[j].status, m.jobs[j].status, e.to);
    } else {
      assert PathOf(s, t, j) == path;
    }
  }

  lemma {:induction false} BatchWalks(b: Batch, actor: nat, ops: seq<Operation>, now: int, j: nat)
    requires j < |b.state.jobs| && ReceiveAll(b, actor, ops, now).Ok?
    ensures Walked(b.state, ReceiveAll(b, actor, ops, now).value.state, j)
  {
    if ops == [] {
      assert PathOf(b.state, b.state, j) == [b.state.jobs[j].status];
    } else {
      var front, op := ops[..|ops| - 1], ops[|ops| - 1];
      BatchWalks(b, actor, front, now, j);
      var m := ReceiveAll(b, actor, front, now).value.state;
      if op.id !in m.receipts { PerformWalks(b.state, m, actor, op, now, j); }
    }
  }

  // The statuses a sync gives a job, one after the other, are a walk of the table from its old status to its new one,
  // and no sync takes a job out of COMPLETED or CANCELED.
  lemma SyncWalks(s: Field, actor: nat, ops: seq<Operation>, now: int, j: nat)
    requires j < |s.jobs|
    ensures var t := Sync(s, actor, ops, now).0;
      && j < |t.jobs| && s.events <= t.events
      && Connects([s.jobs[j].status] + Moves(t.events[|s.events|..], j), s.jobs[j].status, t.jobs[j].status)
      && (Closed(s.jobs[j]) ==> t.jobs[j] == s.jobs[j])
  {
    if Sync(s, actor, ops, now).1.Ok? {
      BatchWalks(Batch(s, NOTHING), actor, ops, now, j);
      if Closed(s.jobs[j]) { BatchKeepsClosedJobs(Batch(s, NOTHING), actor, ops, now, j); }
    } else {
      assert PathOf(s, s, j) == [s.jobs[j].status];
    }
  }

  // The table binds offline changes only. A manual update keeps to it exactly when the status it asks for, if any, is
  // the old one or allowed after it; and a job that is COMPLETED loses its completion time exactly when it leaves.
  lemma ManualUpdateIgnoresTable(s: Field, j: nat, d: JobUpdate, now: int)
    requires FieldOk(s) && j < |s.jobs|
    ensures var before, after := s.jobs[j], UpdateJob(s, j, d, now).0.jobs[j];
      && (after.status == before.status || after.status in Allowed(before.status) <==>
            (d.status.Some? ==> d.status.value == before.status || d.status.value in Allowed(before.status)))
      && (before.status == Completed ==>
            && (after.status != Completed <==> d.status.Some? && d.status.value != Completed)
            && (after.completedAt == before.completedAt <==> after.status == Completed))
  {
  }

  // ---- From empty tables ----

  lemma EveryRunReplays(ops: seq<Op>)
    ensures FieldOk(Run(EMPTY, ops))
  {
    TrailsReplay(EMPTY, ops);
  }
}
