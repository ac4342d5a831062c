// What the requests on field jobs store, in the terms of the requests: new jobs, manual updates, and each kind of
// offline operation.
module FieldRequests {
  import opened Common
  import opened FieldJobs
  import opened FieldLaws

  // The transition table, read from its end: what an offline change may come from.
  lemma TableFromItsEnd(from: JobStatus)
    ensures Open in Allowed(from) <==> from == Assigned
    ensures Assigned in Allowed(from) <==> from == Open || from == InProgress || from == Blocked
    ensures InProgress in Allowed(from) <==> from == Open || from == Assigned || from == Blocked
    ensures Blocked in Allowed(from) <==> from == Assigned || from == InProgress
    ensures Completed in Allowed(from) <==> from == InProgress
    ensures Canceled in Allowed(from) <==> from != Completed && from != Canceled
  {
  }

  // A new job is OPEN, as described, with one event.
  lemma JobIsAsRequested(s: Field, assignee: Option<nat>, priority: string, description: string, at: Option<int>)
    ensures var (t, id) := CreateJob(s, assignee, priority, description, at);
      && id == |s.jobs|
      && t == s.(jobs := s.jobs + [Job(Open, None, assignee, priority, description, at)],
                 events := s.events + [JobEvent(id, Created, None, Open, description)])
  {
  }

  // A field is the one asked for, or as it was.
  predicate TakenOr<T(==)>(asked: Option<T>, before: T, after: T) {
    (asked.None? ==> after == before) && (asked.Some? ==> asked == Some(after))
  }

  // Stamped when it becomes COMPLETED, kept while it is, and gone when it is not.
  predicate Stamped(before: Job, after: Job, now: int) {
    && (after.status != Completed ==> after.completedAt == None)
    && (after.status == Completed && before.completedAt.Some? ==> after.completedAt == before.completedAt)
    && (after.status == Completed && before.completedAt.None? ==> after.completedAt == Some(now))
  }

  // A manual update of a known job replaces what it asks for and nothing else, and notes one event exactly when the
  // status changes or a note is given.
  lemma UpdateIsAsRequested(s: Field, i: nat, d: JobUpdate, now: int)
    ensures var (t, r) := UpdateJob(s, i, d, now);
      && (r.Err? <==> i >= |s.jobs|) && (r.Err? ==> r == Err(NotFound) && t == s)
      && (r.Ok? ==>
            && |t.jobs| == |s.jobs| && r == Ok(t.jobs[i]) && t == s.(jobs := t.jobs, events := t.events)
            && (forall k :: 0 <= k < |s.jobs| && k != i ==> t.jobs[k] == s.jobs[k])
            && var b, c := s.jobs[i], t.jobs[i];
               && TakenOr(d.status, b.status, c.status) && TakenOr(d.priority, b.priority, c.priority)
               && TakenOr(d.description, b.description, c.description) && Stamped(b, c, now)
               && c.assignee == (if d.assignee.Some? then d.assignee else b.assignee)
               && c.scheduledAt == (if d.scheduledAt.Some? then d.scheduledAt else b.scheduledAt)
               && (c.status == b.status && d.note.None? ==> t.events == s.events)
               && (c.status != b.status || d.note.Some? ==>
                     t.events == s.events + [JobEvent(i, if c.status == b.status then Note else StatusChanged,
                                                      Some(b.status), c.status,
                                                      if d.note.Some? then d.note.value else "")]))
  {
  }

  // The operation names a job that is in the status it expects.
  predicate Fresh(s: Field, op: Operation) {
    op.job < |s.jobs| && (op.expected.Some? ==> op.expected == Some(s.jobs[op.job].status))
  }

  // What it carries for its kind.
  predicate Complete(op: Operation) {
    match op.kind
    case NoteAdded => op.note != ""
    case StatusSet => op.status.Some?
    case ChecklistItemSet => op.itemKey != "" && op.itemLabel != "" && op.checked.Some?
  }

  predicate Reachable(from: JobStatus, to: JobStatus) { from == to || to in Allowed(from) }

  // An offline operation met for the first time is refused as unknown, stale, incomplete or against the table, in this
  // order; otherwise it does the one thing it is for.
  lemma OperationIsAsRequested(s: Field, actor: nat, op: Operation, now: int)
    ensures var r := Perform(s, actor, op, now);
      && (r == Err(NotFound) <==> op.job >= |s.jobs|)
      && (r == Err(BadRequest) <==> Fresh(s, op) && !Complete(op))
      && (r == Err(Conflict) <==>
            op.job < |s.jobs| && (!Fresh(s, op) || (Complete(op) && op.kind == StatusSet
                                                    && !Reachable(s.jobs[op.job].status, op.status.value))))
    ensures var r := Perform(s, actor, op, now); r.Ok? ==>
      var t, j := r.value, s.jobs[op.job];
      match op.kind
      case NoteAdded => t == s.(events := s.events + [JobEvent(op.job, Note, Some(j.status), j.status, op.note)])
      case StatusSet =>
        var to := op.status.value;
        if to == j.status then t == s
        else && |t.jobs| == |s.jobs| && t.jobs == s.jobs[op.job := t.jobs[op.job]]
             && t.jobs[op.job] == j.(status := to, completedAt := t.jobs[op.job].completedAt)
             && Stamped(j, t.jobs[op.job], now)
             && t == s.(jobs := t.jobs,
                        events := s.events + [JobEvent(op.job, OfflineStatusChanged, Some(j.status), to, op.note)])
      case ChecklistItemSet =>
        && t == s.(checklist := t.checklist)
        && t.checklist.Keys == s.checklist.Keys + {(op.job, op.itemKey)}
        && (forall k :: k in s.checklist && k != (op.job, op.itemKey) ==> t.checklist[k] == s.checklist[k])
        && var item := t.checklist[(op.job, op.itemKey)];
           item.text == op.itemLabel && item.setBy == actor && item.checked == op.checked.value
           && item.at == if op.checked.value then Some(now) else None
  {
  }

  // A known operation changes nothing and gets its receipt's answer, marked as replayed, if job and kind agree; a new
  // one is performed and leaves a receipt.
  lemma ReceiptIsAsRequested(b: Batch, actor: nat, op: Operation, now: int)
    ensures var r := Receive(b, actor, op, now);
      && (op.id in b.state.receipts ==>
            var known := b.state.receipts[op.id];
            && (r.Ok? <==> known.job == op.job && known.kind == op.kind) && (r.Err? ==> r == Err(Conflict))
            && (r.Ok? ==>
                  && r.value.state == b.state && r.value.report.accepted == b.report.accepted
                  && r.value.report.replayed == b.report.replayed + 1
                  && r.value.report.answers == b.report.answers + [known.answer.(replayed := true)]))
      && (op.id !in b.state.receipts ==>
            && (r.Err? <==> Perform(b.state, actor, op, now).Err?)
            && (r.Err? ==> r.error == Perform(b.state, actor, op, now).error)
            && (r.Ok? ==>
                  var t, answer := Perform(b.state, actor, op, now).value, Ack(op.id, op.job, op.kind, false);
                  && r.value.state == t.(receipts := t.receipts[op.id := Receipt(op.job, op.kind, answer)])
                  && r.value.report.accepted == b.report.accepted + 1 && r.value.report.replayed == b.report.replayed
                  && r.value.report.answers == b.report.answers + [answer]))
  {
  }

  // A sync takes 1 to 100 operations. It fails with its first failing operation's error and leaves nothing behind; it
  // notes one audit row exactly when it accepted something new.
  lemma SyncIsAsRequested(s: Field, actor: nat, ops: seq<Operation>, now: int)
    ensures var (t, r) := Sync(s, actor, ops, now);
      && (|ops| == 0 || |ops| > 100 ==> r == Err(BadRequest))
      && (1 <= |ops| <= 100 ==> (r.Ok? <==> ReceiveAll(Batch(s, NOTHING), actor, ops, now).Ok?))
      && (r.Err? ==> t == s)
      && (r.Ok? ==>
            t.audits == s.audits + if r.value.accepted > 0 then [Audit(r.value.accepted, r.value.replayed)] else [])
  {
    if ReceiveAll(Batch(s, NOTHING), actor, ops, now).Ok? { AuditsStay(Batch(s, NOTHING), actor, ops, now); }
  }

  lemma {:induction false} AuditsStay(b: Batch, actor: nat, ops: seq<Operation>, now: int)
    requires ReceiveAll(b, actor, ops, now).Ok?
    ensures ReceiveAll(b, actor, ops, now).value.state.audits == b.state.audits
  {
    if ops != [] { AuditsStay(b, actor, ops[..|ops| - 1], now); }
  }

  // The first operation that is refused decides the batch.
  lemma {:induction false} FirstFailureDecides(b: Batch, actor: nat, ops: seq<Operation>, now: int, n: nat)
    requires n < |ops| && ReceiveAll(b, actor, ops[..n], now).Ok?
    requires Receive(ReceiveAll(b, actor, ops[..n], now).value, actor, ops[n], now).Err?
    ensures ReceiveAll(b, actor, ops, now)
         == Err(Receive(ReceiveAll(b, actor, ops[..n], now).value, actor, ops[n], now).error)
  {
    var last := |ops| - 1;
    if n < last {
      assert ops[..last][..n] == ops[..n];
      FirstFailureDecides(b, actor, ops[..last], now, n);
    }
  }
}
