// Field jobs of one tenant: manual creation and update, the offline sync batch, and the job event trail
// (isp-operations.service.ts). A generated job id is the job's position; texts are already trimmed.
module FieldJobs {
  import opened Common

  datatype JobStatus = Open | Assigned | InProgress | Blocked | Completed | Canceled

  datatype Job = Job(status: JobStatus, completedAt: Option<int>, assignee: Option<nat>, priority: string,
                     description: string, scheduledAt: Option<int>)

  datatype EventKind = Created | Note | StatusChanged | OfflineStatusChanged

  datatype JobEvent = JobEvent(job: nat, kind: EventKind, from: Option<JobStatus>, to: JobStatus, note: string)

  datatype ChecklistItem = ChecklistItem(text: string, checked: bool, setBy: nat, at: Option<int>)

  datatype OperationKind = NoteAdded | StatusSet | ChecklistItemSet

  // One offline operation as the device sends it; an absent text is the empty one.
  datatype Operation = Operation(id: nat, job: nat, kind: OperationKind, status: Option<JobStatus>,
                                 expected: Option<JobStatus>, note: string, itemKey: string, itemLabel: string,
                                 checked: Option<bool>)

  datatype Ack = Ack(operation: nat, job: nat, kind: OperationKind, replayed: bool)

  // The receipt of an accepted operation keeps the answer it got.
  datatype Receipt = Receipt(job: nat, kind: OperationKind, answer: Ack)

  datatype Audit = Audit(accepted: nat, replayed: nat)

  datatype Field = Field(jobs: seq<Job>, events: seq<JobEvent>, checklist: map<(nat, string), ChecklistItem>,
                         receipts: map<nat, Receipt>, audits: seq<Audit>)

  datatype SyncReport = SyncReport(accepted: nat, replayed: nat, answers: seq<Ack>)

  // A note is None when absent or empty; a note of blanks only is Some(""), and its event carries no text.
  datatype JobUpdate = JobUpdate(status: Option<JobStatus>, assignee: Option<nat>, priority: Option<string>,
                                 description: Option<string>, scheduledAt: Option<int>, note: Option<string>)

  function Allowed(from: JobStatus): set<JobStatus> {
    match from
    case Open => {Assigned, InProgress, Canceled}
    case Assigned => {Open, InProgress, Blocked, Canceled}
    case InProgress => {Assigned, Blocked, Completed, Canceled}
    case Blocked => {Assigned, InProgress, Canceled}
    case Completed => {}
    case Canceled => {}
  }

  // ---- Manual writers ----

  function CreateJob(s: Field, assignee: Option<nat>, priority: string, description: string, scheduledAt: Option<int>)
    : (Field, nat)
  {
    var id := |s.jobs|;
    (s.(jobs := s.jobs + [Job(Open, None, assignee, priority, description, scheduledAt)],
        events := s.events + [JobEvent(id, Created, None, Open, description)]),
     id)
  }

  // The completion time that goes with a status.
  function CompletionTime(j: Job, status: JobStatus, now: int): Option<int> {
    if status != Completed then None else if j.completedAt.Some? then j.completedAt else Some(now)
  }

  // Fields that are not asked for stay as they are.
  function UpdatedJob(j: Job, d: JobUpdate, now: int): Job {
    var status := if d.status.Some? then d.status.value else j.status;
    Job(status, CompletionTime(j, status, now), if d.assignee.Some? then d.assignee else j.assignee,
        if d.priority.Some? then d.priority.value else j.priority,
        if d.description.Some? then d.description.value else j.description,
        if d.scheduledAt.Some? then d.scheduledAt else j.scheduledAt)
  }

  function UpdateJob(s: Field, id: nat, d: JobUpdate, now: int): (Field, Result<Job>) {
    if id >= |s.jobs| then (s, Err(NotFound))
    else
      var j := s.jobs[id];
      var status := if d.status.Some? then d.status.value else j.status;
      var j' := UpdatedJob(j, d, now);
      var kind := if status == j.status then Note else StatusChanged;
      var written := if status != j.status || d.note.Some?
                     then [JobEvent(id, kind, Some(j.status), status, if d.note.Some? then d.note.value else "")]
                     else [];
      (s.(jobs := s.jobs[id := j'], events := s.events + written), Ok(j'))
  }

  // ---- The offline batch ----

  datatype Batch = Batch(state: Field, report: SyncReport)

  // The effect of an operation met for the first time, before its receipt.
  function Perform(s: Field, actor: nat, op: Operation, now: int): Result<Field> {
    if op.job >= |s.jobs| then Err(NotFound)
    else
      var j := s.jobs[op.job];
      if op.expected.Some? && op.expected.value != j.status then Err(Conflict)
      else match op.kind
        case NoteAdded =>
          if op.note == "" then Err(BadRequest)
          else Ok(s.(events := s.events + [JobEvent(op.job, Note, Some(j.status), j.status, op.note)]))
        case StatusSet =>
          if op.status.None? then Err(BadRequest)
          else if op.status.value == j.status then Ok(s)
          else if op.status.value !in Allowed(j.status) then Err(Conflict)
          else
            var to := op.status.value;
            Ok(s.(jobs := s.jobs[op.job := j.(status := to, completedAt := CompletionTime(j, to, now))],
                  events := s.events + [JobEvent(op.job, OfflineStatusChanged, Some(j.status), to, op.note)]))
        case ChecklistItemSet =>
          if op.itemKey == "" || op.itemLabel == "" || op.checked.None? then Err(BadRequest)
          else
            var item := ChecklistItem(op.itemLabel, op.checked.value, actor,
                                     if op.checked.value then Some(now) else None);
            Ok(s.(checklist := s.checklist[(op.job, op.itemKey) := item]))
  }

  function Receive(b: Batch, actor: nat, op: Operation, now: int): Result<Batch> {
    var s, r := b.state, b.report;
    if op.id in s.receipts then
      var prior := s.receipts[op.id];
      if prior.job != op.job || prior.kind != op.kind then Err(Conflict)
      else Ok(Batch(s, SyncReport(r.accepted, r.replayed + 1, r.answers + [prior.answer.(replayed := true)])))
    else
      match Perform(s, actor, op, now)
      case Err(e) => Err(e)
      case Ok(t) =>
        var answer := Ack(op.id, op.job, op.kind, false);
        Ok(Batch(t.(receipts := t.receipts[op.id := Receipt(op.job, op.kind, answer)]),
                 SyncReport(r.accepted + 1, r.replayed, r.answers + [answer])))
  }

  function ReceiveAll(b: Batch, actor: nat, ops: seq<Operation>, now: int): Result<Batch> {
    if ops == [] then Ok(b)
    else
      match ReceiveAll(b, actor, ops[..|ops| - 1], now)
      case Err(e) => Err(e)
      case Ok(c) => Receive(c, actor, ops[|ops| - 1], now)
  }

  const NOTHING := SyncReport(0, 0, [])

  function Sync(s: Field, actor: nat, ops: seq<Operation>, now: int): (Field, Result<SyncReport>) {
    if |ops| < 1 || |ops| > 100 then (s, Err(BadRequest))
    else
      match ReceiveAll(Batch(s, NOTHING), actor, ops, now)
      case Err(e) => (s, Err(e))
      case Ok(b) =>
        (if b.report.accepted > 0
         then b.state.(audits := b.state.audits + [Audit(b.report.accepted, b.report.replayed)]) else b.state,
         Ok(b.report))
  }

  // ---- The tables ----

  method NewRow(row: Job, d: JobUpdate, now: int) returns (job: Job)
    ensures job == UpdatedJob(row, d, now)
  {
    job := row.(completedAt := None);
    if d.assignee.Some? { job := job.(assignee := d.assignee); }
    if d.priority.Some? { job := job.(priority := d.priority.value); }
    if d.status.Some? { job := job.(status := d.status.value); }
    if d.description.Some? { job := job.(description := d.description.value); }
    if d.scheduledAt.Some? { job := job.(scheduledAt := d.scheduledAt); }
    if job.status == Completed {
      job := job.(completedAt := if row.completedAt.Some? then row.completedAt else Some(now));
    }
  }

  class FieldTables {
    var jobs: seq<Job>
    var events: seq<JobEvent>
    var checklist: map<(nat, string), ChecklistItem>
    var receipts: map<nat, Receipt>
    var audits: seq<Audit>

    ghost function Contents(): Field
      reads this
    {
      Field(jobs, events, checklist, receipts, audits)
    }

    constructor ()
      ensures Contents() == Field([], [], map[], map[], [])
    {
      jobs, events, checklist, receipts, audits := [], [], map[], map[], [];
    }

    method AddJob(assignee: Option<nat>, priority: string, description: string, scheduledAt: Option<int>)
      returns (id: nat)
      modifies this
      ensures (Contents(), id) == CreateJob(old(Contents()), assignee, priority, description, scheduledAt)
    {
      id := |jobs|;
      jobs := jobs + [Job(Open, None, assignee, priority, description, scheduledAt)];
      events := events + [JobEvent(id, Created, None, jobs[id].status, description)];
    }

    method ChangeJob(id: nat, d: JobUpdate, now: int) returns (r: Result<Job>)
      modifies this
      ensures Contents() == UpdateJob(old(Contents()), id, d, now).0
      ensures r == UpdateJob(old(Contents()), id, d, now).1
    {
      if id >= |jobs| { return Err(NotFound); }
      var row := jobs[id];
      var status := if d.status.Some? then d.status.value else row.status;
      var job := NewRow(row, d, now);
      jobs := jobs[id := job];
      if status != row.status || d.note.Some? {
        var kind := if status == row.status then Note else StatusChanged;
        var note := "";
        if d.note.Some? { note := d.note.value; }
        events := events + [JobEvent(id, kind, Some(row.status), status, note)];
      }
      r := Ok(jobs[id]);
    }

    method ApplyOperation(actor: nat, op: Operation, now: int) returns (r: Result<()>)
      modifies this
      ensures match Perform(old(Contents()), actor, op, now)
              case Ok(t) => r == Ok(()) && Contents() == t
              case Err(e) => r == Err(e)
      ensures receipts == old(receipts) && audits == old(audits)
    {
      if op.job >= |jobs| { return Err(NotFound); }
      var currentStatus := jobs[op.job].status;
      if op.expected.Some? && op.expected.value != currentStatus { return Err(Conflict); }
      if op.kind == NoteAdded {
        if op.note == "" { return Err(BadRequest); }
        events := events + [JobEvent(op.job, Note, Some(currentStatus), currentStatus, op.note)];
      } else if op.kind == StatusSet {
        if op.status.None? { return Err(BadRequest); }
        var status := op.status.value;
        if status != currentStatus && status !in Allowed(currentStatus) { return Err(Conflict); }
        if status != currentStatus {
          var j := jobs[op.job];
          jobs := jobs[op.job := j.(status := status,
                                    completedAt := if status != Completed then None
                                                   else if j.completedAt.Some? then j.completedAt else Some(now))];
          events := events + [JobEvent(op.job, OfflineStatusChanged, Some(currentStatus), status, op.note)];
        }
      } else {
        if op.itemKey == "" || op.itemLabel == "" || op.checked.None? { return Err(BadRequest); }
        var at := None;
        if op.checked.value { at := Some(now); }
        checklist := checklist[(op.job, op.itemKey) := ChecklistItem(op.itemLabel, op.checked.value, actor, at)];
      }
      r := Ok(());
    }

    // One operation of a batch: replayed if its id is known, otherwise applied.
    method ReceiveOperation(actor: nat, op: Operation, now: int, report: SyncReport) returns (r: Result<SyncReport>)
      modifies this
      ensures match Receive(Batch(old(Contents()), report), actor, op, now)
              case Ok(b) => r == Ok(b.report) && Contents() == b.state
              case Err(e) => r == Err(e)
      ensures audits == old(audits)
    {
      if op.id in receipts {
        var previous := receipts[op.id];
        if previous.job != op.job || previous.kind != op.kind { return Err(Conflict); }
        return Ok(SyncReport(report.accepted, report.replayed + 1,
                             report.answers + [previous.answer.(replayed := true)]));
      }
      var outcome := ApplyOperation(actor, op, now);
      if outcome.Err? { return Err(outcome.error); }
      var answer := Ack(op.id, op.job, op.kind, false);
      receipts := receipts[op.id := Receipt(op.job, op.kind, answer)];
      r := Ok(SyncReport(report.accepted + 1, report.replayed, report.answers + [answer]));
    }

    // One transaction: a failing operation rolls the whole batch back.
    method SyncOfflineOperations(actor: nat, ops: seq<Operation>, now: int) returns (r: Result<SyncReport>)
      modifies this
      ensures Contents() == Sync(old(Contents()), actor, ops, now).0
      ensures r == Sync(old(Contents()), actor, ops, now).1
      ensures r.Err? ==> Contents() == old(Contents())
    {
      if |ops| < 1 || |ops| > 100 { return Err(BadRequest); }
      var jobs0, events0, checklist0, receipts0 := jobs, events, checklist, receipts;
      var report := NOTHING;
      ghost var start := Batch(Contents(), NOTHING);
      for k := 0 to |ops|
        invariant ReceiveAll(start, actor, ops[..k], now) == Ok(Batch(Contents(), report))
        invariant audits == old(audits)
      {
        PrefixOf(start, actor, ops, k, now);
        var outcome := ReceiveOperation(actor, ops[k], now, report);
        if outcome.Err? {
          FailsFrom(start, actor, ops, k + 1, now);
          jobs, events, checklist, receipts := jobs0, events0, checklist0, receipts0;
          return Err(outcome.error);
        }
        report := outcome.value;
      }
      assert ops[..|ops|] == ops;
      if report.accepted > 0 { audits := audits + [Audit(report.accepted, report.replayed)]; }
      r := Ok(report);
    }
  }

  lemma PrefixOf(b: Batch, actor: nat, ops: seq<Operation>, k: nat, now: int)
    requires k < |ops|
    ensures ReceiveAll(b, actor, ops[..k + 1], now) ==
            match ReceiveAll(b, actor, ops[..k], now) case Err(e) => Err(e) case Ok(c) => Receive(c, actor, ops[k], now)
  {
    assert ops[..k + 1][..k] == ops[..k];
  }

  // Once a prefix fails, the batch fails the same way.
  lemma {:induction false} FailsFrom(b: Batch, actor: nat, ops: seq<Operation>, k: nat, now: int)
    requires k <= |ops| && ReceiveAll(b, actor, ops[..k], now).Err?
    ensures ReceiveAll(b, actor, ops, now) == Err(ReceiveAll(b, actor, ops[..k], now).error)
    decreases |ops| - k
  {
    if k == |ops| {
      assert ops[..k] == ops;
    } else {
      PrefixOf(b, actor, ops, k, now);
      FailsFrom(b, actor, ops, k + 1, now);
    }
  }
}
