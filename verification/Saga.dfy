// The renewal saga as a state machine over the tables of Wallets: renewal workers (processDueRenewals) and
// compensators (reconcileRenewalCompensations) run one statement a step, interleaved with each other, with manual
// wallet entries and with both stale-lock recoveries. A worker that is never scheduled again has crashed; one that is
// scheduled after its lock was taken over goes on as if nothing had happened, as the code does.
module Saga {
  import opened Common
  import opened Wallets

  datatype Pc =
    | ReadPlan | GetPurchase | KeepPurchase | FindDebit | CheckWallet | DebitWallet | Confirm | Complete
    | ReadState | CancelPurchase | RefundWallet | OweRefund | MarkFailed | Done

  // One pass of the loop over claimed schedules, with its variables.
  datatype Worker = Worker(schedule: nat, customer: nat, execution: string, purchase: Option<nat>,
                           amount: real, currency: string, debited: bool, pc: Pc)

  datatype CompPc = Compensating | Resolving | Retrying | Settled

  datatype Compensator = Compensator(debt: nat, customer: nat, execution: string, purchase: nat,
                                     amount: real, currency: string, pc: CompPc)

  // db is what the database holds. issued and origins remember, for the proofs only, which customer each generated
  // execution id was drawn for and which execution, if any, created each purchase.
  datatype World = World(db: Commerce, workers: seq<Worker>, comps: seq<Compensator>,
                         issued: map<string, nat>, origins: seq<Option<string>>)

  const START := World(Commerce([], [], [], []), [], [], map[], [])

  // What a statement or a call meets: whether it takes effect and whether the worker learns so (an error may hide a
  // commit), and what the plan, the purchase and the clock say.
  datatype Answer = Answer(ok: bool, applied: bool, price: real, currency: string, settled: bool, now: int)

  function Fail(w: Worker): Worker {
    w.(pc := if w.debited && w.purchase.Some? then ReadState else MarkFailed)
  }

  function RefundInput(execution: string, purchase: Option<nat>, amount: real, currency: string): EntryInput {
    EntryInput(Refund, amount, currency, RefundKey(execution), purchase)
  }

  // The table change of the worker's next statement.
  function WorkDb(s: Commerce, w: Worker, a: Answer): Commerce {
    if !a.ok && !a.applied then s
    else match w.pc
      case KeepPurchase => if w.purchase.Some? then SavePurchase(s, w.schedule, w.purchase.value) else s
      case DebitWallet =>
        if w.purchase.Some? then Debit(s, w.customer, w.amount, w.currency, w.purchase.value, w.execution).0 else s
      case Complete => Finish(s, w.schedule, a.now)
      case RefundWallet => AddEntry(s, w.customer, RefundInput(w.execution, w.purchase, w.amount, w.currency)).0
      case OweRefund =>
        if w.purchase.Some?
        then RecordDebt(s, Debt(w.schedule, w.execution, w.purchase.value, w.customer, w.amount, w.currency, Pending, 0,
                                a.now, a.now))
        else s
      case MarkFailed => FailRenewal(s, w.schedule)
      case _ => s
  }

  // Where it leaves the worker; created is the id of the purchase made for it.
  function WorkNext(s: Commerce, w: Worker, a: Answer, created: nat): Worker {
    match w.pc
    case ReadPlan => if a.ok then w.(amount := a.price, currency := a.currency, pc := GetPurchase) else Fail(w)
    case GetPurchase =>
      if !a.ok then Fail(w)
      else if w.purchase.None? then w.(purchase := Some(created), pc := KeepPurchase)
      else w.(pc := if a.settled then Complete else FindDebit)
    case KeepPurchase => if a.ok then w.(pc := FindDebit) else Fail(w)
    case FindDebit =>
      if !a.ok then Fail(w)
      else
        var found := FindEntry(s.entries, DebitKey(w.execution)).Some?;
        w.(debited := found, pc := if found then Confirm else CheckWallet)
    case CheckWallet => if a.ok && CanPay(s, w.customer, w.amount, w.currency) then w.(pc := DebitWallet) else Fail(w)
    case DebitWallet =>
      if a.ok && w.purchase.Some? && Debit(s, w.customer, w.amount, w.currency, w.purchase.value, w.execution).1.Ok?
      then w.(debited := true, pc := Confirm) else Fail(w)
    case Confirm => if a.ok then w.(pc := Complete) else Fail(w)
    case Complete => if a.ok then w.(pc := Done) else Fail(w)
    case ReadState =>
      if !a.ok || a.settled || w.purchase.None? then w.(pc := MarkFailed)
      else
        var latest := Latest(s.entries, w.purchase.value);
        w.(amount := if latest.Some? then s.entries[latest.value].amount else 0.0,
           currency := if latest.Some? then s.entries[latest.value].currency else "TZS", pc := CancelPurchase)
    case CancelPurchase => w.(pc := if w.amount > 0.0 then RefundWallet else MarkFailed)
    case RefundWallet =>
      w.(pc := if a.ok && AddEntry(s, w.customer, RefundInput(w.execution, w.purchase, w.amount, w.currency)).1.Ok?
               then MarkFailed else OweRefund)
    case OweRefund => w.(pc := MarkFailed)
    case MarkFailed => w.(pc := Done)
    case Done => w
  }

  function CompDb(s: Commerce, c: Compensator, applied: bool, now: int): Commerce {
    if !applied then s
    else match c.pc
      case Compensating => AddEntry(s, c.customer, RefundInput(c.execution, Some(c.purchase), c.amount, c.currency)).0
      case Resolving => if c.debt < |s.debts| then ResolveDebt(s, c.debt, now) else s
      case Retrying => if c.debt < |s.debts| then RetryDebt(s, c.debt, now) else s
      case Settled => s
  }

  function CompNext(s: Commerce, c: Compensator, ok: bool): Compensator {
    match c.pc
    case Compensating =>
      c.(pc := if ok && AddEntry(s, c.customer, RefundInput(c.execution, Some(c.purchase), c.amount, c.currency)).1.Ok?
               then Resolving else Retrying)
    case Resolving => c.(pc := if ok then Settled else Retrying)
    case Retrying => c.(pc := Settled)
    case Settled => c
  }

  datatype Op =
    | OpenWallet(customer: nat, currency: string)
    | SwitchWallet(wallet: nat, active: bool)
    | Manual(owner: nat, input: EntryInput)
    | OtherPurchase
    | NewRenewal(subscriber: nat, autoRenew: bool, days: nat, firstRun: int)
    | SetRenewal(schedule: nat, nextRunAt: int, paused: bool, renew: bool)
    | Reclaim(now: int)
    | ClaimRenewal(due: nat, at: int, uuid: string)
    | Work(worker: nat, answer: Answer)
    | ReclaimOwed(time: int)
    | ClaimOwed(debt: nat, when: int)
    | Compensate(comp: nat, ok: bool, applied: bool, clock: int)

  // A manual entry has passed the request check; uuids are never drawn twice.
  function Step(w: World, op: Op): World {
    match op
    case OpenWallet(customer, currency) =>
      if FindWallet(w.db.wallets, customer, currency).Some? then w
      else w.(db := w.db.(wallets := w.db.wallets + [Wallet(customer, currency, 0.0, true)]))
    case SwitchWallet(i, active) =>
      if i < |w.db.wallets|
      then w.(db := w.db.(wallets := w.db.wallets[i := w.db.wallets[i].(active := active)]))
      else w
    case Manual(customer, d) => w.(db := AddEntry(w.db, customer, d).0)
    case OtherPurchase => w.(origins := w.origins + [None])
    case NewRenewal(customer, renew, days, at) =>
      w.(db := w.db.(schedules := w.db.schedules + [Schedule(customer, Active, at, None, None, None, 0, renew, days)]))
    case SetRenewal(i, at, paused, renew) =>
      if i < |w.db.schedules|
      then w.(db := w.db.(schedules := w.db.schedules[i := w.db.schedules[i].(
                            nextRunAt := at, status := if paused then Paused else Active, autoRenew := renew)]))
      else w
    case Reclaim(now) => w.(db := ReclaimStale(w.db, now))
    case ClaimRenewal(i, now, uuid) => ClaimStep(w, i, now, uuid)
    case Work(i, a) => if i < |w.workers| then WorkStep(w, i, a) else w
    case ReclaimOwed(now) => w.(db := ReclaimDebts(w.db, now))
    case ClaimOwed(k, now) => ClaimOwedStep(w, k, now)
    case Compensate(i, ok, applied, now) => if i < |w.comps| then CompStep(w, i, ok, ok || applied, now) else w
  }

  function ClaimStep(w: World, i: nat, now: int, uuid: string): World {
    if !Due(w.db, i, now) || (w.db.schedules[i].execution.None? && uuid in w.issued) then w
    else
      var r := w.db.schedules[i];
      var execution := if r.execution.Some? then r.execution.value else uuid;
      World(Claim(w.db, i, now, uuid),
            w.workers + [Worker(i, r.customer, execution, r.purchase, 0.0, "", false, ReadPlan)],
            w.comps, if r.execution.Some? then w.issued else w.issued[uuid := r.customer], w.origins)
  }

  function WorkStep(w: World, i: nat, a: Answer): World
    requires i < |w.workers|
  {
    var x := w.workers[i];
    World(WorkDb(w.db, x, a), w.workers[i := WorkNext(w.db, x, a, |w.origins|)], w.comps, w.issued,
          if x.pc == GetPurchase && (a.ok || a.applied) && x.purchase.None?
          then w.origins + [Some(x.execution)]
          else w.origins)
  }

  function ClaimOwedStep(w: World, k: nat, now: int): World {
    if !DebtDue(w.db, k, now) then w
    else
      var d := w.db.debts[k];
      w.(db := ClaimDebt(w.db, k, now),
         comps := w.comps + [Compensator(k, d.customer, d.execution, d.purchase, d.amount, d.currency, Compensating)])
  }

  function CompStep(w: World, i: nat, ok: bool, applied: bool, now: int): World
    requires i < |w.comps|
  {
    w.(db := CompDb(w.db, w.comps[i], applied, now), comps := w.comps[i := CompNext(w.db, w.comps[i], ok)])
  }

  ghost function Run(w: World, ops: seq<Op>): World {
    if ops == [] then w else Step(Run(w, ops[..|ops| - 1]), ops[|ops| - 1])
  }
}
