// Customer wallets, renewal schedules and the compensations still owed, and the statements and transactions
// customer-commerce.service.ts runs on them. Currencies are upper-case text and times are seconds.
module Wallets {
  import opened Common

  datatype EntryKind = Topup | Refund | Adjustment | Commission | Purchase | TransferOut | TransferIn

  datatype Wallet = Wallet(customer: nat, currency: string, balance: real, active: bool)

  datatype Entry = Entry(wallet: nat, kind: EntryKind, amount: real, currency: string, reference: Option<nat>,
                         key: string)

  datatype EntryInput = EntryInput(kind: EntryKind, amount: real, currency: string, key: string,
                                   reference: Option<nat>)

  datatype EntryAdded = EntryAdded(reused: bool, entry: nat)

  datatype RenewalStatus = Active | Paused | Processing | Failed

  // A schedule with what it reads of its saved purchase: whether that is active with auto-renewal on, and its days.
  datatype Schedule = Schedule(customer: nat, status: RenewalStatus, nextRunAt: int, claimedAt: Option<int>,
                               execution: Option<string>, purchase: Option<nat>, failures: nat,
                               autoRenew: bool, days: nat)

  datatype DebtStatus = Pending | Working | Resolved | GivenUp

  // A row of commerce_renewal_reconciliations: a refund that could not be entered at once.
  datatype Debt = Debt(schedule: nat, execution: string, purchase: nat, customer: nat, amount: real, currency: string,
                       status: DebtStatus, attempts: nat, nextAttemptAt: int, updatedAt: int)

  datatype Commerce = Commerce(wallets: seq<Wallet>, entries: seq<Entry>, schedules: seq<Schedule>, debts: seq<Debt>)

  const DEBIT := "renewal-debit:"
  const REFUND := "renewal-refund:"

  function DebitKey(execution: string): string { DEBIT + execution }
  function RefundKey(execution: string): string { REFUND + execution }

  // PURCHASE and TRANSFER_OUT take money out; every other kind, adjustments included, adds it.
  function Signed(kind: EntryKind, amount: real): real {
    if kind == Purchase || kind == TransferOut then -amount else amount
  }

  function FindWallet(wallets: seq<Wallet>, customer: nat, currency: string): (found: Option<nat>)
    ensures found.Some? ==> found.value < |wallets| && wallets[found.value].customer == customer
                            && wallets[found.value].currency == currency
    ensures found.None? ==>
              forall w :: 0 <= w < |wallets| ==> wallets[w].customer != customer || wallets[w].currency != currency
  {
    FindBy(wallets, (w: Wallet) => w.customer == customer && w.currency == currency)
  }

  function FindEntry(entries: seq<Entry>, key: string): (found: Option<nat>)
    ensures found.Some? ==> found.value < |entries| && entries[found.value].key == key
    ensures found.None? ==> forall k :: 0 <= k < |entries| ==> entries[k].key != key
  {
    FindBy(entries, (e: Entry) => e.key == key)
  }

  function FindDebt(debts: seq<Debt>, execution: string): (found: Option<nat>)
    ensures found.Some? ==> found.value < |debts| && debts[found.value].execution == execution
    ensures found.None? ==> forall k :: 0 <= k < |debts| ==> debts[k].execution != execution
  {
    FindBy(debts, (d: Debt) => d.execution == execution)
  }

  // The newest PURCHASE entry that references the purchase, whatever its key.
  function Latest(entries: seq<Entry>, purchase: nat): (found: Option<nat>)
    ensures found.Some? ==> found.value < |entries| && entries[found.value].kind == Purchase
                            && entries[found.value].reference == Some(purchase)
    ensures forall k :: 0 <= k < |entries| && entries[k].kind == Purchase && entries[k].reference == Some(purchase) ==>
              found.Some? && k <= found.value
  {
    FindBy(entries, (e: Entry) => e.kind == Purchase && e.reference == Some(purchase))
  }

  function Enter(s: Commerce, w: nat, kind: EntryKind, amount: real, reference: Option<nat>, key: string): Commerce
    requires w < |s.wallets|
  {
    var row := s.wallets[w];
    s.(wallets := s.wallets[w := row.(balance := row.balance + Signed(kind, amount))],
       entries := s.entries + [Entry(w, kind, amount, row.currency, reference, key)])
  }

  // addWalletEntry
  function AddEntry(s: Commerce, customer: nat, d: EntryInput): (Commerce, Result<EntryAdded>) {
    match FindWallet(s.wallets, customer, d.currency)
    case None => (s, Err(NotFound))
    case Some(w) =>
      if !s.wallets[w].active then (s, Err(BadRequest))
      else match FindEntry(s.entries, d.key)
        case Some(k) => (s, Ok(EntryAdded(true, k)))
        case None =>
          if s.wallets[w].balance + Signed(d.kind, d.amount) < 0.0 then (s, Err(BadRequest))
          else (Enter(s, w, d.kind, d.amount, d.reference, d.key), Ok(EntryAdded(false, |s.entries|)))
  }

  predicate CanPay(s: Commerce, customer: nat, amount: real, currency: string) {
    var w := FindWallet(s.wallets, customer, currency);
    w.Some? && s.wallets[w.value].active && s.wallets[w.value].balance >= amount
  }

  // The locked debit transaction of a renewal. A key already taken breaks the unique index and rolls back.
  function Debit(s: Commerce, customer: nat, amount: real, currency: string, purchase: nat, execution: string)
    : (Commerce, Result<nat>)
  {
    if !CanPay(s, customer, amount, currency) || FindEntry(s.entries, DebitKey(execution)).Some? then (s, Err(Conflict))
    else (Enter(s, FindWallet(s.wallets, customer, currency).value, Purchase, amount, Some(purchase),
                DebitKey(execution)),
          Ok(|s.entries|))
  }

  // ---- Schedules ----

  const LOCK_TIMEOUT := 600
  const DAY := 86400
  const MAX_FAILURES := 5

  function ReclaimRow(r: Schedule, now: int): Schedule {
    if r.status == Processing && r.claimedAt.Some? && r.claimedAt.value < now - LOCK_TIMEOUT
    then r.(status := Active, claimedAt := None) else r
  }

  function ReclaimStale(s: Commerce, now: int): Commerce {
    s.(schedules := seq(|s.schedules|, i requires 0 <= i < |s.schedules| => ReclaimRow(s.schedules[i], now)))
  }

  predicate Due(s: Commerce, i: nat, now: int) {
    i < |s.schedules| && s.schedules[i].status == Active && s.schedules[i].autoRenew && s.schedules[i].nextRunAt <= now
  }

  // A claimed row keeps the execution of an attempt that did not finish; uuid is the id generated otherwise.
  function Claim(s: Commerce, i: nat, now: int, uuid: string): Commerce
    requires Due(s, i, now)
  {
    var r := s.schedules[i];
    s.(schedules := s.schedules[i := r.(status := Processing, claimedAt := Some(now),
                                        execution := Some(if r.execution.Some? then r.execution.value else uuid))])
  }

  function Claims(s: Commerce, picked: seq<nat>, now: int, uuids: seq<string>): Commerce
    requires |uuids| == |picked|
  {
    if picked == [] then s
    else
      var n := |picked| - 1;
      var before := Claims(s, picked[..n], now, uuids[..n]);
      if Due(before, picked[n], now) then Claim(before, picked[n], now, uuids[n]) else before
  }

  // Every later update of a claimed schedule is guarded by status='PROCESSING' alone.
  predicate Held(s: Commerce, i: nat) { i < |s.schedules| && s.schedules[i].status == Processing }

  function SavePurchase(s: Commerce, i: nat, purchase: nat): Commerce {
    if Held(s, i) then s.(schedules := s.schedules[i := s.schedules[i].(purchase := Some(purchase))]) else s
  }

  function Finish(s: Commerce, i: nat, now: int): Commerce {
    if !Held(s, i) then s
    else
      var r := s.schedules[i];
      var days := if r.days == 0 then 30 else r.days;
      s.(schedules := s.schedules[i := r.(status := Active, nextRunAt := now + days * DAY, failures := 0,
                                          claimedAt := None, execution := None, purchase := None)])
  }

  function FailRenewal(s: Commerce, i: nat): Commerce {
    if !Held(s, i) then s
    else
      var r := s.schedules[i];
      s.(schedules := s.schedules[i := r.(failures := r.failures + 1, claimedAt := None,
                                          status := if r.failures + 1 >= MAX_FAILURES then Failed else Active)])
  }

  // ---- Compensations owed ----

  const MAX_ATTEMPTS := 8
  const DEBT_TIMEOUT := 900

  // One row an execution: a second failure reopens it and keeps its amount and attempts.
  function RecordDebt(s: Commerce, d: Debt): Commerce {
    match FindDebt(s.debts, d.execution)
    case None => s.(debts := s.debts + [d.(status := Pending, attempts := 0)])
    case Some(k) => s.(debts := s.debts[k := s.debts[k].(status := Pending, nextAttemptAt := d.nextAttemptAt,
                                                         updatedAt := d.updatedAt)])
  }

  function ReclaimDebt(d: Debt, now: int): Debt {
    if d.status == Working && d.updatedAt < now - DEBT_TIMEOUT
    then if d.attempts >= MAX_ATTEMPTS then d.(status := GivenUp, updatedAt := now)
         else d.(status := Pending, nextAttemptAt := now, updatedAt := now)
    else d
  }

  function ReclaimDebts(s: Commerce, now: int): Commerce {
    s.(debts := seq(|s.debts|, i requires 0 <= i < |s.debts| => ReclaimDebt(s.debts[i], now)))
  }

  predicate DebtDue(s: Commerce, k: nat, now: int) {
    k < |s.debts| && s.debts[k].status in {Pending, GivenUp} && s.debts[k].nextAttemptAt <= now
    && s.debts[k].attempts < MAX_ATTEMPTS
  }

  function ClaimDebt(s: Commerce, k: nat, now: int): Commerce
    requires DebtDue(s, k, now)
  {
    s.(debts := s.debts[k := s.debts[k].(status := Working, attempts := s.debts[k].attempts + 1, updatedAt := now)])
  }

  function ClaimDebts(s: Commerce, picked: seq<nat>, now: int): Commerce {
    if picked == [] then s
    else
      var before := ClaimDebts(s, picked[..|picked| - 1], now);
      if DebtDue(before, picked[|picked| - 1], now) then ClaimDebt(before, picked[|picked| - 1], now) else before
  }

  function ResolveDebt(s: Commerce, k: nat, now: int): Commerce
    requires k < |s.debts|
  {
    s.(debts := s.debts[k := s.debts[k].(status := Resolved, updatedAt := now)])
  }

  function RetryDebt(s: Commerce, k: nat, now: int): Commerce
    requires k < |s.debts|
  {
    var d := s.debts[k];
    var backoff := if d.attempts * 120 < 60 then 60 else if d.attempts * 120 > 3600 then 3600 else d.attempts * 120;
    s.(debts := s.debts[k := d.(status := if d.attempts >= MAX_ATTEMPTS then GivenUp else Pending,
                                nextAttemptAt := now + backoff, updatedAt := now)])
  }

  // The tables, updated in place.
  class CommerceTables {
    var wallets: seq<Wallet>
    var entries: seq<Entry>
    var schedules: seq<Schedule>
    var debts: seq<Debt>

    ghost function Contents(): Commerce
      reads this
    {
      Commerce(wallets, entries, schedules, debts)
    }

    constructor ()
      ensures Contents() == Commerce([], [], [], [])
    {
      wallets, entries, schedules, debts := [], [], [], [];
    }

    method AddWalletEntry(customer: nat, d: EntryInput) returns (r: Result<EntryAdded>)
      modifies this
      ensures Contents() == AddEntry(old(Contents()), customer, d).0 && r == AddEntry(old(Contents()), customer, d).1
    {
      var found := FindWallet(wallets, customer, d.currency);
      if found.None? { return Err(NotFound); }
      var w := found.value;
      if !wallets[w].active { return Err(BadRequest); }
      var existing := FindEntry(entries, d.key);
      if existing.Some? { return Ok(EntryAdded(true, existing.value)); }
      var signed := if d.kind == Purchase || d.kind == TransferOut then -d.amount else d.amount;
      if wallets[w].balance + signed < 0.0 { return Err(BadRequest); }
      r := Ok(EntryAdded(false, |entries|));
      entries := entries + [Entry(w, d.kind, d.amount, d.currency, d.reference, d.key)];
      wallets := wallets[w := wallets[w].(balance := wallets[w].balance + signed)];
    }

    method DebitRenewal(customer: nat, amount: real, currency: string, purchase: nat, execution: string)
      returns (r: Result<nat>)
      modifies this
      ensures Contents() == Debit(old(Contents()), customer, amount, currency, purchase, execution).0
      ensures r == Debit(old(Contents()), customer, amount, currency, purchase, execution).1
    {
      var found := FindWallet(wallets, customer, currency);
      if found.None? || !wallets[found.value].active || wallets[found.value].balance < amount { return Err(Conflict); }
      var key := "renewal-debit:" + execution;
      var taken := FindEntry(entries, key);
      if taken.Some? { return Err(Conflict); }
      var w := found.value;
      r := Ok(|entries|);
      entries := entries + [Entry(w, Purchase, amount, currency, Some(purchase), key)];
      wallets := wallets[w := wallets[w].(balance := wallets[w].balance - amount)];
    }

    // The claiming transaction: stale rows go back to ACTIVE, then the rows the query locked are claimed in order.
    method ClaimRenewals(picked: seq<nat>, now: int, uuids: seq<string>)
      requires |uuids| == |picked|
      modifies this
      ensures Contents() == Claims(ReclaimStale(old(Contents()), now), picked, now, uuids)
    {
      ghost var before := Contents();
      var i := 0;
      while i < |schedules|
        invariant 0 <= i <= |schedules| == |before.schedules|
        invariant wallets == before.wallets && entries == before.entries && debts == before.debts
        invariant forall k :: 0 <= k < |schedules| ==>
                    schedules[k] == if k < i then ReclaimRow(before.schedules[k], now) else before.schedules[k]
      {
        var r := schedules[i];
        if r.status == Processing && r.claimedAt.Some? && r.claimedAt.value < now - LOCK_TIMEOUT {
          schedules := schedules[i := r.(status := Active, claimedAt := None)];
        }
        i := i + 1;
      }
      ghost var reclaimed := ReclaimStale(before, now);
      assert schedules == reclaimed.schedules;
      var k := 0;
      while k < |picked|
        invariant 0 <= k <= |picked|
        invariant Contents() == Claims(reclaimed, picked[..k], now, uuids[..k])
      {
        assert picked[..k + 1][..k] == picked[..k] && uuids[..k + 1][..k] == uuids[..k];
        var p := picked[k];
        if p < |schedules| && schedules[p].status == Active && schedules[p].autoRenew && schedules[p].nextRunAt <= now {
          var execution := if schedules[p].execution.Some? then schedules[p].execution.value else uuids[k];
          schedules := schedules[p := schedules[p].(status := Processing, claimedAt := Some(now),
                                                      execution := Some(execution))];
        }
        k := k + 1;
      }
      assert picked[..k] == picked && uuids[..k] == uuids;
    }

    method RecordFailedRefund(d: Debt)
      modifies this
      ensures Contents() == RecordDebt(old(Contents()), d)
    {
      var found := FindDebt(debts, d.execution);
      if found.None? {
        debts := debts + [d.(status := Pending, attempts := 0)];
      } else {
        var k := found.value;
        debts := debts[k := debts[k].(status := Pending, nextAttemptAt := d.nextAttemptAt, updatedAt := d.updatedAt)];
      }
    }

    method CompleteRenewal(i: nat, now: int)
      modifies this
      ensures Contents() == Finish(old(Contents()), i, now)
    {
      if i < |schedules| && schedules[i].status == Processing {
        var days := if schedules[i].days == 0 then 30 else schedules[i].days;
        schedules := schedules[i := schedules[i].(status := Active, nextRunAt := now + days * DAY, failures := 0,
                                                  claimedAt := None, execution := None, purchase := None)];
      }
    }

    method MarkRenewalFailed(i: nat)
      modifies this
      ensures Contents() == FailRenewal(old(Contents()), i)
    {
      if i < |schedules| && schedules[i].status == Processing {
        var failures := schedules[i].failures + 1;
        schedules := schedules[i := schedules[i].(failures := failures, claimedAt := None,
                                                  status := if failures >= MAX_FAILURES then Failed else Active)];
      }
    }

    method KeepPurchase(i: nat, purchase: nat)
      modifies this
      ensures Contents() == SavePurchase(old(Contents()), i, purchase)
    {
      if i < |schedules| && schedules[i].status == Processing {
        schedules := schedules[i := schedules[i].(purchase := Some(purchase))];
      }
    }

    // The compensation worker's claiming transaction.
    method ClaimCompensations(picked: seq<nat>, now: int)
      modifies this
      ensures Contents() == ClaimDebts(ReclaimDebts(old(Contents()), now), picked, now)
    {
      ghost var before := Contents();
      var i := 0;
      while i < |debts|
        invariant 0 <= i <= |debts| == |before.debts|
        invariant wallets == before.wallets && entries == before.entries && schedules == before.schedules
        invariant forall k :: 0 <= k < i ==> debts[k] == ReclaimDebt(before.debts[k], now)
        invariant forall k :: i <= k < |debts| ==> debts[k] == before.debts[k]
      {
        var d := debts[i];
        if d.status == Working && d.updatedAt < now - DEBT_TIMEOUT {
          if d.attempts >= MAX_ATTEMPTS {
            debts := debts[i := d.(status := GivenUp, updatedAt := now)];
          } else {
            debts := debts[i := d.(status := Pending, nextAttemptAt := now, updatedAt := now)];
          }
        }
        i := i + 1;
      }
      ghost var reclaimed := ReclaimDebts(before, now);
      assert debts == reclaimed.debts;
      var k := 0;
      while k < |picked|
        invariant 0 <= k <= |picked|
        invariant Contents() == ClaimDebts(reclaimed, picked[..k], now)
      {
        assert picked[..k + 1][..k] == picked[..k];
        var p := picked[k];
        if p < |debts| && (debts[p].status == Pending || debts[p].status == GivenUp) && debts[p].nextAttemptAt <= now
           && debts[p].attempts < MAX_ATTEMPTS {
          debts := debts[p := debts[p].(status := Working, attempts := debts[p].attempts + 1, updatedAt := now)];
        }
        k := k + 1;
      }
      assert picked[..k] == picked;
    }

    method SettleDebt(k: nat, now: int)
      requires k < |debts|
      modifies this
      ensures Contents() == ResolveDebt(old(Contents()), k, now)
    {
      debts := debts[k := debts[k].(status := Resolved, updatedAt := now)];
    }

    method PostponeDebt(k: nat, now: int)
      requires k < |debts|
      modifies this
      ensures Contents() == RetryDebt(old(Contents()), k, now)
    {
      var backoff := debts[k].attempts * 120;
      if backoff < 60 { backoff := 60; }
      if backoff > 3600 { backoff := 3600; }
      var status := if debts[k].attempts >= MAX_ATTEMPTS then GivenUp else Pending;
      debts := debts[k := debts[k].(status := status, nextAttemptAt := now + backoff, updatedAt := now)];
    }
  }
}
