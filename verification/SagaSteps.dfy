// What each statement of a renewal worker and of a compensator does, in the terms of the service: what it stores, what
// the worker knows afterwards, and where it goes on.
module SagaSteps {
  import opened Common
  import opened Wallets
  import opened Saga
  import opened SagaLaws
  import opened SagaOwed
  import opened CommerceRequests

  // A worker whose statement fails goes to the catch block: a debited renewal is compensated, another is marked failed.
  predicate Caught(x: Worker, y: Worker) {
    y == x.(pc := y.pc) && y.pc == if x.debited && x.purchase.Some? then ReadState else MarkFailed
  }

  // The statement of worker i: x before, y after, s and t the tables, a what it meets. Nothing is stored but by a
  // statement that takes effect, and no other worker or compensator moves.
  ghost predicate Moves(w: World, i: nat, a: Answer, x: Worker, y: Worker, s: Commerce, t: Commerce) {
    var v := Step(w, Work(i, a));
    && i < |w.workers| && x == w.workers[i] && |v.workers| == |w.workers| && y == v.workers[i]
    && s == w.db && t == v.db && v.comps == w.comps && v.issued == w.issued
    && (forall k :: 0 <= k < |w.workers| && k != i ==> v.workers[k] == w.workers[k])
    && (!a.ok && !a.applied ==> t == s)
  }

  lemma Moving(w: World, i: nat, a: Answer)
    requires i < |w.workers|
    ensures var v := Step(w, Work(i, a)); Moves(w, i, a, w.workers[i], v.workers[i], w.db, v.db)
  {
  }

  // Reading the plan gives the price; reading the purchase finds it settled, or to be debited; a purchase that is
  // missing is created and remembered as made for this execution. Reads store nothing.
  lemma ReadingSteps(w: World, i: nat, a: Answer, x: Worker, y: Worker, s: Commerce, t: Commerce)
    requires Moves(w, i, a, x, y, s, t)
    ensures x.pc == ReadPlan ==>
      && t == s
      && (a.ok ==> y == x.(amount := a.price, currency := a.currency, pc := GetPurchase))
      && (!a.ok ==> Caught(x, y))
    ensures x.pc == GetPurchase ==>
      && t == s
      && (!a.ok ==> Caught(x, y))
      && (a.ok && x.purchase.Some? ==> y == x.(pc := if a.settled then Complete else FindDebit))
      && (a.ok && x.purchase.None? ==> y == x.(purchase := Some(|w.origins|), pc := KeepPurchase))
    ensures var v := Step(w, Work(i, a));
      v.origins == w.origins
        + if x.pc == GetPurchase && x.purchase.None? && (a.ok || a.applied) then [Some(x.execution)] else []
  {
  }

  // The new purchase is kept on the schedule if that is PROCESSING; the debit is looked up under the execution's key.
  lemma KeepingSteps(w: World, i: nat, a: Answer, x: Worker, y: Worker, s: Commerce, t: Commerce)
    requires Moves(w, i, a, x, y, s, t)
    ensures x.pc == KeepPurchase && x.purchase.Some? && (a.ok || a.applied) ==>
              t == if x.schedule < |s.schedules| && s.schedules[x.schedule].status == Processing
                   then s.(schedules := s.schedules[x.schedule := s.schedules[x.schedule].(purchase := x.purchase)])
                   else s
    ensures x.pc == KeepPurchase ==> (a.ok ==> y == x.(pc := FindDebit)) && (!a.ok ==> Caught(x, y))
    ensures x.pc == FindDebit ==>
      && t == s
      && (!a.ok ==> Caught(x, y))
      && (a.ok ==> var found := exists k: nat :: IsEntry(s, k, "renewal-debit:" + x.execution);
                   y == x.(debited := found, pc := if found then Confirm else CheckWallet))
  {
    var found := FindEntry(s.entries, "renewal-debit:" + x.execution);
    if found.Some? { assert IsEntry(s, found.value, "renewal-debit:" + x.execution); }
  }

  // The customer has an active wallet in the currency that covers the amount.
  ghost predicate Covers(s: Commerce, x: Worker) {
    exists w: nat :: IsWallet(s, w, x.customer, x.currency) && s.wallets[w].active && s.wallets[w].balance >= x.amount
  }

  // The wallet is checked without a lock and then debited; only a debit that succeeds and is known to have makes the
  // worker a debited one.
  lemma ChargingSteps(w: World, i: nat, a: Answer, x: Worker, y: Worker, s: Commerce, t: Commerce)
    requires Moves(w, i, a, x, y, s, t) && OneWalletEach(s)
    ensures x.pc == CheckWallet ==>
      && t == s
      && (a.ok && Covers(s, x) ==> y == x.(pc := DebitWallet))
      && (!(a.ok && Covers(s, x)) ==> Caught(x, y))
    ensures x.pc == DebitWallet && x.purchase.Some? ==>
      var debit := Debit(s, x.customer, x.amount, x.currency, x.purchase.value, x.execution);
      && (a.ok || a.applied ==> t == debit.0)
      && (a.ok && debit.1.Ok? ==> y == x.(debited := true, pc := Confirm))
      && (!(a.ok && debit.1.Ok?) ==> Caught(x, y))
  {
    var found := FindWallet(s.wallets, x.customer, x.currency);
    if found.Some? { assert IsWallet(s, found.value, x.customer, x.currency); }
  }

  // Confirming stores nothing here; completing moves the schedule on, if it is PROCESSING, and ends the worker.
  lemma ConcludingSteps(w: World, i: nat, a: Answer, x: Worker, y: Worker, s: Commerce, t: Commerce)
    requires Moves(w, i, a, x, y, s, t)
    ensures x.pc == Confirm ==> t == s && (a.ok ==> y == x.(pc := Complete)) && (!a.ok ==> Caught(x, y))
    ensures x.pc == Complete ==> (a.ok ==> y == x.(pc := Done)) && (!a.ok ==> Caught(x, y))
    ensures x.pc == Complete && (a.ok || a.applied) ==>
              if x.schedule < |s.schedules| && s.schedules[x.schedule].status == Processing
              then |t.schedules| == |s.schedules| && t.schedules[x.schedule].execution.None?
                   && t.schedules[x.schedule].status == Active && t.schedules[x.schedule].nextRunAt > a.now
                   && t == s.(schedules := s.schedules[x.schedule := t.schedules[x.schedule]])
              else t == s
  {
    if x.schedule < |s.schedules| { ScheduleEnds(s, x.schedule, a.now, 0); }
  }

  // Entry k is the newest PURCHASE entry that references the purchase.
  predicate IsNewest(s: Commerce, k: nat, purchase: nat) {
    && k < |s.entries| && s.entries[k].kind == Purchase && s.entries[k].reference == Some(purchase)
    && forall j :: k < j < |s.entries| ==> !(s.entries[j].kind == Purchase && s.entries[j].reference == Some(purchase))
  }

  // The catch block: a purchase found settled, or not found out about, is only marked failed; otherwise the amount to
  // give back is that of the newest PURCHASE entry, or nothing. It is refunded if positive, whatever the cancellation
  // meets; a refund that fails, or is not known to have succeeded, is owed.
  lemma CompensatingSteps(w: World, i: nat, a: Answer, x: Worker, y: Worker, s: Commerce, t: Commerce)
    requires Moves(w, i, a, x, y, s, t)
    ensures x.pc == ReadState ==>
      && t == s
      && (!a.ok || a.settled || x.purchase.None? ==> y == x.(pc := MarkFailed))
      && (a.ok && !a.settled && x.purchase.Some? ==>
            && y == x.(amount := y.amount, currency := y.currency, pc := CancelPurchase)
            && (forall k: nat :: IsNewest(s, k, x.purchase.value) ==>
                  y.amount == s.entries[k].amount && y.currency == s.entries[k].currency)
            && ((forall k: nat :: !IsNewest(s, k, x.purchase.value)) ==> y.amount == 0.0 && y.currency == "TZS"))
    ensures x.pc == CancelPurchase ==> t == s && y == x.(pc := if x.amount > 0.0 then RefundWallet else MarkFailed)
    ensures x.pc == RefundWallet ==>
      var refund := AddEntry(s, x.customer, EntryInput(Refund, x.amount, x.currency, "renewal-refund:" + x.execution,
                                                       x.purchase));
      && (a.ok || a.applied ==> t == refund.0)
      && y == x.(pc := if a.ok && refund.1.Ok? then MarkFailed else OweRefund)
    ensures x.pc == OweRefund ==> y == x.(pc := MarkFailed)
  {
    if x.purchase.Some? {
      var latest := Latest(s.entries, x.purchase.value);
      if latest.Some? { assert IsNewest(s, latest.value, x.purchase.value); }
    }
  }

  // Marking the schedule failed counts the failure, if it is PROCESSING, and ends the worker; an ended one does
  // nothing.
  lemma EndingSteps(w: World, i: nat, a: Answer, x: Worker, y: Worker, s: Commerce, t: Commerce)
    requires Moves(w, i, a, x, y, s, t)
    ensures x.pc == MarkFailed ==> y == x.(pc := Done)
    ensures x.pc == MarkFailed && (a.ok || a.applied) ==>
              if x.schedule < |s.schedules| && s.schedules[x.schedule].status == Processing
              then |t.schedules| == |s.schedules|
                   && t.schedules[x.schedule].failures == s.schedules[x.schedule].failures + 1
                   && t.schedules[x.schedule].execution == s.schedules[x.schedule].execution
                   && t.schedules[x.schedule].purchase == s.schedules[x.schedule].purchase
                   && t == s.(schedules := s.schedules[x.schedule := t.schedules[x.schedule]])
              else t == s
    ensures x.pc == Done ==> t == s && y == x
  {
    if x.schedule < |s.schedules| { ScheduleEnds(s, x.schedule, a.now, 0); }
  }

  // A compensator enters the refund and closes its row; if either fails, or is not known to have succeeded, it
  // postpones the row. Nothing is stored but by a statement that takes effect.
  lemma CompensatorSteps(w: World, i: nat, ok: bool, applied: bool, now: int)
    requires i < |w.comps| && w.comps[i].debt < |w.db.debts|
    ensures var v := Step(w, Compensate(i, ok, applied, now));
      var c, d, s, t := w.comps[i], v.comps[i], w.db, v.db;
      var refund := AddEntry(s, c.customer, EntryInput(Refund, c.amount, c.currency, "renewal-refund:" + c.execution,
                                                       Some(c.purchase)));
      && |v.comps| == |w.comps| && v.workers == w.workers && d == c.(pc := d.pc)
      && (forall k :: 0 <= k < |w.comps| && k != i ==> v.comps[k] == w.comps[k])
      && (!ok && !applied ==> t == s)
      && (c.pc == Compensating ==>
            (ok || applied ==> t == refund.0) && d.pc == if ok && refund.1.Ok? then Resolving else Retrying)
      && (c.pc == Resolving ==>
            && d.pc == (if ok then Settled else Retrying)
            && (ok || applied ==> |t.debts| == |s.debts| && t == s.(debts := s.debts[c.debt := t.debts[c.debt]])
                                  && t.debts[c.debt].status == Resolved))
      && (c.pc == Retrying ==>
            && d.pc == Settled
            && (ok || applied ==>
                  && |t.debts| == |s.debts| && t == s.(debts := s.debts[c.debt := t.debts[c.debt]])
                  && t.debts[c.debt].status == (if s.debts[c.debt].attempts >= 8 then GivenUp else Pending)
                  && t.debts[c.debt].nextAttemptAt >= now + 60))
      && (c.pc == Settled ==> v == w)
  {
    var v := Step(w, Compensate(i, ok, applied, now));
    if w.comps[i].pc == Settled { assert v.comps == w.comps; }
    RetriesBackOff(w.db, w.db, w.comps[i].debt, now);
  }

  // ---- Claims and settings ----

  // Claiming a due schedule makes a worker for its customer, on its execution if it has one and otherwise on a fresh
  // id, with the purchase it has kept. An id is drawn once.
  lemma ClaimMakesWorker(w: World, i: nat, now: int, uuid: string)
    ensures var v := Step(w, ClaimRenewal(i, now, uuid));
      if i < |w.db.schedules| && Renewable(w.db.schedules[i], now)
         && (w.db.schedules[i].execution.Some? || uuid !in w.issued)
      then var r := w.db.schedules[i];
           var execution := if r.execution.Some? then r.execution.value else uuid;
           && v.workers == w.workers + [Worker(i, r.customer, execution, r.purchase, 0.0, "", false, ReadPlan)]
           && v.db == w.db.(schedules := w.db.schedules[i := r.(status := Processing, claimedAt := Some(now),
                                                                execution := Some(execution))])
           && v.issued == (if r.execution.Some? then w.issued else w.issued[uuid := r.customer])
           && v.comps == w.comps && v.origins == w.origins
      else v == w
  {
  }

  // Claiming an owed compensation makes a compensator for its claim and counts a try.
  lemma ClaimMakesCompensator(w: World, k: nat, now: int)
    ensures var v := Step(w, ClaimOwed(k, now));
      if k < |w.db.debts| && Owed(w.db.debts[k], now)
      then var d := w.db.debts[k];
           && v.comps == w.comps + [Compensator(k, d.customer, d.execution, d.purchase, d.amount, d.currency,
                                                Compensating)]
           && v == w.(comps := v.comps,
                      db := w.db.(debts := w.db.debts[k := d.(status := Working, attempts := d.attempts + 1,
                                                               updatedAt := now)]))
      else v == w
  {
  }

  // A schedule starts active, due from its first run; its owner may move it, pause or resume it, and switch it off.
  lemma SettingsAreAsRequested(w: World, customer: nat, renew: bool, days: nat, at: int, i: nat, paused: bool)
    ensures Step(w, NewRenewal(customer, renew, days, at)) ==
            w.(db := w.db.(schedules := w.db.schedules
                 + [Schedule(customer, Active, at, None, None, None, 0, renew, days)]))
    ensures i < |w.db.schedules| ==>
              var r := w.db.schedules[i].(nextRunAt := at, autoRenew := renew);
              Step(w, SetRenewal(i, at, true, renew)) ==
                w.(db := w.db.(schedules := w.db.schedules[i := r.(status := Paused)]))
              && Step(w, SetRenewal(i, at, false, renew)) ==
                   w.(db := w.db.(schedules := w.db.schedules[i := r.(status := Active)]))
  {
  }
}
