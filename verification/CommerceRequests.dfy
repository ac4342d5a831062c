// What the statements on wallets, renewal schedules and compensations store, in the terms of the requests and of the
// clock.
module CommerceRequests {
  import opened Common
  import opened Wallets
  import opened SagaOwed

  // ---- Wallets ----

  predicate IsWallet(s: Commerce, w: nat, customer: nat, currency: string) {
    w < |s.wallets| && s.wallets[w].customer == customer && s.wallets[w].currency == currency
  }

  // A customer has one wallet a currency.
  ghost predicate OneWalletEach(s: Commerce) {
    forall v, w, customer, currency ::
      IsWallet(s, v, customer, currency) && IsWallet(s, w, customer, currency) ==> v == w
  }

  predicate IsEntry(s: Commerce, k: nat, key: string) { k < |s.entries| && s.entries[k].key == key }

  // What an entry of the kind does to a balance: purchases and outgoing transfers take, all others give.
  function Effect(kind: EntryKind, amount: real): real {
    match kind
    case Purchase => -amount
    case TransferOut => -amount
    case Topup => amount
    case Refund => amount
    case Adjustment => amount
    case Commission => amount
    case TransferIn => amount
  }

  // The entry is stored and its effect is on its wallet's balance; nothing else changes.
  ghost predicate Enters(s: Commerce, t: Commerce, w: nat, e: Entry) {
    && w < |s.wallets| && e.wallet == w && e.currency == s.wallets[w].currency
    && t == s.(entries := s.entries + [e],
               wallets := s.wallets[w := s.wallets[w].(balance := s.wallets[w].balance + Effect(e.kind, e.amount))])
  }

  // An entry is refused without a wallet or with an inactive one, answered with its row under a known key, refused if
  // it would overdraw the wallet, and otherwise entered as requested.
  lemma EntryIsAsRequested(s: Commerce, w: nat, customer: nat, d: EntryInput)
    requires OneWalletEach(s)
    ensures var (t, r) := AddEntry(s, customer, d);
      && ((forall w: nat :: !IsWallet(s, w, customer, d.currency)) <==> r == Err(NotFound))
      && (r.Err? ==> t == s && r != Err(Conflict))
      && (IsWallet(s, w, customer, d.currency) ==>
            var known := exists k: nat :: IsEntry(s, k, d.key);
            && (r == Err(BadRequest) <==>
                  !s.wallets[w].active || (!known && s.wallets[w].balance + Effect(d.kind, d.amount) < 0.0))
            && (s.wallets[w].active && known ==> t == s && r.Ok? && r.value.reused && IsEntry(s, r.value.entry, d.key))
            && (r.Ok? && !known ==>
                  && r.value == EntryAdded(false, |s.entries|)
                  && Enters(s, t, w, Entry(w, d.kind, d.amount, d.currency, d.reference, d.key))))
  {
    var found := FindWallet(s.wallets, customer, d.currency);
    if found.Some? {
      assert IsWallet(s, found.value, customer, d.currency);
      if IsWallet(s, w, customer, d.currency) { assert w == found.value; }
    }
    var existing := FindEntry(s.entries, d.key);
    if existing.Some? { assert IsEntry(s, existing.value, d.key); }
  }

  // A renewal is debited exactly from an active wallet that covers it, under a free key; the entry is a PURCHASE of the
  // amount that references the purchase.
  lemma DebitIsAsRequested(s: Commerce, w: nat, customer: nat, amount: real, currency: string, purchase: nat,
                           execution: string)
    requires OneWalletEach(s)
    ensures var (t, r) := Debit(s, customer, amount, currency, purchase, execution);
      var key := "renewal-debit:" + execution;
      && (r.Err? ==> t == s && r == Err(Conflict))
      && (r.Ok? ==> r.value == |s.entries| && exists w: nat :: IsWallet(s, w, customer, currency))
      && (IsWallet(s, w, customer, currency) ==>
            && (r.Ok? <==>
                  s.wallets[w].active && s.wallets[w].balance >= amount && forall k: nat :: !IsEntry(s, k, key))
            && (r.Ok? ==> Enters(s, t, w, Entry(w, Purchase, amount, currency, Some(purchase), key))))
  {
    var found := FindWallet(s.wallets, customer, currency);
    if found.Some? {
      assert IsWallet(s, found.value, customer, currency);
      if IsWallet(s, w, customer, currency) { assert w == found.value; }
    }
    var existing := FindEntry(s.entries, "renewal-debit:" + execution);
    if existing.Some? { assert IsEntry(s, existing.value, "renewal-debit:" + execution); }
  }

  // ---- Schedules ----

  // The claim has stood for more than ten minutes.
  predicate StaleClaim(r: Schedule, now: int) {
    r.status == Processing && r.claimedAt.Some? && now - r.claimedAt.value > 600
  }

  predicate Renewable(r: Schedule, now: int) { r.status == Active && r.autoRenew && r.nextRunAt <= now }

  // Recovery frees exactly the stale claims; the rest of a row stays, its execution included.
  lemma RecoveryFreesStaleClaims(s: Commerce, now: int, i: nat)
    requires i < |s.schedules|
    ensures var t := ReclaimStale(s, now);
      && |t.schedules| == |s.schedules| && t == s.(schedules := t.schedules)
      && t.schedules[i] == if StaleClaim(s.schedules[i], now) then s.schedules[i].(status := Active, claimedAt := None)
                           else s.schedules[i]
  {
  }

  // A picked row that is due is claimed now, on its own execution if it has one and otherwise on one of the ids drawn
  // for it; no other row changes.
  ghost predicate ClaimedAs(r: Schedule, q: Schedule, now: int, picked: seq<nat>, uuids: seq<string>, i: nat)
    requires |picked| == |uuids|
  {
    && q == r.(status := Processing, claimedAt := Some(now), execution := q.execution)
    && (r.execution.Some? ==> q.execution == r.execution)
    && (r.execution.None? ==> exists k :: 0 <= k < |picked| && picked[k] == i && q.execution == Some(uuids[k]))
  }

  lemma {:induction false} ClaimsTakeDue(s: Commerce, picked: seq<nat>, now: int, uuids: seq<string>, i: nat)
    requires |uuids| == |picked| && i < |s.schedules|
    ensures var t := Claims(s, picked, now, uuids);
      && |t.schedules| == |s.schedules| && t == s.(schedules := t.schedules)
      && (if i in picked && Renewable(s.schedules[i], now)
          then ClaimedAs(s.schedules[i], t.schedules[i], now, picked, uuids, i)
          else t.schedules[i] == s.schedules[i])
  {
    if picked != [] {
      var n := |picked| - 1;
      var before := Claims(s, picked[..n], now, uuids[..n]);
      ClaimsTakeDue(s, picked[..n], now, uuids[..n], i);
      assert i in picked <==> i in picked[..n] || i == picked[n];
      if i in picked[..n] && Renewable(s.schedules[i], now) && s.schedules[i].execution.None? {
        var k :| 0 <= k < n && picked[..n][k] == i && before.schedules[i].execution == Some(uuids[..n][k]);
        assert picked[k] == i && uuids[k] == uuids[..n][k];
      }
    }
  }

  // While a schedule is PROCESSING: completing it moves it on by its days, or 30, from now, and forgets the attempt;
  // failing counts a failure, keeps the attempt, and gives up at the fifth; keeping a purchase keeps just that.
  // Otherwise nothing changes.
  lemma ScheduleEnds(s: Commerce, i: nat, now: int, purchase: nat)
    requires i < |s.schedules|
    ensures var r, done := s.schedules[i], Finish(s, i, now);
      var failed, kept := FailRenewal(s, i), SavePurchase(s, i, purchase);
      if r.status == Processing then
        && done == s.(schedules := s.schedules[i := done.schedules[i]])
        && failed == s.(schedules := s.schedules[i := failed.schedules[i]])
        && kept == s.(schedules := s.schedules[i := r.(purchase := Some(purchase))])
        && done.schedules[i] == r.(status := Active, nextRunAt := done.schedules[i].nextRunAt, failures := 0,
                                   claimedAt := None, execution := None, purchase := None)
        && (r.days > 0 ==> done.schedules[i].nextRunAt == now + r.days * 24 * 60 * 60)
        && (r.days == 0 ==> done.schedules[i].nextRunAt == now + 30 * 24 * 60 * 60)
        && failed.schedules[i] == r.(status := failed.schedules[i].status, failures := r.failures + 1,
                                     claimedAt := None)
        && failed.schedules[i].status == (if r.failures + 1 >= 5 then Failed else Active)
      else done == s && failed == s && kept == s
  {
  }

  // ---- Compensations ----

  predicate StaleDebt(d: Debt, now: int) { d.status == Working && now - d.updatedAt > 900 }

  predicate Owed(d: Debt, now: int) {
    (d.status == Pending || d.status == GivenUp) && d.nextAttemptAt <= now && d.attempts < 8
  }

  // Recovery frees exactly the rows taken up more than fifteen minutes ago: to be tried now, or given up at eight
  // tries.
  lemma RecoveryFreesStaleDebts(s: Commerce, now: int, k: nat)
    requires k < |s.debts|
    ensures var t, d := ReclaimDebts(s, now), s.debts[k];
      && |t.debts| == |s.debts| && t == s.(debts := t.debts)
      && (!StaleDebt(d, now) ==> t.debts[k] == d)
      && (StaleDebt(d, now) && d.attempts < 8 ==>
            t.debts[k] == d.(status := Pending, nextAttemptAt := now, updatedAt := now))
      && (StaleDebt(d, now) && d.attempts >= 8 ==> t.debts[k] == d.(status := GivenUp, updatedAt := now))
  {
  }

  // A picked row that is owed is taken up now and counts a try; no other row changes.
  lemma {:induction false} ClaimsTakeOwed(s: Commerce, picked: seq<nat>, now: int, k: nat)
    requires k < |s.debts|
    ensures var t := ClaimDebts(s, picked, now);
      && |t.debts| == |s.debts| && t == s.(debts := t.debts)
      && t.debts[k] == if k in picked && Owed(s.debts[k], now)
                       then s.debts[k].(status := Working, attempts := s.debts[k].attempts + 1, updatedAt := now)
                       else s.debts[k]
  {
    if picked != [] {
      ClaimsTakeOwed(s, picked[..|picked| - 1], now, k);
      assert k in picked <==> k in picked[..|picked| - 1] || k == picked[|picked| - 1];
    }
  }

  // Settling closes the row; postponing waits by the tries made (SagaOwed.RetriesBackOff); neither touches another row.
  lemma DebtEnds(s: Commerce, k: nat, now: int)
    requires k < |s.debts|
    ensures ResolveDebt(s, k, now) == s.(debts := s.debts[k := s.debts[k].(status := Resolved, updatedAt := now)])
    ensures var t := RetryDebt(s, k, now);
      && |t.debts| == |s.debts| && t == s.(debts := s.debts[k := t.debts[k]])
      && SameClaim(t.debts[k], s.debts[k]) && t.debts[k].attempts == s.debts[k].attempts && t.debts[k].updatedAt == now
  {
  }
}
