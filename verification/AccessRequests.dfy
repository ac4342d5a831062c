// What the requests on access bindings and service states, and the expiry job, store, in the terms of the requests and
// of the clock.
module AccessRequests {
  import opened Common
  import opened Access
  import opened AccessLaws

  // ---- Bindings ----

  ghost predicate UsernameFree(s: Network, username: string) {
    forall i :: 0 <= i < |s.bindings| ==> s.bindings[i].username != username
  }

  // A binding is refused for a taken username or an unknown reference, and otherwise added, PENDING.
  lemma BindingIsAsRequested(s: Network, d: BindingInput)
    ensures var (t, r) := CreateBinding(s, d);
      var known := d.customer in s.known.customers && (d.router.Some? ==> d.router.value in s.known.routers)
                   && (d.package.Some? ==> d.package.value in s.known.packages);
      && r == (if !UsernameFree(s, d.username) then Err(Conflict) else if !known then Err(NotFound)
               else Ok(|s.bindings|))
      && t == if r.Err? then s
              else s.(bindings := s.bindings + [Binding(d.customer, d.router, d.package, d.username, Pending, None,
                                                        None, d.expiresAt)])
  {
  }

  // A state change of a known binding that is in another state stores the state, stamps a suspension and clears it
  // otherwise, stamps the first activation only, and notes one event; nothing else changes.
  lemma StateIsAsRequested(s: Network, i: nat, state: AccessState, now: int)
    ensures var (t, r) := ChangeState(s, i, state, now);
      && (r == Err(NotFound) <==> i >= |s.bindings|) && (r.Err? ==> r == Err(NotFound) && t == s)
      && (i < |s.bindings| ==>
            && |t.bindings| == |s.bindings| && r == Ok(t.bindings[i])
            && t == s.(bindings := t.bindings, bindingEvents := t.bindingEvents)
            && (forall k :: 0 <= k < |s.bindings| && k != i ==> t.bindings[k] == s.bindings[k])
            && var b, c := s.bindings[i], t.bindings[i];
               && c.state == state && (b.state == state ==> t == s)
               && (b.state != state ==>
                     && t.bindingEvents == s.bindingEvents + [BindingEvent(i, b.state, state, Api)]
                     && c.suspendedAt == (if state == Suspended then Some(now) else None)
                     && (b.activatedAt.Some? ==> c.activatedAt == b.activatedAt)
                     && (b.activatedAt.None? ==> c.activatedAt == if state == Active then Some(now) else None)
                     && c == b.(state := state, activatedAt := c.activatedAt, suspendedAt := c.suspendedAt)))
  {
  }

  // Bindings persist; their first activation is never moved, and no binding is ACTIVE without one.
  ghost predicate ActivationsStay(s: Network, t: Network) {
    && |s.bindings| <= |t.bindings|
    && forall i :: 0 <= i < |s.bindings| && s.bindings[i].activatedAt.Some? ==>
         t.bindings[i].activatedAt == s.bindings[i].activatedAt
  }

  ghost predicate ActiveWereActivated(s: Network) {
    forall i :: 0 <= i < |s.bindings| && s.bindings[i].state == Active ==> s.bindings[i].activatedAt.Some?
  }

  lemma StepActivations(s: Network, op: Op)
    requires ActiveWereActivated(s)
    ensures ActivationsStay(s, Step(s, op)) && ActiveWereActivated(Step(s, op))
  {
    match op
    case Bind(d) => BindingIsAsRequested(s, d);
    case Change(i, state, at) => StateIsAsRequested(s, i, state, at);
    case Serve(_, _, _, _) =>
    case Expire(now) => ReconcileRows(s, now);
  }

  lemma {:induction false} ActivationIsKept(s: Network, ops: seq<Op>)
    requires ActiveWereActivated(s)
    ensures ActivationsStay(s, Run(s, ops)) && ActiveWereActivated(Run(s, ops))
  {
    if ops != [] {
      ActivationIsKept(s, ops[..|ops| - 1]);
      StepActivations(Run(s, ops[..|ops| - 1]), ops[|ops| - 1]);
    }
  }

  // ---- Services ----

  // Row i is the customer's service.
  predicate IsService(s: Network, i: nat, customer: nat) { i < |s.services| && s.services[i].customer == customer }

  ghost predicate OneServiceEach(s: Network) {
    forall i, j :: 0 <= i < j < |s.services| ==> s.services[i].customer != s.services[j].customer
  }

  // A service state is refused for an expiry that is not later than its start or for an unknown customer. Otherwise
  // it replaces the customer's row, or becomes it, and an event is noted exactly when the state differs from the one
  // before.
  lemma ServiceIsAsRequested(s: Network, customer: nat, state: ServiceState, effectiveAt: int, expiresAt: Option<int>)
    requires OneServiceEach(s)
    ensures var (t, r) := SetService(s, customer, state, effectiveAt, expiresAt);
      var row := Service(customer, state, Api, effectiveAt, expiresAt);
      && r == (if expiresAt.Some? && expiresAt.value <= effectiveAt then Err(BadRequest)
               else if customer !in s.known.customers then Err(NotFound) else Ok(row))
      && (r.Err? ==> t == s)
      && (r.Ok? ==>
            && t == s.(services := t.services, serviceEvents := t.serviceEvents)
            && (forall i: nat :: IsService(s, i, customer) ==>
                  && t.services == s.services[i := row]
                  && t.serviceEvents == s.serviceEvents
                       + if s.services[i].state == state then []
                         else [ServiceEvent(customer, Some(s.services[i].state), state, Api, effectiveAt)])
            && ((forall i: nat :: !IsService(s, i, customer)) ==>
                  && t.services == s.services + [row]
                  && t.serviceEvents == s.serviceEvents + [ServiceEvent(customer, None, state, Api, effectiveAt)]))
  {
    var found := FindService(s.services, customer);
    if found.Some? { assert IsService(s, found.value, customer); }
    forall i: nat | IsService(s, i, customer) ensures found == Some(i) {}
  }

  // ---- The clock ----

  // The binding is active with an expiry that has come.
  predicate Over(b: Binding, now: int) { b.state == Active && b.expiresAt.Some? && b.expiresAt.value <= now }

  // The customer has a binding that stays active.
  ghost predicate Served(s: Network, customer: nat, now: int) {
    exists i :: 0 <= i < |s.bindings| && s.bindings[i].customer == customer && s.bindings[i].state == Active
                && !Over(s.bindings[i], now)
  }

  lemma ServedIsActive(s: Network, customer: nat, now: int)
    ensures HasActive(Reconcile(s, now).bindings, customer) <==> Served(s, customer, now)
  {
    var u := Reconcile(s, now);
    ReconcileRows(s, now);
    forall i | 0 <= i < |s.bindings|
      ensures u.bindings[i].customer == s.bindings[i].customer
      ensures u.bindings[i].state == Active <==> s.bindings[i].state == Active && !Over(s.bindings[i], now)
    {
      assert u.bindings[i] == ExpiredRow(s.bindings[i], now);
    }
    if HasActive(u.bindings, customer) {
      var i :| 0 <= i < |u.bindings| && u.bindings[i].customer == customer && u.bindings[i].state == Active;
      assert !Over(s.bindings[i], now);
    }
    if Served(s, customer, now) {
      var i :| 0 <= i < |s.bindings| && s.bindings[i].customer == customer && s.bindings[i].state == Active
               && !Over(s.bindings[i], now);
      assert u.bindings[i].state == Active;
    }
  }

  // The expiry job expires exactly the bindings whose time has come, the very moment included, and changes nothing
  // else of any binding.
  lemma ExpiryFollowsTheClock(s: Network, now: int)
    ensures var u := Reconcile(s, now);
      |u.bindings| == |s.bindings| && forall i :: 0 <= i < |s.bindings| ==>
        u.bindings[i] == if Over(s.bindings[i], now) then s.bindings[i].(state := Expired) else s.bindings[i]
  {
    ReconcileRows(s, now);
  }

  // It suspends exactly the active services of customers left without an active binding whose own expiry has come, as
  // from now; every other service keeps its state.
  lemma SuspensionFollowsTheClock(s: Network, now: int, i: nat)
    requires i < |s.services|
    ensures var u, r := Reconcile(s, now), s.services[i];
      && |u.services| == |s.services| && u.services[i].customer == r.customer
      && (if r.state == SActive && !Served(s, r.customer, now) && r.expiresAt.Some? && r.expiresAt.value <= now
          then u.services[i] == r.(state := SSuspended, source := SystemExpiry, effectiveAt := now)
          else u.services[i] == r.(expiresAt := u.services[i].expiresAt))
      && (u.services[i].expiresAt != r.expiresAt ==> r.state == SActive && Served(s, r.customer, now))
  {
    var u, r := Reconcile(s, now), s.services[i];
    ReconcileRows(s, now);
    ServedIsActive(s, r.customer, now);
    assert u.services[i] == SuspendedRow(u.bindings, RefreshedRow(u.bindings, r), now);
    if HasActive(u.bindings, r.customer) { assert !(r.state == SActive && !Served(s, r.customer, now)); }
  }

  // The events of the job are its own.
  ghost predicate OwnEvents(s: Network, t: Network) {
    && s.bindingEvents <= t.bindingEvents && s.serviceEvents <= t.serviceEvents
    && (forall k :: |s.bindingEvents| <= k < |t.bindingEvents| ==>
          t.bindingEvents[k].source == SystemExpiry && t.bindingEvents[k].previous == Active
          && t.bindingEvents[k].next == Expired)
    && (forall k :: |s.serviceEvents| <= k < |t.serviceEvents| ==>
          t.serviceEvents[k].source == SystemExpiry && t.serviceEvents[k].next == SSuspended)
  }

  lemma {:induction false} ExpireEvents(s: Network, n: nat, now: int)
    requires n <= |s.bindings|
    ensures OwnEvents(s, ExpireUpTo(s, n, now))
  {
    if n > 0 { ExpireEvents(s, n - 1, now); }
  }

  lemma {:induction false} SuspendEvents(s: Network, n: nat, now: int)
    requires n <= |s.services|
    ensures OwnEvents(s, SuspendUpTo(s, n, now))
  {
    if n > 0 { SuspendEvents(s, n - 1, now); }
  }

  lemma JobEventsAreItsOwn(s: Network, now: int)
    ensures OwnEvents(s, Reconcile(s, now))
  {
    var expired := ExpireUpTo(s, |s.bindings|, now);
    var refreshed := RefreshUpTo(expired, |s.services|);
    ExpireEvents(s, |s.bindings|, now);
    SuspendEvents(refreshed, |s.services|, now);
  }
}
