// Laws of access and service states: what the expiry reconciliation establishes, and that the trails of
// bindings and services replay to the stored states across all writers.
module AccessLaws {
  import opened Common
  import opened Access

  // ---- What each phase does to a row ----

  function ExpiredRow(b: Binding, now: int): Binding {
    if b.state == Active && Lapsed(b.expiresAt, now) then b.(state := Expired) else b
  }

  function RefreshedRow(bindings: seq<Binding>, r: Service): Service {
    if r.state == SActive && HasActive(bindings, r.customer)
    then r.(expiresAt := MaxExpiry(bindings, r.customer)) else r
  }

  function SuspendedRow(bindings: seq<Binding>, r: Service, now: int): Service {
    if r.state == SActive && Lapsed(r.expiresAt, now) && !HasActive(bindings, r.customer)
    then r.(state := SSuspended, source := SystemExpiry, effectiveAt := now) else r
  }

  lemma {:induction false} ExpireRows(s: Network, n: nat, now: int)
    requires n <= |s.bindings|
    ensures forall i :: 0 <= i < |s.bindings| ==>
      ExpireUpTo(s, n, now).bindings[i] == (if i < n then ExpiredRow(s.bindings[i], now) else s.bindings[i])
  {
    if n > 0 { ExpireRows(s, n - 1, now); }
  }

  lemma {:induction false} RefreshRows(s: Network, n: nat)
    requires n <= |s.services|
    ensures forall i :: 0 <= i < |s.services| ==>
      RefreshUpTo(s, n).services[i] == (if i < n then RefreshedRow(s.bindings, s.services[i]) else s.services[i])
  {
    if n > 0 { RefreshRows(s, n - 1); }
  }

  lemma {:induction false} SuspendRows(s: Network, n: nat, now: int)
    requires n <= |s.services|
    ensures forall i :: 0 <= i < |s.services| ==>
      SuspendUpTo(s, n, now).services[i] ==
        (if i < n then SuspendedRow(s.bindings, s.services[i], now) else s.services[i])
  {
    if n > 0 { SuspendRows(s, n - 1, now); }
  }

  lemma ReconcileRows(s: Network, now: int)
    ensures var u := Reconcile(s, now);
      && |u.bindings| == |s.bindings| && |u.services| == |s.services| && u.known == s.known
      && (forall i :: 0 <= i < |s.bindings| ==> u.bindings[i] == ExpiredRow(s.bindings[i], now))
      && (forall i :: 0 <= i < |s.services| ==>
            u.services[i] == SuspendedRow(u.bindings, RefreshedRow(u.bindings, s.services[i]), now))
  {
    var expired := ExpireUpTo(s, |s.bindings|, now);
    ExpireRows(s, |s.bindings|, now);
    RefreshRows(expired, |s.services|);
    SuspendRows(RefreshUpTo(expired, |s.services|), |s.services|, now);
  }

  // ---- Correctness at time `now` ----

  // Nothing is left to do at time `now`.
  ghost predicate Settled(u: Network, now: int) {
    && (forall i :: 0 <= i < |u.bindings| && u.bindings[i].state == Active ==> !Lapsed(u.bindings[i].expiresAt, now))
    && (forall i :: 0 <= i < |u.services| && u.services[i].state == SActive ==>
          && !Lapsed(u.services[i].expiresAt, now)
          && (HasActive(u.bindings, u.services[i].customer) ==>
                u.services[i].expiresAt == MaxExpiry(u.bindings, u.services[i].customer)))
  }

  // No active binding or service has expired, active services carry the latest expiry of their customer's active
  // bindings, and only services without an active binding were suspended.
  lemma ReconcileIsCorrect(s: Network, now: int)
    ensures Settled(Reconcile(s, now), now)
    ensures var u := Reconcile(s, now); |u.services| == |s.services| && forall i :: 0 <= i < |s.services| ==>
      u.services[i].state != s.services[i].state ==>
        && s.services[i].state == SActive && u.services[i].state == SSuspended
        && !HasActive(u.bindings, s.services[i].customer) && Lapsed(s.services[i].expiresAt, now)
  {
    ReconcileRows(s, now);
    var u := Reconcile(s, now);
    forall i | 0 <= i < |u.bindings| && u.bindings[i].state == Active ensures !Lapsed(u.bindings[i].expiresAt, now) {
      assert u.bindings[i] == ExpiredRow(s.bindings[i], now);
    }
    forall i | 0 <= i < |u.services| && u.services[i].state == SActive ensures !Lapsed(u.services[i].expiresAt, now) {
      assert u.services[i] == SuspendedRow(u.bindings, RefreshedRow(u.bindings, s.services[i]), now);
    }
  }

  lemma {:induction false} SettledExpire(u: Network, n: nat, now: int)
    requires Settled(u, now) && n <= |u.bindings|
    ensures ExpireUpTo(u, n, now) == u
  {
    if n > 0 { SettledExpire(u, n - 1, now); }
  }

  lemma {:induction false} SettledRefresh(u: Network, n: nat, now: int)
    requires Settled(u, now) && n <= |u.services|
    ensures RefreshUpTo(u, n) == u
  {
    if n > 0 { SettledRefresh(u, n - 1, now); }
  }

  lemma {:induction false} SettledSuspend(u: Network, n: nat, now: int)
    requires Settled(u, now) && n <= |u.services|
    ensures SuspendUpTo(u, n, now) == u
  {
    if n > 0 { SettledSuspend(u, n - 1, now); }
  }

  // Reconciling a settled network does nothing, so running again at the same time emits no event.
  lemma ReconcileIsIdempotent(s: Network, now: int)
    ensures Reconcile(Reconcile(s, now), now) == Reconcile(s, now)
  {
    var u := Reconcile(s, now);
    ReconcileIsCorrect(s, now);
    SettledExpire(u, |u.bindings|, now);
    SettledRefresh(u, |u.services|, now);
    SettledSuspend(u, |u.services|, now);
  }

  // ---- Trails ----

  // The state the trail says binding i has; bindings start PENDING.
  function BindingReplay(events: seq<BindingEvent>, i: nat): AccessState {
    if events == [] then Pending
    else if events[|events| - 1].binding == i then events[|events| - 1].next
    else BindingReplay(events[..|events| - 1], i)
  }

  function ServiceReplay(events: seq<ServiceEvent>, customer: nat): Option<ServiceState> {
    if events == [] then None
    else if events[|events| - 1].customer == customer then Some(events[|events| - 1].next)
    else ServiceReplay(events[..|events| - 1], customer)
  }

  ghost predicate BindingLinks(events: seq<BindingEvent>, k: nat)
    requires k < |events|
  {
    events[k].previous == BindingReplay(events[..k], events[k].binding) && events[k].previous != events[k].next
  }

  ghost predicate ServiceLinks(events: seq<ServiceEvent>, k: nat)
    requires k < |events|
  {
    events[k].previous == ServiceReplay(events[..k], events[k].customer) && events[k].previous != Some(events[k].next)
  }

  ghost predicate BindingsOk(s: Network) {
    && (forall k :: 0 <= k < |s.bindingEvents| ==>
          BindingLinks(s.bindingEvents, k) && s.bindingEvents[k].binding < |s.bindings|)
    && (forall i :: 0 <= i < |s.bindings| ==>
          && BindingReplay(s.bindingEvents, i) == s.bindings[i].state
          && (s.bindings[i].suspendedAt.Some? <==> s.bindings[i].state == Suspended))
  }

  ghost predicate ServicesOk(s: Network) {
    && (forall k :: 0 <= k < |s.serviceEvents| ==>
          ServiceLinks(s.serviceEvents, k) && HasRow(s.services, s.serviceEvents[k].customer))
    && (forall i, j :: 0 <= i < j < |s.services| ==> s.services[i].customer != s.services[j].customer)
    && (forall i :: 0 <= i < |s.services| ==>
          ServiceReplay(s.serviceEvents, s.services[i].customer) == Some(s.services[i].state))
  }

  ghost predicate HasRow(services: seq<Service>, customer: nat) {
    exists i :: 0 <= i < |services| && services[i].customer == customer
  }

  ghost predicate TrailsOk(s: Network) { BindingsOk(s) && ServicesOk(s) }

  lemma BindingMoves(s: Network, t: Network, e: BindingEvent)
    requires BindingsOk(s) && t.bindingEvents == s.bindingEvents + [e] && e.binding < |s.bindings| == |t.bindings|
    requires e.previous == s.bindings[e.binding].state && e.previous != e.next == t.bindings[e.binding].state
    requires t.bindings == s.bindings[e.binding := t.bindings[e.binding]]
    requires t.bindings[e.binding].suspendedAt.Some? <==> e.next == Suspended
    ensures BindingsOk(t)
  {
    assert t.bindingEvents[..|s.bindingEvents|] == s.bindingEvents;
    forall k | 0 <= k < |t.bindingEvents| ensures BindingLinks(t.bindingEvents, k) {
      if k < |s.bindingEvents| {
        assert BindingLinks(s.bindingEvents, k) && t.bindingEvents[..k] == s.bindingEvents[..k];
      }
    }
  }

  lemma {:induction false} NoServiceEvents(events: seq<ServiceEvent>, customer: nat)
    requires forall k :: 0 <= k < |events| ==> events[k].customer != customer
    ensures ServiceReplay(events, customer) == None
  {
    if events != [] { NoServiceEvents(events[..|events| - 1], customer); }
  }

  // Row i of t is row i of s in a new state, or a first row for its customer.
  ghost predicate RowMoves(s: Network, t: Network, i: nat, e: ServiceEvent) {
    && i < |t.services| && i <= |s.services| && e.customer == t.services[i].customer
    && t.services == (if i < |s.services| then s.services[i := t.services[i]] else s.services + [t.services[i]])
    && (if i < |s.services| then s.services[i].customer == e.customer && e.previous == Some(s.services[i].state)
        else !HasRow(s.services, e.customer) && e.previous == None)
    && e.previous != Some(e.next) && e.next == t.services[i].state
    && t.serviceEvents == s.serviceEvents + [e]
  }

  lemma RowsStay(s: Network, t: Network, i: nat, e: ServiceEvent, customer: nat)
    requires RowMoves(s, t, i, e) && HasRow(s.services, customer)
    ensures HasRow(t.services, customer)
  {
    var j :| 0 <= j < |s.services| && s.services[j].customer == customer;
    assert t.services[j].customer == customer;
  }

  lemma MoveLinks(s: Network, t: Network, i: nat, e: ServiceEvent, k: nat)
    requires ServicesOk(s) && RowMoves(s, t, i, e) && k < |t.serviceEvents|
    ensures ServiceLinks(t.serviceEvents, k) && HasRow(t.services, t.serviceEvents[k].customer)
  {
    if k < |s.serviceEvents| {
      assert ServiceLinks(s.serviceEvents, k) && t.serviceEvents[..k] == s.serviceEvents[..k];
      RowsStay(s, t, i, e, s.serviceEvents[k].customer);
    } else {
      assert t.serviceEvents[..k] == s.serviceEvents;
      if i == |s.services| {
        forall j | 0 <= j < |s.serviceEvents| ensures s.serviceEvents[j].customer != e.customer {
          assert HasRow(s.services, s.serviceEvents[j].customer);
        }
        NoServiceEvents(s.serviceEvents, e.customer);
      }
      assert t.services[i].customer == e.customer;
    }
  }

  lemma OtherRow(s: Network, t: Network, i: nat, e: ServiceEvent, j: nat)
    requires ServicesOk(s) && RowMoves(s, t, i, e) && j < |t.services| && j != i
    ensures j < |s.services| && t.services[j] == s.services[j] && s.services[j].customer != e.customer
  {
    assert HasRow(s.services, s.services[j].customer);
  }

  lemma MoveReplays(s: Network, t: Network, i: nat, e: ServiceEvent, j: nat)
    requires ServicesOk(s) && RowMoves(s, t, i, e) && j < |t.services|
    ensures ServiceReplay(t.serviceEvents, t.services[j].customer) == Some(t.services[j].state)
  {
    assert t.serviceEvents[..|s.serviceEvents|] == s.serviceEvents;
    if j != i { OtherRow(s, t, i, e, j); }
  }

  // A service row changes state together with its event.
  lemma ServiceMoves(s: Network, t: Network, i: nat, e: ServiceEvent)
    requires ServicesOk(s) && RowMoves(s, t, i, e)
    ensures ServicesOk(t)
  {
    forall k | 0 <= k < |t.serviceEvents|
      ensures ServiceLinks(t.serviceEvents, k) && HasRow(t.services, t.serviceEvents[k].customer)
    {
      MoveLinks(s, t, i, e, k);
    }
    forall j | 0 <= j < |t.services| && j != i ensures j < |s.services| && t.services[j].customer != e.customer {
      OtherRow(s, t, i, e, j);
    }
    forall j | 0 <= j < |t.services|
      ensures ServiceReplay(t.serviceEvents, t.services[j].customer) == Some(t.services[j].state)
    {
      MoveReplays(s, t, i, e, j);
    }
  }

  lemma SameServiceStates(s: Network, t: Network)
    requires ServicesOk(s) && t.serviceEvents == s.serviceEvents && |t.services| == |s.services|
    requires forall i :: 0 <= i < |s.services| ==>
               t.services[i].customer == s.services[i].customer && t.services[i].state == s.services[i].state
    ensures ServicesOk(t)
  {
    forall k | 0 <= k < |t.serviceEvents| ensures HasRow(t.services, t.serviceEvents[k].customer) {
      assert HasRow(s.services, s.serviceEvents[k].customer);
      var j :| 0 <= j < |s.services| && s.services[j].customer == s.serviceEvents[k].customer;
      assert t.services[j].customer == s.serviceEvents[k].customer;
    }
  }

  lemma CreateKeeps(s: Network, d: BindingInput)
    requires TrailsOk(s)
    ensures TrailsOk(CreateBinding(s, d).0)
  {
    var (t, r) := CreateBinding(s, d);
    if r.Ok? { NoBindingEvents(s.bindingEvents, |s.bindings|); }
  }

  lemma {:induction false} NoBindingEvents(events: seq<BindingEvent>, i: nat)
    requires forall k :: 0 <= k < |events| ==> events[k].binding != i
    ensures BindingReplay(events, i) == Pending
  {
    if events != [] { NoBindingEvents(events[..|events| - 1], i); }
  }

  lemma ChangeKeeps(s: Network, id: nat, state: AccessState, now: int)
    requires TrailsOk(s)
    ensures TrailsOk(ChangeState(s, id, state, now).0)
  {
    var (t, r) := ChangeState(s, id, state, now);
    if t != s { BindingMoves(s, t, BindingEvent(id, s.bindings[id].state, state, Api)); }
  }

  lemma SetKeeps(s: Network, customer: nat, state: ServiceState, effectiveAt: int, expiresAt: Option<int>)
    requires TrailsOk(s)
    ensures TrailsOk(SetService(s, customer, state, effectiveAt, expiresAt).0)
  {
    var (t, r) := SetService(s, customer, state, effectiveAt, expiresAt);
    if r.Ok? {
      var found := FindService(s.services, customer);
      var previous := if found.Some? then Some(s.services[found.value].state) else None;
      if previous == Some(state) {
        assert t.serviceEvents == s.serviceEvents;
        SameServiceStates(s, t);
      } else {
        ServiceMoves(s, t, if found.Some? then found.value else |s.services|,
                     ServiceEvent(customer, previous, state, Api, effectiveAt));
      }
    }
  }

  lemma ExpireRowKeeps(s: Network, i: nat, now: int)
    requires BindingsOk(s) && i < |s.bindings|
    ensures BindingsOk(ExpireRow(s, i, now))
  {
    var t := ExpireRow(s, i, now);
    if t != s { BindingMoves(s, t, BindingEvent(i, Active, Expired, SystemExpiry)); }
  }

  lemma {:induction false} ExpireInduction(s: Network, n: nat, now: int, ok: Network -> bool)
    requires ok(s) && n <= |s.bindings|
    requires forall t: Network, i: nat :: i < |t.bindings| && ok(t) ==> ok(ExpireRow(t, i, now))
    ensures ok(ExpireUpTo(s, n, now))
  {
    if n > 0 { ExpireInduction(s, n - 1, now, ok); }
  }

  lemma ExpireKeeps(s: Network, n: nat, now: int)
    requires BindingsOk(s) && n <= |s.bindings|
    ensures BindingsOk(ExpireUpTo(s, n, now))
  {
    forall t: Network, i: nat | i < |t.bindings| && BindingsOk(t) ensures BindingsOk(ExpireRow(t, i, now)) {
      ExpireRowKeeps(t, i, now);
    }
    ExpireInduction(s, n, now, (t: Network) => BindingsOk(t));
  }

  lemma SuspendRowKeeps(s: Network, i: nat, now: int)
    requires ServicesOk(s) && i < |s.services|
    ensures ServicesOk(SuspendRow(s, i, now))
  {
    var t := SuspendRow(s, i, now);
    if t != s {
      var r := s.services[i];
      var e := ServiceEvent(r.customer, Some(SActive), SSuspended, SystemExpiry, now);
      assert t.services == s.services[i := t.services[i]];
      forall j | 0 <= j < |s.services| && j != i ensures s.services[j].customer != r.customer {}
      assert RowMoves(s, t, i, e);
      ServiceMoves(s, t, i, e);
    }
  }

  lemma {:induction false} SuspendInduction(s: Network, n: nat, now: int, ok: Network -> bool)
    requires ok(s) && n <= |s.services|
    requires forall t: Network, i: nat :: i < |t.services| && ok(t) ==> ok(SuspendRow(t, i, now))
    ensures ok(SuspendUpTo(s, n, now))
  {
    if n > 0 { SuspendInduction(s, n - 1, now, ok); }
  }

  lemma SuspendKeeps(s: Network, n: nat, now: int)
    requires ServicesOk(s) && n <= |s.services|
    ensures ServicesOk(SuspendUpTo(s, n, now))
  {
    forall t: Network, i: nat | i < |t.services| && ServicesOk(t) ensures ServicesOk(SuspendRow(t, i, now)) {
      SuspendRowKeeps(t, i, now);
    }
    SuspendInduction(s, n, now, (t: Network) => ServicesOk(t));
  }

  lemma SuspendKeepsBindings(s: Network, n: nat, now: int)
    requires BindingsOk(s) && n <= |s.services|
    ensures BindingsOk(SuspendUpTo(s, n, now))
  {
  }

  lemma ReconcileKeeps(s: Network, now: int)
    requires TrailsOk(s)
    ensures TrailsOk(Reconcile(s, now))
  {
    var expired := ExpireUpTo(s, |s.bindings|, now);
    var refreshed := RefreshUpTo(expired, |s.services|);
    ExpireKeeps(s, |s.bindings|, now);
    SameServiceStates(s, expired);
    RefreshRows(expired, |s.services|);
    SameServiceStates(expired, refreshed);
    SuspendKeeps(refreshed, |s.services|, now);
    SuspendKeepsBindings(refreshed, |s.services|, now);
  }

  datatype Op =
    | Bind(binding: BindingInput)
    | Change(id: nat, state: AccessState, at: int)
    | Serve(subscriber: nat, service: ServiceState, effectiveAt: int, until: Option<int>)
    | Expire(now: int)

  function Step(s: Network, op: Op): Network {
    match op
    case Bind(d) => CreateBinding(s, d).0
    case Change(i, state, at) => ChangeState(s, i, state, at).0
    case Serve(c, state, effectiveAt, until) => SetService(s, c, state, effectiveAt, until).0
    case Expire(now) => Reconcile(s, now)
  }

  ghost function Run(s: Network, ops: seq<Op>): Network {
    if ops == [] then s else Step(Run(s, ops[..|ops| - 1]), ops[|ops| - 1])
  }

  // In every run of the manual writers and the expiry job, consecutive events link previous to new state, the last
  // one equals the stored state, and a binding has a suspension time exactly when SUSPENDED.
  lemma {:induction false} TrailsReplay(s: Network, ops: seq<Op>)
    requires TrailsOk(s)
    ensures TrailsOk(Run(s, ops))
  {
    if ops != [] {
      var before := Run(s, ops[..|ops| - 1]);
      TrailsReplay(s, ops[..|ops| - 1]);
      match ops[|ops| - 1]
      case Bind(d) => CreateKeeps(before, d);
      case Change(i, state, at) => ChangeKeeps(before, i, state, at);
      case Serve(c, state, effectiveAt, until) => SetKeeps(before, c, state, effectiveAt, until);
      case Expire(now) => ReconcileKeeps(before, now);
    }
  }

  lemma EveryRunReplays(known: Known, ops: seq<Op>)
    ensures TrailsOk(Run(Network(known, [], [], [], []), ops))
  {
    TrailsReplay(Network(known, [], [], [], []), ops);
  }
}
