// Access bindings and customer service states of one tenant, with the trails of their changes: manual changes
// (createAccessBinding, changeAccessState, the service-state set) and the scheduled expiry reconciliation.
module Access {
  import opened Common

  datatype AccessState = Pending | Active | Suspended | Disabled | Expired
  datatype ServiceState = SPending | SActive | SGrace | SSuspended | SBlocked | SDisconnected | SFault

  datatype Source = Api | SystemExpiry

  datatype Binding = Binding(customer: nat, router: Option<nat>, package: Option<nat>, username: string,
                             state: AccessState, activatedAt: Option<int>, suspendedAt: Option<int>,
                             expiresAt: Option<int>)

  // The rows a binding or a service may reference.
  datatype Known = Known(customers: set<nat>, routers: set<nat>, packages: set<nat>)

  datatype BindingInput = BindingInput(customer: nat, router: Option<nat>, package: Option<nat>, username: string,
                                       expiresAt: Option<int>)

  predicate References(k: Known, d: BindingInput) {
    && d.customer in k.customers
    && (d.router.Some? ==> d.router.value in k.routers)
    && (d.package.Some? ==> d.package.value in k.packages)
  }

  datatype BindingEvent = BindingEvent(binding: nat, previous: AccessState, next: AccessState, source: Source)

  datatype Service = Service(customer: nat, state: ServiceState, source: Source,
                             effectiveAt: int, expiresAt: Option<int>)

  datatype ServiceEvent = ServiceEvent(customer: nat, previous: Option<ServiceState>, next: ServiceState,
                                       source: Source, effectiveAt: int)

  // One service row per customer.
  datatype Network = Network(known: Known, bindings: seq<Binding>, bindingEvents: seq<BindingEvent>,
                             services: seq<Service>, serviceEvents: seq<ServiceEvent>)

  function FindService(services: seq<Service>, customer: nat): (found: Option<nat>)
    ensures found.Some? ==> found.value < |services| && services[found.value].customer == customer
    ensures found.None? ==> forall i :: 0 <= i < |services| ==> services[i].customer != customer
  {
    FindBy(services, (s: Service) => s.customer == customer)
  }

  // ---- Manual changes ----

  function CreateBinding(s: Network, d: BindingInput): (Network, Result<nat>) {
    if exists i :: 0 <= i < |s.bindings| && s.bindings[i].username == d.username then (s, Err(Conflict))
    else if !References(s.known, d) then (s, Err(NotFound))
    else (s.(bindings := s.bindings + [Binding(d.customer, d.router, d.package, d.username, Pending, None, None,
                                               d.expiresAt)]),
          Ok(|s.bindings|))
  }

  function ChangeState(s: Network, id: nat, state: AccessState, now: int): (Network, Result<Binding>) {
    if id >= |s.bindings| then (s, Err(NotFound))
    else
      var b := s.bindings[id];
      if b.state == state then (s, Ok(b))
      else
        var b' := b.(state := state,
                     activatedAt := if state == Active && b.activatedAt.None? then Some(now) else b.activatedAt,
                     suspendedAt := if state == Suspended then Some(now) else None);
        (s.(bindings := s.bindings[id := b'],
            bindingEvents := s.bindingEvents + [BindingEvent(id, b.state, state, Api)]),
         Ok(b'))
  }

  function SetService(s: Network, customer: nat, state: ServiceState, effectiveAt: int, expiresAt: Option<int>)
    : (Network, Result<Service>)
  {
    if expiresAt.Some? && expiresAt.value <= effectiveAt then (s, Err(BadRequest))
    else if customer !in s.known.customers then (s, Err(NotFound))
    else
      var row := Service(customer, state, Api, effectiveAt, expiresAt);
      var found := FindService(s.services, customer);
      var previous := if found.Some? then Some(s.services[found.value].state) else None;
      (s.(services := if found.Some? then s.services[found.value := row] else s.services + [row],
          serviceEvents := s.serviceEvents + if previous == Some(state) then []
                                             else [ServiceEvent(customer, previous, state, Api, effectiveAt)]),
       Ok(row))
  }

  // ---- Expiry reconciliation ----

  predicate Lapsed(expiresAt: Option<int>, now: int) { expiresAt.Some? && expiresAt.value <= now }

  predicate HasActive(bindings: seq<Binding>, customer: nat) {
    exists i :: 0 <= i < |bindings| && bindings[i].customer == customer && bindings[i].state == Active
  }

  // MAX(expires_at) over the customer's active bindings; NULLs are ignored.
  function MaxExpiry(bindings: seq<Binding>, customer: nat): (most: Option<int>)
    ensures forall i :: 0 <= i < |bindings| && bindings[i].customer == customer && bindings[i].state == Active ==>
              bindings[i].expiresAt.Some? ==> most.Some? && bindings[i].expiresAt.value <= most.value
    ensures most.Some? ==> exists i :: 0 <= i < |bindings| && bindings[i].customer == customer
                                       && bindings[i].state == Active && bindings[i].expiresAt == most
  {
    if bindings == [] then None
    else
      var n := |bindings| - 1;
      var rest, b := MaxExpiry(bindings[..n], customer), bindings[n];
      if b.customer == customer && b.state == Active && b.expiresAt.Some?
         && (rest.None? || rest.value < b.expiresAt.value)
      then b.expiresAt else rest
  }

  // Phase 1, row by row: an active binding past its expiry expires.
  function ExpireRow(s: Network, i: nat, now: int): Network
    requires i < |s.bindings|
  {
    var b := s.bindings[i];
    if b.state == Active && Lapsed(b.expiresAt, now)
    then s.(bindings := s.bindings[i := b.(state := Expired)],
            bindingEvents := s.bindingEvents + [BindingEvent(i, Active, Expired, SystemExpiry)])
    else s
  }

  // Phase 2: an active service takes the latest expiry of its customer's active bindings.
  function RefreshRow(s: Network, i: nat): Network
    requires i < |s.services|
  {
    var r := s.services[i];
    if r.state == SActive && HasActive(s.bindings, r.customer)
    then s.(services := s.services[i := r.(expiresAt := MaxExpiry(s.bindings, r.customer))])
    else s
  }

  // Phase 3: an active service past its expiry with no active binding is suspended.
  function SuspendRow(s: Network, i: nat, now: int): Network
    requires i < |s.services|
  {
    var r := s.services[i];
    if r.state == SActive && Lapsed(r.expiresAt, now) && !HasActive(s.bindings, r.customer)
    then s.(services := s.services[i := r.(state := SSuspended, source := SystemExpiry, effectiveAt := now)],
            serviceEvents := s.serviceEvents + [ServiceEvent(r.customer, Some(SActive), SSuspended, SystemExpiry, now)])
    else s
  }

  function ExpireUpTo(s: Network, n: nat, now: int): (t: Network)
    requires n <= |s.bindings|
    ensures |t.bindings| == |s.bindings| && t.services == s.services
    ensures t.serviceEvents == s.serviceEvents && t.known == s.known
  {
    if n == 0 then s else ExpireRow(ExpireUpTo(s, n - 1, now), n - 1, now)
  }

  function RefreshUpTo(s: Network, n: nat): (t: Network)
    requires n <= |s.services|
    ensures |t.services| == |s.services| && t == s.(services := t.services)
  {
    if n == 0 then s else RefreshRow(RefreshUpTo(s, n - 1), n - 1)
  }

  function SuspendUpTo(s: Network, n: nat, now: int): (t: Network)
    requires n <= |s.services|
    ensures |t.services| == |s.services| && t == s.(services := t.services, serviceEvents := t.serviceEvents)
  {
    if n == 0 then s else SuspendRow(SuspendUpTo(s, n - 1, now), n - 1, now)
  }

  function Reconcile(s: Network, now: int): Network {
    var expired := ExpireUpTo(s, |s.bindings|, now);
    var refreshed := RefreshUpTo(expired, |s.services|);
    SuspendUpTo(refreshed, |s.services|, now)
  }

  // ---- The tables ----

  class AccessTables {
    const known: Known
    var bindings: seq<Binding>
    var bindingEvents: seq<BindingEvent>
    var services: seq<Service>
    var serviceEvents: seq<ServiceEvent>

    ghost function Contents(): Network
      reads this
    {
      Network(known, bindings, bindingEvents, services, serviceEvents)
    }

    constructor (known: Known)
      ensures Contents() == Network(known, [], [], [], [])
    {
      this.known := known;
      bindings, bindingEvents, services, serviceEvents := [], [], [], [];
    }

    method CreateAccessBinding(d: BindingInput) returns (r: Result<nat>)
      modifies this`bindings
      ensures Contents() == CreateBinding(old(Contents()), d).0 && r == CreateBinding(old(Contents()), d).1
    {
      for i := 0 to |bindings|
        invariant forall k :: 0 <= k < i ==> bindings[k].username != d.username
      {
        if bindings[i].username == d.username { return Err(Conflict); }
      }
      if d.customer !in known.customers { return Err(NotFound); }
      if d.router.Some? && d.router.value !in known.routers { return Err(NotFound); }
      if d.package.Some? && d.package.value !in known.packages { return Err(NotFound); }
      bindings := bindings + [Binding(d.customer, d.router, d.package, d.username, Pending, None, None, d.expiresAt)];
      r := Ok(|bindings| - 1);
    }

    method ChangeAccessState(id: nat, state: AccessState, now: int) returns (r: Result<Binding>)
      modifies this
      ensures Contents() == ChangeState(old(Contents()), id, state, now).0
      ensures r == ChangeState(old(Contents()), id, state, now).1
    {
      if id >= |bindings| { return Err(NotFound); }
      var row := bindings[id];
      if row.state == state { return Ok(row); }
      var activatedAt := row.activatedAt;
      if state == Active && row.activatedAt.None? { activatedAt := Some(now); }
      var suspendedAt := None;
      if state == Suspended { suspendedAt := Some(now); }
      bindings := bindings[id := row.(state := state, activatedAt := activatedAt, suspendedAt := suspendedAt)];
      bindingEvents := bindingEvents + [BindingEvent(id, row.state, state, Api)];
      r := Ok(bindings[id]);
    }

    method SetServiceState(customer: nat, state: ServiceState, effectiveAt: int, expiresAt: Option<int>)
      returns (r: Result<Service>)
      modifies this
      ensures Contents() == SetService(old(Contents()), customer, state, effectiveAt, expiresAt).0
      ensures r == SetService(old(Contents()), customer, state, effectiveAt, expiresAt).1
    {
      if expiresAt.Some? && expiresAt.value <= effectiveAt { return Err(BadRequest); }
      if customer !in known.customers { return Err(NotFound); }
      var row := Service(customer, state, Api, effectiveAt, expiresAt);
      var found := FindService(services, customer);
      var previous := None;
      if found.Some? {
        previous := Some(services[found.value].state);
        services := services[found.value := row];
      } else {
        services := services + [row];
      }
      if previous != Some(state) {
        serviceEvents := serviceEvents + [ServiceEvent(customer, previous, state, Api, effectiveAt)];
      }
      r := Ok(row);
    }

    method ReconcileExpiry(now: int) returns (expiredBindings: nat, suspendedCustomers: nat)
      modifies this
      ensures Contents() == Reconcile(old(Contents()), now)
      ensures expiredBindings == |bindingEvents| - |old(bindingEvents)|
      ensures suspendedCustomers == |serviceEvents| - |old(serviceEvents)|
    {
      expiredBindings, suspendedCustomers := 0, 0;
      ghost var start := Contents();
      for i := 0 to |bindings|
        invariant Contents() == ExpireUpTo(start, i, now)
        invariant expiredBindings == |bindingEvents| - |start.bindingEvents|
      {
        var b := bindings[i];
        if b.state == Active && Lapsed(b.expiresAt, now) {
          bindings := bindings[i := b.(state := Expired)];
          bindingEvents := bindingEvents + [BindingEvent(i, Active, Expired, SystemExpiry)];
          expiredBindings := expiredBindings + 1;
        }
      }
      ghost var expired := Contents();
      for i := 0 to |services|
        invariant Contents() == RefreshUpTo(expired, i)
      {
        var r := services[i];
        if r.state == SActive && HasActive(bindings, r.customer) {
          services := services[i := r.(expiresAt := MaxExpiry(bindings, r.customer))];
        }
      }
      ghost var refreshed := Contents();
      for i := 0 to |services|
        invariant Contents() == SuspendUpTo(refreshed, i, now)
        invariant suspendedCustomers == |serviceEvents| - |refreshed.serviceEvents|
      {
        var r := services[i];
        if r.state == SActive && Lapsed(r.expiresAt, now) && !HasActive(bindings, r.customer) {
          services := services[i := r.(state := SSuspended, source := SystemExpiry, effectiveAt := now)];
          serviceEvents := serviceEvents + [ServiceEvent(r.customer, Some(SActive), SSuspended, SystemExpiry, now)];
          suspendedCustomers := suspendedCustomers + 1;
        }
      }
    }
  }
}
