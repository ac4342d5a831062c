// The address manager of one tenant: pools over CIDR blocks, the address inventory, allocation and release
// (ipam.service.ts). A generated row id is the row's position.
module Ipam {
  import opened Common
  import opened Cidr

  datatype Status = Available | Reserved | Allocated | Quarantined
  datatype Assignment = Dynamic | Static | Held

  datatype Owner = Owner(customer: Option<nat>, router: Option<nat>, session: Option<nat>, mac: Option<string>,
                         lease: Option<int>)
  const NOBODY := Owner(None, None, None, None, None)

  datatype Pool = Pool(name: string, network: Network, gateway: Option<Address>, enabled: bool)
  datatype IpRow = IpRow(pool: nat, address: Address, status: Status, assignment: Assignment, owner: Owner)
  datatype Plan = Plan(pools: seq<Pool>, rows: seq<IpRow>)

  datatype AddInput = AddInput(address: Address, reserved: bool, assignment: Option<Assignment>)
  datatype AllocateInput = AllocateInput(address: Option<Address>, customer: Option<nat>, router: Option<nat>,
                                         session: Option<nat>, mac: Option<string>, leaseSeconds: nat)

  // ---- Specification ----

  // The checks of a new pool. Nothing is locked between them and the INSERT.
  function PoolObjection(p: Plan, pool: Pool): Option<Failure> {
    if !ValidNetwork(pool.network) then Some(BadRequest)
    else if OverlapsSome(p, pool.network) then Some(Conflict)
    else if pool.gateway.Some? && !Contains(pool.network, pool.gateway.value) then Some(BadRequest)
    else None
  }

  predicate OverlapsSome(p: Plan, n: Network)
    requires n.prefix <= Width(n.family)
  {
    exists i :: 0 <= i < |p.pools| && PoolOverlaps(p.pools[i], n)
  }

  predicate NameTaken(p: Plan, name: string) { exists i :: 0 <= i < |p.pools| && p.pools[i].name == name }

  // The INSERT; names are unique.
  function EnterPool(p: Plan, pool: Pool): (Plan, Result<nat>) {
    if NameTaken(p, pool.name) then (p, Err(Conflict)) else (p.(pools := p.pools + [pool]), Ok(|p.pools|))
  }

  // Both without a break.
  function CreatePool(p: Plan, pool: Pool): (Plan, Result<nat>) {
    match PoolObjection(p, pool)
    case Some(e) => (p, Err(e))
    case None => EnterPool(p, pool)
  }

  predicate PoolOverlaps(q: Pool, n: Network)
    requires n.prefix <= Width(n.family)
  {
    q.network.prefix <= Width(q.network.family) && Overlaps(q.network, n)
  }

  function AddAddress(p: Plan, poolId: nat, d: AddInput): (Plan, Result<nat>) {
    if poolId >= |p.pools| || !p.pools[poolId].enabled then (p, Err(NotFound))
    else
      var pool := p.pools[poolId];
      if pool.network.prefix > Width(pool.network.family) || !Contains(pool.network, d.address)
      then (p, Err(BadRequest))
      else if pool.gateway == Some(d.address) then (p, Err(Conflict))
      else if exists k :: 0 <= k < |p.rows| && p.rows[k].address == d.address then (p, Err(Conflict))
      else
        var assignment := if d.assignment.Some? then d.assignment.value else if d.reserved then Held else Dynamic;
        (p.(rows := p.rows + [IpRow(poolId, d.address,
                                    if d.reserved then Reserved else Available, assignment, NOBODY)]),
         Ok(|p.rows|))
  }

  predicate Free(r: IpRow, poolId: nat) { r.pool == poolId && r.status == Available }

  // ORDER BY address: by family, then by number.
  predicate Before(a: Address, b: Address) {
    (a.family == V4 && b.family == V6) || (a.family == b.family && a.bits < b.bits)
  }

  function LeastFree(rows: seq<IpRow>, poolId: nat): (found: Option<nat>)
    ensures found.None? <==> forall k :: 0 <= k < |rows| ==> !Free(rows[k], poolId)
    ensures found.Some? ==> found.value < |rows| && Free(rows[found.value], poolId)
    ensures found.Some? ==> forall k :: 0 <= k < |rows| && Free(rows[k], poolId) ==>
                                          !Before(rows[k].address, rows[found.value].address)
  {
    if rows == [] then None
    else
      var last := |rows| - 1;
      var least := LeastFree(rows[..last], poolId);
      if Free(rows[last], poolId) && (least.None? || Before(rows[last].address, rows[least.value].address))
      then Some(last) else least
  }

  function RowOf(rows: seq<IpRow>, poolId: nat, a: Address): (found: Option<nat>)
    ensures found.Some? ==> found.value < |rows| && rows[found.value].pool == poolId && rows[found.value].address == a
    ensures found.None? ==> forall k :: 0 <= k < |rows| ==> rows[k].pool != poolId || rows[k].address != a
  {
    FindBy(rows, (r: IpRow) => r.pool == poolId && r.address == a)
  }

  function NewOwner(d: AllocateInput, now: int): Owner {
    Owner(d.customer, d.router, d.session, d.mac, if d.leaseSeconds > 0 then Some(now + d.leaseSeconds) else None)
  }

  function Taken(p: Plan, id: nat, owner: Owner): Plan
    requires id < |p.rows|
  {
    p.(rows := p.rows[id := p.rows[id].(status := Allocated, assignment := Static, owner := owner)])
  }

  function Allocate(p: Plan, poolId: nat, d: AllocateInput, now: int): (Plan, Result<nat>) {
    if poolId >= |p.pools| || !p.pools[poolId].enabled then (p, Err(NotFound))
    else if d.address.Some? then
      match RowOf(p.rows, poolId, d.address.value)
      case None => (p, Err(NotFound))
      case Some(id) =>
        if p.rows[id].status != Available then (p, Err(Conflict)) else (Taken(p, id, NewOwner(d, now)), Ok(id))
    else
      match LeastFree(p.rows, poolId)
      case None => (p, Err(Conflict))
      case Some(id) => (Taken(p, id, NewOwner(d, now)), Ok(id))
  }

  function Release(p: Plan, id: nat): (Plan, Result<nat>) {
    if id >= |p.rows| || p.rows[id].status != Allocated then (p, Err(NotFound))
    else
      (p.(rows := p.rows[id := p.rows[id].(status := Available, assignment := Dynamic, owner := NOBODY)]), Ok(id))
  }

  // ---- The tables ----

  class IpamTables {
    var pools: seq<Pool>
    var rows: seq<IpRow>

    ghost function Contents(): Plan
      reads this
    {
      Plan(pools, rows)
    }

    constructor ()
      ensures Contents() == Plan([], [])
    {
      pools, rows := [], [];
    }

    method AddPool(pool: Pool) returns (r: Result<nat>)
      modifies this`pools
      ensures Contents() == CreatePool(old(Contents()), pool).0 && r == CreatePool(old(Contents()), pool).1
    {
      if !ValidNetwork(pool.network) { return Err(BadRequest); }
      for i := 0 to |pools|
        invariant forall k :: 0 <= k < i ==> !PoolOverlaps(pools[k], pool.network)
      {
        if PoolOverlaps(pools[i], pool.network) { return Err(Conflict); }
      }
      if pool.gateway.Some? && !Contains(pool.network, pool.gateway.value) { return Err(BadRequest); }
      for i := 0 to |pools|
        invariant forall k :: 0 <= k < i ==> pools[k].name != pool.name
      {
        if pools[i].name == pool.name { return Err(Conflict); }
      }
      pools := pools + [pool];
      r := Ok(|pools| - 1);
    }

    method AddInventory(poolId: nat, d: AddInput) returns (r: Result<nat>)
      modifies this`rows
      ensures Contents() == AddAddress(old(Contents()), poolId, d).0
      ensures r == AddAddress(old(Contents()), poolId, d).1
    {
      if poolId >= |pools| || !pools[poolId].enabled { return Err(NotFound); }
      var pool := pools[poolId];
      if pool.network.prefix > Width(pool.network.family) || !Contains(pool.network, d.address) {
        return Err(BadRequest);
      }
      if pool.gateway == Some(d.address) { return Err(Conflict); }
      for k := 0 to |rows|
        invariant forall j :: 0 <= j < k ==> rows[j].address != d.address
      {
        if rows[k].address == d.address { return Err(Conflict); }
      }
      var assignment := Dynamic;
      if d.assignment.Some? { assignment := d.assignment.value; } else if d.reserved { assignment := Held; }
      rows := rows + [IpRow(poolId, d.address, if d.reserved then Reserved else Available, assignment, NOBODY)];
      r := Ok(|rows| - 1);
    }

    method AllocateAddress(poolId: nat, d: AllocateInput, now: int) returns (r: Result<nat>)
      modifies this`rows
      ensures Contents() == Allocate(old(Contents()), poolId, d, now).0
      ensures r == Allocate(old(Contents()), poolId, d, now).1
    {
      if poolId >= |pools| || !pools[poolId].enabled { return Err(NotFound); }
      var id: nat;
      if d.address.Some? {
        var found := RowOf(rows, poolId, d.address.value);
        if found.None? { return Err(NotFound); }
        if rows[found.value].status != Available { return Err(Conflict); }
        id := found.value;
      } else {
        var found := LeastFree(rows, poolId);
        if found.None? { return Err(Conflict); }
        id := found.value;
      }
      var lease := None;
      if d.leaseSeconds != 0 { lease := Some(now + d.leaseSeconds); }
      rows := rows[id := rows[id].(status := Allocated, assignment := Static,
                                   owner := Owner(d.customer, d.router, d.session, d.mac, lease))];
      r := Ok(id);
    }

    method ReleaseAddress(id: nat) returns (r: Result<nat>)
      modifies this`rows
      ensures Contents() == Release(old(Contents()), id).0 && r == Release(old(Contents()), id).1
    {
      if id >= |rows| || rows[id].status != Allocated { return Err(NotFound); }
      rows := rows[id := rows[id].(status := Available, assignment := Dynamic, owner := NOBODY)];
      r := Ok(id);
    }
  }

  // ---- Runs ----

  // The tables, and the pools whose checks have passed.
  datatype Desk = Desk(plan: Plan, checked: seq<Pool>)

  datatype Op =
    | CheckPool(pool: Pool)
    | InsertPool(check: nat)
    | NewAddress(into: nat, input: AddInput)
    | Take(from: nat, request: AllocateInput, now: int)
    | Give(id: nat)

  function Step(d: Desk, op: Op): Desk {
    match op
    case CheckPool(pool) => if PoolObjection(d.plan, pool).None? then d.(checked := d.checked + [pool]) else d
    case InsertPool(k) => if k < |d.checked| then d.(plan := EnterPool(d.plan, d.checked[k]).0) else d
    case NewAddress(i, input) => d.(plan := AddAddress(d.plan, i, input).0)
    case Take(i, request, now) => d.(plan := Allocate(d.plan, i, request, now).0)
    case Give(id) => d.(plan := Release(d.plan, id).0)
  }

  ghost function Run(d: Desk, ops: seq<Op>): Desk {
    if ops == [] then d else Step(Run(d, ops[..|ops| - 1]), ops[|ops| - 1])
  }

  const EMPTY := Desk(Plan([], []), [])

  ghost predicate Disjoint(m: Network, n: Network)
    requires m.prefix <= Width(m.family) && n.prefix <= Width(n.family)
  {
    forall a :: ValidAddress(a) ==> !(Contains(m, a) && Contains(n, a))
  }

  predicate PoolOk(pool: Pool) {
    ValidNetwork(pool.network) && (pool.gateway.Some? ==> Contains(pool.network, pool.gateway.value))
  }

  ghost predicate PoolsOk(p: Plan) { forall i :: 0 <= i < |p.pools| ==> PoolOk(p.pools[i]) }

  ghost predicate DisjointPools(p: Plan)
    requires PoolsOk(p)
  {
    forall i, j :: 0 <= i < j < |p.pools| ==> Disjoint(p.pools[i].network, p.pools[j].network)
  }

  // An address lies in its pool, is not the gateway, and names an owner only while allocated.
  ghost predicate RowOk(p: Plan, r: IpRow)
    requires PoolsOk(p)
  {
    && r.pool < |p.pools|
    && Contains(p.pools[r.pool].network, r.address)
    && p.pools[r.pool].gateway != Some(r.address)
    && (r.status != Allocated ==> r.owner == NOBODY)
  }

  ghost predicate PlanOk(p: Plan) {
    && PoolsOk(p)
    && (forall k :: 0 <= k < |p.rows| ==> RowOk(p, p.rows[k]))
    && (forall j, k :: 0 <= j < k < |p.rows| ==> p.rows[j].address != p.rows[k].address)
  }

  ghost predicate DeskOk(d: Desk) {
    PlanOk(d.plan) && forall k :: 0 <= k < |d.checked| ==> PoolOk(d.checked[k])
  }

  lemma NewPoolKeeps(p: Plan, pool: Pool)
    requires PlanOk(p) && PoolOk(pool)
    ensures PlanOk(EnterPool(p, pool).0)
  {
    var q := EnterPool(p, pool).0;
    assert PoolsOk(q);
    forall k | 0 <= k < |q.rows| ensures RowOk(q, q.rows[k]) { assert RowOk(p, p.rows[k]); }
  }

  lemma SamePoolsKeep(p: Plan, q: Plan)
    requires PlanOk(p) && q.pools == p.pools
    requires forall k :: 0 <= k < |q.rows| ==> RowOk(p, q.rows[k])
    requires forall j, k :: 0 <= j < k < |q.rows| ==> q.rows[j].address != q.rows[k].address
    ensures PlanOk(q)
  {
    forall k | 0 <= k < |q.rows| ensures RowOk(q, q.rows[k]) { assert RowOk(p, q.rows[k]); }
  }

  lemma AddressKeeps(p: Plan, poolId: nat, d: AddInput)
    requires PlanOk(p)
    ensures PlanOk(AddAddress(p, poolId, d).0)
  {
    SamePoolsKeep(p, AddAddress(p, poolId, d).0);
  }

  lemma TakenKeeps(p: Plan, id: nat, owner: Owner)
    requires PlanOk(p) && id < |p.rows|
    ensures PlanOk(Taken(p, id, owner))
  {
    assert RowOk(p, p.rows[id]);
    SamePoolsKeep(p, Taken(p, id, owner));
  }

  lemma ReleaseKeeps(p: Plan, id: nat)
    requires PlanOk(p)
    ensures PlanOk(Release(p, id).0)
  {
    if id < |p.rows| { assert RowOk(p, p.rows[id]); }
    SamePoolsKeep(p, Release(p, id).0);
  }

  lemma StepKeeps(d: Desk, op: Op)
    requires DeskOk(d)
    ensures DeskOk(Step(d, op))
  {
    match op
    case CheckPool(pool) =>
    case InsertPool(k) => if k < |d.checked| { NewPoolKeeps(d.plan, d.checked[k]); }
    case NewAddress(i, input) => AddressKeeps(d.plan, i, input);
    case Take(i, request, now) =>
      var r := Allocate(d.plan, i, request, now).1;
      if r.Ok? { TakenKeeps(d.plan, r.value, NewOwner(request, now)); }
    case Give(id) => ReleaseKeeps(d.plan, id);
  }

  // Every run keeps every address in its pool and off the gateway, addresses unique, and owner fields empty unless
  // allocated.
  lemma {:induction false} RunKeeps(d: Desk, ops: seq<Op>)
    requires DeskOk(d)
    ensures DeskOk(Run(d, ops))
  {
    if ops != [] {
      RunKeeps(d, ops[..|ops| - 1]);
      StepKeeps(Run(d, ops[..|ops| - 1]), ops[|ops| - 1]);
    }
  }

  lemma EveryRunIsOk(ops: seq<Op>)
    ensures DeskOk(Run(EMPTY, ops))
  {
    RunKeeps(EMPTY, ops);
  }

  // ---- When pools overlap ----

  // The operation adds a pool.
  predicate Adds(d: Desk, op: Op) {
    op.InsertPool? && op.check < |d.checked| && !NameTaken(d.plan, d.checked[op.check].name)
  }

  // A pool whose check would not pass any more.
  predicate Stale(d: Desk, op: Op) {
    Adds(d, op) && ValidNetwork(d.checked[op.check].network) && OverlapsSome(d.plan, d.checked[op.check].network)
  }

  ghost predicate FreshRun(d: Desk, ops: seq<Op>) {
    ops == [] || (FreshRun(d, ops[..|ops| - 1]) && !Stale(Run(d, ops[..|ops| - 1]), ops[|ops| - 1]))
  }

  lemma PoolFitsIff(p: Plan, pool: Pool)
    requires PoolsOk(p) && PoolOk(pool)
    ensures OverlapsSome(p, pool.network) <==>
            exists i :: 0 <= i < |p.pools| && !Disjoint(p.pools[i].network, pool.network)
  {
    forall i | 0 <= i < |p.pools|
      ensures PoolOverlaps(p.pools[i], pool.network) <==> !Disjoint(p.pools[i].network, pool.network)
    {
      OverlapsIffShared(p.pools[i].network, pool.network);
    }
    if OverlapsSome(p, pool.network) {
      var i :| 0 <= i < |p.pools| && PoolOverlaps(p.pools[i], pool.network);
      assert !Disjoint(p.pools[i].network, pool.network);
    }
  }

  lemma StepDisjointIff(d: Desk, op: Op)
    requires DeskOk(d) && DeskOk(Step(d, op))
    ensures DisjointPools(Step(d, op).plan) <==> DisjointPools(d.plan) && !Stale(d, op)
  {
    var p, q := d.plan, Step(d, op).plan;
    if Adds(d, op) {
      var pool := d.checked[op.check];
      assert q.pools == p.pools + [pool];
      PoolFitsIff(p, pool);
      if DisjointPools(q) {
        forall i, j | 0 <= i < j < |p.pools| ensures Disjoint(p.pools[i].network, p.pools[j].network) {
          assert Disjoint(q.pools[i].network, q.pools[j].network);
        }
        forall i | 0 <= i < |p.pools| ensures Disjoint(p.pools[i].network, pool.network) {
          assert Disjoint(q.pools[i].network, q.pools[|p.pools|].network);
        }
      }
    } else {
      assert q.pools == p.pools;
    }
  }

  // The pools share no address after a run exactly when every pool was added while its check would still have passed.
  lemma {:induction false} DisjointIff(d: Desk, ops: seq<Op>)
    requires DeskOk(d) && DisjointPools(d.plan)
    ensures DeskOk(Run(d, ops)) && (DisjointPools(Run(d, ops).plan) <==> FreshRun(d, ops))
  {
    if ops != [] {
      DisjointIff(d, ops[..|ops| - 1]);
      StepKeeps(Run(d, ops[..|ops| - 1]), ops[|ops| - 1]);
      StepDisjointIff(Run(d, ops[..|ops| - 1]), ops[|ops| - 1]);
    }
  }

  // The operation runs the INSERT of the pool that the one before it checked.
  ghost predicate Follows(d: Desk, ops: seq<Op>, op: Op) {
    && op.InsertPool? && ops != [] && ops[|ops| - 1].CheckPool?
    && var before := Run(d, ops[..|ops| - 1]);
       op.check == |before.checked| && PoolObjection(before.plan, ops[|ops| - 1].pool).None?
  }

  ghost predicate OneAtATime(d: Desk, ops: seq<Op>) {
    ops == [] ||
    (OneAtATime(d, ops[..|ops| - 1])
     && (ops[|ops| - 1].InsertPool? ==> Follows(d, ops[..|ops| - 1], ops[|ops| - 1])))
  }

  lemma {:induction false} OneAtATimeIsFresh(d: Desk, ops: seq<Op>)
    requires OneAtATime(d, ops)
    ensures FreshRun(d, ops)
  {
    if ops != [] { OneAtATimeIsFresh(d, ops[..|ops| - 1]); }
  }

  // So requests that do not overlap keep the pools apart.
  lemma PoolsStayDisjoint(ops: seq<Op>)
    requires OneAtATime(EMPTY, ops)
    ensures DeskOk(Run(EMPTY, ops)) && DisjointPools(Run(EMPTY, ops).plan)
  {
    OneAtATimeIsFresh(EMPTY, ops);
    DisjointIff(EMPTY, ops);
  }

  function Whole(name: string): Pool { Pool(name, Network(V4, 0, 0), None, true) }

  lemma RunMore(d: Desk, ops: seq<Op>, op: Op)
    ensures Run(d, ops + [op]) == Step(Run(d, ops), op)
  {
    assert (ops + [op])[..|ops|] == ops;
  }

  const CHECKS := [CheckPool(Whole("a"))] + [CheckPool(Whole("b"))]
  const CROSSED := CHECKS + [InsertPool(0)] + [InsertPool(1)]

  lemma WholeChecks(d: Desk, name: string)
    requires d.plan.pools == []
    ensures Step(d, CheckPool(Whole(name))) == d.(checked := d.checked + [Whole(name)])
  {
    assert ValidNetwork(Whole(name).network);
  }

  lemma WholesShare(a: string, b: string)
    ensures !Disjoint(Whole(a).network, Whole(b).network)
  {
    var zero := Address(V4, 0);
    assert ValidAddress(zero) && Contains(Whole(a).network, zero);
  }

  // Two requests for one block at once: both checks pass, and then both pools are there.
  lemma CrossedRequestsOverlap()
    ensures var p := Run(EMPTY, CROSSED).plan;
      p.pools == [Whole("a"), Whole("b")] && PoolsOk(p) && !DisjointPools(p)
  {
    var none: seq<Op> := [];
    RunMore(EMPTY, none, CheckPool(Whole("a")));
    assert none + [CheckPool(Whole("a"))] == [CheckPool(Whole("a"))];
    WholeChecks(EMPTY, "a");
    RunMore(EMPTY, [CheckPool(Whole("a"))], CheckPool(Whole("b")));
    WholeChecks(EMPTY.(checked := [Whole("a")]), "b");
    RunMore(EMPTY, CHECKS, InsertPool(0));
    RunMore(EMPTY, CHECKS + [InsertPool(0)], InsertPool(1));
    assert "a"[0] != "b"[0];
    EveryRunIsOk(CROSSED);
    WholesShare("a", "b");
    var p := Run(EMPTY, CROSSED).plan;
    assert p.pools[0] == Whole("a") && p.pools[1] == Whole("b");
  }

  // ---- Allocation and release ----

  // Neither operation adds, drops or moves an address.
  ghost predicate SameInventory(p: Plan, q: Plan) {
    && p.pools == q.pools && |p.rows| == |q.rows|
    && forall k :: 0 <= k < |p.rows| ==> (p.rows[k].pool, p.rows[k].address) == (q.rows[k].pool, q.rows[k].address)
  }

  lemma {:induction false} InventoryIsConstant(d: Desk, ops: seq<Op>)
    requires forall k :: 0 <= k < |ops| ==> ops[k].Take? || ops[k].Give?
    ensures SameInventory(d.plan, Run(d, ops).plan)
  {
    if ops != [] { InventoryIsConstant(d, ops[..|ops| - 1]); }
  }

  // An allocation that names no address takes the one available address of the pool below all others.
  lemma TakesTheLeast(p: Plan, poolId: nat, d: AllocateInput, now: int, k: nat)
    requires PlanOk(p) && d.address.None? && Allocate(p, poolId, d, now).1.Ok?
    requires k < |p.rows| && Free(p.rows[k], poolId)
    ensures var id := Allocate(p, poolId, d, now).1.value;
      Free(p.rows[id], poolId) && (k == id || Before(p.rows[id].address, p.rows[k].address))
  {
    var id := LeastFree(p.rows, poolId).value;
    assert RowOk(p, p.rows[k]) && RowOk(p, p.rows[id]);
    if k != id { assert p.rows[k].address != p.rows[id].address; }
  }

  // Releasing what was allocated makes exactly the same addresses available again.
  lemma ReleaseUndoesAllocate(p: Plan, poolId: nat, d: AllocateInput, now: int, k: nat, other: nat)
    requires PlanOk(p) && Allocate(p, poolId, d, now).1.Ok? && k < |p.rows|
    ensures var (q, r) := Allocate(p, poolId, d, now); var (back, s) := Release(q, r.value);
      && s == Ok(r.value) && q.rows[r.value].owner == NewOwner(d, now)
      && !Free(q.rows[r.value], other)
      && (Free(back.rows[k], other) <==> Free(p.rows[k], other))
      && back.rows[k] == p.rows[k].(assignment := back.rows[k].assignment)
  {
    var id := Allocate(p, poolId, d, now).1.value;
    assert RowOk(p, p.rows[id]);
  }
}
