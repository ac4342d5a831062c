// Reseller relationships between tenants: requests, approvals, and the recursive query that refuses cycles
// (tenant-hierarchy.service.ts).
module TenantForest {
  import opened Common

  type Tenant = nat

  datatype Status = Pending | Active | Ended  // Ended stands for any status the query does not follow
  datatype Relation = Relation(parent: Tenant, status: Status)
  // One row per tenant: a second request fails on the unique tenant_id.
  datatype Hierarchy = Hierarchy(tenants: set<Tenant>, relations: map<Tenant, Relation>)

  type Edges = set<(Tenant, Tenant)>  // (child, parent)

  function LiveEdges(h: Hierarchy): Edges {
    set t | t in h.relations && h.relations[t].status != Ended :: (t, h.relations[t].parent)
  }

  // ---- The recursive query ----

  function ParentsOf(edges: Edges, working: set<Tenant>): set<Tenant> {
    set e | e in edges && e.0 in working :: e.1
  }

  // WITH RECURSIVE … UNION: the rows found in one round are the working table of the next, and a row
  // seen before is dropped.
  function Rounds(edges: Edges, working: set<Tenant>, seen: set<Tenant>): (chain: set<Tenant>)
    ensures seen <= chain
    decreases (set e | e in edges :: e.1) - seen
  {
    var next := ParentsOf(edges, working) - seen;
    if next == {} then seen
    else
      assert (set e | e in edges :: e.1) - (seen + next) < (set e | e in edges :: e.1) - seen by {
        var t :| t in next;
        assert t in (set e | e in edges :: e.1) - seen;
      }
      Rounds(edges, next, seen + next)
  }

  function Chain(edges: Edges, start: Tenant): set<Tenant> { Rounds(edges, {start}, {start}) }

  // ---- Ancestors ----

  ghost predicate IsPath(edges: Edges, p: seq<Tenant>) {
    && |p| > 0
    && forall i :: 0 <= i < |p| - 1 ==> (p[i], p[i + 1]) in edges
  }

  ghost predicate Joins(edges: Edges, p: seq<Tenant>, a: Tenant, b: Tenant) {
    IsPath(edges, p) && p[0] == a && p[|p| - 1] == b
  }

  // b is a or one of its ancestors.
  ghost predicate Reaches(edges: Edges, a: Tenant, b: Tenant) { exists p :: Joins(edges, p, a, b) }

  // No tenant is its own ancestor.
  ghost predicate Acyclic(edges: Edges) {
    forall e :: e in edges ==> !Reaches(edges, e.1, e.0)
  }

  lemma ReachesSelf(edges: Edges, a: Tenant)
    ensures Reaches(edges, a, a)
  {
    assert Joins(edges, [a], a, a);
  }

  lemma ReachesFurther(edges: Edges, a: Tenant, b: Tenant, c: Tenant)
    requires Reaches(edges, a, b) && (b, c) in edges
    ensures Reaches(edges, a, c)
  {
    var p :| Joins(edges, p, a, b);
    assert Joins(edges, p + [c], a, c);
  }

  lemma ReachesTransitive(edges: Edges, a: Tenant, b: Tenant, c: Tenant)
    requires Reaches(edges, a, b) && Reaches(edges, b, c)
    ensures Reaches(edges, a, c)
  {
    var p :| Joins(edges, p, a, b);
    var q :| Joins(edges, q, b, c);
    var r := p + q[1..];
    forall i | 0 <= i < |r| - 1 ensures (r[i], r[i + 1]) in edges {
      if i < |p| - 1 { assert (p[i], p[i + 1]) in edges; }
      else { assert (q[i - |p| + 1], q[i - |p| + 2]) in edges; }
    }
    assert Joins(edges, r, a, c);
  }

  // ---- The query computes exactly the ancestors ----

  lemma {:induction false} RoundsReach(edges: Edges, start: Tenant, working: set<Tenant>, seen: set<Tenant>, b: Tenant)
    requires working <= seen && forall t :: t in seen ==> Reaches(edges, start, t)
    requires b in Rounds(edges, working, seen)
    ensures Reaches(edges, start, b)
    decreases (set e | e in edges :: e.1) - seen
  {
    var next := ParentsOf(edges, working) - seen;
    if next != {} {
      forall t | t in next ensures Reaches(edges, start, t) {
        var e :| e in edges && e.0 in working && e.1 == t;
        ReachesFurther(edges, start, e.0, t);
      }
      assert (set e | e in edges :: e.1) - (seen + next) < (set e | e in edges :: e.1) - seen by {
        var t :| t in next;
        assert t in (set e | e in edges :: e.1) - seen;
      }
      RoundsReach(edges, start, next, seen + next, b);
    }
  }

  // The result is closed under parents once everything seen before the working table has been followed.
  lemma {:induction false} RoundsClosed(edges: Edges, working: set<Tenant>, seen: set<Tenant>)
    requires working <= seen && forall e :: e in edges && e.0 in seen - working ==> e.1 in seen
    ensures forall e :: e in edges && e.0 in Rounds(edges, working, seen) ==> e.1 in Rounds(edges, working, seen)
    decreases (set e | e in edges :: e.1) - seen
  {
    var next := ParentsOf(edges, working) - seen;
    forall e | e in edges && e.0 in seen ensures e.1 in seen + next {
      if e.0 in working { assert e.1 in ParentsOf(edges, working); }
    }
    if next != {} {
      assert (set e | e in edges :: e.1) - (seen + next) < (set e | e in edges :: e.1) - seen by {
        var t :| t in next;
        assert t in (set e | e in edges :: e.1) - seen;
      }
      RoundsClosed(edges, next, seen + next);
    }
  }

  lemma {:induction false} ClosedHoldsPaths(edges: Edges, closed: set<Tenant>, p: seq<Tenant>)
    requires IsPath(edges, p) && p[0] in closed
    requires forall e :: e in edges && e.0 in closed ==> e.1 in closed
    ensures p[|p| - 1] in closed
  {
    if |p| > 1 {
      assert (p[0], p[1]) in edges;
      forall i | 0 <= i < |p[1..]| - 1 ensures (p[1..][i], p[1..][i + 1]) in edges {
        assert (p[i + 1], p[i + 2]) in edges;
      }
      ClosedHoldsPaths(edges, closed, p[1..]);
    }
  }

  // On any table, cyclic or not, the query ends and returns the start and all its ancestors.
  lemma ChainIsAncestors(edges: Edges, start: Tenant, b: Tenant)
    ensures b in Chain(edges, start) <==> Reaches(edges, start, b)
  {
    ReachesSelf(edges, start);
    if b in Chain(edges, start) { RoundsReach(edges, start, {start}, {start}, b); }
    RoundsClosed(edges, {start}, {start});
    if Reaches(edges, start, b) {
      var p :| Joins(edges, p, start, b);
      ClosedHoldsPaths(edges, Chain(edges, start), p);
    }
  }

  // ---- Adding an edge ----

  lemma {:induction false} PathsWithEdge(edges: Edges, child: Tenant, parent: Tenant, p: seq<Tenant>)
    requires IsPath(edges + {(child, parent)}, p)
    ensures var a, b := p[0], p[|p| - 1];
      Reaches(edges, a, b) || (Reaches(edges, a, child) && Reaches(edges, parent, b))
  {
    var more := edges + {(child, parent)};
    var n := |p| - 1;
    ReachesSelf(edges, p[0]);
    ReachesSelf(edges, parent);
    if n > 0 {
      var q := p[..n];
      forall i | 0 <= i < |q| - 1 ensures (q[i], q[i + 1]) in more { assert (p[i], p[i + 1]) in more; }
      PathsWithEdge(edges, child, parent, q);
      assert (p[n - 1], p[n]) in more;
      if (p[n - 1], p[n]) in edges {
        if Reaches(edges, p[0], p[n - 1]) { ReachesFurther(edges, p[0], p[n - 1], p[n]); }
        else { ReachesFurther(edges, parent, p[n - 1], p[n]); }
      }
    }
  }

  lemma ReachesMore(edges: Edges, more: Edges, a: Tenant, b: Tenant)
    requires edges <= more && Reaches(edges, a, b)
    ensures Reaches(more, a, b)
  {
    var p :| Joins(edges, p, a, b);
    assert Joins(more, p, a, b);
  }

  // The request is refused as a cycle exactly when its edge would close one.
  lemma CycleRefusedIff(edges: Edges, child: Tenant, parent: Tenant)
    requires Acyclic(edges)
    ensures child in Chain(edges, parent) <==> !Acyclic(edges + {(child, parent)})
  {
    ChainIsAncestors(edges, parent, child);
    var more := edges + {(child, parent)};
    if Reaches(edges, parent, child) {
      ReachesMore(edges, more, parent, child);
      assert (child, parent) in more;
    } else {
      forall e | e in more ensures !Reaches(more, e.1, e.0) {
        if Reaches(more, e.1, e.0) {
          var p :| Joins(more, p, e.1, e.0);
          PathsWithEdge(edges, child, parent, p);
          if e in edges {
            assert !Reaches(edges, e.1, e.0);
            ReachesFurther(edges, parent, e.0, e.1);
            ReachesTransitive(edges, parent, e.1, child);
          }
        }
      }
    }
  }

  // ---- Requests and approvals ----

  // The checks of a request. Nothing is locked between them and the INSERT.
  function Objection(h: Hierarchy, child: Tenant, parent: Tenant): Option<Failure> {
    if child == parent then Some(BadRequest)
    else if parent !in h.tenants then Some(NotFound)
    else if child in Chain(LiveEdges(h), parent) then Some(Conflict)
    else None
  }

  // The INSERT.
  function Enter(h: Hierarchy, child: Tenant, parent: Tenant): (Hierarchy, Result<Relation>) {
    if child in h.relations then (h, Err(Conflict))
    else (h.(relations := h.relations[child := Relation(parent, Pending)]), Ok(Relation(parent, Pending)))
  }

  // Both without a break.
  function Request(h: Hierarchy, child: Tenant, parent: Tenant): (Hierarchy, Result<Relation>) {
    match Objection(h, child, parent)
    case Some(e) => (h, Err(e))
    case None => Enter(h, child, parent)
  }

  function Approve(h: Hierarchy, parent: Tenant, child: Tenant): (Hierarchy, Result<Relation>) {
    if child in h.relations && h.relations[child] == Relation(parent, Pending)
    then (h.(relations := h.relations[child := Relation(parent, Active)]), Ok(Relation(parent, Active)))
    else (h, Err(NotFound))
  }

  class HierarchyTable {
    const tenants: set<Tenant>
    var relations: map<Tenant, Relation>

    ghost function Contents(): Hierarchy
      reads this
    {
      Hierarchy(tenants, relations)
    }

    constructor (tenants: set<Tenant>)
      ensures Contents() == Hierarchy(tenants, map[])
    {
      this.tenants := tenants;
      relations := map[];
    }

    method RequestParent(child: Tenant, parent: Tenant) returns (r: Result<Relation>)
      modifies this
      ensures Contents() == Request(old(Contents()), child, parent).0
      ensures r == Request(old(Contents()), child, parent).1
    {
      if child == parent { return Err(BadRequest); }
      if parent !in tenants { return Err(NotFound); }
      var live := set t | t in relations && relations[t].status != Ended :: (t, relations[t].parent);
      if child in Chain(live, parent) { return Err(Conflict); }
      if child in relations { return Err(Conflict); }
      relations := relations[child := Relation(parent, Pending)];
      r := Ok(relations[child]);
    }

    method ApproveChild(parent: Tenant, child: Tenant) returns (r: Result<Relation>)
      modifies this
      ensures Contents() == Approve(old(Contents()), parent, child).0
      ensures r == Approve(old(Contents()), parent, child).1
    {
      if child !in relations || relations[child].parent != parent || relations[child].status != Pending {
        return Err(NotFound);
      }
      relations := relations[child := relations[child].(status := Active)];
      r := Ok(relations[child]);
    }
  }

  // ---- Runs ----

  datatype Asked = Asked(child: Tenant, parent: Tenant)

  // The table, and the requests whose checks have passed.
  datatype Desk = Desk(table: Hierarchy, asked: seq<Asked>)

  datatype Op = Ask(child: Tenant, parent: Tenant) | Insert(request: nat) | Grant(grantor: Tenant, granted: Tenant)

  function Step(d: Desk, op: Op): Desk {
    match op
    case Ask(child, parent) =>
      if Objection(d.table, child, parent).None? then d.(asked := d.asked + [Asked(child, parent)]) else d
    case Insert(k) =>
      if k < |d.asked| then d.(table := Enter(d.table, d.asked[k].child, d.asked[k].parent).0) else d
    case Grant(parent, child) => d.(table := Approve(d.table, parent, child).0)
  }

  ghost function Run(d: Desk, ops: seq<Op>): Desk {
    if ops == [] then d else Step(Run(d, ops[..|ops| - 1]), ops[|ops| - 1])
  }

  // The operation adds an edge.
  predicate Adds(d: Desk, op: Op) {
    op.Insert? && op.request < |d.asked| && d.asked[op.request].child !in d.table.relations
  }

  // An edge whose check would not pass any more.
  predicate Stale(d: Desk, op: Op) {
    Adds(d, op) && d.asked[op.request].child in Chain(LiveEdges(d.table), d.asked[op.request].parent)
  }

  ghost predicate FreshRun(d: Desk, ops: seq<Op>) {
    ops == [] || (FreshRun(d, ops[..|ops| - 1]) && !Stale(Run(d, ops[..|ops| - 1]), ops[|ops| - 1]))
  }

  lemma StepEdges(d: Desk, op: Op)
    ensures LiveEdges(Step(d, op).table) == LiveEdges(d.table)
              + if Adds(d, op) then {(d.asked[op.request].child, d.asked[op.request].parent)} else {}
  {
    var h, next := d.table, Step(d, op).table;
    forall t | t in h.relations
      ensures t in next.relations && h.relations[t].parent == next.relations[t].parent
      ensures (h.relations[t].status == Ended) == (next.relations[t].status == Ended)
    {
    }
    if Adds(d, op) {
      assert next.relations.Keys == h.relations.Keys + {d.asked[op.request].child};
    } else {
      assert next.relations.Keys == h.relations.Keys;
    }
  }

  lemma FewerEdgesAcyclic(edges: Edges, more: Edges)
    requires edges <= more && Acyclic(more)
    ensures Acyclic(edges)
  {
    forall e | e in edges ensures !Reaches(edges, e.1, e.0) {
      if Reaches(edges, e.1, e.0) { ReachesMore(edges, more, e.1, e.0); }
    }
  }

  lemma StepForestIff(d: Desk, op: Op)
    ensures Acyclic(LiveEdges(Step(d, op).table)) <==> Acyclic(LiveEdges(d.table)) && !Stale(d, op)
  {
    var edges := LiveEdges(d.table);
    StepEdges(d, op);
    assert edges + {} == edges;
    if Acyclic(LiveEdges(Step(d, op).table)) { FewerEdgesAcyclic(edges, LiveEdges(Step(d, op).table)); }
    if Acyclic(edges) && Adds(d, op) { CycleRefusedIff(edges, d.asked[op.request].child, d.asked[op.request].parent); }
  }

  // The pending and active edges are a forest after a run exactly when every edge was added while its check would still
  // have passed. (One parent per tenant is the table's key.)
  lemma {:induction false} ForestIff(d: Desk, ops: seq<Op>)
    requires Acyclic(LiveEdges(d.table))
    ensures Acyclic(LiveEdges(Run(d, ops).table)) <==> FreshRun(d, ops)
  {
    if ops != [] {
      ForestIff(d, ops[..|ops| - 1]);
      StepForestIff(Run(d, ops[..|ops| - 1]), ops[|ops| - 1]);
    }
  }

  // The operation runs the INSERT of the request that the one before it checked.
  ghost predicate Follows(d: Desk, ops: seq<Op>, op: Op) {
    && op.Insert? && ops != [] && ops[|ops| - 1].Ask?
    && var checked, ask := Run(d, ops[..|ops| - 1]), ops[|ops| - 1];
       op.request == |checked.asked| && Objection(checked.table, ask.child, ask.parent).None?
  }

  ghost predicate OneAtATime(d: Desk, ops: seq<Op>) {
    ops == [] ||
    (OneAtATime(d, ops[..|ops| - 1])
     && (ops[|ops| - 1].Insert? ==> Follows(d, ops[..|ops| - 1], ops[|ops| - 1])))
  }

  // So requests that do not overlap keep the forest.
  lemma StaysForest(d: Desk, ops: seq<Op>)
    requires Acyclic(LiveEdges(d.table)) && OneAtATime(d, ops)
    ensures Acyclic(LiveEdges(Run(d, ops).table))
  {
    OneAtATimeIsFresh(d, ops);
    ForestIff(d, ops);
  }

  lemma {:induction false} OneAtATimeIsFresh(d: Desk, ops: seq<Op>)
    requires OneAtATime(d, ops)
    ensures FreshRun(d, ops)
  {
    if ops != [] { OneAtATimeIsFresh(d, ops[..|ops| - 1]); }
  }

  // From a table without relationships.
  lemma EveryForestIff(tenants: set<Tenant>, ops: seq<Op>)
    ensures var d := Desk(Hierarchy(tenants, map[]), []);
      Acyclic(LiveEdges(Run(d, ops).table)) <==> FreshRun(d, ops)
  {
    ForestIff(Desk(Hierarchy(tenants, map[]), []), ops);
  }

  const TWO := Desk(Hierarchy({0, 1}, map[]), [])
  const CROSSED := [Ask(0, 1), Ask(1, 0), Insert(0), Insert(1)]

  // Two tenants ask for each other at once: both checks pass, and then both edges are there.
  lemma CrossedRequestsMakeCycle()
    ensures LiveEdges(Run(TWO, CROSSED).table) == {(0, 1), (1, 0)} && !Acyclic(LiveEdges(Run(TWO, CROSSED).table))
  {
    var ops := CROSSED;
    assert ops[..4] == ops && ops[..4][..3] == ops[..3];
    assert ops[..3][..2] == ops[..2] && ops[..2][..1] == ops[..1] && ops[..1][..0] == [];
    assert LiveEdges(TWO.table) == {};
    assert Chain({}, 1) == {1} && Chain({}, 0) == {0};
    assert Run(TWO, ops[..1]) == Step(Run(TWO, ops[..0]), ops[0]) == Desk(TWO.table, [Asked(0, 1)]);
    assert Run(TWO, ops[..2]) == Step(Run(TWO, ops[..1]), ops[1]) == Desk(TWO.table, [Asked(0, 1), Asked(1, 0)]);
    var edges := LiveEdges(Run(TWO, ops).table);
    StepEdges(Run(TWO, ops[..2]), ops[2]);
    StepEdges(Run(TWO, ops[..3]), ops[3]);
    assert edges == {(0, 1), (1, 0)};
    assert Joins(edges, [1, 0], 1, 0);
  }

  // ---- Requests in terms of ancestors ----

  // The edges that count are those of pending and active relations.
  lemma EdgesAreLiveRelations(h: Hierarchy, child: Tenant, parent: Tenant)
    ensures (child, parent) in LiveEdges(h) <==>
            && child in h.relations && h.relations[child].parent == parent
            && (h.relations[child].status == Pending || h.relations[child].status == Active)
  {
  }

  // A request is refused for the tenant itself, an unknown parent, a parent that has the tenant among its ancestors,
  // or a tenant that has a relation, in this order; otherwise the pending relation is added.
  lemma RequestIsAsRequested(h: Hierarchy, child: Tenant, parent: Tenant)
    ensures var (k, r) := Request(h, child, parent);
      && r == (if child == parent then Err(BadRequest) else if parent !in h.tenants then Err(NotFound)
               else if Reaches(LiveEdges(h), parent, child) || child in h.relations then Err(Conflict)
               else Ok(Relation(parent, Pending)))
      && k == if r.Ok? then h.(relations := h.relations[child := Relation(parent, Pending)]) else h
  {
    ChainIsAncestors(LiveEdges(h), parent, child);
  }

  // An approval is accepted exactly from the parent the tenant's pending relation names.
  lemma ApprovalIsAsRequested(h: Hierarchy, parent: Tenant, child: Tenant)
    ensures var (k, r) := Approve(h, parent, child);
      var pending := child in h.relations && h.relations[child].parent == parent
                     && h.relations[child].status == Pending;
      && r == (if pending then Ok(Relation(parent, Active)) else Err(NotFound))
      && k == if pending then h.(relations := h.relations[child := Relation(parent, Active)]) else h
  {
  }
}
