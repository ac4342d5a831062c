// What the requests on address pools and addresses store, in the terms of the requests and of address ranges.
module IpamRequests {
  import opened Arithmetic
  import opened Common
  import opened Cidr
  import opened Ipam

  // ---- Blocks as ranges ----

  lemma SameQuotient(x: nat, base: nat, d: nat)
    requires d > 0 && base % d == 0
    ensures DivBy(x, d) == DivBy(base, d) <==> base <= x < base + d
  {
    var q, r, b := x / d, x % d, base / d;
    DivMod(x, d);
    DivMod(base, d);
    NextMultiple(q, b, d);
    NextMultiple(b, q, d);
  }

  // An address lies in a valid block exactly when it is one of the block's 2 ** (width - prefix) addresses from its
  // base.
  lemma BlockIsRange(n: Network, a: Address)
    requires ValidNetwork(n)
    ensures Contains(n, a) <==>
            a.family == n.family && n.base <= a.bits < n.base + Pow2((if n.family == V4 then 32 else 128) - n.prefix)
  {
    SameQuotient(a.bits, n.base, BlockSize(n.family, n.prefix));
  }

  // A valid block starts at a multiple of its size, within its family's addresses, and a valid address is one of those.
  lemma BlocksAreAligned(n: Network, a: Address)
    ensures var width := if n.family == V4 then 32 else 128;
      ValidNetwork(n) <==> n.prefix <= width && n.base < Pow2(width) && n.base % Pow2(width - n.prefix) == 0
    ensures ValidAddress(a) <==> a.bits < Pow2(if a.family == V4 then 32 else 128)
  {
  }

  predicate InRange(n: Network, a: Address)
    requires ValidNetwork(n)
  {
    a.family == n.family && n.base <= a.bits < n.base + Pow2((if n.family == V4 then 32 else 128) - n.prefix)
  }

  // ---- Pools ----

  // Some address is in both ranges.
  ghost predicate Share(m: Network, n: Network)
    requires ValidNetwork(m) && ValidNetwork(n)
  {
    exists a :: ValidAddress(a) && InRange(m, a) && InRange(n, a)
  }

  lemma OverlapIsShare(m: Network, n: Network)
    requires ValidNetwork(m) && ValidNetwork(n)
    ensures Overlaps(m, n) <==> Share(m, n)
  {
    OverlapsIffShared(m, n);
    if Overlaps(m, n) {
      var a :| ValidAddress(a) && Contains(m, a) && Contains(n, a);
      BlockIsRange(m, a);
      BlockIsRange(n, a);
      assert InRange(m, a) && InRange(n, a);
    }
    if Share(m, n) {
      var a :| ValidAddress(a) && InRange(m, a) && InRange(n, a);
      BlockIsRange(m, a);
      BlockIsRange(n, a);
    }
  }

  ghost predicate SharesAddress(p: Plan, n: Network)
    requires PoolsOk(p) && ValidNetwork(n)
  {
    exists i :: 0 <= i < |p.pools| && Share(p.pools[i].network, n)
  }

  lemma OverlapIsShared(p: Plan, n: Network)
    requires PoolsOk(p) && ValidNetwork(n)
    ensures OverlapsSome(p, n) <==> SharesAddress(p, n)
  {
    forall i | 0 <= i < |p.pools| ensures PoolOverlaps(p.pools[i], n) <==> Share(p.pools[i].network, n) {
      OverlapIsShare(p.pools[i].network, n);
    }
  }

  // A pool is refused for a malformed block, for sharing an address with another pool, for a gateway outside it or
  // for a taken name, in this order, and otherwise added as it is.
  lemma PoolIsAsRequested(p: Plan, pool: Pool)
    requires PoolsOk(p)
    ensures var (q, r) := CreatePool(p, pool);
      var malformed := !ValidNetwork(pool.network);
      var shares := !malformed && SharesAddress(p, pool.network);
      var foreign := !malformed && pool.gateway.Some? && !InRange(pool.network, pool.gateway.value);
      var taken := exists i :: 0 <= i < |p.pools| && p.pools[i].name == pool.name;
      && r == (if malformed then Err(BadRequest) else if shares then Err(Conflict) else if foreign then Err(BadRequest)
               else if taken then Err(Conflict) else Ok(|p.pools|))
      && q == if r.Ok? then p.(pools := p.pools + [pool]) else p
  {
    if ValidNetwork(pool.network) {
      OverlapIsShared(p, pool.network);
      if pool.gateway.Some? { BlockIsRange(pool.network, pool.gateway.value); }
    }
  }

  // ---- Addresses ----

  // An address is added to an enabled pool exactly if it lies in the pool's block, is not its gateway and is not held
  // yet; it is reserved or available, as asked, and nobody's.
  lemma AddressIsAsRequested(p: Plan, i: nat, d: AddInput)
    requires PoolsOk(p)
    ensures var (q, r) := AddAddress(p, i, d);
      var known := i < |p.pools| && p.pools[i].enabled;
      var held := exists k :: 0 <= k < |p.rows| && p.rows[k].address == d.address;
      && r == (if !known then Err(NotFound) else if !InRange(p.pools[i].network, d.address) then Err(BadRequest)
               else if p.pools[i].gateway == Some(d.address) || held then Err(Conflict) else Ok(|p.rows|))
      && (r.Err? ==> q == p)
      && (r.Ok? ==>
            && q == p.(rows := q.rows) && |q.rows| == |p.rows| + 1 && q.rows[..|p.rows|] == p.rows
            && var row := q.rows[|p.rows|];
               && row.pool == i && row.address == d.address && row.owner == NOBODY
               && (row.status == Reserved <==> d.reserved) && (row.status == Available <==> !d.reserved)
               && (d.assignment.Some? ==> d.assignment == Some(row.assignment))
               && (d.assignment.None? ==> row.assignment == if d.reserved then Held else Dynamic))
  {
    if i < |p.pools| {
      assert PoolOk(p.pools[i]);
      BlockIsRange(p.pools[i].network, d.address);
    }
  }

  // Row k is the pool's row of that address.
  predicate IsRow(p: Plan, k: nat, i: nat, a: Address) { k < |p.rows| && p.rows[k].pool == i && p.rows[k].address == a }

  // The row becomes the caller's, static, for as long as was asked.
  predicate GivenTo(before: IpRow, after: IpRow, d: AllocateInput, now: int) {
    && after.pool == before.pool && after.address == before.address
    && after.status == Allocated && after.assignment == Static
    && after.owner.customer == d.customer && after.owner.router == d.router && after.owner.session == d.session
    && after.owner.mac == d.mac
    && (d.leaseSeconds == 0 ==> after.owner.lease == None)
    && (d.leaseSeconds > 0 ==> after.owner.lease == Some(now + d.leaseSeconds))
  }

  // An address named in the request is given exactly if the enabled pool holds it and it is available.
  lemma NamedAllocationIsAsRequested(p: Plan, i: nat, d: AllocateInput, now: int)
    requires PlanOk(p) && d.address.Some?
    ensures var (q, r) := Allocate(p, i, d, now);
      var known := i < |p.pools| && p.pools[i].enabled && exists k: nat :: IsRow(p, k, i, d.address.value);
      && (r == Err(NotFound) <==> !known)
      && (r == Err(Conflict) <==>
            known && forall k: nat :: IsRow(p, k, i, d.address.value) ==> p.rows[k].status != Available)
      && (r.Err? ==> q == p && r != Err(BadRequest))
      && (r.Ok? ==>
            && IsRow(p, r.value, i, d.address.value) && p.rows[r.value].status == Available
            && |q.rows| == |p.rows| && q == p.(rows := p.rows[r.value := q.rows[r.value]])
            && GivenTo(p.rows[r.value], q.rows[r.value], d, now))
  {
    var found := RowOf(p.rows, i, d.address.value);
    if found.Some? { assert IsRow(p, found.value, i, d.address.value); }
    forall k: nat | IsRow(p, k, i, d.address.value) ensures found == Some(k) {}
  }

  // Without a name the request gets an available address of the pool, if there is one.
  lemma AllocationIsAsRequested(p: Plan, i: nat, d: AllocateInput, now: int)
    requires d.address.None?
    ensures var (q, r) := Allocate(p, i, d, now);
      var known := i < |p.pools| && p.pools[i].enabled;
      var some := exists k :: 0 <= k < |p.rows| && p.rows[k].pool == i && p.rows[k].status == Available;
      && (r == Err(NotFound) <==> !known) && (r == Err(Conflict) <==> known && !some)
      && (r.Err? ==> q == p && r != Err(BadRequest))
      && (r.Ok? ==>
            && r.value < |p.rows| && p.rows[r.value].pool == i && p.rows[r.value].status == Available
            && |q.rows| == |p.rows| && q == p.(rows := p.rows[r.value := q.rows[r.value]])
            && GivenTo(p.rows[r.value], q.rows[r.value], d, now))
  {
    var found := LeastFree(p.rows, i);
    if found.Some? { assert Free(p.rows[found.value], i); }
    if exists k :: 0 <= k < |p.rows| && p.rows[k].pool == i && p.rows[k].status == Available {
      var k :| 0 <= k < |p.rows| && p.rows[k].pool == i && p.rows[k].status == Available;
      assert Free(p.rows[k], i);
    }
  }

  // A release is accepted exactly for an allocated address, which becomes available and nobody's.
  lemma ReleaseIsAsRequested(p: Plan, k: nat)
    ensures var (q, r) := Release(p, k);
      && r == (if k < |p.rows| && p.rows[k].status == Allocated then Ok(k) else Err(NotFound))
      && q == if r.Err? then p
              else p.(rows := p.rows[k := IpRow(p.rows[k].pool, p.rows[k].address, Available, Dynamic, NOBODY)])
  {
  }
}
