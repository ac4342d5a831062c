// IP addresses and CIDR blocks as numbers, and the containment and overlap operators the address
// manager asks the database for (inet <<= cidr, cidr && cidr).
module Cidr {
  import opened Arithmetic

  datatype Family = V4 | V6

  function Width(f: Family): nat { if f == V4 then 32 else 128 }

  datatype Address = Address(family: Family, bits: nat)
  datatype Network = Network(family: Family, base: nat, prefix: nat)

  predicate ValidAddress(a: Address) { a.bits < Pow2(Width(a.family)) }

  // A cidr value has no bits set to the right of its prefix.
  predicate ValidNetwork(n: Network) {
    && n.prefix <= Width(n.family) && n.base < Pow2(Width(n.family))
    && n.base % BlockSize(n.family, n.prefix) == 0
  }

  // How many addresses a block of that prefix has.
  function BlockSize(f: Family, prefix: nat): (size: nat)
    requires prefix <= Width(f)
    ensures size > 0
  {
    Pow2(Width(f) - prefix)
  }

  // The leading `prefix` bits.
  function Leading(f: Family, bits: nat, prefix: nat): nat
    requires prefix <= Width(f)
  {
    DivBy(bits, BlockSize(f, prefix))
  }

  predicate Contains(n: Network, a: Address)
    requires n.prefix <= Width(n.family)
  {
    a.family == n.family && Leading(n.family, a.bits, n.prefix) == Leading(n.family, n.base, n.prefix)
  }

  // Compares as many leading bits as the shorter prefix has.
  predicate Overlaps(m: Network, n: Network)
    requires m.prefix <= Width(m.family) && n.prefix <= Width(n.family)
  {
    && m.family == n.family
    && var shorter := if m.prefix <= n.prefix then m.prefix else n.prefix;
       Leading(m.family, m.base, shorter) == Leading(m.family, n.base, shorter)
  }

  lemma Doubled(x: nat, y: nat)
    ensures 2 * (x * y) == (2 * x) * y
  {
  }

  lemma {:induction false} Pow2Sum(a: nat, b: nat)
    ensures Pow2(a + b) == Pow2(a) * Pow2(b)
  {
    if a > 0 {
      Pow2Sum(a - 1, b);
      Doubled(Pow2(a - 1), Pow2(b));
    }
  }

  lemma NextMultiple(a: nat, b: nat, d: nat)
    ensures a < b ==> a * d + d <= b * d
  {
    if a < b { Gap(b - a - 1, a, d); }
  }

  lemma Gap(k: nat, a: nat, d: nat)
    ensures a * d + d <= (k + 1 + a) * d
  {
    assert (k + 1 + a) * d == k * d + d + a * d;
    assert k * d >= 0;
  }

  lemma Quotient(x: nat, d: nat, q: nat, r: nat)
    requires d > 0 && x == q * d + r && r < d
    ensures x / d == q
  {
    NextMultiple(x / d, q, d);
    NextMultiple(q, x / d, d);
  }

  lemma Remainder(r: nat, m: nat, s: nat, n: nat)
    requires r < m && s < n
    ensures s * m + r < m * n
  {
    NextMultiple(s, n, m);
  }

  lemma DivMod(x: nat, m: nat)
    requires m > 0
    ensures x == x / m * m + x % m && x % m < m
  {
  }

  lemma Regroup(z: nat, n: nat, s: nat, m: nat, r: nat)
    ensures (z * n + s) * m + r == z * (m * n) + (s * m + r)
  {
    assert (z * n) * m == z * (m * n);
  }

  lemma DivDiv(x: nat, m: nat, n: nat)
    requires m > 0 && n > 0
    ensures m * n > 0 && x / m / n == x / (m * n)
  {
    var y, r := x / m, x % m;
    var z, s := y / n, y % n;
    DivMod(x, m);
    DivMod(y, n);
    Regroup(z, n, s, m, r);
    Remainder(r, m, s, n);
    Quotient(x, m * n, z, s * m + r);
  }

  // Fewer leading bits are a prefix of more.
  lemma LeadingPrefix(f: Family, bits: nat, short: nat, long: nat)
    requires short <= long <= Width(f)
    ensures Leading(f, bits, short) == Leading(f, bits, long) / Pow2(long - short)
  {
    Pow2Sum(Width(f) - long, long - short);
    DivDiv(bits, Pow2(Width(f) - long), Pow2(long - short));
  }

  // A block is inside a wider one exactly when the operator says they overlap, and otherwise shares no address
  // with it: blocks are nested or disjoint (section 3.1 of RFC 4632).
  lemma NestedOrDisjoint(wide: Network, narrow: Network, a: Address)
    requires wide.prefix <= narrow.prefix <= Width(narrow.family) && wide.family == narrow.family
    requires Contains(narrow, a)
    ensures Contains(wide, a) <==> Overlaps(wide, narrow)
  {
    LeadingPrefix(wide.family, a.bits, wide.prefix, narrow.prefix);
    LeadingPrefix(wide.family, narrow.base, wide.prefix, narrow.prefix);
  }

  // The overlap operator means: some address lies in both blocks.
  lemma OverlapsIffShared(m: Network, n: Network)
    requires ValidNetwork(m) && ValidNetwork(n)
    ensures Overlaps(m, n) <==> exists a :: ValidAddress(a) && Contains(m, a) && Contains(n, a)
  {
    if m.family == n.family {
      var (wide, narrow) := if m.prefix <= n.prefix then (m, n) else (n, m);
      assert Overlaps(m, n) == Overlaps(wide, narrow);
      var first := Address(narrow.family, narrow.base);
      assert Contains(narrow, first);
      NestedOrDisjoint(wide, narrow, first);
      forall a | Contains(m, a) && Contains(n, a) ensures Overlaps(m, n) { NestedOrDisjoint(wide, narrow, a); }
    }
  }
}
