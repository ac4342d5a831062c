// That the two verifiers of the hash chains agree, and what it means that they accept a log.
module AuditLaws {
  import opened Common
  import opened AuditChain

  // ---- The two forms agree ----

  lemma RowsAgree(h: Digest, rows: seq<Row>, k: nat)
    requires k < |rows| && forall i :: 0 <= i < k ==> Continues(h, rows, i)
    ensures RowInvalid(h, rows, k) <==> !Continues(h, rows, k)
  {
    if k > 0 { assert Continues(h, rows, k - 1); }
  }

  lemma {:induction false} CountUpTo(h: Digest, rows: seq<Row>, n: nat)
    requires n <= |rows|
    ensures CountInvalid(h, rows, n) == 0 <==> forall i :: 0 <= i < n ==> Continues(h, rows, i)
  {
    if n > 0 {
      CountUpTo(h, rows, n - 1);
      if forall i :: 0 <= i < n - 1 ==> Continues(h, rows, i) { RowsAgree(h, rows, n - 1); }
    }
  }

  // Row k is the first the window query counts.
  ghost predicate FirstInvalid(h: Digest, rows: seq<Row>, k: nat) {
    k < |rows| && RowInvalid(h, rows, k) && forall i :: 0 <= i < k ==> !RowInvalid(h, rows, i)
  }

  lemma {:induction false} PrefixAgrees(h: Digest, rows: seq<Row>, k: nat)
    requires k <= |rows|
    ensures (forall i :: 0 <= i < k ==> !RowInvalid(h, rows, i)) <==> (forall i :: 0 <= i < k ==> Continues(h, rows, i))
  {
    if k > 0 {
      PrefixAgrees(h, rows, k - 1);
      if forall i :: 0 <= i < k - 1 ==> Continues(h, rows, i) { RowsAgree(h, rows, k - 1); }
    }
  }

  // The loop's mismatch is the first row the window query rejects.
  lemma FirstMismatchAgrees(h: Digest, rows: seq<Row>, k: nat)
    ensures FirstBreak(h, rows, k) <==> FirstInvalid(h, rows, k)
  {
    if k < |rows| {
      PrefixAgrees(h, rows, k);
      if forall i :: 0 <= i < k ==> Continues(h, rows, i) { RowsAgree(h, rows, k); }
    }
  }

  // The window query counts no row exactly when the loop finds no mismatch.
  lemma FormsAgree(h: Digest, rows: seq<Row>)
    ensures CountInvalid(h, rows, |rows|) == 0 <==> Intact(h, rows)
  {
    CountUpTo(h, rows, |rows|);
  }

  lemma {:induction false} IntactEndsAtLength(h: Digest, rows: seq<Row>)
    requires Intact(h, rows)
    ensures rows != [] ==> MaxSequence(rows) == Some(|rows|)
  {
    if rows != [] {
      var front := rows[..|rows| - 1];
      forall i | 0 <= i < |front| ensures Continues(h, front, i) { assert Continues(h, rows, i); }
      IntactEndsAtLength(h, front);
      assert Continues(h, rows, |rows| - 1);
    }
  }

  // The verdicts differ in one case only: an empty log whose head has sequence 0 but not the genesis hash,
  // which the loop accepts and the window query does not.
  lemma VerdictsAgree(h: Digest, rows: seq<Row>, head: Option<Head>)
    ensures VerifyIntegrity(h, rows, head).valid <==>
              Intact(h, rows) && HeadAgrees(rows, head)
              && !(rows == [] && head.Some? && head.value.hash != GENESIS)
  {
    FormsAgree(h, rows);
    if Intact(h, rows) { IntactEndsAtLength(h, rows); }
  }

  // ---- What acceptance means ----

  // The log an honest writer builds from the payloads.
  function Chain(h: Digest, payloads: seq<Payload>): (rows: seq<Row>)
    ensures |rows| == |payloads|
  {
    if payloads == [] then []
    else
      var front := Chain(h, payloads[..|payloads| - 1]);
      front + [Link(h, front, payloads[|payloads| - 1])]
  }

  function Link(h: Digest, front: seq<Row>, payload: Payload): Row {
    var n := |front|;
    var previous := if n > 0 && front[n - 1].hash.Some? then front[n - 1].hash.value else GENESIS;
    Row(Some(n + 1), Some(previous), Some(h(previous, payload, Some(n + 1))), payload)
  }

  function Payloads(rows: seq<Row>): seq<Payload> { seq(|rows|, i requires 0 <= i < |rows| => rows[i].payload) }

  // A log is intact exactly when it is the chain of its own payloads.
  lemma {:induction false} IntactIffChained(h: Digest, rows: seq<Row>)
    ensures Intact(h, rows) <==> rows == Chain(h, Payloads(rows))
  {
    if rows == [] {
      assert Payloads(rows) == [];
    } else {
      var n := |rows| - 1;
      var front := rows[..n];
      IntactIffChained(h, front);
      assert Payloads(rows)[..n] == Payloads(front);
      var chain := Chain(h, Payloads(rows));
      assert chain == Chain(h, Payloads(front)) + [Link(h, Chain(h, Payloads(front)), rows[n].payload)];
      assert Intact(h, rows) <==> Intact(h, front) && Continues(h, rows, n) by {
        assert forall i :: 0 <= i < n ==> (Continues(h, rows, i) <==> Continues(h, front, i));
      }
      assert rows == front + [rows[n]];
      if Intact(h, front) {
        if n > 0 { assert Continues(h, front, n - 1); }
        assert Continues(h, rows, n) <==> rows[n] == Link(h, front, rows[n].payload);
      }
    }
  }

  ghost predicate Injective(h: Digest) {
    forall p, q, x, y, m, n :: h(p, x, m) == h(q, y, n) ==> p == q && x == y
  }

  // Two intact logs of one length that end in the same hash are the same log.
  lemma {:induction false} LastHashDetermines(h: Digest, a: seq<Row>, b: seq<Row>)
    requires Injective(h) && Intact(h, a) && Intact(h, b) && |a| == |b|
    requires a != [] ==> a[|a| - 1].hash == b[|b| - 1].hash
    ensures a == b
  {
    if a != [] {
      var n := |a| - 1;
      assert Continues(h, a, n) && Continues(h, b, n);
      assert h(a[n].previous.value, a[n].payload, a[n].sequence) == h(b[n].previous.value, b[n].payload, b[n].sequence);
      forall i | 0 <= i < n ensures Continues(h, a[..n], i) && Continues(h, b[..n], i) {
        assert Continues(h, a, i) && Continues(h, b, i);
      }
      LastHashDetermines(h, a[..n], b[..n]);
      assert a == a[..n] + [a[n]] && b == b[..n] + [b[n]];
    }
  }

  // The stored head determines the log: any edit, drop, insertion or reordering of rows is rejected.
  lemma HeadDeterminesLog(h: Digest, a: seq<Row>, b: seq<Row>, head: Head)
    requires Injective(h)
    requires Intact(h, a) && HeadAgrees(a, Some(head))
    requires Intact(h, b) && HeadAgrees(b, Some(head))
    ensures a == b
  {
    LastHashDetermines(h, a, b);
  }

  lemma TamperingIsRejected(h: Digest, log: seq<Row>, tampered: seq<Row>, head: Head)
    requires Injective(h) && VerifyIntegrity(h, log, Some(head)).valid && tampered != log
    ensures !VerifyIntegrity(h, tampered, Some(head)).valid
  {
    VerdictsAgree(h, log, Some(head));
    VerdictsAgree(h, tampered, Some(head));
    if VerifyIntegrity(h, tampered, Some(head)).valid { HeadDeterminesLog(h, log, tampered, head); }
  }

  // ---- The window query's report ----

  lemma GenesisIsZeros()
    ensures |GENESIS| == 64 && forall i :: 0 <= i < 64 ==> GENESIS[i] == '0'
  {
  }

  // The rows with a wrong number, a wrong previous hash or a wrong hash of their own. The first row follows the genesis
  // hash, and so does a row after one without a hash.
  ghost function BadRows(h: Digest, rows: seq<Row>, n: nat): set<nat>
    requires n <= |rows|
  {
    set i: nat | i < n &&
      (|| rows[i].sequence != Some(i + 1)
       || rows[i].previous != Some(if i > 0 && rows[i - 1].hash.Some? then rows[i - 1].hash.value else GENESIS)
       || rows[i].hash != Recomputed(h, rows[i]))
  }

  lemma {:induction false} BadRowsAreCounted(h: Digest, rows: seq<Row>, n: nat)
    requires n <= |rows|
    ensures |BadRows(h, rows, n)| == CountInvalid(h, rows, n)
  {
    if n > 0 {
      BadRowsAreCounted(h, rows, n - 1);
      assert BadRows(h, rows, n) == BadRows(h, rows, n - 1) + if RowInvalid(h, rows, n - 1) then {n - 1} else {};
    }
  }

  // The highest sequence, with 0 for none.
  ghost predicate IsHighest(rows: seq<Row>, n: int) {
    && (forall i :: 0 <= i < |rows| && rows[i].sequence.Some? ==> rows[i].sequence.value <= n)
    && (if forall i :: 0 <= i < |rows| ==> rows[i].sequence.None? then n == 0
        else exists i :: 0 <= i < |rows| && rows[i].sequence == Some(n))
  }

  lemma {:induction false} MaxIsHighest(rows: seq<Row>)
    ensures IsHighest(rows, Number(MaxSequence(rows)))
    ensures MaxSequence(rows).None? <==> forall i :: 0 <= i < |rows| ==> rows[i].sequence.None?
  {
    if rows != [] {
      var front, last := rows[..|rows| - 1], rows[|rows| - 1];
      MaxIsHighest(front);
      if MaxSequence(front).Some? {
        var i :| 0 <= i < |front| && front[i].sequence == MaxSequence(front);
        assert rows[i] == front[i];
      }
    }
  }

  // The report counts every row, the bad ones and one more for a head that does not match: one is missing, or names
  // another number than the highest or another hash than the last; an empty log may have no head or the initial one.
  lemma ReportCounts(h: Digest, rows: seq<Row>, head: Option<Head>, highest: int)
    requires IsHighest(rows, highest)
    ensures var r := VerifyIntegrity(h, rows, head);
      && r.checked == |rows|
      && (r.headMatches <==>
            if rows == [] then head.None? || head.value == Head(0, GENESIS)
            else head.Some? && head.value.sequence == highest && Some(head.value.hash) == rows[|rows| - 1].hash)
      && r.invalid == |BadRows(h, rows, |rows|)| + (if r.headMatches then 0 else 1)
      && (r.valid <==> r.invalid == 0)
  {
    BadRowsAreCounted(h, rows, |rows|);
    MaxIsHighest(rows);
    HighestIsOne(rows, highest, Number(MaxSequence(rows)));
  }

  lemma HighestIsOne(rows: seq<Row>, m: int, n: int)
    requires IsHighest(rows, m) && IsHighest(rows, n)
    ensures m == n
  {
    if exists i :: 0 <= i < |rows| && rows[i].sequence.Some? {
      var i :| 0 <= i < |rows| && rows[i].sequence == Some(m);
      var k :| 0 <= k < |rows| && rows[k].sequence == Some(n);
    }
  }
}
