// The hash-chained audit logs of one tenant and the two functions that verify them: one window query over
// all rows (verifyIntegrity), one loop that stops at the first mismatch (verifyFinancialAuditChain).
// The digest is a parameter; where its strength matters it is assumed injective.
module AuditChain {
  import opened Common

  // The logged fields, as the texts that enter the digest.
  type Payload = seq<Option<string>>

  datatype Row = Row(sequence: Option<int>, previous: Option<string>, hash: Option<string>, payload: Payload)
  datatype Head = Head(sequence: int, hash: string)

  // digest(previous hash, logged fields, sequence); the audit log does not hash the sequence.
  type Digest = (string, Payload, Option<int>) -> string

  const ZEROS := "0000000000000000"
  const GENESIS := ZEROS + ZEROS + ZEROS + ZEROS

  // NULL in, NULL out.
  function Recomputed(h: Digest, row: Row): Option<string> {
    if row.previous.None? then None else Some(h(row.previous.value, row.payload, row.sequence))
  }

  // JavaScript's Number() of a nullable column.
  function Number(n: Option<int>): int { if n.Some? then n.value else 0 }

  // ---- The window query ----

  function PriorHash(rows: seq<Row>, i: nat): string
    requires i < |rows|
  {
    if i > 0 && rows[i - 1].hash.Some? then rows[i - 1].hash.value else GENESIS
  }

  predicate RowInvalid(h: Digest, rows: seq<Row>, i: nat)
    requires i < |rows|
  {
    || rows[i].sequence != Some(i + 1)
    || rows[i].previous != Some(PriorHash(rows, i))
    || rows[i].hash != Recomputed(h, rows[i])
  }

  function CountInvalid(h: Digest, rows: seq<Row>, upTo: nat): nat
    requires upTo <= |rows|
  {
    if upTo == 0 then 0
    else CountInvalid(h, rows, upTo - 1) + if RowInvalid(h, rows, upTo - 1) then 1 else 0
  }

  function MaxSequence(rows: seq<Row>): Option<int> {
    if rows == [] then None
    else
      var most, last := MaxSequence(rows[..|rows| - 1]), rows[|rows| - 1].sequence;
      if most.None? || (last.Some? && last.value > most.value) then last else most
  }

  datatype Integrity = Integrity(valid: bool, checked: nat, invalid: nat, headMatches: bool)

  function VerifyIntegrity(h: Digest, rows: seq<Row>, head: Option<Head>): Integrity {
    var total := |rows|;
    var invalid := CountInvalid(h, rows, total);
    var headMatches :=
      if total == 0 then head.None? || (head.value.sequence == 0 && head.value.hash == GENESIS)
      else head.Some? && head.value.sequence == Number(MaxSequence(rows))
           && Some(head.value.hash) == rows[total - 1].hash;
    Integrity(invalid == 0 && headMatches, total, invalid + (if headMatches then 0 else 1), headMatches)
  }

  // ---- The loop ----

  datatype ChainReport = ChainReport(valid: bool, checked: nat, firstMismatch: Option<int>, headValid: bool)

  // Row i continues the rows before it.
  ghost predicate Continues(h: Digest, rows: seq<Row>, i: nat)
    requires i < |rows|
  {
    && rows[i].sequence == Some(i + 1)
    && rows[i].previous.Some? && rows[i].previous == (if i == 0 then Some(GENESIS) else rows[i - 1].hash)
    && rows[i].hash == Recomputed(h, rows[i])
  }

  ghost predicate Intact(h: Digest, rows: seq<Row>) {
    forall i :: 0 <= i < |rows| ==> Continues(h, rows, i)
  }

  // Entry k is the first that does not continue the chain.
  ghost predicate FirstBreak(h: Digest, rows: seq<Row>, k: nat) {
    && k < |rows| && !Continues(h, rows, k)
    && forall i :: 0 <= i < k ==> Continues(h, rows, i)
  }

  ghost predicate HeadAgrees(rows: seq<Row>, head: Option<Head>) {
    if rows == [] then head.None? || head.value.sequence == 0
    else head.Some? && head.value.sequence == |rows| && Some(head.value.hash) == rows[|rows| - 1].hash
  }

  method VerifyFinancialAuditChain(h: Digest, rows: seq<Row>, head: Option<Head>)
    returns (report: ChainReport)
    ensures report.checked == |rows|
    ensures report.firstMismatch.None? <==> Intact(h, rows)
    ensures report.firstMismatch.Some? ==>
              exists k: nat :: FirstBreak(h, rows, k) && report.firstMismatch.value == Number(rows[k].sequence)
    ensures report.valid <==> Intact(h, rows) && HeadAgrees(rows, head)
    ensures forall k: nat :: FirstBreak(h, rows, k) ==>
              (report.headValid <==>
                 head.Some? && head.value.sequence == |rows|
                 && Some(head.value.hash) == if k == 0 then Some(GENESIS) else rows[k - 1].hash)
    ensures Intact(h, rows) ==> (report.headValid <==> HeadAgrees(rows, head))
  {
    var previous := GENESIS;
    var expectedSequence := 1;
    var mismatch := None;
    var i := 0;
    while i < |rows|
      invariant 0 <= i <= |rows| && expectedSequence == i + 1
      invariant forall j :: 0 <= j < i ==> Continues(h, rows, j)
      invariant Some(previous) == if i == 0 then Some(GENESIS) else rows[i - 1].hash
    {
      var row := rows[i];
      if Number(row.sequence) != expectedSequence || row.previous != Some(previous) || row.hash != Recomputed(h, row) {
        mismatch := Some(Number(row.sequence));
        assert FirstBreak(h, rows, i);
        assert forall k: nat :: FirstBreak(h, rows, k) ==> k == i;
        break;
      }
      previous := row.hash.value;
      expectedSequence := expectedSequence + 1;
      i := i + 1;
    }
    var headValid := if |rows| == 0 then head.None? || head.value.sequence == 0
                     else head.Some? && head.value.sequence == |rows| && head.value.hash == previous;
    report := ChainReport(mismatch.None? && headValid, |rows|, mismatch, headValid);
  }
}
