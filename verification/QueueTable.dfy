// The queue functions as they run: a claim picks due rows in order up to its limit and marks them one by one;
// every other function updates the rows that match its WHERE clause.
module QueueTable {
  import opened Common
  import opened Queues

  predicate Selectable(q: Queue, rows: seq<Row>, smsOnly: bool, locked: set<nat>, now: int, i: nat) {
    i < |rows| && i !in locked && Claimable(q, rows[i], now) && (smsOnly ==> rows[i].sms)
  }

  // ORDER BY created_at, or by due time and then created_at; rows are stored in creation order.
  predicate Ahead(byDue: bool, rows: seq<Row>, i: nat, j: nat)
    requires i < |rows| && j < |rows|
  {
    if byDue && rows[i].dueAt != rows[j].dueAt then rows[i].dueAt < rows[j].dueAt else i < j
  }

  // LIMIT of a claim: missing or 0 means 25, and it is kept between 1 and 100.
  function SafeLimit(limit: int): nat { Clamp(if limit == 0 then 25 else limit, 1, 100) }

  // The first rows, in order, that the claim may take.
  ghost predicate FirstInOrder(q: Queue, rows: seq<Row>, smsOnly: bool, byDue: bool, locked: set<nat>, now: int,
                               ids: seq<nat>, limit: nat)
  {
    && |ids| <= limit
    && (forall k :: 0 <= k < |ids| ==> Selectable(q, rows, smsOnly, locked, now, ids[k]))
    && (forall j, k :: 0 <= j < k < |ids| ==> Ahead(byDue, rows, ids[j], ids[k]))
    && (forall i: nat :: Selectable(q, rows, smsOnly, locked, now, i) && i !in ids ==>
          forall k :: 0 <= k < |ids| ==> Ahead(byDue, rows, ids[k], i))
  }

  lemma NextInOrder(q: Queue, rows: seq<Row>, smsOnly: bool, byDue: bool, locked: set<nat>, now: int,
                    ids: seq<nat>, best: nat, limit: nat)
    requires FirstInOrder(q, rows, smsOnly, byDue, locked, now, ids, limit) && |ids| < limit
    requires Selectable(q, rows, smsOnly, locked, now, best) && best !in ids
    requires forall i: nat :: Selectable(q, rows, smsOnly, locked, now, i) && i !in ids ==>
               i == best || Ahead(byDue, rows, best, i)
    ensures FirstInOrder(q, rows, smsOnly, byDue, locked, now, ids + [best], limit)
  {
    var more := ids + [best];
    forall i: nat | Selectable(q, rows, smsOnly, locked, now, i) && i !in more
      ensures forall k :: 0 <= k < |more| ==> Ahead(byDue, rows, more[k], i)
    {
      assert i !in ids && i != more[|ids|];
    }
  }

  function Chosen(ids: seq<nat>): set<nat> { set i | i in ids }

  lemma ClaimNone(t: Table, now: int)
    ensures Step(t, Claim({}, now)) == t
  {
    assert Step(t, Claim({}, now)).rows == t.rows;
    assert HeldAfter(t, Claim({}, now)) == t.held;
  }

  // Claiming one more row marks it and leaves the rest.
  lemma ClaimOneMore(t: Table, done: set<nat>, id: nat, now: int)
    requires id < |t.rows| && id !in done && Claimable(t.queue, t.rows[id], now)
    ensures var u, r := Step(t, Claim(done, now)), t.rows[id];
      && u.rows[id] == r
      && Step(t, Claim(done + {id}, now)) ==
           u.(rows := u.rows[id := r.(status := InFlight, attempts := r.attempts + 1, lockedAt := now)],
              held := if t.queue == Webhooks then u.held[id := r.attempts + 1] else u.held)
  {
    var u, v, r := Step(t, Claim(done, now)), Step(t, Claim(done + {id}, now)), t.rows[id];
    assert v.rows == u.rows[id := r.(status := InFlight, attempts := r.attempts + 1, lockedAt := now)] by {
      forall i | 0 <= i < |t.rows| && i != id ensures v.rows[i] == u.rows[i] { assert i in done + {id} <==> i in done; }
    }
    HoldOneMore(t, done, id, now);
  }

  lemma HoldOneMore(t: Table, done: set<nat>, id: nat, now: int)
    requires id < |t.rows| && Claimable(t.queue, t.rows[id], now)
    ensures var u, v := HeldAfter(t, Claim(done, now)), HeldAfter(t, Claim(done + {id}, now));
      v == if t.queue == Webhooks then u[id := t.rows[id].attempts + 1] else u
  {
    var u, v := HeldAfter(t, Claim(done, now)), HeldAfter(t, Claim(done + {id}, now));
    if t.queue == Webhooks {
      forall k ensures k in v <==> k in u || k == id {
      }
      forall k | k in v ensures v[k] == u[id := t.rows[id].attempts + 1][k] {
      }
      assert v == u[id := t.rows[id].attempts + 1];
    }
  }

  class QueueRows {
    const queue: Queue
    var rows: seq<Row>
    var held: map<nat, nat>

    ghost function Contents(): Table
      reads this
    {
      Table(queue, rows, held)
    }

    constructor (queue: Queue)
      ensures Contents() == Table(queue, [], map[])
    {
      this.queue := queue;
      rows, held := [], map[];
    }

    method EarliestExcept(smsOnly: bool, byDue: bool, locked: set<nat>, now: int, taken: seq<nat>)
      returns (best: Option<nat>)
      ensures best.None? ==> forall i: nat :: Selectable(queue, rows, smsOnly, locked, now, i) ==> i in taken
      ensures best.Some? ==> Selectable(queue, rows, smsOnly, locked, now, best.value) && best.value !in taken
      ensures best.Some? ==> forall i: nat :: Selectable(queue, rows, smsOnly, locked, now, i) && i !in taken ==>
                                           i == best.value || Ahead(byDue, rows, best.value, i)
    {
      best := None;
      for n := 0 to |rows|
        invariant best.None? ==>
                    forall i: nat :: i < n && Selectable(queue, rows, smsOnly, locked, now, i) ==> i in taken
        invariant best.Some? ==> Selectable(queue, rows, smsOnly, locked, now, best.value) && best.value !in taken
        invariant best.Some? ==> best.value < n
        invariant best.Some? ==>
                    forall i: nat :: i < n && Selectable(queue, rows, smsOnly, locked, now, i) && i !in taken ==>
                                               i == best.value || Ahead(byDue, rows, best.value, i)
      {
        if Selectable(queue, rows, smsOnly, locked, now, n) && n !in taken
           && (best.None? || Ahead(byDue, rows, n, best.value)) {
          best := Some(n);
        }
      }
    }

    method PickDue(limit: nat, smsOnly: bool, byDue: bool, locked: set<nat>, now: int) returns (ids: seq<nat>)
      ensures FirstInOrder(queue, rows, smsOnly, byDue, locked, now, ids, limit)
      ensures |ids| < limit ==> forall i: nat :: Selectable(queue, rows, smsOnly, locked, now, i) ==> i in ids
    {
      ids := [];
      while |ids| < limit
        invariant FirstInOrder(queue, rows, smsOnly, byDue, locked, now, ids, limit)
        decreases limit - |ids|
      {
        var best := EarliestExcept(smsOnly, byDue, locked, now, ids);
        if best.None? { return; }
        NextInOrder(queue, rows, smsOnly, byDue, locked, now, ids, best.value, limit);
        ids := ids + [best.value];
      }
    }

    method MarkClaimed(ids: seq<nat>, now: int)
      requires forall k :: 0 <= k < |ids| ==> ids[k] < |rows| && Claimable(queue, rows[ids[k]], now)
      requires forall j, k :: 0 <= j < k < |ids| ==> ids[j] != ids[k]
      modifies this
      ensures Contents() == Step(old(Contents()), Claim(Chosen(ids), now))
    {
      ghost var before := Contents();
      ghost var done: set<nat> := {};
      ClaimNone(before, now);
      for k := 0 to |ids|
        invariant done == Chosen(ids[..k])
        invariant Contents() == Step(before, Claim(done, now))
      {
        var id := ids[k];
        assert id !in done;
        ClaimOneMore(before, done, id, now);
        var r := rows[id];
        rows := rows[id := r.(status := InFlight, attempts := r.attempts + 1, lockedAt := now)];
        if queue == Webhooks { held := held[id := r.attempts + 1]; }
        done := done + {id};
      }
      assert ids[..|ids|] == ids;
    }

    method ClaimDue(limit: int, smsOnly: bool, byDue: bool, locked: set<nat>, now: int) returns (ids: seq<nat>)
      modifies this
      ensures FirstInOrder(queue, old(rows), smsOnly, byDue, locked, now, ids, SafeLimit(limit))
      ensures |ids| < SafeLimit(limit) ==>
                forall i: nat :: Selectable(queue, old(rows), smsOnly, locked, now, i) ==> i in ids
      ensures Contents() == Step(old(Contents()), Claim(Chosen(ids), now))
    {
      ids := PickDue(SafeLimit(limit), smsOnly, byDue, locked, now);
      assert forall j, k :: 0 <= j < k < |ids| ==> Ahead(byDue, rows, ids[j], ids[k]);
      MarkClaimed(ids, now);
    }

    method RecoverStale(now: int, minutes: int)
      modifies this`rows
      ensures Contents() == Step(old(Contents()), Recover(now, minutes))
    {
      if queue == Webhooks {
        assert Contents() == Step(Contents(), Recover(now, minutes));
        return;
      }
      ghost var before := Contents();
      for k := 0 to |rows|
        invariant |rows| == |before.rows|
        invariant forall i :: 0 <= i < |rows| ==>
          rows[i] == (if i < k then Touch(before, i, Recover(now, minutes)) else before.rows[i])
      {
        var r := rows[k];
        if r.status == InFlight && r.lockedAt < now - 60 * Clamp(minutes, 1, 1440) {
          if r.attempts >= BUDGET {
            rows := rows[k := r.(status := Failed, dueAt := if queue == DomainEvents then now else r.dueAt)];
          } else {
            rows := rows[k := r.(status := Waiting, dueAt := now)];
          }
        }
      }
    }

    method DeferSms(id: nat, now: int)
      requires queue == Notifications
      modifies this`rows
      ensures Contents() == Step(old(Contents()), Defer(id, now))
    {
      if id < |rows| && rows[id].status == InFlight {
        var r := rows[id];
        rows := rows[id := r.(status := Waiting, attempts := if r.attempts >= 1 then r.attempts - 1 else 0,
                              dueAt := now + 300)];
      }
    }

    // Unseen, the worker goes on as if the update had failed.
    method MarkDone(id: nat, seen: bool)
      modifies this
      ensures Contents() == Step(old(Contents()), if seen then Finish(id) else FinishUnseen(id))
    {
      if id < |rows| && (if queue == Webhooks then id in held else rows[id].status == InFlight) {
        rows := rows[id := rows[id].(status := Done)];
      }
      if seen { held := held - {id}; }
    }

    method MarkPermanentlyFailed(id: nat)
      requires queue == Notifications
      modifies this`rows
      ensures Contents() == Step(old(Contents()), Reject(id))
    {
      if id < |rows| && rows[id].status == InFlight { rows := rows[id := rows[id].(status := Failed)]; }
    }

    method MarkFailed(id: nat, now: int, delay: int)
      modifies this
      ensures Contents() == Step(old(Contents()), Fail(id, now, delay))
    {
      if id < |rows| {
        var r := rows[id];
        if queue == Webhooks {
          if id in held {
            rows := rows[id := r.(status := if held[id] >= BUDGET then Failed else Waiting,
                                  dueAt := now + Backoff(held[id]))];
          }
        } else if r.status == InFlight {
          if r.attempts >= BUDGET {
            rows := rows[id := r.(status := Failed, dueAt := if queue == DomainEvents then now + 60 else r.dueAt)];
          } else {
            rows := rows[id := r.(status := Waiting,
                                  dueAt := now + if queue == DomainEvents then 5 else Clamp(delay, 5, 86400))];
          }
        }
      }
      held := held - {id};
    }
  }
}
