// What stock movements, order lines, approvals and receipts store, in the terms of the requests: what is accepted, and
// where each figure of a movement comes from.
module StockRequests {
  import opened Common
  import opened Inventory
  import opened StockLaws

  // ---- Movements of the receive function ----

  // A movement written for an order line is the receipt of that line's item, at that line's cost, in the order's
  // currency.
  ghost predicate FollowsLine(s: Stock, m: Movement) {
    m.writer.OrderLine? ==>
      && m.item < |s.items| && m.refId.Some? && m.refId.value < |s.orders|
      && var o := s.orders[m.refId.value];
         && m.writer.line < |o.lines| && m.currency == o.currency
         && m.cost == o.lines[m.writer.line].cost && s.items[m.item].sku == o.lines[m.writer.line].code
         && m.kind == Receipt && m.delta > 0.0 && m.refType == "PURCHASE_ORDER"
  }

  // Items keep their code, orders their currency and lines their item, quantity, cost and tax rate.
  ghost predicate Keeps(s: Stock, t: Stock) {
    && |s.items| <= |t.items| && (forall i :: 0 <= i < |s.items| ==> t.items[i].sku == s.items[i].sku)
    && |s.orders| <= |t.orders| && (forall o :: 0 <= o < |s.orders| ==> SameOrder(s.orders[o], t.orders[o]))
  }

  ghost predicate SameOrder(o: Order, p: Order) {
    && o.currency == p.currency && |o.lines| <= |p.lines|
    && (forall l :: 0 <= l < |o.lines| ==> p.lines[l].(received := o.lines[l].received) == o.lines[l])
  }

  lemma DeliveryKeeps(s: Stock, o: nat, d: ReceiveInput)
    ensures Keeps(s, Receive(s, o, d).0)
  {
    var (t, r) := Receive(s, o, d);
    if r.Ok? && !r.value.duplicate { assert |t.orders[o].lines| == |s.orders[o].lines|; }
  }

  lemma StepKeepsLines(s: Stock, op: Op)
    ensures Keeps(s, Step(s, op))
  {
    match op
    case Deliver(o, d) => DeliveryKeeps(s, o, d);
    case _ =>
  }

  lemma StillFollows(s: Stock, t: Stock, m: Movement)
    requires Keeps(s, t) && FollowsLine(s, m)
    ensures FollowsLine(t, m)
  {
    if m.writer.OrderLine? {
      var o, l := m.refId.value, m.writer.line;
      assert SameOrder(s.orders[o], t.orders[o]);
      assert t.orders[o].lines[l].(received := s.orders[o].lines[l].received) == s.orders[o].lines[l];
    }
  }

  // The movement of an accepted delivery, if it writes one.
  lemma DeliveryFollows(s: Stock, o: nat, d: ReceiveInput)
    requires |Receive(s, o, d).0.moves| > |s.moves|
    ensures var t := Receive(s, o, d).0; t.moves[..|s.moves|] == s.moves && |t.moves| == |s.moves| + 1
    ensures FollowsLine(s, Receive(s, o, d).0.moves[|s.moves|])
  {
  }

  lemma PostedIsManual(s: Stock, i: nat, d: MovementInput)
    requires |PostMovement(s, i, d).0.moves| > |s.moves|
    ensures var t := PostMovement(s, i, d).0; t.moves[..|s.moves|] == s.moves && |t.moves| == |s.moves| + 1
    ensures PostMovement(s, i, d).0.moves[|s.moves|].writer == Manual
  {
  }

  ghost predicate AllFollow(s: Stock) { forall k :: 0 <= k < |s.moves| ==> FollowsLine(s, s.moves[k]) }

  // A step writes at most one movement, and one that follows its line.
  lemma StepAppends(s: Stock, op: Op)
    ensures var t := Step(s, op);
      && |s.moves| <= |t.moves| <= |s.moves| + 1 && t.moves[..|s.moves|] == s.moves
      && (|t.moves| > |s.moves| ==> FollowsLine(s, t.moves[|s.moves|]))
  {
    var t := Step(s, op);
    match op
    case Post(i, d) => if |t.moves| > |s.moves| { PostedIsManual(s, i, d); }
    case Deliver(o, d) => if |t.moves| > |s.moves| { DeliveryFollows(s, o, d); }
    case _ =>
  }

  lemma StepFollows(s: Stock, op: Op)
    requires AllFollow(s)
    ensures AllFollow(Step(s, op))
  {
    var t := Step(s, op);
    StepKeepsLines(s, op);
    StepAppends(s, op);
    forall k | 0 <= k < |t.moves| ensures FollowsLine(t, t.moves[k]) {
      if k < |s.moves| { assert t.moves[k] == s.moves[k]; }
      StillFollows(s, t, t.moves[k]);
    }
  }

  // In every run each movement of the receive function has the cost of its order line, the currency of its order and
  // the item of its line.
  lemma {:induction false} ReceiptsCostTheirLine(ops: seq<Op>)
    ensures AllFollow(Run(EMPTY, ops))
  {
    if ops != [] {
      ReceiptsCostTheirLine(ops[..|ops| - 1]);
      StepFollows(Run(EMPTY, ops[..|ops| - 1]), ops[|ops| - 1]);
    }
  }

  // ---- Requests ----

  ghost predicate KeyFree(s: Stock, key: string) { forall k :: 0 <= k < |s.moves| ==> s.moves[k].key != key }

  // Receipts and returns bring stock in, issues take it out, an adjustment does either.
  predicate SignFits(d: MovementInput) {
    match d.kind
    case Receipt => d.delta > 0.0
    case Return => d.delta > 0.0
    case Issue => d.delta < 0.0
    case Adjustment => d.delta != 0.0
  }

  predicate Incoming(d: MovementInput) { d.kind == Receipt || d.kind == Return }

  predicate ValuedElsewhere(i: Item, currency: string) { i.currency != None && i.currency != Some(currency) }

  // A movement under a new key is accepted exactly if its sign fits its kind, its cost is not negative, the item is
  // active and valued in no other currency, and it does not take out more than there is; each failure has its error.
  // It is stored as requested: incoming stock at the cost given, everything else at the item's average, which it
  // leaves as it was. No other item and no order is touched.
  lemma MovementIsAsRequested(s: Stock, i: nat, d: MovementInput)
    requires KeyFree(s, d.key)
    ensures var (t, r) := PostMovement(s, i, d);
      && (r == Err(BadRequest) <==> !(SignFits(d) && d.unitCost >= 0.0))
      && (r == Err(NotFound) <==> r != Err(BadRequest) && !(i < |s.items| && s.items[i].active))
      && (r == Err(Conflict) <==> r != Err(BadRequest) && r != Err(NotFound)
                                  && (s.items[i].onHand + d.delta < 0.0 || ValuedElsewhere(s.items[i], d.currency)))
      && (r.Err? ==> t == s)
      && (r.Ok? ==>
            && r.value == Posted(false, |s.moves|) && t.orders == s.orders
            && t.moves == s.moves + [Movement(i, d.kind, d.delta,
                                              if Incoming(d) then d.unitCost else s.items[i].average,
                                              d.currency, d.refType, d.refId, d.key, Manual)]
            && |t.items| == |s.items| && (forall k :: 0 <= k < |s.items| && k != i ==> t.items[k] == s.items[k])
            && t.items[i].onHand == s.items[i].onHand + d.delta && t.items[i].currency == Some(d.currency)
            && (!Incoming(d) ==> t.items[i].average == s.items[i].average)
            && t.items[i].sku == s.items[i].sku && t.items[i].active)
  {
    if FindKey(s.moves, d.key).Some? { assert false; }
  }

  // A request under a known key changes nothing. It is answered exactly if the row is the same movement; the cost of an
  // issue or an adjustment does not count.
  lemma RepeatedMovementIsCompared(s: Stock, i: nat, d: MovementInput, k: nat)
    requires k < |s.moves| && s.moves[k].key == d.key
    requires forall j :: 0 <= j < |s.moves| && j != k ==> s.moves[j].key != d.key
    ensures var m := s.moves[k];
      PostMovement(s, i, d) ==
        (s, if !(SignFits(d) && d.unitCost >= 0.0) then Err(BadRequest)
            else if && m.item == i && m.delta == d.delta && m.kind == d.kind && m.currency == d.currency
               && m.refType == d.refType && m.refId == d.refId && (Incoming(d) ==> m.cost == d.unitCost)
            then Ok(Posted(true, k)) else Err(Conflict))
  {
    assert FindKey(s.moves, d.key) == Some(k);
  }

  // The active item of a line's code.
  predicate IsItemOf(s: Stock, i: nat, code: string) { i < |s.items| && s.items[i].sku == code && s.items[i].active }

  predicate Receivable(s: Stock, o: nat) {
    o < |s.orders| && (s.orders[o].status == Approved || s.orders[o].status == PartiallyReceived)
  }

  predicate Lacks(l: Line, quantity: real) { l.received + quantity <= l.ordered }

  // A receipt under a new key is accepted exactly for a positive quantity within what a line of an approved order still
  // lacks, of a known item valued in no other currency; each failure has its error.
  lemma ReceiptIsAsRequested(s: Stock, o: nat, d: ReceiveInput)
    requires KeyFree(s, d.key) && forall i, j :: 0 <= i < j < |s.items| ==> s.items[i].sku != s.items[j].sku
    ensures var (t, r) := Receive(s, o, d);
      && (r == Err(BadRequest) <==> d.quantity <= 0.0)
      && (r.Ok? ==> Receivable(s, o) && d.line < |s.orders[o].lines|)
      && (r == Err(NotFound) <==>
            && d.quantity > 0.0
            && (o >= |s.orders|
                || (Receivable(s, o)
                    && (d.line >= |s.orders[o].lines|
                        || (Lacks(s.orders[o].lines[d.line], d.quantity)
                            && !exists i: nat :: IsItemOf(s, i, s.orders[o].lines[d.line].code))))))
      && (r == Err(Conflict) <==>
            && d.quantity > 0.0 && o < |s.orders|
            && (!Receivable(s, o)
                || (d.line < |s.orders[o].lines|
                    && (!Lacks(s.orders[o].lines[d.line], d.quantity)
                        || exists i: nat :: IsItemOf(s, i, s.orders[o].lines[d.line].code)
                                            && ValuedElsewhere(s.items[i], s.orders[o].currency)))))
      && (r.Err? ==> t == s)
      && (r.Ok? ==>
            && r.value == Posted(false, |s.moves|) && |t.moves| == |s.moves| + 1 && t.moves[..|s.moves|] == s.moves
            && t.moves[|s.moves|].delta == d.quantity && t.moves[|s.moves|].key == d.key
            && t.moves[|s.moves|].refId == Some(o) && t.moves[|s.moves|].writer == OrderLine(d.line)
            && |t.orders| == |s.orders| && (forall p :: 0 <= p < |s.orders| && p != o ==> t.orders[p] == s.orders[p])
            && t.orders[o].lines == s.orders[o].lines[d.line := t.orders[o].lines[d.line]]
            && t.orders[o].lines[d.line].received == s.orders[o].lines[d.line].received + d.quantity
            && t.items == s.items[t.moves[|s.moves|].item := t.items[t.moves[|s.moves|].item]]
            && t.items[t.moves[|s.moves|].item].onHand == s.items[t.moves[|s.moves|].item].onHand + d.quantity)
  {
    if FindKey(s.moves, d.key).Some? { assert false; }
    if o < |s.orders| && d.line < |s.orders[o].lines| {
      var found := FindSku(s.items, s.orders[o].lines[d.line].code);
      if found.Some? { assert IsItemOf(s, found.value, s.orders[o].lines[d.line].code); }
    }
  }

  // A new line is accepted exactly on a DRAFT order with sensible figures, and raises the order's totals by its net,
  // its tax and both.
  lemma LineIsAsRequested(s: Stock, o: nat, d: LineInput)
    requires o < |s.orders| ==> TotalsOk(s.orders[o])
    ensures var (t, r) := AddLine(s, o, d);
      && (r == Err(NotFound) <==> o >= |s.orders|)
      && (r == Err(Conflict) <==> o < |s.orders| && s.orders[o].status != Draft)
      && (r == Err(BadRequest) <==> o < |s.orders| && s.orders[o].status == Draft
                                    && !(d.ordered > 0.0 && d.cost >= 0.0 && 0.0 <= d.taxRate <= 100.0))
      && (r.Err? ==> t == s)
      && (r.Ok? ==>
            && r.value == |s.orders[o].lines| && t.moves == s.moves && t.items == s.items
            && |t.orders| == |s.orders| && (forall p :: 0 <= p < |s.orders| && p != o ==> t.orders[p] == s.orders[p])
            && t.orders[o].lines == s.orders[o].lines + [Line(d.code, d.ordered, 0.0, d.cost, d.taxRate)]
            && t.orders[o].status == Draft && t.orders[o].currency == s.orders[o].currency
            && t.orders[o].subtotal == s.orders[o].subtotal + d.ordered * d.cost
            && t.orders[o].taxTotal == s.orders[o].taxTotal + d.ordered * d.cost * d.taxRate / 100.0
            && t.orders[o].total == t.orders[o].subtotal + t.orders[o].taxTotal)
  {
    var (t, r) := AddLine(s, o, d);
    if r.Ok? {
      var line := Line(d.code, d.ordered, 0.0, d.cost, d.taxRate);
      SumAppend(s.orders[o].lines, line, NetOf());
      SumAppend(s.orders[o].lines, line, TaxOf());
      TotalIsNetPlusTax(t.orders[o]);
    }
  }

  // Approval is asked for a DRAFT order with lines and a positive total, and granted to one it was asked for; neither
  // changes anything but the status.
  lemma ApprovalIsAsRequested(s: Stock, o: nat)
    ensures var (t, r) := RequestApproval(s, o);
      && r == (if o < |s.orders| && s.orders[o].status == Draft && s.orders[o].lines != [] && s.orders[o].total > 0.0
               then Ok(PendingApproval) else Err(Conflict))
      && t == if r.Ok? then s.(orders := s.orders[o := s.orders[o].(status := PendingApproval)]) else s
    ensures var (t, r) := Approve(s, o);
      && r == (if o < |s.orders| && s.orders[o].status == PendingApproval then Ok(Approved) else Err(Conflict))
      && t == if r.Ok? then s.(orders := s.orders[o := s.orders[o].(status := Approved)]) else s
  {
  }

  // A new item or order starts empty.
  lemma NewRowsAreEmpty(s: Stock, sku: string, currency: string)
    ensures var (t, r) := CreateItem(s, sku);
      && r == (if forall i :: 0 <= i < |s.items| ==> s.items[i].sku != sku then Ok(|s.items|) else Err(Conflict))
      && (r.Err? ==> t == s)
      && (r.Ok? ==> t == s.(items := s.items + [Item(sku, true, 0.0, 0.0, None)]))
    ensures CreateOrder(s, currency) == s.(orders := s.orders + [Order(currency, Draft, [], 0.0, 0.0, 0.0)])
  {
  }

  // ---- Nothing is received without an approval ----

  ghost predicate Asked(ops: seq<Op>, o: nat) { exists n :: 0 <= n < |ops| && ops[n] == Submit(o) }

  // The run asked for the order's approval and then granted it.
  ghost predicate Granted(ops: seq<Op>, o: nat) {
    exists n :: 0 <= n < |ops| && ops[n] == Confirm(o) && Asked(ops[..n], o)
  }

  lemma AskedMore(ops: seq<Op>, op: Op, o: nat)
    ensures Asked(ops + [op], o) <==> Asked(ops, o) || op == Submit(o)
  {
    var more := ops + [op];
    assert more[|ops|] == op;
    if Asked(ops, o) {
      var n :| 0 <= n < |ops| && ops[n] == Submit(o);
      assert more[n] == Submit(o);
    }
  }

  lemma GrantedMore(ops: seq<Op>, op: Op, o: nat)
    ensures Granted(ops, o) || (op == Confirm(o) && Asked(ops, o)) ==> Granted(ops + [op], o)
  {
    var more := ops + [op];
    if Granted(ops, o) {
      var n :| 0 <= n < |ops| && ops[n] == Confirm(o) && Asked(ops[..n], o);
      assert more[..n] == ops[..n] && more[n] == ops[n];
    } else if op == Confirm(o) && Asked(ops, o) {
      assert more[..|ops|] == ops && more[|ops|] == op;
    }
  }

  // An order past DRAFT was submitted, and one past PENDING_APPROVAL was approved after that.
  ghost predicate Cleared(ops: seq<Op>, status: OrderStatus, o: nat) {
    && (status != Draft ==> Asked(ops, o))
    && (status in {Approved, PartiallyReceived, Received} ==> Granted(ops, o))
  }

  // How a status may move in one step.
  predicate Moves(a: OrderStatus, b: OrderStatus, op: Op, o: nat) {
    || a == b || (a == Draft && b == PendingApproval && op == Submit(o))
    || (a == PendingApproval && b == Approved && op == Confirm(o))
    || (a in {Approved, PartiallyReceived} && b in {PartiallyReceived, Received} && op.Deliver? && op.order == o)
  }

  lemma StatusMoves(s: Stock, op: Op, o: nat)
    requires o < |s.orders|
    ensures o < |Step(s, op).orders| && Moves(s.orders[o].status, Step(s, op).orders[o].status, op, o)
  {
    match op
    case Post(i, d) => assert PostMovement(s, i, d).0.orders == s.orders;
    case Deliver(p, d) => DeliverAdvances(s, p, d, o);
    case _ =>
  }

  lemma MovesKeepCleared(ops: seq<Op>, op: Op, a: OrderStatus, b: OrderStatus, o: nat)
    requires Cleared(ops, a, o) && Moves(a, b, op, o)
    ensures Cleared(ops + [op], b, o)
  {
    AskedMore(ops, op, o);
    GrantedMore(ops, op, o);
  }

  lemma NewOrderIsDraft(s: Stock, op: Op, o: nat)
    requires |s.orders| <= o < |Step(s, op).orders|
    ensures Step(s, op).orders[o].status == Draft
  {
  }

  // In every run nothing is received on an order before its approval was asked for and then granted.
  lemma {:induction false} ReceiptsNeedApproval(ops: seq<Op>, o: nat)
    requires o < |Run(EMPTY, ops).orders|
    ensures Cleared(ops, Run(EMPTY, ops).orders[o].status, o)
  {
    if ops != [] {
      var front, op := ops[..|ops| - 1], ops[|ops| - 1];
      var before := Run(EMPTY, front);
      assert ops == front + [op];
      if o < |before.orders| {
        ReceiptsNeedApproval(front, o);
        StatusMoves(before, op, o);
        MovesKeepCleared(front, op, before.orders[o].status, Run(EMPTY, ops).orders[o].status, o);
      } else {
        NewOrderIsDraft(before, op, o);
      }
    }
  }

  // In every run an order on which something has been received is RECEIVED exactly when no line lacks anything, and
  // nothing has been received on any other order.
  lemma ReceivedIsFull(ops: seq<Op>, o: nat)
    requires o < |Run(EMPTY, ops).orders|
    ensures var order := Run(EMPTY, ops).orders[o];
      && (order.status in {PartiallyReceived, Received} <==>
            exists l :: 0 <= l < |order.lines| && order.lines[l].received > 0.0)
      && (order.status == Received ==>
            forall l :: 0 <= l < |order.lines| ==> order.lines[l].received == order.lines[l].ordered)
      && (order.status == PartiallyReceived ==>
            exists l :: 0 <= l < |order.lines| && order.lines[l].received < order.lines[l].ordered)
  {
    OrdersFollowDeliveries(ops, o);
  }
}
