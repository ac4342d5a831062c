// What every run over the stock tables keeps: quantities and values follow the movement log,
// and purchase orders only move forward.
module StockLaws {
  import opened Common
  import opened Inventory

  datatype Op =
    | AddItem(sku: string)
    | Post(item: nat, movement: MovementInput)
    | OpenOrder(currency: string)
    | AddOrderLine(order: nat, line: LineInput)
    | Submit(order: nat)
    | Confirm(order: nat)
    | Deliver(order: nat, delivery: ReceiveInput)

  function Step(s: Stock, op: Op): Stock {
    match op
    case AddItem(sku) => CreateItem(s, sku).0
    case Post(i, d) => PostMovement(s, i, d).0
    case OpenOrder(c) => CreateOrder(s, c)
    case AddOrderLine(o, d) => AddLine(s, o, d).0
    case Submit(o) => RequestApproval(s, o).0
    case Confirm(o) => Approve(s, o).0
    case Deliver(o, d) => Receive(s, o, d).0
  }

  ghost function Run(s: Stock, ops: seq<Op>): Stock {
    if ops == [] then s else Step(Run(s, ops[..|ops| - 1]), ops[|ops| - 1])
  }

  const EMPTY := Stock([], [], [])

  // ---- Valuation ----

  function DeltaOf(i: nat): Movement -> real { (m: Movement) => if m.item == i then m.delta else 0.0 }
  function ValueOf(i: nat): Movement -> real { (m: Movement) => if m.item == i then m.delta * m.cost else 0.0 }

  // Some receipt or return of item i was at least this dear.
  ghost predicate Reached(moves: seq<Movement>, i: nat, cost: real) {
    exists k :: 0 <= k < |moves| && moves[k].item == i && Inbound(moves[k].kind) && cost <= moves[k].cost
  }

  ghost predicate ItemFollowsLog(s: Stock, i: nat)
    requires i < |s.items|
  {
    var it := s.items[i];
    && it.onHand >= 0.0
    && it.onHand == SumBy(s.moves, DeltaOf(i))
    && it.onHand * it.average == SumBy(s.moves, ValueOf(i))
    && (it.average == 0.0 || (it.average > 0.0 && Reached(s.moves, i, it.average)))
    && (forall k :: 0 <= k < |s.moves| && s.moves[k].item == i ==> it.currency == Some(s.moves[k].currency))
  }

  ghost predicate LogOk(s: Stock) {
    && (forall i :: 0 <= i < |s.items| ==> ItemFollowsLog(s, i))
    && (forall i, j :: 0 <= i < j < |s.items| ==> s.items[i].sku != s.items[j].sku)
    && (forall k :: 0 <= k < |s.moves| ==> s.moves[k].item < |s.items|)
    && (forall j, k :: 0 <= j < k < |s.moves| ==> s.moves[j].key != s.moves[k].key)
  }

  lemma Cancel(n: real, x: real, y: real)
    requires n > 0.0 && n * x <= n * y
    ensures x <= y
  {
  }

  lemma Scale(n: real, x: real, y: real)
    requires n >= 0.0 && x <= y
    ensures n * x <= n * y
  {
  }

  lemma BlendIsBetween(onHand: real, average: real, delta: real, cost: real)
    requires onHand >= 0.0 && delta > 0.0 && average >= 0.0 && cost >= 0.0
    ensures var b := Blend(onHand, average, delta, cost);
      && (onHand + delta) * b == onHand * average + delta * cost
      && 0.0 <= b && (b <= cost || b <= average)
  {
    var n := onHand + delta;
    var b := Blend(onHand, average, delta, cost);
    var most := if cost <= average then average else cost;
    assert n * b == onHand * average + delta * cost;
    Scale(onHand, 0.0, average);
    Scale(delta, 0.0, cost);
    Cancel(n, 0.0, b);
    Scale(onHand, average, most);
    Scale(delta, cost, most);
    assert n * most == onHand * most + delta * most;
    Cancel(n, b, most);
  }

  // Replacing item m.item by `next` and appending m keeps the log, when `next` accounts for m.
  ghost predicate Accounts(it: Item, next: Item, m: Movement) {
    && next == it.(onHand := it.onHand + m.delta, average := next.average, currency := Some(m.currency))
    && (it.currency.Some? ==> it.currency.value == m.currency)
    && next.onHand >= 0.0
    && next.onHand * next.average == it.onHand * it.average + m.delta * m.cost
    && next.average >= 0.0
    && (next.average <= it.average || (Inbound(m.kind) && next.average <= m.cost))
  }

  ghost predicate Extends(s: Stock, t: Stock, m: Movement) {
    && m.item < |s.items| == |t.items|
    && t.moves == s.moves + [m]
    && t.items == s.items[m.item := t.items[m.item]]
    && Accounts(s.items[m.item], t.items[m.item], m)
    && (forall k :: 0 <= k < |s.moves| ==> s.moves[k].key != m.key)
  }

  lemma ReachedMonotone(moves: seq<Movement>, m: Movement, i: nat, high: real, low: real)
    requires Reached(moves, i, high) && low <= high
    ensures Reached(moves + [m], i, low)
  {
    var k :| 0 <= k < |moves| && moves[k].item == i && Inbound(moves[k].kind) && high <= moves[k].cost;
    assert (moves + [m])[k] == moves[k];
  }

  lemma ExtendKeepsSums(s: Stock, t: Stock, m: Movement, i: nat)
    requires Extends(s, t, m) && i < |s.items| && ItemFollowsLog(s, i)
    ensures t.items[i].onHand == SumBy(t.moves, DeltaOf(i))
    ensures t.items[i].onHand * t.items[i].average == SumBy(t.moves, ValueOf(i))
  {
    SumAppend(s.moves, m, DeltaOf(i));
    SumAppend(s.moves, m, ValueOf(i));
  }

  lemma ExtendKeepsReach(s: Stock, t: Stock, m: Movement, i: nat)
    requires Extends(s, t, m) && i < |s.items| && ItemFollowsLog(s, i)
    ensures t.items[i].average == 0.0 || (t.items[i].average > 0.0 && Reached(t.moves, i, t.items[i].average))
  {
    var low, high := t.items[i].average, s.items[i].average;
    if low > 0.0 {
      if low <= high {
        ReachedMonotone(s.moves, m, i, high, low);
      } else {
        assert t.moves[|s.moves|] == m;
        assert Reached(t.moves, i, low);
      }
    }
  }

  lemma ExtendKeepsItem(s: Stock, t: Stock, m: Movement, i: nat)
    requires Extends(s, t, m) && i < |s.items| && ItemFollowsLog(s, i)
    ensures ItemFollowsLog(t, i)
  {
    ExtendKeepsSums(s, t, m, i);
    ExtendKeepsReach(s, t, m, i);
  }

  lemma ExtendKeepsLog(s: Stock, t: Stock, m: Movement)
    requires LogOk(s) && Extends(s, t, m)
    ensures LogOk(t)
  {
    forall i | 0 <= i < |t.items| ensures ItemFollowsLog(t, i) {
      assert ItemFollowsLog(s, i);
      ExtendKeepsItem(s, t, m, i);
    }
  }

  // What the two posting functions guarantee of the movement they record.
  ghost predicate Recordable(s: Stock, m: Movement) {
    && m.item < |s.items|
    && (forall k :: 0 <= k < |s.moves| ==> s.moves[k].key != m.key)
    && (s.items[m.item].currency.Some? ==> s.items[m.item].currency.value == m.currency)
    && s.items[m.item].onHand + m.delta >= 0.0
    && if m.delta > 0.0 && m.kind != Adjustment then Inbound(m.kind) && m.cost >= 0.0
       else m.cost == s.items[m.item].average
  }

  lemma RecordExtends(s: Stock, m: Movement)
    requires LogOk(s) && Recordable(s, m)
    ensures Extends(s, Record(s, m), m)
  {
    var it := s.items[m.item];
    assert ItemFollowsLog(s, m.item);
    if m.delta > 0.0 && m.kind != Adjustment {
      BlendIsBetween(it.onHand, it.average, m.delta, m.cost);
    } else {
      assert (it.onHand + m.delta) * it.average == it.onHand * it.average + m.delta * it.average;
    }
  }

  lemma CreateItemKeepsLog(s: Stock, sku: string)
    requires LogOk(s)
    ensures LogOk(CreateItem(s, sku).0)
  {
    var t := CreateItem(s, sku).0;
    forall i | 0 <= i < |t.items| ensures ItemFollowsLog(t, i) {
      if i < |s.items| {
        assert ItemFollowsLog(s, i);
      } else {
        SumZero(s.moves, DeltaOf(i));
        SumZero(s.moves, ValueOf(i));
      }
    }
  }

  // ---- Purchase orders ----

  function ReceiptsFor(o: nat, l: nat): Movement -> real {
    (m: Movement) => if m.writer == OrderLine(l) && m.refId == Some(o) then m.delta else 0.0
  }
  function ReceiptsOf(o: nat): Movement -> real {
    (m: Movement) => if m.writer.OrderLine? && m.refId == Some(o) then m.delta else 0.0
  }
  function ReceivedOf(): Line -> real { (l: Line) => l.received }

  ghost predicate NothingReceived(o: Order) { forall l :: 0 <= l < |o.lines| ==> o.lines[l].received == 0.0 }

  ghost predicate LinesOk(order: Order) {
    forall l :: 0 <= l < |order.lines| ==>
      && 0.0 <= order.lines[l].received <= order.lines[l].ordered && 0.0 < order.lines[l].ordered
      && order.lines[l].cost >= 0.0
  }

  ghost predicate TotalsOk(order: Order) {
    && order.subtotal == SumBy(order.lines, NetOf())
    && order.taxTotal == SumBy(order.lines, TaxOf())
    && order.total == SumBy(order.lines, GrossOf())
  }

  ghost predicate StatusOk(order: Order) {
    && (order.status != Draft ==> order.lines != [] && order.total > 0.0)
    && (order.status == Received <==> order.status != Draft && FullyReceived(order.lines))
    && (order.status in {Draft, PendingApproval, Approved} ==> NothingReceived(order))
    && (order.status == PartiallyReceived ==> !NothingReceived(order))
  }

  ghost predicate ReceiptsOk(moves: seq<Movement>, o: nat, lines: seq<Line>) {
    && (forall l :: 0 <= l < |lines| ==> lines[l].received == SumBy(moves, ReceiptsFor(o, l)))
    && SumBy(lines, ReceivedOf()) == SumBy(moves, ReceiptsOf(o))
  }

  ghost predicate OrderOk(s: Stock, o: nat)
    requires o < |s.orders|
  {
    && LinesOk(s.orders[o]) && TotalsOk(s.orders[o]) && StatusOk(s.orders[o])
    && ReceiptsOk(s.moves, o, s.orders[o].lines)
  }

  ghost predicate OrdersOk(s: Stock) {
    && (forall o :: 0 <= o < |s.orders| ==> OrderOk(s, o))
    && (forall k :: 0 <= k < |s.moves| && s.moves[k].writer.OrderLine? ==>
          s.moves[k].refId.Some? && s.moves[k].refId.value < |s.orders|
          && s.moves[k].writer.line < |s.orders[s.moves[k].refId.value].lines|)
  }

  ghost predicate StockOk(s: Stock) { LogOk(s) && OrdersOk(s) }

  // A movement not written for order o leaves its receipts alone.
  lemma OtherMovement(moves: seq<Movement>, m: Movement, o: nat, lines: seq<Line>)
    requires ReceiptsOk(moves, o, lines) && (m.writer == Manual || m.refId != Some(o))
    ensures ReceiptsOk(moves + [m], o, lines)
  {
    SumAppend(moves, m, ReceiptsOf(o));
    forall l | 0 <= l < |lines| ensures SumBy(moves + [m], ReceiptsFor(o, l)) == SumBy(moves, ReceiptsFor(o, l)) {
      SumAppend(moves, m, ReceiptsFor(o, l));
    }
  }

  lemma PostKeeps(s: Stock, i: nat, d: MovementInput)
    requires StockOk(s)
    ensures StockOk(PostMovement(s, i, d).0)
  {
    var (t, r) := PostMovement(s, i, d);
    if r.Ok? && !r.value.duplicate {
      var m := t.moves[|s.moves|];
      assert t == Record(s, m) && Recordable(s, m);
      RecordExtends(s, m);
      ExtendKeepsLog(s, t, m);
      forall o | 0 <= o < |t.orders| ensures OrderOk(t, o) {
        assert OrderOk(s, o);
        OtherMovement(s.moves, m, o, s.orders[o].lines);
      }
    }
  }

  lemma SameLog(s: Stock, t: Stock)
    requires LogOk(s) && t.items == s.items && t.moves == s.moves
    ensures LogOk(t)
  {
    forall i | 0 <= i < |t.items| ensures ItemFollowsLog(t, i) { assert ItemFollowsLog(s, i); }
  }

  lemma NewLineKeeps(moves: seq<Movement>, o: nat, order: Order, next: Order, line: Line)
    requires order.status == next.status == Draft && next.lines == order.lines + [line]
    requires LinesOk(order) && StatusOk(order) && ReceiptsOk(moves, o, order.lines)
    requires line.received == 0.0 && line.ordered > 0.0 && line.cost >= 0.0
    requires forall k :: 0 <= k < |moves| ==> ReceiptsFor(o, |order.lines|)(moves[k]) == 0.0
    ensures LinesOk(next) && StatusOk(next) && ReceiptsOk(moves, o, next.lines)
  {
    SumAppend(order.lines, line, ReceivedOf());
    SumZero(moves, ReceiptsFor(o, |order.lines|));
  }

  lemma AddLineKeeps(s: Stock, o: nat, d: LineInput)
    requires StockOk(s)
    ensures StockOk(AddLine(s, o, d).0)
  {
    var (t, r) := AddLine(s, o, d);
    if r.Ok? {
      SameLog(s, t);
      forall p | 0 <= p < |t.orders| ensures OrderOk(t, p) {
        assert OrderOk(s, p);
        if p == o {
          NewLineKeeps(s.moves, o, s.orders[o], t.orders[o], Line(d.code, d.ordered, 0.0, d.cost, d.taxRate));
        }
      }
    }
  }

  lemma ReceiptKeepsTotals(order: Order, l: nat, quantity: real)
    requires l < |order.lines| && TotalsOk(order)
    ensures TotalsOk(ReceivedOrder(order, l, quantity))
  {
    var line := order.lines[l].(received := order.lines[l].received + quantity);
    SameSum(order.lines, l, line, NetOf());
    SameSum(order.lines, l, line, TaxOf());
    SameSum(order.lines, l, line, GrossOf());
  }

  lemma SameSum(lines: seq<Line>, l: nat, line: Line, f: Line -> real)
    requires l < |lines| && f(line) == f(lines[l])
    ensures SumBy(lines[l := line], f) == SumBy(lines, f)
  {
    SumUpdate(lines, l, line, f);
  }

  lemma ReceiptKeepsLines(order: Order, l: nat, quantity: real)
    requires l < |order.lines| && LinesOk(order) && StatusOk(order) && order.status != Draft
    requires 0.0 < quantity <= order.lines[l].ordered - order.lines[l].received
    ensures LinesOk(ReceivedOrder(order, l, quantity)) && StatusOk(ReceivedOrder(order, l, quantity))
  {
    assert ReceivedOrder(order, l, quantity).lines[l].received > 0.0;
  }

  lemma ReceiptIsRecorded(moves: seq<Movement>, m: Movement, o: nat, lines: seq<Line>, l: nat, line: Line)
    requires ReceiptsOk(moves, o, lines) && l < |lines|
    requires m.writer == OrderLine(l) && m.refId == Some(o) && line.received == lines[l].received + m.delta
    ensures ReceiptsOk(moves + [m], o, lines[l := line])
  {
    SumAppend(moves, m, ReceiptsOf(o));
    SumUpdate(lines, l, line, ReceivedOf());
    forall k | 0 <= k < |lines|
      ensures SumBy(moves + [m], ReceiptsFor(o, k)) ==
              SumBy(moves, ReceiptsFor(o, k)) + (if k == l then m.delta else 0.0)
    {
      SumAppend(moves, m, ReceiptsFor(o, k));
    }
  }

  lemma ReceiveKeepsLog(s: Stock, o: nat, d: ReceiveInput)
    requires StockOk(s)
    ensures LogOk(Receive(s, o, d).0)
  {
    var (t, r) := Receive(s, o, d);
    if r.Ok? && !r.value.duplicate {
      var m := t.moves[|s.moves|];
      var u := Record(s, m);
      assert OrderOk(s, o) && ItemFollowsLog(s, m.item);
      assert Recordable(s, m);
      RecordExtends(s, m);
      ExtendKeepsLog(s, u, m);
      SameLog(u, t);
    }
  }

  lemma ReceiveKeeps(s: Stock, o: nat, d: ReceiveInput)
    requires StockOk(s)
    ensures StockOk(Receive(s, o, d).0)
  {
    var (t, r) := Receive(s, o, d);
    ReceiveKeepsLog(s, o, d);
    if r.Ok? && !r.value.duplicate {
      var m := t.moves[|s.moves|];
      forall p | 0 <= p < |t.orders| ensures OrderOk(t, p) {
        assert OrderOk(s, p);
        if p == o {
          var line := s.orders[o].lines[d.line];
          ReceiptKeepsTotals(s.orders[o], d.line, d.quantity);
          ReceiptKeepsLines(s.orders[o], d.line, d.quantity);
          ReceiptIsRecorded(s.moves, m, o, s.orders[o].lines, d.line, line.(received := line.received + d.quantity));
        } else {
          OtherMovement(s.moves, m, p, s.orders[p].lines);
        }
      }
    }
  }

  lemma SubmitKeeps(s: Stock, o: nat)
    requires StockOk(s)
    ensures StockOk(RequestApproval(s, o).0)
  {
    var t := RequestApproval(s, o).0;
    SameLog(s, t);
    forall p | 0 <= p < |t.orders| ensures OrderOk(t, p) {
      assert OrderOk(s, p);
      if p == o && t != s { assert t.orders[o].lines[0].received < t.orders[o].lines[0].ordered; }
    }
  }

  lemma ApproveKeeps(s: Stock, o: nat)
    requires StockOk(s)
    ensures StockOk(Approve(s, o).0)
  {
    var t := Approve(s, o).0;
    SameLog(s, t);
    forall p | 0 <= p < |t.orders| ensures OrderOk(t, p) { assert OrderOk(s, p); }
  }

  lemma OpenOrderKeeps(s: Stock, currency: string)
    requires StockOk(s)
    ensures StockOk(CreateOrder(s, currency))
  {
    var t := CreateOrder(s, currency);
    SameLog(s, t);
    forall p | 0 <= p < |t.orders| ensures OrderOk(t, p) {
      if p < |s.orders| { assert OrderOk(s, p); } else { SumZero(s.moves, ReceiptsOf(p)); }
    }
  }

  lemma AddItemKeeps(s: Stock, sku: string)
    requires StockOk(s)
    ensures StockOk(CreateItem(s, sku).0)
  {
    var t := CreateItem(s, sku).0;
    CreateItemKeepsLog(s, sku);
    forall p | 0 <= p < |t.orders| ensures OrderOk(t, p) { assert OrderOk(s, p); }
  }

  lemma StepKeeps(s: Stock, op: Op)
    requires StockOk(s)
    ensures StockOk(Step(s, op))
  {
    match op
    case AddItem(sku) => AddItemKeeps(s, sku);
    case Post(i, d) => PostKeeps(s, i, d);
    case OpenOrder(c) => OpenOrderKeeps(s, c);
    case AddOrderLine(o, d) => AddLineKeeps(s, o, d);
    case Submit(o) => SubmitKeeps(s, o);
    case Confirm(o) => ApproveKeeps(s, o);
    case Deliver(o, d) => ReceiveKeeps(s, o, d);
  }

  lemma {:induction false} RunKeeps(s: Stock, ops: seq<Op>)
    requires StockOk(s)
    ensures StockOk(Run(s, ops))
  {
    if ops != [] {
      RunKeeps(s, ops[..|ops| - 1]);
      StepKeeps(Run(s, ops[..|ops| - 1]), ops[|ops| - 1]);
    }
  }

  // ---- Main results, over every run from empty tables ----

  // Quantity on hand is the sum of the deltas and never negative; quantity times average is the sum of
  // delta times recorded cost; the average lies between 0 and the dearest receipt or return.
  lemma ValueIsConserved(ops: seq<Op>, i: nat)
    requires i < |Run(EMPTY, ops).items|
    ensures ItemFollowsLog(Run(EMPTY, ops), i)
  {
    RunKeeps(EMPTY, ops);
  }

  // Received never exceeds ordered on any line and is what the receive function posted for that line;
  // the totals are those of the lines; an order past DRAFT is RECEIVED exactly when every line is full.
  lemma OrdersFollowDeliveries(ops: seq<Op>, o: nat)
    requires o < |Run(EMPTY, ops).orders|
    ensures OrderOk(Run(EMPTY, ops), o)
  {
    RunKeeps(EMPTY, ops);
  }

  lemma TotalIsNetPlusTax(order: Order)
    requires TotalsOk(order)
    ensures order.total == order.subtotal + order.taxTotal
  {
    GrossIsNetPlusTax(order.lines);
  }

  lemma {:induction false} GrossIsNetPlusTax(lines: seq<Line>)
    ensures SumBy(lines, GrossOf()) == SumBy(lines, NetOf()) + SumBy(lines, TaxOf())
  {
    if lines != [] {
      var l := lines[|lines| - 1];
      GrossIsNetPlusTax(lines[..|lines| - 1]);
      var v, t := l.ordered * l.cost, l.taxRate;
      assert v * (1.0 + t / 100.0) == v + v * t / 100.0;
    }
  }

  // Once an order leaves DRAFT its lines and totals are fixed, receipts only grow and the status only advances.
  function Rank(status: OrderStatus): nat {
    match status
    case Draft => 0
    case PendingApproval => 1
    case Approved => 2
    case PartiallyReceived => 3
    case Received => 4
  }

  ghost predicate Advances(before: Order, after: Order) {
    && Rank(before.status) <= Rank(after.status) && before.currency == after.currency
    && (before.status != Draft ==>
          && |before.lines| == |after.lines|
          && (before.subtotal, before.taxTotal, before.total) == (after.subtotal, after.taxTotal, after.total)
          && forall l :: 0 <= l < |before.lines| ==>
               && before.lines[l] == after.lines[l].(received := before.lines[l].received)
               && before.lines[l].received <= after.lines[l].received)
  }

  lemma StepAdvances(s: Stock, op: Op, o: nat)
    requires o < |s.orders|
    ensures o < |Step(s, op).orders| && Advances(s.orders[o], Step(s, op).orders[o])
  {
    match op
    case AddItem(_) =>
    case Post(i, d) => assert PostMovement(s, i, d).0.orders == s.orders;
    case OpenOrder(_) =>
    case AddOrderLine(_, _) =>
    case Submit(_) =>
    case Confirm(_) =>
    case Deliver(p, d) => DeliverAdvances(s, p, d, o);
  }

  lemma DeliverAdvances(s: Stock, p: nat, d: ReceiveInput, o: nat)
    requires o < |s.orders|
    ensures |Receive(s, p, d).0.orders| == |s.orders| && Advances(s.orders[o], Receive(s, p, d).0.orders[o])
  {
    var (t, r) := Receive(s, p, d);
    if r.Ok? && !r.value.duplicate {
      assert t.orders == s.orders[p := ReceivedOrder(s.orders[p], d.line, d.quantity)];
    }
  }

  lemma AdvancesTransitive(a: Order, b: Order, c: Order)
    requires Advances(a, b) && Advances(b, c)
    ensures Advances(a, c)
  {
    if a.status != Draft {
      forall l | 0 <= l < |a.lines| ensures a.lines[l] == c.lines[l].(received := a.lines[l].received) {
        assert b.lines[l] == c.lines[l].(received := b.lines[l].received);
      }
    }
  }

  lemma {:induction false} OrdersAdvance(s: Stock, ops: seq<Op>, o: nat)
    requires o < |s.orders|
    ensures o < |Run(s, ops).orders| && Advances(s.orders[o], Run(s, ops).orders[o])
  {
    if ops != [] {
      var prefix := Run(s, ops[..|ops| - 1]);
      OrdersAdvance(s, ops[..|ops| - 1], o);
      StepAdvances(prefix, ops[|ops| - 1], o);
      AdvancesTransitive(s.orders[o], prefix.orders[o], Run(s, ops).orders[o]);
    }
  }

  // ---- Replays ----

  lemma {:induction false} LogOnlyGrows(s: Stock, ops: seq<Op>)
    ensures s.moves <= Run(s, ops).moves
  {
    if ops != [] { LogOnlyGrows(s, ops[..|ops| - 1]); }
  }

  lemma FirstWriterIsFound(s: Stock, ops: seq<Op>, k: nat)
    requires StockOk(s) && k < |s.moves|
    ensures FindKey(Run(s, ops).moves, s.moves[k].key) == Some(k) && Run(s, ops).moves[k] == s.moves[k]
  {
    RunKeeps(s, ops);
    LogOnlyGrows(s, ops);
    var found := FindKey(Run(s, ops).moves, s.moves[k].key);
    assert Run(s, ops).moves[k].key == s.moves[k].key;
  }

  // A request that was accepted once is answered, at any later time, with the row it wrote; nothing else changes.
  lemma PostReplays(s: Stock, i: nat, d: MovementInput, ops: seq<Op>)
    requires StockOk(s) && PostMovement(s, i, d).1.Ok?
    ensures var (t, r) := PostMovement(s, i, d); var later := Run(t, ops);
      PostMovement(later, i, d) == (later, Ok(Posted(true, r.value.move)))
  {
    var (t, r) := PostMovement(s, i, d);
    PostKeeps(s, i, d);
    FirstWriterIsFound(t, ops, r.value.move);
  }

  lemma ReceiveReplays(s: Stock, o: nat, d: ReceiveInput, ops: seq<Op>)
    requires StockOk(s) && Receive(s, o, d).1.Ok?
    ensures var (t, r) := Receive(s, o, d); var later := Run(t, ops);
      Receive(later, o, d) == (later, Ok(Posted(true, r.value.move)))
  {
    var (t, r) := Receive(s, o, d);
    ReceiveKeeps(s, o, d);
    FirstWriterIsFound(t, ops, r.value.move);
  }

  // ---- What an accepted receipt answers with ----

  // Movement m is a delivery of the quantity to the line of order o.
  predicate Delivers(m: Movement, o: nat, d: ReceiveInput) {
    m.writer == OrderLine(d.line) && m.refId == Some(o) && m.kind == Receipt && m.delta == d.quantity && m.key == d.key
  }

  // The key is new, or the receive function took it for this very line.
  predicate KeyIsForLine(s: Stock, d: ReceiveInput) {
    match FindKey(s.moves, d.key)
    case None => true
    case Some(k) => s.moves[k].writer == OrderLine(d.line)
  }

  // An accepted receipt is answered with a delivery to the line it names exactly when its key is new or was taken for
  // that line; otherwise it is answered with some other row, and nothing is delivered.
  lemma AcceptedDeliversIff(s: Stock, o: nat, d: ReceiveInput)
    requires Receive(s, o, d).1.Ok?
    ensures var (t, r) := Receive(s, o, d);
      && r.value.move < |t.moves|
      && (Delivers(t.moves[r.value.move], o, d) <==> KeyIsForLine(s, d))
      && (!KeyIsForLine(s, d) ==> t == s)
  {
    var (t, r) := Receive(s, o, d);
    if !r.value.duplicate { assert t.moves[|s.moves|].writer == OrderLine(d.line); }
  }

  // It fails for another line of the same order: the key and quantity are answered as a replay, and that line receives
  // nothing.
  lemma ReplayIgnoresTheLine(s: Stock, o: nat, d: ReceiveInput, other: nat)
    requires StockOk(s) && Receive(s, o, d).1.Ok?
    ensures var (t, r) := Receive(s, o, d);
      && Receive(t, o, d.(line := other)) == (t, Ok(Posted(true, r.value.move)))
      && (KeyIsForLine(s, d) && other != d.line ==> !Delivers(t.moves[r.value.move], o, d.(line := other)))
  {
    ReceiveReplays(s, o, d, []);
    AcceptedDeliversIff(s, o, d);
  }

  const HANDMADE := [
    AddItem("A"), OpenOrder("TZS"),
    Post(0, MovementInput(Receipt, 5.0, 1.0, "TZS", PURCHASE_ORDER, Some(0), "k"))
  ]

  // And for a receipt posted by hand that names the order: it stands for a delivery to any line, here a line that does
  // not exist, of an order that nobody has approved.
  lemma HandmadeReceiptAnswersForOrder()
    ensures var s := Run(EMPTY, HANDMADE);
      && |s.orders| == 1 && s.orders[0].status == Draft && s.orders[0].lines == []
      && Receive(s, 0, ReceiveInput(7, 5.0, "k")) == (s, Ok(Posted(true, 0)))
      && !KeyIsForLine(s, ReceiveInput(7, 5.0, "k"))
  {
    assert HANDMADE[..2] == [AddItem("A"), OpenOrder("TZS")] && HANDMADE[..2][..1] == [AddItem("A")];
    assert [AddItem("A")][..0] == [];
    var one, two := Run(EMPTY, HANDMADE[..2][..1]), Run(EMPTY, HANDMADE[..2]);
    assert one == Stock([Item("A", true, 0.0, 0.0, None)], [], []);
    assert two == Stock([Item("A", true, 0.0, 0.0, None)], [], [Order("TZS", Draft, [], 0.0, 0.0, 0.0)]);
    var three := Run(EMPTY, HANDMADE);
    assert three == Step(two, HANDMADE[2]);
    assert three.moves == [Movement(0, Receipt, 5.0, 1.0, "TZS", PURCHASE_ORDER, Some(0), "k", Manual)];
    assert three.orders == two.orders;
  }
}
