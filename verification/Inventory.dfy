// Stock movements, weighted-average valuation and purchase-order receiving of one tenant
// (procurement.service.ts and procurement-workflow.service.ts).
// A generated row id is the row's position in its table; names and codes are already trimmed
// and upper-cased; numeric columns are exact reals.
module Inventory {
  import opened Common

  datatype MovementKind = Receipt | Issue | Return | Adjustment

  // Which function wrote the movement; the receive function notes the order line.
  datatype Writer = Manual | OrderLine(line: nat)

  datatype Movement = Movement(item: nat, kind: MovementKind, delta: real, cost: real, currency: string,
                               refType: string, refId: Option<nat>, key: string, writer: Writer)

  datatype Item = Item(sku: string, active: bool, onHand: real, average: real, currency: Option<string>)

  datatype OrderStatus = Draft | PendingApproval | Approved | PartiallyReceived | Received

  datatype Line = Line(code: string, ordered: real, received: real, cost: real, taxRate: real)

  datatype Order = Order(currency: string, status: OrderStatus, lines: seq<Line>,
                         subtotal: real, taxTotal: real, total: real)

  datatype Stock = Stock(items: seq<Item>, moves: seq<Movement>, orders: seq<Order>)

  datatype MovementInput = MovementInput(kind: MovementKind, delta: real, unitCost: real, currency: string,
                                         refType: string, refId: Option<nat>, key: string)

  datatype LineInput = LineInput(code: string, ordered: real, cost: real, taxRate: real)

  datatype ReceiveInput = ReceiveInput(line: nat, quantity: real, key: string)

  // `move` is the movement row the caller gets back, new or replayed.
  datatype Posted = Posted(duplicate: bool, move: nat)

  const PURCHASE_ORDER := "PURCHASE_ORDER"

  predicate Inbound(kind: MovementKind) { kind == Receipt || kind == Return }

  // WHERE idempotency_key = key; the key is unique.
  function FindKey(moves: seq<Movement>, key: string): (found: Option<nat>)
    ensures found.Some? ==> found.value < |moves| && moves[found.value].key == key
    ensures found.None? ==> forall k :: 0 <= k < |moves| ==> moves[k].key != key
  {
    FindBy(moves, (m: Movement) => m.key == key)
  }

  // WHERE sku = code AND active = true; the SKU is unique.
  function FindSku(items: seq<Item>, code: string): (found: Option<nat>)
    ensures found.Some? ==> found.value < |items| && items[found.value].sku == code && items[found.value].active
    ensures found.None? ==> forall i :: 0 <= i < |items| && items[i].active ==> items[i].sku != code
  {
    FindBy(items, (i: Item) => i.sku == code && i.active)
  }

  // ---- Specification of the transactions ----

  // The average after an inbound quantity joins the stock at its own cost.
  function Blend(onHand: real, average: real, delta: real, cost: real): real
  {
    if onHand + delta == 0.0 then cost else (onHand * average + delta * cost) / (onHand + delta)
  }

  // Appends movement m and moves its item's quantity and average with it.
  function Record(s: Stock, m: Movement): Stock
    requires m.item < |s.items|
  {
    var it := s.items[m.item];
    var average := if m.delta > 0.0 && m.kind != Adjustment
                   then Blend(it.onHand, it.average, m.delta, m.cost) else it.average;
    var currency := if it.currency.Some? then it.currency else Some(m.currency);
    s.(items := s.items[m.item := it.(onHand := it.onHand + m.delta, average := average, currency := currency)],
       moves := s.moves + [m])
  }

  predicate SameMovement(m: Movement, itemId: nat, d: MovementInput) {
    && m.item == itemId && m.delta == d.delta && m.kind == d.kind
    && (d.kind == Issue || d.kind == Adjustment || m.cost == d.unitCost)
    && m.currency == d.currency && m.refType == d.refType && m.refId == d.refId
  }

  predicate WellFormed(d: MovementInput) {
    && d.delta != 0.0 && d.unitCost >= 0.0
    && (Inbound(d.kind) ==> d.delta > 0.0)
    && (d.kind == Issue ==> d.delta < 0.0)
  }

  function PostMovement(s: Stock, itemId: nat, d: MovementInput): (Stock, Result<Posted>)
  {
    if !WellFormed(d) then (s, Err(BadRequest))
    else match FindKey(s.moves, d.key)
      case Some(k) => (s, if SameMovement(s.moves[k], itemId, d) then Ok(Posted(true, k)) else Err(Conflict))
      case None =>
        if itemId >= |s.items| || !s.items[itemId].active then (s, Err(NotFound))
        else
          var it := s.items[itemId];
          var cost := if d.delta < 0.0 || d.kind == Adjustment then it.average else d.unitCost;
          if (it.currency.Some? && it.currency.value != d.currency) || it.onHand + d.delta < 0.0
          then (s, Err(Conflict))
          else (Record(s, Movement(itemId, d.kind, d.delta, cost, d.currency, d.refType, d.refId, d.key, Manual)),
                Ok(Posted(false, |s.moves|)))
  }

  function CreateItem(s: Stock, sku: string): (Stock, Result<nat>) {
    if exists i :: 0 <= i < |s.items| && s.items[i].sku == sku then (s, Err(Conflict))
    else (s.(items := s.items + [Item(sku, true, 0.0, 0.0, None)]), Ok(|s.items|))
  }

  function CreateOrder(s: Stock, currency: string): Stock {
    s.(orders := s.orders + [Order(currency, Draft, [], 0.0, 0.0, 0.0)])
  }

  function NetOf(): Line -> real { (l: Line) => l.ordered * l.cost }
  function TaxOf(): Line -> real { (l: Line) => l.ordered * l.cost * l.taxRate / 100.0 }
  function GrossOf(): Line -> real { (l: Line) => l.ordered * l.cost * (1.0 + l.taxRate / 100.0) }

  function AddLine(s: Stock, orderId: nat, d: LineInput): (Stock, Result<nat>) {
    if orderId >= |s.orders| then (s, Err(NotFound))
    else
      var o := s.orders[orderId];
      if o.status != Draft then (s, Err(Conflict))
      else if d.ordered <= 0.0 || d.cost < 0.0 || d.taxRate < 0.0 || d.taxRate > 100.0 then (s, Err(BadRequest))
      else
        var lines := o.lines + [Line(d.code, d.ordered, 0.0, d.cost, d.taxRate)];
        var o' := o.(lines := lines, subtotal := SumBy(lines, NetOf()), taxTotal := SumBy(lines, TaxOf()),
                     total := SumBy(lines, GrossOf()));
        (s.(orders := s.orders[orderId := o']), Ok(|o.lines|))
  }

  function RequestApproval(s: Stock, orderId: nat): (Stock, Result<OrderStatus>) {
    if orderId < |s.orders| && s.orders[orderId].status == Draft && s.orders[orderId].total > 0.0
       && s.orders[orderId].lines != []
    then (s.(orders := s.orders[orderId := s.orders[orderId].(status := PendingApproval)]), Ok(PendingApproval))
    else (s, Err(Conflict))
  }

  function Approve(s: Stock, orderId: nat): (Stock, Result<OrderStatus>) {
    if orderId < |s.orders| && s.orders[orderId].status == PendingApproval
    then (s.(orders := s.orders[orderId := s.orders[orderId].(status := Approved)]), Ok(Approved))
    else (s, Err(Conflict))
  }

  predicate FullyReceived(lines: seq<Line>) {
    forall l :: 0 <= l < |lines| ==> lines[l].received >= lines[l].ordered
  }

  function ReceivedOrder(o: Order, line: nat, quantity: real): Order
    requires line < |o.lines|
  {
    var lines := o.lines[line := o.lines[line].(received := o.lines[line].received + quantity)];
    o.(lines := lines, status := if FullyReceived(lines) then Received else PartiallyReceived)
  }

  function Receive(s: Stock, orderId: nat, d: ReceiveInput): (Stock, Result<Posted>) {
    if d.quantity <= 0.0 then (s, Err(BadRequest))
    else match FindKey(s.moves, d.key)
      case Some(k) =>
        var p := s.moves[k];
        (s, if p.refId == Some(orderId) && p.delta == d.quantity && p.kind == Receipt
            then Ok(Posted(true, k)) else Err(Conflict))
      case None =>
        if orderId >= |s.orders| then (s, Err(NotFound))
        else
          var o := s.orders[orderId];
          if o.status != Approved && o.status != PartiallyReceived then (s, Err(Conflict))
          else if d.line >= |o.lines| then (s, Err(NotFound))
          else
            var l := o.lines[d.line];
            if d.quantity > l.ordered - l.received then (s, Err(Conflict))
            else match FindSku(s.items, l.code)
              case None => (s, Err(NotFound))
              case Some(i) =>
                if s.items[i].currency.Some? && s.items[i].currency.value != o.currency then (s, Err(Conflict))
                else
                  var m := Movement(i, Receipt, d.quantity, l.cost, o.currency, PURCHASE_ORDER, Some(orderId), d.key,
                                    OrderLine(d.line));
                  (Record(s, m).(orders := s.orders[orderId := ReceivedOrder(o, d.line, d.quantity)]),
                   Ok(Posted(false, |s.moves|)))
  }

  // ---- The tables, updated in place ----

  function OpenLines(lines: seq<Line>, upTo: nat): set<nat>
    requires upTo <= |lines|
  {
    set j: nat | j < upTo && lines[j].received < lines[j].ordered
  }

  method CountOpen(lines: seq<Line>) returns (remaining: nat)
    ensures remaining == |OpenLines(lines, |lines|)|
    ensures remaining == 0 <==> FullyReceived(lines)
  {
    remaining := 0;
    for k := 0 to |lines|
      invariant remaining == |OpenLines(lines, k)|
      invariant remaining == 0 <==> forall j :: 0 <= j < k ==> lines[j].received >= lines[j].ordered
    {
      if lines[k].received < lines[k].ordered {
        assert OpenLines(lines, k + 1) == OpenLines(lines, k) + {k};
        remaining := remaining + 1;
      } else {
        assert OpenLines(lines, k + 1) == OpenLines(lines, k);
      }
    }
  }

  class StockTables {
    var items: seq<Item>
    var moves: seq<Movement>
    var orders: seq<Order>

    ghost function Contents(): Stock
      reads this
    {
      Stock(items, moves, orders)
    }

    constructor ()
      ensures Contents() == Stock([], [], [])
    {
      items, moves, orders := [], [], [];
    }

    method PostStockMovement(itemId: nat, d: MovementInput) returns (r: Result<Posted>)
      modifies this
      ensures (Contents(), r) == PostMovement(old(Contents()), itemId, d)
    {
      if d.delta == 0.0 || d.unitCost < 0.0 { return Err(BadRequest); }
      if (d.kind == Receipt || d.kind == Return) && d.delta < 0.0 { return Err(BadRequest); }
      if d.kind == Issue && d.delta > 0.0 { return Err(BadRequest); }
      var prior := FindKey(moves, d.key);
      if prior.Some? {
        var p := moves[prior.value];
        if p.item != itemId || p.delta != d.delta || p.kind != d.kind
           || (d.kind != Issue && d.kind != Adjustment && p.cost != d.unitCost)
           || p.currency != d.currency || p.refType != d.refType || p.refId != d.refId {
          return Err(Conflict);
        }
        return Ok(Posted(true, prior.value));
      }
      if itemId >= |items| || !items[itemId].active { return Err(NotFound); }
      var it := items[itemId];
      var before, after := it.onHand, it.onHand + d.delta;
      var cost := d.unitCost;
      if d.delta < 0.0 || d.kind == Adjustment { cost := it.average; }
      if it.currency.Some? && it.currency.value != d.currency { return Err(Conflict); }
      if after < 0.0 { return Err(Conflict); }
      var avg := it.average;
      if d.delta > 0.0 && d.kind != Adjustment {
        avg := if after == 0.0 then cost else (before * avg + d.delta * cost) / after;
      }
      moves := moves + [Movement(itemId, d.kind, d.delta, cost, d.currency, d.refType, d.refId, d.key, Manual)];
      items := items[itemId := it.(onHand := after, average := avg,
                                   currency := if it.currency.Some? then it.currency else Some(d.currency))];
      r := Ok(Posted(false, |moves| - 1));
      assert items[itemId] == PostMovement(old(Contents()), itemId, d).0.items[itemId];
    }

    method AddPurchaseOrderLine(orderId: nat, d: LineInput) returns (r: Result<nat>)
      modifies this`orders
      ensures (Contents(), r) == AddLine(old(Contents()), orderId, d)
    {
      if orderId >= |orders| { return Err(NotFound); }
      if orders[orderId].status != Draft { return Err(Conflict); }
      if d.ordered <= 0.0 || d.cost < 0.0 || d.taxRate < 0.0 || d.taxRate > 100.0 { return Err(BadRequest); }
      var lines := orders[orderId].lines + [Line(d.code, d.ordered, 0.0, d.cost, d.taxRate)];
      var subtotal, taxTotal, total := 0.0, 0.0, 0.0;
      for k := 0 to |lines|
        invariant subtotal == SumBy(lines[..k], NetOf())
        invariant taxTotal == SumBy(lines[..k], TaxOf())
        invariant total == SumBy(lines[..k], GrossOf())
      {
        var l := lines[k];
        assert lines[..k + 1][..k] == lines[..k];
        subtotal := subtotal + l.ordered * l.cost;
        taxTotal := taxTotal + l.ordered * l.cost * l.taxRate / 100.0;
        total := total + l.ordered * l.cost * (1.0 + l.taxRate / 100.0);
      }
      assert lines[..|lines|] == lines;
      orders := orders[orderId := orders[orderId].(lines := lines, subtotal := subtotal, taxTotal := taxTotal,
                                                   total := total)];
      r := Ok(|lines| - 1);
    }

    // The movement row, and its item's new quantity and average.
    method InsertReceipt(m: Movement)
      requires m.item < |items| && m.kind == Receipt && m.delta > 0.0
      modifies this`moves, this`items
      ensures Contents() == Record(old(Contents()), m)
    {
      var it := items[m.item];
      var before, after := it.onHand, it.onHand + m.delta;
      var avg := if after == 0.0 then m.cost else (before * it.average + m.delta * m.cost) / after;
      moves := moves + [m];
      items := items[m.item := it.(onHand := after, average := avg,
                                   currency := if it.currency.Some? then it.currency else Some(m.currency))];
      assert items[m.item] == Record(old(Contents()), m).items[m.item];
    }

    method ReceivePurchaseOrderLine(orderId: nat, d: ReceiveInput) returns (r: Result<Posted>)
      modifies this
      ensures (Contents(), r) == Receive(old(Contents()), orderId, d)
    {
      if d.quantity <= 0.0 { return Err(BadRequest); }
      var prior := FindKey(moves, d.key);
      if prior.Some? {
        var p := moves[prior.value];
        if p.refId != Some(orderId) || p.delta != d.quantity || p.kind != Receipt { return Err(Conflict); }
        return Ok(Posted(true, prior.value));
      }
      if orderId >= |orders| { return Err(NotFound); }
      var o := orders[orderId];
      if o.status != Approved && o.status != PartiallyReceived { return Err(Conflict); }
      if d.line >= |o.lines| { return Err(NotFound); }
      var l := o.lines[d.line];
      if d.quantity > l.ordered - l.received { return Err(Conflict); }
      var item := FindSku(items, l.code);
      if item.None? { return Err(NotFound); }
      var it := items[item.value];
      if it.currency.Some? && it.currency.value != o.currency { return Err(Conflict); }
      InsertReceipt(Movement(item.value, Receipt, d.quantity, l.cost, o.currency, PURCHASE_ORDER, Some(orderId), d.key,
                             OrderLine(d.line)));
      var lines := o.lines[d.line := l.(received := l.received + d.quantity)];
      var remaining := CountOpen(lines);
      orders := orders[orderId := o.(lines := lines, status := if remaining == 0 then Received else PartiallyReceived)];
      r := Ok(Posted(false, |moves| - 1));
    }

    method RequestPurchaseOrderApproval(orderId: nat) returns (r: Result<OrderStatus>)
      modifies this`orders
      ensures (Contents(), r) == RequestApproval(old(Contents()), orderId)
    {
      if orderId >= |orders| { return Err(Conflict); }
      var o := orders[orderId];
      if o.status != Draft || o.total <= 0.0 || |o.lines| == 0 { return Err(Conflict); }
      orders := orders[orderId := o.(status := PendingApproval)];
      r := Ok(PendingApproval);
    }

    method ApprovePurchaseOrder(orderId: nat) returns (r: Result<OrderStatus>)
      modifies this`orders
      ensures (Contents(), r) == Approve(old(Contents()), orderId)
    {
      if orderId >= |orders| || orders[orderId].status != PendingApproval { return Err(Conflict); }
      orders := orders[orderId := orders[orderId].(status := Approved)];
      r := Ok(Approved);
    }
  }
}
