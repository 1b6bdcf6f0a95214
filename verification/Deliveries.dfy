/** A goods receipt line is stocked in once, whichever path gets there and however often: the outbox
    handler (inventory/inventory-purchase-events.handler.ts) and the repair loop
    (reconciliation/reconciliation.service.ts) share one event key per line. */
module Deliveries {
  import opened Common
  import opened Identity
  import opened Ledger
  import opened KeyedCommands
  import opened Books
  import opened BooksBalance
  import opened BooksGrowth
  import opened EffectCounts
  import opened InventoryService

  // ---------------------------------------------------------------- the two paths

  /** Deliver each line in turn; a delivery that fails changes nothing. */
  function DeliverAll(t: Tables, catalog: Catalog, lines: seq<ReceiptLine>): Tables {
    if lines == [] then t
    else Apply(DeliverAll(t, catalog, lines[..|lines| - 1]), catalog, DoStockIn(Delivery(lines[|lines| - 1])))
  }

  lemma {:induction false} StockedInLasts(t: Tables, catalog: Catalog, c: Command, l: ReceiptLine)
    requires StockedIn(t, l)
    ensures StockedIn(Apply(t, catalog, c), l)
  {
    if Execute(t, catalog, c).Ok? {
      SuccessTakesEffect(t, catalog, c);
    }
  }

  /** stockInFromPurchase: one stock-in per item, stopping at the first that throws. Success means
      every line of the event is in stock; done counts the lines dealt with either way. */
  method StockInFromPurchase(service: Service, catalog: Catalog, lines: seq<ReceiptLine>)
    returns (r: Result<(), LedgerError>, done: nat)
    modifies service
    ensures done <= |lines| && (r.Ok? <==> done == |lines|)
    ensures service.State() == DeliverAll(old(service.State()), catalog, lines[..done])
    ensures forall k :: 0 <= k < done ==> StockedIn(service.State(), lines[k])
    ensures r.Err? ==> Execute(service.State(), catalog, DoStockIn(Delivery(lines[done]))) == Err(r.error)
  {
    done := 0;
    while done < |lines|
      invariant done <= |lines|
      invariant service.State() == DeliverAll(old(service.State()), catalog, lines[..done])
      invariant forall k :: 0 <= k < done ==> StockedIn(service.State(), lines[k])
    {
      var before := service.State();
      var c := DoStockIn(Delivery(lines[done]));
      r := service.Transact(catalog, c);
      if r.Err? {
        return;
      }
      SuccessTakesEffect(before, catalog, c);
      forall k | 0 <= k < done ensures StockedIn(service.State(), lines[k]) {
        StockedInLasts(before, catalog, c, lines[k]);
      }
      assert lines[..done + 1][..done] == lines[..done];
      done := done + 1;
    }
    r := Ok(());
  }

  /** One line of the repair pass: a line with a movement is passed over, another one is delivered. */
  method ReconcileLine(service: Service, catalog: Catalog, l: ReceiptLine) returns (failed: bool)
    modifies service
    ensures service.State() == Apply(old(service.State()), catalog, DoStockIn(Delivery(l)))
    ensures StockedIn(service.State(), l) || (failed && !StockedIn(old(service.State()), l))
    ensures failed ==> !StockedIn(old(service.State()), l)
  {
    var before := service.State();
    var receipt := Delivery(l);
    var existing := FindMovement(service.movements, receipt.eventKey.value);
    failed := false;
    if existing < |service.movements| {
      DeliveryOfStockedInLine(before, catalog, l);
    } else {
      var r := service.Transact(catalog, DoStockIn(receipt));
      failed := r.Err?;
      if r.Ok? {
        SuccessTakesEffect(before, catalog, DoStockIn(receipt));
      }
    }
  }

  /** Each of the first k lines is in stock or an exception, and exceptions were not in stock at first. */
  ghost predicate DealtWith(start: Tables, t: Tables, lines: seq<ReceiptLine>, k: nat, exceptions: set<nat>) {
    && k <= |lines|
    && (forall j :: 0 <= j < k ==> StockedIn(t, lines[j]) || j in exceptions)
    && (forall j :: j in exceptions ==> j < k && !StockedIn(start, lines[j]))
  }

  lemma OneMoreDealtWith(start: Tables, before: Tables, catalog: Catalog, lines: seq<ReceiptLine>, k: nat,
                         exceptions: set<nat>, failed: bool)
    requires DealtWith(start, before, lines, k, exceptions) && k < |lines|
    requires before == DeliverAll(start, catalog, lines[..k])
    requires StockedIn(Apply(before, catalog, DoStockIn(Delivery(lines[k]))), lines[k]) || failed
    requires failed ==> !StockedIn(before, lines[k])
    ensures DealtWith(start, Apply(before, catalog, DoStockIn(Delivery(lines[k]))), lines, k + 1,
                      if failed then exceptions + {k} else exceptions)
  {
    var after := Apply(before, catalog, DoStockIn(Delivery(lines[k])));
    forall j | 0 <= j < k && StockedIn(before, lines[j]) ensures StockedIn(after, lines[j]) {
      StockedInLasts(before, catalog, DoStockIn(Delivery(lines[k])), lines[j]);
    }
    if failed {
      NotStockedInBefore(start, catalog, lines[..k], lines[k]);
    }
  }

  lemma DeliverOneMore(t: Tables, catalog: Catalog, lines: seq<ReceiptLine>, k: nat)
    requires k < |lines|
    ensures DeliverAll(t, catalog, lines[..k + 1])
         == Apply(DeliverAll(t, catalog, lines[..k]), catalog, DoStockIn(Delivery(lines[k])))
  {
    assert lines[..k + 1][..k] == lines[..k];
  }

  /** reconcilePurchaseReceiptInventory: a delivery that throws becomes an exception and the pass goes on. */
  method ReconcilePurchaseReceipts(service: Service, catalog: Catalog, lines: seq<ReceiptLine>)
    returns (exceptions: set<nat>)
    modifies service
    ensures service.State() == DeliverAll(old(service.State()), catalog, lines)
    ensures DealtWith(old(service.State()), service.State(), lines, |lines|, exceptions)
  {
    ghost var start := service.State();
    exceptions := {};
    var k := 0;
    while k < |lines|
      invariant k <= |lines| && service.State() == DeliverAll(start, catalog, lines[..k])
      invariant DealtWith(start, service.State(), lines, k, exceptions)
    {
      ghost var before := service.State();
      var failed := ReconcileLine(service, catalog, lines[k]);
      DeliverOneMore(start, catalog, lines, k);
      OneMoreDealtWith(start, before, catalog, lines, k, exceptions, failed);
      if failed {
        exceptions := exceptions + {k};
      }
      k := k + 1;
    }
    assert lines[..|lines|] == lines;
  }

  lemma {:induction false} NotStockedInBefore(t: Tables, catalog: Catalog, lines: seq<ReceiptLine>, l: ReceiptLine)
    requires !StockedIn(DeliverAll(t, catalog, lines), l)
    ensures !StockedIn(t, l)
  {
    if lines != [] {
      var last := |lines| - 1;
      var before := DeliverAll(t, catalog, lines[..last]);
      if StockedIn(before, l) {
        StockedInLasts(before, catalog, DoStockIn(Delivery(lines[last])), l);
      }
      NotStockedInBefore(t, catalog, lines[..last], l);
    }
  }

  lemma DeliveryOfStockedInLine(t: Tables, catalog: Catalog, l: ReceiptLine)
    requires StockedIn(t, l)
    ensures Apply(t, catalog, DoStockIn(Delivery(l))) == t
  {}

  // ---------------------------------------------------------------- at most once, in every history

  ghost predicate AddsAtMostOne(before: seq<Movement>, after: seq<Movement>, key: Option<string>) {
    after == before || exists row :: after == before + [row] && row.eventKey == key && !Recorded(before, key)
  }

  lemma StockOutAddsAtMostOne(t: Tables, catalog: Catalog, issue: Issue)
    requires StockOutTx(t, catalog, issue).Ok?
    ensures AddsAtMostOne(t.movements, StockOutTx(t, catalog, issue).value.movements, issue.eventKey)
  {}

  lemma StockInAddsAtMostOne(t: Tables, catalog: Catalog, receipt: Receipt)
    requires StockInTx(t, catalog, receipt).Ok?
    ensures AddsAtMostOne(t.movements, StockInTx(t, catalog, receipt).value.movements, receipt.eventKey)
  {}

  lemma OneMovementAtMost(t: Tables, catalog: Catalog, c: Command)
    ensures AddsAtMostOne(t.movements, Apply(t, catalog, c).movements, MovementKey(c))
  {
    if Execute(t, catalog, c).Ok? {
      match c
      case DoStockIn(receipt) => StockInAddsAtMostOne(t, catalog, receipt);
      case DoStockOut(issue) => StockOutAddsAtMostOne(t, catalog, issue);
      case DoSettle(issue, _) => StockOutAddsAtMostOne(t, catalog, issue);
      case DoRestock(restock) =>
        StockInAddsAtMostOne(t, catalog, ReturnReceipt(t, Resolve(catalog, restock.line).value, restock));
      case DoAdjust(a) =>
        var u := AdjustTx(t, catalog, a).value.movements;
        assert u == t.movements + [u[|t.movements|]];
      case _ =>
    }
  }

  lemma DeliveryMovement(t: Tables, catalog: Catalog, l: ReceiptLine)
    ensures var u := Apply(t, catalog, DoStockIn(Delivery(l))).movements;
      || u == t.movements
      || exists row :: u == t.movements + [row] && IsDeliveryOf(row, l) && !Recorded(t.movements, row.eventKey)
  {
    var u := Apply(t, catalog, DoStockIn(Delivery(l))).movements;
    if u != t.movements {
      assert u == t.movements + [u[|t.movements|]];
      assert IsDeliveryOf(u[|t.movements|], l);
    }
  }

  ghost predicate RespectfulHistory(steps: seq<BookStep>) {
    forall k :: 0 <= k < |steps| ==> KeysRespected(History(steps[..k]), steps[k])
  }

  lemma {:induction false} StepKeepsKeys(b: BookState, step: BookStep)
    requires KeysKept(b.tables.movements, b.lines) && LinesKept(b.lines, |b.totals|) && KeysRespected(b, step)
    ensures var a := Advance(b, step); KeysKept(a.tables.movements, a.lines) && LinesKept(a.lines, |a.totals|)
  {
    match step
    case ReceiveGoods(receiptId, lines) =>
      MoreLinesKeepKeys(b.tables.movements, b.lines, lines);
      NewLinesAreKept(b, receiptId, lines);
    case DeliverLine(k, catalog) =>
      if k < |b.lines| {
        DeliveryMovement(b.tables, catalog, b.lines[k]);
        var u := Apply(b.tables, catalog, DoStockIn(Delivery(b.lines[k]))).movements;
        if u != b.tables.movements {
          var row :| u == b.tables.movements + [row] && IsDeliveryOf(row, b.lines[k])
                     && !Recorded(b.tables.movements, row.eventKey);
          KeysStayKept(b.tables.movements, b.lines, row);
        }
      }
    case MoveStock(catalog, command) =>
      OneMovementAtMost(b.tables, catalog, command);
      var u := Apply(b.tables, catalog, command).movements;
      if u != b.tables.movements {
        var row :| u == b.tables.movements + [row] && row.eventKey == MovementKey(command)
                   && !Recorded(b.tables.movements, MovementKey(command));
        KeysStayKept(b.tables.movements, b.lines, row);
      }
    case _ =>
  }

  lemma {:induction false} HistoriesKeepKeys(steps: seq<BookStep>)
    requires RespectfulHistory(steps)
    ensures var b := History(steps); KeysKept(b.tables.movements, b.lines) && LinesKept(b.lines, |b.totals|)
  {
    if steps != [] {
      var last := |steps| - 1;
      forall k | 0 <= k < last ensures steps[..last][..k] == steps[..k] {}
      HistoriesKeepKeys(steps[..last]);
      StepKeepsKeys(History(steps[..last]), steps[last]);
    }
  }

  /** How many movements carry the line's event key. */
  function StockIns(movements: seq<Movement>, l: ReceiptLine): nat {
    MovementsWith(movements, PurchaseKey(l.receiptId, l.id))
  }

  lemma {:induction false} CountIsFindOrNothing(movements: seq<Movement>, l: ReceiptLine, n: nat)
    requires n <= |movements|
    requires forall m :: 0 <= m < |movements| && movements[m].eventKey.Some? ==>
      FindMovement(movements, movements[m].eventKey.value) == m
    ensures StockIns(movements[..n], l)
         == if FindMovement(movements, PurchaseKey(l.receiptId, l.id)) < n then 1 else 0
  {
    if n > 0 {
      CountIsFindOrNothing(movements, l, n - 1);
      assert movements[..n][..n - 1] == movements[..n - 1];
    }
  }

  lemma StepKeepsStockedIn(b: BookState, step: BookStep, l: ReceiptLine)
    requires StockedIn(b.tables, l)
    ensures StockedIn(Advance(b, step).tables, l)
  {
    match step
    case DeliverLine(k, catalog) =>
      if k < |b.lines| {
        StockedInLasts(b.tables, catalog, DoStockIn(Delivery(b.lines[k])), l);
      }
    case MoveStock(catalog, command) => StockedInLasts(b.tables, catalog, command, l);
    case _ =>
  }

  lemma {:induction false} StockedInStays(steps: seq<BookStep>, more: seq<BookStep>, l: ReceiptLine)
    requires StockedIn(History(steps).tables, l)
    ensures StockedIn(History(steps + more).tables, l)
    decreases |more|
  {
    if more == [] {
      assert steps + more == steps;
    } else {
      var last := |more| - 1;
      StockedInStays(steps, more[..last], l);
      HistoryOfOneMore(steps + more[..last], more[last]);
      assert steps + more[..last] + [more[last]] == steps + more;
      StepKeepsStockedIn(History(steps + more[..last]), more[last], l);
    }
  }

  lemma KeyNamesItsLine(movements: seq<Movement>, lines: seq<ReceiptLine>, receipts: nat, m: nat, k: nat)
    requires KeysKept(movements, lines) && LinesKept(lines, receipts) && m < |movements| && k < |lines|
    requires movements[m].eventKey == Some(PurchaseKey(lines[k].receiptId, lines[k].id))
    ensures IsDeliveryOf(movements[m], lines[k])
  {
    assert HasPurchasePrefix(PurchaseKey(lines[k].receiptId, lines[k].id));
    var l: nat :| l < |lines| && IsDeliveryOf(movements[m], lines[l]);
    PurchaseKeyIsInjective(lines[k].receiptId, lines[k].id, lines[l].receiptId, lines[l].id);
    assert l == k;
  }

  ghost predicate OnlyDeliveriesOf(movements: seq<Movement>, l: ReceiptLine) {
    forall m :: 0 <= m < |movements| && movements[m].eventKey == Some(PurchaseKey(l.receiptId, l.id))
      ==> IsDeliveryOf(movements[m], l)
  }

  lemma OneDelivery(movements: seq<Movement>, lines: seq<ReceiptLine>, receipts: nat, k: nat)
    requires KeysKept(movements, lines) && LinesKept(lines, receipts) && k < |lines|
    ensures OnlyDeliveriesOf(movements, lines[k])
  {
    forall m | 0 <= m < |movements| && movements[m].eventKey == Some(PurchaseKey(lines[k].receiptId, lines[k].id))
      ensures IsDeliveryOf(movements[m], lines[k])
    {
      KeyNamesItsLine(movements, lines, receipts, m, k);
    }
  }

  lemma OneStockIn(t: Tables, lines: seq<ReceiptLine>, l: ReceiptLine)
    requires KeysKept(t.movements, lines)
    ensures StockIns(t.movements, l) == if StockedIn(t, l) then 1 else 0
  {
    CountIsFindOrNothing(t.movements, l, |t.movements|);
    assert t.movements[..|t.movements|] == t.movements;
  }

  /** In every history, under any interleaving of deliveries, redeliveries and repairs, a receipt line
      has at most one stock-in movement, and it carries the line's product, quantity and cost. */
  lemma {:induction false} AtMostOneStockIn(steps: seq<BookStep>, k: nat)
    requires RespectfulHistory(steps) && k < |History(steps).lines|
    ensures var b := History(steps);
      && StockIns(b.tables.movements, b.lines[k]) == (if StockedIn(b.tables, b.lines[k]) then 1 else 0)
      && OnlyDeliveriesOf(b.tables.movements, b.lines[k])
  {
    var b := History(steps);
    HistoriesKeepKeys(steps);
    OneStockIn(b.tables, b.lines, b.lines[k]);
    OneDelivery(b.tables.movements, b.lines, |b.totals|, k);
  }

  /** Step n delivered line k, and the delivery succeeded. */
  ghost predicate DeliveredAt(steps: seq<BookStep>, n: nat, k: nat) {
    && n < |steps| && steps[n].DeliverLine? && steps[n].line == k && k < |History(steps[..n]).lines|
    && Execute(History(steps[..n]).tables, steps[n].catalog, DoStockIn(Delivery(History(steps[..n]).lines[k]))).Ok?
  }

  lemma {:induction false} DeliveryStocksIn(b: BookState, k: nat, catalog: Catalog)
    requires k < |b.lines| && Execute(b.tables, catalog, DoStockIn(Delivery(b.lines[k]))).Ok?
    ensures StockedIn(Advance(b, DeliverLine(k, catalog)).tables, b.lines[k])
  {
    SuccessTakesEffect(b.tables, catalog, DoStockIn(Delivery(b.lines[k])));
  }

  lemma {:induction false} StockedInAfterSuccess(steps: seq<BookStep>, n: nat, k: nat)
    requires DeliveredAt(steps, n, k)
    ensures k < |History(steps).lines| && StockedIn(History(steps).tables, History(steps).lines[k])
  {
    var l := History(steps[..n]).lines[k];
    DeliveryStocksIn(History(steps[..n]), k, steps[n].catalog);
    StepAt(steps, n);
    StockedInToTheEnd(steps, n + 1, l);
    LastsToTheEnd(steps, n);
  }

  lemma {:induction false} StockedInToTheEnd(steps: seq<BookStep>, n: nat, l: ReceiptLine)
    requires n <= |steps| && StockedIn(History(steps[..n]).tables, l)
    ensures StockedIn(History(steps).tables, l)
  {
    var front, more := steps[..n], steps[n..];
    assert front + more == steps;
    StockedInStays(front, more, l);
  }

  /** Once any delivery of a line has succeeded, there is exactly one, whatever happens afterwards. */
  lemma {:induction false} ExactlyOnceAfterSuccess(steps: seq<BookStep>, n: nat, k: nat)
    requires RespectfulHistory(steps) && DeliveredAt(steps, n, k)
    ensures k < |History(steps).lines| && StockIns(History(steps).tables.movements, History(steps).lines[k]) == 1
  {
    StockedInAfterSuccess(steps, n, k);
    AtMostOneStockIn(steps, k);
  }
}
