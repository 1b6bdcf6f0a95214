/** The inventory account is the valuation of the batches, up to what is still on its way: events not
    yet journalled on one side, receipt lines not yet stocked in on the other. */
module BooksBalance {
  import opened Common
  import opened Fifo
  import opened Identity
  import opened Ledger
  import opened Books

  /** Amounts of stock events not journalled yet. */
  function PendingEvents(b: BookState): (r: seq<real>)
    ensures |r| == |b.tables.events|
  {
    seq(|b.tables.events|, m requires 0 <= m < |b.tables.events| =>
      if Journalled(b.journal, OfMovement(m)) then 0.0 else EventAmount(b.tables.events[m]))
  }

  /** Totals of receipt events not journalled yet. */
  function PendingReceipts(b: BookState): (r: seq<real>)
    ensures |r| == |b.totals|
  {
    seq(|b.totals|, r requires 0 <= r < |b.totals| =>
      if Journalled(b.journal, OfReceipt(r)) then 0.0 else b.totals[r])
  }

  predicate StockedIn(t: Tables, l: ReceiptLine) {
    Recorded(t.movements, Some(PurchaseKey(l.receiptId, l.id)))
  }

  /** The value of receipt lines not stocked in yet. */
  function Unstocked(b: BookState): (r: seq<real>)
    ensures |r| == |b.lines|
  {
    seq(|b.lines|, k requires 0 <= k < |b.lines| =>
      if StockedIn(b.tables, b.lines[k]) then 0.0 else Worth(b.lines[k].line.quantity, b.lines[k].unitCost))
  }

  ghost predicate Balanced(b: BookState) {
    InventoryBalance(b.journal) + Sum(PendingEvents(b)) + Sum(PendingReceipts(b))
    == Value(b.tables.batches) + Sum(Unstocked(b))
  }

  // ---------------------------------------------------------------- the invariant

  ghost predicate HasPurchasePrefix(key: string) {
    PurchasePrefix <= key
  }

  /** Event keys are unique, and those of purchases belong to receipt lines. */
  ghost predicate KeysKept(movements: seq<Movement>, lines: seq<ReceiptLine>) {
    forall m :: 0 <= m < |movements| && movements[m].eventKey.Some? ==>
      && FindMovement(movements, movements[m].eventKey.value) == m
      && (HasPurchasePrefix(movements[m].eventKey.value) ==>
            exists k :: 0 <= k < |lines| && IsDeliveryOf(movements[m], lines[k]))
  }

  ghost predicate IsDeliveryOf(m: Movement, l: ReceiptLine) {
    && m.eventKey == Some(PurchaseKey(l.receiptId, l.id))
    && m.kind == IN && m.referenceType == PURCHASE && m.referenceId == l.receiptId
    && m.productId == l.line.productId && m.quantity == l.line.quantity && m.unitCost == Some(l.unitCost)
  }

  ghost predicate LinesKept(lines: seq<ReceiptLine>, receipts: nat) {
    && (forall k :: 0 <= k < |lines| ==>
          lines[k].receipt < receipts && Plain(lines[k].receiptId) && Plain(lines[k].id))
    && (forall k, l :: 0 <= k < l < |lines| ==> lines[k].receiptId != lines[l].receiptId || lines[k].id != lines[l].id)
  }

  ghost predicate JournalKept(b: BookState) {
    forall i :: 0 <= i < |b.journal| ==>
      match b.journal[i].key
      case OfMovement(m) => m < |b.tables.movements|
      case OfReceipt(r) => r < |b.totals|
  }

  ghost predicate RepairMatches(t: Tables) {
    && |t.events| == |t.movements|
    && forall m :: 0 <= m < |t.movements| && RepairLooksAt(t.movements[m]) ==>
         RepairPosting(t.movements[m]) == PostingOf(t.events[m])
  }

  /** Quantities and costs have the sign their transaction checked. */
  predicate SignsKept(event: StockEvent) {
    match event
    case StockIn(_, _, quantity, unitCost) => quantity > 0.0 && 0.0 <= unitCost
    case StockOut(_, _, allocations) => 0.0 <= Sum(Costs(allocations))
    case StockAdjusted(_, _, givenCost, allocations) => 0.0 <= Sum(Costs(allocations)) && 0.0 <= CostGiven(givenCost)
  }

  ghost predicate EventsKept(events: seq<StockEvent>) {
    forall m :: 0 <= m < |events| ==> SignsKept(events[m])
  }

  predicate PurchaseKept(row: Movement) {
    row.kind == IN && row.referenceType == PURCHASE ==> row.quantity > 0.0 && 0.0 <= CostGiven(row.unitCost)
  }

  ghost predicate PurchasesKept(movements: seq<Movement>) {
    forall m :: 0 <= m < |movements| ==> PurchaseKept(movements[m])
  }

  ghost predicate TotalsKept(b: BookState) {
    forall r: nat :: r < |b.totals| ==> b.totals[r] == ReceiptWorth(b.lines, r)
  }

  ghost predicate InOrder(b: BookState) {
    && KeysKept(b.tables.movements, b.lines)
    && LinesKept(b.lines, |b.totals|)
    && JournalKept(b)
    && RepairMatches(b.tables)
    && CostsKept(b.tables.batches)
    && EventsKept(b.tables.events)
    && PurchasesKept(b.tables.movements)
    && TotalsKept(b)
    && Balanced(b)
  }

  // ---------------------------------------------------------------- which histories

  ghost predicate OtherKey(eventKey: Option<string>) {
    eventKey.Some? ==> !HasPurchasePrefix(eventKey.value)
  }

  predicate Expensed(referenceType: ReferenceType) {
    referenceType == ORDER || referenceType == ADJUSTMENT
  }

  predicate Credited(referenceType: ReferenceType) {
    referenceType == RETURN || referenceType == ADJUSTMENT
  }

  /** Events value a receipt in the unit of the request, batches in the base unit. */
  predicate SameInBase(quantity: real, baseQuantity: real, unitCost: real) {
    baseQuantity == quantity || unitCost == 0.0
  }

  /** A stock-in that is journalled comes in base units or for nothing; one that is not, for nothing. */
  predicate ReceiptBookable(t: Tables, catalog: Catalog, receipt: Receipt) {
    || Recorded(t.movements, receipt.eventKey)
    || (Resolve(catalog, receipt.line).Ok? &&
        if Credited(receipt.referenceType)
        then SameInBase(receipt.line.quantity, Resolve(catalog, receipt.line).value.baseQuantity, receipt.unitCost)
        else receipt.unitCost == 0.0)
  }

  /** A stock-out that draws on a batch with a cost is journalled, and one for an order, which the repair
      loop values at its own quantity and the mean cost, is in base units. */
  ghost predicate IssueBookable(t: Tables, catalog: Catalog, issue: Issue) {
    || Recorded(t.movements, issue.eventKey)
    || (Resolve(catalog, issue.line).Ok? &&
        var r := Resolve(catalog, issue.line).value;
        DrawsAtCost(t.batches, MakeQuery(r, issue.now), r.baseQuantity) ==>
          Expensed(issue.referenceType) && (issue.referenceType == ORDER ==> r.baseQuantity == issue.line.quantity))
  }

  /** A lowering adjustment that brings a cost of its own meets a batch with a positive cost before the
      candidates ahead of it cover the quantity. */
  ghost predicate LoweringCovered(t: Tables, catalog: Catalog, a: Adjustment) {
    || CostGiven(a.unitCost) == 0.0
    || (Resolve(catalog, Lowered(a)).Ok? &&
        var r := Resolve(catalog, Lowered(a)).value;
        DrawsAtCost(t.batches, MakeQuery(r, a.now), r.baseQuantity))
  }

  ghost predicate AdjustmentBookable(t: Tables, catalog: Catalog, a: Adjustment) {
    if a.line.quantity > 0.0 then
      && Resolve(catalog, Lowered(a)).Ok?
      && SameInBase(a.line.quantity, Resolve(catalog, Lowered(a)).value.baseQuantity, CostGiven(a.unitCost))
    else LoweringCovered(t, catalog, a)
  }

  /** What can be told of a command before it runs; one that does not commit writes nothing. */
  ghost predicate Bookable(t: Tables, catalog: Catalog, c: Command) {
    Execute(t, catalog, c).Ok? ==>
      match c
      case DoStockIn(receipt) => ReceiptBookable(t, catalog, receipt)
      case DoStockOut(issue) => IssueBookable(t, catalog, issue)
      case DoAdjust(a) => AdjustmentBookable(t, catalog, a)
      case DoSettle(issue, _) => IssueBookable(t, catalog, issue)
      case DoRestock(restock) =>
        && Resolve(catalog, restock.line).Ok?
        && ReceiptBookable(t, catalog, ReturnReceipt(t, Resolve(catalog, restock.line).value, restock))
      case _ => true
  }

  /** The same of the delivery of a receipt line, whose cost the receipt's own entry carries. */
  predicate DeliveryBookable(t: Tables, catalog: Catalog, l: ReceiptLine) {
    Execute(t, catalog, DoStockIn(Delivery(l))).Ok? && !StockedIn(t, l) ==>
      && Resolve(catalog, l.line).Ok?
      && SameInBase(l.line.quantity, Resolve(catalog, l.line).value.baseQuantity, l.unitCost)
  }

  ghost predicate Booked(b: BookState, step: BookStep) {
    match step
    case DeliverLine(k, catalog) => k < |b.lines| ==> DeliveryBookable(b.tables, catalog, b.lines[k])
    case MoveStock(catalog, command) => Bookable(b.tables, catalog, command)
    case _ => true
  }

  function MovementKey(c: Command): Option<string> {
    match c
    case DoStockIn(receipt) => receipt.eventKey
    case DoStockOut(issue) => issue.eventKey
    case DoSettle(issue, _) => issue.eventKey
    case DoRestock(restock) => restock.eventKey
    case _ => None
  }

  ghost predicate FreshLines(b: BookState, receiptId: Id, lines: seq<ReceiptLine>) {
    && Plain(receiptId)
    && (forall k :: 0 <= k < |lines| ==>
          lines[k].receipt == |b.totals| && lines[k].receiptId == receiptId && Plain(lines[k].id))
    && (forall k, l :: 0 <= k < l < |lines| ==> lines[k].id != lines[l].id)
    && (forall k :: 0 <= k < |b.lines| ==> b.lines[k].receiptId != receiptId)
  }

  /** Purchase keys are left to purchases, and receipt and line ids are new. */
  ghost predicate KeysRespected(b: BookState, step: BookStep) {
    match step
    case ReceiveGoods(receiptId, lines) => FreshLines(b, receiptId, lines)
    case MoveStock(_, command) => OtherKey(MovementKey(command))
    case _ => true
  }

  ghost predicate Regular(b: BookState, step: BookStep) {
    KeysRespected(b, step) && Booked(b, step)
  }

  ghost predicate RegularHistory(steps: seq<BookStep>) {
    forall k :: 0 <= k < |steps| ==> Regular(History(steps[..k]), steps[k])
  }

  // ---------------------------------------------------------------- posting

  lemma {:induction false} PostedKeys(journal: seq<Entry>, e: Entry, key: JournalKey)
    ensures Journalled(journal + [e], key) <==> Journalled(journal, key) || e.key == key
  {
    if journal != [] {
      assert (journal + [e])[1..] == journal[1..] + [e];
      PostedKeys(journal[1..], e, key);
    }
  }

  lemma {:induction false} PostedKey(journal: seq<Entry>, e: Entry)
    ensures forall k :: Journalled(journal + [e], k) <==> Journalled(journal, k) || k == e.key
  {
    forall k ensures Journalled(journal + [e], k) <==> Journalled(journal, k) || k == e.key {
      PostedKeys(journal, e, k);
    }
  }

  lemma PostSettlesEvents(b: BookState, e: Entry)
    requires forall k :: Journalled(b.journal + [e], k) <==> Journalled(b.journal, k) || k == e.key
    ensures var after := b.(journal := b.journal + [e]);
      match e.key
      case OfMovement(m) => m < |b.tables.events| ==> PendingEvents(after) == PendingEvents(b)[m := 0.0]
      case OfReceipt(r) => PendingEvents(after) == PendingEvents(b)
  {}

  lemma PostSettlesReceipts(b: BookState, e: Entry)
    requires forall k :: Journalled(b.journal + [e], k) <==> Journalled(b.journal, k) || k == e.key
    ensures var after := b.(journal := b.journal + [e]);
      match e.key
      case OfMovement(m) => PendingReceipts(after) == PendingReceipts(b)
      case OfReceipt(r) => r < |b.totals| ==> PendingReceipts(after) == PendingReceipts(b)[r := 0.0]
  {}

  /** What is pending for a key is no longer pending once an entry with the key is journalled. */
  lemma PostSettlesPending(b: BookState, e: Entry)
    requires match e.key case OfMovement(m) => m < |b.tables.events| case OfReceipt(r) => r < |b.totals|
    ensures var after := b.(journal := b.journal + [e]);
      match e.key
      case OfMovement(m) =>
        PendingEvents(after) == PendingEvents(b)[m := 0.0] && PendingReceipts(after) == PendingReceipts(b)
      case OfReceipt(r) =>
        PendingReceipts(after) == PendingReceipts(b)[r := 0.0] && PendingEvents(after) == PendingEvents(b)
  {
    PostedKey(b.journal, e);
    PostSettlesEvents(b, e);
    PostSettlesReceipts(b, e);
  }

  /** Posting an event's amount moves it from pending to the balance. */
  lemma PostMovesAmount(b: BookState, key: JournalKey, p: Posting)
    requires InOrder(b) && !Journalled(b.journal, key)
    requires match key
      case OfMovement(m) => m < |b.tables.events| && Effect(p.debit, p.credit, p.amount) == EventAmount(b.tables.events[m])
      case OfReceipt(r) => r < |b.totals| && Effect(p.debit, p.credit, p.amount) == b.totals[r]
    ensures InOrder(b.(journal := Post(b.journal, key, p)))
  {
    var e := Entry(key, p.debit, p.credit, p.amount);
    var after := b.(journal := b.journal + [e]);
    var effect := Effect(p.debit, p.credit, p.amount);
    SumSnoc(EffectColumn(b.journal), effect);
    assert EffectColumn(after.journal) == EffectColumn(b.journal) + [effect];
    PostSettlesPending(b, e);
    match key {
      case OfMovement(m) => SumUpdate(PendingEvents(b), m, 0.0);
      case OfReceipt(r) => SumUpdate(PendingReceipts(b), r, 0.0);
    }
    assert Unstocked(after) == Unstocked(b);
  }

  lemma PostIfKeeps(b: BookState, key: JournalKey, p: Option<Posting>)
    requires InOrder(b)
    requires p.Some? ==>
      match key
      case OfMovement(m) =>
        m < |b.tables.events| && Effect(p.value.debit, p.value.credit, p.value.amount) == EventAmount(b.tables.events[m])
      case OfReceipt(r) =>
        r < |b.totals| && Effect(p.value.debit, p.value.credit, p.value.amount) == b.totals[r]
    ensures InOrder(b.(journal := PostIf(b.journal, key, p)))
  {
    if p.Some? && !Journalled(b.journal, key) {
      PostMovesAmount(b, key, p.value);
    }
  }

  // ---------------------------------------------------------------- stock movements

  lemma NewBatchValue(batches: seq<Batch>, b: Batch)
    ensures Value(batches + [b]) == Value(batches) + Worth(b.remaining, b.unitCost)
  {
    SumSnoc(ValueColumn(batches), Worth(b.remaining, b.unitCost));
    assert ValueColumn(batches + [b]) == ValueColumn(batches) + [Worth(b.remaining, b.unitCost)];
  }

  lemma SameInBaseIsSameWorth(quantity: real, baseQuantity: real, unitCost: real)
    ensures SameInBase(quantity, baseQuantity, unitCost)
       <==> Worth(quantity, unitCost) == Worth(baseQuantity, unitCost)
  {
    assert Worth(quantity, unitCost) - Worth(baseQuantity, unitCost) == (quantity - baseQuantity) * unitCost;
  }

  lemma ConsumeCostsNothingLess(batches: seq<Batch>, query: Query, quantity: real)
    requires CostsKept(batches) && Consume(batches, query, quantity).Ok?
    ensures var c := Consume(batches, query, quantity).value;
      && 0.0 <= Sum(Costs(c.allocations))
      && CostsKept(c.batches)
      && c.allocations != []
      && Sum(Quantities(c.allocations)) == quantity
      && Value(c.batches) == Value(batches) - Sum(Costs(c.allocations))
  {
    ConsumeDeducts(batches, query, quantity);
    ConsumeIsExactAndGreedy(batches, query, quantity);
    ConsumeCostsTheDrop(batches, query, quantity);
    var c := Consume(batches, query, quantity).value;
    forall k | 0 <= k < |c.allocations| ensures 0.0 <= Costs(c.allocations)[k] {
      WorthIsNotNegative(c.allocations[k].quantity, c.allocations[k].unitCost);
    }
    SumNonNegative(Costs(c.allocations));
  }

  lemma WorthIsNotNegative(quantity: real, unitCost: real)
    requires 0.0 <= quantity && 0.0 <= unitCost
    ensures 0.0 <= Worth(quantity, unitCost)
  {}

  /** The mean cost times the quantity is the cost of the allocations exactly when the quantity is in base
      units or nothing was drawn at a cost. */
  lemma MeanTimesQuantity(allocations: seq<Allocation>, quantity: real, baseQuantity: real)
    requires allocations != [] && Sum(Quantities(allocations)) == baseQuantity
    requires baseQuantity > 0.0 && quantity > 0.0 && 0.0 <= Sum(Costs(allocations))
    ensures var drawn, worth := Sum(Costs(allocations)), Worth(quantity, CostGiven(Mean(allocations)));
      && (worth > 0.0 <==> drawn > 0.0)
      && (worth == drawn <==> drawn == 0.0 || baseQuantity == quantity)
  {
    var drawn := Sum(Costs(allocations));
    var mean := drawn / baseQuantity;
    assert mean * baseQuantity == drawn;
    SameInBaseIsSameWorth(quantity, baseQuantity, mean);
  }

  /** u is t with one more movement and its event. */
  ghost predicate Moved(t: Tables, u: Tables) {
    && |u.movements| == |t.movements| + 1 && u.movements[..|t.movements|] == t.movements
    && |u.events| == |t.events| + 1 && u.events[..|t.events|] == t.events
    && !Recorded(t.movements, NewRow(u).eventKey)
    && CostsKept(u.batches)
    && SignsKept(NewEvent(u)) && PurchaseKept(NewRow(u))
    && (RepairAgrees(NewRow(u), NewEvent(u)) || RepairIsOff(NewRow(u), NewEvent(u)))
  }

  /** The repair loop would post something else than the event carries. */
  predicate RepairIsOff(row: Movement, event: StockEvent) {
    match RepairPosting(row)
    case None => false
    case Some(p) => Effect(p.debit, p.credit, p.amount) != EventAmount(event)
  }

  function NewRow(u: Tables): Movement
    requires u.movements != []
  {
    u.movements[|u.movements| - 1]
  }

  function NewEvent(u: Tables): StockEvent
    requires u.events != []
  {
    u.events[|u.events| - 1]
  }

  /** The event carries the value that the batches gained, and the repair loop would post the same. */
  ghost predicate Carried(t: Tables, u: Tables)
    requires u.movements != [] && u.events != []
  {
    EventAmount(NewEvent(u)) == Value(u.batches) - Value(t.batches) && RepairAgrees(NewRow(u), NewEvent(u))
  }

  predicate RepairAgrees(row: Movement, event: StockEvent) {
    RepairLooksAt(row) ==> RepairPosting(row) == PostingOf(event)
  }

  ghost predicate Untouched(t: Tables, u: Tables) {
    u.movements == t.movements && u.events == t.events && u.batches == t.batches
  }

  /** Nothing on the books, or one movement with this key, carried exactly when it should be. */
  ghost predicate MovedExactly(t: Tables, u: Tables, key: Option<string>, bookable: bool) {
    if u.movements == t.movements then Untouched(t, u) && bookable
    else Moved(t, u) && NewRow(u).eventKey == key && (Carried(t, u) <==> bookable)
  }

  lemma ReceivedMoves(t: Tables, r: Resolved, receipt: Receipt)
    requires CostsKept(t.batches) && !Recorded(t.movements, receipt.eventKey)
    requires receipt.line.quantity > 0.0 && 0.0 <= receipt.unitCost
    ensures var u := Received(t, r, receipt);
      && Moved(t, u)
      && Value(u.batches) - Value(t.batches) == Worth(r.baseQuantity, receipt.unitCost)
  {
    NewBatchValue(t.batches,
                  Batch(r.productId, r.stockItemId, r.baseQuantity, r.baseQuantity, receipt.unitCost, receipt.expiry));
  }

  lemma StockInMoves(t: Tables, catalog: Catalog, receipt: Receipt)
    requires CostsKept(t.batches) && StockInTx(t, catalog, receipt).Ok?
    ensures MovedExactly(t, StockInTx(t, catalog, receipt).value, receipt.eventKey, ReceiptBookable(t, catalog, receipt))
  {
    if !Recorded(t.movements, receipt.eventKey) {
      var r := Resolve(catalog, receipt.line).value;
      ResolvedIsOfTheProduct(catalog, receipt.line);
      ReceivedMoves(t, r, receipt);
      SameInBaseIsSameWorth(receipt.line.quantity, r.baseQuantity, receipt.unitCost);
      WorthIsPositive(r.baseQuantity, receipt.unitCost);
    }
  }

  /** What is known of a consumption that commits. */
  ghost predicate Drawn(t: Tables, r: Resolved, now: int, c: Consumption) {
    && CostsKept(c.batches) && c.allocations != [] && Sum(Quantities(c.allocations)) == r.baseQuantity > 0.0
    && Value(c.batches) == Value(t.batches) - Sum(Costs(c.allocations)) && 0.0 <= Sum(Costs(c.allocations))
    && (Sum(Costs(c.allocations)) > 0.0 <==> DrawsAtCost(t.batches, MakeQuery(r, now), r.baseQuantity))
  }

  lemma ConsumptionIsDrawn(t: Tables, r: Resolved, now: int)
    requires CostsKept(t.batches) && r.baseQuantity > 0.0
    requires Consume(t.batches, MakeQuery(r, now), r.baseQuantity).Ok?
    ensures Drawn(t, r, now, Consume(t.batches, MakeQuery(r, now), r.baseQuantity).value)
  {
    ConsumeCostsNothingLess(t.batches, MakeQuery(r, now), r.baseQuantity);
    CostIsPositiveExactly(t.batches, MakeQuery(r, now), r.baseQuantity);
  }

  lemma IssuedMoves(t: Tables, r: Resolved, issue: Issue, c: Consumption)
    requires !Recorded(t.movements, issue.eventKey) && issue.line.quantity > 0.0 && Drawn(t, r, issue.now, c)
    ensures var u := Issued(t, r, issue, c);
      && Moved(t, u)
      && (Carried(t, u) <==> (Sum(Costs(c.allocations)) > 0.0 ==>
            Expensed(issue.referenceType) && (issue.referenceType == ORDER ==> r.baseQuantity == issue.line.quantity)))
  {
    MeanTimesQuantity(c.allocations, issue.line.quantity, r.baseQuantity);
  }

  lemma StockOutMoves(t: Tables, catalog: Catalog, issue: Issue)
    requires CostsKept(t.batches) && StockOutTx(t, catalog, issue).Ok?
    ensures MovedExactly(t, StockOutTx(t, catalog, issue).value, issue.eventKey, IssueBookable(t, catalog, issue))
  {
    if !Recorded(t.movements, issue.eventKey) {
      var r := Resolve(catalog, issue.line).value;
      ResolvedIsOfTheProduct(catalog, issue.line);
      ConsumptionIsDrawn(t, r, issue.now);
      IssuedMoves(t, r, issue, Consume(t.batches, MakeQuery(r, issue.now), r.baseQuantity).value);
    }
  }

  lemma AdjustedUpMoves(t: Tables, r: Resolved, a: Adjustment)
    requires CostsKept(t.batches) && a.line.quantity > 0.0 && 0.0 <= CostGiven(a.unitCost)
    ensures var u := AdjustedUp(t, r, a);
      && Moved(t, u)
      && (Carried(t, u) <==> SameInBase(a.line.quantity, r.baseQuantity, CostGiven(a.unitCost)))
  {
    NewBatchValue(t.batches,
                  Batch(r.productId, r.stockItemId, r.baseQuantity, r.baseQuantity, CostGiven(a.unitCost), None));
    SameInBaseIsSameWorth(a.line.quantity, r.baseQuantity, CostGiven(a.unitCost));
    assert Costs([]) == [];
  }

  /** The amount of a lowering adjustment is the cost drawn exactly when that is positive or the
      adjustment's own cost comes to nothing. */
  lemma LoweringAmount(quantity: real, givenCost: Option<real>, allocations: seq<Allocation>)
    requires quantity < 0.0 && 0.0 <= Sum(Costs(allocations)) && 0.0 <= CostGiven(givenCost)
    ensures AdjustedAmount(quantity, givenCost, allocations) == Sum(Costs(allocations))
       <==> Sum(Costs(allocations)) > 0.0 || CostGiven(givenCost) == 0.0
  {
    WorthIsPositive(Abs(quantity), CostGiven(givenCost));
  }

  lemma AdjustedDownMoves(t: Tables, r: Resolved, a: Adjustment, c: Consumption)
    requires a.line.quantity < 0.0 && 0.0 <= CostGiven(a.unitCost) && Drawn(t, r, a.now, c)
    ensures var u := AdjustedDown(t, r, a, c);
      && Moved(t, u)
      && (Carried(t, u) <==> CostGiven(a.unitCost) == 0.0 || Sum(Costs(c.allocations)) > 0.0)
  {
    LoweringAmount(a.line.quantity, a.unitCost, c.allocations);
  }

  lemma AdjustMoves(t: Tables, catalog: Catalog, a: Adjustment)
    requires CostsKept(t.batches) && AdjustTx(t, catalog, a).Ok?
    ensures MovedExactly(t, AdjustTx(t, catalog, a).value, None, AdjustmentBookable(t, catalog, a))
  {
    var r := Resolve(catalog, Lowered(a)).value;
    if a.line.quantity > 0.0 {
      AdjustedUpMoves(t, r, a);
    } else {
      ResolvedIsOfTheProduct(catalog, Lowered(a));
      ConsumptionIsDrawn(t, r, a.now);
      AdjustedDownMoves(t, r, a, Consume(t.batches, MakeQuery(r, a.now), r.baseQuantity).value);
    }
  }

  /** A committed lowering adjustment books what the batches lose if and only if it gives no cost of its
      own or draws on a batch with a positive cost, which the eligible batches show beforehand. */
  lemma {:induction false} LoweringIsBookedAtCostExactly(t: Tables, catalog: Catalog, a: Adjustment)
    requires CostsKept(t.batches) && a.line.quantity < 0.0 && AdjustTx(t, catalog, a).Ok?
    ensures var u := AdjustTx(t, catalog, a).value;
      && |u.events| == |t.events| + 1
      && (Value(u.batches) - Value(t.batches) == EventAmount(u.events[|t.events|]) <==> LoweringCovered(t, catalog, a))
  {
    AdjustMoves(t, catalog, a);
  }

  lemma SettleMoves(t: Tables, catalog: Catalog, issue: Issue, hold: Hold)
    requires CostsKept(t.batches) && SettleTx(t, catalog, issue, hold).Ok?
    ensures MovedExactly(t, SettleTx(t, catalog, issue, hold).value, issue.eventKey, IssueBookable(t, catalog, issue))
  {
    StockOutMoves(t, catalog, issue);
    ClosingTouchesNothing(t, catalog, issue, hold);
  }

  lemma ClosingTouchesNothing(t: Tables, catalog: Catalog, issue: Issue, hold: Hold)
    requires SettleTx(t, catalog, issue, hold).Ok?
    ensures StockOutTx(t, catalog, issue).Ok?
    ensures Untouched(StockOutTx(t, catalog, issue).value, SettleTx(t, catalog, issue, hold).value)
  {}

  /** The tables take a command as the condition on it says. */
  lemma {:induction false} CommandMoves(t: Tables, catalog: Catalog, c: Command)
    requires CostsKept(t.batches)
    ensures MovedExactly(t, Apply(t, catalog, c), MovementKey(c), Bookable(t, catalog, c))
  {
    if Execute(t, catalog, c).Ok? {
      match c
      case DoStockIn(receipt) => StockInMoves(t, catalog, receipt);
      case DoStockOut(issue) => StockOutMoves(t, catalog, issue);
      case DoAdjust(a) => AdjustMoves(t, catalog, a);
      case DoReserve(hold) =>
      case DoRelease(hold) =>
      case DoSettle(issue, hold) => SettleMoves(t, catalog, issue, hold);
      case DoRestock(restock) =>
        StockInMoves(t, catalog, ReturnReceipt(t, Resolve(catalog, restock.line).value, restock));
    }
  }

  // ---------------------------------------------------------------- one more movement

  lemma KeysStayKept(movements: seq<Movement>, lines: seq<ReceiptLine>, row: Movement)
    requires KeysKept(movements, lines) && !Recorded(movements, row.eventKey)
    requires OtherKey(row.eventKey) || exists k :: 0 <= k < |lines| && IsDeliveryOf(row, lines[k])
    ensures KeysKept(movements + [row], lines)
  {}

  lemma PendingGrows(b: BookState, u: Tables)
    requires InOrder(b) && Moved(b.tables, u)
    ensures Sum(PendingEvents(b.(tables := u))) == Sum(PendingEvents(b)) + EventAmount(NewEvent(u))
    ensures PendingReceipts(b.(tables := u)) == PendingReceipts(b)
  {
    assert !Journalled(b.journal, OfMovement(|b.tables.movements|));
    SumSnoc(PendingEvents(b), EventAmount(NewEvent(u)));
    assert PendingEvents(b.(tables := u)) == PendingEvents(b) + [EventAmount(NewEvent(u))];
  }

  lemma RowsStayKept(b: BookState, u: Tables)
    requires InOrder(b) && Moved(b.tables, u)
    requires OtherKey(NewRow(u).eventKey) || exists k :: 0 <= k < |b.lines| && IsDeliveryOf(NewRow(u), b.lines[k])
    ensures var after := b.(tables := u);
      && KeysKept(u.movements, b.lines) && JournalKept(after) && EventsKept(u.events) && PurchasesKept(u.movements)
      && TotalsKept(after)
      && (RepairMatches(u) <==> RepairAgrees(NewRow(u), NewEvent(u)))
  {
    assert u.movements == b.tables.movements + [NewRow(u)];
    KeysStayKept(b.tables.movements, b.lines, NewRow(u));
    SignsStayKept(b.tables, u);
    RepairsOfOneMore(b.tables, u);
  }

  lemma SignsStayKept(t: Tables, u: Tables)
    requires EventsKept(t.events) && PurchasesKept(t.movements) && Moved(t, u)
    ensures EventsKept(u.events) && PurchasesKept(u.movements)
  {
    forall m | 0 <= m < |u.events| ensures SignsKept(u.events[m]) {
      if m < |t.events| {
        assert u.events[m] == u.events[..|t.events|][m];
      }
    }
    forall m | 0 <= m < |u.movements| ensures PurchaseKept(u.movements[m]) {
      if m < |t.movements| {
        assert u.movements[m] == u.movements[..|t.movements|][m];
      }
    }
  }

  lemma RepairsOfOneMore(t: Tables, u: Tables)
    requires RepairMatches(t) && Moved(t, u)
    ensures RepairMatches(u) <==> RepairAgrees(NewRow(u), NewEvent(u))
  {
    var n := |t.movements|;
    forall m | 0 <= m < n ensures u.movements[m] == t.movements[m] && u.events[m] == t.events[m] {
      assert u.movements[m] == u.movements[..n][m] && u.events[m] == u.events[..n][m];
    }
    assert u.movements[n] == NewRow(u);
  }

  /** A movement that is no delivery leaves the receipt lines as they were. */
  lemma OtherMovementStocksInNothing(b: BookState, u: Tables)
    requires Moved(b.tables, u) && OtherKey(NewRow(u).eventKey)
    ensures Unstocked(b.(tables := u)) == Unstocked(b)
  {
    assert u.movements == b.tables.movements + [NewRow(u)];
    forall k | 0 <= k < |b.lines| ensures StockedIn(u, b.lines[k]) <==> StockedIn(b.tables, b.lines[k]) {
      var key := PurchaseKey(b.lines[k].receiptId, b.lines[k].id);
      assert HasPurchasePrefix(key);
      FindMovementInLonger(b.tables.movements, NewRow(u), key);
    }
  }

  lemma OtherMovementBalances(b: BookState, u: Tables)
    requires InOrder(b) && Moved(b.tables, u) && OtherKey(NewRow(u).eventKey)
    ensures Balanced(b.(tables := u)) <==> EventAmount(NewEvent(u)) == Value(u.batches) - Value(b.tables.batches)
  {
    PendingGrows(b, u);
    OtherMovementStocksInNothing(b, u);
  }

  /** Such a movement keeps the books in order if and only if it is carried. */
  lemma OtherMovementKeeps(b: BookState, u: Tables)
    requires InOrder(b) && Moved(b.tables, u) && OtherKey(NewRow(u).eventKey)
    ensures InOrder(b.(tables := u)) <==> Carried(b.tables, u)
  {
    RowsStayKept(b, u);
    OtherMovementBalances(b, u);
  }

  /** Stocking in line k touches no other line. */
  lemma DeliveryStocksInItsLine(b: BookState, k: nat, u: Tables)
    requires InOrder(b) && k < |b.lines| && Moved(b.tables, u) && IsDeliveryOf(NewRow(u), b.lines[k])
    ensures Sum(Unstocked(b.(tables := u)))
         == Sum(Unstocked(b)) - Worth(b.lines[k].line.quantity, b.lines[k].unitCost)
  {
    assert u.movements == b.tables.movements + [NewRow(u)];
    forall l | 0 <= l < |b.lines|
      ensures StockedIn(u, b.lines[l]) <==> StockedIn(b.tables, b.lines[l]) || l == k
    {
      DeliveryTouchesOneLine(b, k, l, NewRow(u));
    }
    SumUpdate(Unstocked(b), k, 0.0);
    assert Unstocked(b.(tables := u)) == Unstocked(b)[k := 0.0];
  }

  lemma DeliveryBalances(b: BookState, k: nat, u: Tables)
    requires InOrder(b) && k < |b.lines| && Moved(b.tables, u) && IsDeliveryOf(NewRow(u), b.lines[k])
    requires EventAmount(NewEvent(u)) == 0.0
    ensures Balanced(b.(tables := u))
       <==> Value(u.batches) - Value(b.tables.batches) == Worth(b.lines[k].line.quantity, b.lines[k].unitCost)
  {
    PendingGrows(b, u);
    DeliveryStocksInItsLine(b, k, u);
  }

  /** A delivery keeps the books in order if and only if the batches gain what the line is worth. */
  lemma DeliveryKeeps(b: BookState, k: nat, u: Tables)
    requires InOrder(b) && k < |b.lines| && Moved(b.tables, u) && IsDeliveryOf(NewRow(u), b.lines[k])
    requires EventAmount(NewEvent(u)) == 0.0
    ensures InOrder(b.(tables := u))
       <==> Value(u.batches) - Value(b.tables.batches) == Worth(b.lines[k].line.quantity, b.lines[k].unitCost)
  {
    RowsStayKept(b, u);
    DeliveryBalances(b, k, u);
  }

  lemma DeliveryTouchesOneLine(b: BookState, k: nat, l: nat, row: Movement)
    requires LinesKept(b.lines, |b.totals|) && k < |b.lines| && l < |b.lines| && IsDeliveryOf(row, b.lines[k])
    ensures Recorded(b.tables.movements + [row], Some(PurchaseKey(b.lines[l].receiptId, b.lines[l].id)))
      <==> StockedIn(b.tables, b.lines[l]) || l == k
  {
    FindMovementInLonger(b.tables.movements, row, PurchaseKey(b.lines[l].receiptId, b.lines[l].id));
    if PurchaseKey(b.lines[l].receiptId, b.lines[l].id) == PurchaseKey(b.lines[k].receiptId, b.lines[k].id) {
      PurchaseKeyIsInjective(b.lines[l].receiptId, b.lines[l].id, b.lines[k].receiptId, b.lines[k].id);
    }
  }

  lemma DeliverLineKeeps(b: BookState, k: nat, catalog: Catalog)
    requires InOrder(b) && k < |b.lines|
    ensures InOrder(b.(tables := Apply(b.tables, catalog, DoStockIn(Delivery(b.lines[k])))))
       <==> DeliveryBookable(b.tables, catalog, b.lines[k])
  {
    var t, l := b.tables, b.lines[k];
    var u := Apply(t, catalog, DoStockIn(Delivery(l)));
    if Execute(t, catalog, DoStockIn(Delivery(l))).Ok? && !StockedIn(t, l) {
      DeliveredLineMoves(t, catalog, l);
      DeliveryKeeps(b, k, u);
    } else {
      assert u == t && b.(tables := t) == b;
    }
  }

  lemma DeliveredLineMoves(t: Tables, catalog: Catalog, l: ReceiptLine)
    requires CostsKept(t.batches) && Execute(t, catalog, DoStockIn(Delivery(l))).Ok? && !StockedIn(t, l)
    ensures var u := Apply(t, catalog, DoStockIn(Delivery(l)));
      && Moved(t, u) && IsDeliveryOf(NewRow(u), l) && EventAmount(NewEvent(u)) == 0.0
      && (Value(u.batches) - Value(t.batches) == Worth(l.line.quantity, l.unitCost)
          <==> DeliveryBookable(t, catalog, l))
  {
    var r := Resolve(catalog, l.line).value;
    ReceivedMoves(t, r, Delivery(l));
    SameInBaseIsSameWorth(l.line.quantity, r.baseQuantity, l.unitCost);
  }

  // ---------------------------------------------------------------- a new receipt

  lemma ReceiptWorths(lines: seq<ReceiptLine>, more: seq<ReceiptLine>, receipts: nat)
    requires forall k :: 0 <= k < |lines| ==> lines[k].receipt < receipts
    requires forall k :: 0 <= k < |more| ==> more[k].receipt == receipts
    ensures ReceiptWorth(lines + more, receipts) == Sum(NewWorthColumn(more))
    ensures forall r: nat :: r < receipts ==> ReceiptWorth(lines + more, r) == ReceiptWorth(lines, r)
  {
    forall r: nat ensures ReceiptWorth(lines + more, r) == ReceiptWorth(lines, r) + ReceiptWorth(more, r) {
      assert WorthColumn(lines + more, r) == WorthColumn(lines, r) + WorthColumn(more, r);
      SumConcat(WorthColumn(lines, r), WorthColumn(more, r));
    }
    forall r: nat | r < receipts ensures ReceiptWorth(more, r) == 0.0 {
      SumZero(WorthColumn(more, r));
    }
    SumZero(WorthColumn(lines, receipts));
    assert WorthColumn(more, receipts) == NewWorthColumn(more);
  }

  lemma NewLinesAreNotStockedIn(b: BookState, receiptId: Id, lines: seq<ReceiptLine>, k: nat)
    requires InOrder(b) && FreshLines(b, receiptId, lines) && k < |lines|
    ensures !StockedIn(b.tables, lines[k])
  {
    var key := PurchaseKey(receiptId, lines[k].id);
    var m := FindMovement(b.tables.movements, key);
    if m < |b.tables.movements| {
      assert HasPurchasePrefix(key);
      var l :| 0 <= l < |b.lines| && IsDeliveryOf(b.tables.movements[m], b.lines[l]);
      PurchaseKeyIsInjective(receiptId, lines[k].id, b.lines[l].receiptId, b.lines[l].id);
      assert false;
    }
  }

  lemma ReceiveKeeps(b: BookState, receiptId: Id, lines: seq<ReceiptLine>)
    requires InOrder(b) && FreshLines(b, receiptId, lines)
    ensures InOrder(Advance(b, ReceiveGoods(receiptId, lines)))
  {
    TotalsStayKept(b, receiptId, lines);
    ReceiveBalances(b, receiptId, lines);
    MoreLinesKeepKeys(b.tables.movements, b.lines, lines);
    NewLinesAreKept(b, receiptId, lines);
    JournalStaysKept(b, receiptId, lines);
  }

  lemma TotalsStayKept(b: BookState, receiptId: Id, lines: seq<ReceiptLine>)
    requires LinesKept(b.lines, |b.totals|) && TotalsKept(b) && FreshLines(b, receiptId, lines)
    ensures TotalsKept(Advance(b, ReceiveGoods(receiptId, lines)))
  {
    ReceiptWorths(b.lines, lines, |b.totals|);
  }

  lemma JournalStaysKept(b: BookState, receiptId: Id, lines: seq<ReceiptLine>)
    requires JournalKept(b)
    ensures JournalKept(Advance(b, ReceiveGoods(receiptId, lines)))
  {}

  lemma NewLinesAreKept(b: BookState, receiptId: Id, lines: seq<ReceiptLine>)
    requires LinesKept(b.lines, |b.totals|) && FreshLines(b, receiptId, lines)
    ensures LinesKept(b.lines + lines, |b.totals| + 1)
  {}

  /** The new lines are all still to be stocked in. */
  lemma ReceivedIsUnstocked(b: BookState, receiptId: Id, lines: seq<ReceiptLine>)
    requires InOrder(b) && FreshLines(b, receiptId, lines)
    ensures Unstocked(Advance(b, ReceiveGoods(receiptId, lines))) == Unstocked(b) + NewWorthColumn(lines)
  {
    forall k: nat | k < |lines| ensures !StockedIn(b.tables, lines[k]) {
      NewLinesAreNotStockedIn(b, receiptId, lines, k);
    }
    UnstockedLinesAdd(b, lines, Advance(b, ReceiveGoods(receiptId, lines)));
  }

  lemma UnstockedLinesAdd(b: BookState, lines: seq<ReceiptLine>, after: BookState)
    requires forall k: nat :: k < |lines| ==> !StockedIn(b.tables, lines[k])
    requires after.tables == b.tables && after.lines == b.lines + lines
    ensures Unstocked(after) == Unstocked(b) + NewWorthColumn(lines)
  {}

  lemma NoEntryYet(b: BookState)
    requires JournalKept(b)
    ensures !Journalled(b.journal, OfReceipt(|b.totals|))
  {}

  /** The new receipt's total is still to be journalled. */
  lemma ReceivedIsPending(b: BookState, receiptId: Id, lines: seq<ReceiptLine>)
    requires JournalKept(b)
    ensures var after := Advance(b, ReceiveGoods(receiptId, lines));
      && PendingReceipts(after) == PendingReceipts(b) + [Sum(NewWorthColumn(lines))]
      && PendingEvents(after) == PendingEvents(b)
  {
    NoEntryYet(b);
  }

  lemma ReceiveBalances(b: BookState, receiptId: Id, lines: seq<ReceiptLine>)
    requires InOrder(b) && FreshLines(b, receiptId, lines)
    ensures Balanced(Advance(b, ReceiveGoods(receiptId, lines)))
  {
    ReceivedIsUnstocked(b, receiptId, lines);
    ReceivedIsPending(b, receiptId, lines);
    SumConcat(Unstocked(b), NewWorthColumn(lines));
    SumSnoc(PendingReceipts(b), Sum(NewWorthColumn(lines)));
  }

  lemma MoreLinesKeepKeys(movements: seq<Movement>, lines: seq<ReceiptLine>, more: seq<ReceiptLine>)
    requires KeysKept(movements, lines)
    ensures KeysKept(movements, lines + more)
  {
    forall m | 0 <= m < |movements| && movements[m].eventKey.Some? && HasPurchasePrefix(movements[m].eventKey.value)
      ensures exists k :: 0 <= k < |lines + more| && IsDeliveryOf(movements[m], (lines + more)[k])
    {
      var k :| 0 <= k < |lines| && IsDeliveryOf(movements[m], lines[k]);
      assert (lines + more)[k] == lines[k];
    }
  }

  // ---------------------------------------------------------------- every history

  /** A posting that is made carries the event's amount, and one that is not made would carry nothing. */
  lemma PostingCarriesTheAmount(event: StockEvent)
    requires SignsKept(event)
    ensures match PostingOf(event)
      case Some(p) => Effect(p.debit, p.credit, p.amount) == EventAmount(event)
      case None => EventAmount(event) == 0.0
  {
    match event
    case StockIn(_, _, quantity, unitCost) => WorthIsPositive(quantity, unitCost);
    case StockOut(_, _, _) =>
    case StockAdjusted(_, quantity, givenCost, _) =>
      if quantity != 0.0 {
        WorthIsPositive(Abs(quantity), CostGiven(givenCost));
      }
  }

  lemma MoveStockKeeps(b: BookState, catalog: Catalog, command: Command)
    requires InOrder(b) && OtherKey(MovementKey(command))
    ensures InOrder(b.(tables := Apply(b.tables, catalog, command))) <==> Bookable(b.tables, catalog, command)
  {
    CommandMoves(b.tables, catalog, command);
    var u := Apply(b.tables, catalog, command);
    if u.movements == b.tables.movements {
      UntouchedKeeps(b, u);
    } else {
      OtherMovementKeeps(b, u);
    }
  }

  lemma UntouchedKeeps(b: BookState, u: Tables)
    requires InOrder(b) && Untouched(b.tables, u)
    ensures InOrder(b.(tables := u))
  {
    assert PendingEvents(b.(tables := u)) == PendingEvents(b);
    assert Unstocked(b.(tables := u)) == Unstocked(b);
    assert PendingReceipts(b.(tables := u)) == PendingReceipts(b);
  }

  lemma StockEventKeeps(b: BookState, m: nat)
    requires InOrder(b) && m < |b.tables.events|
    ensures InOrder(b.(journal := PostIf(b.journal, OfMovement(m), PostingOf(b.tables.events[m]))))
  {
    PostingCarriesTheAmount(b.tables.events[m]);
    PostIfKeeps(b, OfMovement(m), PostingOf(b.tables.events[m]));
  }

  lemma ReceiptKeeps(b: BookState, r: nat)
    requires InOrder(b) && r < |b.totals|
    ensures InOrder(b.(journal := PostIf(b.journal, OfReceipt(r), ReceiptPosting(b.totals[r]))))
  {
    PostIfKeeps(b, OfReceipt(r), ReceiptPosting(b.totals[r]));
  }

  /** The repair loop posts for a movement what its event's handler would, or nothing. */
  lemma RepairPostsTheSame(t: Tables, m: nat)
    requires RepairMatches(t) && m < |t.movements|
    ensures RepairPosting(t.movements[m]) == PostingOf(t.events[m]) || RepairPosting(t.movements[m]) == None
  {}

  lemma RepairKeeps(b: BookState, m: nat)
    requires InOrder(b) && m < |b.tables.movements|
    ensures InOrder(b.(journal := PostIf(b.journal, OfMovement(m), RepairPosting(b.tables.movements[m]))))
  {
    RepairPostsTheSame(b.tables, m);
    if RepairPosting(b.tables.movements[m]).Some? {
      StockEventKeeps(b, m);
    } else {
      assert b.(journal := b.journal) == b;
    }
  }

  /** A step that respects keys keeps the books in order if and only if it is booked. */
  lemma {:induction false} EveryStepKeepsOrder(b: BookState, step: BookStep)
    requires InOrder(b) && KeysRespected(b, step)
    ensures InOrder(Advance(b, step)) <==> Booked(b, step)
  {
    match step
    case ReceiveGoods(receiptId, lines) => ReceiveKeeps(b, receiptId, lines);
    case DeliverLine(k, catalog) =>
      if k < |b.lines| {
        DeliverLineKeeps(b, k, catalog);
      }
    case MoveStock(catalog, command) => MoveStockKeeps(b, catalog, command);
    case HandleStockEvent(m) =>
      if m < |b.tables.events| {
        StockEventKeeps(b, m);
      }
    case HandleReceiptEvent(r) =>
      if r < |b.totals| {
        ReceiptKeeps(b, r);
      }
    case RepairMovement(m) =>
      if m < |b.tables.movements| {
        RepairKeeps(b, m);
      }
    case RepairReceipt(r) =>
      if r < |b.totals| {
        ReceiptKeeps(b, r);
      }
  }

  /** Posting for an event that is not journalled keeps the balance exactly when it posts the event's amount. */
  lemma PostShifts(b: BookState, m: nat, p: Posting)
    requires Balanced(b) && m < |b.tables.events| && !Journalled(b.journal, OfMovement(m))
    ensures Balanced(b.(journal := Post(b.journal, OfMovement(m), p)))
       <==> Effect(p.debit, p.credit, p.amount) == EventAmount(b.tables.events[m])
  {
    var e := Entry(OfMovement(m), p.debit, p.credit, p.amount);
    var effect := Effect(p.debit, p.credit, p.amount);
    SumSnoc(EffectColumn(b.journal), effect);
    assert EffectColumn(b.journal + [e]) == EffectColumn(b.journal) + [effect];
    PostSettlesPending(b, e);
    SumUpdate(PendingEvents(b), m, 0.0);
    assert Unstocked(b.(journal := b.journal + [e])) == Unstocked(b);
  }

  lemma OffRepairBreaks(b: BookState, u: Tables)
    requires InOrder(b) && Moved(b.tables, u) && RepairIsOff(NewRow(u), NewEvent(u)) && Balanced(b.(tables := u))
    ensures !Balanced(Advance(b.(tables := u), RepairMovement(|b.tables.movements|)))
  {
    var n := |b.tables.movements|;
    assert !Journalled(b.journal, OfMovement(n));
    PostShifts(b.(tables := u), n, RepairPosting(u.movements[n]).value);
  }

  lemma UnbookedMoveBreaks(b: BookState, catalog: Catalog, command: Command)
    requires InOrder(b) && OtherKey(MovementKey(command)) && !Bookable(b.tables, catalog, command)
    ensures var after := b.(tables := Apply(b.tables, catalog, command));
      !Balanced(after) || !Balanced(Advance(after, RepairMovement(|b.tables.movements|)))
  {
    var u := Apply(b.tables, catalog, command);
    CommandMoves(b.tables, catalog, command);
    OtherMovementBalances(b, u);
    if Balanced(b.(tables := u)) {
      OffRepairBreaks(b, u);
    }
  }

  lemma {:induction false} UnbookedBreaksTheBalance(b: BookState, step: BookStep)
    requires InOrder(b) && KeysRespected(b, step) && !Booked(b, step)
    ensures var after := Advance(b, step);
      !Balanced(after) || !Balanced(Advance(after, RepairMovement(|b.tables.movements|)))
  {
    match step
    case MoveStock(catalog, command) => UnbookedMoveBreaks(b, catalog, command);
    case DeliverLine(k, catalog) =>
      DeliveredLineMoves(b.tables, catalog, b.lines[k]);
      DeliveryBalances(b, k, Apply(b.tables, catalog, DoStockIn(Delivery(b.lines[k]))));
  }

  /** A step is booked if and only if the balance holds after it, and still holds when the repair loop comes
      to its movement before the event's handler does. */
  lemma {:induction false} BookedExactly(b: BookState, step: BookStep)
    requires InOrder(b) && KeysRespected(b, step)
    ensures var after := Advance(b, step);
      Booked(b, step) <==> Balanced(after) && Balanced(Advance(after, RepairMovement(|b.tables.movements|)))
  {
    if Booked(b, step) {
      EveryStepKeepsOrder(b, step);
      EveryStepKeepsOrder(Advance(b, step), RepairMovement(|b.tables.movements|));
    } else {
      UnbookedBreaksTheBalance(b, step);
    }
  }

  lemma NoBooksAreInOrder()
    ensures InOrder(NoBooks)
  {
    assert EffectColumn(NoBooks.journal) == [] && PendingEvents(NoBooks) == [];
    assert PendingReceipts(NoBooks) == [] && ValueColumn(NoBooks.tables.batches) == [] && Unstocked(NoBooks) == [];
  }

  lemma {:induction false} HistoriesAreInOrder(steps: seq<BookStep>)
    requires RegularHistory(steps)
    ensures InOrder(History(steps))
  {
    if steps == [] {
      NoBooksAreInOrder();
    } else {
      var last := |steps| - 1;
      forall k | 0 <= k < last ensures steps[..last][..k] == steps[..k] {}
      HistoriesAreInOrder(steps[..last]);
      EveryStepKeepsOrder(History(steps[..last]), steps[last]);
    }
  }

  /** In every history: the inventory account, plus the amounts of events not yet journalled, is the
      value of the batches plus that of receipt lines not yet stocked in. */
  lemma {:induction false} InventoryAccountTracksValuation(steps: seq<BookStep>)
    requires RegularHistory(steps)
    ensures var b := History(steps);
      InventoryBalance(b.journal) + Sum(PendingEvents(b)) + Sum(PendingReceipts(b))
      == Value(b.tables.batches) + Sum(Unstocked(b))
  {
    HistoriesAreInOrder(steps);
  }
}
