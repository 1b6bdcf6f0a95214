/** Stock and its bookkeeping together: goods receipts, the ledger, and the journal that event handlers
    and the repair loop append to (accounting/accounting-domain-events.handler.ts,
    accounting/accounting.service.ts, inventory/inventory-purchase-events.handler.ts,
    reconciliation/reconciliation.service.ts). */
module Books {
  import opened Common
  import opened Fifo
  import opened Identity
  import opened Ledger

  datatype Account = INVENTORY | COST_OF_GOODS_SOLD | GOODS_RECEIVED_CLEARING

  /** The event keys of the journal entries that touch the inventory account; the two keys per
      movement that differ only in their suffix belong to movements of different types. */
  datatype JournalKey = OfMovement(movement: nat) | OfReceipt(receipt: nat)

  /** A two-line entry: one account debited, one credited, by the same amount. */
  datatype Entry = Entry(key: JournalKey, debit: Account, credit: Account, amount: real)

  datatype Posting = Posting(debit: Account, credit: Account, amount: real)

  /** A row of goods_receipt_items. */
  datatype ReceiptLine = ReceiptLine(
    receipt: nat,
    receiptId: Id,
    id: Id,
    line: Line,
    unitCost: real,
    hasBatchCode: bool,
    expiry: Option<int>)

  /** totals[r] is the total that receipt r's PurchaseReceived event carries. */
  datatype BookState = BookState(tables: Tables, totals: seq<real>, lines: seq<ReceiptLine>, journal: seq<Entry>)

  // ---------------------------------------------------------------- journal

  function FindEntry(journal: seq<Entry>, key: JournalKey): (i: nat)
    ensures i <= |journal|
    ensures i < |journal| ==> journal[i].key == key
  {
    if journal == [] then 0 else if journal[0].key == key then 0 else 1 + FindEntry(journal[1..], key)
  }

  predicate Journalled(journal: seq<Entry>, key: JournalKey) {
    FindEntry(journal, key) < |journal|
  }

  /** createJournalEntry: an entry with a known event key is not made again. */
  function Post(journal: seq<Entry>, key: JournalKey, p: Posting): seq<Entry> {
    if Journalled(journal, key) then journal else journal + [Entry(key, p.debit, p.credit, p.amount)]
  }

  function Effect(debit: Account, credit: Account, amount: real): real {
    (if debit == INVENTORY then amount else 0.0) - (if credit == INVENTORY then amount else 0.0)
  }

  function EffectColumn(journal: seq<Entry>): (r: seq<real>)
    ensures |r| == |journal|
  {
    seq(|journal|, i requires 0 <= i < |journal| => Effect(journal[i].debit, journal[i].credit, journal[i].amount))
  }

  /** Debit minus credit of the INVENTORY account. */
  function InventoryBalance(journal: seq<Entry>): real {
    Sum(EffectColumn(journal))
  }

  // ---------------------------------------------------------------- what the handlers post

  /** The entry an accounting handler makes of a stock event; amounts that are not positive make none. */
  function PostingOf(event: StockEvent): Option<Posting> {
    match event
    case StockIn(referenceType, _, quantity, unitCost) =>
      var amount := Worth(quantity, unitCost);
      if (referenceType == RETURN || referenceType == ADJUSTMENT) && amount > 0.0
      then Some(Posting(INVENTORY, COST_OF_GOODS_SOLD, amount))
      else None
    case StockOut(referenceType, _, allocations) =>
      var amount := Sum(Costs(allocations));
      if (referenceType == ORDER || referenceType == ADJUSTMENT) && amount > 0.0
      then Some(Posting(COST_OF_GOODS_SOLD, INVENTORY, amount))
      else None
    case StockAdjusted(_, quantity, givenCost, allocations) =>
      var amount := AdjustedAmount(quantity, givenCost, allocations);
      if amount <= 0.0 then None
      else if quantity < 0.0 then Some(Posting(COST_OF_GOODS_SOLD, INVENTORY, amount))
      else Some(Posting(INVENTORY, COST_OF_GOODS_SOLD, amount))
  }

  /** The allocated cost when there is one, else the quantity at the cost given with the adjustment. */
  function AdjustedAmount(quantity: real, givenCost: Option<real>, allocations: seq<Allocation>): real {
    var drawn := Sum(Costs(allocations));
    if drawn > 0.0 then drawn else Worth(Abs(quantity), CostGiven(givenCost))
  }

  /** The amount a stock event carries for the inventory account, debit positive. */
  function EventAmount(event: StockEvent): real {
    match event
    case StockIn(referenceType, _, quantity, unitCost) =>
      if referenceType == RETURN || referenceType == ADJUSTMENT then Worth(quantity, unitCost) else 0.0
    case StockOut(referenceType, _, allocations) =>
      if referenceType == ORDER || referenceType == ADJUSTMENT then -Sum(Costs(allocations)) else 0.0
    case StockAdjusted(_, quantity, givenCost, allocations) =>
      var amount := AdjustedAmount(quantity, givenCost, allocations);
      if quantity < 0.0 then -amount else amount
  }

  /** recordGoodsReceived refuses a total that is not positive. */
  function ReceiptPosting(total: real): Option<Posting> {
    if total > 0.0 then Some(Posting(INVENTORY, GOODS_RECEIVED_CLEARING, total)) else None
  }

  // ---------------------------------------------------------------- what the repair loop posts

  /** reconcileInventoryAccountingEntries: the movement's own quantity and cost, for the two kinds of
      movement it looks at. */
  function RepairPosting(m: Movement): Option<Posting> {
    var amount := Worth(m.quantity, CostGiven(m.unitCost));
    if m.kind == OUT && m.referenceType == ORDER && amount > 0.0
    then Some(Posting(COST_OF_GOODS_SOLD, INVENTORY, amount))
    else if m.kind == IN && m.referenceType == RETURN && amount > 0.0
    then Some(Posting(INVENTORY, COST_OF_GOODS_SOLD, amount))
    else None
  }

  predicate RepairLooksAt(m: Movement) {
    (m.kind == OUT && m.referenceType == ORDER) || (m.kind == IN && m.referenceType == RETURN)
  }

  function WorthColumn(lines: seq<ReceiptLine>, receipt: nat): (r: seq<real>)
    ensures |r| == |lines|
  {
    seq(|lines|, k requires 0 <= k < |lines| =>
      if lines[k].receipt == receipt then Worth(lines[k].line.quantity, lines[k].unitCost) else 0.0)
  }

  /** The sum of quantity * unitCost over a receipt's items. */
  function ReceiptWorth(lines: seq<ReceiptLine>, receipt: nat): real {
    Sum(WorthColumn(lines, receipt))
  }

  // ---------------------------------------------------------------- receipts and their delivery

  const PurchasePrefix := "purchase-received:"

  function PurchaseKey(receiptId: Id, lineId: Id): string {
    PurchasePrefix + receiptId + ":" + lineId + ":stock-in"
  }

  /** The stock-in of a receipt line, the same from the event handler and from the repair loop. */
  function Delivery(l: ReceiptLine): Receipt {
    Receipt(l.line, l.unitCost, Some(PurchaseKey(l.receiptId, l.id)), l.hasBatchCode, l.expiry, PURCHASE, l.receiptId)
  }

  datatype BookStep =
    | ReceiveGoods(receiptId: Id, lines: seq<ReceiptLine>)
    | DeliverLine(line: nat, catalog: Catalog)
    | MoveStock(catalog: Catalog, command: Command)
    | HandleStockEvent(movement: nat)
    | HandleReceiptEvent(receipt: nat)
    | RepairMovement(movement: nat)
    | RepairReceipt(receipt: nat)

  function PostIf(journal: seq<Entry>, key: JournalKey, p: Option<Posting>): seq<Entry> {
    if p.Some? then Post(journal, key, p.value) else journal
  }

  function NewWorthColumn(lines: seq<ReceiptLine>): (r: seq<real>)
    ensures |r| == |lines|
  {
    seq(|lines|, k requires 0 <= k < |lines| => Worth(lines[k].line.quantity, lines[k].unitCost))
  }

  /** Every step is one committed transaction. Workers of the outbox and passes of the repair loop
      interleave at this grain, and may come back to the same event, line or movement at any time. */
  function Advance(b: BookState, step: BookStep): BookState {
    match step
    case ReceiveGoods(_, lines) =>
      b.(totals := b.totals + [Sum(NewWorthColumn(lines))], lines := b.lines + lines)
    case DeliverLine(k, catalog) =>
      if k < |b.lines| then b.(tables := Apply(b.tables, catalog, DoStockIn(Delivery(b.lines[k])))) else b
    case MoveStock(catalog, command) =>
      b.(tables := Apply(b.tables, catalog, command))
    case HandleStockEvent(m) =>
      if m < |b.tables.events| then b.(journal := PostIf(b.journal, OfMovement(m), PostingOf(b.tables.events[m]))) else b
    case HandleReceiptEvent(r) =>
      if r < |b.totals| then b.(journal := PostIf(b.journal, OfReceipt(r), ReceiptPosting(b.totals[r]))) else b
    case RepairMovement(m) =>
      if m < |b.tables.movements|
      then b.(journal := PostIf(b.journal, OfMovement(m), RepairPosting(b.tables.movements[m])))
      else b
    case RepairReceipt(r) =>
      if r < |b.totals| then b.(journal := PostIf(b.journal, OfReceipt(r), ReceiptPosting(ReceiptWorth(b.lines, r)))) else b
  }

  const NoBooks := BookState(Empty, [], [], [])

  function History(steps: seq<BookStep>): BookState {
    if steps == [] then NoBooks
    else Advance(History(steps[..|steps| - 1]), steps[|steps| - 1])
  }

  // ---------------------------------------------------------------- keys are not confused

  predicate Plain(id: Id) {
    ':' !in id
  }

  /** The stock-in key of a line tells its receipt and its id, which carry no colon. */
  lemma {:induction false} PurchaseKeyIsInjective(r1: Id, l1: Id, r2: Id, l2: Id)
    requires Plain(r1) && Plain(r2) && Plain(l1) && Plain(l2)
    requires PurchaseKey(r1, l1) == PurchaseKey(r2, l2)
    ensures r1 == r2 && l1 == l2
  {
    var rest1, rest2 := l1 + ":stock-in", l2 + ":stock-in";
    assert PurchaseKey(r1, l1) == PurchasePrefix + (r1 + ":" + rest1);
    assert PurchaseKey(r2, l2) == PurchasePrefix + (r2 + ":" + rest2);
    assert PurchaseKey(r1, l1)[|PurchasePrefix|..] == r1 + ":" + rest1;
    assert PurchaseKey(r2, l2)[|PurchasePrefix|..] == r2 + ":" + rest2;
    SplitAtColon(r1, rest1, r2, rest2);
    assert rest1 == l1 + ":" + "stock-in" && rest2 == l2 + ":" + "stock-in";
    SplitAtColon(l1, "stock-in", l2, "stock-in");
  }

  lemma {:induction false} SplitAtColon(x: string, more: string, y: string, rest: string)
    requires ':' !in x && ':' !in y && x + ":" + more == y + ":" + rest
    ensures x == y && more == rest
  {
    var s := x + ":" + more;
    assert s[|x|] == ':' && s[|y|] == ':';
    assert forall i :: 0 <= i < |x| ==> s[i] == x[i] && x[i] in x;
    assert forall i :: 0 <= i < |y| ==> s[i] == y[i] && y[i] in y;
    assert |x| == |y|;
    assert s[..|x|] == x && s[..|y|] == y;
    assert s[|x| + 1..] == more && s[|y| + 1..] == rest;
  }
}
