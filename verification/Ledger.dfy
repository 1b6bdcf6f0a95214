/** The inventory ledger as a state machine: item summaries, cost batches, reservations, movements and
    the stock events published with them. One function per transaction of
    inventory/inventory.service.ts gives the committed tables or the error that rolls them back. */
module Ledger {
  import opened Common
  import opened Fifo
  import opened Identity

  /** inventory_items rows are found by stock item, or by product where there is none. */
  datatype ItemKey = OfStock(stockItemId: Id) | Legacy(productId: Id)

  datatype Item = Item(key: ItemKey, productId: Id, onHand: real, reserved: real)

  datatype ReservationStatus = ACTIVE | RELEASED

  datatype Reservation = Reservation(
    key: string,
    productId: Id,
    stockItemId: Option<Id>,
    baseQuantity: real,
    status: ReservationStatus)

  datatype MovementType = IN | OUT | ADJUSTED

  datatype ReferenceType = ORDER | PURCHASE | ADJUSTMENT | RETURN

  datatype Movement = Movement(
    productId: Id,
    stockItemId: Option<Id>,
    kind: MovementType,
    eventKey: Option<string>,
    quantity: real,
    baseQuantity: real,
    unitCost: Option<real>,
    referenceType: ReferenceType,
    referenceId: Id)

  /** The outbox row written with each movement, at the movement's position. */
  datatype StockEvent =
    | StockIn(referenceType: ReferenceType, referenceId: Id, quantity: real, unitCost: real)
    | StockOut(referenceType: ReferenceType, referenceId: Id, allocations: seq<Allocation>)
    | StockAdjusted(referenceId: Id, quantity: real, givenCost: Option<real>, allocations: seq<Allocation>)

  /** The outbox rows written when a reservation is made or closed. */
  datatype HoldEvent = StockReserved(reservationKey: string) | ReservationReleased(reservationKey: string)

  datatype Tables = Tables(
    items: seq<Item>,
    batches: seq<Batch>,
    reservations: seq<Reservation>,
    movements: seq<Movement>,
    events: seq<StockEvent>,
    holdEvents: seq<HoldEvent>)

  datatype LedgerError =
    | QuantityInvalid
    | UnitCostNegative
    | Unresolved(why: IdentityError)
    | ConfigurationRefused
    | ReservationsNotEnabled
    | FifoFailed(reason: FifoError)
    | SummaryOutOfSync
    | InsufficientAvailable
    | ReservedOutOfSync

  // ---------------------------------------------------------------- requests

  datatype Receipt = Receipt(
    line: Line,
    unitCost: real,
    eventKey: Option<string>,
    hasBatchCode: bool,
    expiry: Option<int>,
    referenceType: ReferenceType,
    referenceId: Id)

  datatype Issue = Issue(
    line: Line,
    eventKey: Option<string>,
    referenceType: ReferenceType,
    referenceId: Id,
    now: int)

  /** line.quantity is the signed quantity delta; a cost of zero counts as not given. */
  datatype Adjustment = Adjustment(
    line: Line,
    unitCost: Option<real>,
    hasBatchCode: bool,
    referenceId: Id,
    now: int)

  datatype Hold = Hold(line: Line, reservationKey: string)

  datatype Restock = Restock(line: Line, orderId: Id, eventKey: Option<string>)

  datatype Command =
    | DoStockIn(receipt: Receipt)
    | DoStockOut(issue: Issue)
    | DoAdjust(adjustment: Adjustment)
    | DoReserve(hold: Hold)
    | DoRelease(hold: Hold)
    | DoSettle(issue: Issue, hold: Hold)
    | DoRestock(restock: Restock)

  // ---------------------------------------------------------------- finding and updating rows

  function KeyOf(productId: Id, stockItemId: Option<Id>): ItemKey {
    if stockItemId.Some? then OfStock(stockItemId.value) else Legacy(productId)
  }

  /** The position of the row with this key, or the table's length. */
  function FindItem(items: seq<Item>, key: ItemKey): (i: nat)
    ensures i <= |items|
    ensures i < |items| ==> items[i].key == key
    ensures forall j :: 0 <= j < i ==> items[j].key != key
  {
    if items == [] then 0 else if items[0].key == key then 0 else 1 + FindItem(items[1..], key)
  }

  lemma {:induction false} FindItemInLonger(items: seq<Item>, row: Item, key: ItemKey)
    ensures FindItem(items, key) < |items| ==> FindItem(items + [row], key) == FindItem(items, key)
    ensures FindItem(items, key) == |items| ==>
      FindItem(items + [row], key) == if row.key == key then |items| else |items| + 1
  {
    if items != [] {
      assert (items + [row])[1..] == items[1..] + [row];
      FindItemInLonger(items[1..], row, key);
    }
  }

  lemma {:induction false} FindItemAfterUpdate(items: seq<Item>, i: nat, row: Item, key: ItemKey)
    requires i < |items| && row.key == items[i].key
    ensures FindItem(items[i := row], key) == FindItem(items, key)
  {
    if i > 0 {
      assert items[i := row][1..] == items[1..][i - 1 := row];
      FindItemAfterUpdate(items[1..], i - 1, row, key);
    } else {
      assert items[0 := row][1..] == items[1..];
    }
  }

  function FindReservation(reservations: seq<Reservation>, key: string): (i: nat)
    ensures i <= |reservations|
    ensures i < |reservations| ==> reservations[i].key == key
    ensures forall j :: 0 <= j < i ==> reservations[j].key != key
  {
    if reservations == [] then 0
    else if reservations[0].key == key then 0
    else 1 + FindReservation(reservations[1..], key)
  }

  lemma {:induction false} FindReservationInLonger(rs: seq<Reservation>, row: Reservation, key: string)
    ensures FindReservation(rs, key) < |rs| ==> FindReservation(rs + [row], key) == FindReservation(rs, key)
    ensures FindReservation(rs, key) == |rs| ==>
      FindReservation(rs + [row], key) == if row.key == key then |rs| else |rs| + 1
  {
    if rs != [] {
      assert (rs + [row])[1..] == rs[1..] + [row];
      FindReservationInLonger(rs[1..], row, key);
    }
  }

  lemma {:induction false} FindReservationAfterUpdate(rs: seq<Reservation>, i: nat, row: Reservation, key: string)
    requires i < |rs| && row.key == rs[i].key
    ensures FindReservation(rs[i := row], key) == FindReservation(rs, key)
  {
    if i > 0 {
      assert rs[i := row][1..] == rs[1..][i - 1 := row];
      FindReservationAfterUpdate(rs[1..], i - 1, row, key);
    } else {
      assert rs[0 := row][1..] == rs[1..];
    }
  }

  function FindMovement(movements: seq<Movement>, key: string): (i: nat)
    ensures i <= |movements|
    ensures i < |movements| ==> movements[i].eventKey == Some(key)
    ensures forall j :: 0 <= j < i ==> movements[j].eventKey != Some(key)
  {
    if movements == [] then 0
    else if movements[0].eventKey == Some(key) then 0
    else 1 + FindMovement(movements[1..], key)
  }

  lemma {:induction false} FindMovementInLonger(movements: seq<Movement>, row: Movement, key: string)
    ensures FindMovement(movements, key) < |movements| ==>
      FindMovement(movements + [row], key) == FindMovement(movements, key)
    ensures FindMovement(movements, key) == |movements| ==>
      FindMovement(movements + [row], key) == if row.eventKey == Some(key) then |movements| else |movements| + 1
  {
    if movements != [] {
      assert (movements + [row])[1..] == movements[1..] + [row];
      FindMovementInLonger(movements[1..], row, key);
    }
  }

  predicate Recorded(movements: seq<Movement>, eventKey: Option<string>) {
    eventKey.Some? && FindMovement(movements, eventKey.value) < |movements|
  }

  function Upserted(items: seq<Item>, key: ItemKey, productId: Id): (r: seq<Item>)
    ensures FindItem(r, key) < |r|
    ensures r == items || r == items + [Item(key, productId, 0.0, 0.0)]
  {
    if FindItem(items, key) < |items| then items
    else
      FindItemInLonger(items, Item(key, productId, 0.0, 0.0), key);
      items + [Item(key, productId, 0.0, 0.0)]
  }

  /** A quantity moves on the row with this key. */
  function AddOnHand(items: seq<Item>, key: ItemKey, delta: real): (r: seq<Item>)
    requires FindItem(items, key) < |items|
    ensures |r| == |items|
  {
    var i := FindItem(items, key);
    items[i := items[i].(onHand := items[i].onHand + delta)]
  }

  function AddReserved(items: seq<Item>, key: ItemKey, delta: real): (r: seq<Item>)
    requires FindItem(items, key) < |items|
    ensures |r| == |items|
  {
    var i := FindItem(items, key);
    items[i := items[i].(reserved := items[i].reserved + delta)]
  }

  // ---------------------------------------------------------------- the transactions

  function MakeQuery(resolved: Resolved, now: int): Query {
    Query(resolved.productId, resolved.stockItemId, now)
  }

  function Mean(allocations: seq<Allocation>): Option<real> {
    var total := Sum(Quantities(allocations));
    if allocations == [] || total == 0.0 then None else Some(Sum(Costs(allocations)) / total)
  }

  /** stockInInTransaction. */
  function StockInTx(t: Tables, catalog: Catalog, receipt: Receipt): Result<Tables, LedgerError> {
    if receipt.line.quantity <= 0.0 then Err(QuantityInvalid)
    else if receipt.unitCost < 0.0 then Err(UnitCostNegative)
    else if Recorded(t.movements, receipt.eventKey) then Ok(t)
    else
      match Resolve(catalog, receipt.line)
      case Err(e) => Err(Unresolved(e))
      case Ok(r) =>
        if !ReceiptAccepted(catalog, r, receipt.hasBatchCode, receipt.expiry.Some?) then Err(ConfigurationRefused)
        else Ok(Received(t, r, receipt))
  }

  function Received(t: Tables, r: Resolved, receipt: Receipt): Tables {
    var key := KeyOf(r.productId, r.stockItemId);
    Tables(
      AddOnHand(Upserted(t.items, key, r.productId), key, r.baseQuantity),
      t.batches + [Batch(r.productId, r.stockItemId, r.baseQuantity, r.baseQuantity, receipt.unitCost, receipt.expiry)],
      t.reservations,
      t.movements + [Movement(r.productId, r.stockItemId, IN, receipt.eventKey, receipt.line.quantity, r.baseQuantity,
                              Some(receipt.unitCost), receipt.referenceType, receipt.referenceId)],
      t.events + [StockIn(receipt.referenceType, receipt.referenceId, receipt.line.quantity, receipt.unitCost)],
      t.holdEvents)
  }

  /** stockOutInTransaction. */
  function StockOutTx(t: Tables, catalog: Catalog, issue: Issue): Result<Tables, LedgerError> {
    if issue.line.quantity <= 0.0 then Err(QuantityInvalid)
    else if Recorded(t.movements, issue.eventKey) then Ok(t)
    else
      match Resolve(catalog, issue.line)
      case Err(e) => Err(Unresolved(e))
      case Ok(r) =>
        var key := KeyOf(r.productId, r.stockItemId);
        var items := Upserted(t.items, key, r.productId);
        match Consume(t.batches, MakeQuery(r, issue.now), r.baseQuantity)
        case Err(e) => Err(FifoFailed(e))
        case Ok(c) =>
          if items[FindItem(items, key)].onHand < r.baseQuantity then Err(SummaryOutOfSync)
          else Ok(Issued(t, r, issue, c))
  }

  function Issued(t: Tables, r: Resolved, issue: Issue, c: Consumption): Tables {
    var key := KeyOf(r.productId, r.stockItemId);
    Tables(
      AddOnHand(Upserted(t.items, key, r.productId), key, -r.baseQuantity),
      c.batches,
      t.reservations,
      t.movements + [Movement(r.productId, r.stockItemId, OUT, issue.eventKey, issue.line.quantity, r.baseQuantity,
                              Mean(c.allocations), issue.referenceType, issue.referenceId)],
      t.events + [StockOut(issue.referenceType, issue.referenceId, c.allocations)],
      t.holdEvents)
  }

  function CostGiven(unitCost: Option<real>): real {
    if unitCost.Some? then unitCost.value else 0.0
  }

  /** What an adjustment is resolved by, and a lowering one consumes. */
  function Lowered(a: Adjustment): Line {
    a.line.(quantity := Abs(a.line.quantity))
  }

  /** adjustStock. */
  function AdjustTx(t: Tables, catalog: Catalog, a: Adjustment): Result<Tables, LedgerError> {
    if a.line.quantity == 0.0 then Err(QuantityInvalid)
    else
      match Resolve(catalog, Lowered(a))
      case Err(e) => Err(Unresolved(e))
      case Ok(r) =>
        if a.line.quantity > 0.0 then
          if !ReceiptAccepted(catalog, r, a.hasBatchCode, false) then Err(ConfigurationRefused)
          else if CostGiven(a.unitCost) < 0.0 then Err(UnitCostNegative)
          else Ok(AdjustedUp(t, r, a))
        else
          var key := KeyOf(r.productId, r.stockItemId);
          var items := Upserted(t.items, key, r.productId);
          match Consume(t.batches, MakeQuery(r, a.now), r.baseQuantity)
          case Err(e) => Err(FifoFailed(e))
          case Ok(c) =>
            if items[FindItem(items, key)].onHand < r.baseQuantity then Err(SummaryOutOfSync)
            else if CostGiven(a.unitCost) < 0.0 then Err(UnitCostNegative)
            else Ok(AdjustedDown(t, r, a, c))
  }

  function AdjustedUp(t: Tables, r: Resolved, a: Adjustment): Tables {
    var key := KeyOf(r.productId, r.stockItemId);
    Tables(
      AddOnHand(Upserted(t.items, key, r.productId), key, r.baseQuantity),
      t.batches + [Batch(r.productId, r.stockItemId, r.baseQuantity, r.baseQuantity, CostGiven(a.unitCost), None)],
      t.reservations,
      t.movements + [Movement(r.productId, r.stockItemId, ADJUSTED, None, a.line.quantity, r.baseQuantity,
                              a.unitCost, ADJUSTMENT, a.referenceId)],
      t.events + [StockAdjusted(a.referenceId, a.line.quantity, a.unitCost, [])],
      t.holdEvents)
  }

  function AdjustedDown(t: Tables, r: Resolved, a: Adjustment, c: Consumption): Tables {
    var key := KeyOf(r.productId, r.stockItemId);
    Tables(
      AddOnHand(Upserted(t.items, key, r.productId), key, -r.baseQuantity),
      c.batches,
      t.reservations,
      t.movements + [Movement(r.productId, r.stockItemId, ADJUSTED, None, a.line.quantity, -r.baseQuantity,
                              a.unitCost, ADJUSTMENT, a.referenceId)],
      t.events + [StockAdjusted(a.referenceId, a.line.quantity, a.unitCost, c.allocations)],
      t.holdEvents)
  }

  /** reserveStock. */
  function ReserveTx(t: Tables, catalog: Catalog, hold: Hold): Result<Tables, LedgerError> {
    if hold.line.quantity <= 0.0 then Err(QuantityInvalid)
    else if FindReservation(t.reservations, hold.reservationKey) < |t.reservations| then Ok(t)
    else
      match Resolve(catalog, hold.line)
      case Err(e) => Err(Unresolved(e))
      case Ok(r) =>
        var key := KeyOf(r.productId, r.stockItemId);
        var items := Upserted(t.items, key, r.productId);
        var item := items[FindItem(items, key)];
        if !ReservationsEnabled(catalog, r) then Err(ReservationsNotEnabled)
        else if item.onHand - item.reserved < r.baseQuantity then Err(InsufficientAvailable)
        else Ok(WithReservation(t, r, hold))
  }

  function WithReservation(t: Tables, r: Resolved, hold: Hold): Tables {
    var key := KeyOf(r.productId, r.stockItemId);
    t.(items := AddReserved(Upserted(t.items, key, r.productId), key, r.baseQuantity),
       reservations := t.reservations
         + [Reservation(hold.reservationKey, r.productId, r.stockItemId, r.baseQuantity, ACTIVE)],
       holdEvents := t.holdEvents + [StockReserved(hold.reservationKey)])
  }

  /** The reservation that a release or settlement still has to give back, if any. */
  function ActiveReservation(t: Tables, key: string): Option<nat> {
    var i := FindReservation(t.reservations, key);
    if i < |t.reservations| && t.reservations[i].status == ACTIVE then Some(i) else None
  }

  /** The row whose reserved quantity a release lowers. */
  function ReleaseTarget(productId: Id, reservation: Reservation, resolved: Option<Id>): ItemKey {
    KeyOf(productId, if reservation.stockItemId.Some? then reservation.stockItemId else resolved)
  }

  /** releaseReservation and releaseReservedQuantity on one row. */
  function GiveBack(t: Tables, i: nat, key: ItemKey): Result<Tables, LedgerError>
    requires i < |t.reservations|
  {
    var r := t.reservations[i];
    var j := FindItem(t.items, key);
    if j == |t.items| || t.items[j].reserved < r.baseQuantity then Err(ReservedOutOfSync)
    else
      Ok(t.(items := AddReserved(t.items, key, -r.baseQuantity),
            reservations := t.reservations[i := r.(status := RELEASED)],
            holdEvents := t.holdEvents + [ReservationReleased(r.key)]))
  }

  /** releaseReservedStock. */
  function ReleaseTx(t: Tables, catalog: Catalog, hold: Hold): Result<Tables, LedgerError> {
    if hold.line.quantity <= 0.0 then Err(QuantityInvalid)
    else
      match ActiveReservation(t, hold.reservationKey)
      case None => Ok(t)
      case Some(i) =>
        match Resolve(catalog, hold.line)
        case Err(e) => Err(Unresolved(e))
        case Ok(r) =>
          var key := KeyOf(r.productId, r.stockItemId);
          GiveBack(t.(items := Upserted(t.items, key, r.productId)), i,
                   ReleaseTarget(hold.line.productId, t.reservations[i], r.stockItemId))
  }

  /** stockOutAndReleaseReservation: the issue and the release commit together. */
  function SettleTx(t: Tables, catalog: Catalog, issue: Issue, hold: Hold): Result<Tables, LedgerError> {
    match StockOutTx(t, catalog, issue)
    case Err(e) => Err(e)
    case Ok(out) =>
      match ActiveReservation(out, hold.reservationKey)
      case None => Ok(out)
      case Some(i) => GiveBack(out, i, ReleaseTarget(hold.line.productId, out.reservations[i], None))
  }

  /** The last matching movement's cost, else the last matching batch's, else zero. */
  function ReturnCost(t: Tables, r: Resolved, orderId: Id): real {
    var m := LastMovement(t.movements, r, orderId);
    if m.Some? && m.value.unitCost.Some? then m.value.unitCost.value
    else LastBatchCost(t.batches, r)
  }

  function LastMovement(movements: seq<Movement>, r: Resolved, orderId: Id): Option<Movement> {
    if movements == [] then None
    else
      var m := movements[|movements| - 1];
      if m.productId == r.productId && m.stockItemId == r.stockItemId && m.referenceType == ORDER
         && m.referenceId == orderId
      then Some(m)
      else LastMovement(movements[..|movements| - 1], r, orderId)
  }

  function LastBatchCost(batches: seq<Batch>, r: Resolved): real {
    if batches == [] then 0.0
    else
      var b := batches[|batches| - 1];
      if b.productId == r.productId && b.stockItemId == r.stockItemId then b.unitCost
      else LastBatchCost(batches[..|batches| - 1], r)
  }

  /** The stock-in that a refund of an order line turns into; it is resolved anew. */
  function ReturnReceipt(t: Tables, r: Resolved, restock: Restock): Receipt {
    Receipt(restock.line.(stockItemId := r.stockItemId, unitId := r.unitId),
            ReturnCost(t, r, restock.orderId), restock.eventKey, true, None, RETURN, restock.orderId)
  }

  /** restockOrderItemFromRefund, without serial numbers or assets. */
  function RestockTx(t: Tables, catalog: Catalog, restock: Restock): Result<Tables, LedgerError> {
    match Resolve(catalog, restock.line)
    case Err(e) => Err(Unresolved(e))
    case Ok(r) => StockInTx(t, catalog, ReturnReceipt(t, r, restock))
  }

  function Execute(t: Tables, catalog: Catalog, c: Command): Result<Tables, LedgerError> {
    match c
    case DoStockIn(receipt) => StockInTx(t, catalog, receipt)
    case DoStockOut(issue) => StockOutTx(t, catalog, issue)
    case DoAdjust(a) => AdjustTx(t, catalog, a)
    case DoReserve(hold) => ReserveTx(t, catalog, hold)
    case DoRelease(hold) => ReleaseTx(t, catalog, hold)
    case DoSettle(issue, hold) => SettleTx(t, catalog, issue, hold)
    case DoRestock(restock) => RestockTx(t, catalog, restock)
  }

  /** A transaction that throws leaves the tables as they were. */
  function Apply(t: Tables, catalog: Catalog, c: Command): Tables {
    var r := Execute(t, catalog, c);
    if r.Ok? then r.value else t
  }

  const Empty := Tables([], [], [], [], [], [])

  /** What happened: each step is a command and the master data it met. */
  datatype Step = Step(catalog: Catalog, command: Command)

  function Run(t: Tables, steps: seq<Step>): Tables {
    if steps == [] then t
    else
      var last := |steps| - 1;
      Apply(Run(t, steps[..last]), steps[last].catalog, steps[last].command)
  }
}
