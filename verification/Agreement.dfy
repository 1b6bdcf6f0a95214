/** The item summaries agree with the detail rows: on-hand quantities with the cost batches, and
    reserved quantities with the active reservations, for every product in every reachable state. */
module Agreement {
  import opened Common
  import opened Fifo
  import opened Identity
  import opened Ledger

  predicate CoversItem(scope: Scope, item: Item) {
    match scope
    case OfProduct(p) => item.productId == p
    case OfStockItem(s) => item.key == OfStock(s)
  }

  predicate CoversReservation(scope: Scope, r: Reservation) {
    match scope
    case OfProduct(p) => r.productId == p
    case OfStockItem(s) => r.stockItemId == Some(s)
  }

  function OnHandColumn(items: seq<Item>, scope: Scope): (r: seq<real>)
    ensures |r| == |items|
  {
    seq(|items|, i requires 0 <= i < |items| => if CoversItem(scope, items[i]) then items[i].onHand else 0.0)
  }

  function ReservedColumn(items: seq<Item>, scope: Scope): (r: seq<real>)
    ensures |r| == |items|
  {
    seq(|items|, i requires 0 <= i < |items| => if CoversItem(scope, items[i]) then items[i].reserved else 0.0)
  }

  function Promised(scope: Scope, r: Reservation): real {
    if CoversReservation(scope, r) && r.status == ACTIVE then r.baseQuantity else 0.0
  }

  function PromisedColumn(reservations: seq<Reservation>, scope: Scope): (r: seq<real>)
    ensures |r| == |reservations|
  {
    seq(|reservations|, i requires 0 <= i < |reservations| => Promised(scope, reservations[i]))
  }

  /** quantityOnHand over the scope's items. */
  function OnHand(t: Tables, scope: Scope): real {
    Sum(OnHandColumn(t.items, scope))
  }

  /** reservedQuantity over the scope's items. */
  function Reserved(t: Tables, scope: Scope): real {
    Sum(ReservedColumn(t.items, scope))
  }

  /** baseQuantity over the scope's active reservations. */
  function PromisedQuantity(t: Tables, scope: Scope): real {
    Sum(PromisedColumn(t.reservations, scope))
  }

  ghost predicate OnHandAgrees(t: Tables, scope: Scope) {
    OnHand(t, scope) == Stock(t.batches, scope)
  }

  ghost predicate ReservedAgrees(t: Tables, scope: Scope) {
    Reserved(t, scope) == PromisedQuantity(t, scope)
  }

  ghost predicate Agrees(t: Tables, scope: Scope) {
    OnHandAgrees(t, scope) && ReservedAgrees(t, scope)
  }

  // ---------------------------------------------------------------- rows are kept in order

  ghost function ProductOf(key: ItemKey, owner: Id -> Id): Id {
    match key
    case OfStock(s) => owner(s)
    case Legacy(p) => p
  }

  /** Rows carry the product their key belongs to, one row per key, and no quantity is negative. */
  ghost predicate ItemsKept(items: seq<Item>, owner: Id -> Id) {
    forall i :: 0 <= i < |items| ==>
      && items[i].productId == ProductOf(items[i].key, owner)
      && FindItem(items, items[i].key) == i
      && 0.0 <= items[i].onHand
      && 0.0 <= items[i].reserved
  }

  ghost predicate BatchesKept(batches: seq<Batch>, owner: Id -> Id) {
    forall i :: 0 <= i < |batches| ==>
      && 0.0 <= batches[i].remaining
      && (batches[i].stockItemId.Some? ==> batches[i].productId == owner(batches[i].stockItemId.value))
  }

  ghost predicate ReservationsKept(reservations: seq<Reservation>, owner: Id -> Id) {
    forall i :: 0 <= i < |reservations| ==>
      && FindReservation(reservations, reservations[i].key) == i
      && 0.0 < reservations[i].baseQuantity
      && (reservations[i].stockItemId.Some? ==> reservations[i].productId == owner(reservations[i].stockItemId.value))
  }

  ghost predicate Kept(t: Tables, owner: Id -> Id) {
    ItemsKept(t.items, owner) && BatchesKept(t.batches, owner) && ReservationsKept(t.reservations, owner)
  }

  // ---------------------------------------------------------------- single-row updates

  lemma UpsertKeeps(items: seq<Item>, key: ItemKey, productId: Id, owner: Id -> Id)
    requires ItemsKept(items, owner) && productId == ProductOf(key, owner)
    ensures ItemsKept(Upserted(items, key, productId), owner)
  {}

  lemma UpsertMovesNothing(items: seq<Item>, key: ItemKey, productId: Id, scope: Scope)
    ensures Sum(OnHandColumn(Upserted(items, key, productId), scope)) == Sum(OnHandColumn(items, scope))
    ensures Sum(ReservedColumn(Upserted(items, key, productId), scope)) == Sum(ReservedColumn(items, scope))
  {
    var row := Item(key, productId, 0.0, 0.0);
    SumSnoc(OnHandColumn(items, scope), 0.0);
    SumSnoc(ReservedColumn(items, scope), 0.0);
    assert OnHandColumn(items + [row], scope) == OnHandColumn(items, scope) + [0.0];
    assert ReservedColumn(items + [row], scope) == ReservedColumn(items, scope) + [0.0];
  }

  lemma UpdateKeeps(items: seq<Item>, i: nat, row: Item, owner: Id -> Id)
    requires ItemsKept(items, owner) && i < |items|
    requires row.key == items[i].key && row.productId == items[i].productId
    requires 0.0 <= row.onHand && 0.0 <= row.reserved
    ensures ItemsKept(items[i := row], owner)
  {}

  lemma AddOnHandMoves(items: seq<Item>, key: ItemKey, delta: real, scope: Scope)
    requires FindItem(items, key) < |items|
    ensures Sum(OnHandColumn(AddOnHand(items, key, delta), scope))
         == Sum(OnHandColumn(items, scope)) + if CoversItem(scope, items[FindItem(items, key)]) then delta else 0.0
    ensures Sum(ReservedColumn(AddOnHand(items, key, delta), scope)) == Sum(ReservedColumn(items, scope))
  {
    var i := FindItem(items, key);
    var cell := if CoversItem(scope, items[i]) then items[i].onHand + delta else 0.0;
    SumUpdate(OnHandColumn(items, scope), i, cell);
    assert OnHandColumn(AddOnHand(items, key, delta), scope) == OnHandColumn(items, scope)[i := cell];
    assert ReservedColumn(AddOnHand(items, key, delta), scope) == ReservedColumn(items, scope);
  }

  lemma AddReservedMoves(items: seq<Item>, key: ItemKey, delta: real, scope: Scope)
    requires FindItem(items, key) < |items|
    ensures Sum(ReservedColumn(AddReserved(items, key, delta), scope))
         == Sum(ReservedColumn(items, scope)) + if CoversItem(scope, items[FindItem(items, key)]) then delta else 0.0
    ensures Sum(OnHandColumn(AddReserved(items, key, delta), scope)) == Sum(OnHandColumn(items, scope))
  {
    var i := FindItem(items, key);
    var cell := if CoversItem(scope, items[i]) then items[i].reserved + delta else 0.0;
    SumUpdate(ReservedColumn(items, scope), i, cell);
    assert ReservedColumn(AddReserved(items, key, delta), scope) == ReservedColumn(items, scope)[i := cell];
    assert OnHandColumn(AddReserved(items, key, delta), scope) == OnHandColumn(items, scope);
  }

  /** The row of a key, as far as a scope can tell. */
  function RowOf(key: ItemKey, productId: Id): Item {
    Item(key, productId, 0.0, 0.0)
  }

  /** A quantity moves on a row that is there or is made for it. */
  lemma OnHandMoves(items: seq<Item>, key: ItemKey, productId: Id, delta: real, owner: Id -> Id, scope: Scope)
    requires ItemsKept(items, owner) && productId == ProductOf(key, owner)
    requires var u := Upserted(items, key, productId);
      0.0 <= u[FindItem(u, key)].onHand + delta
    ensures var after := AddOnHand(Upserted(items, key, productId), key, delta);
      && ItemsKept(after, owner)
      && Sum(OnHandColumn(after, scope))
         == Sum(OnHandColumn(items, scope)) + (if CoversItem(scope, RowOf(key, productId)) then delta else 0.0)
      && Sum(ReservedColumn(after, scope)) == Sum(ReservedColumn(items, scope))
  {
    var u := Upserted(items, key, productId);
    UpsertKeeps(items, key, productId, owner);
    UpsertMovesNothing(items, key, productId, scope);
    var i := FindItem(u, key);
    UpdateKeeps(u, i, u[i].(onHand := u[i].onHand + delta), owner);
    AddOnHandMoves(u, key, delta, scope);
  }

  lemma ReservedMoves(items: seq<Item>, key: ItemKey, productId: Id, delta: real, owner: Id -> Id, scope: Scope)
    requires ItemsKept(items, owner) && productId == ProductOf(key, owner) && 0.0 <= delta
    ensures var after := AddReserved(Upserted(items, key, productId), key, delta);
      && ItemsKept(after, owner)
      && Sum(ReservedColumn(after, scope))
         == Sum(ReservedColumn(items, scope)) + (if CoversItem(scope, RowOf(key, productId)) then delta else 0.0)
      && Sum(OnHandColumn(after, scope)) == Sum(OnHandColumn(items, scope))
  {
    var u := Upserted(items, key, productId);
    UpsertKeeps(items, key, productId, owner);
    UpsertMovesNothing(items, key, productId, scope);
    var i := FindItem(u, key);
    UpdateKeeps(u, i, u[i].(reserved := u[i].reserved + delta), owner);
    AddReservedMoves(u, key, delta, scope);
  }

  lemma NewBatchCounts(batches: seq<Batch>, b: Batch, scope: Scope)
    ensures Stock(batches + [b], scope) == Stock(batches, scope) + if Covers(scope, b) then b.remaining else 0.0
  {
    var cell := if Covers(scope, b) then b.remaining else 0.0;
    SumSnoc(StockColumn(batches, scope), cell);
    assert StockColumn(batches + [b], scope) == StockColumn(batches, scope) + [cell];
  }

  // ---------------------------------------------------------------- stock in and stock out

  ghost predicate Sees(scope: Scope, r: Resolved) {
    match scope
    case OfProduct(p) => r.productId == p
    case OfStockItem(s) => r.stockItemId == Some(s)
  }

  ghost predicate Owned(r: Resolved, owner: Id -> Id) {
    r.baseQuantity > 0.0 && (r.stockItemId.Some? ==> owner(r.stockItemId.value) == r.productId)
  }

  lemma ResolvedIsOwned(catalog: Catalog, line: Line, owner: Id -> Id)
    requires OwnedBy(catalog, owner) && Resolve(catalog, line).Ok?
    ensures Owned(Resolve(catalog, line).value, owner)
    ensures Resolve(catalog, line).value.productId == line.productId
  {
    ResolvedIsOfTheProduct(catalog, line);
  }

  /** Adding to an item and its batches by the same amount. */
  lemma StockInAgrees(t: Tables, u: Tables, r: Resolved, b: Batch, owner: Id -> Id, scope: Scope)
    requires Kept(t, owner) && Owned(r, owner)
    requires b.productId == r.productId && b.stockItemId == r.stockItemId && b.remaining == r.baseQuantity
    requires var key := KeyOf(r.productId, r.stockItemId);
      u.items == AddOnHand(Upserted(t.items, key, r.productId), key, r.baseQuantity)
    requires u.batches == t.batches + [b] && u.reservations == t.reservations
    ensures Kept(u, owner) && (Agrees(t, scope) ==> Agrees(u, scope))
  {
    OnHandMoves(t.items, KeyOf(r.productId, r.stockItemId), r.productId, r.baseQuantity, owner, scope);
    NewBatchCounts(t.batches, b, scope);
  }

  /** A consumption for r takes from the scope what r's row loses of it: it is for a stock item, or of another
      product, or the candidates cover it before they come to a batch of the scope's stock item. */
  ghost predicate TakesItsOwn(batches: seq<Batch>, r: Resolved, now: int, owner: Id -> Id, scope: Scope) {
    scope.OfStockItem? && r.stockItemId.None? && owner(scope.stockItemId) == r.productId ==>
      !DrawsOn(batches, MakeQuery(r, now), r.baseQuantity, scope)
  }

  /** What a consumption leaves, and exactly when the scope loses what r's row loses of it. */
  lemma {:induction false} ConsumeTakes(batches: seq<Batch>, r: Resolved, now: int, owner: Id -> Id, scope: Scope)
    requires BatchesKept(batches, owner) && Owned(r, owner)
    requires Consume(batches, MakeQuery(r, now), r.baseQuantity).Ok?
    ensures var after := Consume(batches, MakeQuery(r, now), r.baseQuantity).value.batches;
      && BatchesKept(after, owner)
      && (Stock(after, scope) == Stock(batches, scope) - (if Sees(scope, r) then r.baseQuantity else 0.0)
          <==> TakesItsOwn(batches, r, now, owner, scope))
  {
    ConsumeDeducts(batches, MakeQuery(r, now), r.baseQuantity);
    if scope.OfStockItem? && r.stockItemId.None? && owner(scope.stockItemId) == r.productId {
      DrawsOnExactly(batches, MakeQuery(r, now), r.baseQuantity, scope);
    } else {
      ConsumeDropsStock(batches, MakeQuery(r, now), r.baseQuantity, scope, Sees(scope, r));
    }
  }

  /** u is t after consuming for r and taking as much from r's row. */
  ghost predicate Took(t: Tables, u: Tables, r: Resolved, now: int) {
    var key := KeyOf(r.productId, r.stockItemId);
    var items := Upserted(t.items, key, r.productId);
    var c := Consume(t.batches, MakeQuery(r, now), r.baseQuantity);
    && c.Ok?
    && r.baseQuantity <= items[FindItem(items, key)].onHand
    && u.items == AddOnHand(items, key, -r.baseQuantity)
    && u.batches == c.value.batches
    && u.reservations == t.reservations
  }

  lemma RowIsSeen(r: Resolved, owner: Id -> Id, scope: Scope)
    requires Owned(r, owner)
    ensures var key := KeyOf(r.productId, r.stockItemId);
      && ProductOf(key, owner) == r.productId
      && (CoversItem(scope, RowOf(key, r.productId)) <==> Sees(scope, r))
  {}

  lemma TakingMoves(t: Tables, u: Tables, r: Resolved, now: int, owner: Id -> Id, scope: Scope)
    requires ItemsKept(t.items, owner) && Owned(r, owner) && Took(t, u, r, now)
    ensures ItemsKept(u.items, owner) && Reserved(u, scope) == Reserved(t, scope)
    ensures OnHand(u, scope) == OnHand(t, scope) - if Sees(scope, r) then r.baseQuantity else 0.0
  {
    var key := KeyOf(r.productId, r.stockItemId);
    var items := Upserted(t.items, key, r.productId);
    RowIsSeen(r, owner, scope);
    assert 0.0 <= items[FindItem(items, key)].onHand + -r.baseQuantity;
    OnHandMoves(t.items, key, r.productId, -r.baseQuantity, owner, scope);
  }

  lemma TakingAgrees(t: Tables, u: Tables, r: Resolved, now: int, owner: Id -> Id, scope: Scope)
    requires Kept(t, owner) && Owned(r, owner) && Took(t, u, r, now)
    ensures Kept(u, owner) && (ReservedAgrees(t, scope) <==> ReservedAgrees(u, scope))
    ensures OnHandAgrees(t, scope) ==> (OnHandAgrees(u, scope) <==> TakesItsOwn(t.batches, r, now, owner, scope))
  {
    ConsumeTakes(t.batches, r, now, owner, scope);
    TakingMoves(t, u, r, now, owner, scope);
  }

  // ---------------------------------------------------------------- reservations

  lemma ReserveAgrees(t: Tables, r: Resolved, hold: Hold, owner: Id -> Id, scope: Scope)
    requires Kept(t, owner) && Owned(r, owner)
    requires FindReservation(t.reservations, hold.reservationKey) == |t.reservations|
    ensures Kept(WithReservation(t, r, hold), owner)
    ensures Agrees(t, scope) ==> Agrees(WithReservation(t, r, hold), scope)
  {
    ReservedMoves(t.items, KeyOf(r.productId, r.stockItemId), r.productId, r.baseQuantity, owner, scope);
    NewReservationCounts(t.reservations,
                         Reservation(hold.reservationKey, r.productId, r.stockItemId, r.baseQuantity, ACTIVE),
                         owner, scope);
  }

  lemma {:induction false} NewReservationCounts(
    rs: seq<Reservation>, row: Reservation, owner: Id -> Id, scope: Scope)
    requires ReservationsKept(rs, owner) && FindReservation(rs, row.key) == |rs|
    requires 0.0 < row.baseQuantity
    requires row.stockItemId.Some? ==> row.productId == owner(row.stockItemId.value)
    ensures ReservationsKept(rs + [row], owner)
    ensures Sum(PromisedColumn(rs + [row], scope)) == Sum(PromisedColumn(rs, scope)) + Promised(scope, row)
  {
    NewReservationKeepsKeys(rs, row);
    NewReservationAddsItsPromise(rs, row, scope);
  }

  lemma NewReservationKeepsKeys(rs: seq<Reservation>, row: Reservation)
    requires FindReservation(rs, row.key) == |rs|
    requires forall i :: 0 <= i < |rs| ==> FindReservation(rs, rs[i].key) == i
    ensures forall i :: 0 <= i < |rs| + 1 ==> FindReservation(rs + [row], (rs + [row])[i].key) == i
  {}

  lemma NewReservationAddsItsPromise(rs: seq<Reservation>, row: Reservation, scope: Scope)
    ensures Sum(PromisedColumn(rs + [row], scope)) == Sum(PromisedColumn(rs, scope)) + Promised(scope, row)
  {
    SumSnoc(PromisedColumn(rs, scope), Promised(scope, row));
    assert PromisedColumn(rs + [row], scope) == PromisedColumn(rs, scope) + [Promised(scope, row)];
  }

  /** The row a release lowers is seen by the scope exactly when the reservation it closes is. */
  ghost predicate Fits(scope: Scope, target: ItemKey, r: Reservation, owner: Id -> Id) {
    CoversItem(scope, Item(target, ProductOf(target, owner), 0.0, 0.0)) <==> CoversReservation(scope, r)
  }

  lemma GiveBackKeepsRows(t: Tables, i: nat, target: ItemKey, owner: Id -> Id)
    requires Kept(t, owner) && i < |t.reservations| && GiveBack(t, i, target).Ok?
    ensures Kept(GiveBack(t, i, target).value, owner)
  {
    var r := t.reservations[i];
    var j := FindItem(t.items, target);
    UpdateKeeps(t.items, j, t.items[j].(reserved := t.items[j].reserved - r.baseQuantity), owner);
    ClosingKeepsKeys(t.reservations, i);
  }

  /** Giving a reservation back moves no stock, and keeps a scope's reserved quantity in agreement if and only
      if it lowers a row of the scope exactly when the reservation is one of the scope's. */
  lemma GiveBackAgreesExactlyWhenItFits(t: Tables, i: nat, target: ItemKey, owner: Id -> Id, scope: Scope)
    requires Kept(t, owner) && i < |t.reservations| && t.reservations[i].status == ACTIVE
    requires GiveBack(t, i, target).Ok?
    ensures var u := GiveBack(t, i, target).value;
      && Kept(u, owner)
      && (OnHandAgrees(u, scope) <==> OnHandAgrees(t, scope))
      && (ReservedAgrees(t, scope) ==> (ReservedAgrees(u, scope) <==> Fits(scope, target, t.reservations[i], owner)))
  {
    GiveBackKeepsRows(t, i, target, owner);
    AddReservedMoves(t.items, target, -t.reservations[i].baseQuantity, scope);
    ClosingTakesItsPromise(t.reservations, i, scope);
  }

  lemma ClosingKeepsKeys(rs: seq<Reservation>, i: nat)
    requires i < |rs|
    requires forall k :: 0 <= k < |rs| ==> FindReservation(rs, rs[k].key) == k
    ensures var after := rs[i := rs[i].(status := RELEASED)];
      forall k :: 0 <= k < |after| ==> FindReservation(after, after[k].key) == k
  {}

  lemma ClosingTakesItsPromise(rs: seq<Reservation>, i: nat, scope: Scope)
    requires i < |rs|
    ensures Sum(PromisedColumn(rs[i := rs[i].(status := RELEASED)], scope))
         == Sum(PromisedColumn(rs, scope)) - Promised(scope, rs[i])
  {
    var closed := rs[i].(status := RELEASED);
    SumUpdate(PromisedColumn(rs, scope), i, 0.0);
    assert PromisedColumn(rs[i := closed], scope) == PromisedColumn(rs, scope)[i := 0.0];
  }

  // ---------------------------------------------------------------- which steps keep the agreement

  /** The active reservation with this key, if any, fits the row that a request for the product lowers. */
  ghost predicate ClosingFits(
    t: Tables, key: string, productId: Id, resolved: Option<Id>, owner: Id -> Id, scope: Scope)
  {
    match ActiveReservation(t, key)
    case None => true
    case Some(i) => Fits(scope, ReleaseTarget(productId, t.reservations[i], resolved), t.reservations[i], owner)
  }

  ghost predicate IssueTakesItsOwn(t: Tables, catalog: Catalog, issue: Issue, owner: Id -> Id, scope: Scope) {
    || Recorded(t.movements, issue.eventKey)
    || (Resolve(catalog, issue.line).Ok? &&
        TakesItsOwn(t.batches, Resolve(catalog, issue.line).value, issue.now, owner, scope))
  }

  /** What can be told of a step before it runs: a decrease takes its own, and a release or settlement fits the
      reservation it closes. */
  ghost predicate Tracked(t: Tables, step: Step, owner: Id -> Id, scope: Scope) {
    Execute(t, step.catalog, step.command).Ok? ==>
      match step.command
      case DoStockOut(issue) => IssueTakesItsOwn(t, step.catalog, issue, owner, scope)
      case DoAdjust(a) =>
        a.line.quantity < 0.0 ==>
          && Resolve(step.catalog, Lowered(a)).Ok?
          && TakesItsOwn(t.batches, Resolve(step.catalog, Lowered(a)).value, a.now, owner, scope)
      case DoRelease(hold) =>
        ActiveReservation(t, hold.reservationKey).Some? ==>
          && Resolve(step.catalog, hold.line).Ok?
          && ClosingFits(t, hold.reservationKey, hold.line.productId,
                         Resolve(step.catalog, hold.line).value.stockItemId, owner, scope)
      case DoSettle(issue, hold) =>
        && IssueTakesItsOwn(t, step.catalog, issue, owner, scope)
        && ClosingFits(t, hold.reservationKey, hold.line.productId, None, owner, scope)
      case _ => true
  }

  lemma StockInKeeps(t: Tables, catalog: Catalog, receipt: Receipt, owner: Id -> Id, scope: Scope)
    requires Kept(t, owner) && Agrees(t, scope) && OwnedBy(catalog, owner) && StockInTx(t, catalog, receipt).Ok?
    ensures Kept(StockInTx(t, catalog, receipt).value, owner) && Agrees(StockInTx(t, catalog, receipt).value, scope)
  {
    if !Recorded(t.movements, receipt.eventKey) {
      var r := Resolve(catalog, receipt.line).value;
      ResolvedIsOwned(catalog, receipt.line, owner);
      var b := Batch(r.productId, r.stockItemId, r.baseQuantity, r.baseQuantity, receipt.unitCost, receipt.expiry);
      StockInAgrees(t, StockInTx(t, catalog, receipt).value, r, b, owner, scope);
    }
  }

  lemma StockOutTook(t: Tables, catalog: Catalog, issue: Issue)
    requires StockOutTx(t, catalog, issue).Ok? && !Recorded(t.movements, issue.eventKey)
    ensures Resolve(catalog, issue.line).Ok?
    ensures Took(t, StockOutTx(t, catalog, issue).value, Resolve(catalog, issue.line).value, issue.now)
  {}

  lemma AdjustTook(t: Tables, catalog: Catalog, a: Adjustment)
    requires AdjustTx(t, catalog, a).Ok? && a.line.quantity < 0.0
    ensures Resolve(catalog, Lowered(a)).Ok?
    ensures Took(t, AdjustTx(t, catalog, a).value, Resolve(catalog, Lowered(a)).value, a.now)
  {}

  lemma {:induction false} StockOutAgreesExactly(t: Tables, catalog: Catalog, issue: Issue, owner: Id -> Id, scope: Scope)
    requires Kept(t, owner) && OwnedBy(catalog, owner) && StockOutTx(t, catalog, issue).Ok?
    ensures var u := StockOutTx(t, catalog, issue).value;
      && Kept(u, owner) && u.reservations == t.reservations
      && (ReservedAgrees(t, scope) <==> ReservedAgrees(u, scope))
      && (OnHandAgrees(t, scope) ==>
            (OnHandAgrees(u, scope) <==> IssueTakesItsOwn(t, catalog, issue, owner, scope)))
  {
    if !Recorded(t.movements, issue.eventKey) {
      StockOutTook(t, catalog, issue);
      ResolvedIsOwned(catalog, issue.line, owner);
      TakingAgrees(t, StockOutTx(t, catalog, issue).value, Resolve(catalog, issue.line).value, issue.now, owner, scope);
    }
  }

  lemma {:induction false} RaisingKeeps(t: Tables, catalog: Catalog, a: Adjustment, owner: Id -> Id, scope: Scope)
    requires Kept(t, owner) && Agrees(t, scope) && OwnedBy(catalog, owner)
    requires AdjustTx(t, catalog, a).Ok? && a.line.quantity > 0.0
    ensures Kept(AdjustTx(t, catalog, a).value, owner) && Agrees(AdjustTx(t, catalog, a).value, scope)
  {
    var r := Resolve(catalog, Lowered(a)).value;
    ResolvedIsOwned(catalog, Lowered(a), owner);
    var b := Batch(r.productId, r.stockItemId, r.baseQuantity, r.baseQuantity, CostGiven(a.unitCost), None);
    StockInAgrees(t, AdjustTx(t, catalog, a).value, r, b, owner, scope);
  }

  lemma {:induction false} LoweringAgreesExactly(t: Tables, catalog: Catalog, a: Adjustment, owner: Id -> Id, scope: Scope)
    requires Kept(t, owner) && Agrees(t, scope) && OwnedBy(catalog, owner)
    requires AdjustTx(t, catalog, a).Ok? && a.line.quantity < 0.0
    ensures Resolve(catalog, Lowered(a)).Ok? && Kept(AdjustTx(t, catalog, a).value, owner)
    ensures Agrees(AdjustTx(t, catalog, a).value, scope)
       <==> TakesItsOwn(t.batches, Resolve(catalog, Lowered(a)).value, a.now, owner, scope)
  {
    AdjustTook(t, catalog, a);
    ResolvedIsOwned(catalog, Lowered(a), owner);
    TakingAgrees(t, AdjustTx(t, catalog, a).value, Resolve(catalog, Lowered(a)).value, a.now, owner, scope);
  }

  lemma ReserveKeeps(t: Tables, catalog: Catalog, hold: Hold, owner: Id -> Id, scope: Scope)
    requires Kept(t, owner) && Agrees(t, scope) && OwnedBy(catalog, owner) && ReserveTx(t, catalog, hold).Ok?
    ensures Kept(ReserveTx(t, catalog, hold).value, owner) && Agrees(ReserveTx(t, catalog, hold).value, scope)
  {
    if FindReservation(t.reservations, hold.reservationKey) == |t.reservations| {
      ResolvedIsOwned(catalog, hold.line, owner);
      ReserveAgrees(t, Resolve(catalog, hold.line).value, hold, owner, scope);
    }
  }

  lemma UpsertAgrees(t: Tables, key: ItemKey, productId: Id, owner: Id -> Id, scope: Scope)
    requires Kept(t, owner) && productId == ProductOf(key, owner)
    ensures var u := t.(items := Upserted(t.items, key, productId));
      && Kept(u, owner)
      && OnHand(u, scope) == OnHand(t, scope) && Reserved(u, scope) == Reserved(t, scope)
  {
    UpsertKeeps(t.items, key, productId, owner);
    UpsertMovesNothing(t.items, key, productId, scope);
  }

  lemma ReleaseGivesBack(t: Tables, catalog: Catalog, hold: Hold, i: nat)
    requires ReleaseTx(t, catalog, hold).Ok? && ActiveReservation(t, hold.reservationKey) == Some(i)
    ensures Resolve(catalog, hold.line).Ok?
    ensures var r := Resolve(catalog, hold.line).value;
      var u := t.(items := Upserted(t.items, KeyOf(r.productId, r.stockItemId), r.productId));
      && i < |t.reservations| && t.reservations[i].status == ACTIVE
      && GiveBack(u, i, ReleaseTarget(hold.line.productId, t.reservations[i], r.stockItemId))
         == ReleaseTx(t, catalog, hold)
  {}

  lemma {:induction false} ReleaseAgreesExactly(t: Tables, catalog: Catalog, hold: Hold, owner: Id -> Id, scope: Scope)
    requires Kept(t, owner) && Agrees(t, scope) && OwnedBy(catalog, owner) && ReleaseTx(t, catalog, hold).Ok?
    ensures Kept(ReleaseTx(t, catalog, hold).value, owner)
    ensures Agrees(ReleaseTx(t, catalog, hold).value, scope)
       <==> (ActiveReservation(t, hold.reservationKey).Some? ==>
               && Resolve(catalog, hold.line).Ok?
               && ClosingFits(t, hold.reservationKey, hold.line.productId,
                              Resolve(catalog, hold.line).value.stockItemId, owner, scope))
  {
    match ActiveReservation(t, hold.reservationKey)
    case None =>
    case Some(i) =>
      ReleaseGivesBack(t, catalog, hold, i);
      ResolvedIsOwned(catalog, hold.line, owner);
      var r := Resolve(catalog, hold.line).value;
      var key := KeyOf(r.productId, r.stockItemId);
      UpsertAgrees(t, key, r.productId, owner, scope);
      GiveBackAgreesExactlyWhenItFits(
        t.(items := Upserted(t.items, key, r.productId)), i,
        ReleaseTarget(hold.line.productId, t.reservations[i], r.stockItemId), owner, scope);
  }

  lemma SettleGivesBack(t: Tables, catalog: Catalog, issue: Issue, hold: Hold)
    requires SettleTx(t, catalog, issue, hold).Ok?
    ensures StockOutTx(t, catalog, issue).Ok?
    ensures var out := StockOutTx(t, catalog, issue).value;
      match ActiveReservation(out, hold.reservationKey)
      case None => SettleTx(t, catalog, issue, hold) == Ok(out)
      case Some(i) =>
        && i < |out.reservations| && out.reservations[i].status == ACTIVE
        && GiveBack(out, i, ReleaseTarget(hold.line.productId, out.reservations[i], None))
           == SettleTx(t, catalog, issue, hold)
  {}

  lemma {:induction false} SettleAgreesExactly(
    t: Tables, catalog: Catalog, issue: Issue, hold: Hold, owner: Id -> Id, scope: Scope)
    requires Kept(t, owner) && Agrees(t, scope) && OwnedBy(catalog, owner)
    requires SettleTx(t, catalog, issue, hold).Ok?
    ensures Kept(SettleTx(t, catalog, issue, hold).value, owner)
    ensures Agrees(SettleTx(t, catalog, issue, hold).value, scope)
       <==> && IssueTakesItsOwn(t, catalog, issue, owner, scope)
            && ClosingFits(t, hold.reservationKey, hold.line.productId, None, owner, scope)
  {
    SettleGivesBack(t, catalog, issue, hold);
    StockOutAgreesExactly(t, catalog, issue, owner, scope);
    var out := StockOutTx(t, catalog, issue).value;
    assert ActiveReservation(out, hold.reservationKey) == ActiveReservation(t, hold.reservationKey);
    match ActiveReservation(out, hold.reservationKey)
    case None =>
    case Some(i) =>
      GiveBackAgreesExactlyWhenItFits(
        out, i, ReleaseTarget(hold.line.productId, out.reservations[i], None), owner, scope);
  }

  /** Every transaction keeps the rows, and a scope's agreement if and only if the step is tracked. */
  lemma {:induction false} EveryTransactionKeeps(t: Tables, step: Step, owner: Id -> Id, scope: Scope)
    requires Kept(t, owner) && Agrees(t, scope) && OwnedBy(step.catalog, owner)
    ensures var u := Apply(t, step.catalog, step.command);
      Kept(u, owner) && (Agrees(u, scope) <==> Tracked(t, step, owner, scope))
  {
    if Execute(t, step.catalog, step.command).Ok? {
      match step.command
      case DoStockIn(receipt) => StockInKeeps(t, step.catalog, receipt, owner, scope);
      case DoStockOut(issue) => StockOutAgreesExactly(t, step.catalog, issue, owner, scope);
      case DoAdjust(a) =>
        if a.line.quantity > 0.0 {
          RaisingKeeps(t, step.catalog, a, owner, scope);
        } else {
          LoweringAgreesExactly(t, step.catalog, a, owner, scope);
        }
      case DoReserve(hold) => ReserveKeeps(t, step.catalog, hold, owner, scope);
      case DoRelease(hold) => ReleaseAgreesExactly(t, step.catalog, hold, owner, scope);
      case DoSettle(issue, hold) => SettleAgreesExactly(t, step.catalog, issue, hold, owner, scope);
      case DoRestock(restock) =>
        var r := Resolve(step.catalog, restock.line).value;
        StockInKeeps(t, step.catalog, ReturnReceipt(t, r, restock), owner, scope);
    }
  }

  // ---------------------------------------------------------------- every run

  /** Every step is tracked in the state it meets. */
  ghost predicate TrackedRun(steps: seq<Step>, owner: Id -> Id, scope: Scope) {
    forall k :: 0 <= k < |steps| ==>
      OwnedBy(steps[k].catalog, owner) && Tracked(Run(Empty, steps[..k]), steps[k], owner, scope)
  }

  /** In every state of such a run the scope's items have on hand what its batches hold, and have reserved
      what its active reservations promise. */
  lemma {:induction false} SummariesAgreeWithDetail(steps: seq<Step>, owner: Id -> Id, scope: Scope)
    requires TrackedRun(steps, owner, scope)
    ensures Kept(Run(Empty, steps), owner) && Agrees(Run(Empty, steps), scope)
  {
    if steps != [] {
      var last := |steps| - 1;
      var front := steps[..last];
      forall k | 0 <= k < last
        ensures OwnedBy(front[k].catalog, owner) && Tracked(Run(Empty, front[..k]), front[k], owner, scope)
      {
        assert front[..k] == steps[..k];
      }
      SummariesAgreeWithDetail(front, owner, scope);
      EveryTransactionKeeps(Run(Empty, front), steps[last], owner, scope);
    }
  }

  /** A release or settlement that closes a reservation made without a stock item names its product. */
  predicate NamesItsProduct(t: Tables, step: Step) {
    match step.command
    case DoRelease(hold) => NamesProductOf(t, hold)
    case DoSettle(_, hold) => NamesProductOf(t, hold)
    case _ => true
  }

  predicate NamesProductOf(t: Tables, hold: Hold) {
    match ActiveReservation(t, hold.reservationKey)
    case None => true
    case Some(i) => t.reservations[i].stockItemId.Some? || hold.line.productId == t.reservations[i].productId
  }

  lemma FitsProductsExactly(r: Reservation, productId: Id, resolved: Option<Id>, owner: Id -> Id)
    requires r.stockItemId.Some? ==> owner(r.stockItemId.value) == r.productId
    requires resolved.Some? ==> owner(resolved.value) == productId
    ensures (forall p :: Fits(OfProduct(p), ReleaseTarget(productId, r, resolved), r, owner))
       <==> r.stockItemId.Some? || productId == r.productId
  {
    if r.stockItemId.None? && productId != r.productId {
      assert !Fits(OfProduct(productId), ReleaseTarget(productId, r, resolved), r, owner);
    }
  }

  lemma ClosingFitsProductsExactly(t: Tables, hold: Hold, resolved: Option<Id>, owner: Id -> Id)
    requires Kept(t, owner) && (resolved.Some? ==> owner(resolved.value) == hold.line.productId)
    ensures (forall p :: ClosingFits(t, hold.reservationKey, hold.line.productId, resolved, owner, OfProduct(p)))
       <==> NamesProductOf(t, hold)
  {
    match ActiveReservation(t, hold.reservationKey)
    case None =>
    case Some(i) =>
      var r := t.reservations[i];
      FitsProductsExactly(r, hold.line.productId, resolved, owner);
      forall p ensures ClosingFits(t, hold.reservationKey, hold.line.productId, resolved, owner, OfProduct(p))
                  <==> Fits(OfProduct(p), ReleaseTarget(hold.line.productId, r, resolved), r, owner) {}
  }

  /** For the sums over products nothing else is needed, and nothing less. */
  lemma {:induction false} ProductsAreTrackedExactly(t: Tables, step: Step, owner: Id -> Id)
    requires Kept(t, owner) && OwnedBy(step.catalog, owner) && Execute(t, step.catalog, step.command).Ok?
    ensures (forall p :: Tracked(t, step, owner, OfProduct(p))) <==> NamesItsProduct(t, step)
  {
    match step.command
    case DoRelease(hold) => ReleaseTracksProducts(t, step, hold, owner);
    case DoSettle(issue, hold) => SettleTracksProducts(t, step, issue, hold, owner);
    case _ =>
      forall p ensures Tracked(t, step, owner, OfProduct(p)) {}
  }

  lemma {:induction false} ReleaseTracksProducts(t: Tables, step: Step, hold: Hold, owner: Id -> Id)
    requires Kept(t, owner) && OwnedBy(step.catalog, owner)
    requires step.command == DoRelease(hold) && ReleaseTx(t, step.catalog, hold).Ok?
    ensures (forall p :: Tracked(t, step, owner, OfProduct(p))) <==> NamesProductOf(t, hold)
  {
    match ActiveReservation(t, hold.reservationKey)
    case None =>
      forall p ensures Tracked(t, step, owner, OfProduct(p)) {}
    case Some(i) =>
      ReleaseGivesBack(t, step.catalog, hold, i);
      ResolvedIsOwned(step.catalog, hold.line, owner);
      var resolved := Resolve(step.catalog, hold.line).value.stockItemId;
      ClosingFitsProductsExactly(t, hold, resolved, owner);
      forall p ensures Tracked(t, step, owner, OfProduct(p))
        <==> ClosingFits(t, hold.reservationKey, hold.line.productId, resolved, owner, OfProduct(p)) {}
  }

  lemma {:induction false} SettleTracksProducts(t: Tables, step: Step, issue: Issue, hold: Hold, owner: Id -> Id)
    requires Kept(t, owner) && step.command == DoSettle(issue, hold) && SettleTx(t, step.catalog, issue, hold).Ok?
    ensures (forall p :: Tracked(t, step, owner, OfProduct(p))) <==> NamesProductOf(t, hold)
  {
    ClosingFitsProductsExactly(t, hold, None, owner);
    forall p ensures Tracked(t, step, owner, OfProduct(p))
      <==> ClosingFits(t, hold.reservationKey, hold.line.productId, None, owner, OfProduct(p)) {}
  }

  /** In every reachable state, for every product: if releases and settlements name the product of a
      reservation made without a stock item, on-hand quantities add up to what the batches hold and reserved
      quantities to what the active reservations promise. */
  lemma {:induction false} ProductsAgree(steps: seq<Step>, owner: Id -> Id, p: Id)
    requires forall k :: 0 <= k < |steps| ==>
      OwnedBy(steps[k].catalog, owner) && NamesItsProduct(Run(Empty, steps[..k]), steps[k])
    ensures Kept(Run(Empty, steps), owner) && Agrees(Run(Empty, steps), OfProduct(p))
  {
    if steps != [] {
      var last := |steps| - 1;
      var front := steps[..last];
      forall k | 0 <= k < last
        ensures OwnedBy(front[k].catalog, owner) && NamesItsProduct(Run(Empty, front[..k]), front[k])
      {
        assert front[..k] == steps[..k];
      }
      ProductsAgree(front, owner, p);
      if Execute(Run(Empty, front), steps[last].catalog, steps[last].command).Ok? {
        ProductsAreTrackedExactly(Run(Empty, front), steps[last], owner);
      }
      EveryTransactionKeeps(Run(Empty, front), steps[last], owner, OfProduct(p));
    }
  }
}
