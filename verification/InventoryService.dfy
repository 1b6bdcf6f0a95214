/** The inventory service on its tables: the queries and guarded updates of
    inventory/inventory.repository.ts and the transactions of inventory/inventory.service.ts, each
    proved to commit what Ledger says or to leave every table as it was. */
module InventoryService {
  import opened Common
  import opened Fifo
  import opened Identity
  import opened Ledger

  // ---------------------------------------------------------------- the consumption loop

  lemma HeldSnoc(bs: seq<Batch>, order: seq<nat>, k: nat)
    requires InBounds(order, |bs|) && k < |order|
    ensures Sum(Held(bs, order[..k + 1])) == Sum(Held(bs, order[..k])) + bs[order[k]].remaining
  {
    assert order[..k + 1] == order[..k] + [order[k]];
    assert Held(bs, order[..k + 1]) == Held(bs, order[..k]) + [bs[order[k]].remaining];
    SumSnoc(Held(bs, order[..k]), bs[order[k]].remaining);
  }

  /** The share of the k-th listed batch, from what the earlier ones hold. */
  lemma {:induction false} ShareAt(bs: seq<Batch>, order: seq<nat>, quantity: real, k: nat)
    requires InBounds(order, |bs|) && Distinct(order) && k < |order|
    ensures Share(bs, order, quantity, order[k])
         == Clamp(quantity - Sum(Held(bs, order[..k])), bs[order[k]].remaining)
    decreases k
  {
    if k == 0 {
      assert Held(bs, order[..0]) == [];
    } else {
      assert order[k] == order[1..][k - 1];
      assert order[k] in order[1..];
      ShareAt(bs, order[1..], quantity - bs[order[0]].remaining, k - 1);
      assert Held(bs, order[..k])[1..] == Held(bs, order[1..][..k - 1]);
    }
  }

  /** The table once the first k listed batches have given their shares. */
  function Partly(bs: seq<Batch>, order: seq<nat>, quantity: real, k: nat): (r: seq<Batch>)
    requires InBounds(order, |bs|) && k <= |order|
    ensures |r| == |bs|
  {
    seq(|bs|, i requires 0 <= i < |bs| =>
      if i in order[..k] then bs[i].(remaining := bs[i].remaining - Share(bs, order, quantity, i)) else bs[i])
  }

  lemma {:induction false} DistinctAt(order: seq<nat>, k: nat)
    requires Distinct(order) && k < |order|
    ensures order[k] !in order[..k]
  {
    if k > 0 {
      DistinctAt(order[1..], k - 1);
      assert order[k] == order[1..][k - 1];
      assert order[k] in order[1..];
      assert order[..k] == [order[0]] + order[1..][..k - 1];
    }
  }

  /** One turn of the loop. */
  lemma PartlyTakes(bs: seq<Batch>, order: seq<nat>, quantity: real, k: nat, taken: real)
    requires InBounds(order, |bs|) && Distinct(order) && k < |order|
    requires taken == Share(bs, order, quantity, order[k])
    ensures Partly(bs, order, quantity, k)[order[k]] == bs[order[k]]
    ensures Partly(bs, order, quantity, k + 1)
         == Partly(bs, order, quantity, k)[order[k] := bs[order[k]].(remaining := bs[order[k]].remaining - taken)]
  {
    DistinctAt(order, k);
    assert order[..k + 1] == order[..k] + [order[k]];
  }

  lemma PartlyAtTheEnd(bs: seq<Batch>, order: seq<nat>, quantity: real, k: nat)
    requires InBounds(order, |bs|) && Stocked(bs, order) && k <= |order|
    requires forall l :: k <= l < |order| ==> Share(bs, order, quantity, order[l]) == 0.0
    ensures Partly(bs, order, quantity, k) == After(bs, order, quantity)
  {
    assert forall l :: 0 <= l < k ==> order[l] in order[..k];
    forall i: nat | i < |bs| && i !in order[..k] ensures Share(bs, order, quantity, i) == 0.0 {
      if i in order {
        var l :| 0 <= l < |order| && order[l] == i;
        assert k <= l;
      } else {
        NothingFallsAfterTheEnd(bs, order, quantity, i);
      }
    }
  }

  lemma {:induction false} HeldGrows(bs: seq<Batch>, order: seq<nat>, k: nat, l: nat)
    requires InBounds(order, |bs|) && Stocked(bs, order) && k <= l <= |order|
    ensures Sum(Held(bs, order[..k])) <= Sum(Held(bs, order[..l]))
    decreases l
  {
    if k < l {
      HeldGrows(bs, order, k, l - 1);
      HeldSnoc(bs, order, l - 1);
    }
  }

  lemma NothingIsLeftFor(bs: seq<Batch>, order: seq<nat>, quantity: real, k: nat, l: nat)
    requires InBounds(order, |bs|) && Distinct(order) && Stocked(bs, order) && k <= l < |order|
    requires quantity <= Sum(Held(bs, order[..k]))
    ensures Share(bs, order, quantity, order[l]) == 0.0
  {
    HeldGrows(bs, order, k, l);
    ShareAt(bs, order, quantity, l);
  }

  /** When nothing is left over, the batches not reached have no share. */
  lemma SpentLeavesTheRest(bs: seq<Batch>, order: seq<nat>, quantity: real, k: nat)
    requires InBounds(order, |bs|) && Distinct(order) && Stocked(bs, order) && k <= |order|
    requires quantity <= Sum(Held(bs, order[..k])) || k == |order|
    ensures Partly(bs, order, quantity, k) == After(bs, order, quantity)
  {
    if k < |order| {
      forall l | k <= l < |order| ensures Share(bs, order, quantity, order[l]) == 0.0 {
        NothingIsLeftFor(bs, order, quantity, k, l);
      }
    }
    PartlyAtTheEnd(bs, order, quantity, k);
  }

  /** The loop has dealt with the first k candidates. */
  ghost predicate Progress(
    rows: seq<Batch>, order: seq<nat>, quantity: real, k: nat,
    left: real, allocations: seq<Allocation>)
    requires InBounds(order, |rows|)
  {
    && k <= |order|
    && left == (if quantity <= Sum(Held(rows, order[..k])) then 0.0 else quantity - Sum(Held(rows, order[..k])))
    && allocations + Allocate(rows, order[k..], left) == Allocate(rows, order, quantity)
  }

  lemma ProgressStarts(rows: seq<Batch>, order: seq<nat>, quantity: real)
    requires InBounds(order, |rows|) && quantity > 0.0
    ensures Progress(rows, order, quantity, 0, quantity, [])
    ensures Partly(rows, order, quantity, 0) == rows
  {}

  lemma ProgressContinues(
    rows: seq<Batch>, order: seq<nat>, quantity: real, k: nat,
    left: real, allocations: seq<Allocation>, consumed: real)
    requires InBounds(order, |rows|) && Distinct(order) && Stocked(rows, order)
    requires Progress(rows, order, quantity, k, left, allocations) && k < |order| && left > 0.0
    requires consumed == Min(rows[order[k]].remaining, left)
    ensures consumed == Share(rows, order, quantity, order[k])
    ensures Progress(rows, order, quantity, k + 1, left - consumed,
      allocations + [Allocation(order[k], consumed, rows[order[k]].unitCost)])
  {
    ShareAt(rows, order, quantity, k);
    HeldSnoc(rows, order, k);
    AllocationsContinue(rows, order, quantity, k, left, allocations, consumed);
  }

  lemma AllocationsContinue(
    rows: seq<Batch>, order: seq<nat>, quantity: real, k: nat,
    left: real, allocations: seq<Allocation>, consumed: real)
    requires InBounds(order, |rows|) && Stocked(rows, order) && k < |order| && left > 0.0
    requires allocations + Allocate(rows, order[k..], left) == Allocate(rows, order, quantity)
    requires consumed == Min(rows[order[k]].remaining, left)
    ensures allocations + [Allocation(order[k], consumed, rows[order[k]].unitCost)]
            + Allocate(rows, order[k + 1..], left - consumed)
         == Allocate(rows, order, quantity)
  {}

  lemma OneTurn(
    rows: seq<Batch>, order: seq<nat>, quantity: real, k: nat,
    left: real, allocations: seq<Allocation>, consumed: real)
    requires InBounds(order, |rows|) && Distinct(order) && Stocked(rows, order)
    requires Progress(rows, order, quantity, k, left, allocations) && k < |order| && left > 0.0
    requires consumed == Min(rows[order[k]].remaining, left)
    ensures Progress(rows, order, quantity, k + 1, left - consumed,
      allocations + [Allocation(order[k], consumed, rows[order[k]].unitCost)])
    ensures Partly(rows, order, quantity, k)[order[k]] == rows[order[k]]
    ensures Partly(rows, order, quantity, k + 1)
         == Partly(rows, order, quantity, k)[
              order[k] := rows[order[k]].(remaining := rows[order[k]].remaining - consumed)]
  {
    ProgressContinues(rows, order, quantity, k, left, allocations, consumed);
    PartlyTakes(rows, order, quantity, k, consumed);
  }

  lemma ProgressEnds(
    rows: seq<Batch>, order: seq<nat>, quantity: real, k: nat,
    left: real, allocations: seq<Allocation>)
    requires InBounds(order, |rows|) && Distinct(order) && Stocked(rows, order)
    requires Progress(rows, order, quantity, k, left, allocations) && (k == |order| || left <= 0.0)
    ensures left > 0.0 <==> Sum(Held(rows, order)) < quantity
    ensures left <= 0.0 ==>
      Partly(rows, order, quantity, k) == After(rows, order, quantity) && allocations == Allocate(rows, order, quantity)
  {
    HeldGrows(rows, order, k, |order|);
    assert order[..|order|] == order;
    SpentLeavesTheRest(rows, order, quantity, k);
  }

  class Service {
    var items: seq<Item>
    var batches: seq<Batch>
    var reservations: seq<Reservation>
    var movements: seq<Movement>
    var events: seq<StockEvent>
    var holdEvents: seq<HoldEvent>

    function State(): Tables
      reads this
    {
      Tables(items, batches, reservations, movements, events, holdEvents)
    }

    constructor ()
      ensures State() == Empty
    {
      items, batches, reservations, movements, events, holdEvents := [], [], [], [], [], [];
    }

    // -------------------------------------------------------------- repository

    method UpsertItem(key: ItemKey, productId: Id) returns (item: Item)
      modifies this`items
      ensures items == Upserted(old(items), key, productId)
      ensures item == items[FindItem(items, key)]
    {
      var i := FindItem(items, key);
      if i == |items| {
        items := items + [Item(key, productId, 0.0, 0.0)];
      }
      assert items == Upserted(old(items), key, productId);
      item := items[FindItem(items, key)];
    }

    method IncrementItemQuantity(key: ItemKey, quantity: real)
      requires FindItem(items, key) < |items|
      modifies this`items
      ensures items == AddOnHand(old(items), key, quantity)
    {
      var i := FindItem(items, key);
      items := items[i := items[i].(onHand := items[i].onHand + quantity)];
    }

    /** Guarded by quantityOnHand >= quantity; the count says whether the row was updated. */
    method DecrementItemQuantity(key: ItemKey, quantity: real) returns (count: nat)
      requires FindItem(items, key) < |items|
      modifies this`items
      ensures count == if old(items)[FindItem(old(items), key)].onHand >= quantity then 1 else 0
      ensures items == if count == 1 then AddOnHand(old(items), key, -quantity) else old(items)
    {
      var i := FindItem(items, key);
      if items[i].onHand >= quantity {
        items := items[i := items[i].(onHand := items[i].onHand - quantity)];
        return 1;
      }
      return 0;
    }

    /** Guarded by quantityOnHand - reservedQuantity >= quantity. */
    method ReserveItemQuantity(key: ItemKey, quantity: real) returns (count: nat)
      requires FindItem(items, key) < |items|
      modifies this`items
      ensures var item := old(items)[FindItem(old(items), key)];
        count == if item.onHand - item.reserved >= quantity then 1 else 0
      ensures items == if count == 1 then AddReserved(old(items), key, quantity) else old(items)
    {
      var i := FindItem(items, key);
      if items[i].onHand - items[i].reserved >= quantity {
        items := items[i := items[i].(reserved := items[i].reserved + quantity)];
        return 1;
      }
      return 0;
    }

    /** Guarded by reservedQuantity >= quantity; no row, no update. */
    method ReleaseReservedQuantity(key: ItemKey, quantity: real) returns (count: nat)
      modifies this`items
      ensures var j := FindItem(old(items), key);
        count == if j < |old(items)| && old(items)[j].reserved >= quantity then 1 else 0
      ensures items == if count == 1 then AddReserved(old(items), key, -quantity) else old(items)
    {
      var i := FindItem(items, key);
      if i < |items| && items[i].reserved >= quantity {
        items := items[i := items[i].(reserved := items[i].reserved - quantity)];
        return 1;
      }
      return 0;
    }

    /** Guarded by quantityRemaining >= quantity. */
    method DecrementBatchQuantity(batch: nat, quantity: real) returns (count: nat)
      requires batch < |batches|
      modifies this`batches
      ensures count == if old(batches)[batch].remaining >= quantity then 1 else 0
      ensures count == 1 ==> batches == old(batches)[batch :=
        old(batches)[batch].(remaining := old(batches)[batch].remaining - quantity)]
      ensures count == 0 ==> batches == old(batches)
    {
      if batches[batch].remaining >= quantity {
        batches := batches[batch := batches[batch].(remaining := batches[batch].remaining - quantity)];
        return 1;
      }
      return 0;
    }

    /** Closes the reservation if it is ACTIVE. */
    method ReleaseReservation(i: nat) returns (count: nat)
      requires i < |reservations|
      modifies this`reservations
      ensures count == if old(reservations)[i].status == ACTIVE then 1 else 0
      ensures count == 1 ==> reservations == old(reservations)[i := old(reservations)[i].(status := RELEASED)]
      ensures count == 0 ==> reservations == old(reservations)
    {
      if reservations[i].status == ACTIVE {
        reservations := reservations[i := reservations[i].(status := RELEASED)];
        return 1;
      }
      return 0;
    }

    method Restore(saved: Tables)
      modifies this
      ensures State() == saved
    {
      items, batches, reservations := saved.items, saved.batches, saved.reservations;
      movements, events, holdEvents := saved.movements, saved.events, saved.holdEvents;
    }

    // -------------------------------------------------------------- FifoService.consume

    /** The loop over the candidate rows gives every batch its share. The rows are read once before the
        loop, so every guarded decrement finds the quantity it read: the conflict the source reports
        for a failed guard needs another transaction on the same rows. */
    method TakeInOrder(order: seq<nat>, quantity: real) returns (left: real, allocations: seq<Allocation>)
      requires InBounds(order, |batches|) && Distinct(order) && Stocked(batches, order) && quantity > 0.0
      modifies this`batches
      ensures left > 0.0 <==> Sum(Held(old(batches), order)) < quantity
      ensures left <= 0.0 ==>
        batches == After(old(batches), order, quantity) && allocations == Allocate(old(batches), order, quantity)
    {
      var rows := batches;
      left, allocations := quantity, [];
      ProgressStarts(rows, order, quantity);
      var k := 0;
      while k < |order| && left > 0.0
        invariant Progress(rows, order, quantity, k, left, allocations)
        invariant batches == Partly(rows, order, quantity, k)
      {
        var batch := rows[order[k]];
        var consumed := if batch.remaining < left then batch.remaining else left;
        OneTurn(rows, order, quantity, k, left, allocations, consumed);
        assert batches[order[k]] == batch;
        var count := DecrementBatchQuantity(order[k], consumed);
        assert count == 1;
        allocations := allocations + [Allocation(order[k], consumed, batch.unitCost)];
        left := left - consumed;
        k := k + 1;
      }
      ProgressEnds(rows, order, quantity, k, left, allocations);
    }

    /** On an error the caller's transaction restores what the loop took. */
    method ConsumeFifo(query: Query, quantity: real) returns (r: Result<seq<Allocation>, FifoError>)
      modifies this`batches
      ensures match Consume(old(batches), query, quantity)
        case Ok(c) => batches == c.batches && r == Ok(c.allocations)
        case Err(e) => r == Err(e)
    {
      if quantity <= 0.0 {
        return Err(FifoError.QuantityNotPositive);
      }
      Candidates(batches, query);
      var left, allocations := TakeInOrder(FindFifoBatches(batches, query), quantity);
      if left > 0.0 {
        return Err(InsufficientInventory);
      }
      return Ok(allocations);
    }

    // -------------------------------------------------------------- transaction bodies

    method StockInInTransaction(catalog: Catalog, receipt: Receipt) returns (r: Result<(), LedgerError>)
      modifies this
      ensures StockInTx(old(State()), catalog, receipt) == if r.Ok? then Ok(State()) else Err(r.error)
    {
      if receipt.line.quantity <= 0.0 {
        return Err(QuantityInvalid);
      }
      if receipt.unitCost < 0.0 {
        return Err(UnitCostNegative);
      }
      if receipt.eventKey.Some? && FindMovement(movements, receipt.eventKey.value) < |movements| {
        return Ok(());
      }
      var resolution := Resolve(catalog, receipt.line);
      if resolution.Err? {
        return Err(Unresolved(resolution.error));
      }
      var identity := resolution.value;
      if !ReceiptAccepted(catalog, identity, receipt.hasBatchCode, receipt.expiry.Some?) {
        return Err(ConfigurationRefused);
      }
      var key := KeyOf(identity.productId, identity.stockItemId);
      var _ := UpsertItem(key, identity.productId);
      batches := batches + [Batch(identity.productId, identity.stockItemId, identity.baseQuantity,
                                  identity.baseQuantity, receipt.unitCost, receipt.expiry)];
      IncrementItemQuantity(key, identity.baseQuantity);
      var movement := Movement(identity.productId, identity.stockItemId, IN, receipt.eventKey, receipt.line.quantity,
                               identity.baseQuantity, Some(receipt.unitCost), receipt.referenceType, receipt.referenceId);
      events := events + [StockIn(receipt.referenceType, receipt.referenceId,
                                  receipt.line.quantity, receipt.unitCost)];
      movements := movements + [movement];
      return Ok(());
    }

    /** The part that stockOutInTransaction and a lowering adjustStock share: take from the batches and
        from the item. */
    method TakeStock(identity: Resolved, now: int) returns (r: Result<seq<Allocation>, LedgerError>)
      modifies this`items, this`batches
      ensures var key := KeyOf(identity.productId, identity.stockItemId);
        var rows := Upserted(old(items), key, identity.productId);
        match Consume(old(batches), MakeQuery(identity, now), identity.baseQuantity)
        case Err(e) => r == Err(FifoFailed(e))
        case Ok(c) =>
          if rows[FindItem(rows, key)].onHand < identity.baseQuantity then r == Err(SummaryOutOfSync)
          else
            && r == Ok(c.allocations)
            && items == AddOnHand(rows, key, -identity.baseQuantity)
            && batches == c.batches
    {
      var key := KeyOf(identity.productId, identity.stockItemId);
      var _ := UpsertItem(key, identity.productId);
      var consumption := ConsumeFifo(MakeQuery(identity, now), identity.baseQuantity);
      if consumption.Err? {
        return Err(FifoFailed(consumption.error));
      }
      var count := DecrementItemQuantity(key, identity.baseQuantity);
      if count != 1 {
        return Err(SummaryOutOfSync);
      }
      return Ok(consumption.value);
    }

    method StockOutInTransaction(catalog: Catalog, issue: Issue) returns (r: Result<(), LedgerError>)
      modifies this
      ensures StockOutTx(old(State()), catalog, issue) == if r.Ok? then Ok(State()) else Err(r.error)
    {
      if issue.line.quantity <= 0.0 {
        return Err(QuantityInvalid);
      }
      if issue.eventKey.Some? && FindMovement(movements, issue.eventKey.value) < |movements| {
        return Ok(());
      }
      var resolution := Resolve(catalog, issue.line);
      if resolution.Err? {
        return Err(Unresolved(resolution.error));
      }
      var identity := resolution.value;
      var taken := TakeStock(identity, issue.now);
      if taken.Err? {
        return Err(taken.error);
      }
      var movement := Movement(identity.productId, identity.stockItemId, OUT, issue.eventKey, issue.line.quantity,
                               identity.baseQuantity, Mean(taken.value), issue.referenceType, issue.referenceId);
      events := events + [StockOut(issue.referenceType, issue.referenceId, taken.value)];
      movements := movements + [movement];
      return Ok(());
    }

    method AdjustInTransaction(catalog: Catalog, a: Adjustment) returns (r: Result<(), LedgerError>)
      modifies this
      ensures AdjustTx(old(State()), catalog, a) == if r.Ok? then Ok(State()) else Err(r.error)
    {
      if a.line.quantity == 0.0 {
        return Err(QuantityInvalid);
      }
      var resolution := Resolve(catalog, a.line.(quantity := Abs(a.line.quantity)));
      if resolution.Err? {
        return Err(Unresolved(resolution.error));
      }
      var identity := resolution.value;
      var key := KeyOf(identity.productId, identity.stockItemId);
      var signed := if a.line.quantity < 0.0 then -identity.baseQuantity else identity.baseQuantity;
      var allocations: seq<Allocation> := [];
      if a.line.quantity > 0.0 {
        if !ReceiptAccepted(catalog, identity, a.hasBatchCode, false) {
          return Err(ConfigurationRefused);
        }
        if CostGiven(a.unitCost) < 0.0 {
          return Err(UnitCostNegative);
        }
        var _ := UpsertItem(key, identity.productId);
        batches := batches + [Batch(identity.productId, identity.stockItemId, identity.baseQuantity,
                                    identity.baseQuantity, CostGiven(a.unitCost), None)];
        IncrementItemQuantity(key, identity.baseQuantity);
      } else {
        var taken := TakeStock(identity, a.now);
        if taken.Err? {
          return Err(taken.error);
        }
        if CostGiven(a.unitCost) < 0.0 {
          return Err(UnitCostNegative);
        }
        allocations := taken.value;
      }
      var movement := Movement(identity.productId, identity.stockItemId, ADJUSTED, None, a.line.quantity,
                               signed, a.unitCost, ADJUSTMENT, a.referenceId);
      events := events + [StockAdjusted(a.referenceId, a.line.quantity, a.unitCost, allocations)];
      movements := movements + [movement];
      return Ok(());
    }

    method ReserveInTransaction(catalog: Catalog, hold: Hold) returns (r: Result<(), LedgerError>)
      modifies this
      ensures ReserveTx(old(State()), catalog, hold) == if r.Ok? then Ok(State()) else Err(r.error)
    {
      if hold.line.quantity <= 0.0 {
        return Err(QuantityInvalid);
      }
      if FindReservation(reservations, hold.reservationKey) < |reservations| {
        return Ok(());
      }
      var resolution := Resolve(catalog, hold.line);
      if resolution.Err? {
        return Err(Unresolved(resolution.error));
      }
      var identity := resolution.value;
      if !ReservationsEnabled(catalog, identity) {
        return Err(ReservationsNotEnabled);
      }
      var key := KeyOf(identity.productId, identity.stockItemId);
      var _ := UpsertItem(key, identity.productId);
      reservations := reservations
        + [Reservation(hold.reservationKey, identity.productId, identity.stockItemId, identity.baseQuantity, ACTIVE)];
      var count := ReserveItemQuantity(key, identity.baseQuantity);
      if count != 1 {
        return Err(InsufficientAvailable);
      }
      holdEvents := holdEvents + [StockReserved(hold.reservationKey)];
      return Ok(());
    }

    /** Close reservation i and lower what its row has reserved. */
    method GiveBackReservation(i: nat, target: ItemKey) returns (r: Result<(), LedgerError>)
      requires i < |reservations| && reservations[i].status == ACTIVE
      modifies this
      ensures GiveBack(old(State()), i, target) == if r.Ok? then Ok(State()) else Err(r.error)
    {
      var reservation := reservations[i];
      var closed := ReleaseReservation(i);
      assert closed == 1;
      var count := ReleaseReservedQuantity(target, reservation.baseQuantity);
      if count != 1 {
        return Err(ReservedOutOfSync);
      }
      holdEvents := holdEvents + [ReservationReleased(reservation.key)];
      return Ok(());
    }

    method ReleaseInTransaction(catalog: Catalog, hold: Hold) returns (r: Result<(), LedgerError>)
      modifies this
      ensures ReleaseTx(old(State()), catalog, hold) == if r.Ok? then Ok(State()) else Err(r.error)
    {
      if hold.line.quantity <= 0.0 {
        return Err(QuantityInvalid);
      }
      var i := FindReservation(reservations, hold.reservationKey);
      if i == |reservations| || reservations[i].status != ACTIVE {
        return Ok(());
      }
      var resolution := Resolve(catalog, hold.line);
      if resolution.Err? {
        return Err(Unresolved(resolution.error));
      }
      var identity := resolution.value;
      var _ := UpsertItem(KeyOf(identity.productId, identity.stockItemId), identity.productId);
      r := GiveBackReservation(i, ReleaseTarget(hold.line.productId, reservations[i], identity.stockItemId));
    }

    method SettleInTransaction(catalog: Catalog, issue: Issue, hold: Hold) returns (r: Result<(), LedgerError>)
      modifies this
      ensures SettleTx(old(State()), catalog, issue, hold) == if r.Ok? then Ok(State()) else Err(r.error)
    {
      r := StockOutInTransaction(catalog, issue);
      if r.Err? {
        return;
      }
      var i := FindReservation(reservations, hold.reservationKey);
      if i == |reservations| || reservations[i].status != ACTIVE {
        return Ok(());
      }
      r := GiveBackReservation(i, ReleaseTarget(hold.line.productId, reservations[i], None));
    }

    method RestockInTransaction(catalog: Catalog, restock: Restock) returns (r: Result<(), LedgerError>)
      modifies this
      ensures RestockTx(old(State()), catalog, restock) == if r.Ok? then Ok(State()) else Err(r.error)
    {
      var resolution := Resolve(catalog, restock.line);
      if resolution.Err? {
        return Err(Unresolved(resolution.error));
      }
      r := StockInInTransaction(catalog, ReturnReceipt(State(), resolution.value, restock));
    }

    // -------------------------------------------------------------- the service

    /** Runs a command in a transaction: it commits whole, or throws and leaves every table as it was,
        whichever statement failed. */
    method Transact(catalog: Catalog, c: Command) returns (r: Result<(), LedgerError>)
      modifies this
      ensures State() == Apply(old(State()), catalog, c)
      ensures r.Ok? <==> Execute(old(State()), catalog, c).Ok?
      ensures r.Err? ==> State() == old(State()) && Execute(old(State()), catalog, c) == Err(r.error)
    {
      var saved := State();
      match c {
        case DoStockIn(receipt) => r := StockInInTransaction(catalog, receipt);
        case DoStockOut(issue) => r := StockOutInTransaction(catalog, issue);
        case DoAdjust(a) => r := AdjustInTransaction(catalog, a);
        case DoReserve(hold) => r := ReserveInTransaction(catalog, hold);
        case DoRelease(hold) => r := ReleaseInTransaction(catalog, hold);
        case DoSettle(issue, hold) => r := SettleInTransaction(catalog, issue, hold);
        case DoRestock(restock) => r := RestockInTransaction(catalog, restock);
      }
      if r.Err? {
        Restore(saved);
      }
    }
  }
}
