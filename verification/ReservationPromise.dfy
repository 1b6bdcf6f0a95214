/** A reservation is a promise that can be kept: while no decrease of an item takes more than is available
    besides the reservation it settles, what is reserved is on hand, and settling an active reservation
    cannot fail. */
module ReservationPromise {
  import opened Common
  import opened Fifo
  import opened Identity
  import opened Ledger
  import opened Agreement

  /** No batch of s has expired by then. */
  ghost predicate NoneExpired(batches: seq<Batch>, s: Id, now: int) {
    forall i :: 0 <= i < |batches| && batches[i].stockItemId == Some(s) && batches[i].expiry.Some? ==>
      batches[i].expiry.value > now
  }

  /** What an issue takes from stock item s. */
  function IssuedOf(t: Tables, catalog: Catalog, issue: Issue, s: Id): real {
    if ResolvesTo(catalog, issue.line, s) && !Recorded(t.movements, issue.eventKey)
    then Resolve(catalog, issue.line).value.baseQuantity
    else 0.0
  }

  /** What the command, if it commits, takes from stock item s. */
  function Drop(t: Tables, step: Step, s: Id): real {
    match step.command
    case DoStockOut(issue) => IssuedOf(t, step.catalog, issue, s)
    case DoSettle(issue, _) => IssuedOf(t, step.catalog, issue, s)
    case DoAdjust(a) =>
      if a.line.quantity < 0.0 && ResolvesTo(step.catalog, Lowered(a), s)
      then Resolve(step.catalog, Lowered(a)).value.baseQuantity
      else 0.0
    case _ => 0.0
  }

  /** What the reservation that the command settles promised of stock item s. */
  function Freed(t: Tables, step: Step, s: Id): real {
    match step.command
    case DoSettle(_, hold) =>
      (match ActiveReservation(t, hold.reservationKey)
       case None => 0.0
       case Some(i) => Promised(OfStockItem(s), t.reservations[i]))
    case _ => 0.0
  }

  function Available(t: Tables, s: Id): real {
    OnHand(t, OfStockItem(s)) - Reserved(t, OfStockItem(s))
  }

  /** The command, if it commits, takes no more than is available besides what it settles. */
  predicate Spares(t: Tables, step: Step, s: Id) {
    Execute(t, step.catalog, step.command).Ok? ==> Drop(t, step, s) - Freed(t, step, s) <= Available(t, s)
  }

  predicate ResolvesTo(catalog: Catalog, line: Line, s: Id) {
    Resolve(catalog, line).Ok? && Resolve(catalog, line).value.stockItemId == Some(s)
  }

  /** What every state of such a run satisfies. */
  ghost predicate Promising(t: Tables, owner: Id -> Id, s: Id) {
    && Kept(t, owner) && Agrees(t, OfStockItem(s))
    && Reserved(t, OfStockItem(s)) <= OnHand(t, OfStockItem(s))
  }

  // ---------------------------------------------------------------- one row per stock item

  lemma {:induction false} RowIsTheSum(items: seq<Item>, s: Id)
    requires forall i :: 0 <= i < |items| ==> FindItem(items, items[i].key) == i
    ensures var i := FindItem(items, OfStock(s));
      Sum(OnHandColumn(items, OfStockItem(s))) == (if i < |items| then items[i].onHand else 0.0)
      && Sum(ReservedColumn(items, OfStockItem(s))) == (if i < |items| then items[i].reserved else 0.0)
  {
    var i := FindItem(items, OfStock(s));
    var zeros := seq(|items|, _ => 0.0);
    SumZero(zeros);
    forall j | 0 <= j < |items| && j != i ensures !CoversItem(OfStockItem(s), items[j]) {
      assert FindItem(items, items[j].key) == j;
    }
    if i < |items| {
      SumUpdate(zeros, i, items[i].onHand);
      SumUpdate(zeros, i, items[i].reserved);
      assert OnHandColumn(items, OfStockItem(s)) == zeros[i := items[i].onHand];
      assert ReservedColumn(items, OfStockItem(s)) == zeros[i := items[i].reserved];
    } else {
      assert OnHandColumn(items, OfStockItem(s)) == zeros;
      assert ReservedColumn(items, OfStockItem(s)) == zeros;
    }
  }

  /** All of a stock item's stock is eligible as long as none has expired. */
  lemma AllStockIsEligible(batches: seq<Batch>, r: Resolved, now: int, owner: Id -> Id, s: Id)
    requires BatchesKept(batches, owner) && NoneExpired(batches, s, now)
    requires r.stockItemId == Some(s) && r.productId == owner(s)
    ensures EligibleStock(batches, MakeQuery(r, now)) == Stock(batches, OfStockItem(s))
  {
    assert EligibleColumn(batches, MakeQuery(r, now)) == StockColumn(batches, OfStockItem(s));
  }

  lemma PromiseIsPartOfTheSum(t: Tables, i: nat, s: Id, owner: Id -> Id)
    requires ReservationsKept(t.reservations, owner)
    requires i < |t.reservations| && t.reservations[i].status == ACTIVE && t.reservations[i].stockItemId == Some(s)
    ensures t.reservations[i].baseQuantity <= PromisedQuantity(t, OfStockItem(s))
  {
    var column := PromisedColumn(t.reservations, OfStockItem(s));
    SumNonNegative(column);
    assert column[i] <= Sum(column);
  }

  // ---------------------------------------------------------------- what each transaction moves

  lemma InboundMoves(t: Tables, catalog: Catalog, receipt: Receipt, s: Id)
    requires StockInTx(t, catalog, receipt).Ok?
    ensures var u := StockInTx(t, catalog, receipt).value;
      && u.reservations == t.reservations
      && Stock(t.batches, OfStockItem(s)) <= Stock(u.batches, OfStockItem(s))
  {
    if !Recorded(t.movements, receipt.eventKey) {
      var r := Resolve(catalog, receipt.line).value;
      ResolvedIsOfTheProduct(catalog, receipt.line);
      NewBatchCounts(t.batches, Batch(r.productId, r.stockItemId, r.baseQuantity, r.baseQuantity,
                                      receipt.unitCost, receipt.expiry), OfStockItem(s));
    }
  }

  lemma ConsumeSparesOthers(batches: seq<Batch>, r: Resolved, now: int, owner: Id -> Id, s: Id)
    requires BatchesKept(batches, owner) && Owned(r, owner)
    requires TakesItsOwn(batches, r, now, owner, OfStockItem(s))
    requires Consume(batches, MakeQuery(r, now), r.baseQuantity).Ok?
    ensures var after := Consume(batches, MakeQuery(r, now), r.baseQuantity).value.batches;
      Stock(after, OfStockItem(s))
      == Stock(batches, OfStockItem(s)) - if r.stockItemId == Some(s) then r.baseQuantity else 0.0
  {
    ConsumeTakes(batches, r, now, owner, OfStockItem(s));
  }

  lemma {:induction false} StockOutMoves(
    t: Tables, step: Step, issue: Issue, owner: Id -> Id, s: Id)
    requires Promising(t, owner, s) && OwnedBy(step.catalog, owner)
    requires StockOutTx(t, step.catalog, issue).Ok?
    requires IssueTakesItsOwn(t, step.catalog, issue, owner, OfStockItem(s))
    ensures var u := StockOutTx(t, step.catalog, issue).value;
      && u.reservations == t.reservations
      && Stock(u.batches, OfStockItem(s)) == Stock(t.batches, OfStockItem(s))
         - IssuedOf(t, step.catalog, issue, s)
  {
    if !Recorded(t.movements, issue.eventKey) {
      var r := Resolve(step.catalog, issue.line).value;
      ResolvedIsOwned(step.catalog, issue.line, owner);
      ConsumeSparesOthers(t.batches, r, issue.now, owner, s);
    }
  }

  lemma AdjustMoves(t: Tables, step: Step, a: Adjustment, owner: Id -> Id, s: Id)
    requires Promising(t, owner, s) && OwnedBy(step.catalog, owner) && Tracked(t, step, owner, OfStockItem(s))
    requires step.command == DoAdjust(a) && AdjustTx(t, step.catalog, a).Ok?
    ensures var u := AdjustTx(t, step.catalog, a).value;
      && u.reservations == t.reservations
      && (if a.line.quantity > 0.0 then Stock(t.batches, OfStockItem(s)) <= Stock(u.batches, OfStockItem(s))
          else Stock(u.batches, OfStockItem(s)) == Stock(t.batches, OfStockItem(s)) - Drop(t, step, s))
  {
    var r := Resolve(step.catalog, Lowered(a)).value;
    ResolvedIsOwned(step.catalog, Lowered(a), owner);
    if a.line.quantity > 0.0 {
      NewBatchCounts(t.batches, Batch(r.productId, r.stockItemId, r.baseQuantity, r.baseQuantity,
                                      CostGiven(a.unitCost), None), OfStockItem(s));
    } else {
      ConsumeSparesOthers(t.batches, r, a.now, owner, s);
    }
  }

  lemma GiveBackMoves(t: Tables, i: nat, target: ItemKey, s: Id)
    requires i < |t.reservations| && t.reservations[i].status == ACTIVE
    requires GiveBack(t, i, target).Ok?
    ensures var u := GiveBack(t, i, target).value;
      && u.batches == t.batches
      && PromisedQuantity(u, OfStockItem(s)) == PromisedQuantity(t, OfStockItem(s))
         - Promised(OfStockItem(s), t.reservations[i])
  {
    ClosingTakesItsPromise(t.reservations, i, OfStockItem(s));
  }

  lemma ReserveIsCovered(t: Tables, catalog: Catalog, hold: Hold, owner: Id -> Id, s: Id)
    requires Promising(t, owner, s) && OwnedBy(catalog, owner)
    requires ReserveTx(t, catalog, hold).Ok?
    ensures var u := ReserveTx(t, catalog, hold).value;
      && u.batches == t.batches
      && PromisedQuantity(u, OfStockItem(s)) <= Stock(u.batches, OfStockItem(s))
  {
    if FindReservation(t.reservations, hold.reservationKey) == |t.reservations| {
      var r := Resolve(catalog, hold.line).value;
      ResolvedIsOwned(catalog, hold.line, owner);
      var key := KeyOf(r.productId, r.stockItemId);
      var items := Upserted(t.items, key, r.productId);
      UpsertKeeps(t.items, key, r.productId, owner);
      UpsertMovesNothing(t.items, key, r.productId, OfStockItem(s));
      RowIsTheSum(items, s);
      NewReservationAddsItsPromise(
        t.reservations, Reservation(hold.reservationKey, r.productId, r.stockItemId, r.baseQuantity, ACTIVE),
        OfStockItem(s));
    }
  }

  // ---------------------------------------------------------------- the promise over every run

  lemma ReleaseKeepsPromise(t: Tables, step: Step, hold: Hold, owner: Id -> Id, s: Id)
    requires Promising(t, owner, s) && ReleaseTx(t, step.catalog, hold).Ok?
    ensures var u := ReleaseTx(t, step.catalog, hold).value;
      && u.batches == t.batches
      && PromisedQuantity(u, OfStockItem(s)) <= PromisedQuantity(t, OfStockItem(s))
  {
    match ActiveReservation(t, hold.reservationKey)
    case None =>
    case Some(i) =>
      var r := Resolve(step.catalog, hold.line).value;
      var key := KeyOf(r.productId, r.stockItemId);
      GiveBackMoves(t.(items := Upserted(t.items, key, r.productId)), i,
                    ReleaseTarget(hold.line.productId, t.reservations[i], r.stockItemId), s);
  }

  lemma {:induction false} SettleMoves(
    t: Tables, step: Step, issue: Issue, hold: Hold, owner: Id -> Id, s: Id)
    requires Promising(t, owner, s) && OwnedBy(step.catalog, owner) && Tracked(t, step, owner, OfStockItem(s))
    requires step.command == DoSettle(issue, hold) && SettleTx(t, step.catalog, issue, hold).Ok?
    ensures var u := SettleTx(t, step.catalog, issue, hold).value;
      && Stock(u.batches, OfStockItem(s)) == Stock(t.batches, OfStockItem(s)) - Drop(t, step, s)
      && PromisedQuantity(u, OfStockItem(s)) == PromisedQuantity(t, OfStockItem(s)) - Freed(t, step, s)
  {
    StockOutMoves(t, step, issue, owner, s);
    var out := StockOutTx(t, step.catalog, issue).value;
    match ActiveReservation(out, hold.reservationKey)
    case None =>
    case Some(i) =>
      GiveBackMoves(out, i, ReleaseTarget(hold.line.productId, out.reservations[i], None), s);
  }

  predicate Decreases(c: Command) {
    c.DoStockOut? || c.DoSettle? || (c.DoAdjust? && c.adjustment.line.quantity <= 0.0)
  }

  /** A decrease moves stock and promises by exactly what it takes and settles. */
  lemma {:induction false} DecreaseMoves(
    t: Tables, step: Step, owner: Id -> Id, s: Id)
    requires Promising(t, owner, s) && OwnedBy(step.catalog, owner) && Tracked(t, step, owner, OfStockItem(s))
    requires Decreases(step.command) && Execute(t, step.catalog, step.command).Ok?
    ensures var u := Apply(t, step.catalog, step.command);
      && Stock(u.batches, OfStockItem(s)) == Stock(t.batches, OfStockItem(s)) - Drop(t, step, s)
      && PromisedQuantity(u, OfStockItem(s)) == PromisedQuantity(t, OfStockItem(s)) - Freed(t, step, s)
  {
    match step.command
    case DoStockOut(issue) => StockOutMoves(t, step, issue, owner, s);
    case DoAdjust(a) => AdjustMoves(t, step, a, owner, s);
    case DoSettle(issue, hold) => SettleMoves(t, step, issue, hold, owner, s);
  }

  /** Every other command leaves at least as much beyond what is promised. */
  lemma {:induction false} OthersKeepThePromise(
    t: Tables, step: Step, owner: Id -> Id, s: Id)
    requires Promising(t, owner, s) && OwnedBy(step.catalog, owner) && Tracked(t, step, owner, OfStockItem(s))
    requires !Decreases(step.command) && Execute(t, step.catalog, step.command).Ok?
    ensures var u := Apply(t, step.catalog, step.command);
      PromisedQuantity(u, OfStockItem(s)) <= Stock(u.batches, OfStockItem(s))
  {
    match step.command
    case DoStockIn(receipt) => InboundMoves(t, step.catalog, receipt, s);
    case DoAdjust(a) => AdjustMoves(t, step, a, owner, s);
    case DoReserve(hold) => ReserveIsCovered(t, step.catalog, hold, owner, s);
    case DoRelease(hold) => ReleaseKeepsPromise(t, step, hold, owner, s);
    case DoRestock(restock) =>
      InboundMoves(t, step.catalog, ReturnReceipt(t, Resolve(step.catalog, restock.line).value, restock), s);
  }

  /** A step keeps the promise if and only if it takes no more than is available besides what it settles. */
  lemma {:induction false} EveryStepKeepsThePromise(
    t: Tables, step: Step, owner: Id -> Id, s: Id)
    requires Promising(t, owner, s)
    requires OwnedBy(step.catalog, owner) && Tracked(t, step, owner, OfStockItem(s))
    ensures Promising(Apply(t, step.catalog, step.command), owner, s) <==> Spares(t, step, s)
  {
    EveryTransactionKeeps(t, step, owner, OfStockItem(s));
    if Execute(t, step.catalog, step.command).Ok? {
      if Decreases(step.command) {
        DecreaseMoves(t, step, owner, s);
      } else {
        OthersKeepThePromise(t, step, owner, s);
      }
    }
  }

  /** The request settles active reservation i of stock item s by its base quantity. */
  ghost predicate Settles(t: Tables, i: nat, catalog: Catalog, issue: Issue, hold: Hold, owner: Id -> Id, s: Id) {
    && i < |t.reservations| && t.reservations[i].status == ACTIVE && t.reservations[i].stockItemId == Some(s)
    && hold.reservationKey == t.reservations[i].key
    && OwnedBy(catalog, owner) && issue.line.quantity > 0.0 && ResolvesTo(catalog, issue.line, s)
    && Resolve(catalog, issue.line).value.baseQuantity == t.reservations[i].baseQuantity
  }

  /** Settling an active reservation by its own base quantity spares the others, whatever is available. */
  lemma SettlementsSpare(t: Tables, i: nat, step: Step, owner: Id -> Id, s: Id)
    requires Promising(t, owner, s) && step.command.DoSettle?
    requires Settles(t, i, step.catalog, step.command.issue, step.command.hold, owner, s)
    ensures Spares(t, step, s)
  {
    assert ActiveReservation(t, step.command.hold.reservationKey) == Some(i);
  }

  ghost predicate PromisingRun(steps: seq<Step>, owner: Id -> Id, s: Id) {
    forall k :: 0 <= k < |steps| ==>
      && OwnedBy(steps[k].catalog, owner) && Tracked(Run(Empty, steps[..k]), steps[k], owner, OfStockItem(s))
      && Spares(Run(Empty, steps[..k]), steps[k], s)
  }

  lemma {:induction false} RunsArePromising(steps: seq<Step>, owner: Id -> Id, s: Id)
    requires PromisingRun(steps, owner, s)
    ensures Promising(Run(Empty, steps), owner, s)
  {
    if steps != [] {
      var last := |steps| - 1;
      forall k | 0 <= k < last ensures steps[..last][..k] == steps[..k] {}
      RunsArePromising(steps[..last], owner, s);
      EveryStepKeepsThePromise(Run(Empty, steps[..last]), steps[last], owner, s);
    }
  }

  /** The issue has gone out already, or the unexpired stock covers it. */
  predicate Covered(t: Tables, catalog: Catalog, issue: Issue) {
    || Recorded(t.movements, issue.eventKey)
    || (Resolve(catalog, issue.line).Ok? &&
        var r := Resolve(catalog, issue.line).value;
        r.baseQuantity <= EligibleStock(t.batches, MakeQuery(r, issue.now)))
  }

  lemma IssueWasCovered(t: Tables, catalog: Catalog, issue: Issue, owner: Id -> Id)
    requires Kept(t, owner) && StockOutTx(t, catalog, issue).Ok?
    ensures Covered(t, catalog, issue)
  {
    if !Recorded(t.movements, issue.eventKey) {
      var r := Resolve(catalog, issue.line).value;
      ResolvedIsOfTheProduct(catalog, issue.line);
      ConsumeIsExactAndGreedy(t.batches, MakeQuery(r, issue.now), r.baseQuantity);
    }
  }

  /** Once the issue has gone out, the release that completes the settlement succeeds. */
  lemma {:induction false} ReleaseFollows(
    t: Tables, i: nat, catalog: Catalog, issue: Issue, hold: Hold, owner: Id -> Id, s: Id)
    requires Promising(t, owner, s) && Settles(t, i, catalog, issue, hold, owner, s) && Covered(t, catalog, issue)
    ensures SettleTx(t, catalog, issue, hold).Ok?
  {
    IssueForReservationSucceeds(t, i, catalog, issue, hold, owner, s);
    var out := StockOutTx(t, catalog, issue).value;
    StockOutLeavesReserved(t, catalog, issue, s);
    assert ActiveReservation(out, hold.reservationKey) == Some(i);
  }

  /** Settling an active reservation succeeds if and only if the unexpired stock covers it: nothing else can
      stand in its way. */
  lemma {:induction false} SettlingSucceeds(
    t: Tables, i: nat, catalog: Catalog, issue: Issue, hold: Hold, owner: Id -> Id, s: Id)
    requires Promising(t, owner, s) && Settles(t, i, catalog, issue, hold, owner, s)
    ensures SettleTx(t, catalog, issue, hold).Ok? <==> Covered(t, catalog, issue)
  {
    if Covered(t, catalog, issue) {
      ReleaseFollows(t, i, catalog, issue, hold, owner, s);
    } else if StockOutTx(t, catalog, issue).Ok? {
      IssueWasCovered(t, catalog, issue, owner);
    }
  }

  lemma {:induction false} IssueForReservationSucceeds(
    t: Tables, i: nat, catalog: Catalog, issue: Issue, hold: Hold, owner: Id -> Id, s: Id)
    requires Promising(t, owner, s) && Settles(t, i, catalog, issue, hold, owner, s) && Covered(t, catalog, issue)
    ensures StockOutTx(t, catalog, issue).Ok?
    ensures var j := FindItem(t.items, OfStock(s));
      j < |t.items| && t.reservations[i].baseQuantity <= t.items[j].reserved
  {
    var r := Resolve(catalog, issue.line).value;
    ResolvedIsOwned(catalog, issue.line, owner);
    PromiseIsPartOfTheSum(t, i, s, owner);
    RowIsTheSum(t.items, s);
    assert FindItem(t.items, OfStock(s)) < |t.items|;
    ConsumeIsExactAndGreedy(t.batches, MakeQuery(r, issue.now), r.baseQuantity);
  }

  lemma {:induction false} UnexpiredCovers(
    t: Tables, i: nat, catalog: Catalog, issue: Issue, hold: Hold, owner: Id -> Id, s: Id)
    requires Promising(t, owner, s) && Settles(t, i, catalog, issue, hold, owner, s)
    requires NoneExpired(t.batches, s, issue.now)
    ensures Covered(t, catalog, issue)
  {
    var r := Resolve(catalog, issue.line).value;
    ResolvedIsOwned(catalog, issue.line, owner);
    PromiseIsPartOfTheSum(t, i, s, owner);
    AllStockIsEligible(t.batches, r, issue.now, owner, s);
  }

  lemma {:induction false} StockOutLeavesReserved(t: Tables, catalog: Catalog, issue: Issue, s: Id)
    requires StockOutTx(t, catalog, issue).Ok? && ResolvesTo(catalog, issue.line, s)
    requires FindItem(t.items, OfStock(s)) < |t.items|
    ensures var u := StockOutTx(t, catalog, issue).value;
      var j := FindItem(u.items, OfStock(s));
      && u.reservations == t.reservations
      && j < |u.items| && u.items[j].reserved == t.items[FindItem(t.items, OfStock(s))].reserved
  {
    var j := FindItem(t.items, OfStock(s));
    forall row: Item | row.key == OfStock(s) ensures FindItem(t.items[j := row], OfStock(s)) == j {
      FindItemAfterUpdate(t.items, j, row, OfStock(s));
    }
  }

  /** In every reachable state of a run of tracked steps in which no decrease of s takes more than is available
      besides what it settles: reserved stays within on hand, settling any active reservation of s succeeds if
      and only if the unexpired stock covers it, and it does as long as no stock of s has expired. */
  lemma {:induction false} ReservationsCanBeKept(steps: seq<Step>, owner: Id -> Id, s: Id)
    requires PromisingRun(steps, owner, s)
    ensures var t := Run(Empty, steps);
      && Reserved(t, OfStockItem(s)) <= OnHand(t, OfStockItem(s))
      && forall i: nat, catalog, issue, hold :: Settles(t, i, catalog, issue, hold, owner, s) ==>
           && (SettleTx(t, catalog, issue, hold).Ok? <==> Covered(t, catalog, issue))
           && (NoneExpired(t.batches, s, issue.now) ==> SettleTx(t, catalog, issue, hold).Ok?)
  {
    RunsArePromising(steps, owner, s);
    var t := Run(Empty, steps);
    forall i: nat, catalog, issue, hold | Settles(t, i, catalog, issue, hold, owner, s)
      ensures SettleTx(t, catalog, issue, hold).Ok? <==> Covered(t, catalog, issue)
      ensures NoneExpired(t.batches, s, issue.now) ==> SettleTx(t, catalog, issue, hold).Ok?
    {
      SettlingSucceeds(t, i, catalog, issue, hold, owner, s);
      if NoneExpired(t.batches, s, issue.now) {
        UnexpiredCovers(t, i, catalog, issue, hold, owner, s);
      }
    }
  }
}
