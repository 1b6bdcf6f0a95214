/** A release or settlement that comes before its reservation is not absorbed for good: it succeeds, and
    when it is delivered again once the reservation has been made it closes that reservation. */
module LateReservation {
  import opened Common
  import opened Fifo
  import opened Identity
  import opened Ledger
  import opened KeyedCommands
  import opened Samples

  // ---------------------------------------------------------------- no reserved quantity is negative

  ghost predicate NoneNegative(items: seq<Item>) {
    forall i :: 0 <= i < |items| ==> 0.0 <= items[i].reserved
  }

  lemma StockInKeepsSigns(t: Tables, catalog: Catalog, receipt: Receipt)
    requires NoneNegative(t.items) && StockInTx(t, catalog, receipt).Ok?
    ensures NoneNegative(StockInTx(t, catalog, receipt).value.items)
  {}

  lemma StockOutKeepsSigns(t: Tables, catalog: Catalog, issue: Issue)
    requires NoneNegative(t.items) && StockOutTx(t, catalog, issue).Ok?
    ensures NoneNegative(StockOutTx(t, catalog, issue).value.items)
  {}

  lemma AdjustKeepsSigns(t: Tables, catalog: Catalog, a: Adjustment)
    requires NoneNegative(t.items) && AdjustTx(t, catalog, a).Ok?
    ensures NoneNegative(AdjustTx(t, catalog, a).value.items)
  {}

  lemma ReserveKeepsSigns(t: Tables, catalog: Catalog, hold: Hold)
    requires NoneNegative(t.items) && ReserveTx(t, catalog, hold).Ok?
    ensures NoneNegative(ReserveTx(t, catalog, hold).value.items)
  {
    if Resolve(catalog, hold.line).Ok? {
      ResolvedIsOfTheProduct(catalog, hold.line);
    }
  }

  lemma GiveBackKeepsSigns(t: Tables, i: nat, key: ItemKey)
    requires NoneNegative(t.items) && i < |t.reservations| && GiveBack(t, i, key).Ok?
    ensures NoneNegative(GiveBack(t, i, key).value.items)
  {}

  lemma ReleaseKeepsSigns(t: Tables, catalog: Catalog, hold: Hold)
    requires NoneNegative(t.items) && ReleaseTx(t, catalog, hold).Ok?
    ensures NoneNegative(ReleaseTx(t, catalog, hold).value.items)
  {
    match ActiveReservation(t, hold.reservationKey)
    case None =>
    case Some(i) =>
      var r := Resolve(catalog, hold.line).value;
      GiveBackKeepsSigns(t.(items := Upserted(t.items, KeyOf(r.productId, r.stockItemId), r.productId)), i,
                         ReleaseTarget(hold.line.productId, t.reservations[i], r.stockItemId));
  }

  lemma SettleKeepsSigns(t: Tables, catalog: Catalog, issue: Issue, hold: Hold)
    requires NoneNegative(t.items) && SettleTx(t, catalog, issue, hold).Ok?
    ensures NoneNegative(SettleTx(t, catalog, issue, hold).value.items)
  {
    StockOutKeepsSigns(t, catalog, issue);
    var out := StockOutTx(t, catalog, issue).value;
    match ActiveReservation(out, hold.reservationKey)
    case None =>
    case Some(i) => GiveBackKeepsSigns(out, i, ReleaseTarget(hold.line.productId, out.reservations[i], None));
  }

  lemma CommandKeepsSigns(t: Tables, catalog: Catalog, c: Command)
    requires NoneNegative(t.items)
    ensures NoneNegative(Apply(t, catalog, c).items)
  {
    if Execute(t, catalog, c).Ok? {
      match c
      case DoStockIn(receipt) => StockInKeepsSigns(t, catalog, receipt);
      case DoStockOut(issue) => StockOutKeepsSigns(t, catalog, issue);
      case DoAdjust(a) => AdjustKeepsSigns(t, catalog, a);
      case DoReserve(hold) => ReserveKeepsSigns(t, catalog, hold);
      case DoRelease(hold) => ReleaseKeepsSigns(t, catalog, hold);
      case DoSettle(issue, hold) => SettleKeepsSigns(t, catalog, issue, hold);
      case DoRestock(restock) =>
        StockInKeepsSigns(t, catalog, ReturnReceipt(t, Resolve(catalog, restock.line).value, restock));
    }
  }

  /** In every reachable state, whatever the requests, no row's reserved quantity is negative. */
  lemma {:induction false} RunsKeepSigns(steps: seq<Step>)
    ensures NoneNegative(Run(Empty, steps).items)
  {
    if steps != [] {
      var last := |steps| - 1;
      RunsKeepSigns(steps[..last]);
      CommandKeepsSigns(Run(Empty, steps[..last]), steps[last].catalog, steps[last].command);
    }
  }

  // ---------------------------------------------------------------- making the reservation late

  function ItemFor(line: Line): Id {
    if line.stockItemId.Some? then line.stockItemId.value else "item"
  }

  /** Master data that the line resolves against, one for one. */
  function Fit(line: Line): Catalog {
    Catalog(
      map[line.productId := Product(true, if line.variantId.Some? then {line.variantId.value} else {})],
      map[ItemFor(line) := StockItem(line.productId, line.variantId, true, true, true, false, false, true, None)],
      [ItemFor(line)],
      if line.unitId.Some? then map[(ItemFor(line), line.unitId.value) := 1.0] else map[])
  }

  lemma FitResolves(line: Line, quantity: real)
    requires quantity > 0.0
    ensures Resolve(Fit(line), line.(quantity := quantity))
         == Ok(Resolved(line.productId, Some(ItemFor(line)), line.unitId, quantity))
  {
    var fit := Fit(line);
    assert fit.listing[0] == ItemFor(line);
    assert FirstUsable(fit, fit.listing, line.productId, line.variantId) == Some(ItemFor(line));
  }

  /** Enough of the line's product for its reservation, and the reservation. */
  function Supply(t: Tables, line: Line): Receipt {
    var i := FindItem(t.items, OfStock(ItemFor(line)));
    var short := if i < |t.items| then t.items[i].reserved - t.items[i].onHand else 0.0;
    Receipt(line.(quantity := Abs(short) + 1.0), 0.0, None, true, None, ADJUSTMENT, "")
  }

  function OneOf(hold: Hold): Hold {
    hold.(line := hold.line.(quantity := 1.0))
  }

  function MadeLate(t: Tables, hold: Hold): seq<Step> {
    [Step(Fit(hold.line), DoStockIn(Supply(t, hold.line))), Step(Fit(hold.line), DoReserve(OneOf(hold)))]
  }

  /** The row of the line's stock item can lend one more. */
  ghost predicate CanLend(t: Tables, line: Line) {
    var i := FindItem(t.items, OfStock(ItemFor(line)));
    i < |t.items| && 0.0 <= t.items[i].reserved && 1.0 <= t.items[i].onHand - t.items[i].reserved
  }

  lemma SupplyIsReceived(t: Tables, line: Line)
    ensures var receipt := Supply(t, line);
      Apply(t, Fit(line), DoStockIn(receipt))
      == Received(t, Resolved(line.productId, Some(ItemFor(line)), line.unitId, receipt.line.quantity), receipt)
  {
    FitResolves(line, Supply(t, line).line.quantity);
  }

  lemma SupplyArrives(t: Tables, line: Line)
    requires NoneNegative(t.items)
    ensures var u := Apply(t, Fit(line), DoStockIn(Supply(t, line)));
      CanLend(u, line) && u.reservations == t.reservations
  {
    SupplyIsReceived(t, line);
    RaisedRowCanLend(t.items, OfStock(ItemFor(line)), line.productId, Supply(t, line).line.quantity);
  }

  lemma RaisedRowCanLend(items: seq<Item>, key: ItemKey, productId: Id, quantity: real)
    requires NoneNegative(items)
    requires var i := FindItem(items, key);
      1.0 <= quantity && (i < |items| ==> items[i].reserved - items[i].onHand + 1.0 <= quantity)
    ensures var after := AddOnHand(Upserted(items, key, productId), key, quantity);
      var i := FindItem(after, key);
      i < |after| && 0.0 <= after[i].reserved && 1.0 <= after[i].onHand - after[i].reserved
  {
    var before := Upserted(items, key, productId);
    var i := FindItem(before, key);
    FindItemAfterUpdate(before, i, before[i].(onHand := before[i].onHand + quantity), key);
  }

  /** The reservation is there, for the line's stock item, whose row has it. */
  ghost predicate MadeFor(t: Tables, hold: Hold) {
    var i, j := FindReservation(t.reservations, hold.reservationKey), FindItem(t.items, OfStock(ItemFor(hold.line)));
    && i < |t.reservations|
    && t.reservations[i]
       == Reservation(hold.reservationKey, hold.line.productId, Some(ItemFor(hold.line)), 1.0, ACTIVE)
    && j < |t.items| && 1.0 <= t.items[j].reserved
  }

  lemma HoldIsMade(t: Tables, hold: Hold)
    requires CanLend(t, hold.line) && !Known(t, hold.reservationKey)
    ensures MadeFor(Apply(t, Fit(hold.line), DoReserve(OneOf(hold))), hold)
  {
    FitResolves(hold.line, 1.0);
    var i := FindItem(t.items, OfStock(ItemFor(hold.line)));
    FindItemAfterUpdate(t.items, i, t.items[i].(reserved := t.items[i].reserved + 1.0), t.items[i].key);
    FindReservationInLonger(
      t.reservations,
      Reservation(hold.reservationKey, hold.line.productId, Some(ItemFor(hold.line)), 1.0, ACTIVE),
      hold.reservationKey);
  }

  /** From any state without negative reserved quantities the reservation can still be made. */
  lemma {:induction false} ReservationComesLate(t: Tables, hold: Hold)
    requires NoneNegative(t.items) && !Known(t, hold.reservationKey)
    ensures MadeFor(Run(t, MadeLate(t, hold)), hold)
  {
    var steps := MadeLate(t, hold);
    SupplyArrives(t, hold.line);
    var u := Apply(t, Fit(hold.line), DoStockIn(Supply(t, hold.line)));
    HoldIsMade(u, hold);
    assert steps[..1][..0] == [];
    assert Run(t, steps[..1]) == u;
  }

  lemma ReleaseCloses(t: Tables, hold: Hold)
    requires MadeFor(t, hold) && hold.line.quantity > 0.0
    ensures Released(Apply(t, Fit(hold.line), DoRelease(hold)), hold.reservationKey)
  {
    FitResolves(hold.line, hold.line.quantity);
    assert hold.line.(quantity := hold.line.quantity) == hold.line;
    ReleaseRemembers(t, Fit(hold.line), hold);
  }

  lemma SettleCloses(t: Tables, issue: Issue, hold: Hold)
    requires MadeFor(t, hold) && Recorded(t.movements, issue.eventKey) && issue.line.quantity > 0.0
    ensures Released(Apply(t, Fit(hold.line), DoSettle(issue, hold)), hold.reservationKey)
  {
    SettleRemembers(t, Fit(hold.line), issue, hold);
  }

  // ---------------------------------------------------------------- absorbed exactly when it was known

  /** However long it is put off and whatever runs before, delivering c again changes nothing. */
  ghost predicate AbsorbedForGood(t: Tables, c: Command) {
    forall between, later :: Absorbed(Run(t, between), later, c)
  }

  ghost predicate Absorbed(t: Tables, catalog: Catalog, c: Command) {
    Apply(t, catalog, c) == t
  }

  lemma {:induction false} LateReservationIsClosed(t: Tables, catalog: Catalog, c: Command)
    requires NoneNegative(Apply(t, catalog, c).items)
    requires Keyed(c) && Execute(t, catalog, c).Ok? && !HasItsReservation(t, c)
    ensures var u := Apply(t, catalog, c);
      var now := Run(u, MadeLate(u, c.hold));
      MadeFor(now, c.hold) && Released(Apply(now, Fit(c.hold.line), c), c.hold.reservationKey)
  {
    var u, hold := Apply(t, catalog, c), c.hold;
    var late := MadeLate(u, hold);
    ReservationComesLate(u, hold);
    match c
    case DoRelease(_) => ReleaseCloses(Run(u, late), hold);
    case DoSettle(issue, _) =>
      StockOutRemembers(t, catalog, issue);
      EffectLasts(u, late, DoStockOut(issue));
      SettleCloses(Run(u, late), issue, hold);
  }

  /** In every reachable state, a keyed command that succeeds is absorbed for good if and only if the
      reservation it closes, if it closes one, was known. */
  lemma {:induction false} AbsorbedExactlyWhenKnown(steps: seq<Step>, catalog: Catalog, c: Command)
    requires var t := Run(Empty, steps);
      Keyed(c) && Execute(t, catalog, c).Ok?
    ensures var t := Run(Empty, steps);
      AbsorbedForGood(Apply(t, catalog, c), c) <==> HasItsReservation(t, c)
  {
    var t := Run(Empty, steps);
    var u := Apply(t, catalog, c);
    if HasItsReservation(t, c) {
      forall between, later ensures Absorbed(Run(u, between), later, c) {
        KeyedCommandsAreAbsorbed(t, catalog, c, between, later);
      }
    } else {
      RunsKeepSigns(steps);
      CommandKeepsSigns(t, catalog, c);
      LateReservationIsClosed(t, catalog, c);
      assert !Absorbed(Run(u, MadeLate(u, c.hold)), Fit(c.hold.line), c);
    }
  }

  // ---------------------------------------------------------------- a settlement before its reservation

  const Sale := Issue(Of(1.0), Some("e"), ORDER, "o", 0)

  const Promise := Hold(Of(1.0), "k")

  const EarlySettlement: seq<Step> := [
    Step(Bare, DoStockIn(Delivered)),
    Step(Bare, DoSettle(Sale, Promise)),
    Step(Bare, DoReserve(Promise))]

  ghost predicate Sold(t: Tables) {
    t.items == [LegacyRow(9.0, 0.0)] && t.reservations == [] && Recorded(t.movements, Some("e"))
  }

  ghost predicate HeldAfterwards(t: Tables) {
    && t.items == [LegacyRow(9.0, 1.0)] && t.reservations == [Reservation("k", "p", None, 1.0, ACTIVE)]
    && Recorded(t.movements, Some("e"))
  }

  lemma TenCoverOne()
    ensures Consume([Ten(None)], Query("p", None, 0), 1.0).Ok?
  {
    var batches, query := [Ten(None)], Query("p", None, 0);
    assert EligibleColumn(batches, query) == [10.0];
    SumOfOne(10.0);
    ConsumeIsExactAndGreedy(batches, query, 1.0);
  }

  lemma Selling(t: Tables)
    requires TenReceived(t) && !Recorded(t.movements, Some("e"))
    ensures Execute(t, Bare, DoSettle(Sale, Promise)).Ok? && Sold(Apply(t, Bare, DoSettle(Sale, Promise)))
  {
    BareResolves(1.0);
    FindOnly(LegacyRow(10.0, 0.0));
    TenCoverOne();
    assert StockOutTx(t, Bare, Sale).Ok?;
    StockOutRemembers(t, Bare, Sale);
  }

  lemma HoldingAfterwards(t: Tables)
    requires Sold(t)
    ensures HeldAfterwards(Apply(t, Bare, DoReserve(Promise)))
  {
    BareResolves(1.0);
    FindOnly(LegacyRow(9.0, 0.0));
  }

  lemma SellingAgain(t: Tables)
    requires HeldAfterwards(t)
    ensures Apply(t, Bare, DoSettle(Sale, Promise)).reservations == [Reservation("k", "p", None, 1.0, RELEASED)]
  {
    FindOnly(LegacyRow(9.0, 1.0));
    assert ActiveReservation(t, "k") == Some(0);
  }

  lemma {:induction false} SoldAndHeld(steps: seq<Step>)
    requires |steps| == 3 && steps[0] == Step(Bare, DoStockIn(Delivered))
    requires steps[1] == Step(Bare, DoSettle(Sale, Promise)) && steps[2] == Step(Bare, DoReserve(Promise))
    ensures Execute(Run(Empty, steps[..1]), Bare, DoSettle(Sale, Promise)).Ok? && HeldAfterwards(Run(Empty, steps))
  {
    ReceivingBare();
    assert Run(Empty, steps[..0]) == Empty;
    var t := Apply(Empty, Bare, DoStockIn(Delivered));
    StepIs(steps, 0, Bare, DoStockIn(Delivered), t);
    NothingSoldYet();
    Selling(t);
    var u := Apply(t, Bare, DoSettle(Sale, Promise));
    StepIs(steps, 1, Bare, DoSettle(Sale, Promise), u);
    HoldingAfterwards(u);
    StepIs(steps, 2, Bare, DoReserve(Promise), Apply(u, Bare, DoReserve(Promise)));
    assert steps[..3] == steps;
  }

  lemma NothingSoldYet()
    ensures !Recorded(Apply(Empty, Bare, DoStockIn(Delivered)).movements, Some("e"))
  {
    BareResolves(10.0);
  }

  /** The settlement succeeds, the reservation made after it stands active, and the settlement delivered
      again releases it. */
  lemma {:induction false} EarlySettlementIsNotAbsorbed()
    ensures Execute(Run(Empty, EarlySettlement[..1]), Bare, DoSettle(Sale, Promise)).Ok?
    ensures ActiveReservation(Run(Empty, EarlySettlement), "k").Some?
    ensures !Absorbed(Run(Empty, EarlySettlement), Bare, DoSettle(Sale, Promise))
  {
    SoldAndHeld(EarlySettlement);
    SellingAgain(Run(Empty, EarlySettlement));
  }
}
