/** How often an effect is in the tables: a keyed movement, the making of a reservation and its closing are
    each there once or not at all, and the keys tell which. */
module EffectCounts {
  import opened Common
  import opened Identity
  import opened Ledger
  import opened KeyedCommands

  function MovementsWith(movements: seq<Movement>, key: string): nat {
    if movements == [] then 0
    else
      var last := |movements| - 1;
      MovementsWith(movements[..last], key) + if movements[last].eventKey == Some(key) then 1 else 0
  }

  function TimesPublished(events: seq<HoldEvent>, event: HoldEvent): nat {
    if events == [] then 0
    else
      var last := |events| - 1;
      TimesPublished(events[..last], event) + if events[last] == event then 1 else 0
  }

  function OneIf(there: bool): nat {
    if there then 1 else 0
  }

  ghost predicate CountedMovement(t: Tables, key: string) {
    MovementsWith(t.movements, key) == OneIf(Recorded(t.movements, Some(key)))
  }

  ghost predicate CountedHold(t: Tables, key: string) {
    && TimesPublished(t.holdEvents, StockReserved(key)) == OneIf(Known(t, key))
    && TimesPublished(t.holdEvents, ReservationReleased(key)) == OneIf(Released(t, key))
  }

  ghost predicate Counted(t: Tables) {
    forall key :: CountedMovement(t, key) && CountedHold(t, key)
  }

  // ---------------------------------------------------------------- one more row

  lemma MovementCounts(movements: seq<Movement>, row: Movement, key: string)
    ensures MovementsWith(movements + [row], key) == MovementsWith(movements, key) + OneIf(row.eventKey == Some(key))
  {
    assert (movements + [row])[..|movements|] == movements;
  }

  lemma PublishedCounts(events: seq<HoldEvent>, more: HoldEvent, event: HoldEvent)
    ensures TimesPublished(events + [more], event) == TimesPublished(events, event) + OneIf(more == event)
  {
    assert (events + [more])[..|events|] == events;
  }

  /** A movement whose key is new, in tables that are otherwise the same to the counts. */
  lemma NewMovementIsCounted(t: Tables, u: Tables, row: Movement)
    requires Counted(t) && u.movements == t.movements + [row] && !Recorded(t.movements, row.eventKey)
    requires u.reservations == t.reservations && u.holdEvents == t.holdEvents
    ensures Counted(u)
  {
    forall key ensures CountedMovement(u, key) && CountedHold(u, key) {
      assert CountedMovement(t, key) && CountedHold(t, key);
      MovementCounts(t.movements, row, key);
      FindMovementInLonger(t.movements, row, key);
    }
  }

  lemma NewReservationIsCounted(t: Tables, u: Tables, row: Reservation)
    requires Counted(t) && !Known(t, row.key) && row.status == ACTIVE && u.movements == t.movements
    requires u.reservations == t.reservations + [row] && u.holdEvents == t.holdEvents + [StockReserved(row.key)]
    ensures Counted(u)
  {
    forall key ensures CountedMovement(u, key) && CountedHold(u, key) {
      assert CountedMovement(t, key) && CountedHold(t, key);
      FindReservationInLonger(t.reservations, row, key);
      PublishedCounts(t.holdEvents, StockReserved(row.key), StockReserved(key));
      PublishedCounts(t.holdEvents, StockReserved(row.key), ReservationReleased(key));
    }
  }

  lemma ClosingIsCounted(t: Tables, i: nat, target: ItemKey)
    requires Counted(t) && i < |t.reservations| && GiveBack(t, i, target).Ok?
    requires t.reservations[i].status == ACTIVE && FindReservation(t.reservations, t.reservations[i].key) == i
    ensures Counted(GiveBack(t, i, target).value)
  {
    var u, row := GiveBack(t, i, target).value, t.reservations[i].(status := RELEASED);
    assert u.reservations == t.reservations[i := row];
    forall key ensures CountedMovement(u, key) && CountedHold(u, key) {
      assert CountedMovement(t, key) && CountedHold(t, key);
      FindReservationAfterUpdate(t.reservations, i, row, key);
      PublishedCounts(t.holdEvents, ReservationReleased(row.key), StockReserved(key));
      PublishedCounts(t.holdEvents, ReservationReleased(row.key), ReservationReleased(key));
    }
  }

  // ---------------------------------------------------------------- every command

  /** What the counts look at is the same. */
  lemma SameToTheCounts(t: Tables, u: Tables)
    requires Counted(t) && u.movements == t.movements && u.reservations == t.reservations && u.holdEvents == t.holdEvents
    ensures Counted(u)
  {
    forall key ensures CountedMovement(u, key) && CountedHold(u, key) {
      assert CountedMovement(t, key) && CountedHold(t, key);
    }
  }

  lemma StockInIsCounted(t: Tables, catalog: Catalog, receipt: Receipt)
    requires Counted(t) && StockInTx(t, catalog, receipt).Ok?
    ensures Counted(StockInTx(t, catalog, receipt).value)
  {
    if !Recorded(t.movements, receipt.eventKey) {
      var u := StockInTx(t, catalog, receipt).value;
      NewMovementIsCounted(t, u, u.movements[|t.movements|]);
    }
  }

  lemma StockOutIsCounted(t: Tables, catalog: Catalog, issue: Issue)
    requires Counted(t) && StockOutTx(t, catalog, issue).Ok?
    ensures Counted(StockOutTx(t, catalog, issue).value)
  {
    if !Recorded(t.movements, issue.eventKey) {
      var u := StockOutTx(t, catalog, issue).value;
      NewMovementIsCounted(t, u, u.movements[|t.movements|]);
    }
  }

  lemma AdjustIsCounted(t: Tables, catalog: Catalog, a: Adjustment)
    requires Counted(t) && AdjustTx(t, catalog, a).Ok?
    ensures Counted(AdjustTx(t, catalog, a).value)
  {
    var u := AdjustTx(t, catalog, a).value;
    NewMovementIsCounted(t, u, u.movements[|t.movements|]);
  }

  lemma ReserveIsCounted(t: Tables, catalog: Catalog, hold: Hold)
    requires Counted(t) && ReserveTx(t, catalog, hold).Ok?
    ensures Counted(ReserveTx(t, catalog, hold).value)
  {
    if !Known(t, hold.reservationKey) {
      var u := ReserveTx(t, catalog, hold).value;
      NewReservationIsCounted(t, u, u.reservations[|t.reservations|]);
    }
  }

  lemma ReleaseIsCounted(t: Tables, catalog: Catalog, hold: Hold)
    requires Counted(t) && ReleaseTx(t, catalog, hold).Ok?
    ensures Counted(ReleaseTx(t, catalog, hold).value)
  {
    match ActiveReservation(t, hold.reservationKey)
    case None =>
    case Some(i) =>
      var r := Resolve(catalog, hold.line).value;
      var u := t.(items := Upserted(t.items, KeyOf(r.productId, r.stockItemId), r.productId));
      SameToTheCounts(t, u);
      ClosingIsCounted(u, i, ReleaseTarget(hold.line.productId, t.reservations[i], r.stockItemId));
  }

  lemma SettleIsCounted(t: Tables, catalog: Catalog, issue: Issue, hold: Hold)
    requires Counted(t) && SettleTx(t, catalog, issue, hold).Ok?
    ensures Counted(SettleTx(t, catalog, issue, hold).value)
  {
    StockOutIsCounted(t, catalog, issue);
    var out := StockOutTx(t, catalog, issue).value;
    match ActiveReservation(out, hold.reservationKey)
    case None =>
    case Some(i) => ClosingIsCounted(out, i, ReleaseTarget(hold.line.productId, out.reservations[i], None));
  }

  /** Every command, keyed or not, keeps each keyed effect at one time at most, and its key telling. */
  lemma CommandIsCounted(t: Tables, catalog: Catalog, c: Command)
    requires Counted(t)
    ensures Counted(Apply(t, catalog, c))
  {
    if Execute(t, catalog, c).Ok? {
      match c
      case DoStockIn(receipt) => StockInIsCounted(t, catalog, receipt);
      case DoStockOut(issue) => StockOutIsCounted(t, catalog, issue);
      case DoAdjust(a) => AdjustIsCounted(t, catalog, a);
      case DoReserve(hold) => ReserveIsCounted(t, catalog, hold);
      case DoRelease(hold) => ReleaseIsCounted(t, catalog, hold);
      case DoSettle(issue, hold) => SettleIsCounted(t, catalog, issue, hold);
      case DoRestock(restock) =>
        StockInIsCounted(t, catalog, ReturnReceipt(t, Resolve(catalog, restock.line).value, restock));
    }
  }
}
