/** Commands that carry a replay key are absorbed once they have taken effect: the event bus delivers
    at least once, and the keys make the effect happen once. */
module KeyedCommands {
  import opened Common
  import opened Identity
  import opened Ledger

  predicate Released(t: Tables, reservationKey: string) {
    var i := FindReservation(t.reservations, reservationKey);
    i < |t.reservations| && t.reservations[i].status == RELEASED
  }

  predicate Known(t: Tables, reservationKey: string) {
    FindReservation(t.reservations, reservationKey) < |t.reservations|
  }

  /** The effect of a keyed command is in the tables. */
  predicate Effected(t: Tables, c: Command) {
    match c
    case DoStockIn(receipt) => Recorded(t.movements, receipt.eventKey)
    case DoStockOut(issue) => Recorded(t.movements, issue.eventKey)
    case DoAdjust(_) => false
    case DoReserve(hold) => Known(t, hold.reservationKey)
    case DoRelease(hold) => Released(t, hold.reservationKey)
    case DoSettle(issue, hold) => Recorded(t.movements, issue.eventKey) && Released(t, hold.reservationKey)
    case DoRestock(restock) => Recorded(t.movements, restock.eventKey)
  }

  predicate Keyed(c: Command) {
    match c
    case DoStockIn(receipt) => receipt.eventKey.Some?
    case DoStockOut(issue) => issue.eventKey.Some?
    case DoAdjust(_) => false
    case DoSettle(issue, _) => issue.eventKey.Some?
    case DoRestock(restock) => restock.eventKey.Some?
    case _ => true
  }

  /** The reservation that a release or settlement is about. */
  predicate HasItsReservation(t: Tables, c: Command) {
    match c
    case DoRelease(hold) => Known(t, hold.reservationKey)
    case DoSettle(_, hold) => Known(t, hold.reservationKey)
    case _ => true
  }

  /** Delivering an effected command changes nothing at all. */
  lemma EffectedIsAbsorbed(t: Tables, catalog: Catalog, c: Command)
    requires Effected(t, c)
    ensures Apply(t, catalog, c) == t
  {}

  /** u keeps every key and every released reservation of t. */
  ghost predicate Remembers(t: Tables, u: Tables) {
    && (forall key :: FindMovement(t.movements, key) < |t.movements| ==> FindMovement(u.movements, key) < |u.movements|)
    && (forall key :: Known(t, key) ==> Known(u, key))
    && (forall key :: Released(t, key) ==> Released(u, key))
  }

  lemma NewMovementRemembers(t: Tables, u: Tables, row: Movement)
    requires u.movements == t.movements + [row] && u.reservations == t.reservations
    ensures Remembers(t, u) && (row.eventKey.Some? ==> Recorded(u.movements, row.eventKey))
  {
    forall key ensures FindMovement(t.movements, key) < |t.movements| ==> FindMovement(u.movements, key) < |u.movements| {
      FindMovementInLonger(t.movements, row, key);
    }
    if row.eventKey.Some? {
      FindMovementInLonger(t.movements, row, row.eventKey.value);
    }
  }

  lemma NewReservationRemembers(t: Tables, u: Tables, row: Reservation)
    requires u.movements == t.movements && u.reservations == t.reservations + [row]
    ensures Remembers(t, u) && Known(u, row.key)
  {
    FindReservationInLonger(t.reservations, row, row.key);
    forall key ensures Known(t, key) ==> Known(u, key) && (Released(t, key) ==> Released(u, key)) {
      FindReservationInLonger(t.reservations, row, key);
    }
  }

  lemma GiveBackRemembers(t: Tables, i: nat, target: ItemKey)
    requires i < |t.reservations| && GiveBack(t, i, target).Ok?
    requires FindReservation(t.reservations, t.reservations[i].key) == i
    ensures var u := GiveBack(t, i, target).value;
      Remembers(t, u) && Released(u, t.reservations[i].key)
  {
    var u := GiveBack(t, i, target).value;
    var row := t.reservations[i].(status := RELEASED);
    assert u.reservations == t.reservations[i := row];
    FindReservationAfterUpdate(t.reservations, i, row, row.key);
    forall key ensures Known(t, key) ==> Known(u, key) && (Released(t, key) ==> Released(u, key)) {
      FindReservationAfterUpdate(t.reservations, i, row, key);
    }
  }

  lemma StockInRemembers(t: Tables, catalog: Catalog, receipt: Receipt)
    requires StockInTx(t, catalog, receipt).Ok?
    ensures var u := StockInTx(t, catalog, receipt).value;
      Remembers(t, u) && (receipt.eventKey.Some? ==> Recorded(u.movements, receipt.eventKey))
  {
    var u := StockInTx(t, catalog, receipt).value;
    if !Recorded(t.movements, receipt.eventKey) {
      NewMovementRemembers(t, u, u.movements[|t.movements|]);
    }
  }

  lemma StockOutRemembers(t: Tables, catalog: Catalog, issue: Issue)
    requires StockOutTx(t, catalog, issue).Ok?
    ensures var u := StockOutTx(t, catalog, issue).value;
      && Remembers(t, u) && u.reservations == t.reservations
      && (issue.eventKey.Some? ==> Recorded(u.movements, issue.eventKey))
  {
    var u := StockOutTx(t, catalog, issue).value;
    if !Recorded(t.movements, issue.eventKey) {
      NewMovementRemembers(t, u, u.movements[|t.movements|]);
    }
  }

  lemma ReleaseRemembers(t: Tables, catalog: Catalog, hold: Hold)
    requires ReleaseTx(t, catalog, hold).Ok?
    ensures var u := ReleaseTx(t, catalog, hold).value;
      Remembers(t, u) && (Known(t, hold.reservationKey) <==> Released(u, hold.reservationKey))
  {
    match ActiveReservation(t, hold.reservationKey)
    case None =>
    case Some(i) =>
      var r := Resolve(catalog, hold.line).value;
      var key := KeyOf(r.productId, r.stockItemId);
      GiveBackRemembers(t.(items := Upserted(t.items, key, r.productId)), i,
                        ReleaseTarget(hold.line.productId, t.reservations[i], r.stockItemId));
  }

  lemma SettleRemembers(t: Tables, catalog: Catalog, issue: Issue, hold: Hold)
    requires SettleTx(t, catalog, issue, hold).Ok?
    ensures var u := SettleTx(t, catalog, issue, hold).value;
      && Remembers(t, u)
      && (issue.eventKey.Some? ==> Recorded(u.movements, issue.eventKey))
      && (Known(t, hold.reservationKey) <==> Released(u, hold.reservationKey))
  {
    StockOutRemembers(t, catalog, issue);
    var out := StockOutTx(t, catalog, issue).value;
    match ActiveReservation(out, hold.reservationKey)
    case None =>
    case Some(i) =>
      GiveBackRemembers(out, i, ReleaseTarget(hold.line.productId, out.reservations[i], None));
  }

  /** A successful keyed command takes its effect, unless it was to close a reservation that is not
      there; and no command makes the tables forget. */
  lemma SuccessTakesEffect(t: Tables, catalog: Catalog, c: Command)
    requires Execute(t, catalog, c).Ok?
    ensures Remembers(t, Execute(t, catalog, c).value)
    ensures Keyed(c) ==> (Effected(Execute(t, catalog, c).value, c) <==> HasItsReservation(t, c))
  {
    var u := Execute(t, catalog, c).value;
    match c
    case DoStockIn(receipt) => StockInRemembers(t, catalog, receipt);
    case DoStockOut(issue) => StockOutRemembers(t, catalog, issue);
    case DoAdjust(a) => NewMovementRemembers(t, u, u.movements[|t.movements|]);
    case DoReserve(hold) =>
      if !Known(t, hold.reservationKey) {
        NewReservationRemembers(t, u, u.reservations[|t.reservations|]);
      }
    case DoRelease(hold) => ReleaseRemembers(t, catalog, hold);
    case DoSettle(issue, hold) => SettleRemembers(t, catalog, issue, hold);
    case DoRestock(restock) =>
      StockInRemembers(t, catalog, ReturnReceipt(t, Resolve(catalog, restock.line).value, restock));
  }

  lemma {:induction false} EffectLasts(t: Tables, steps: seq<Step>, c: Command)
    requires Effected(t, c)
    ensures Effected(Run(t, steps), c)
  {
    if steps != [] {
      var last := |steps| - 1;
      EffectLasts(t, steps[..last], c);
      var before := Run(t, steps[..last]);
      if Execute(before, steps[last].catalog, steps[last].command).Ok? {
        SuccessTakesEffect(before, steps[last].catalog, steps[last].command);
      }
    }
  }

  /** Once a keyed command has succeeded (with its reservation there to close, if it closes one), any
      later delivery of it, whatever ran in between and whatever the master data by then, changes no
      item, batch, movement, reservation or event. */
  lemma KeyedCommandsAreAbsorbed(t: Tables, catalog: Catalog, c: Command, between: seq<Step>, later: Catalog)
    requires Keyed(c) && HasItsReservation(t, c) && Execute(t, catalog, c).Ok?
    ensures var now := Run(Apply(t, catalog, c), between);
      Apply(now, later, c) == now
  {
    SuccessTakesEffect(t, catalog, c);
    EffectLasts(Apply(t, catalog, c), between, c);
    EffectedIsAbsorbed(Run(Apply(t, catalog, c), between), later, c);
  }
}
