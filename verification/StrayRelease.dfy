/** A run in which a stock item's summary leaves its reservations: product "p" is reserved before any stock
    item is listed for it, and released once "s" is. */
module StrayRelease {
  import opened Common
  import opened Fifo
  import opened Identity
  import opened Ledger
  import opened Agreement
  import opened Samples

  const Early := Hold(Of(1.0), "k")

  const Late := Hold(Of(1.0), "l")

  const Steps: seq<Step> := [
    Step(Bare, DoStockIn(Delivered)),
    Step(Bare, DoReserve(Early)),
    Step(Listed, DoStockIn(Delivered)),
    Step(Listed, DoReserve(Late)),
    Step(Listed, DoRelease(Early))]

  function EarlyRow(status: ReservationStatus): Reservation {
    Reservation("k", "p", None, 1.0, status)
  }

  const LateRow := Reservation("l", "p", Some("s"), 1.0, ACTIVE)

  lemma FindSecond(item: Item, other: Item, key: ItemKey)
    requires item.key != key
    ensures FindItem([item], key) == 1
    ensures other.key == key ==> FindItem([item, other], key) == 1
  {
    assert [item][1..] == [] && [item, other][1..] == [other];
  }

  // ---------------------------------------------------------------- the states of the run

  ghost predicate Held(t: Tables) {
    Rows(t, [LegacyRow(10.0, 1.0)], [EarlyRow(ACTIVE)], [Ten(None)])
  }

  ghost predicate StockedAgain(t: Tables) {
    Rows(t, [LegacyRow(10.0, 1.0), StockedRow(10.0, 0.0)], [EarlyRow(ACTIVE)], [Ten(None), Ten(Some("s"))])
  }

  ghost predicate HeldTwice(t: Tables) {
    Rows(t, [LegacyRow(10.0, 1.0), StockedRow(10.0, 1.0)], [EarlyRow(ACTIVE), LateRow], [Ten(None), Ten(Some("s"))])
  }

  ghost predicate Strayed(t: Tables) {
    Rows(t, [LegacyRow(10.0, 1.0), StockedRow(10.0, 0.0)], [EarlyRow(RELEASED), LateRow], [Ten(None), Ten(Some("s"))])
  }

  lemma ReservingBare(t: Tables)
    requires TenReceived(t)
    ensures Held(Apply(t, Bare, DoReserve(Early)))
  {
    BareResolves(1.0);
    FindOnly(LegacyRow(10.0, 0.0));
  }

  lemma ReceivingListed(t: Tables)
    requires Held(t)
    ensures StockedAgain(Apply(t, Listed, DoStockIn(Delivered)))
  {
    ListedResolves(10.0);
    FindSecond(LegacyRow(10.0, 1.0), StockedRow(0.0, 0.0), OfStock("s"));
    assert Upserted(t.items, OfStock("s"), "p") == [LegacyRow(10.0, 1.0), StockedRow(0.0, 0.0)];
  }

  lemma ReservingListed(t: Tables)
    requires StockedAgain(t)
    ensures HeldTwice(Apply(t, Listed, DoReserve(Late)))
  {
    ListedResolves(1.0);
    FindSecond(LegacyRow(10.0, 1.0), StockedRow(10.0, 0.0), OfStock("s"));
    assert [EarlyRow(ACTIVE)][1..] == [];
    assert FindReservation(t.reservations, "l") == 1;
  }

  lemma ReleasingEarly(t: Tables)
    requires HeldTwice(t)
    ensures Strayed(Apply(t, Listed, DoRelease(Early)))
  {
    ListedResolves(1.0);
    FindSecond(LegacyRow(10.0, 1.0), StockedRow(10.0, 1.0), OfStock("s"));
    assert Upserted(t.items, OfStock("s"), "p") == t.items && ActiveReservation(t, "k") == Some(0);
    assert ReleaseTx(t, Listed, Early) == GiveBack(t, 0, OfStock("s"));
  }

  // ---------------------------------------------------------------- the run

  lemma {:induction false} HoldingBare(steps: seq<Step>)
    requires |steps| >= 2
    requires steps[0] == Step(Bare, DoStockIn(Delivered)) && steps[1] == Step(Bare, DoReserve(Early))
    ensures Held(Run(Empty, steps[..2]))
  {
    ReceivingBare();
    assert Run(Empty, steps[..0]) == Empty;
    StepIs(steps, 0, Bare, DoStockIn(Delivered), Apply(Empty, Bare, DoStockIn(Delivered)));
    var t := Run(Empty, steps[..1]);
    ReservingBare(t);
    StepIs(steps, 1, Bare, DoReserve(Early), Apply(t, Bare, DoReserve(Early)));
  }

  lemma {:induction false} ReceivingAgain(steps: seq<Step>)
    requires |steps| >= 3 && steps[2] == Step(Listed, DoStockIn(Delivered)) && Held(Run(Empty, steps[..2]))
    ensures StockedAgain(Run(Empty, steps[..3]))
  {
    var t := Run(Empty, steps[..2]);
    ReceivingListed(t);
    StepIs(steps, 2, Listed, DoStockIn(Delivered), Apply(t, Listed, DoStockIn(Delivered)));
  }

  lemma {:induction false} HoldingAgain(steps: seq<Step>)
    requires |steps| >= 4 && steps[3] == Step(Listed, DoReserve(Late)) && StockedAgain(Run(Empty, steps[..3]))
    ensures HeldTwice(Run(Empty, steps[..4]))
  {
    var t := Run(Empty, steps[..3]);
    ReservingListed(t);
    StepIs(steps, 3, Listed, DoReserve(Late), Apply(t, Listed, DoReserve(Late)));
  }

  lemma {:induction false} Straying(steps: seq<Step>)
    requires |steps| == 5 && steps[4] == Step(Listed, DoRelease(Early)) && HeldTwice(Run(Empty, steps[..4]))
    ensures Strayed(Run(Empty, steps))
  {
    var t := Run(Empty, steps[..4]);
    ReleasingEarly(t);
    StepIs(steps, 4, Listed, DoRelease(Early), Apply(t, Listed, DoRelease(Early)));
    assert steps[..5] == steps;
  }

  lemma SumOfTwo(x: real, y: real)
    ensures Sum([x, y]) == x + y
  {
    assert [x, y] == [x] + [y];
    SumOfOne(x);
    SumSnoc([x], y);
  }

  lemma HeldTwiceAgrees(t: Tables)
    requires HeldTwice(t)
    ensures Agrees(t, OfStockItem("s"))
  {
    var scope := OfStockItem("s");
    assert OnHandColumn(t.items, scope) == [0.0, 10.0] == StockColumn(t.batches, scope);
    assert ReservedColumn(t.items, scope) == [0.0, 1.0] == PromisedColumn(t.reservations, scope);
  }

  lemma StrayedDisagrees(t: Tables)
    requires Strayed(t)
    ensures !Agrees(t, OfStockItem("s"))
  {
    var scope := OfStockItem("s");
    assert ReservedColumn(t.items, scope) == [0.0, 0.0] && PromisedColumn(t.reservations, scope) == [0.0, 1.0];
    SumOfTwo(0.0, 0.0);
    SumOfTwo(0.0, 1.0);
  }

  lemma StrayedRefuses(t: Tables)
    requires Strayed(t)
    ensures Execute(t, Listed, DoRelease(Late)) == Err(ReservedOutOfSync)
  {
    ListedResolves(1.0);
    FindSecond(LegacyRow(10.0, 1.0), StockedRow(10.0, 0.0), OfStock("s"));
    assert t.reservations[1..][0] == LateRow;
    assert ActiveReservation(t, "l") == Some(1);
  }

  lemma StepsAreOwned(owner: Id -> Id)
    requires owner("s") == "p"
    ensures forall k :: 0 <= k < |Steps| ==> OwnedBy(Steps[k].catalog, owner)
  {}

  /** Every request is for the one product, the stock item's summary agrees up to the release, and the release
      leaves less reserved than is promised: the other reservation can no longer be released. */
  lemma {:induction false} StrayReleaseDisagrees(owner: Id -> Id)
    requires owner("s") == "p"
    ensures forall k :: 0 <= k < |Steps| ==> OwnedBy(Steps[k].catalog, owner)
    ensures Agrees(Run(Empty, Steps[..4]), OfStockItem("s")) && !Agrees(Run(Empty, Steps), OfStockItem("s"))
    ensures Execute(Run(Empty, Steps), Listed, DoRelease(Late)) == Err(ReservedOutOfSync)
  {
    StepsAreOwned(owner);
    HoldingBare(Steps);
    ReceivingAgain(Steps);
    HoldingAgain(Steps);
    Straying(Steps);
    HeldTwiceAgrees(Run(Empty, Steps[..4]));
    StrayedDisagrees(Run(Empty, Steps));
    StrayedRefuses(Run(Empty, Steps));
  }
}
