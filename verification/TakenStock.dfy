/** A run in which reserved stock is taken: eight of ten are reserved, and five are issued for no
    reservation. */
module TakenStock {
  import opened Common
  import opened Fifo
  import opened Identity
  import opened Ledger
  import opened Agreement
  import opened ReservationPromise
  import opened Samples

  const Promise := Hold(Of(8.0), "k")

  const Sale := Issue(Of(5.0), None, ADJUSTMENT, "o", 0)

  const Settlement := Issue(Of(8.0), None, ORDER, "o", 0)

  const Steps: seq<Step> := [
    Step(Listed, DoStockIn(Delivered)),
    Step(Listed, DoReserve(Promise)),
    Step(Listed, DoStockOut(Sale))]

  ghost predicate Held(t: Tables) {
    Rows(t, [StockedRow(10.0, 8.0)], [Reservation("k", "p", Some("s"), 8.0, ACTIVE)], [Ten(Some("s"))])
  }

  ghost predicate Taken(t: Tables) {
    && t.items == [StockedRow(5.0, 8.0)]
    && EligibleStock(t.batches, Query("p", Some("s"), 0)) == 5.0
  }

  lemma Holding(t: Tables)
    requires TenStocked(t)
    ensures Held(Apply(t, Listed, DoReserve(Promise)))
  {
    ListedResolves(8.0);
    FindOnly(StockedRow(10.0, 0.0));
  }

  lemma TenAreEligible()
    ensures EligibleStock([Ten(Some("s"))], Query("p", Some("s"), 0)) == 10.0
  {
    assert EligibleColumn([Ten(Some("s"))], Query("p", Some("s"), 0)) == [10.0];
    SumOfOne(10.0);
  }

  lemma Taking(t: Tables)
    requires Held(t)
    ensures Execute(t, Listed, DoStockOut(Sale)).Ok? && Taken(Apply(t, Listed, DoStockOut(Sale)))
  {
    ListedResolves(5.0);
    FindOnly(StockedRow(10.0, 8.0));
    TenAreEligible();
    ConsumeIsExactAndGreedy(t.batches, Query("p", Some("s"), 0), 5.0);
    EligibleStockDrops(t.batches, Query("p", Some("s"), 0), 5.0);
    assert StockOutTx(t, Listed, Sale).Ok?;
  }

  lemma TakenCannotSettle(t: Tables)
    requires Taken(t)
    ensures Execute(t, Listed, DoSettle(Settlement, Promise)) == Err(FifoFailed(InsufficientInventory))
    ensures OnHand(t, OfStockItem("s")) == 5.0 && Reserved(t, OfStockItem("s")) == 8.0
  {
    ListedResolves(8.0);
    ConsumeIsExactAndGreedy(t.batches, Query("p", Some("s"), 0), 8.0);
    assert OnHandColumn(t.items, OfStockItem("s")) == [5.0] && ReservedColumn(t.items, OfStockItem("s")) == [8.0];
    SumOfOne(5.0);
    SumOfOne(8.0);
  }

  lemma {:induction false} UpToTheSale(steps: seq<Step>)
    requires |steps| == 3 && steps[0] == Step(Listed, DoStockIn(Delivered))
    requires steps[1] == Step(Listed, DoReserve(Promise)) && steps[2] == Step(Listed, DoStockOut(Sale))
    ensures Held(Run(Empty, steps[..2])) && Taken(Run(Empty, steps))
  {
    StockingListed();
    assert Run(Empty, steps[..0]) == Empty;
    var t := Apply(Empty, Listed, DoStockIn(Delivered));
    StepIs(steps, 0, Listed, DoStockIn(Delivered), t);
    Holding(t);
    var u := Apply(t, Listed, DoReserve(Promise));
    StepIs(steps, 1, Listed, DoReserve(Promise), u);
    Taking(u);
    StepIs(steps, 2, Listed, DoStockOut(Sale), Apply(u, Listed, DoStockOut(Sale)));
    assert steps[..3] == steps;
  }

  /** The sale takes more than is available and commits; five are on hand for eight reserved, and the
      reservation can no longer be settled. */
  lemma {:induction false} SaleBreaksThePromise()
    ensures !Spares(Run(Empty, Steps[..2]), Steps[2], "s")
    ensures OnHand(Run(Empty, Steps), OfStockItem("s")) == 5.0 && Reserved(Run(Empty, Steps), OfStockItem("s")) == 8.0
    ensures Execute(Run(Empty, Steps), Listed, DoSettle(Settlement, Promise)) == Err(FifoFailed(InsufficientInventory))
  {
    UpToTheSale(Steps);
    SaleDoesNotSpare(Run(Empty, Steps[..2]));
    TakenCannotSettle(Run(Empty, Steps));
  }

  lemma SaleDoesNotSpare(t: Tables)
    requires Held(t)
    ensures !Spares(t, Step(Listed, DoStockOut(Sale)), "s")
  {
    Taking(t);
    ListedResolves(5.0);
    assert OnHandColumn(t.items, OfStockItem("s")) == [10.0] && ReservedColumn(t.items, OfStockItem("s")) == [8.0];
    SumOfOne(10.0);
    SumOfOne(8.0);
  }
}
