/** A run in which a stock item's summary leaves its batches: an issue of product "p" that resolves to no stock
    item draws on the batch of stock item "s", which is the older one. */
module StrayIssue {
  import opened Common
  import opened Fifo
  import opened Identity
  import opened Ledger
  import opened Agreement
  import opened Samples

  const Sale := Issue(Of(5.0), None, ADJUSTMENT, "o", 0)

  const Steps: seq<Step> := [
    Step(Listed, DoStockIn(Delivered)),
    Step(Bare, DoStockIn(Delivered)),
    Step(Bare, DoStockOut(Sale))]

  const AnyOfP := Query("p", None, 0)

  ghost predicate StockedTwice(t: Tables) {
    Rows(t, [StockedRow(10.0, 0.0), LegacyRow(10.0, 0.0)], [], [Ten(Some("s")), Ten(None)])
  }

  lemma FindLegacy(onHand: real)
    ensures FindItem([StockedRow(10.0, 0.0)], Legacy("p")) == 1
    ensures FindItem([StockedRow(10.0, 0.0), LegacyRow(onHand, 0.0)], Legacy("p")) == 1
  {
    assert [StockedRow(10.0, 0.0)][1..] == [];
    assert [StockedRow(10.0, 0.0), LegacyRow(onHand, 0.0)][1..] == [LegacyRow(onHand, 0.0)];
    FindOnly(LegacyRow(onHand, 0.0));
  }

  lemma StockingBare(t: Tables)
    requires TenStocked(t)
    ensures StockedTwice(Apply(t, Bare, DoStockIn(Delivered)))
  {
    BareResolves(10.0);
    FindLegacy(0.0);
    assert Upserted(t.items, Legacy("p"), "p") == [StockedRow(10.0, 0.0), LegacyRow(0.0, 0.0)];
  }

  lemma OlderComesFirst(batches: seq<Batch>)
    requires batches == [Ten(Some("s")), Ten(None)]
    ensures FindFifoBatches(batches, AnyOfP) == [0, 1]
  {
    assert FindExpiring(batches, AnyOfP, 1) == [] && FindExpiring(batches, AnyOfP, 2) == [];
    assert FindNonExpiring(batches, AnyOfP, 1) == [0];
  }

  lemma SaleDrawsOnStock(batches: seq<Batch>)
    requires batches == [Ten(Some("s")), Ten(None)]
    ensures Consume(batches, AnyOfP, 5.0).Ok? && DrawsOn(batches, AnyOfP, 5.0, OfStockItem("s"))
  {
    OlderComesFirst(batches);
    var order := FindFifoBatches(batches, AnyOfP);
    assert Held(batches, order) == [10.0, 10.0] == [10.0] + [10.0];
    SumOfOne(10.0);
    SumSnoc([10.0], 10.0);
    assert Held(batches, order[..0]) == [];
    assert ReachesScope(batches, order, 5.0, OfStockItem("s"), 0);
  }

  lemma SaleStrays(t: Tables, owner: Id -> Id)
    requires StockedTwice(t) && owner("s") == "p"
    ensures Execute(t, Bare, DoStockOut(Sale)).Ok?
    ensures !Tracked(t, Step(Bare, DoStockOut(Sale)), owner, OfStockItem("s"))
  {
    BareResolves(5.0);
    FindLegacy(10.0);
    SaleDrawsOnStock(t.batches);
    assert StockOutTx(t, Bare, Sale).Ok?;
  }

  lemma SaleDisagrees(t: Tables, owner: Id -> Id)
    requires StockedTwice(t) && owner("s") == "p" && Kept(t, owner) && Agrees(t, OfStockItem("s"))
    ensures !Agrees(Apply(t, Bare, DoStockOut(Sale)), OfStockItem("s"))
  {
    SaleStrays(t, owner);
    EveryTransactionKeeps(t, Step(Bare, DoStockOut(Sale)), owner, OfStockItem("s"));
  }

  lemma StockingKeeps(t: Tables, catalog: Catalog, owner: Id -> Id)
    requires Kept(t, owner) && Agrees(t, OfStockItem("s")) && OwnedBy(catalog, owner)
    ensures var u := Apply(t, catalog, DoStockIn(Delivered));
      Kept(u, owner) && Agrees(u, OfStockItem("s"))
  {
    EveryTransactionKeeps(t, Step(catalog, DoStockIn(Delivered)), owner, OfStockItem("s"));
  }

  lemma {:induction false} UpToTheSale(steps: seq<Step>, owner: Id -> Id)
    requires |steps| >= 2 && owner("s") == "p"
    requires steps[0] == Step(Listed, DoStockIn(Delivered)) && steps[1] == Step(Bare, DoStockIn(Delivered))
    ensures var t := Run(Empty, steps[..2]);
      StockedTwice(t) && Kept(t, owner) && Agrees(t, OfStockItem("s"))
  {
    StockingListed();
    StockingKeeps(Empty, Listed, owner);
    assert Run(Empty, steps[..0]) == Empty;
    var t := Apply(Empty, Listed, DoStockIn(Delivered));
    StepIs(steps, 0, Listed, DoStockIn(Delivered), t);
    StockingBare(t);
    StockingKeeps(t, Bare, owner);
    StepIs(steps, 1, Bare, DoStockIn(Delivered), Apply(t, Bare, DoStockIn(Delivered)));
  }

  /** The summaries agree up to the issue, which commits and leaves the stock item's row above its batches. */
  lemma {:induction false} StrayIssueDisagrees(owner: Id -> Id)
    requires owner("s") == "p"
    ensures Execute(Run(Empty, Steps[..2]), Bare, DoStockOut(Sale)).Ok?
    ensures Agrees(Run(Empty, Steps[..2]), OfStockItem("s")) && !Agrees(Run(Empty, Steps), OfStockItem("s"))
  {
    UpToTheSale(Steps, owner);
    var t := Run(Empty, Steps[..2]);
    SaleStrays(t, owner);
    SaleDisagrees(t, owner);
    StepIs(Steps, 2, Bare, DoStockOut(Sale), Apply(t, Bare, DoStockOut(Sale)));
    assert Steps[..3] == Steps;
  }
}
