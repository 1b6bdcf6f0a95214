/** A small catalogue for the runs that show where a promise does not hold: product "p", first without
    a stock item and then with stock item "s" listed for it. */
module Samples {
  import opened Common
  import opened Fifo
  import opened Identity
  import opened Ledger

  const Bare := Catalog(map["p" := Product(true, {})], map[], [], map[])

  const OnlyItem := StockItem("p", None, true, true, true, false, false, true, None)

  const Listed := Catalog(map["p" := Product(true, {})], map["s" := OnlyItem], ["s"], map[])

  function Of(quantity: real): Line {
    Line("p", None, None, None, quantity)
  }

  lemma BareResolves(quantity: real)
    requires quantity > 0.0
    ensures Resolve(Bare, Of(quantity)) == Ok(Resolved("p", None, None, quantity))
  {}

  lemma ListedResolves(quantity: real)
    requires quantity > 0.0
    ensures Resolve(Listed, Of(quantity)) == Ok(Resolved("p", Some("s"), None, quantity))
  {
    assert Listed.listing[0] == "s" && Usable(OnlyItem, "p", None);
    assert FirstUsable(Listed, Listed.listing, "p", None) == Some("s");
  }

  // ---------------------------------------------------------------- ten received

  const Delivered := Receipt(Of(10.0), 1.0, None, false, None, ADJUSTMENT, "a")

  function LegacyRow(onHand: real, reserved: real): Item {
    Item(Legacy("p"), "p", onHand, reserved)
  }

  function StockedRow(onHand: real, reserved: real): Item {
    Item(OfStock("s"), "p", onHand, reserved)
  }

  function Ten(stockItemId: Option<Id>): Batch {
    Batch("p", stockItemId, 10.0, 10.0, 1.0, None)
  }

  lemma FindOnly(item: Item)
    ensures FindItem([item], item.key) == 0
  {}

  ghost predicate Rows(t: Tables, items: seq<Item>, reservations: seq<Reservation>, batches: seq<Batch>) {
    t.items == items && t.reservations == reservations && t.batches == batches
  }

  ghost predicate TenReceived(t: Tables) {
    Rows(t, [LegacyRow(10.0, 0.0)], [], [Ten(None)])
  }

  lemma ReceivingBare()
    ensures TenReceived(Apply(Empty, Bare, DoStockIn(Delivered)))
  {
    BareResolves(10.0);
    FindOnly(LegacyRow(0.0, 0.0));
    assert Upserted([], Legacy("p"), "p") == [LegacyRow(0.0, 0.0)];
  }

  ghost predicate TenStocked(t: Tables) {
    Rows(t, [StockedRow(10.0, 0.0)], [], [Ten(Some("s"))])
  }

  lemma StockingListed()
    ensures TenStocked(Apply(Empty, Listed, DoStockIn(Delivered)))
  {
    ListedResolves(10.0);
    FindOnly(StockedRow(0.0, 0.0));
    assert Upserted([], OfStock("s"), "p") == [StockedRow(0.0, 0.0)];
  }

  lemma StepIs(steps: seq<Step>, n: nat, catalog: Catalog, command: Command, after: Tables)
    requires n < |steps| && steps[n] == Step(catalog, command)
    requires after == Apply(Run(Empty, steps[..n]), catalog, command)
    ensures Run(Empty, steps[..n + 1]) == after
  {
    assert steps[..n + 1][..n] == steps[..n];
  }
}
