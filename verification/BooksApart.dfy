/** Two histories in which the inventory account ends away from the valuation though everything has been
    handled: stock is found at no cost and lowered again at a cost of its own, and stock is received in a
    unit that is not the base unit. */
module BooksApart {
  import opened Common
  import opened Fifo
  import opened Identity
  import opened Ledger
  import opened Books
  import opened BooksGrowth
  import opened BooksSettled
  import opened Samples

  const Found := Adjustment(Of(1.0), None, false, "a", 0)

  const Lost := Adjustment(Of(-1.0), Some(5.0), false, "b", 0)

  const Steps: seq<BookStep> := [
    MoveStock(Bare, DoAdjust(Found)),
    MoveStock(Bare, DoAdjust(Lost)),
    HandleStockEvent(0),
    HandleStockEvent(1)]

  function FreeBatch(remaining: real): Batch {
    Batch("p", None, 1.0, remaining, 0.0, None)
  }

  ghost predicate JustFound(t: Tables) {
    && t.batches == [FreeBatch(1.0)] && t.reservations == [] && t.items == [Item(Legacy("p"), "p", 1.0, 0.0)]
    && |t.movements| == 1 && t.events == [StockAdjusted("a", 1.0, None, [])]
  }

  lemma FindingStock()
    ensures JustFound(Apply(Empty, Bare, DoAdjust(Found)))
  {
    BareResolves(1.0);
    var row := Item(Legacy("p"), "p", 0.0, 0.0);
    assert Lowered(Found) == Of(1.0);
    assert Upserted([], Legacy("p"), "p") == [row];
    FindOnly(row);
  }

  lemma DrawingFree()
    ensures var c := Consume([FreeBatch(1.0)], Query("p", None, 0), 1.0);
      c.Ok? && Sum(Costs(c.value.allocations)) == 0.0 && Value(c.value.batches) == 0.0
  {
    var batches, query := [FreeBatch(1.0)], Query("p", None, 0);
    assert EligibleColumn(batches, query) == [1.0] && ValueColumn(batches) == [0.0];
    SumOfOne(1.0);
    SumOfOne(0.0);
    ConsumeIsExactAndGreedy(batches, query, 1.0);
    ConsumeDeducts(batches, query, 1.0);
    ConsumeCostsTheDrop(batches, query, 1.0);
    SumZero(Costs(Consume(batches, query, 1.0).value.allocations));
  }

  ghost predicate FreelyLost(t: Tables) {
    && Value(t.batches) == 0.0
    && |t.events| == 2 && t.events[0] == StockAdjusted("a", 1.0, None, [])
    && t.events[1].StockAdjusted? && t.events[1].quantity == -1.0 && t.events[1].givenCost == Some(5.0)
    && Sum(Costs(t.events[1].allocations)) == 0.0
  }

  lemma LosingStock(t: Tables)
    requires JustFound(t)
    ensures FreelyLost(Apply(t, Bare, DoAdjust(Lost)))
  {
    BareResolves(1.0);
    assert Lowered(Lost) == Of(1.0);
    FindOnly(t.items[0]);
    DrawingFree();
    assert AdjustTx(t, Bare, Lost).Ok?;
  }

  lemma WhatIsPosted(t: Tables)
    requires FreelyLost(t)
    ensures PostingOf(t.events[0]) == None
    ensures PostingOf(t.events[1]) == Some(Posting(COST_OF_GOODS_SOLD, INVENTORY, 5.0))
  {
    assert Costs([]) == [];
    assert AdjustedAmount(-1.0, Some(5.0), t.events[1].allocations) == Worth(1.0, 5.0) == 5.0;
  }

  lemma {:induction false} StepsUpToTheLoss()
    ensures var b := History(Steps[..2]);
      FreelyLost(b.tables) && b.journal == [] && b.totals == [] && b.lines == []
  {
    var first, second := Steps[..1], Steps[..2];
    assert first[..0] == [] && second[..1] == first;
    FindingStock();
    assert History(first) == Advance(History(first[..0]), Steps[0]);
    assert History(second) == Advance(History(first), Steps[1]);
    LosingStock(History(first).tables);
  }

  lemma {:induction false} StepsUpToTheEnd()
    ensures History(Steps[..3]) == History(Steps[..2])
    ensures History(Steps) == History(Steps[..2]).(journal := [Entry(OfMovement(1), COST_OF_GOODS_SOLD, INVENTORY, 5.0)])
  {
    StepsUpToTheLoss();
    WhatIsPosted(History(Steps[..2]).tables);
    StepAt(Steps, 2);
    StepAt(Steps, 3);
    assert Steps[..4] == Steps;
  }

  lemma HandlingBothIsEnough(steps: seq<BookStep>)
    requires EventHandledAt(steps, 2, 0) && EventHandledAt(steps, 3, 1)
    requires var b := History(steps);
      |b.tables.events| == 2 && b.totals == [] && b.lines == []
    ensures AllHandled(steps)
  {
    forall m: nat | m < 2 ensures EventHandled(steps, m) {
      if m == 0 {
        assert EventHandledAt(steps, 2, m);
      } else {
        assert EventHandledAt(steps, 3, m);
      }
    }
  }

  /** Everything is handled, the batches are worth nothing, and the account is five below. */
  lemma AccountLeavesTheValuation()
    ensures AllHandled(Steps)
    ensures Value(History(Steps).tables.batches) == 0.0 && InventoryBalance(History(Steps).journal) == -5.0
  {
    StepsUpToTheLoss();
    StepsUpToTheEnd();
    HandlingBothIsEnough(Steps);
    assert EffectColumn(History(Steps).journal) == [-5.0];
    SumOfOne(-5.0);
  }

  // ---------------------------------------------------------------- a box of twelve

  const Boxes := Catalog(map["p" := Product(true, {})], map["s" := OnlyItem], ["s"], map[("s", "box") := 12.0])

  /** One box for twelve. */
  const Box := Receipt(Line("p", None, Some("s"), Some("box"), 1.0), 12.0, None, false, None, ADJUSTMENT, "c")

  const BoxSteps: seq<BookStep> := [MoveStock(Boxes, DoStockIn(Box)), HandleStockEvent(0)]

  lemma BoxResolves()
    ensures Resolve(Boxes, Box.line) == Ok(Resolved("p", Some("s"), Some("box"), 12.0))
  {
    assert Box.line.quantity * Boxes.units[("s", "box")] == 12.0;
  }

  lemma ReceivingABox()
    ensures var t := Apply(Empty, Boxes, DoStockIn(Box));
      && t.batches == [Batch("p", Some("s"), 12.0, 12.0, 12.0, None)]
      && t.events == [StockIn(ADJUSTMENT, "c", 1.0, 12.0)]
  {
    BoxResolves();
  }

  lemma {:induction false} BoxIsBooked()
    ensures History(BoxSteps[..1]) == NoBooks.(tables := Apply(Empty, Boxes, DoStockIn(Box)))
    ensures History(BoxSteps)
         == History(BoxSteps[..1]).(journal := [Entry(OfMovement(0), INVENTORY, COST_OF_GOODS_SOLD, 12.0)])
  {
    ReceivingABox();
    StepAt(BoxSteps, 0);
    StepAt(BoxSteps, 1);
    assert BoxSteps[..2] == BoxSteps && BoxSteps[..0] == [];
  }

  /** The account has the box's cost, the batches are valued at its cost for each of the twelve. */
  lemma BoxLeavesTheValuation()
    ensures AllHandled(BoxSteps)
    ensures Value(History(BoxSteps).tables.batches) == 144.0 && InventoryBalance(History(BoxSteps).journal) == 12.0
  {
    ReceivingABox();
    BoxIsBooked();
    assert ValueColumn(History(BoxSteps).tables.batches) == [144.0];
    SumOfOne(144.0);
    assert EffectColumn(History(BoxSteps).journal) == [12.0];
    SumOfOne(12.0);
    HandlingItIsEnough(BoxSteps);
  }

  lemma HandlingItIsEnough(steps: seq<BookStep>)
    requires EventHandledAt(steps, 1, 0)
    requires var b := History(steps);
      |b.tables.events| == 1 && b.totals == [] && b.lines == []
    ensures AllHandled(steps)
  {
    forall m: nat | m < 1 ensures EventHandled(steps, m) {
      assert EventHandledAt(steps, 1, m);
    }
  }
}
