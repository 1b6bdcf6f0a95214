/** A run in which a product's summary leaves its reservations: a release names product "q" under the key of a
    reservation of product "p". */
module ForeignRelease {
  import opened Common
  import opened Fifo
  import opened Identity
  import opened Ledger
  import opened Agreement
  import opened Samples
  import opened StrayRelease

  const Pair := Catalog(map["p" := Product(true, {}), "q" := Product(true, {})], map[], [], map[])

  function OfQ(quantity: real): Line {
    Line("q", None, None, None, quantity)
  }

  const ReceiptOfQ := Delivered.(line := OfQ(10.0))

  const HoldOfQ := Hold(OfQ(1.0), "m")

  /** The key is that of the reservation of "p". */
  const Foreign := Hold(OfQ(1.0), "k")

  const Mixed: seq<Step> := [
    Step(Bare, DoStockIn(Delivered)),
    Step(Bare, DoReserve(Early)),
    Step(Pair, DoStockIn(ReceiptOfQ)),
    Step(Pair, DoReserve(HoldOfQ)),
    Step(Pair, DoRelease(Foreign))]

  function RowOfQ(onHand: real, reserved: real): Item {
    Item(Legacy("q"), "q", onHand, reserved)
  }

  const TenOfQ := Batch("q", None, 10.0, 10.0, 1.0, None)

  const ReservedOfQ := Reservation("m", "q", None, 1.0, ACTIVE)

  ghost predicate BothStocked(t: Tables) {
    Rows(t, [LegacyRow(10.0, 1.0), RowOfQ(10.0, 0.0)], [EarlyRow(ACTIVE)], [Ten(None), TenOfQ])
  }

  ghost predicate BothHeld(t: Tables) {
    Rows(t, [LegacyRow(10.0, 1.0), RowOfQ(10.0, 1.0)], [EarlyRow(ACTIVE), ReservedOfQ], [Ten(None), TenOfQ])
  }

  ghost predicate Crossed(t: Tables) {
    Rows(t, [LegacyRow(10.0, 1.0), RowOfQ(10.0, 0.0)], [EarlyRow(RELEASED), ReservedOfQ], [Ten(None), TenOfQ])
  }

  lemma PairResolves(quantity: real)
    requires quantity > 0.0
    ensures Resolve(Pair, OfQ(quantity)) == Ok(Resolved("q", None, None, quantity))
  {}

  lemma ReceivingQ(t: Tables)
    requires StrayRelease.Held(t)
    ensures BothStocked(Apply(t, Pair, DoStockIn(ReceiptOfQ)))
  {
    PairResolves(10.0);
    FindSecond(LegacyRow(10.0, 1.0), RowOfQ(0.0, 0.0), Legacy("q"));
    assert Upserted(t.items, Legacy("q"), "q") == [LegacyRow(10.0, 1.0), RowOfQ(0.0, 0.0)];
  }

  lemma ReservingQ(t: Tables)
    requires BothStocked(t)
    ensures BothHeld(Apply(t, Pair, DoReserve(HoldOfQ)))
  {
    PairResolves(1.0);
    FindSecond(LegacyRow(10.0, 1.0), RowOfQ(10.0, 0.0), Legacy("q"));
    assert [EarlyRow(ACTIVE)][1..] == [];
    assert FindReservation(t.reservations, "m") == 1;
  }

  lemma ReleasingForeign(t: Tables)
    requires BothHeld(t)
    ensures Crossed(Apply(t, Pair, DoRelease(Foreign)))
  {
    PairResolves(1.0);
    FindSecond(LegacyRow(10.0, 1.0), RowOfQ(10.0, 1.0), Legacy("q"));
    assert Upserted(t.items, Legacy("q"), "q") == t.items && ActiveReservation(t, "k") == Some(0);
    assert ReleaseTx(t, Pair, Foreign) == GiveBack(t, 0, Legacy("q"));
  }

  lemma {:induction false} UpToTheRelease(steps: seq<Step>)
    requires |steps| >= 4 && StrayRelease.Held(Run(Empty, steps[..2]))
    requires steps[2] == Step(Pair, DoStockIn(ReceiptOfQ)) && steps[3] == Step(Pair, DoReserve(HoldOfQ))
    ensures BothHeld(Run(Empty, steps[..4]))
  {
    var t := Run(Empty, steps[..2]);
    var u := Apply(t, Pair, DoStockIn(ReceiptOfQ));
    ReceivingQ(t);
    StepIs(steps, 2, Pair, DoStockIn(ReceiptOfQ), u);
    ReservingQ(u);
    StepIs(steps, 3, Pair, DoReserve(HoldOfQ), Apply(u, Pair, DoReserve(HoldOfQ)));
  }

  lemma BothHeldAgrees(t: Tables)
    requires BothHeld(t)
    ensures Agrees(t, OfProduct("p")) && Agrees(t, OfProduct("q"))
  {
    var p, q := OfProduct("p"), OfProduct("q");
    assert OnHandColumn(t.items, p) == StockColumn(t.batches, p) == [10.0, 0.0];
    assert ReservedColumn(t.items, p) == PromisedColumn(t.reservations, p) == [1.0, 0.0];
    assert OnHandColumn(t.items, q) == StockColumn(t.batches, q) == [0.0, 10.0];
    assert ReservedColumn(t.items, q) == PromisedColumn(t.reservations, q) == [0.0, 1.0];
  }

  lemma CrossedDisagrees(t: Tables)
    requires Crossed(t)
    ensures !Agrees(t, OfProduct("p")) && !Agrees(t, OfProduct("q"))
  {
    var p, q := OfProduct("p"), OfProduct("q");
    assert ReservedColumn(t.items, p) == [1.0, 0.0] && PromisedColumn(t.reservations, p) == [0.0, 0.0];
    assert ReservedColumn(t.items, q) == [0.0, 0.0] && PromisedColumn(t.reservations, q) == [0.0, 1.0];
    SumOfTwo(0.0, 0.0);
    SumOfTwo(0.0, 1.0);
    SumOfTwo(1.0, 0.0);
  }

  /** Both products agree up to the release, and neither does after it. */
  lemma {:induction false} ForeignReleaseDisagrees()
    ensures Agrees(Run(Empty, Mixed[..4]), OfProduct("p")) && Agrees(Run(Empty, Mixed[..4]), OfProduct("q"))
    ensures Execute(Run(Empty, Mixed[..4]), Pair, DoRelease(Foreign)).Ok?
    ensures !Agrees(Run(Empty, Mixed), OfProduct("p")) && !Agrees(Run(Empty, Mixed), OfProduct("q"))
  {
    HoldingBare(Mixed);
    UpToTheRelease(Mixed);
    var t := Run(Empty, Mixed[..4]);
    BothHeldAgrees(t);
    ReleasingForeign(t);
    assert Apply(t, Pair, DoRelease(Foreign)).items != t.items;
    StepIs(Mixed, 4, Pair, DoRelease(Foreign), Apply(t, Pair, DoRelease(Foreign)));
    assert Mixed[..5] == Mixed;
    CrossedDisagrees(Run(Empty, Mixed));
  }
}
