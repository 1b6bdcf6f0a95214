/** Nothing on the books is ever taken back: movements, events, receipts, their lines and journal
    entries are only appended. */
module BooksGrowth {
  import opened Common
  import opened Identity
  import opened Ledger
  import opened Books

  ghost predicate Appended(t: Tables, after: Tables) {
    t.movements <= after.movements && t.events <= after.events
  }

  ghost predicate Grown(b: BookState, after: BookState) {
    && Appended(b.tables, after.tables)
    && b.totals <= after.totals
    && b.lines <= after.lines
    && b.journal <= after.journal
  }

  lemma StockInAppends(t: Tables, catalog: Catalog, receipt: Receipt)
    requires StockInTx(t, catalog, receipt).Ok?
    ensures Appended(t, StockInTx(t, catalog, receipt).value)
  {}

  lemma StockOutAppends(t: Tables, catalog: Catalog, issue: Issue)
    requires StockOutTx(t, catalog, issue).Ok?
    ensures Appended(t, StockOutTx(t, catalog, issue).value)
  {}

  lemma AdjustAppends(t: Tables, catalog: Catalog, a: Adjustment)
    requires AdjustTx(t, catalog, a).Ok?
    ensures Appended(t, AdjustTx(t, catalog, a).value)
  {}

  lemma TablesGrow(t: Tables, catalog: Catalog, c: Command)
    ensures Appended(t, Apply(t, catalog, c))
  {
    if Execute(t, catalog, c).Ok? {
      match c
      case DoStockIn(receipt) => StockInAppends(t, catalog, receipt);
      case DoStockOut(issue) => StockOutAppends(t, catalog, issue);
      case DoAdjust(a) => AdjustAppends(t, catalog, a);
      case DoSettle(issue, _) => StockOutAppends(t, catalog, issue);
      case DoRestock(restock) =>
        StockInAppends(t, catalog, ReturnReceipt(t, Resolve(catalog, restock.line).value, restock));
      case _ =>
    }
  }

  lemma StepGrows(b: BookState, step: BookStep)
    ensures Grown(b, Advance(b, step))
  {
    match step
    case DeliverLine(k, catalog) =>
      if k < |b.lines| {
        TablesGrow(b.tables, catalog, DoStockIn(Delivery(b.lines[k])));
      }
    case MoveStock(catalog, command) => TablesGrow(b.tables, catalog, command);
    case _ =>
  }

  lemma {:induction false} HistoryOfOneMore(steps: seq<BookStep>, step: BookStep)
    ensures History(steps + [step]) == Advance(History(steps), step)
  {
    assert (steps + [step])[..|steps|] == steps;
  }

  lemma GrowsOn(b: BookState, middle: BookState, after: BookState)
    requires Grown(b, middle) && Grown(middle, after)
    ensures Grown(b, after)
  {}

  lemma {:induction false} HistoryGrows(steps: seq<BookStep>, more: seq<BookStep>)
    ensures Grown(History(steps), History(steps + more))
    decreases |more|
  {
    if more == [] {
      assert steps + more == steps;
    } else {
      var front, last := steps + more[..|more| - 1], more[|more| - 1];
      HistoryGrows(steps, more[..|more| - 1]);
      HistoryOfOneMore(front, last);
      assert front + [last] == steps + more;
      StepGrows(History(front), last);
      GrowsOn(History(steps), History(front), Advance(History(front), last));
    }
  }

  /** What stands after the first n steps stands at the end. */
  lemma {:induction false} LastsToTheEnd(steps: seq<BookStep>, n: nat)
    requires n <= |steps|
    ensures Grown(History(steps[..n]), History(steps))
  {
    var front, more := steps[..n], steps[n..];
    assert front + more == steps;
    HistoryGrows(front, more);
  }

  lemma {:induction false} StepAt(steps: seq<BookStep>, n: nat)
    requires n < |steps|
    ensures History(steps[..n + 1]) == Advance(History(steps[..n]), steps[n])
  {
    var front := steps[..n];
    assert steps[..n + 1] == front + [steps[n]];
    HistoryOfOneMore(front, steps[n]);
  }

  lemma {:induction false} JournalledLasts(journal: seq<Entry>, after: seq<Entry>, key: JournalKey)
    requires journal <= after && Journalled(journal, key)
    ensures Journalled(after, key)
  {
    if journal[0].key != key {
      JournalledLasts(journal[1..], after[1..], key);
    }
  }
}
