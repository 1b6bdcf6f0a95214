/** Once everything that was published has been handled, the inventory account is the valuation of the
    batches: also for the events and receipts that called for no entry. */
module BooksSettled {
  import opened Common
  import opened Fifo
  import opened Identity
  import opened Ledger
  import opened Books
  import opened BooksBalance
  import opened BooksGrowth
  import opened Deliveries

  // ---------------------------------------------------------------- what was handled

  /** Step n handled stock event m. */
  ghost predicate EventHandledAt(steps: seq<BookStep>, n: nat, m: nat) {
    n < |steps| && steps[n] == HandleStockEvent(m) && m < |History(steps[..n]).tables.events|
  }

  /** Step n handled or repaired receipt r. */
  ghost predicate ReceiptHandledAt(steps: seq<BookStep>, n: nat, r: nat) {
    && n < |steps| && (steps[n] == HandleReceiptEvent(r) || steps[n] == RepairReceipt(r))
    && r < |History(steps[..n]).totals|
  }

  ghost predicate EventHandled(steps: seq<BookStep>, m: nat) {
    exists n :: EventHandledAt(steps, n, m)
  }

  ghost predicate ReceiptHandled(steps: seq<BookStep>, r: nat) {
    exists n :: ReceiptHandledAt(steps, n, r)
  }

  ghost predicate LineDelivered(steps: seq<BookStep>, k: nat) {
    exists n :: DeliveredAt(steps, n, k)
  }

  /** Every stock event and every receipt has been handled after it came up, and every line delivered. */
  ghost predicate AllHandled(steps: seq<BookStep>) {
    && (forall m: nat :: m < |History(steps).tables.events| ==> EventHandled(steps, m))
    && (forall r: nat :: r < |History(steps).totals| ==> ReceiptHandled(steps, r))
    && (forall k: nat :: k < |History(steps).lines| ==> LineDelivered(steps, k))
  }

  // ---------------------------------------------------------------- handled is settled

  ghost predicate EventSettled(b: BookState, m: nat) {
    m < |b.tables.events| && (Journalled(b.journal, OfMovement(m)) || EventAmount(b.tables.events[m]) == 0.0)
  }

  ghost predicate ReceiptSettled(b: BookState, r: nat) {
    r < |b.totals| && (Journalled(b.journal, OfReceipt(r)) || b.totals[r] <= 0.0)
  }

  lemma PostedIsJournalled(journal: seq<Entry>, key: JournalKey, p: Posting)
    ensures Journalled(Post(journal, key, p), key)
  {
    if !Journalled(journal, key) {
      PostedKeys(journal, Entry(key, p.debit, p.credit, p.amount), key);
    }
  }

  lemma HandlingSettlesEvent(b: BookState, m: nat)
    requires EventsKept(b.tables.events) && m < |b.tables.events|
    ensures EventSettled(Advance(b, HandleStockEvent(m)), m)
  {
    PostingCarriesTheAmount(b.tables.events[m]);
    if PostingOf(b.tables.events[m]).Some? {
      PostedIsJournalled(b.journal, OfMovement(m), PostingOf(b.tables.events[m]).value);
    }
  }

  lemma HandlingSettlesReceipt(b: BookState, r: nat, step: BookStep)
    requires TotalsKept(b) && r < |b.totals| && (step == HandleReceiptEvent(r) || step == RepairReceipt(r))
    ensures ReceiptSettled(Advance(b, step), r)
  {
    if b.totals[r] > 0.0 {
      PostedIsJournalled(b.journal, OfReceipt(r), ReceiptPosting(b.totals[r]).value);
    }
  }

  lemma SettledLasts(b: BookState, after: BookState, m: nat)
    requires Grown(b, after)
    ensures EventSettled(b, m) ==> EventSettled(after, m)
    ensures ReceiptSettled(b, m) ==> ReceiptSettled(after, m)
  {
    if Journalled(b.journal, OfMovement(m)) {
      JournalledLasts(b.journal, after.journal, OfMovement(m));
    }
    if Journalled(b.journal, OfReceipt(m)) {
      JournalledLasts(b.journal, after.journal, OfReceipt(m));
    }
  }

  lemma {:induction false} PrefixIsRegular(steps: seq<BookStep>, n: nat)
    requires RegularHistory(steps) && n <= |steps|
    ensures RegularHistory(steps[..n])
  {
    var front := steps[..n];
    forall k | 0 <= k < |front| ensures Regular(History(front[..k]), front[k]) {
      assert front[..k] == steps[..k];
    }
  }

  lemma {:induction false} HandledEventIsSettled(steps: seq<BookStep>, n: nat, m: nat)
    requires RegularHistory(steps) && EventHandledAt(steps, n, m)
    ensures EventSettled(History(steps), m)
  {
    PrefixIsRegular(steps, n);
    HistoriesAreInOrder(steps[..n]);
    HandlingSettlesEvent(History(steps[..n]), m);
    StepAt(steps, n);
    LastsToTheEnd(steps, n + 1);
    SettledLasts(History(steps[..n + 1]), History(steps), m);
  }

  lemma {:induction false} HandledReceiptIsSettled(steps: seq<BookStep>, n: nat, r: nat)
    requires RegularHistory(steps) && ReceiptHandledAt(steps, n, r)
    ensures ReceiptSettled(History(steps), r)
  {
    PrefixIsRegular(steps, n);
    HistoriesAreInOrder(steps[..n]);
    HandlingSettlesReceipt(History(steps[..n]), r, steps[n]);
    StepAt(steps, n);
    LastsToTheEnd(steps, n + 1);
    SettledLasts(History(steps[..n + 1]), History(steps), r);
  }

  // ---------------------------------------------------------------- no receipt total is negative

  lemma StockedInLineIsWorthSomething(b: BookState, k: nat)
    requires InOrder(b) && k < |b.lines| && StockedIn(b.tables, b.lines[k])
    ensures 0.0 <= Worth(b.lines[k].line.quantity, b.lines[k].unitCost)
  {
    var m := FindMovement(b.tables.movements, PurchaseKey(b.lines[k].receiptId, b.lines[k].id));
    KeyNamesItsLine(b.tables.movements, b.lines, |b.totals|, m, k);
    assert PurchaseKept(b.tables.movements[m]);
    WorthIsPositive(b.lines[k].line.quantity, b.lines[k].unitCost);
  }

  lemma TotalIsNotNegative(b: BookState, r: nat)
    requires InOrder(b) && r < |b.totals|
    requires forall k :: 0 <= k < |b.lines| ==> StockedIn(b.tables, b.lines[k])
    ensures 0.0 <= b.totals[r]
  {
    forall k | 0 <= k < |b.lines| ensures 0.0 <= WorthColumn(b.lines, r)[k] {
      StockedInLineIsWorthSomething(b, k);
    }
    SumNonNegative(WorthColumn(b.lines, r));
  }

  // ---------------------------------------------------------------- the account is the valuation

  /** Nothing is on its way: events and receipts are settled and every line is in stock. */
  ghost predicate Quiet(b: BookState) {
    && (forall m: nat :: m < |b.tables.events| ==> EventSettled(b, m))
    && (forall r: nat :: r < |b.totals| ==> ReceiptSettled(b, r))
    && (forall k :: 0 <= k < |b.lines| ==> StockedIn(b.tables, b.lines[k]))
  }

  lemma {:induction false} AllHandledIsQuiet(steps: seq<BookStep>)
    requires RegularHistory(steps) && AllHandled(steps)
    ensures Quiet(History(steps))
  {
    var b := History(steps);
    forall m: nat | m < |b.tables.events| ensures EventSettled(b, m) {
      assert EventHandled(steps, m);
      var n :| EventHandledAt(steps, n, m);
      HandledEventIsSettled(steps, n, m);
    }
    forall r: nat | r < |b.totals| ensures ReceiptSettled(b, r) {
      assert ReceiptHandled(steps, r);
      var n :| ReceiptHandledAt(steps, n, r);
      HandledReceiptIsSettled(steps, n, r);
    }
    forall k: nat | k < |b.lines| ensures StockedIn(b.tables, b.lines[k]) {
      assert LineDelivered(steps, k);
      var n :| DeliveredAt(steps, n, k);
      StockedInAfterSuccess(steps, n, k);
    }
  }

  lemma {:induction false} QuietBooksAgree(b: BookState)
    requires InOrder(b) && Quiet(b)
    ensures InventoryBalance(b.journal) == Value(b.tables.batches)
  {
    forall m: nat | m < |b.tables.events| ensures PendingEvents(b)[m] == 0.0 {
      assert EventSettled(b, m);
    }
    forall r: nat | r < |b.totals| ensures PendingReceipts(b)[r] == 0.0 {
      assert ReceiptSettled(b, r);
      TotalIsNotNegative(b, r);
    }
    SumZero(PendingEvents(b));
    SumZero(PendingReceipts(b));
    SumZero(Unstocked(b));
  }

  /** When every stock event has been handled, every receipt handled or repaired and every line delivered,
      in whatever order and however often, the inventory account is the valuation of the batches. */
  lemma {:induction false} InventoryAccountIsValuation(steps: seq<BookStep>)
    requires RegularHistory(steps) && AllHandled(steps)
    ensures InventoryBalance(History(steps).journal) == Value(History(steps).tables.batches)
  {
    HistoriesAreInOrder(steps);
    AllHandledIsQuiet(steps);
    QuietBooksAgree(History(steps));
  }
}
