/** What order events do to stock (inventory/inventory-order-events.handler.ts): one keyed command for
    each tracked item, stopping at the first that throws. The event bus retries a handler from its first
    item, so a retry must resume where the last attempt stopped. */
module OrderEvents {
  import opened Common
  import opened Identity
  import opened Ledger
  import opened KeyedCommands
  import opened InventoryService

  datatype OrderItem = OrderItem(id: Id, line: Line, isStockTracked: bool)

  datatype OrderEvent = Created | Paid | Cancelled

  function HoldFor(orderId: Id, item: OrderItem): Hold {
    Hold(item.line, "order-created:" + orderId + ":" + item.id + ":reserve")
  }

  function IssueFor(orderId: Id, item: OrderItem, now: int): Issue {
    Issue(item.line, Some("order-paid:" + orderId + ":" + item.id + ":stock-out"), ORDER, orderId, now)
  }

  function CommandFor(event: OrderEvent, orderId: Id, item: OrderItem, now: int): Command {
    match event
    case Created => DoReserve(HoldFor(orderId, item))
    case Paid => DoSettle(IssueFor(orderId, item, now), HoldFor(orderId, item))
    case Cancelled => DoRelease(HoldFor(orderId, item))
  }

  /** One item: untracked ones are passed over; None is the error that stops the handler. */
  function Dealt(t: Tables, catalog: Catalog, event: OrderEvent, orderId: Id, item: OrderItem, now: int): Option<Tables> {
    if !item.isStockTracked then Some(t)
    else
      match Execute(t, catalog, CommandFor(event, orderId, item, now))
      case Ok(u) => Some(u)
      case Err(_) => None
  }

  /** How a call of the handler ends: the tables, and how many items it dealt with. */
  datatype Attempt = Attempt(tables: Tables, done: nat)

  function Attempted(t: Tables, catalog: Catalog, event: OrderEvent, orderId: Id, items: seq<OrderItem>, now: int)
    : Attempt
    decreases |items|
  {
    if items == [] then Attempt(t, 0)
    else
      match Dealt(t, catalog, event, orderId, items[0], now)
      case None => Attempt(t, 0)
      case Some(u) =>
        var rest := Attempted(u, catalog, event, orderId, items[1..], now);
        Attempt(rest.tables, rest.done + 1)
  }

  // ---------------------------------------------------------------- effects of items

  /** What dealing with an item leaves for certain: a creation its reservation, a payment its stock-out.
      Effects are told by keys, so the time of the command does not matter. */
  predicate ItemDone(t: Tables, event: OrderEvent, orderId: Id, item: OrderItem) {
    item.isStockTracked ==>
      && item.line.quantity > 0.0
      && match event
         case Created => Known(t, HoldFor(orderId, item).reservationKey)
         case Paid => Recorded(t.movements, IssueFor(orderId, item, 0).eventKey)
         case Cancelled => true
  }

  predicate ItemEffected(t: Tables, event: OrderEvent, orderId: Id, item: OrderItem) {
    item.isStockTracked ==> Effected(t, CommandFor(event, orderId, item, 0)) && item.line.quantity > 0.0
  }

  /** The reservation that a payment or cancellation closes is there; a creation needs none. */
  predicate ItemReserved(t: Tables, event: OrderEvent, orderId: Id, item: OrderItem) {
    item.isStockTracked ==> HasItsReservation(t, CommandFor(event, orderId, item, 0))
  }

  /** No reservation that a payment or cancellation would close is active. */
  predicate Dormant(t: Tables, event: OrderEvent, orderId: Id, item: OrderItem) {
    item.isStockTracked && event != Created ==> ActiveReservation(t, HoldFor(orderId, item).reservationKey).None?
  }

  ghost predicate ItemsDone(t: Tables, event: OrderEvent, orderId: Id, items: seq<OrderItem>) {
    forall k :: 0 <= k < |items| ==> ItemDone(t, event, orderId, items[k])
  }

  ghost predicate AllDormant(t: Tables, event: OrderEvent, orderId: Id, items: seq<OrderItem>) {
    forall k :: 0 <= k < |items| ==> Dormant(t, event, orderId, items[k])
  }

  lemma DealtIsEffected(t: Tables, catalog: Catalog, event: OrderEvent, orderId: Id, item: OrderItem, now: int)
    requires Dealt(t, catalog, event, orderId, item, now).Some?
    ensures var u := Dealt(t, catalog, event, orderId, item, now).value;
      && Remembers(t, u) && ItemDone(u, event, orderId, item)
      && (ItemReserved(t, event, orderId, item) ==> ItemEffected(u, event, orderId, item))
  {
    if item.isStockTracked {
      SuccessTakesEffect(t, catalog, CommandFor(event, orderId, item, now));
      if event == Paid {
        StockOutRemembers(t, catalog, IssueFor(orderId, item, now));
        SettleRemembers(t, catalog, IssueFor(orderId, item, now), HoldFor(orderId, item));
      }
    }
  }

  /** An item in effect is done, and its reservation is closed. */
  lemma EffectedIsDormant(t: Tables, event: OrderEvent, orderId: Id, item: OrderItem)
    requires ItemEffected(t, event, orderId, item)
    ensures ItemDone(t, event, orderId, item) && Dormant(t, event, orderId, item)
  {}

  /** Dealing with an item that is done changes nothing exactly when its reservation is not active. */
  lemma DoneIsPassedOver(t: Tables, catalog: Catalog, event: OrderEvent, orderId: Id, item: OrderItem, now: int)
    requires ItemDone(t, event, orderId, item)
    ensures Dealt(t, catalog, event, orderId, item, now) == Some(t) <==> Dormant(t, event, orderId, item)
  {
    if !Dormant(t, event, orderId, item) && Dealt(t, catalog, event, orderId, item, now).Some? {
      SuccessTakesEffect(t, catalog, CommandFor(event, orderId, item, now));
    }
  }

  lemma ItemsStay(t: Tables, u: Tables, event: OrderEvent, orderId: Id, item: OrderItem)
    requires Remembers(t, u)
    ensures ItemDone(t, event, orderId, item) ==> ItemDone(u, event, orderId, item)
    ensures ItemEffected(t, event, orderId, item) ==> ItemEffected(u, event, orderId, item)
    ensures ItemReserved(t, event, orderId, item) ==> ItemReserved(u, event, orderId, item)
  {}

  lemma {:induction false} RunRemembers(t: Tables, steps: seq<Step>)
    ensures Remembers(t, Run(t, steps))
  {
    if steps != [] {
      var before, last := Run(t, steps[..|steps| - 1]), steps[|steps| - 1];
      RunRemembers(t, steps[..|steps| - 1]);
      if Execute(before, last.catalog, last.command).Ok? {
        SuccessTakesEffect(before, last.catalog, last.command);
      }
    }
  }

  lemma {:induction false} AttemptRemembers(
    t: Tables, catalog: Catalog, event: OrderEvent, orderId: Id, items: seq<OrderItem>, now: int)
    ensures Remembers(t, Attempted(t, catalog, event, orderId, items, now).tables)
    ensures Attempted(t, catalog, event, orderId, items, now).done <= |items|
    decreases |items|
  {
    if items != [] && Dealt(t, catalog, event, orderId, items[0], now).Some? {
      DealtIsEffected(t, catalog, event, orderId, items[0], now);
      AttemptRemembers(Dealt(t, catalog, event, orderId, items[0], now).value, catalog, event, orderId, items[1..], now);
    }
  }

  /** What an attempt has dealt with is done when it ends, and in effect if its reservation was there. */
  lemma {:induction false} AttemptEffects(
    t: Tables, catalog: Catalog, event: OrderEvent, orderId: Id, items: seq<OrderItem>, now: int, k: nat)
    requires k < |items| && k < Attempted(t, catalog, event, orderId, items, now).done
    ensures var u := Attempted(t, catalog, event, orderId, items, now).tables;
      && ItemDone(u, event, orderId, items[k])
      && (ItemReserved(t, event, orderId, items[k]) ==> ItemEffected(u, event, orderId, items[k]))
    decreases |items|
  {
    var u := Dealt(t, catalog, event, orderId, items[0], now).value;
    DealtIsEffected(t, catalog, event, orderId, items[0], now);
    if k == 0 {
      AttemptRemembers(u, catalog, event, orderId, items[1..], now);
      ItemsStay(u, Attempted(t, catalog, event, orderId, items, now).tables, event, orderId, items[0]);
    } else {
      ItemsStay(t, u, event, orderId, items[k]);
      AttemptEffects(u, catalog, event, orderId, items[1..], now, k - 1);
    }
  }

  /** The attempt passes over the first n items and acts like an attempt on the others. */
  ghost predicate Resumes(
    t: Tables, catalog: Catalog, event: OrderEvent, orderId: Id, items: seq<OrderItem>, now: int, n: nat)
    requires n <= |items|
  {
    Attempted(t, catalog, event, orderId, items, now)
    == var rest := Attempted(t, catalog, event, orderId, items[n..], now); Attempt(rest.tables, rest.done + n)
  }

  /** An attempt passes over what is done, as long as nothing of it is active. */
  lemma {:induction false} AttemptSkips(
    t: Tables, catalog: Catalog, event: OrderEvent, orderId: Id, items: seq<OrderItem>, now: int, n: nat)
    requires n <= |items| && ItemsDone(t, event, orderId, items[..n]) && AllDormant(t, event, orderId, items[..n])
    ensures Resumes(t, catalog, event, orderId, items, now, n)
    decreases |items|
  {
    if n == 0 {
      assert items[0..] == items;
    } else {
      var front, rest := items[..n], items[1..][..n - 1];
      assert front[0] == items[0] && front[1..] == rest;
      DoneIsPassedOver(t, catalog, event, orderId, items[0], now);
      forall j | 0 <= j < |rest|
        ensures ItemDone(t, event, orderId, rest[j]) && Dormant(t, event, orderId, rest[j])
      {
        assert ItemDone(t, event, orderId, front[j + 1]) && Dormant(t, event, orderId, front[j + 1]);
      }
      AttemptSkips(t, catalog, event, orderId, items[1..], now, n - 1);
      assert items[1..][n - 1..] == items[n..];
    }
  }

  // ---------------------------------------------------------------- the handler

  lemma {:induction false} NextItem(
    t: Tables, catalog: Catalog, event: OrderEvent, orderId: Id, items: seq<OrderItem>, now: int, n: nat)
    requires n < |items|
    ensures var attempt := Attempted(t, catalog, event, orderId, items[n..], now);
      match Dealt(t, catalog, event, orderId, items[n], now)
      case None => attempt == Attempt(t, 0)
      case Some(u) =>
        var rest := Attempted(u, catalog, event, orderId, items[n + 1..], now);
        attempt == Attempt(rest.tables, rest.done + 1)
  {
    assert items[n..][1..] == items[n + 1..];
  }

  /** reserveStock, deductStock and releaseStock: up to the first item whose command throws. */
  method Handle(service: Service, catalog: Catalog, event: OrderEvent, orderId: Id, items: seq<OrderItem>, now: int)
    returns (r: Result<(), LedgerError>, done: nat)
    modifies service
    ensures Attempt(service.State(), done) == Attempted(old(service.State()), catalog, event, orderId, items, now)
    ensures done <= |items| && (r.Ok? <==> done == |items|)
  {
    ghost var all := Attempted(service.State(), catalog, event, orderId, items, now);
    done := 0;
    assert items[0..] == items;
    while done < |items|
      invariant done <= |items|
      invariant var rest := Attempted(service.State(), catalog, event, orderId, items[done..], now);
        all == Attempt(rest.tables, rest.done + done)
    {
      NextItem(service.State(), catalog, event, orderId, items, now, done);
      if items[done].isStockTracked {
        r := service.Transact(catalog, CommandFor(event, orderId, items[done], now));
        if r.Err? {
          return;
        }
      }
      done := done + 1;
    }
    r := Ok(());
  }

  // ---------------------------------------------------------------- retries and redeliveries

  /** What an attempt has dealt with is still done when it is retried. */
  lemma {:induction false} DoneWhenRetried(
    t: Tables, catalog: Catalog, event: OrderEvent, orderId: Id, items: seq<OrderItem>, now: int, between: seq<Step>)
    ensures var first := Attempted(t, catalog, event, orderId, items, now);
      && first.done <= |items| && Remembers(t, Run(first.tables, between))
      && ItemsDone(Run(first.tables, between), event, orderId, items[..first.done])
  {
    var first := Attempted(t, catalog, event, orderId, items, now);
    var u := Run(first.tables, between);
    AttemptRemembers(t, catalog, event, orderId, items, now);
    RunRemembers(first.tables, between);
    var front := items[..first.done];
    forall k | 0 <= k < |front| ensures ItemDone(u, event, orderId, front[k]) {
      AttemptEffects(t, catalog, event, orderId, items, now, k);
      ItemsStay(first.tables, u, event, orderId, items[k]);
    }
  }

  /** An item whose reservation was there when an attempt dealt with it stays dormant. */
  lemma {:induction false} ReservedIsDormantWhenRetried(
    t: Tables, catalog: Catalog, event: OrderEvent, orderId: Id, items: seq<OrderItem>, now: int,
    between: seq<Step>, k: nat)
    requires k < |items| && k < Attempted(t, catalog, event, orderId, items, now).done
    requires ItemReserved(t, event, orderId, items[k])
    ensures Dormant(Run(Attempted(t, catalog, event, orderId, items, now).tables, between), event, orderId, items[k])
  {
    var first := Attempted(t, catalog, event, orderId, items, now);
    AttemptEffects(t, catalog, event, orderId, items, now, k);
    RunRemembers(first.tables, between);
    ItemsStay(first.tables, Run(first.tables, between), event, orderId, items[k]);
    EffectedIsDormant(Run(first.tables, between), event, orderId, items[k]);
  }

  predicate DistinctItems(items: seq<OrderItem>) {
    forall j, k :: 0 <= j < k < |items| ==> items[j].id != items[k].id
  }

  lemma HoldKeyIsInjective(orderId: Id, item: OrderItem, other: OrderItem)
    requires HoldFor(orderId, item).reservationKey == HoldFor(orderId, other).reservationKey
    ensures item.id == other.id
  {
    var head, tail := "order-created:" + orderId + ":", ":reserve";
    var key := HoldFor(orderId, item).reservationKey;
    assert key[|head|..|key| - |tail|] == item.id;
    assert key[|head|..|key| - |tail|] == other.id;
  }

  lemma GiveBackLeavesActive(t: Tables, i: nat, target: ItemKey, key: string)
    requires i < |t.reservations| && t.reservations[i].key != key && ActiveReservation(t, key).Some?
    requires GiveBack(t, i, target).Ok?
    ensures ActiveReservation(GiveBack(t, i, target).value, key).Some?
  {
    FindReservationAfterUpdate(t.reservations, i, t.reservations[i].(status := RELEASED), key);
  }

  lemma ReserveLeavesActive(t: Tables, catalog: Catalog, hold: Hold, key: string)
    requires ReserveTx(t, catalog, hold).Ok? && ActiveReservation(t, key).Some?
    ensures ActiveReservation(ReserveTx(t, catalog, hold).value, key).Some?
  {
    if !Known(t, hold.reservationKey) {
      FindReservationInLonger(t.reservations, ReserveTx(t, catalog, hold).value.reservations[|t.reservations|], key);
    }
  }

  lemma ReleaseLeavesActive(t: Tables, catalog: Catalog, hold: Hold, key: string)
    requires ReleaseTx(t, catalog, hold).Ok? && hold.reservationKey != key && ActiveReservation(t, key).Some?
    ensures ActiveReservation(ReleaseTx(t, catalog, hold).value, key).Some?
  {
    match ActiveReservation(t, hold.reservationKey)
    case None =>
    case Some(i) =>
      var r := Resolve(catalog, hold.line).value;
      GiveBackLeavesActive(t.(items := Upserted(t.items, KeyOf(r.productId, r.stockItemId), r.productId)), i,
                           ReleaseTarget(hold.line.productId, t.reservations[i], r.stockItemId), key);
  }

  lemma SettleLeavesActive(t: Tables, catalog: Catalog, issue: Issue, hold: Hold, key: string)
    requires SettleTx(t, catalog, issue, hold).Ok? && hold.reservationKey != key && ActiveReservation(t, key).Some?
    ensures ActiveReservation(SettleTx(t, catalog, issue, hold).value, key).Some?
  {
    StockOutRemembers(t, catalog, issue);
    var out := StockOutTx(t, catalog, issue).value;
    match ActiveReservation(out, hold.reservationKey)
    case None =>
    case Some(i) => GiveBackLeavesActive(out, i, ReleaseTarget(hold.line.productId, out.reservations[i], None), key);
  }

  /** An item touches no reservation but its own. */
  lemma DealtLeavesActive(
    t: Tables, catalog: Catalog, event: OrderEvent, orderId: Id, item: OrderItem, now: int, key: string)
    requires Dealt(t, catalog, event, orderId, item, now).Some? && HoldFor(orderId, item).reservationKey != key
    requires ActiveReservation(t, key).Some?
    ensures ActiveReservation(Dealt(t, catalog, event, orderId, item, now).value, key).Some?
  {
    if item.isStockTracked {
      match event
      case Created => ReserveLeavesActive(t, catalog, HoldFor(orderId, item), key);
      case Paid => SettleLeavesActive(t, catalog, IssueFor(orderId, item, now), HoldFor(orderId, item), key);
      case Cancelled => ReleaseLeavesActive(t, catalog, HoldFor(orderId, item), key);
    }
  }

  lemma {:induction false} AttemptLeavesActive(
    t: Tables, catalog: Catalog, event: OrderEvent, orderId: Id, items: seq<OrderItem>, now: int, item: OrderItem)
    requires forall k :: 0 <= k < |items| ==> items[k].id != item.id
    requires !Dormant(t, event, orderId, item)
    ensures !Dormant(Attempted(t, catalog, event, orderId, items, now).tables, event, orderId, item)
    decreases |items|
  {
    if items != [] && Dealt(t, catalog, event, orderId, items[0], now).Some? {
      if HoldFor(orderId, items[0]).reservationKey == HoldFor(orderId, item).reservationKey {
        HoldKeyIsInjective(orderId, items[0], item);
      }
      DealtLeavesActive(t, catalog, event, orderId, items[0], now, HoldFor(orderId, item).reservationKey);
      AttemptLeavesActive(Dealt(t, catalog, event, orderId, items[0], now).value, catalog, event, orderId,
                          items[1..], now, item);
    }
  }

  /** An attempt that gets beyond an item whose reservation is active closes it, which the rest would not. */
  lemma {:induction false} ActiveIsNotPassedOver(
    t: Tables, catalog: Catalog, event: OrderEvent, orderId: Id, items: seq<OrderItem>, now: int, n: nat, k: nat)
    requires DistinctItems(items) && k < n <= |items| && !Dormant(t, event, orderId, items[k])
    ensures !Resumes(t, catalog, event, orderId, items, now, n)
  {
    if k < Attempted(t, catalog, event, orderId, items, now).done {
      AttemptEffects(t, catalog, event, orderId, items, now, k);
      EffectedIsDormant(Attempted(t, catalog, event, orderId, items, now).tables, event, orderId, items[k]);
      AttemptLeavesActive(t, catalog, event, orderId, items[n..], now, items[k]);
    }
  }

  /** A retry goes on where the last attempt stopped, after whatever else has happened to stock and under the
      master data and at the time of the retry, if and only if none of the items dealt with has an active
      reservation by then, which only one made since can be. */
  lemma {:induction false} RetryResumes(
    t: Tables, catalog: Catalog, event: OrderEvent, orderId: Id, items: seq<OrderItem>, now: int,
    between: seq<Step>, laterCatalog: Catalog, later: int)
    ensures var first := Attempted(t, catalog, event, orderId, items, now);
      var u := Run(first.tables, between);
      && first.done <= |items|
      && (AllDormant(u, event, orderId, items[..first.done]) ==>
            Resumes(u, laterCatalog, event, orderId, items, later, first.done))
      && (DistinctItems(items) && Resumes(u, laterCatalog, event, orderId, items, later, first.done) ==>
            AllDormant(u, event, orderId, items[..first.done]))
      && forall k :: 0 <= k < first.done && ItemReserved(t, event, orderId, items[k]) ==>
           Dormant(u, event, orderId, items[k])
  {
    var first := Attempted(t, catalog, event, orderId, items, now);
    var u := Run(first.tables, between);
    DoneWhenRetried(t, catalog, event, orderId, items, now, between);
    forall k | 0 <= k < first.done && ItemReserved(t, event, orderId, items[k])
      ensures Dormant(u, event, orderId, items[k])
    {
      ReservedIsDormantWhenRetried(t, catalog, event, orderId, items, now, between, k);
    }
    if AllDormant(u, event, orderId, items[..first.done]) {
      AttemptSkips(u, laterCatalog, event, orderId, items, later, first.done);
    } else if DistinctItems(items) {
      var k :| 0 <= k < |items[..first.done]| && !Dormant(u, event, orderId, items[..first.done][k]);
      ActiveIsNotPassedOver(u, laterCatalog, event, orderId, items, later, first.done, k);
    }
  }

  /** When a call gets to the end every item is done, and in effect if its reservation was there. */
  lemma {:induction false} CompletedIsDone(
    t: Tables, catalog: Catalog, event: OrderEvent, orderId: Id, items: seq<OrderItem>, now: int)
    requires Attempted(t, catalog, event, orderId, items, now).done == |items|
    ensures var u := Attempted(t, catalog, event, orderId, items, now).tables;
      && ItemsDone(u, event, orderId, items)
      && forall k :: 0 <= k < |items| && ItemReserved(t, event, orderId, items[k]) ==>
           ItemEffected(u, event, orderId, items[k])
  {
    forall k | 0 <= k < |items|
      ensures var u := Attempted(t, catalog, event, orderId, items, now).tables;
        && ItemDone(u, event, orderId, items[k])
        && (ItemReserved(t, event, orderId, items[k]) ==> ItemEffected(u, event, orderId, items[k]))
    {
      AttemptEffects(t, catalog, event, orderId, items, now, k);
    }
  }

  /** An attempt that leaves the tables as they were and gets to the end met nothing active. */
  lemma {:induction false} UnchangedIsDormant(
    t: Tables, catalog: Catalog, event: OrderEvent, orderId: Id, items: seq<OrderItem>, now: int, k: nat)
    requires k < |items| && Attempted(t, catalog, event, orderId, items, now).done == |items|
    ensures Attempted(t, catalog, event, orderId, items, now).tables == t ==> Dormant(t, event, orderId, items[k])
  {
    var u := Attempted(t, catalog, event, orderId, items, now).tables;
    AttemptEffects(t, catalog, event, orderId, items, now, k);
    if !Dormant(t, event, orderId, items[k]) {
      assert ItemReserved(t, event, orderId, items[k]);
      EffectedIsDormant(u, event, orderId, items[k]);
    }
  }

  /** An order event that has been handled to its end is absorbed when it is delivered again, whatever
      happened to stock in between and whenever that is, if and only if no reservation of its items is
      active by then, which only one made since its handling can be. */
  lemma {:induction false} RedeliveryIsAbsorbed(
    t: Tables, catalog: Catalog, event: OrderEvent, orderId: Id, items: seq<OrderItem>, now: int,
    between: seq<Step>, laterCatalog: Catalog, later: int)
    requires Attempted(t, catalog, event, orderId, items, now).done == |items|
    ensures var u := Run(Attempted(t, catalog, event, orderId, items, now).tables, between);
      && (Attempted(u, laterCatalog, event, orderId, items, later) == Attempt(u, |items|)
          <==> AllDormant(u, event, orderId, items))
      && forall k :: 0 <= k < |items| && ItemReserved(t, event, orderId, items[k]) ==> Dormant(u, event, orderId, items[k])
  {
    var u := Run(Attempted(t, catalog, event, orderId, items, now).tables, between);
    RetryResumes(t, catalog, event, orderId, items, now, between, laterCatalog, later);
    assert items[..|items|] == items;
    if AllDormant(u, event, orderId, items) {
      assert items[|items|..] == [];
    } else if Attempted(u, laterCatalog, event, orderId, items, later) == Attempt(u, |items|) {
      forall k | 0 <= k < |items| ensures Dormant(u, event, orderId, items[k]) {
        UnchangedIsDormant(u, laterCatalog, event, orderId, items, later, k);
      }
    }
  }
}
