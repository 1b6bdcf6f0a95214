/** Order events on their way through the outbox to the stock tables: any number of workers claim, handle,
    fail, die, are released as stuck and start again, item by item, among all other commands. */
module OrderDelivery {
  import opened Common
  import opened Identity
  import opened Ledger
  import opened KeyedCommands
  import opened OrderEvents
  import opened EffectCounts
  import Outbox

  /** The payload of an outbox row. */
  datatype Message = Message(event: OrderEvent, orderId: Id, items: seq<OrderItem>)

  /** Item i of the event at row k. */
  datatype Portion = Portion(k: nat, i: nat)

  /** A worker's call of the handler for an event. */
  datatype Call = Call(worker: Id, k: nat)

  /** cursors: how many items a worker's present call of the handler has dealt with. early: the items that
      were last dealt with before the reservation they close had been made. */
  datatype System = System(
    world: Outbox.World,
    messages: seq<Message>,
    cursors: map<Call, nat>,
    early: set<Portion>,
    tables: Tables)

  datatype SystemStep =
    | Announce(event: OrderEvent, orderId: Id, items: seq<OrderItem>, now: int)
    | Take(worker: Id, picks: set<nat>, now: int)
    | ReleaseStuck(before: int, now: int)
    | RetryFailed(picks: set<nat>, now: int)
    | StartHandler(worker: Id, k: nat)
    | DealWithItem(worker: Id, k: nat, catalog: Catalog, now: int)
    | Finish(worker: Id, k: nat, ok: bool, now: int)
    | Die(worker: Id)
    | MoveStock(catalog: Catalog, command: Command)

  predicate Shaped(s: System) {
    Outbox.Shaped(s.world) && |s.messages| == |s.world.rows|
  }

  predicate Holds(s: System, worker: Id, k: nat)
    requires Shaped(s)
  {
    k < |s.messages| && worker in s.world.holders[k]
  }

  function NameOf(event: OrderEvent): string {
    match event
    case Created => "order.created"
    case Paid => "order.paid"
    case Cancelled => "order.cancelled"
  }

  predicate AtTheEnd(s: System, worker: Id, k: nat) {
    k < |s.messages| && Call(worker, k) in s.cursors && s.cursors[Call(worker, k)] == |s.messages[k].items|
  }

  /** The worker can go on to an item. */
  predicate AtItem(s: System, worker: Id, k: nat) {
    k < |s.messages| && Call(worker, k) in s.cursors && s.cursors[Call(worker, k)] < |s.messages[k].items|
  }

  /** One item of the event that the worker is handling; an item that throws ends the call. */
  function DealtWith(s: System, worker: Id, k: nat, catalog: Catalog, now: int): System
    requires AtItem(s, worker, k)
  {
    var m, c := s.messages[k], s.cursors[Call(worker, k)];
    match Dealt(s.tables, catalog, m.event, m.orderId, m.items[c], now)
    case Some(u) =>
      s.(tables := u, cursors := s.cursors[Call(worker, k) := c + 1],
         early := if ItemReserved(s.tables, m.event, m.orderId, m.items[c]) then s.early - {Portion(k, c)}
                  else s.early + {Portion(k, c)})
    case None => s.(cursors := s.cursors - {Call(worker, k)})
  }

  /** The handler runs while its worker holds the event; the worker marks the event PROCESSED only after
      a call that got to the end, and FAILED at any time. */
  function Advance(s: System, step: SystemStep): (r: System)
    requires Shaped(s)
    ensures Shaped(r)
  {
    match step
    case Announce(event, orderId, items, now) =>
      s.(world := Outbox.Step(s.world, Outbox.Publish(NameOf(event), now)),
         messages := s.messages + [Message(event, orderId, items)])
    case Take(worker, picks, now) => s.(world := Outbox.Step(s.world, Outbox.Claim(worker, picks, now)))
    case ReleaseStuck(before, now) => s.(world := Outbox.Step(s.world, Outbox.ReleaseStuck(before, now)))
    case RetryFailed(picks, now) => s.(world := Outbox.Step(s.world, Outbox.RetryFailed(picks, now)))
    case StartHandler(worker, k) =>
      if Holds(s, worker, k) then s.(cursors := s.cursors[Call(worker, k) := 0]) else s
    case DealWithItem(worker, k, catalog, now) =>
      if Holds(s, worker, k) && AtItem(s, worker, k) then DealtWith(s, worker, k, catalog, now) else s
    case Finish(worker, k, ok, now) =>
      if ok && !AtTheEnd(s, worker, k) then s
      else s.(world := Outbox.Step(s.world, Outbox.Finish(worker, k, ok, now)), cursors := s.cursors - {Call(worker, k)})
    case Die(worker) => s.(world := Outbox.Step(s.world, Outbox.Die(worker)),
                           cursors := map at | at in s.cursors && at.worker != worker :: s.cursors[at])
    case MoveStock(catalog, command) => s.(tables := Apply(s.tables, catalog, command))
  }

  const Start := System(Outbox.World([], [], []), [], map[], {}, Empty)

  function Operate(steps: seq<SystemStep>): (s: System)
    ensures Shaped(s)
  {
    if steps == [] then Start
    else Advance(Operate(steps[..|steps| - 1]), steps[|steps| - 1])
  }

  // ---------------------------------------------------------------- the invariant

  /** An item is done, and in effect unless it was early. */
  ghost predicate Told(s: System, k: nat, i: nat)
    requires k < |s.messages| && i < |s.messages[k].items|
  {
    var m := s.messages[k];
    && ItemDone(s.tables, m.event, m.orderId, m.items[i])
    && (Portion(k, i) in s.early || ItemEffected(s.tables, m.event, m.orderId, m.items[i]))
  }

  ghost predicate DoneUpTo(s: System, k: nat, n: nat)
    requires k < |s.messages|
  {
    n <= |s.messages[k].items| && forall i: nat :: i < n ==> Told(s, k, i)
  }

  ghost predicate CursorTells(s: System, at: Call) {
    at in s.cursors ==> at.k < |s.messages| && DoneUpTo(s, at.k, s.cursors[at])
  }

  ghost predicate StatusTells(s: System, k: nat)
    requires Shaped(s) && k < |s.messages|
  {
    s.world.rows[k].status == Outbox.PROCESSED ==> DoneUpTo(s, k, |s.messages[k].items|)
  }

  ghost predicate EarlyTells(s: System, p: Portion) {
    p in s.early ==> p.k < |s.messages| && s.messages[p.k].event != Created
  }

  ghost predicate Delivering(s: System) {
    && Shaped(s)
    && Counted(s.tables)
    && (forall k :: 0 <= k < |s.messages| ==> StatusTells(s, k))
    && (forall at :: CursorTells(s, at))
    && (forall p :: EarlyTells(s, p))
  }

  // ---------------------------------------------------------------- every step

  /** Messages only grow in number, the tables take nothing back, and what was told stays told. */
  ghost predicate TellsOn(s: System, after: System) {
    && s.messages <= after.messages
    && forall k: nat, i: nat :: k < |s.messages| && i < |s.messages[k].items| && Told(s, k, i) ==> Told(after, k, i)
  }

  lemma DoneUpToLasts(s: System, after: System, k: nat, n: nat)
    requires TellsOn(s, after) && k < |s.messages| && DoneUpTo(s, k, n)
    ensures DoneUpTo(after, k, n)
  {
    assert after.messages[k] == s.messages[k];
  }

  /** A step keeps the invariant when nothing is untold, every cursor is an old one or has been reached, and
      every PROCESSED event is an old one or is done. */
  lemma MovesOn(s: System, after: System)
    requires Delivering(s) && Shaped(after) && Counted(after.tables) && TellsOn(s, after)
    requires forall p :: EarlyTells(after, p)
    requires forall at :: at in after.cursors ==>
      || (at in s.cursors && after.cursors[at] == s.cursors[at])
      || (at.k < |after.messages| && DoneUpTo(after, at.k, after.cursors[at]))
    requires forall k :: 0 <= k < |after.messages| && after.world.rows[k].status == Outbox.PROCESSED ==>
      || (k < |s.messages| && s.world.rows[k].status == Outbox.PROCESSED)
      || DoneUpTo(after, k, |after.messages[k].items|)
    ensures Delivering(after)
  {
    forall at ensures CursorTells(after, at) {
      if at in after.cursors && at in s.cursors && after.cursors[at] == s.cursors[at] {
        assert CursorTells(s, at);
        DoneUpToLasts(s, after, at.k, s.cursors[at]);
      }
    }
    forall k | 0 <= k < |after.messages| ensures StatusTells(after, k) {
      if k < |s.messages| && s.world.rows[k].status == Outbox.PROCESSED {
        assert StatusTells(s, k);
        DoneUpToLasts(s, after, k, |s.messages[k].items|);
        assert after.messages[k] == s.messages[k];
      }
    }
  }

  /** Nothing is told of the outbox and of cursors. */
  lemma SameTells(s: System, after: System)
    requires s.messages <= after.messages && s.tables == after.tables && s.early == after.early
    ensures TellsOn(s, after)
    ensures (forall p :: EarlyTells(s, p)) ==> forall p :: EarlyTells(after, p)
  {
    forall k: nat, i: nat | k < |s.messages| && i < |s.messages[k].items| && Told(s, k, i) ensures Told(after, k, i) {
      assert after.messages[k] == s.messages[k];
    }
    if forall p :: EarlyTells(s, p) {
      forall p ensures EarlyTells(after, p) {
        assert EarlyTells(s, p);
      }
    }
  }

  lemma TablesTell(s: System, u: Tables)
    requires Remembers(s.tables, u)
    ensures TellsOn(s, s.(tables := u))
  {
    forall k: nat, i: nat | k < |s.messages| && i < |s.messages[k].items| && Told(s, k, i)
      ensures Told(s.(tables := u), k, i)
    {
      ItemsStay(s.tables, u, s.messages[k].event, s.messages[k].orderId, s.messages[k].items[i]);
    }
  }

  lemma ApplyRemembers(t: Tables, catalog: Catalog, c: Command)
    ensures Remembers(t, Apply(t, catalog, c))
  {
    if Execute(t, catalog, c).Ok? {
      SuccessTakesEffect(t, catalog, c);
    }
  }

  lemma MoveStockDelivers(s: System, catalog: Catalog, c: Command)
    requires Delivering(s)
    ensures Delivering(Advance(s, MoveStock(catalog, c)))
  {
    var u := Apply(s.tables, catalog, c);
    ApplyRemembers(s.tables, catalog, c);
    CommandIsCounted(s.tables, catalog, c);
    TablesTell(s, u);
    forall p ensures EarlyTells(s.(tables := u), p) {
      assert EarlyTells(s, p);
    }
    MovesOn(s, s.(tables := u));
  }

  lemma DealtIsCounted(t: Tables, catalog: Catalog, m: Message, item: OrderItem, now: int)
    requires Counted(t) && Dealt(t, catalog, m.event, m.orderId, item, now).Some?
    ensures Counted(Dealt(t, catalog, m.event, m.orderId, item, now).value)
  {
    if item.isStockTracked {
      CommandIsCounted(t, catalog, CommandFor(m.event, m.orderId, item, now));
    }
  }

  lemma ItemIsTold(s: System, worker: Id, k: nat, catalog: Catalog, now: int)
    requires AtItem(s, worker, k)
    requires var m, c := s.messages[k], s.cursors[Call(worker, k)];
      Dealt(s.tables, catalog, m.event, m.orderId, m.items[c], now).Some?
    ensures var after := DealtWith(s, worker, k, catalog, now);
      Remembers(s.tables, after.tables) && TellsOn(s, after) && Told(after, k, s.cursors[Call(worker, k)])
  {
    var m, c := s.messages[k], s.cursors[Call(worker, k)];
    var after := DealtWith(s, worker, k, catalog, now);
    DealtIsEffected(s.tables, catalog, m.event, m.orderId, m.items[c], now);
    TablesTell(s, after.tables);
    forall l: nat, i: nat | l < |s.messages| && i < |s.messages[l].items| && Told(s, l, i) ensures Told(after, l, i) {
      assert Told(s.(tables := after.tables), l, i);
    }
  }

  lemma EarlyIsTold(s: System, worker: Id, k: nat, catalog: Catalog, now: int)
    requires AtItem(s, worker, k) && forall p :: EarlyTells(s, p)
    ensures forall p :: EarlyTells(DealtWith(s, worker, k, catalog, now), p)
  {
    forall p ensures EarlyTells(DealtWith(s, worker, k, catalog, now), p) {
      assert EarlyTells(s, p);
    }
  }

  lemma DealWithItemDelivers(s: System, worker: Id, k: nat, catalog: Catalog, now: int)
    requires Delivering(s) && AtItem(s, worker, k)
    ensures Delivering(DealtWith(s, worker, k, catalog, now))
  {
    var m, call := s.messages[k], Call(worker, k);
    var c := s.cursors[call];
    var after := DealtWith(s, worker, k, catalog, now);
    EarlyIsTold(s, worker, k, catalog, now);
    match Dealt(s.tables, catalog, m.event, m.orderId, m.items[c], now)
    case None =>
      SameTells(s, after);
      MovesOn(s, after);
    case Some(u) =>
      DealtIsCounted(s.tables, catalog, m, m.items[c], now);
      ItemIsTold(s, worker, k, catalog, now);
      assert CursorTells(s, call);
      DoneUpToLasts(s, after, k, c);
      assert DoneUpTo(after, k, c + 1);
      MovesOn(s, after);
  }

  lemma AnnounceDelivers(s: System, event: OrderEvent, orderId: Id, items: seq<OrderItem>, now: int)
    requires Delivering(s)
    ensures Delivering(Advance(s, Announce(event, orderId, items, now)))
  {
    var after := Advance(s, Announce(event, orderId, items, now));
    SameTells(s, after);
    MovesOn(s, after);
  }

  /** The same messages, tables and early items: cursors that go or start at nothing, and rows of which none
      becomes PROCESSED that is not done. */
  lemma OutboxMovesOn(s: System, world: Outbox.World, cursors: map<Call, nat>)
    requires Delivering(s) && Outbox.Shaped(world) && |world.rows| == |s.messages|
    requires forall at :: at in cursors ==>
      (at in s.cursors && cursors[at] == s.cursors[at]) || (at.k < |s.messages| && cursors[at] == 0)
    requires forall k :: 0 <= k < |s.messages| && world.rows[k].status == Outbox.PROCESSED ==>
      s.world.rows[k].status == Outbox.PROCESSED || DoneUpTo(s, k, |s.messages[k].items|)
    ensures Delivering(s.(world := world, cursors := cursors))
  {
    var after := s.(world := world, cursors := cursors);
    SameTells(s, after);
    forall k | 0 <= k < |s.messages| && DoneUpTo(s, k, |s.messages[k].items|)
      ensures DoneUpTo(after, k, |s.messages[k].items|)
    {
      DoneUpToLasts(s, after, k, |s.messages[k].items|);
    }
    MovesOn(s, after);
  }

  lemma FinishDelivers(s: System, worker: Id, k: nat, ok: bool, now: int)
    requires Delivering(s)
    ensures Delivering(Advance(s, SystemStep.Finish(worker, k, ok, now)))
  {
    if !ok || AtTheEnd(s, worker, k) {
      assert CursorTells(s, Call(worker, k));
      OutboxMovesOn(s, Outbox.Step(s.world, Outbox.Finish(worker, k, ok, now)), s.cursors - {Call(worker, k)});
    }
  }

  lemma DieDelivers(s: System, worker: Id)
    requires Delivering(s)
    ensures Delivering(Advance(s, SystemStep.Die(worker)))
  {
    var cursors := map at | at in s.cursors && at.worker != worker :: s.cursors[at];
    OutboxMovesOn(s, Outbox.Step(s.world, Outbox.Die(worker)), cursors);
  }

  lemma {:induction false} StepDelivers(s: System, step: SystemStep)
    requires Delivering(s)
    ensures Delivering(Advance(s, step))
  {
    match step
    case Announce(event, orderId, items, now) => AnnounceDelivers(s, event, orderId, items, now);
    case Take(worker, picks, now) => OutboxMovesOn(s, Outbox.Step(s.world, Outbox.Claim(worker, picks, now)), s.cursors);
    case ReleaseStuck(before, now) =>
      OutboxMovesOn(s, Outbox.Step(s.world, Outbox.ReleaseStuck(before, now)), s.cursors);
    case RetryFailed(picks, now) => OutboxMovesOn(s, Outbox.Step(s.world, Outbox.RetryFailed(picks, now)), s.cursors);
    case StartHandler(worker, k) =>
      if Holds(s, worker, k) {
        OutboxMovesOn(s, s.world, s.cursors[Call(worker, k) := 0]);
      }
    case DealWithItem(worker, k, catalog, now) =>
      if Holds(s, worker, k) && AtItem(s, worker, k) {
        DealWithItemDelivers(s, worker, k, catalog, now);
      }
    case Finish(worker, k, ok, now) => FinishDelivers(s, worker, k, ok, now);
    case Die(worker) => DieDelivers(s, worker);
    case MoveStock(catalog, command) => MoveStockDelivers(s, catalog, command);
  }

  lemma {:induction false} OperationsDeliver(steps: seq<SystemStep>)
    ensures Delivering(Operate(steps))
  {
    if steps == [] {
      NothingIsCounted();
    } else {
      OperationsDeliver(steps[..|steps| - 1]);
      StepDelivers(Operate(steps[..|steps| - 1]), steps[|steps| - 1]);
    }
  }

  lemma NothingIsCounted()
    ensures Counted(Empty)
  {
    forall key ensures CountedMovement(Empty, key) && CountedHold(Empty, key) {}
  }

  // ---------------------------------------------------------------- exactly once

  /** How often the item's effects are in the tables: its reservation made, its stock taken out and its
      reservation closed, or its reservation closed. */
  function EffectTimes(t: Tables, m: Message, item: OrderItem): seq<nat> {
    var hold := HoldFor(m.orderId, item).reservationKey;
    match m.event
    case Created => [TimesPublished(t.holdEvents, StockReserved(hold))]
    case Paid =>
      [MovementsWith(t.movements, IssueFor(m.orderId, item, 0).eventKey.value),
       TimesPublished(t.holdEvents, ReservationReleased(hold))]
    case Cancelled => [TimesPublished(t.holdEvents, ReservationReleased(hold))]
  }

  lemma EffectsAreCounted(t: Tables, m: Message, item: OrderItem)
    requires Counted(t) && item.isStockTracked
    ensures var times := EffectTimes(t, m, item);
      && (forall j :: 0 <= j < |times| ==> times[j] <= 1)
      && (ItemDone(t, m.event, m.orderId, item) && m.event != Cancelled ==> times[0] == 1)
      && (ItemEffected(t, m.event, m.orderId, item) ==> forall j :: 0 <= j < |times| ==> times[j] == 1)
  {
    var issue, hold := IssueFor(m.orderId, item, 0), HoldFor(m.orderId, item).reservationKey;
    assert CountedMovement(t, issue.eventKey.value) && CountedHold(t, hold);
    assert CommandFor(m.event, m.orderId, item, 0).DoSettle? ==> m.event == Paid;
  }

  /** In every interleaving of workers, deaths, stuck releases, retries and other commands: no effect of a
      tracked item is in the tables more than once; when the event is PROCESSED, a creation's reservation and
      a payment's stock-out are there exactly once; and so is every effect of an item that was not dealt with
      before its reservation had been made. */
  lemma {:induction false} ItemsActExactlyOnce(steps: seq<SystemStep>, k: nat, i: nat)
    requires k < |Operate(steps).messages| && i < |Operate(steps).messages[k].items|
    requires Operate(steps).messages[k].items[i].isStockTracked
    ensures var s := Operate(steps);
      var m := s.messages[k];
      var times := EffectTimes(s.tables, m, m.items[i]);
      && (forall j :: 0 <= j < |times| ==> times[j] <= 1)
      && (s.world.rows[k].status == Outbox.PROCESSED ==>
            && (m.event != Cancelled ==> times[0] == 1)
            && (Portion(k, i) !in s.early ==> forall j :: 0 <= j < |times| ==> times[j] == 1))
  {
    var s := Operate(steps);
    OperationsDeliver(steps);
    EffectsAreCounted(s.tables, s.messages[k], s.messages[k].items[i]);
    assert StatusTells(s, k);
    if s.world.rows[k].status == Outbox.PROCESSED {
      assert Told(s, k, i);
    }
  }

  // ---------------------------------------------------------------- when an item is early

  /** This step deals with item p before the reservation it closes has been made. */
  predicate DealsEarly(s: System, step: SystemStep, p: Portion)
    requires Shaped(s)
  {
    && step.DealWithItem? && step.k == p.k && Holds(s, step.worker, p.k) && AtItem(s, step.worker, p.k)
    && s.cursors[Call(step.worker, p.k)] == p.i
    && var m := s.messages[p.k];
       && m.items[p.i].isStockTracked && m.event != Created
       && !Known(s.tables, HoldFor(m.orderId, m.items[p.i]).reservationKey)
  }

  lemma OnlyEarlyDealingAdds(s: System, step: SystemStep, p: Portion)
    requires Shaped(s) && p !in s.early && p in Advance(s, step).early
    ensures DealsEarly(s, step, p)
  {}

  /** An item is early only if some step has dealt with it before its reservation was known. */
  lemma {:induction false} EarlyWasDealtWith(steps: seq<SystemStep>, p: Portion) returns (n: nat)
    requires p in Operate(steps).early
    ensures n < |steps| && DealsEarly(Operate(steps[..n]), steps[n], p)
  {
    n := |steps| - 1;
    if p in Operate(steps[..n]).early {
      var l := EarlyWasDealtWith(steps[..n], p);
      assert steps[..n][..l] == steps[..l];
      n := l;
    } else {
      OnlyEarlyDealingAdds(Operate(steps[..n]), steps[n], p);
    }
  }

  lemma StepGoesOn(s: System, step: SystemStep)
    requires Shaped(s)
    ensures s.messages <= Advance(s, step).messages && Remembers(s.tables, Advance(s, step).tables)
  {
    match step
    case MoveStock(catalog, command) => ApplyRemembers(s.tables, catalog, command);
    case DealWithItem(worker, k, catalog, now) =>
      if Holds(s, worker, k) && AtItem(s, worker, k) {
        var m := s.messages[k];
        var item := m.items[s.cursors[Call(worker, k)]];
        if Dealt(s.tables, catalog, m.event, m.orderId, item, now).Some? {
          DealtIsEffected(s.tables, catalog, m.event, m.orderId, item, now);
        }
      }
    case _ =>
  }

  lemma OperateOneMore(steps: seq<SystemStep>, step: SystemStep)
    ensures Operate(steps + [step]) == Advance(Operate(steps), step)
  {
    assert (steps + [step])[..|steps|] == steps;
  }

  lemma {:induction false} OperationsGoOn(steps: seq<SystemStep>, more: seq<SystemStep>)
    ensures Operate(steps).messages <= Operate(steps + more).messages
    ensures Remembers(Operate(steps).tables, Operate(steps + more).tables)
    decreases |more|
  {
    if more == [] {
      assert steps + more == steps;
    } else {
      var front, last := steps + more[..|more| - 1], more[|more| - 1];
      assert front + [last] == steps + more;
      OperationsGoOn(steps, more[..|more| - 1]);
      OperateOneMore(front, last);
      StepGoesOn(Operate(front), last);
    }
  }

  /** Item p closes the reservation with this key. */
  predicate Closes(s: System, p: Portion, key: string) {
    && p.k < |s.messages| && p.i < |s.messages[p.k].items|
    && HoldFor(s.messages[p.k].orderId, s.messages[p.k].items[p.i]).reservationKey == key
  }

  /** Once its reservation is known, an item that is not early will not be. */
  lemma {:induction false} KnownIsNotEarly(steps: seq<SystemStep>, more: seq<SystemStep>, p: Portion, key: string)
    requires p !in Operate(steps).early && Known(Operate(steps).tables, key) && Closes(Operate(steps + more), p, key)
    ensures p !in Operate(steps + more).early
    decreases |more|
  {
    if more == [] {
      assert steps + more == steps;
    } else {
      var front, last := steps + more[..|more| - 1], more[|more| - 1];
      assert front + [last] == steps + more;
      OperateOneMore(front, last);
      var s := Operate(front);
      StepGoesOn(s, last);
      OperationsGoOn(steps, more[..|more| - 1]);
      OperationsDeliver(front);
      if p.k < |s.messages| {
        KnownIsNotEarly(steps, more[..|more| - 1], p, key);
      } else {
        assert EarlyTells(s, p);
      }
      if p in Advance(s, last).early {
        OnlyEarlyDealingAdds(s, last, p);
        assert false;
      }
    }
  }

  lemma ProcessedCreationIsKnown(steps: seq<SystemStep>, j: nat, l: nat)
    requires j < |Operate(steps).messages| && l < |Operate(steps).messages[j].items|
    requires var s := Operate(steps);
      && s.world.rows[j].status == Outbox.PROCESSED && s.messages[j].event == Created
      && s.messages[j].items[l].isStockTracked
    ensures var m := Operate(steps).messages[j];
      Known(Operate(steps).tables, HoldFor(m.orderId, m.items[l]).reservationKey)
  {
    var s := Operate(steps);
    OperationsDeliver(steps);
    assert StatusTells(s, j);
    assert Told(s, j, l);
  }

  /** It is enough that the order's creation is PROCESSED before the item is dealt with, whenever and in which
      transaction the two events were published. */
  lemma {:induction false} CreationFirstIsEnough(
    steps: seq<SystemStep>, more: seq<SystemStep>, j: nat, l: nat, k: nat, i: nat)
    requires var s := Operate(steps);
      && j < |s.messages| && s.messages[j].event == Created && s.world.rows[j].status == Outbox.PROCESSED
      && l < |s.messages[j].items| && s.messages[j].items[l].isStockTracked && Portion(k, i) !in s.early
    requires var m, after := Operate(steps).messages[j], Operate(steps + more);
      && k < |after.messages| && i < |after.messages[k].items| && after.messages[k].items[i].isStockTracked
      && after.messages[k].orderId == m.orderId && after.messages[k].items[i].id == m.items[l].id
    ensures var after := Operate(steps + more);
      var times := EffectTimes(after.tables, after.messages[k], after.messages[k].items[i]);
      after.world.rows[k].status == Outbox.PROCESSED ==> forall e :: 0 <= e < |times| ==> times[e] == 1
  {
    var m := Operate(steps).messages[j];
    ProcessedCreationIsKnown(steps, j, l);
    KnownIsNotEarly(steps, more, Portion(k, i), HoldFor(m.orderId, m.items[l]).reservationKey);
    ItemsActExactlyOnce(steps + more, k, i);
  }

  // ---------------------------------------------------------------- the outbox in it

  /** What the outbox sees of a step. */
  function WorkerStepOf(s: System, step: SystemStep): Option<Outbox.WorkerStep> {
    match step
    case Announce(event, _, _, now) => Some(Outbox.Publish(NameOf(event), now))
    case Take(worker, picks, now) => Some(Outbox.Claim(worker, picks, now))
    case ReleaseStuck(before, now) => Some(Outbox.ReleaseStuck(before, now))
    case RetryFailed(picks, now) => Some(Outbox.RetryFailed(picks, now))
    case Finish(worker, k, ok, now) =>
      if ok && !AtTheEnd(s, worker, k) then None else Some(Outbox.Finish(worker, k, ok, now))
    case Die(worker) => Some(Outbox.Die(worker))
    case _ => None
  }

  function WorkerSteps(steps: seq<SystemStep>): seq<Outbox.WorkerStep> {
    if steps == [] then []
    else
      var last := |steps| - 1;
      var earlier := WorkerSteps(steps[..last]);
      match WorkerStepOf(Operate(steps[..last]), steps[last])
      case None => earlier
      case Some(step) => earlier + [step]
  }

  lemma WorldMoves(s: System, step: SystemStep)
    requires Shaped(s)
    ensures Advance(s, step).world
         == match WorkerStepOf(s, step) case None => s.world case Some(w) => Outbox.Step(s.world, w)
  {}

  /** The outbox of any operation has run by its own steps, so what is proved of its runs holds here:
      attempts and holders are bounded, and dead letters stay dead. */
  lemma {:induction false} WorldIsAnOutboxRun(steps: seq<SystemStep>)
    ensures Operate(steps).world == Outbox.Run(WorkerSteps(steps))
  {
    if steps != [] {
      var last := |steps| - 1;
      WorldIsAnOutboxRun(steps[..last]);
      WorldMoves(Operate(steps[..last]), steps[last]);
      match WorkerStepOf(Operate(steps[..last]), steps[last])
      case None =>
      case Some(step) => Outbox.RunOfOneMore(WorkerSteps(steps[..last]), step);
    }
  }
}
