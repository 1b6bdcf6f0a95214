/** Dispatch to handlers and the processing of claimed events (infrastructure/event-bus/
    event-bus.service.ts, infrastructure/event-bus/outbox-processor.service.ts). */
module EventBus {
  import opened Common
  import opened Outbox
  import opened OutboxDrain

  datatype Mode = SYNC | ASYNC

  /** A registration; id tells registrations apart. */
  datatype Handler = Handler(id: Id, eventName: string, mode: Mode, priority: int, retries: nat)

  datatype Call = Call(handler: Handler, event: nat, attempt: nat)

  const Wildcard := "*"

  // ---------------------------------------------------------------- one handler

  /** The calls made of one handler: again after each failure, up to its retries. */
  function Calls(h: Handler, event: nat, attempt: nat, works: Call -> bool): seq<Call>
    decreases h.retries - attempt
  {
    var call := Call(h, event, attempt);
    if works(call) || attempt >= h.retries then [call] else [call] + Calls(h, event, attempt + 1, works)
  }

  predicate Succeeds(h: Handler, event: nat, attempt: nat, works: Call -> bool)
    decreases h.retries - attempt
  {
    works(Call(h, event, attempt)) || (attempt < h.retries && Succeeds(h, event, attempt + 1, works))
  }

  lemma {:induction false} CallsAreInTurn(h: Handler, event: nat, attempt: nat, works: Call -> bool)
    requires attempt <= h.retries
    ensures 1 <= |Calls(h, event, attempt, works)| <= h.retries + 1 - attempt
    ensures forall i :: 0 <= i < |Calls(h, event, attempt, works)| ==>
      Calls(h, event, attempt, works)[i] == Call(h, event, attempt + i)
    decreases h.retries - attempt
  {
    if !works(Call(h, event, attempt)) && attempt < h.retries {
      CallsAreInTurn(h, event, attempt + 1, works);
    }
  }

  lemma {:induction false} OnlyTheLastCallSucceeds(h: Handler, event: nat, attempt: nat, works: Call -> bool)
    requires attempt <= h.retries
    ensures var calls := Calls(h, event, attempt, works);
      && calls != []
      && (forall i :: 0 <= i < |calls| - 1 ==> !works(calls[i]))
      && (Succeeds(h, event, attempt, works) <==> works(calls[|calls| - 1]))
      && (!Succeeds(h, event, attempt, works) ==> |calls| == h.retries + 1 - attempt)
    decreases h.retries - attempt
  {
    if !works(Call(h, event, attempt)) && attempt < h.retries {
      OnlyTheLastCallSucceeds(h, event, attempt + 1, works);
      var rest := Calls(h, event, attempt + 1, works);
      var calls := Calls(h, event, attempt, works);
      assert calls == [Call(h, event, attempt)] + rest;
      assert calls[|calls| - 1] == rest[|rest| - 1];
    }
  }

  /** A handler is called once for each attempt in turn, at most retries + 1 times, never again after a
      success, and has succeeded exactly when its last call did. */
  lemma CallsAreBounded(h: Handler, event: nat, works: Call -> bool)
    ensures var calls := Calls(h, event, 0, works);
      && 1 <= |calls| <= h.retries + 1
      && (forall i :: 0 <= i < |calls| ==> calls[i] == Call(h, event, i))
      && (forall i :: 0 <= i < |calls| - 1 ==> !works(calls[i]))
      && (Succeeds(h, event, 0, works) <==> works(calls[|calls| - 1]))
      && (!Succeeds(h, event, 0, works) ==> |calls| == h.retries + 1)
  {
    CallsAreInTurn(h, event, 0, works);
    OnlyTheLastCallSucceeds(h, event, 0, works);
  }

  // ---------------------------------------------------------------- all handlers of an event

  /** Array.sort is stable: a handler goes behind those of its own priority that came before it. */
  function Insert(sorted: seq<Handler>, h: Handler): (r: seq<Handler>)
    ensures |r| == |sorted| + 1
  {
    if sorted == [] || h.priority >= sorted[|sorted| - 1].priority then sorted + [h]
    else Insert(sorted[..|sorted| - 1], h) + [sorted[|sorted| - 1]]
  }

  function SortByPriority(handlers: seq<Handler>): (r: seq<Handler>)
    ensures |r| == |handlers|
  {
    if handlers == [] then []
    else Insert(SortByPriority(handlers[..|handlers| - 1]), handlers[|handlers| - 1])
  }

  function OfMode(handlers: seq<Handler>, mode: Mode): seq<Handler> {
    if handlers == [] then []
    else if handlers[0].mode == mode then [handlers[0]] + OfMode(handlers[1..], mode)
    else OfMode(handlers[1..], mode)
  }

  function OfPriority(handlers: seq<Handler>, priority: int): seq<Handler> {
    if handlers == [] then []
    else
      var last := |handlers| - 1;
      var earlier := OfPriority(handlers[..last], priority);
      if handlers[last].priority == priority then earlier + [handlers[last]] else earlier
  }

  ghost predicate Ordered(handlers: seq<Handler>) {
    forall i, j :: 0 <= i < j < |handlers| ==> handlers[i].priority <= handlers[j].priority
  }

  lemma {:induction false} InsertKeepsHandlers(sorted: seq<Handler>, h: Handler)
    ensures multiset(Insert(sorted, h)) == multiset(sorted) + multiset{h}
  {
    if sorted != [] && h.priority < sorted[|sorted| - 1].priority {
      InsertKeepsHandlers(sorted[..|sorted| - 1], h);
      assert sorted == sorted[..|sorted| - 1] + [sorted[|sorted| - 1]];
    }
  }

  lemma {:induction false} InsertKeepsOrder(sorted: seq<Handler>, h: Handler, bound: int)
    requires Ordered(sorted) && h.priority <= bound
    requires forall i :: 0 <= i < |sorted| ==> sorted[i].priority <= bound
    ensures Ordered(Insert(sorted, h))
    ensures forall i :: 0 <= i <= |sorted| ==> Insert(sorted, h)[i].priority <= bound
  {
    if sorted != [] && h.priority < sorted[|sorted| - 1].priority {
      InsertKeepsOrder(sorted[..|sorted| - 1], h, sorted[|sorted| - 1].priority);
    }
  }

  lemma {:induction false} InsertIsStable(sorted: seq<Handler>, h: Handler, priority: int)
    requires Ordered(sorted)
    ensures OfPriority(Insert(sorted, h), priority)
         == OfPriority(sorted, priority) + if h.priority == priority then [h] else []
  {
    var r := Insert(sorted, h);
    if sorted != [] && h.priority < sorted[|sorted| - 1].priority {
      var last := |sorted| - 1;
      InsertIsStable(sorted[..last], h, priority);
      assert r[..last + 1] == Insert(sorted[..last], h);
      if h.priority == priority {
        NoneOfHigherPriority(sorted, h, priority);
      }
    } else {
      assert r[..|sorted|] == sorted;
    }
  }

  lemma NoneOfHigherPriority(sorted: seq<Handler>, h: Handler, priority: int)
    requires Ordered(sorted) && sorted != [] && h.priority < sorted[|sorted| - 1].priority && h.priority == priority
    ensures sorted[|sorted| - 1].priority != priority
  {}

  lemma {:induction false} SortIsOrdered(handlers: seq<Handler>)
    ensures Ordered(SortByPriority(handlers))
  {
    if handlers != [] {
      var last := |handlers| - 1;
      SortIsOrdered(handlers[..last]);
      var sorted := SortByPriority(handlers[..last]);
      var bound := if sorted == [] || handlers[last].priority > sorted[last - 1].priority
        then handlers[last].priority else sorted[last - 1].priority;
      InsertKeepsOrder(sorted, handlers[last], bound);
    }
  }

  lemma {:induction false} SortKeepsHandlers(handlers: seq<Handler>)
    ensures multiset(SortByPriority(handlers)) == multiset(handlers)
  {
    if handlers != [] {
      var last := |handlers| - 1;
      SortKeepsHandlers(handlers[..last]);
      InsertKeepsHandlers(SortByPriority(handlers[..last]), handlers[last]);
      assert handlers == handlers[..last] + [handlers[last]];
    }
  }

  /** Handlers run in priority order, and in registration order within a priority. */
  lemma {:induction false} SortIsStable(handlers: seq<Handler>, priority: int)
    ensures Ordered(SortByPriority(handlers))
    ensures multiset(SortByPriority(handlers)) == multiset(handlers)
    ensures OfPriority(SortByPriority(handlers), priority) == OfPriority(handlers, priority)
  {
    SortIsOrdered(handlers);
    SortKeepsHandlers(handlers);
    if handlers != [] {
      var last := |handlers| - 1;
      SortIsStable(handlers[..last], priority);
      InsertIsStable(SortByPriority(handlers[..last]), handlers[last], priority);
    }
  }

  // ---------------------------------------------------------------- dispatch

  /** Calls of the SYNC handlers, stopping behind the first that fails for good. */
  function DispatchCalls(syncs: seq<Handler>, event: nat, works: Call -> bool): seq<Call> {
    if syncs == [] then []
    else
      Calls(syncs[0], event, 0, works)
      + if Succeeds(syncs[0], event, 0, works) then DispatchCalls(syncs[1..], event, works) else []
  }

  predicate DispatchSucceeds(syncs: seq<Handler>, event: nat, works: Call -> bool) {
    forall h :: h in syncs ==> Succeeds(h, event, 0, works)
  }

  function CallsOf(calls: seq<Call>, h: Handler): nat {
    if calls == [] then 0 else (if calls[0].handler == h then 1 else 0) + CallsOf(calls[1..], h)
  }

  lemma {:induction false} CallsOfConcat(xs: seq<Call>, ys: seq<Call>, h: Handler)
    ensures CallsOf(xs + ys, h) == CallsOf(xs, h) + CallsOf(ys, h)
  {
    if xs == [] {
      assert xs + ys == ys;
    } else {
      assert (xs + ys)[1..] == xs[1..] + ys;
      CallsOfConcat(xs[1..], ys, h);
    }
  }

  lemma {:induction false} CallsOfOne(calls: seq<Call>, other: Handler, h: Handler)
    requires forall i :: 0 <= i < |calls| ==> calls[i].handler == other
    ensures CallsOf(calls, h) == if h == other then |calls| else 0
  {
    if calls != [] {
      CallsOfOne(calls[1..], other, h);
    }
  }

  ghost predicate NoRepeats(handlers: seq<Handler>) {
    forall i, j :: 0 <= i < j < |handlers| ==> handlers[i] != handlers[j]
  }

  /** One dispatch calls each SYNC handler at most retries + 1 times, and calls none that it does not
      have; when it succeeds, each has been called. */
  lemma {:induction false} DispatchIsBounded(syncs: seq<Handler>, event: nat, works: Call -> bool, h: Handler)
    requires NoRepeats(syncs)
    ensures CallsOf(DispatchCalls(syncs, event, works), h) <= if h in syncs then h.retries + 1 else 0
    ensures DispatchSucceeds(syncs, event, works) && h in syncs ==> CallsOf(DispatchCalls(syncs, event, works), h) >= 1
  {
    if syncs != [] {
      var first := syncs[0];
      var rest := if Succeeds(first, event, 0, works) then DispatchCalls(syncs[1..], event, works) else [];
      CallsAreBounded(first, event, works);
      CallsOfOne(Calls(first, event, 0, works), first, h);
      CallsOfConcat(Calls(first, event, 0, works), rest, h);
      DispatchIsBounded(syncs[1..], event, works, h);
      assert h == first ==> h !in syncs[1..];
      assert forall g :: g in syncs[1..] ==> g in syncs;
    }
  }

  /** made are the calls up to handler i; what is left for the rest follows them. */
  ghost predicate MadeSoFar(syncs: seq<Handler>, i: nat, event: nat, works: Call -> bool, made: seq<Call>) {
    i <= |syncs| && DispatchCalls(syncs, event, works) == made + DispatchCalls(syncs[i..], event, works)
  }

  lemma NothingMadeYet(syncs: seq<Handler>, event: nat, works: Call -> bool)
    ensures MadeSoFar(syncs, 0, event, works, [])
  {}

  lemma NextHandler(syncs: seq<Handler>, i: nat, event: nat, works: Call -> bool, made: seq<Call>)
    requires i < |syncs| && MadeSoFar(syncs, i, event, works, made)
    ensures var next := made + Calls(syncs[i], event, 0, works);
      if Succeeds(syncs[i], event, 0, works) then MadeSoFar(syncs, i + 1, event, works, next)
      else DispatchCalls(syncs, event, works) == next
  {
    assert syncs[i..][1..] == syncs[i + 1..];
  }

  lemma AllMade(syncs: seq<Handler>, event: nat, works: Call -> bool, made: seq<Call>)
    requires MadeSoFar(syncs, |syncs|, event, works, made)
    ensures DispatchCalls(syncs, event, works) == made
  {}

  lemma Regroup(x: seq<Call>, y: seq<Call>, z: seq<Call>)
    ensures (x + y) + z == x + (y + z)
  {}

  // ---------------------------------------------------------------- the services

  type Registry = map<string, seq<Handler>>

  function Registered(handlers: Registry, name: string): seq<Handler> {
    if name in handlers then handlers[name] else []
  }

  /** The handlers an event meets, by priority: its own and the wildcard's. */
  function HandlersFor(handlers: Registry, name: string): seq<Handler> {
    SortByPriority(Registered(handlers, name) + Registered(handlers, Wildcard))
  }

  function SyncsFor(handlers: Registry, name: string): seq<Handler> {
    OfMode(HandlersFor(handlers, name), SYNC)
  }

  function Queued(asyncs: seq<Handler>, event: nat): (r: seq<(Handler, nat)>)
    ensures |r| == |asyncs|
  {
    seq(|asyncs|, i requires 0 <= i < |asyncs| => (asyncs[i], event))
  }

  /** How the dispatch of row k ends: by its SYNC handlers alone. */
  function MarkOf(handlers: Registry, rows: seq<Row>, works: Call -> bool, times: nat -> int, k: nat): Mark {
    Mark(k < |rows| && DispatchSucceeds(SyncsFor(handlers, rows[k].eventName), k, works), times(k))
  }

  function MarksOf(handlers: Registry, rows: seq<Row>, works: Call -> bool, times: nat -> int): nat -> Mark {
    (k: nat) => MarkOf(handlers, rows, works, times, k)
  }

  class OutboxRepository {
    var rows: seq<Row>

    constructor ()
      ensures rows == []
    {
      rows := [];
    }

    method Create(eventName: string, now: int)
      modifies this
      ensures rows == old(rows) + [Row(eventName, PENDING, 0, None, now)]
    {
      rows := rows + [Row(eventName, PENDING, 0, None, now)];
    }

    method ClaimPendingBatch(now: int) returns (events: seq<nat>)
      modifies this
      ensures events == FirstClaimable(old(rows), now, BatchLimit, 0)
      ensures rows == Claimed(old(rows), Picked(old(rows), now), now)
    {
      var before := rows;
      events := FirstClaimable(rows, now, BatchLimit, 0);
      var i := 0;
      while i < |events|
        invariant i <= |events|
        invariant rows == Claimed(before, Positions(events[..i]), now)
      {
        var k := events[i];
        ClaimOneMore(before, events, i, now);
        rows := rows[k := rows[k].(status := PROCESSING, lockedAt := Some(now), attempts := rows[k].attempts + 1)];
        i := i + 1;
      }
      assert events[..i] == events;
    }

    method ReleaseStuckProcessing(before: int, now: int)
      modifies this
      ensures rows == Released(old(rows), before, now)
    {
      rows := Released(rows, before, now);
    }

    method MarkProcessed(k: nat)
      requires k < |rows|
      modifies this
      ensures rows == old(rows)[k := MarkedRow(old(rows)[k], Mark(true, 0))]
    {
      rows := rows[k := rows[k].(status := PROCESSED, lockedAt := None)];
    }

    method MarkFailed(k: nat, now: int)
      requires k < |rows|
      modifies this
      ensures rows == old(rows)[k := MarkedRow(old(rows)[k], Mark(false, now))]
    {
      rows := rows[k := rows[k].(status := FAILED, lockedAt := None, availableAt := now)];
    }

    method RetryFailed(picks: set<nat>, now: int)
      modifies this
      ensures rows == Retried(old(rows), picks, now)
    {
      rows := Retried(rows, picks, now);
    }
  }

  class EventBusService {
    const outbox: OutboxRepository
    var handlers: Registry
    var calls: seq<Call>
    var queue: seq<(Handler, nat)>

    constructor (outbox: OutboxRepository)
      ensures this.outbox == outbox && handlers == map[] && calls == [] && queue == []
    {
      this.outbox := outbox;
      handlers, calls, queue := map[], [], [];
    }

    method Register(h: Handler)
      modifies this`handlers
      ensures handlers == old(handlers)[h.eventName := Registered(old(handlers), h.eventName) + [h]]
    {
      handlers := handlers[h.eventName := Registered(handlers, h.eventName) + [h]];
    }

    method Invoke(h: Handler, event: nat, attempt: nat, works: Call -> bool) returns (ok: bool)
      modifies this`calls
      ensures calls == old(calls) + Calls(h, event, attempt, works)
      ensures ok == Succeeds(h, event, attempt, works)
      decreases h.retries - attempt
    {
      var call := Call(h, event, attempt);
      calls := calls + [call];
      if works(call) {
        return true;
      }
      if attempt < h.retries {
        ok := Invoke(h, event, attempt + 1, works);
        return ok;
      }
      ok := false;
    }

    /** The SYNC loop of dispatch: one after the other, up to the first that fails for good. */
    method InvokeEach(syncs: seq<Handler>, event: nat, works: Call -> bool) returns (ok: bool)
      modifies this`calls
      ensures ok == DispatchSucceeds(syncs, event, works)
      ensures calls == old(calls) + DispatchCalls(syncs, event, works)
    {
      ghost var before, made: seq<Call> := calls, [];
      NothingMadeYet(syncs, event, works);
      var i := 0;
      while i < |syncs|
        invariant MadeSoFar(syncs, i, event, works, made) && calls == before + made
        invariant forall j :: 0 <= j < i ==> Succeeds(syncs[j], event, 0, works)
      {
        NextHandler(syncs, i, event, works, made);
        Regroup(before, made, Calls(syncs[i], event, 0, works));
        made := made + Calls(syncs[i], event, 0, works);
        ok := Invoke(syncs[i], event, 0, works);
        if !ok {
          assert syncs[i] in syncs;
          return;
        }
        i := i + 1;
      }
      AllMade(syncs, event, works, made);
      ok := true;
    }

    /** The ASYNC handlers are queued once the SYNC ones have all succeeded. */
    method Dispatch(name: string, event: nat, works: Call -> bool) returns (ok: bool)
      modifies this`calls, this`queue
      ensures ok == DispatchSucceeds(SyncsFor(handlers, name), event, works)
      ensures calls == old(calls) + DispatchCalls(SyncsFor(handlers, name), event, works)
      ensures queue == old(queue) + if ok then Queued(OfMode(HandlersFor(handlers, name), ASYNC), event) else []
    {
      ok := InvokeEach(SyncsFor(handlers, name), event, works);
      if ok {
        queue := queue + Queued(OfMode(HandlersFor(handlers, name), ASYNC), event);
      }
    }

    /** One turn of the batch loop: dispatch, then mark by the outcome. */
    method ProcessEvent(k: nat, works: Call -> bool, at: int)
      requires k < |outbox.rows|
      modifies this`calls, this`queue, outbox
      ensures outbox.rows == old(outbox.rows)[k := MarkedRow(old(outbox.rows)[k],
        Mark(DispatchSucceeds(SyncsFor(handlers, old(outbox.rows)[k].eventName), k, works), at))]
    {
      var ok := Dispatch(outbox.rows[k].eventName, k, works);
      if ok {
        outbox.MarkProcessed(k);
      } else {
        outbox.MarkFailed(k, at);
      }
    }

    method ProcessOutboxBatch(now: int, works: Call -> bool, times: nat -> int) returns (processed: nat)
      modifies this`calls, this`queue, outbox
      ensures outbox.rows == Batch(old(outbox.rows), now, MarksOf(handlers, old(outbox.rows), works, times))
      ensures processed == |FirstClaimable(old(outbox.rows), now, BatchLimit, 0)|
    {
      ghost var before := outbox.rows;
      ghost var marks := MarksOf(handlers, before, works, times);
      var events := outbox.ClaimPendingBatch(now);
      ghost var claimed := outbox.rows;
      var i := 0;
      while i < |events|
        invariant i <= |events| && outbox.rows == MarkedUpTo(claimed, events, i, marks)
      {
        MarkOneMore(claimed, events, i, marks);
        assert claimed[events[i]].eventName == before[events[i]].eventName;
        ProcessEvent(events[i], works, times(events[i]));
        i := i + 1;
      }
      AllMarkedIsBatch(before, now, marks);
      processed := |events|;
    }
  }

  lemma SameNamesSameBatch(rows: seq<Row>, earlier: seq<Row>, now: int, handlers: Registry, works: Call -> bool,
                           times: nat -> int)
    requires |rows| == |earlier| && forall k :: 0 <= k < |rows| ==> rows[k].eventName == earlier[k].eventName
    ensures Batch(rows, now, MarksOf(handlers, rows, works, times))
         == Batch(rows, now, MarksOf(handlers, earlier, works, times))
  {}

  /** Release, retry and batch are a cycle; the marks go by the event names, which none of them changes. */
  lemma ThreeStepsAreACycle(rows: seq<Row>, now: int, retries: set<nat>, handlers: Registry, works: Call -> bool,
                            times: nat -> int)
    ensures var ready := Retried(Released(rows, now - IntervalMs * 12, now), retries, now);
      Batch(ready, now, MarksOf(handlers, ready, works, times))
      == OutboxDrain.RunCycle(rows, Cycle(now, retries, MarksOf(handlers, rows, works, times)))
  {
    NamesStay(rows, now - IntervalMs * 12, retries, now);
    SameNamesSameBatch(Retried(Released(rows, now - IntervalMs * 12, now), retries, now), rows, now, handlers, works, times);
  }

  class OutboxProcessor {
    const outbox: OutboxRepository
    const eventBus: EventBusService
    var running: bool

    constructor (eventBus: EventBusService)
      ensures this.eventBus == eventBus && outbox == eventBus.outbox && !running
    {
      this.eventBus, this.outbox, running := eventBus, eventBus.outbox, false;
    }

    method ReleaseRetryProcess(now: int, retries: set<nat>, works: Call -> bool, times: nat -> int)
      requires outbox == eventBus.outbox
      modifies eventBus`calls, eventBus`queue, outbox
      ensures var ready := Retried(Released(old(outbox.rows), now - IntervalMs * 12, now), retries, now);
        outbox.rows == Batch(ready, now, MarksOf(eventBus.handlers, ready, works, times))
    {
      outbox.ReleaseStuckProcessing(now - IntervalMs * 12, now);
      outbox.RetryFailed(retries, now);
      var processed := eventBus.ProcessOutboxBatch(now, works, times);
    }

    /** A tick while a cycle is running does nothing. */
    method RunCycle(now: int, retries: set<nat>, works: Call -> bool, times: nat -> int)
      requires outbox == eventBus.outbox
      modifies this, eventBus`calls, eventBus`queue, outbox
      ensures running == old(running)
      ensures old(running) ==> outbox.rows == old(outbox.rows)
      ensures !old(running) ==>
        outbox.rows == OutboxDrain.RunCycle(old(outbox.rows),
          Cycle(now, retries, MarksOf(eventBus.handlers, old(outbox.rows), works, times)))
    {
      if running {
        return;
      }
      running := true;
      ThreeStepsAreACycle(outbox.rows, now, retries, eventBus.handlers, works, times);
      ReleaseRetryProcess(now, retries, works, times);
      running := false;
    }
  }
}
