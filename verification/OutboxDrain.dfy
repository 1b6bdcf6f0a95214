/** One outbox processor at work (infrastructure/event-bus/outbox-processor.service.ts): every cycle
    retries, claims and marks, and the table drains. */
module OutboxDrain {
  import opened Common
  import opened Outbox

  const IntervalMs := 5000
  const BatchLimit := 100

  /** How the dispatch of an event in a cycle ended, and when it was marked. */
  datatype Mark = Mark(ok: bool, at: int)

  /** What a cycle finds out as it goes: the clock, which failed rows come first by updatedAt, and how
      each dispatch ends. */
  datatype Cycle = Cycle(now: int, retries: set<nat>, marks: nat -> Mark)

  // ---------------------------------------------------------------- one cycle

  /** The first claimable rows from position k on, in creation order. */
  function FirstClaimable(rows: seq<Row>, now: int, limit: nat, k: nat): (r: seq<nat>)
    requires k <= |rows|
    ensures |r| <= limit
    ensures forall i :: 0 <= i < |r| ==> k <= r[i] < |rows| && Claimable(rows[r[i]], now)
    ensures forall i, j :: 0 <= i < j < |r| ==> r[i] < r[j]
    decreases |rows| - k
  {
    if k == |rows| || limit == 0 then []
    else if Claimable(rows[k], now) then [k] + FirstClaimable(rows, now, limit - 1, k + 1)
    else FirstClaimable(rows, now, limit, k + 1)
  }

  /** The claimed rows are the oldest claimable ones, as many as the limit admits: a claimable row is left
      out only when the limit is reached with rows before it. */
  lemma {:induction false} OldestAreClaimed(rows: seq<Row>, now: int, limit: nat, k: nat, j: nat)
    requires k <= j < |rows| && Claimable(rows[j], now)
    ensures var r := FirstClaimable(rows, now, limit, k);
      j in r || (|r| == limit && forall i :: 0 <= i < |r| ==> r[i] < j)
    decreases |rows| - k
  {
    if limit > 0 && k < j {
      var more := FirstClaimable(rows, now, if Claimable(rows[k], now) then limit - 1 else limit, k + 1);
      OldestAreClaimed(rows, now, if Claimable(rows[k], now) then limit - 1 else limit, k + 1, j);
      if Claimable(rows[k], now) {
        assert FirstClaimable(rows, now, limit, k) == [k] + more;
        assert j in more ==> j in [k] + more;
      }
    }
  }

  function Positions(picks: seq<nat>): set<nat> {
    set k | k in picks
  }

  function Picked(rows: seq<Row>, now: int): set<nat> {
    Positions(FirstClaimable(rows, now, BatchLimit, 0))
  }

  /** Claiming the rows of a list one after the other. */
  lemma ClaimOneMore(rows: seq<Row>, events: seq<nat>, i: nat, now: int)
    requires i < |events| && events[i] < |rows| && Claimable(rows[events[i]], now)
    requires forall j :: 0 <= j < i ==> events[j] < events[i]
    ensures var before, k := Claimed(rows, Positions(events[..i]), now), events[i];
      Claimed(rows, Positions(events[..i + 1]), now)
      == before[k := before[k].(status := PROCESSING, lockedAt := Some(now), attempts := before[k].attempts + 1)]
  {
    assert events[..i + 1] == events[..i] + [events[i]];
    assert events[i] !in Positions(events[..i]);
    assert Positions(events[..i + 1]) == Positions(events[..i]) + {events[i]};
  }

  function MarkedRow(r: Row, m: Mark): Row {
    if m.ok then r.(status := PROCESSED, lockedAt := None)
    else r.(status := FAILED, lockedAt := None, availableAt := m.at)
  }

  /** processOutboxBatch: the claimed rows end up marked, each by its own dispatch. */
  function Batch(rows: seq<Row>, now: int, marks: nat -> Mark): (r: seq<Row>)
    ensures |r| == |rows|
  {
    var claimed := Claimed(rows, Picked(rows, now), now);
    seq(|rows|, k requires 0 <= k < |rows| =>
      if k in Picked(rows, now) then MarkedRow(claimed[k], marks(k)) else claimed[k])
  }

  /** The claimed rows once the first n of the events have been marked. */
  function MarkedUpTo(claimed: seq<Row>, events: seq<nat>, n: nat, marks: nat -> Mark): (r: seq<Row>)
    requires n <= |events|
    ensures |r| == |claimed|
  {
    seq(|claimed|, k requires 0 <= k < |claimed| =>
      if k in events[..n] then MarkedRow(claimed[k], marks(k)) else claimed[k])
  }

  lemma MarkOneMore(claimed: seq<Row>, events: seq<nat>, n: nat, marks: nat -> Mark)
    requires n < |events| && events[n] < |claimed| && events[n] !in events[..n]
    ensures var before, k := MarkedUpTo(claimed, events, n, marks), events[n];
      && before[k] == claimed[k]
      && MarkedUpTo(claimed, events, n + 1, marks) == before[k := MarkedRow(claimed[k], marks(k))]
  {}

  lemma AllMarkedIsBatch(rows: seq<Row>, now: int, marks: nat -> Mark)
    ensures var events := FirstClaimable(rows, now, BatchLimit, 0);
      MarkedUpTo(Claimed(rows, Picked(rows, now), now), events, |events|, marks) == Batch(rows, now, marks)
  {}

  lemma NamesStay(rows: seq<Row>, before: int, picks: set<nat>, now: int)
    ensures var ready := Retried(Released(rows, before, now), picks, now);
      forall k :: 0 <= k < |rows| ==> ready[k].eventName == rows[k].eventName
  {}

  function RunCycle(rows: seq<Row>, c: Cycle): (r: seq<Row>)
    ensures |r| == |rows|
  {
    Batch(Retried(Released(rows, c.now - IntervalMs * 12, c.now), c.retries, c.now), c.now, c.marks)
  }

  function RunCycles(rows: seq<Row>, cycles: seq<Cycle>): (r: seq<Row>)
    ensures |r| == |rows|
  {
    if cycles == [] then rows
    else RunCycle(RunCycles(rows, cycles[..|cycles| - 1]), cycles[|cycles| - 1])
  }

  // ---------------------------------------------------------------- what is left to do

  predicate Unfinished(r: Row) {
    r.status == PENDING || Retryable(r)
  }

  function Left(r: Row): nat {
    if Unfinished(r) && r.attempts < MaxAttempts then MaxAttempts - r.attempts else 0
  }

  /** The attempts that unfinished events still have. */
  function Work(rows: seq<Row>): nat {
    if rows == [] then 0 else Left(rows[0]) + Work(rows[1..])
  }

  /** Processed, or failed with no attempt left. */
  predicate Drained(r: Row) {
    r.status == PROCESSED || (r.status == FAILED && r.attempts >= MaxAttempts)
  }

  /** Nothing is in flight between the cycles of one processor. */
  predicate QuietRow(r: Row, now: int) {
    && r.status != PROCESSING
    && (r.status == PENDING ==> r.attempts < MaxAttempts)
    && r.availableAt <= now
  }

  ghost predicate Quiet(rows: seq<Row>, now: int) {
    forall k :: 0 <= k < |rows| ==> QuietRow(rows[k], now)
  }

  /** retryFailed takes as many failed rows as there are, up to its limit. */
  ghost predicate TakesItsShare(rows: seq<Row>, picks: set<nat>) {
    var failed := set k: nat | k < |rows| && Retryable(rows[k]);
    picks <= failed && |picks| == if |failed| < BatchLimit then |failed| else BatchLimit
  }

  // ---------------------------------------------------------------- every cycle makes progress

  lemma {:induction false} WorkDrops(rows: seq<Row>, after: seq<Row>, k: nat)
    requires |rows| == |after| && k < |rows|
    requires forall i :: 0 <= i < |rows| ==> Left(after[i]) <= Left(rows[i])
    requires Left(after[k]) < Left(rows[k])
    ensures Work(after) < Work(rows)
  {
    if k > 0 {
      WorkDrops(rows[1..], after[1..], k - 1);
    } else {
      WorkDoesNotGrow(rows[1..], after[1..]);
    }
  }

  lemma {:induction false} WorkDoesNotGrow(rows: seq<Row>, after: seq<Row>)
    requires |rows| == |after| && forall i :: 0 <= i < |rows| ==> Left(after[i]) <= Left(rows[i])
    ensures Work(after) <= Work(rows)
  {
    if rows != [] {
      WorkDoesNotGrow(rows[1..], after[1..]);
    }
  }

  lemma {:induction false} WorkIsSomewhere(rows: seq<Row>) returns (k: nat)
    requires Work(rows) > 0
    ensures k < |rows| && Left(rows[k]) > 0
  {
    if Left(rows[0]) > 0 {
      k := 0;
    } else {
      k := WorkIsSomewhere(rows[1..]);
      k := k + 1;
    }
  }

  lemma {:induction false} SomethingIsClaimed(rows: seq<Row>, now: int, limit: nat, k: nat, j: nat)
    requires k <= j < |rows| && Claimable(rows[j], now) && limit > 0
    ensures FirstClaimable(rows, now, limit, k) != []
    decreases j - k
  {
    if !Claimable(rows[k], now) {
      SomethingIsClaimed(rows, now, limit, k + 1, j);
    }
  }

  /** With something unfinished, some row is claimable after the retry. */
  lemma {:induction false} RetryLeavesAClaimable(rows: seq<Row>, picks: set<nat>, now: int) returns (k: nat)
    requires Quiet(rows, now) && TakesItsShare(rows, picks) && Work(rows) > 0
    ensures k < |rows| && Claimable(Retried(rows, picks, now)[k], now)
  {
    k := WorkIsSomewhere(rows);
    if rows[k].status != PENDING {
      var failed := set i: nat | i < |rows| && Retryable(rows[i]);
      assert k in failed;
      assert |failed| > 0 && |picks| > 0;
      k :| k in picks;
      assert k in failed;
    }
  }

  /** A claimed row has lost an attempt whether its dispatch worked or not; no other row changes. */
  lemma BatchSpendsAttempts(rows: seq<Row>, now: int, marks: nat -> Mark, k: nat)
    requires k < |rows| && QuietRow(rows[k], now)
    ensures Left(Batch(rows, now, marks)[k]) <= Left(rows[k])
    ensures k in Picked(rows, now) ==> Left(Batch(rows, now, marks)[k]) < Left(rows[k])
    ensures k !in Picked(rows, now) ==> Batch(rows, now, marks)[k] == rows[k]
  {}

  lemma NothingIsStuck(rows: seq<Row>, now: int, before: int)
    requires Quiet(rows, now)
    ensures Released(rows, before, now) == rows
  {}

  lemma CycleIsRetryAndBatch(rows: seq<Row>, c: Cycle)
    requires Quiet(rows, c.now)
    ensures RunCycle(rows, c) == Batch(Retried(rows, c.retries, c.now), c.now, c.marks)
  {
    NothingIsStuck(rows, c.now, c.now - IntervalMs * 12);
  }

  lemma RetryKeepsWork(rows: seq<Row>, picks: set<nat>, now: int)
    requires Quiet(rows, now)
    ensures Quiet(Retried(rows, picks, now), now)
    ensures Work(Retried(rows, picks, now)) <= Work(rows)
  {
    WorkDoesNotGrow(rows, Retried(rows, picks, now));
  }

  lemma {:induction false} BatchMakesProgress(rows: seq<Row>, now: int, marks: nat -> Mark, k: nat)
    requires Quiet(rows, now) && k < |rows| && Claimable(rows[k], now)
    ensures Work(Batch(rows, now, marks)) < Work(rows)
  {
    SomethingIsClaimed(rows, now, BatchLimit, 0, k);
    var first := FirstClaimable(rows, now, BatchLimit, 0)[0];
    assert first in Picked(rows, now);
    forall i | 0 <= i < |rows| ensures Left(Batch(rows, now, marks)[i]) <= Left(rows[i]) {
      BatchSpendsAttempts(rows, now, marks, i);
    }
    BatchSpendsAttempts(rows, now, marks, first);
    WorkDrops(rows, Batch(rows, now, marks), first);
  }

  ghost predicate MarkedBy(c: Cycle, later: int) {
    c.now <= later && forall k :: c.marks(k).at <= later
  }

  lemma CycleStaysQuiet(rows: seq<Row>, c: Cycle, later: int)
    requires Quiet(rows, c.now) && MarkedBy(c, later)
    ensures Quiet(RunCycle(rows, c), later)
  {}

  lemma {:induction false} RetryAndBatchMakeProgress(rows: seq<Row>, c: Cycle)
    requires Quiet(rows, c.now) && TakesItsShare(rows, c.retries) && Work(rows) > 0
    ensures Work(Batch(Retried(rows, c.retries, c.now), c.now, c.marks)) < Work(rows)
  {
    var k := RetryLeavesAClaimable(rows, c.retries, c.now);
    RetryKeepsWork(rows, c.retries, c.now);
    BatchMakesProgress(Retried(rows, c.retries, c.now), c.now, c.marks, k);
  }

  /** A cycle that finds an unfinished event leaves fewer attempts to spend. */
  lemma {:induction false} CycleMakesProgress(rows: seq<Row>, c: Cycle)
    requires Quiet(rows, c.now) && TakesItsShare(rows, c.retries) && Work(rows) > 0
    ensures Work(RunCycle(rows, c)) < Work(rows)
  {
    CycleIsRetryAndBatch(rows, c);
    RetryAndBatchMakeProgress(rows, c);
  }

  lemma BatchAddsNoWork(rows: seq<Row>, now: int, marks: nat -> Mark)
    requires Quiet(rows, now)
    ensures Work(Batch(rows, now, marks)) <= Work(rows)
  {
    forall i | 0 <= i < |rows| ensures Left(Batch(rows, now, marks)[i]) <= Left(rows[i]) {
      BatchSpendsAttempts(rows, now, marks, i);
    }
    WorkDoesNotGrow(rows, Batch(rows, now, marks));
  }

  lemma {:induction false} RetryAndBatchAddNoWork(rows: seq<Row>, c: Cycle)
    requires Quiet(rows, c.now)
    ensures Work(Batch(Retried(rows, c.retries, c.now), c.now, c.marks)) <= Work(rows)
  {
    RetryKeepsWork(rows, c.retries, c.now);
    BatchAddsNoWork(Retried(rows, c.retries, c.now), c.now, c.marks);
  }

  lemma {:induction false} CycleAddsNoWork(rows: seq<Row>, c: Cycle)
    requires Quiet(rows, c.now)
    ensures Work(RunCycle(rows, c)) <= Work(rows)
  {
    CycleIsRetryAndBatch(rows, c);
    RetryAndBatchAddNoWork(rows, c);
  }

  // ---------------------------------------------------------------- and the table drains

  /** When the next cycle starts. */
  function Next(cycles: seq<Cycle>, i: nat, end: int): int {
    if i + 1 < |cycles| then cycles[i + 1].now else end
  }

  ghost predicate TurnOf(rows: seq<Row>, cycles: seq<Cycle>, end: int, i: nat) {
    && i < |cycles|
    && MarkedBy(cycles[i], Next(cycles, i, end))
    && TakesItsShare(RunCycles(rows, cycles[..i]), cycles[i].retries)
  }

  /** Cycles of one processor, one after the other. */
  ghost predicate InTurn(rows: seq<Row>, cycles: seq<Cycle>, end: int) {
    forall i :: 0 <= i < |cycles| ==> TurnOf(rows, cycles, end, i)
  }

  lemma {:induction false} WorkIsBounded(rows: seq<Row>)
    ensures Work(rows) <= MaxAttempts * |rows|
  {
    if rows != [] {
      WorkIsBounded(rows[1..]);
    }
  }

  lemma {:induction false} EarlierTurn(rows: seq<Row>, cycles: seq<Cycle>, end: int, i: nat)
    requires i + 1 < |cycles| && TurnOf(rows, cycles, end, i)
    ensures TurnOf(rows, cycles[..|cycles| - 1], cycles[|cycles| - 1].now, i)
  {
    var before := cycles[..|cycles| - 1];
    assert before[..i] == cycles[..i];
    assert Next(before, i, cycles[|cycles| - 1].now) == Next(cycles, i, end);
  }

  lemma EarlierCyclesAreInTurn(rows: seq<Row>, cycles: seq<Cycle>, end: int)
    requires cycles != [] && InTurn(rows, cycles, end)
    ensures InTurn(rows, cycles[..|cycles| - 1], cycles[|cycles| - 1].now)
  {
    var before, now := cycles[..|cycles| - 1], cycles[|cycles| - 1].now;
    forall i: nat | i < |before| ensures TurnOf(rows, before, now, i) {
      EarlierTurn(rows, cycles, end, i);
    }
  }

  lemma {:induction false} WorkRunsOut(rows: seq<Row>, cycles: seq<Cycle>, end: int)
    requires Quiet(rows, if cycles == [] then end else cycles[0].now) && InTurn(rows, cycles, end)
    ensures Quiet(RunCycles(rows, cycles), end)
    ensures Work(RunCycles(rows, cycles)) <= if |cycles| < Work(rows) then Work(rows) - |cycles| else 0
  {
    if cycles != [] {
      var last := |cycles| - 1;
      EarlierCyclesAreInTurn(rows, cycles, end);
      WorkRunsOut(rows, cycles[..last], cycles[last].now);
      var middle := RunCycles(rows, cycles[..last]);
      assert TurnOf(rows, cycles, end, last);
      CycleStaysQuiet(middle, cycles[last], end);
      CycleAddsNoWork(middle, cycles[last]);
      if Work(middle) > 0 {
        CycleMakesProgress(middle, cycles[last]);
      }
    }
  }

  lemma {:induction false} NoWorkIsDrained(rows: seq<Row>, now: int, k: nat)
    requires Quiet(rows, now) && Work(rows) == 0 && k < |rows|
    ensures Drained(rows[k])
  {
    if k > 0 {
      NoWorkIsDrained(rows[1..], now, k - 1);
    }
  }

  /** n events are all processed or dead-lettered within 10 n cycles, whatever their handlers do. */
  lemma {:induction false} OutboxDrains(rows: seq<Row>, cycles: seq<Cycle>, end: int)
    requires Quiet(rows, if cycles == [] then end else cycles[0].now) && InTurn(rows, cycles, end)
    requires |cycles| >= MaxAttempts * |rows|
    ensures forall k :: 0 <= k < |rows| ==> Drained(RunCycles(rows, cycles)[k])
  {
    WorkIsBounded(rows);
    WorkRunsOut(rows, cycles, end);
    forall k | 0 <= k < |rows| ensures Drained(RunCycles(rows, cycles)[k]) {
      NoWorkIsDrained(RunCycles(rows, cycles), end, k);
    }
  }

  /** Still to be processed, or processed. */
  predicate Hopeful(r: Row) {
    r.status == PROCESSED || Unfinished(r)
  }

  lemma CycleKeepsHope(rows: seq<Row>, c: Cycle, k: nat)
    requires Quiet(rows, c.now) && k < |rows| && Hopeful(rows[k]) && c.marks(k).ok
    ensures Hopeful(RunCycle(rows, c)[k])
  {}

  lemma {:induction false} SuccessIsNotLost(rows: seq<Row>, cycles: seq<Cycle>, end: int, k: nat)
    requires Quiet(rows, if cycles == [] then end else cycles[0].now) && InTurn(rows, cycles, end)
    requires k < |rows| && Hopeful(rows[k])
    requires forall i :: 0 <= i < |cycles| ==> cycles[i].marks(k).ok
    ensures Hopeful(RunCycles(rows, cycles)[k])
  {
    if cycles != [] {
      var last := |cycles| - 1;
      EarlierCyclesAreInTurn(rows, cycles, end);
      SuccessIsNotLost(rows, cycles[..last], cycles[last].now, k);
      WorkRunsOut(rows, cycles[..last], cycles[last].now);
      CycleKeepsHope(RunCycles(rows, cycles[..last]), cycles[last], k);
    }
  }

  /** An event that still has attempts and whose dispatches succeed is processed within 10 n cycles,
      however many of the others fail. */
  lemma {:induction false} ReliableEventsAreProcessed(rows: seq<Row>, cycles: seq<Cycle>, end: int, k: nat)
    requires Quiet(rows, if cycles == [] then end else cycles[0].now) && InTurn(rows, cycles, end)
    requires |cycles| >= MaxAttempts * |rows| && k < |rows| && Unfinished(rows[k])
    requires forall i :: 0 <= i < |cycles| ==> cycles[i].marks(k).ok
    ensures RunCycles(rows, cycles)[k].status == PROCESSED
  {
    OutboxDrains(rows, cycles, end);
    SuccessIsNotLost(rows, cycles, end, k);
  }
}
