/** The outbox protocol (infrastructure/event-bus/outbox.repository.ts): events are claimed, processed,
    failed, retried and released again by any number of workers at once. */
module Outbox {
  import opened Common

  datatype Status = PENDING | PROCESSING | PROCESSED | FAILED

  /** A row of outbox_events. Rows stand in creation order, and an event is its position. */
  datatype Row = Row(eventName: string, status: Status, attempts: nat, lockedAt: Option<int>, availableAt: int)

  const MaxAttempts := 10

  // ---------------------------------------------------------------- the repository's writes

  predicate Claimable(r: Row, now: int) {
    r.status == PENDING && r.availableAt <= now
  }

  predicate Retryable(r: Row) {
    r.status == FAILED && r.attempts < MaxAttempts
  }

  predicate Stuck(r: Row, before: int) {
    r.status == PROCESSING && r.lockedAt.Some? && r.lockedAt.value < before
  }

  function Claimed(rows: seq<Row>, picks: set<nat>, now: int): (r: seq<Row>)
    ensures |r| == |rows|
  {
    seq(|rows|, k requires 0 <= k < |rows| =>
      if k in picks && Claimable(rows[k], now)
      then rows[k].(status := PROCESSING, lockedAt := Some(now), attempts := rows[k].attempts + 1)
      else rows[k])
  }

  function Released(rows: seq<Row>, before: int, now: int): (r: seq<Row>)
    ensures |r| == |rows|
  {
    seq(|rows|, k requires 0 <= k < |rows| =>
      if Stuck(rows[k], before) then rows[k].(status := PENDING, lockedAt := None, availableAt := now) else rows[k])
  }

  function Retried(rows: seq<Row>, picks: set<nat>, now: int): (r: seq<Row>)
    ensures |r| == |rows|
  {
    seq(|rows|, k requires 0 <= k < |rows| =>
      if k in picks && Retryable(rows[k]) then rows[k].(status := PENDING, availableAt := now) else rows[k])
  }

  /** markProcessed and markFailed write whatever the row's status has become meanwhile. */
  function Finished(rows: seq<Row>, k: nat, ok: bool, now: int): (r: seq<Row>)
    requires k < |rows|
    ensures |r| == |rows|
  {
    rows[k := if ok then rows[k].(status := PROCESSED, lockedAt := None)
              else rows[k].(status := FAILED, lockedAt := None, availableAt := now)]
  }

  // ---------------------------------------------------------------- workers

  /** The table, how often each event was released as stuck, and which workers hold it: a worker is one
      run of processOutboxBatch, and holds an event from its claim until it marks the event or dies. */
  datatype World = World(rows: seq<Row>, releases: seq<nat>, holders: seq<set<Id>>)

  datatype WorkerStep =
    | Publish(eventName: string, now: int)
    | Claim(worker: Id, picks: set<nat>, now: int)
    | ReleaseStuck(before: int, now: int)
    | RetryFailed(picks: set<nat>, now: int)
    | Finish(worker: Id, event: nat, ok: bool, now: int)
    | Die(worker: Id)

  predicate Shaped(w: World) {
    |w.releases| == |w.rows| && |w.holders| == |w.rows|
  }

  /** Every step is one transaction, so claims of different workers are disjoint. Picks are any rows, as
      many as the limit allows; only those that qualify are written. */
  function Step(w: World, s: WorkerStep): (r: World)
    requires Shaped(w)
    ensures Shaped(r)
  {
    match s
    case Publish(eventName, now) =>
      World(w.rows + [Row(eventName, PENDING, 0, None, now)], w.releases + [0], w.holders + [{}])
    case Claim(worker, picks, now) =>
      w.(rows := Claimed(w.rows, picks, now),
         holders := seq(|w.rows|, k requires 0 <= k < |w.rows| =>
           if k in picks && Claimable(w.rows[k], now) then w.holders[k] + {worker} else w.holders[k]))
    case ReleaseStuck(before, now) =>
      w.(rows := Released(w.rows, before, now),
         releases := seq(|w.rows|, k requires 0 <= k < |w.rows| =>
           if Stuck(w.rows[k], before) then w.releases[k] + 1 else w.releases[k]))
    case RetryFailed(picks, now) => w.(rows := Retried(w.rows, picks, now))
    case Finish(worker, k, ok, now) =>
      if k < |w.rows| && worker in w.holders[k]
      then w.(rows := Finished(w.rows, k, ok, now), holders := w.holders[k := w.holders[k] - {worker}])
      else w
    case Die(worker) =>
      w.(holders := seq(|w.rows|, k requires 0 <= k < |w.rows| => w.holders[k] - {worker}))
  }

  function Run(steps: seq<WorkerStep>): (r: World)
    ensures Shaped(r)
  {
    if steps == [] then World([], [], [])
    else Step(Run(steps[..|steps| - 1]), steps[|steps| - 1])
  }

  // ---------------------------------------------------------------- safety

  ghost predicate EventSafe(r: Row, releases: nat, holders: set<Id>) {
    && r.attempts <= MaxAttempts + releases
    && (r.status == PENDING ==> r.attempts < MaxAttempts + releases)
    && (r.lockedAt.Some? <==> r.status == PROCESSING)
    && (releases == 0 ==> |holders| <= 1 && (holders != {} ==> r.status == PROCESSING))
  }

  ghost predicate Safe(w: World) {
    Shaped(w) && forall k :: 0 <= k < |w.rows| ==> EventSafe(w.rows[k], w.releases[k], w.holders[k])
  }

  lemma StepIsSafe(w: World, s: WorkerStep)
    requires Safe(w)
    ensures Safe(Step(w, s))
  {}

  lemma {:induction false} RunsAreSafe(steps: seq<WorkerStep>)
    ensures Safe(Run(steps))
  {
    if steps != [] {
      RunsAreSafe(steps[..|steps| - 1]);
      StepIsSafe(Run(steps[..|steps| - 1]), steps[|steps| - 1]);
    }
  }

  /** In every interleaving an event is attempted at most ten times plus once per stuck release, and
      until its first stuck release at most one worker holds it. */
  lemma AttemptsAndHoldersAreBounded(steps: seq<WorkerStep>, k: nat)
    requires k < |Run(steps).rows|
    ensures Run(steps).rows[k].attempts <= MaxAttempts + Run(steps).releases[k]
    ensures Run(steps).releases[k] == 0 ==> |Run(steps).holders[k]| <= 1
  {
    RunsAreSafe(steps);
  }

  // ---------------------------------------------------------------- dead letters

  /** Finished for good, or failed with no attempt left. */
  predicate Settled(r: Row) {
    (r.status == FAILED || r.status == PROCESSED) && r.attempts >= MaxAttempts
  }

  lemma SettledStays(w: World, s: WorkerStep, k: nat)
    requires Shaped(w) && k < |w.rows| && Settled(w.rows[k])
    ensures k < |Step(w, s).rows| && Settled(Step(w, s).rows[k])
    ensures Step(w, s).rows[k].attempts == w.rows[k].attempts
  {}

  lemma RunOfOneMore(steps: seq<WorkerStep>, s: WorkerStep)
    ensures Run(steps + [s]) == Step(Run(steps), s)
  {}

  /** An event that has failed ten times never becomes PENDING again, is never claimed again, and its
      attempt count stands, whatever steps follow. */
  lemma {:induction false} DeadLettersStayDead(steps: seq<WorkerStep>, more: seq<WorkerStep>, k: nat)
    requires k < |Run(steps).rows| && Settled(Run(steps).rows[k])
    ensures k < |Run(steps + more).rows| && Settled(Run(steps + more).rows[k])
    ensures Run(steps + more).rows[k].attempts == Run(steps).rows[k].attempts
    decreases |more|
  {
    if more == [] {
      assert steps + more == steps;
    } else {
      var last := |more| - 1;
      DeadLettersStayDead(steps, more[..last], k);
      RunOfOneMore(steps + more[..last], more[last]);
      assert steps + more[..last] + [more[last]] == steps + more;
      SettledStays(Run(steps + more[..last]), more[last], k);
    }
  }

  // ---------------------------------------------------------------- attempts are claims

  /** How often event k was claimed. */
  ghost function Claims(steps: seq<WorkerStep>, k: nat): nat {
    if steps == [] then 0
    else
      var last := |steps| - 1;
      var w, s := Run(steps[..last]), steps[last];
      var now := if s.Claim? && k < |w.rows| && k in s.picks && Claimable(w.rows[k], s.now) then 1 else 0;
      Claims(steps[..last], k) + now
  }

  /** An attempt is counted for every claim and for nothing else. */
  lemma {:induction false} AttemptsCountClaims(steps: seq<WorkerStep>, k: nat)
    ensures Claims(steps, k) == if k < |Run(steps).rows| then Run(steps).rows[k].attempts else 0
  {
    if steps != [] {
      AttemptsCountClaims(steps[..|steps| - 1], k);
    }
  }
}
