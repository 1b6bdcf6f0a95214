/** Checkpointed workflow execution (engine/workflow-engine.service.ts): a run that fails anywhere is
    taken up again by the next delivery of its event key. */
module Workflow {
  import opened Common

  type Value = string

  /** The rules in order, which of them the input matches, and what each action returns for it. */
  datatype Plan = Plan(rules: seq<Id>, matches: Id -> bool, output: Id -> Value)

  datatype Status = RUNNING | SUCCESS | FAILED

  /** The execution row of the event key; output without completedRuleIds reads as having none. */
  datatype Execution = Execution(status: Status, actions: seq<Value>, completed: seq<Id>)

  /** The row, and the rules whose action has been performed so far, in order. */
  datatype World = World(row: Option<Execution>, performed: seq<Id>)

  /** A call on the database goes well, throws with nothing written, or throws after the write. */
  datatype Fault = Fine | Lost | Late

  datatype RuleFaults = RuleFaults(matchLog: Fault, skipLog: Fault, executes: bool, checkpoint: Fault, doneLog: Fault)

  /** One outcome for every await of a run. */
  datatype Faults = Faults(
    find: Fault,
    open: Fault,
    startLog: Fault,
    rules: nat -> RuleFaults,
    finish: Fault,
    failLog: Fault,
    fail: Fault)

  // ---------------------------------------------------------------- one run

  datatype Progress = Progress(world: World, actions: seq<Value>, completed: seq<Id>, failed: bool)

  /** What is in the row after a write with this outcome. */
  function Written(w: World, row: Execution, f: Fault): World {
    if f == Lost then w else w.(row := Some(row))
  }

  /** The action has been performed: checkpoint it. */
  function Performed(p: Progress, plan: Plan, id: Id, f: RuleFaults): Progress {
    var actions, completed := p.actions + [plan.output(id)], p.completed + [id];
    var world := p.world.(performed := p.world.performed + [id]);
    Progress(Written(world, Execution(RUNNING, actions, completed), f.checkpoint),
             actions, completed, f.checkpoint != Fine || f.doneLog != Fine)
  }

  function RuleStep(p: Progress, plan: Plan, id: Id, f: RuleFaults): Progress {
    if f.matchLog != Fine then p.(failed := true)
    else if !plan.matches(id) then p
    else if id in p.completed then p.(failed := f.skipLog != Fine)
    else if !f.executes then p.(failed := true)
    else Performed(p, plan, id, f)
  }

  /** The loop over the first i rules, up to the first that throws. */
  function Rules(p: Progress, plan: Plan, faults: Faults, i: nat): Progress
    requires i <= |plan.rules|
  {
    if i == 0 then p
    else
      var q := Rules(p, plan, faults, i - 1);
      if q.failed then q else RuleStep(q, plan, plan.rules[i - 1], faults.rules(i - 1))
  }

  /** The catch block. */
  function Caught(p: Progress, faults: Faults): World {
    if faults.failLog != Fine then p.world
    else Written(p.world, Execution(FAILED, p.actions, p.completed), faults.fail)
  }

  function Closed(p: Progress, faults: Faults): World {
    if p.failed then Caught(p, faults)
    else
      var world := Written(p.world, Execution(SUCCESS, p.actions, []), faults.finish);
      if faults.finish == Fine then world else Caught(p.(world := world), faults)
  }

  /** The row as the run finds or makes it, in status RUNNING. */
  function Opened(w: World): Execution {
    if w.row.Some? then w.row.value.(status := RUNNING) else Execution(RUNNING, [], [])
  }

  /** executeWorkflow with an event key. */
  function Attempt(w: World, plan: Plan, faults: Faults): World {
    if faults.find != Fine then w
    else if w.row.Some? && w.row.value.status != FAILED then w
    else
      var row := Opened(w);
      var begun := Written(w, row, faults.open);
      if faults.open != Fine || faults.startLog != Fine then begun
      else Closed(Rules(Progress(begun, row.actions, row.completed, false), plan, faults, |plan.rules|), faults)
  }

  const Smooth := Faults(Fine, Fine, Fine, k => RuleFaults(Fine, Fine, true, Fine, Fine), Fine, Fine, Fine)

  const Untouched := World(None, [])

  /** Deliveries of one event key, one after the other. */
  function Deliveries(plan: Plan, runs: seq<Faults>): World {
    if runs == [] then Untouched
    else Attempt(Deliveries(plan, runs[..|runs| - 1]), plan, runs[|runs| - 1])
  }

  // ---------------------------------------------------------------- what a run is for

  /** The rules that the input matches among the first i. */
  function Matched(plan: Plan, i: nat): seq<Id>
    requires i <= |plan.rules|
  {
    if i == 0 then []
    else Matched(plan, i - 1) + if plan.matches(plan.rules[i - 1]) then [plan.rules[i - 1]] else []
  }

  function Due(plan: Plan): seq<Id> {
    Matched(plan, |plan.rules|)
  }

  function Outputs(plan: Plan, ids: seq<Id>): (r: seq<Value>)
    ensures |r| == |ids|
  {
    seq(|ids|, k requires 0 <= k < |ids| => plan.output(ids[k]))
  }

  ghost predicate Distinct(ids: seq<Id>) {
    forall i, j :: 0 <= i < j < |ids| ==> ids[i] != ids[j]
  }

  // ---------------------------------------------------------------- the invariant

  ghost predicate Consistent(w: World, plan: Plan) {
    && w.performed <= Due(plan)
    && (w.row.None? ==> w.performed == [])
    && (w.row.Some? && w.row.value.status == FAILED ==>
          w.row.value.completed == w.performed && w.row.value.actions == Outputs(plan, w.performed))
    && (w.row.Some? && w.row.value.status == SUCCESS ==>
          w.performed == Due(plan) && w.row.value.actions == Outputs(plan, Due(plan)))
  }

  lemma {:induction false} MatchedGrows(plan: Plan, i: nat, j: nat)
    requires i <= j <= |plan.rules|
    ensures Matched(plan, i) <= Matched(plan, j)
    decreases j
  {
    if i < j {
      MatchedGrows(plan, i, j - 1);
    }
  }

  lemma {:induction false} MatchedAreRules(plan: Plan, i: nat, id: Id)
    requires i <= |plan.rules| && id in Matched(plan, i)
    ensures exists k :: 0 <= k < i && plan.rules[k] == id
  {
    if id in Matched(plan, i - 1) {
      MatchedAreRules(plan, i - 1, id);
    }
  }

  lemma {:induction false} MatchedAreDistinct(plan: Plan, i: nat)
    requires Distinct(plan.rules) && i <= |plan.rules|
    ensures Distinct(Matched(plan, i))
    ensures i < |plan.rules| ==> plan.rules[i] !in Matched(plan, i)
  {
    if i > 0 {
      MatchedAreDistinct(plan, i - 1);
    }
    if i < |plan.rules| && plan.rules[i] in Matched(plan, i) {
      MatchedAreRules(plan, i, plan.rules[i]);
    }
  }

  /** In the loop: what has been performed is what the checkpoint held or what the rules so far call for. */
  ghost predicate OnTrack(p: Progress, plan: Plan, base: seq<Id>, i: nat)
    requires i <= |plan.rules|
  {
    && p.world.performed == p.completed && p.actions == Outputs(plan, p.completed)
    && p.completed <= Due(plan)
    && p.world.row.Some? && p.world.row.value.status == RUNNING
    && (!p.failed ==> p.completed == Matched(plan, i) || (p.completed == base && Matched(plan, i) <= base))
  }

  lemma OneMoreRule(plan: Plan, i: nat, done: seq<Id>, base: seq<Id>)
    requires Distinct(plan.rules) && i < |plan.rules| && plan.matches(plan.rules[i])
    requires base <= Due(plan)
    requires done == Matched(plan, i) || (done == base && Matched(plan, i) <= base)
    ensures plan.rules[i] in done ==> done == base && Matched(plan, i + 1) <= base
    ensures plan.rules[i] !in done ==> done + [plan.rules[i]] == Matched(plan, i + 1) <= Due(plan)
  {
    var id, now, next := plan.rules[i], Matched(plan, i), Matched(plan, i + 1);
    MatchedAreDistinct(plan, i);
    MatchedGrows(plan, i + 1, |plan.rules|);
    assert next == now + [id];
    if now != done {
      assert |now| < |base|;
      assert base[|now|] == Due(plan)[|now|] == next[|now|] == id;
      assert id in base;
    }
  }

  lemma StepOnTrack(p: Progress, plan: Plan, base: seq<Id>, i: nat, f: RuleFaults)
    requires Distinct(plan.rules) && i < |plan.rules| && base <= Due(plan)
    requires OnTrack(p, plan, base, i) && !p.failed
    ensures OnTrack(RuleStep(p, plan, plan.rules[i], f), plan, base, i + 1)
  {
    var id := plan.rules[i];
    if plan.matches(id) {
      OneMoreRule(plan, i, p.completed, base);
      assert Outputs(plan, p.completed + [id]) == Outputs(plan, p.completed) + [plan.output(id)];
    } else {
      assert Matched(plan, i + 1) == Matched(plan, i);
    }
  }

  lemma {:induction false} RulesOnTrack(p: Progress, plan: Plan, faults: Faults, i: nat)
    requires Distinct(plan.rules) && i <= |plan.rules|
    requires OnTrack(p, plan, p.completed, 0) && !p.failed
    ensures var q := Rules(p, plan, faults, i);
      OnTrack(q, plan, p.completed, i) || (q.failed && OnTrack(q, plan, p.completed, 0))
    ensures p.completed <= Rules(p, plan, faults, i).completed
    ensures faults.rules == Smooth.rules ==> !Rules(p, plan, faults, i).failed
  {
    if i > 0 {
      RulesOnTrack(p, plan, faults, i - 1);
      var q := Rules(p, plan, faults, i - 1);
      if !q.failed {
        StepOnTrack(q, plan, p.completed, i - 1, faults.rules(i - 1));
      }
    }
  }

  lemma ClosedIsConsistent(p: Progress, plan: Plan, base: seq<Id>, faults: Faults)
    requires base <= Due(plan)
    requires OnTrack(p, plan, base, |plan.rules|) || (p.failed && OnTrack(p, plan, base, 0))
    ensures Consistent(Closed(p, faults), plan) && Closed(p, faults).performed == p.completed
  {}

  lemma AttemptIsConsistent(w: World, plan: Plan, faults: Faults)
    requires Distinct(plan.rules) && Consistent(w, plan)
    ensures Consistent(Attempt(w, plan, faults), plan)
    ensures w.performed <= Attempt(w, plan, faults).performed
  {
    if faults.find == Fine && (w.row.None? || w.row.value.status == FAILED) {
      var row := Opened(w);
      var p := Progress(w.(row := Some(row)), row.actions, row.completed, false);
      RulesOnTrack(p, plan, faults, |plan.rules|);
      ClosedIsConsistent(Rules(p, plan, faults, |plan.rules|), plan, p.completed, faults);
    }
  }

  lemma {:induction false} DeliveriesAreConsistent(plan: Plan, runs: seq<Faults>)
    requires Distinct(plan.rules)
    ensures Consistent(Deliveries(plan, runs), plan)
  {
    if runs != [] {
      DeliveriesAreConsistent(plan, runs[..|runs| - 1]);
      AttemptIsConsistent(Deliveries(plan, runs[..|runs| - 1]), plan, runs[|runs| - 1]);
    }
  }

  /** However often the event is delivered and wherever the runs fail, the performed actions are a
      beginning of those due, each once and in order; and nothing performed is ever undone. */
  lemma EachActionAtMostOnce(plan: Plan, runs: seq<Faults>)
    requires Distinct(plan.rules)
    ensures Deliveries(plan, runs).performed <= Due(plan)
    ensures Distinct(Deliveries(plan, runs).performed)
    ensures runs != [] ==> Deliveries(plan, runs[..|runs| - 1]).performed <= Deliveries(plan, runs).performed
  {
    DeliveriesAreConsistent(plan, runs);
    MatchedAreDistinct(plan, |plan.rules|);
    if runs != [] {
      DeliveriesAreConsistent(plan, runs[..|runs| - 1]);
      AttemptIsConsistent(Deliveries(plan, runs[..|runs| - 1]), plan, runs[|runs| - 1]);
    }
  }

  /** A run without failures brings any row that is not RUNNING to SUCCESS; a row left RUNNING, by a
      failure before the first rule or in the catch block, is never taken up again. */
  lemma RetrySucceedsUnlessStuck(plan: Plan, runs: seq<Faults>)
    requires Distinct(plan.rules)
    ensures var before, after := Deliveries(plan, runs), Attempt(Deliveries(plan, runs), plan, Smooth);
      && (after.row.Some? && after.row.value.status == SUCCESS
          <==> !(before.row.Some? && before.row.value.status == RUNNING))
      && (before.row.Some? && before.row.value.status == RUNNING ==> after == before)
  {
    var w := Deliveries(plan, runs);
    DeliveriesAreConsistent(plan, runs);
    if w.row.None? || w.row.value.status == FAILED {
      var row := Opened(w);
      var p := Progress(w.(row := Some(row)), row.actions, row.completed, false);
      assert OnTrack(p, plan, p.completed, 0);
      RulesOnTrack(p, plan, Smooth, |plan.rules|);
    }
  }

  // ---------------------------------------------------------------- runs that are left RUNNING

  ghost predicate Running(w: World) {
    w.row.Some? && w.row.value.status == RUNNING
  }

  lemma OneMoreDelivery(plan: Plan, runs: seq<Faults>, faults: Faults)
    ensures Deliveries(plan, runs + [faults]) == Attempt(Deliveries(plan, runs), plan, faults)
  {
    assert (runs + [faults])[..|runs|] == runs;
  }

  /** Once a row is left RUNNING no further delivery changes it or performs anything, whatever fails. */
  lemma {:induction false} StuckForGood(plan: Plan, runs: seq<Faults>, more: seq<Faults>)
    requires Running(Deliveries(plan, runs))
    ensures Deliveries(plan, runs + more) == Deliveries(plan, runs)
    decreases |more|
  {
    if more == [] {
      assert runs + more == runs;
    } else {
      var front, last := runs + more[..|more| - 1], more[|more| - 1];
      assert front + [last] == runs + more;
      StuckForGood(plan, runs, more[..|more| - 1]);
      OneMoreDelivery(plan, front, last);
    }
  }

  /** The failures that leave a row RUNNING: the write that opens it takes effect and throws, the first log
      throws, or something throws later and the catch block fails too, unless the row already says SUCCESS. */
  predicate Strands(w: World, plan: Plan, faults: Faults) {
    var row := Opened(w);
    var p := Rules(Progress(w.(row := Some(row)), row.actions, row.completed, false), plan, faults, |plan.rules|);
    && faults.find == Fine && faults.open != Lost
    && (|| faults.open == Late
        || faults.startLog != Fine
        || ((p.failed || faults.finish == Lost) && (faults.failLog != Fine || faults.fail == Lost)))
  }

  /** The rules leave the row RUNNING, whatever becomes of them. */
  lemma RulesLeaveItRunning(w: World, plan: Plan, faults: Faults)
    requires Distinct(plan.rules) && Consistent(w, plan) && (w.row.None? || w.row.value.status == FAILED)
    ensures var row := Opened(w);
      Running(Rules(Progress(w.(row := Some(row)), row.actions, row.completed, false), plan, faults, |plan.rules|).world)
  {
    var row := Opened(w);
    var p := Progress(w.(row := Some(row)), row.actions, row.completed, false);
    assert OnTrack(p, plan, p.completed, 0);
    RulesOnTrack(p, plan, faults, |plan.rules|);
  }

  lemma AttemptStrandsExactly(w: World, plan: Plan, faults: Faults)
    requires Distinct(plan.rules) && Consistent(w, plan) && (w.row.None? || w.row.value.status == FAILED)
    ensures Running(Attempt(w, plan, faults)) <==> Strands(w, plan, faults)
  {
    RulesLeaveItRunning(w, plan, faults);
  }

  /** A run that finds no row or a FAILED one leaves it RUNNING exactly in these cases. */
  lemma {:induction false} StrandsExactly(plan: Plan, runs: seq<Faults>, faults: Faults)
    requires Distinct(plan.rules)
    requires Deliveries(plan, runs).row.None? || Deliveries(plan, runs).row.value.status == FAILED
    ensures Running(Deliveries(plan, runs + [faults])) <==> Strands(Deliveries(plan, runs), plan, faults)
  {
    OneMoreDelivery(plan, runs, faults);
    DeliveriesAreConsistent(plan, runs);
    AttemptStrandsExactly(Deliveries(plan, runs), plan, faults);
  }

  /** A first run whose start log fails: no rule is performed, then or ever. */
  lemma LostStartLogStrands(plan: Plan, more: seq<Faults>)
    ensures Deliveries(plan, [Smooth.(startLog := Lost)] + more) == World(Some(Execution(RUNNING, [], [])), [])
  {
    var first := [Smooth.(startLog := Lost)];
    assert first[..0] == [];
    assert Deliveries(plan, first) == Attempt(Deliveries(plan, first[..0]), plan, first[0]);
    StuckForGood(plan, first, more);
  }

  /** A first run that performs its one rule, fails to checkpoint it and fails in the catch block: the
      action stands, and no retry ever reports it. */
  lemma LostFailLogStrands(more: seq<Faults>)
    ensures var plan := Plan(["r"], id => true, id => "done");
      var faults := Smooth.(rules := k => RuleFaults(Fine, Fine, true, Lost, Fine), failLog := Lost);
      Deliveries(plan, [faults] + more) == World(Some(Execution(RUNNING, [], [])), ["r"])
  {
    var plan := Plan(["r"], id => true, id => "done");
    var faults := Smooth.(rules := k => RuleFaults(Fine, Fine, true, Lost, Fine), failLog := Lost);
    assert [faults][..0] == [];
    assert Deliveries(plan, [faults]) == Attempt(Deliveries(plan, [faults][..0]), plan, faults);
    var p := Progress(World(Some(Execution(RUNNING, [], [])), []), [], [], false);
    assert Rules(p, plan, faults, 0) == p;
    assert Rules(p, plan, faults, 1) == RuleStep(p, plan, "r", faults.rules(0));
    StuckForGood(plan, [faults], more);
  }

  /** A resumed run refines an uninterrupted one: once the row says SUCCESS, its actions, and what was
      performed, are those of the single run in which nothing fails. */
  lemma ResumedRunEqualsUninterrupted(plan: Plan, runs: seq<Faults>)
    requires Distinct(plan.rules)
    requires Deliveries(plan, runs).row.Some? && Deliveries(plan, runs).row.value.status == SUCCESS
    ensures Deliveries(plan, runs).row.value.actions == Attempt(Untouched, plan, Smooth).row.value.actions
    ensures Deliveries(plan, runs).performed == Attempt(Untouched, plan, Smooth).performed == Due(plan)
  {
    DeliveriesAreConsistent(plan, runs);
    RetrySucceedsUnlessStuck(plan, []);
    AttemptIsConsistent(Untouched, plan, Smooth);
  }

  // ---------------------------------------------------------------- the service

  class WorkflowEngine {
    var row: Option<Execution>
    var performed: seq<Id>

    ghost function State(): World
      reads this
    {
      World(row, performed)
    }

    constructor ()
      ensures State() == Untouched
    {
      row, performed := None, [];
    }

    /** The rows of workflowExecution are only written through here. */
    method Write(execution: Execution, f: Fault) returns (threw: bool)
      modifies this`row
      ensures State() == Written(old(State()), execution, f)
      ensures threw == (f != Fine)
    {
      if f != Lost {
        row := Some(execution);
      }
      threw := f != Fine;
    }

    method ExecuteRules(plan: Plan, faults: Faults, checkpoint: Execution)
      returns (actions: seq<Value>, completed: seq<Id>, failed: bool)
      modifies this
      ensures Progress(State(), actions, completed, failed)
           == Rules(Progress(old(State()), checkpoint.actions, checkpoint.completed, false), plan, faults, |plan.rules|)
    {
      ghost var p := Progress(State(), checkpoint.actions, checkpoint.completed, false);
      actions, completed, failed := checkpoint.actions, checkpoint.completed, false;
      var i := 0;
      while i < |plan.rules| && !failed
        invariant i <= |plan.rules|
        invariant Progress(State(), actions, completed, failed) == Rules(p, plan, faults, i)
      {
        var id, f := plan.rules[i], faults.rules(i);
        if f.matchLog != Fine {
          failed := true;
        } else if plan.matches(id) {
          if id in completed {
            failed := f.skipLog != Fine;
          } else if !f.executes {
            failed := true;
          } else {
            performed := performed + [id];
            actions, completed := actions + [plan.output(id)], completed + [id];
            failed := Write(Execution(RUNNING, actions, completed), f.checkpoint);
            failed := failed || f.doneLog != Fine;
          }
        }
        i := i + 1;
      }
      FailureStops(p, plan, faults, i, |plan.rules|);
    }

    method ExecuteWorkflow(plan: Plan, faults: Faults)
      modifies this
      ensures State() == Attempt(old(State()), plan, faults)
    {
      if faults.find != Fine || (row.Some? && row.value.status != FAILED) {
        return;
      }
      var checkpoint := if row.Some? then row.value.(status := RUNNING) else Execution(RUNNING, [], []);
      var threw := Write(checkpoint, faults.open);
      if threw || faults.startLog != Fine {
        return;
      }
      var actions, completed, failed := ExecuteRules(plan, faults, checkpoint);
      if !failed {
        failed := Write(Execution(SUCCESS, actions, []), faults.finish);
      }
      if failed && faults.failLog == Fine {
        threw := Write(Execution(FAILED, actions, completed), faults.fail);
      }
    }
  }

  lemma {:induction false} FailureStops(p: Progress, plan: Plan, faults: Faults, i: nat, j: nat)
    requires i <= j <= |plan.rules| && (i == j || Rules(p, plan, faults, i).failed)
    ensures Rules(p, plan, faults, j) == Rules(p, plan, faults, i)
    decreases j
  {
    if i < j {
      FailureStops(p, plan, faults, i, j - 1);
    }
  }
}
