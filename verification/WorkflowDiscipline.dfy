/** What every run of a compiled plan respects: dependencies first, attempts counted. */
module WorkflowDiscipline {
  import opened Ordering
  import opened TopologicalOrder
  import opened Kahn
  import opened WorkflowCompiler
  import opened WorkflowRuntime
  import opened WorkflowResume

  /** What Compile guarantees about a plan and the runtime relies on. */
  ghost predicate Orderly(plan: Plan) {
    && PlanKeyed(plan)
    && plan.dependsOn.Keys == plan.steps.Keys
    && IsOrder(DepSets(plan.dependsOn), plan.order)
  }

  lemma CompiledIsOrderly(w: Workflow, plan: Plan)
    requires Compiled(w, plan)
    ensures Orderly(plan)
  {
    assert DepSets(plan.dependsOn) == StepDeps(plan.steps);
  }

  /** Everything before position i is finished. */
  ghost predicate Behind(plan: Plan, s: RunState, i: nat)
    requires i <= |plan.order|
  {
    forall k :: 0 <= k < i ==> IsTerminal(s.results, plan.order[k])
  }

  lemma ReachedInOrder(plan: Plan, s: RunState, i: nat)
    requires Orderly(plan) && i < |plan.order| && Behind(plan, s, i)
    ensures plan.order[i] in plan.steps && DepsSatisfied(plan, s.results, plan.order[i])
  {
    var id := plan.order[i];
    var g := DepSets(plan.dependsOn);
    assert g[id] <= Elements(plan.order[..i]);
    forall dep | dep in plan.dependsOn[id] ensures IsTerminal(s.results, dep) {
      assert dep in g[id];
      assert dep in plan.order[..i];
    }
  }

  lemma AdvanceStaysBehind(plan: Plan, env: Env, gates: Gates, s: RunState, i: nat)
    requires Orderly(plan) && Ready(plan, i) && i < |plan.order| && Behind(plan, s, i)
    requires Advance(plan, env, gates, s, i).Some?
    ensures Behind(plan, Advance(plan, env, gates, s, i).value, i + 1)
  {
    ReachedInOrder(plan, s, i);
  }

  /** Dependencies are never the reason a run stops, and a run that completes leaves nothing undone. */
  lemma {:induction false} NeverUnsatisfied(plan: Plan, env: Env, gates: Gates, s: RunState, i: nat)
    requires Orderly(plan) && Ready(plan, i) && Behind(plan, s, i)
    ensures var o := RunFrom(plan, env, gates, s, i);
            && (o.err.Some? ==> !o.err.value.Unsatisfied?)
            && (o.err.None? ==> forall id :: id in plan.steps ==> IsTerminal(o.state.results, id))
    decreases |plan.order| - i
  {
    if i < |plan.order| {
      ReachedInOrder(plan, s, i);
      RunStep(plan, env, gates, s, i);
      match Advance(plan, env, gates, s, i)
      case Some(next) =>
        AdvanceStaysBehind(plan, env, gates, s, i);
        NeverUnsatisfied(plan, env, gates, next, i + 1);
      case None =>
    } else {
      forall id | id in plan.steps ensures IsTerminal(s.results, id) {
        assert id in Elements(plan.order);
      }
    }
  }

  // ---- dependencies before calls ----

  function SettledBy(settled: set<Id>, e: Effect): set<Id> {
    if e.Record? && e.ok then settled + {e.id} else settled
  }

  /** Reading a log from left to right: the runner is called on a step only once all its dependencies
      have been settled, before the run or earlier in it. */
  ghost predicate CallsWait(plan: Plan, settled: set<Id>, log: seq<Effect>)
    decreases log
  {
    log == []
    || ((log[0].Record? || (log[0].id in plan.dependsOn && Elements(plan.dependsOn[log[0].id]) <= settled))
        && CallsWait(plan, SettledBy(settled, log[0]), log[1..]))
  }

  ghost function SettledAfter(settled: set<Id>, log: seq<Effect>): set<Id>
    decreases log
  {
    if log == [] then settled else SettledAfter(SettledBy(settled, log[0]), log[1..])
  }

  lemma {:induction false} CallsWaitConcat(plan: Plan, settled: set<Id>, a: seq<Effect>, b: seq<Effect>)
    requires CallsWait(plan, settled, a) && CallsWait(plan, SettledAfter(settled, a), b)
    ensures CallsWait(plan, settled, a + b)
    decreases a
  {
    if a == [] {
      assert a + b == b;
    } else {
      assert (a + b)[0] == a[0] && (a + b)[1..] == a[1..] + b;
      CallsWaitConcat(plan, SettledBy(settled, a[0]), a[1..], b);
    }
  }

  ghost function TerminalIds(results: map<Id, StepResult>): set<Id> {
    set id | id in results && Terminal(results[id])
  }

  /** Logs of one step: calls of that step only. */
  ghost predicate CallsOnly(log: seq<Effect>, id: Id) {
    forall k :: 0 <= k < |log| ==> !log[k].Record? && log[k].id == id
  }

  lemma {:induction false} TriesCallOnly(run: (Step, nat) -> Reply, step: Step, attempt: nat)
    ensures CallsOnly(TryFrom(run, step, attempt).log, step.id)
    decreases MaxAttempts(step) - attempt
  {
    if attempt < MaxAttempts(step) && run(step, attempt + 1).Error? {
      TriesCallOnly(run, step, attempt + 1);
    }
  }

  lemma {:induction false} CallsOfReadyStep(plan: Plan, settled: set<Id>, log: seq<Effect>, id: Id)
    requires CallsOnly(log, id) && id in plan.dependsOn && Elements(plan.dependsOn[id]) <= settled
    ensures CallsWait(plan, settled, log) && SettledAfter(settled, log) == settled
    decreases log
  {
    if log != [] {
      CallsOfReadyStep(plan, settled, log[1..], id);
    }
  }

  /** A runner step whose dependencies are settled. */
  lemma RunnerLogWaits(plan: Plan, settled: set<Id>, env: Env, step: Step, prior: StepResult)
    requires step.id in plan.dependsOn && Elements(plan.dependsOn[step.id]) <= settled
    ensures var end := Settle(env, step, prior);
            && CallsWait(plan, settled, SettledLog(end))
            && SettledAfter(settled, SettledLog(end)) == if GoesOn(end) then settled + {step.id} else settled
  {
    var end := Settle(env, step, prior);
    SettleAttempts(env, step, prior, step.id);
    CallsOfReadyStep(plan, settled, end.log, step.id);
    if end.Settled? {
      var record := Record(step.id, end.result.attempts, Terminal(end.result));
      assert CallsWait(plan, settled, [record]);
      CallsWaitConcat(plan, settled, end.log, [record]);
      SettledConcat(settled, end.log, [record]);
    }
  }

  lemma StepLogWaits(plan: Plan, env: Env, gates: Gates, s: RunState, i: nat)
    requires Orderly(plan) && Ready(plan, i) && i < |plan.order| && Behind(plan, s, i)
    ensures var log := StepLog(plan, env, gates, s, i);
            var settled := TerminalIds(s.results);
            && CallsWait(plan, settled, log)
            && (Advance(plan, env, gates, s, i).Some? ==>
                  SettledAfter(settled, log) == TerminalIds(Advance(plan, env, gates, s, i).value.results))
  {
    var id := plan.order[i];
    var settled := TerminalIds(s.results);
    ReachedInOrder(plan, s, i);
    if !IsTerminal(s.results, id) {
      assert forall r :: Terminal(r) ==> TerminalIds(s.results[id := r]) == settled + {id};
      if IsGate(plan.steps[id]) {
        assert SettledAfter(settled, [Record(id, 1, true)]) == settled + {id};
      } else {
        RunnerLogWaits(plan, settled, env, plan.steps[id], PriorResult(s.results, id));
      }
    }
  }

  lemma {:induction false} SettledConcat(settled: set<Id>, a: seq<Effect>, b: seq<Effect>)
    ensures SettledAfter(settled, a + b) == SettledAfter(SettledAfter(settled, a), b)
    decreases a
  {
    if a == [] {
      assert a + b == b;
    } else {
      assert (a + b)[0] == a[0] && (a + b)[1..] == a[1..] + b;
      SettledConcat(SettledBy(settled, a[0]), a[1..], b);
    }
  }

  lemma {:induction false} RunCallsWait(plan: Plan, env: Env, gates: Gates, s: RunState, i: nat)
    requires Orderly(plan) && Ready(plan, i) && Behind(plan, s, i)
    ensures CallsWait(plan, TerminalIds(s.results), RunFrom(plan, env, gates, s, i).log)
    decreases |plan.order| - i
  {
    if i < |plan.order| {
      RunStep(plan, env, gates, s, i);
      StepLogWaits(plan, env, gates, s, i);
      match Advance(plan, env, gates, s, i)
      case Some(next) =>
        AdvanceStaysBehind(plan, env, gates, s, i);
        RunCallsWait(plan, env, gates, next, i + 1);
        CallsWaitConcat(plan, TerminalIds(s.results), StepLog(plan, env, gates, s, i),
                        RunFrom(plan, env, gates, next, i + 1).log);
      case None =>
    }
  }

  // ---- attempts ----

  /** The attempt numbers with which the runner was called on one step. */
  function AttemptsOf(log: seq<Effect>, id: Id): seq<nat> {
    if log == [] then []
    else (if log[0].Call? && log[0].id == id then [log[0].attempt] else []) + AttemptsOf(log[1..], id)
  }

  lemma {:induction false} AttemptsConcat(a: seq<Effect>, b: seq<Effect>, id: Id)
    ensures AttemptsOf(a + b, id) == AttemptsOf(a, id) + AttemptsOf(b, id)
  {
    if a == [] {
      assert a + b == b;
    } else {
      assert (a + b)[0] == a[0] && (a + b)[1..] == a[1..] + b;
      AttemptsConcat(a[1..], b, id);
    }
  }

  /** n attempts counted on from the given one. */
  function CountOn(from: nat, n: nat): seq<nat>
    decreases n
  {
    if n == 0 then [] else [from + 1] + CountOn(from + 1, n - 1)
  }

  lemma {:induction false} TriesCountOn(run: (Step, nat) -> Reply, step: Step, attempt: nat)
    ensures var t := TryFrom(run, step, attempt);
            AttemptsOf(t.log, step.id) == CountOn(attempt, t.attempts - attempt)
    decreases MaxAttempts(step) - attempt
  {
    if attempt < MaxAttempts(step) && run(step, attempt + 1).Error? {
      TriesCountOn(run, step, attempt + 1);
      AttemptsConcat([Call(step.id, attempt + 1)], TryFrom(run, step, attempt + 1).log, step.id);
    }
  }

  lemma {:induction false} NoAttemptsOf(log: seq<Effect>, id: Id, x: Id)
    requires CallsOnly(log, id) && x != id
    ensures AttemptsOf(log, x) == []
  {
    if log != [] {
      NoAttemptsOf(log[1..], id, x);
    }
  }

  /** How many attempts one runner step uses up. */
  function AttemptsUsed(env: Env, step: Step, prior: StepResult): nat
  {
    if env.runner.None? then 0 else TryFrom(env.runner.value, step, prior.attempts).attempts - prior.attempts
  }

  lemma TriesAttempts(run: (Step, nat) -> Reply, step: Step, prior: nat, x: Id)
    ensures var t := TryFrom(run, step, prior);
            AttemptsOf(t.log, x) == if x == step.id then CountOn(prior, t.attempts - prior) else []
  {
    TriesCallOnly(run, step, prior);
    TriesCountOn(run, step, prior);
    if x != step.id {
      NoAttemptsOf(TryFrom(run, step, prior).log, step.id, x);
    }
  }

  lemma UndoIsNoAttempt(log: seq<Effect>, id: Id, output: Output, x: Id)
    ensures AttemptsOf(log + [Undo(id, output)], x) == AttemptsOf(log, x)
    ensures CallsOnly(log, id) ==> CallsOnly(log + [Undo(id, output)], id)
  {
    AttemptsConcat(log, [Undo(id, output)], x);
  }

  lemma SettleAttempts(env: Env, step: Step, prior: StepResult, x: Id)
    ensures var log := Settle(env, step, prior).log;
            && CallsOnly(log, step.id)
            && AttemptsOf(log, x) == if x == step.id then CountOn(prior.attempts, AttemptsUsed(env, step, prior))
                else []
    ensures var n := AttemptsUsed(env, step, prior); n > 0 ==> prior.attempts + n <= MaxAttempts(step)
    ensures var end := Settle(env, step, prior); end.Settled? ==> end.result.id == step.id
  {
    if env.runner.Some? {
      var t := TryFrom(env.runner.value, step, prior.attempts);
      TriesCallOnly(env.runner.value, step, prior.attempts);
      TriesAttempts(env.runner.value, step, prior.attempts, x);
      UndoIsNoAttempt(t.log, step.id, prior.output, x);
    }
  }

  /** How many attempts position i of the order uses up. */
  ghost function UsedAt(plan: Plan, env: Env, s: RunState, i: nat): (n: nat)
    requires Ready(plan, i) && i < |plan.order|
  {
    var id := plan.order[i];
    if id !in plan.steps || IsTerminal(s.results, id) || !DepsSatisfied(plan, s.results, id) || IsGate(plan.steps[id])
    then 0 else AttemptsUsed(env, plan.steps[id], PriorResult(s.results, id))
  }

  /** One step's share of the log: the attempts of its own step, counted on from what was spent. */
  lemma StepAttempts(plan: Plan, env: Env, gates: Gates, s: RunState, i: nat, x: Id)
    requires Ready(plan, i) && i < |plan.order|
    ensures AttemptsOf(StepLog(plan, env, gates, s, i), x)
         == if x == plan.order[i] then CountOn(Attempted(s.results, x), UsedAt(plan, env, s, i)) else []
    ensures UsedAt(plan, env, s, i) > 0 ==>
              plan.order[i] in plan.steps
              && Attempted(s.results, plan.order[i]) + UsedAt(plan, env, s, i) <= MaxAttempts(plan.steps[plan.order[i]])
  {
    var id := plan.order[i];
    if id in plan.steps && !IsTerminal(s.results, id) && DepsSatisfied(plan, s.results, id) && !IsGate(plan.steps[id]) {
      RunnerAttempts(env, plan.steps[id], PriorResult(s.results, id), x);
    }
  }

  lemma RunnerAttempts(env: Env, step: Step, prior: StepResult, x: Id)
    ensures AttemptsOf(SettledLog(Settle(env, step, prior)), x)
         == if x == step.id then CountOn(prior.attempts, AttemptsUsed(env, step, prior)) else []
    ensures var n := AttemptsUsed(env, step, prior); n > 0 ==> prior.attempts + n <= MaxAttempts(step)
  {
    var end := Settle(env, step, prior);
    SettleAttempts(env, step, prior, x);
    if end.Settled? {
      AttemptsConcat(end.log, [Record(end.result.id, end.result.attempts, Terminal(end.result))], x);
    }
  }

  /** Over a whole run the runner is called on a step with consecutive attempt numbers, starting after
      what was already spent and never exceeding the retries allowed. */
  lemma {:induction false} AttemptsConsecutive(plan: Plan, env: Env, gates: Gates, s: RunState, i: nat, x: Id)
    requires Ready(plan, i) && Distinct(plan.order)
    ensures var log := RunFrom(plan, env, gates, s, i).log;
            var n := |AttemptsOf(log, x)|;
            && AttemptsOf(log, x) == CountOn(Attempted(s.results, x), n)
            && (n > 0 ==> x in plan.order[i..] && x in plan.steps
                          && Attempted(s.results, x) + n <= MaxAttempts(plan.steps[x]))
    decreases |plan.order| - i
  {
    if i < |plan.order| {
      RunStep(plan, env, gates, s, i);
      StepAttempts(plan, env, gates, s, i, x);
      OnePlace(plan.order, i, x);
      match Advance(plan, env, gates, s, i)
      case Some(next) =>
        AttemptsConsecutive(plan, env, gates, next, i + 1, x);
        AttemptsGoOn(plan, env, gates, s, i, next, x);
      case None =>
        CountOnLength(Attempted(s.results, x), UsedAt(plan, env, s, i));
    }
  }

  /** The attempts of a step are all made at its own place in the order. */
  lemma AttemptsGoOn(plan: Plan, env: Env, gates: Gates, s: RunState, i: nat, next: RunState, x: Id)
    requires Ready(plan, i) && i < |plan.order| && Advance(plan, env, gates, s, i) == Some(next)
    requires x != plan.order[i] || AttemptsOf(RunFrom(plan, env, gates, next, i + 1).log, x) == []
    ensures AttemptsOf(RunFrom(plan, env, gates, s, i).log, x)
         == if x == plan.order[i] then CountOn(Attempted(s.results, x), UsedAt(plan, env, s, i))
            else AttemptsOf(RunFrom(plan, env, gates, next, i + 1).log, x)
    ensures |CountOn(Attempted(s.results, x), UsedAt(plan, env, s, i))| == UsedAt(plan, env, s, i)
  {
    RunStep(plan, env, gates, s, i);
    StepAttempts(plan, env, gates, s, i, x);
    AttemptsConcat(StepLog(plan, env, gates, s, i), RunFrom(plan, env, gates, next, i + 1).log, x);
    CountOnLength(Attempted(s.results, x), UsedAt(plan, env, s, i));
  }

  lemma OnePlace(order: seq<Id>, i: nat, x: Id)
    requires Distinct(order) && i < |order|
    ensures x in order[i..] <==> x == order[i] || x in order[i + 1..]
    ensures x == order[i] ==> x !in order[i + 1..]
  {
    assert order[i..] == [order[i]] + order[i + 1..];
  }

  lemma {:induction false} CountOnLength(from: nat, n: nat)
    ensures |CountOn(from, n)| == n
    decreases n
  {
    if n > 0 {
      CountOnLength(from + 1, n - 1);
    }
  }

  /** All of it at once, for a compiled plan, run afresh or resumed. */
  lemma CompiledRunsInOrder(w: Workflow, plan: Plan, env: Env, gates: Gates, prior: Option<RunState>)
    requires Compiled(w, plan)
    ensures var o := RunPlan(plan, env, gates, prior);
            var before := InitialState(plan, prior).results;
            && (o.err.Some? ==> !o.err.value.Unsatisfied?)
            && (o.state.status == RunComplete ==> forall id :: id in plan.steps ==> IsTerminal(o.state.results, id))
            && CallsWait(plan, TerminalIds(before), o.log)
            && forall id :: AttemptsOf(o.log, id) == CountOn(Attempted(before, id), |AttemptsOf(o.log, id)|)
                 && (AttemptsOf(o.log, id) != [] ==>
                       id in plan.steps && Attempted(before, id)
                           + |AttemptsOf(o.log, id)| <= MaxAttempts(plan.steps[id]))
  {
    CompiledIsOrderly(w, plan);
    var s := InitialState(plan, prior);
    var o := RunPlan(plan, env, gates, prior);
    NeverUnsatisfied(plan, env, gates, s, 0);
    KeepsIdentity(plan, env, gates, s, 0);
    RunCallsWait(plan, env, gates, s, 0);
    forall id
      ensures AttemptsOf(o.log, id) == CountOn(Attempted(s.results, id), |AttemptsOf(o.log, id)|)
      ensures AttemptsOf(o.log, id) != [] ==>
                id in plan.steps && Attempted(s.results, id) + |AttemptsOf(o.log, id)| <= MaxAttempts(plan.steps[id])
    {
      AttemptsConsecutive(plan, env, gates, s, 0, id);
    }
  }
}
