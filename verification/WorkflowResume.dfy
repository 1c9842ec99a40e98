/** What resuming a workflow preserves, and what every run of a compiled plan respects. */
module WorkflowResume {
  import opened Ordering
  import opened WorkflowCompiler
  import opened WorkflowRuntime

  /** The runner's view of a log: metrics left out. */
  function Calls(log: seq<Effect>): seq<Effect> {
    if log == [] then [] else (if log[0].Record? then [] else [log[0]]) + Calls(log[1..])
  }

  lemma {:induction false} CallsConcat(a: seq<Effect>, b: seq<Effect>)
    ensures Calls(a + b) == Calls(a) + Calls(b)
  {
    if a == [] {
      assert a + b == b;
    } else {
      assert (a + b)[0] == a[0] && (a + b)[1..] == a[1..] + b;
      CallsConcat(a[1..], b);
    }
  }

  /** Same final state, same error, same calls of the runner. */
  ghost predicate SameRun(a: Outcome, b: Outcome) {
    a.state == b.state && a.err == b.err && Calls(a.log) == Calls(b.log)
  }

  lemma SameRunBefore(log: seq<Effect>, a: Outcome, b: Outcome)
    requires SameRun(a, b)
    ensures SameRun(Before(log, a), Before(log, b))
  {
    CallsConcat(log, a.log);
    CallsConcat(log, b.log);
  }

  lemma SameRunTwice(x: seq<Effect>, y: seq<Effect>, a: Outcome, b: Outcome)
    requires SameRun(a, Before(y, b))
    ensures SameRun(Before(x, a), Before(x + y, b))
  {
    SameRunBefore(x, a, Before(y, b));
    ConcatAssociates(x, y, b.log);
  }

  ghost predicate Ready(plan: Plan, i: nat) {
    PlanKeyed(plan) && i <= |plan.order|
  }

  /** The result with which RunFrom leaves position i, when it goes on to i + 1. */
  ghost function Advance(plan: Plan, env: Env, gates: Gates, s: RunState, i: nat): Option<RunState>
    requires Ready(plan, i) && i < |plan.order|
  {
    var id := plan.order[i];
    if id !in plan.steps || IsTerminal(s.results, id) then Some(s)
    else if !DepsSatisfied(plan, s.results, id) then None
    else if IsGate(plan.steps[id]) then
      if AskGate(gates, plan.steps[id]).Passed? then Some(With(s, id, StepResult(id, StepComplete, 0, None, NoReason)))
      else None
    else
      var end := Settle(env, plan.steps[id], PriorResult(s.results, id));
      if GoesOn(end) then Some(With(s, id, end.result)) else None
  }

  /** What RunFrom does at position i before going on or stopping. */
  ghost function StepLog(plan: Plan, env: Env, gates: Gates, s: RunState, i: nat): seq<Effect>
    requires Ready(plan, i) && i < |plan.order|
  {
    var id := plan.order[i];
    if id !in plan.steps || IsTerminal(s.results, id) then []
    else if !DepsSatisfied(plan, s.results, id) then [Record(id, 0, false)]
    else if IsGate(plan.steps[id]) then [Record(id, 1, AskGate(gates, plan.steps[id]).Passed?)]
    else SettledLog(Settle(env, plan.steps[id], PriorResult(s.results, id)))
  }

  lemma RunStep(plan: Plan, env: Env, gates: Gates, s: RunState, i: nat)
    requires Ready(plan, i) && i < |plan.order|
    ensures var o := RunFrom(plan, env, gates, s, i);
            match Advance(plan, env, gates, s, i)
            case Some(next) => o == Before(StepLog(plan, env, gates, s, i), RunFrom(plan, env, gates, next, i + 1))
            case None => o.log == StepLog(plan, env, gates, s, i) && o.err.Some?
  {
  }

  /** Terminal results are final, and so is the result of a step the run does not come to. */
  lemma {:induction false} KeepsResults(plan: Plan, env: Env, gates: Gates, s: RunState, i: nat, x: Id)
    requires Ready(plan, i)
    requires IsTerminal(s.results, x) || x !in plan.order[i..]
    ensures var r := RunFrom(plan, env, gates, s, i).state.results;
            (x in r <==> x in s.results) && (x in r ==> r[x] == s.results[x])
    decreases |plan.order| - i
  {
    if i < |plan.order| {
      assert plan.order[i] in plan.order[i..];
      assert forall y :: y in plan.order[i + 1..] ==> y in plan.order[i..];
      RunStep(plan, env, gates, s, i);
      match Advance(plan, env, gates, s, i)
      case Some(next) => KeepsResults(plan, env, gates, next, i + 1, x);
      case None =>
    }
  }

  lemma {:induction false} KeepsIdentity(plan: Plan, env: Env, gates: Gates, s: RunState, i: nat)
    requires Ready(plan, i) && s.status == RunRunning
    ensures var o := RunFrom(plan, env, gates, s, i);
            && o.state.workflowId == s.workflowId && o.state.version == s.version && o.state.order == s.order
            && (o.err.None? <==> o.state.status == RunComplete)
            && (o.state.status == RunAwaitingApproval <==> o.err.Some? && o.err.value.AwaitingApproval?)
    decreases |plan.order| - i
  {
    if i < |plan.order| {
      RunStep(plan, env, gates, s, i);
      match Advance(plan, env, gates, s, i)
      case Some(next) => KeepsIdentity(plan, env, gates, next, i + 1);
      case None =>
    }
  }

  /** g passes every gate that became terminal between two states. */
  ghost predicate Opens(plan: Plan, g: Gates, before: map<Id, StepResult>, after: map<Id, StepResult>) {
    forall id :: id in plan.steps && IsGate(plan.steps[id]) && IsTerminal(after, id) && !IsTerminal(before, id) ==>
      AskGate(g, plan.steps[id]) == Passed
  }

  /** Stopping at a gate costs nothing: going on from the stopped state is going on from the start. */
  lemma {:induction false} SplitRun(plan: Plan, env: Env, g1: Gates, g2: Gates, s: RunState, i: nat)
    requires Ready(plan, i) && s.status == RunRunning
    requires RunFrom(plan, env, g1, s, i).state.status == RunAwaitingApproval
    requires Opens(plan, g2, s.results, RunFrom(plan, env, g1, s, i).state.results)
    ensures var o1 := RunFrom(plan, env, g1, s, i);
            var s1 := o1.state.(status := RunRunning);
            SameRun(RunFrom(plan, env, g2, s, i), Before(o1.log, RunFrom(plan, env, g2, s1, i)))
    decreases |plan.order| - i
  {
    KeepsIdentity(plan, env, g1, s, i);
    RunStep(plan, env, g1, s, i);
    var id := plan.order[i];
    var o1 := RunFrom(plan, env, g1, s, i);
    var s1 := o1.state.(status := RunRunning);
    match Advance(plan, env, g1, s, i) {
      case Some(next) =>
        PassesTo(plan, env, g1, g2, s, i);
        OpensLater(plan, g2, s.results, next.results, o1.state.results);
        SplitRun(plan, env, g1, g2, next, i + 1);
        RunStep(plan, env, g2, s, i);
        RunStep(plan, env, g2, s1, i);
        var rest1 := RunFrom(plan, env, g1, next, i + 1);
        SameRunTwice(StepLog(plan, env, g1, s, i), rest1.log,
                     RunFrom(plan, env, g2, next, i + 1), RunFrom(plan, env, g2, s1, i + 1));
        NothingBefore(RunFrom(plan, env, g2, s1, i + 1));
      case None =>
            StopsAt(plan, env, g1, g2, s, i);
    }
  }

  lemma NothingBefore(o: Outcome)
    ensures Before([], o) == o
  {
    assert [] + o.log == o.log;
  }

  /** Where the first run went on, the second goes on in the same way, and the stopped state has
      nothing left to do. */
  lemma PassesTo(plan: Plan, env: Env, g1: Gates, g2: Gates, s: RunState, i: nat)
    requires Ready(plan, i) && i < |plan.order| && Advance(plan, env, g1, s, i).Some?
    requires Opens(plan, g2, s.results, RunFrom(plan, env, g1, s, i).state.results)
    ensures Advance(plan, env, g2, s, i) == Advance(plan, env, g1, s, i)
    ensures StepLog(plan, env, g2, s, i) == StepLog(plan, env, g1, s, i)
    ensures var done := RunFrom(plan, env, g1, s, i).state.results;
            plan.order[i] !in plan.steps || IsTerminal(done, plan.order[i])
  {
    var id := plan.order[i];
    var next := Advance(plan, env, g1, s, i).value;
    RunStep(plan, env, g1, s, i);
    if id in plan.steps {
      assert IsTerminal(next.results, id);
      KeepsResults(plan, env, g1, next, i + 1, id);
    }
  }

  lemma OpensLater(plan: Plan, g: Gates, a: map<Id, StepResult>, b: map<Id, StepResult>, c: map<Id, StepResult>)
    requires Opens(plan, g, a, c) && forall id :: IsTerminal(a, id) ==> IsTerminal(b, id)
    ensures Opens(plan, g, b, c)
  {
  }

  /** At the gate where the first run stopped, both continuations meet the same gate. */
  lemma StopsAt(plan: Plan, env: Env, g1: Gates, g2: Gates, s: RunState, i: nat)
    requires Ready(plan, i) && s.status == RunRunning
    requires i < |plan.order| && Advance(plan, env, g1, s, i).None?
    requires RunFrom(plan, env, g1, s, i).state.status == RunAwaitingApproval
    ensures var o1 := RunFrom(plan, env, g1, s, i);
            var s1 := o1.state.(status := RunRunning);
            SameRun(RunFrom(plan, env, g2, s, i), Before(o1.log, RunFrom(plan, env, g2, s1, i)))
  {
    var id := plan.order[i];
    var o1 := RunFrom(plan, env, g1, s, i);
    var s1 := o1.state.(status := RunRunning);
    var held := s1.results[id];
    assert s1 == With(s, id, held) && !Terminal(held) && o1.log == [Record(id, 1, false)];
    HeldGate(plan, env, g2, s, i, held);
    CallsConcat(o1.log, RunFrom(plan, env, g2, s1, i).log);
  }

  /** A result that is not terminal makes no difference to how a gate is met. */
  lemma HeldGate(plan: Plan, env: Env, g: Gates, s: RunState, i: nat, held: StepResult)
    requires Ready(plan, i) && i < |plan.order|
    requires var id := plan.order[i];
             && id in plan.steps && IsGate(plan.steps[id]) && !IsTerminal(s.results, id) && !Terminal(held)
             && DepsSatisfied(plan, s.results, id)
    ensures RunFrom(plan, env, g, With(s, plan.order[i], held), i) == RunFrom(plan, env, g, s, i)
  {
    var id := plan.order[i];
    var s1 := With(s, id, held);
    forall dep ensures IsTerminal(s1.results, dep) <==> IsTerminal(s.results, dep) {
    }
    assert DepsSatisfied(plan, s1.results, id);
    forall r ensures With(s1, id, r) == With(s, id, r) {
      assert s1.results[id := r] == s.results[id := r];
    }
  }

  // ---- any number of sessions ----

  /** A run stopped at a gate goes on from the state it returned, and it leaves no step without an
      attempt that had one. */
  lemma StoppedIsResumable(plan: Plan, env: Env, gates: Gates, prior: Option<RunState>)
    requires PlanKeyed(plan) && RunPlan(plan, env, gates, prior).state.status == RunAwaitingApproval
    ensures var o := RunPlan(plan, env, gates, prior);
            && InitialState(plan, Some(o.state)) == o.state.(status := RunRunning)
            && (Resumable(plan, InitialState(plan, prior).results) ==> Resumable(plan, o.state.results))
  {
    var s := InitialState(plan, prior);
    var o := RunPlan(plan, env, gates, prior);
    KeepsIdentity(plan, env, gates, s, 0);
    if Resumable(plan, s.results) {
      forall x | x in plan.steps ensures !Exhausted(plan, o.state.results, x) {
        ExhaustedByFailure(plan, env, gates, s, 0, x);
      }
    }
  }

  /** Run under the first gates; while that stops at a gate, resume the returned state under the next. */
  datatype Sessions = Sessions(outcome: Outcome, last: Gates)

  ghost function RunSessions(plan: Plan, env: Env, prior: Option<RunState>, gs: seq<Gates>): Sessions
    requires PlanKeyed(plan) && gs != []
    decreases gs
  {
    var o := RunPlan(plan, env, gs[0], prior);
    if |gs| == 1 || o.state.status != RunAwaitingApproval then Sessions(o, gs[0])
    else
      StoppedIsResumable(plan, env, gs[0], prior);
      var rest := RunSessions(plan, env, Some(o.state), gs[1..]);
      rest.(outcome := Before(o.log, rest.outcome))
  }

  /** The gates of one run agree with what the sessions saw: open where a session passed, and
      answering alike at the gate where the last session was still held. */
  ghost predicate Agrees(plan: Plan, g: Gates, before: map<Id, StepResult>, end: Outcome, last: Gates) {
    && Opens(plan, g, before, end.state.results)
    && (end.err.Some? && end.err.value.AwaitingApproval? && end.err.value.id in plan.steps ==>
          AskGate(g, plan.steps[end.err.value.id]) == AskGate(last, plan.steps[end.err.value.id]))
  }

  /** Gates can only be told apart where they are asked. */
  lemma {:induction false} AgreeingGates(plan: Plan, env: Env, g1: Gates, g2: Gates, s: RunState, i: nat)
    requires Ready(plan, i)
    requires Agrees(plan, g2, s.results, RunFrom(plan, env, g1, s, i), g1)
    ensures RunFrom(plan, env, g2, s, i) == RunFrom(plan, env, g1, s, i)
    decreases |plan.order| - i
  {
    if i < |plan.order| {
      RunStep(plan, env, g1, s, i);
        match Advance(plan, env, g1, s, i) {
        case Some(next) =>
          PassesTo(plan, env, g1, g2, s, i);
          OpensLater(plan, g2, s.results, next.results, RunFrom(plan, env, g1, s, i).state.results);
          AgreeingGates(plan, env, g1, g2, next, i + 1);
          RunStep(plan, env, g2, s, i);
        case None =>
      }
    }
  }

  lemma {:induction false} SessionsKeepTerminal(plan: Plan, env: Env, prior: Option<RunState>, gs: seq<Gates>, x: Id)
    requires PlanKeyed(plan) && gs != []
    requires IsTerminal(InitialState(plan, prior).results, x)
    ensures IsTerminal(RunSessions(plan, env, prior, gs).outcome.state.results, x)
    decreases gs
  {
    var s := InitialState(plan, prior);
    KeepsResults(plan, env, gs[0], s, 0, x);
    var o := RunPlan(plan, env, gs[0], prior);
    if |gs| > 1 && o.state.status == RunAwaitingApproval {
      StoppedIsResumable(plan, env, gs[0], prior);
      SessionsKeepTerminal(plan, env, Some(o.state), gs[1..], x);
    }
  }

  /** Resume equivalence: a workflow stopped any number of times at withheld gates and resumed each
      time from the returned state ends in the same state, with the same error and the same
      concatenated runner calls, as one uninterrupted run with those gates open. */
  lemma {:induction false} ResumeEquivalence(plan: Plan, env: Env, prior: Option<RunState>, gs: seq<Gates>, g: Gates)
    requires PlanKeyed(plan) && gs != []
    requires var end := RunSessions(plan, env, prior, gs);
             Agrees(plan, g, InitialState(plan, prior).results, end.outcome, end.last)
    ensures SameRun(RunPlan(plan, env, g, prior), RunSessions(plan, env, prior, gs).outcome)
    decreases gs
  {
    var s := InitialState(plan, prior);
    var end := RunSessions(plan, env, prior, gs);
    var o := RunPlan(plan, env, gs[0], prior);
    if |gs| == 1 || o.state.status != RunAwaitingApproval {
      AgreeingGates(plan, env, gs[0], g, s, 0);
    } else {
      StoppedIsResumable(plan, env, gs[0], prior);
      forall x | IsTerminal(o.state.results, x) ensures IsTerminal(end.outcome.state.results, x) {
        SessionsKeepTerminal(plan, env, Some(o.state), gs[1..], x);
      }
      forall x | IsTerminal(s.results, x) ensures IsTerminal(o.state.results, x) {
        KeepsResults(plan, env, gs[0], s, 0, x);
      }
      OpensLater(plan, g, s.results, o.state.results, end.outcome.state.results);
      ResumeEquivalence(plan, env, Some(o.state), gs[1..], g);
      SplitRun(plan, env, gs[0], g, s, 0);
      SameRunBefore(o.log, RunPlan(plan, env, g, Some(o.state)),
                    RunSessions(plan, env, Some(o.state), gs[1..]).outcome);
    }
  }

  /** With every gate open in the end: the sessions did what a run that never met a closed gate does. */
  lemma ResumedRunIsOpenRun(plan: Plan, env: Env, prior: Option<RunState>, gs: seq<Gates>)
    requires PlanKeyed(plan) && gs != []
    requires RunSessions(plan, env, prior, gs).outcome.state.status != RunAwaitingApproval
    ensures SameRun(RunPlan(plan, env, Some(_ => Passed), prior), RunSessions(plan, env, prior, gs).outcome)
  {
    SessionsStatus(plan, env, prior, gs);
    ResumeEquivalence(plan, env, prior, gs, Some(_ => Passed));
  }

  lemma {:induction false} SessionsStatus(plan: Plan, env: Env, prior: Option<RunState>, gs: seq<Gates>)
    requires PlanKeyed(plan) && gs != []
    ensures var o := RunSessions(plan, env, prior, gs).outcome;
            o.state.status == RunAwaitingApproval <==> o.err.Some? && o.err.value.AwaitingApproval?
    decreases gs
  {
    var s := InitialState(plan, prior);
    KeepsIdentity(plan, env, gs[0], s, 0);
    var o := RunPlan(plan, env, gs[0], prior);
    if |gs| > 1 && o.state.status == RunAwaitingApproval {
      StoppedIsResumable(plan, env, gs[0], prior);
      SessionsStatus(plan, env, Some(o.state), gs[1..]);
    }
  }

  // ---- steps that have used up their attempts ----

  /** A run exhausts only the step it fails on. */
  lemma {:induction false} ExhaustedByFailure(plan: Plan, env: Env, gates: Gates, s: RunState, i: nat, x: Id)
    requires Ready(plan, i) && !Exhausted(plan, s.results, x)
    ensures var o := RunFrom(plan, env, gates, s, i);
            Exhausted(plan, o.state.results, x) ==> o.err == Some(Failed(x))
    decreases |plan.order| - i
  {
    if i < |plan.order| {
      RunStep(plan, env, gates, s, i);
      match Advance(plan, env, gates, s, i)
      case Some(next) => ExhaustedByFailure(plan, env, gates, next, i + 1, x);
      case None =>
    }
  }

  /** The runtime reads an error that was never set: no attempt is left to make one, and no refusal to
      undo is there to report instead. */
  predicate Doomed(env: Env, step: Step, prior: StepResult) {
    && env.runner.Some? && prior.attempts >= MaxAttempts(step)
    && !(step.onFailure == Compensate && env.undo.Some? && env.undo.value(step, prior.output).Some?)
  }

  lemma SettleCrashes(env: Env, step: Step, prior: StepResult)
    ensures Settle(env, step, prior).Crash? <==> Doomed(env, step, prior)
  {
  }

  /** x is to be run, and running it crashes. */
  predicate DoomedIn(plan: Plan, env: Env, results: map<Id, StepResult>, x: Id) {
    Exhausted(plan, results, x) && Doomed(env, plan.steps[x], PriorResult(results, x))
  }

  /** Everything from position i up to k is finished. */
  ghost predicate DoneUpTo(plan: Plan, results: map<Id, StepResult>, i: nat, k: nat)
    requires k <= |plan.order|
  {
    forall j :: i <= j < k && plan.order[j] in plan.steps ==> IsTerminal(results, plan.order[j])
  }

  /** A run crashes at a step exactly when it gets there and the step is one that crashes. */
  lemma {:induction false} CrashesIff(plan: Plan, env: Env, gates: Gates, s: RunState, i: nat, k: nat)
    requires Ready(plan, i) && i <= k < |plan.order| && plan.order[k] !in plan.order[i..k]
    ensures var x, o := plan.order[k], RunFrom(plan, env, gates, s, i);
            o.err == Some(Crashed(x))
            <==> (DoomedIn(plan, env, s.results, x)
                  && DoneUpTo(plan, o.state.results, i, k) && DepsSatisfied(plan, o.state.results, x))
    decreases k - i
  {
    var x := plan.order[k];
    RunStep(plan, env, gates, s, i);
    if i == k {
      CrashesHere(plan, env, gates, s, i);
    } else {
      assert plan.order[i] != x && plan.order[i] in plan.order[i..k];
      assert forall y :: y in plan.order[i + 1..k] ==> y in plan.order[i..k];
      match Advance(plan, env, gates, s, i)
      case Some(next) =>
        CrashesIff(plan, env, gates, next, i + 1, k);
        CrashesLater(plan, env, gates, s, i, k, next);
      case None =>
        StopsUndone(plan, env, gates, s, i);
    }
  }

  lemma CrashesLater(plan: Plan, env: Env, gates: Gates, s: RunState, i: nat, k: nat, next: RunState)
    requires Ready(plan, i) && i < k < |plan.order| && Advance(plan, env, gates, s, i) == Some(next)
    requires plan.order[i] != plan.order[k]
    ensures DoomedIn(plan, env, next.results, plan.order[k]) <==> DoomedIn(plan, env, s.results, plan.order[k])
    ensures var done := RunFrom(plan, env, gates, next, i + 1).state.results;
            DoneUpTo(plan, done, i, k) <==> DoneUpTo(plan, done, i + 1, k)
  {
    if plan.order[i] in plan.steps {
      KeepsResults(plan, env, gates, next, i + 1, plan.order[i]);
    }
  }

  lemma StopsUndone(plan: Plan, env: Env, gates: Gates, s: RunState, i: nat)
    requires Ready(plan, i) && i < |plan.order| && Advance(plan, env, gates, s, i).None?
    ensures var o, id := RunFrom(plan, env, gates, s, i), plan.order[i];
            id in plan.steps && !IsTerminal(o.state.results, id) && o.err.Some? && o.err.value.id == id
  {
  }

  lemma {:induction false} CrashOnlyDoomed(plan: Plan, env: Env, gates: Gates, s: RunState, i: nat, x: Id)
    requires Ready(plan, i) && RunFrom(plan, env, gates, s, i).err == Some(Crashed(x))
    ensures DoomedIn(plan, env, s.results, x)
    decreases |plan.order| - i
  {
    if i < |plan.order| {
      var id := plan.order[i];
      RunStep(plan, env, gates, s, i);
      match Advance(plan, env, gates, s, i)
      case Some(next) => CrashOnlyDoomed(plan, env, gates, next, i + 1, x);
      case None => SettleCrashes(env, plan.steps[id], PriorResult(s.results, id));
    }
  }

  lemma CrashesHere(plan: Plan, env: Env, gates: Gates, s: RunState, i: nat)
    requires Ready(plan, i) && i < |plan.order|
    ensures var x, o := plan.order[i], RunFrom(plan, env, gates, s, i);
            o.err == Some(Crashed(x))
            <==> DoomedIn(plan, env, s.results, x) && DepsSatisfied(plan, o.state.results, x)
  {
    var x, o := plan.order[i], RunFrom(plan, env, gates, s, i);
    if DoomedIn(plan, env, s.results, x) {
      SettleCrashes(env, plan.steps[x], PriorResult(s.results, x));
      if !DepsSatisfied(plan, s.results, x) {
        forall dep ensures IsTerminal(o.state.results, dep) == IsTerminal(s.results, dep) {
        }
      }
    } else if o.err == Some(Crashed(x)) {
      CrashOnlyDoomed(plan, env, gates, s, i, x);
    }
  }

  /** With an attempt left on every unfinished step no run crashes. */
  lemma ResumableNeverCrashes(plan: Plan, env: Env, gates: Gates, prior: Option<RunState>)
    requires PlanKeyed(plan) && Resumable(plan, InitialState(plan, prior).results)
    ensures var o := RunPlan(plan, env, gates, prior);
            o.err.Some? ==> !o.err.value.Crashed?
  {
    var o := RunPlan(plan, env, gates, prior);
    if o.err.Some? && o.err.value.Crashed? {
      CrashOnlyDoomed(plan, env, gates, InitialState(plan, prior), 0, o.err.value.id);
    }
  }

  // ---- resuming a run that failed ----

  lemma {:induction false} FailedTries(run: (Step, nat) -> Reply, step: Step, attempt: nat)
    requires var t := TryFrom(run, step, attempt); t.last.None? || t.last.value.Error?
    ensures TryFrom(run, step, attempt).attempts >= MaxAttempts(step)
    decreases MaxAttempts(step) - attempt
  {
    if attempt < MaxAttempts(step) {
      FailedTries(run, step, attempt + 1);
    }
  }

  /** How the second run ends: only a runtime that can undo the step, and is refused again, reports
      anything. */
  function EndOfSecondRun(env: Env, step: Step): RunError {
    if step.onFailure == Compensate && env.undo.Some? && env.undo.value(step, None).Some? then Failed(step.id)
    else Crashed(step.id)
  }

  lemma FailedStepAgain(env: Env, step: Step, prior: StepResult)
    requires env.runner.Some?
    requires var end := Settle(env, step, prior); end.Settled? && !Terminal(end.result)
    ensures var again := Settle(env, step, Settle(env, step, prior).result);
            EndOfSecondRun(env, step) == if again.Crash? then Crashed(step.id) else Failed(step.id)
    ensures var again := Settle(env, step, Settle(env, step, prior).result);
            again.Settled? ==> !Terminal(again.result)
  {
    FailedTries(env.runner.value, step, prior.attempts);
    SettleCrashes(env, step, Settle(env, step, prior).result);
  }

  /** A run that failed at a step cannot be resumed: the step has no attempt left, and the runtime crashes
      at it, whatever the gates, unless it is refused an undo. */
  lemma {:induction false} FailedRunCannotGoOn(plan: Plan, env: Env, g1: Gates, g2: Gates, s: RunState, i: nat)
    requires Ready(plan, i) && env.runner.Some?
    requires var o := RunFrom(plan, env, g1, s, i); o.err.Some? && o.err.value.Failed?
    ensures var o := RunFrom(plan, env, g1, s, i);
            && o.err.value.id in plan.steps
            && RunFrom(plan, env, g2, o.state.(status := RunRunning), i).err
               == Some(EndOfSecondRun(env, plan.steps[o.err.value.id]))
    decreases |plan.order| - i
  {
    var o := RunFrom(plan, env, g1, s, i);
    var s1 := o.state.(status := RunRunning);
    RunStep(plan, env, g1, s, i);
    match Advance(plan, env, g1, s, i)
    case Some(next) =>
      FailedRunCannotGoOn(plan, env, g1, g2, next, i + 1);
      if plan.order[i] in plan.steps {
        KeepsResults(plan, env, g1, next, i + 1, plan.order[i]);
      }
      RunStep(plan, env, g2, s1, i);
    case None =>
      FailsAgain(plan, env, g1, g2, s, i);
  }

  lemma FailsAgain(plan: Plan, env: Env, g1: Gates, g2: Gates, s: RunState, i: nat)
    requires Ready(plan, i) && env.runner.Some? && i < |plan.order| && Advance(plan, env, g1, s, i).None?
    requires var o := RunFrom(plan, env, g1, s, i); o.err.Some? && o.err.value.Failed?
    ensures var o := RunFrom(plan, env, g1, s, i);
            && o.err.value.id in plan.steps
            && RunFrom(plan, env, g2, o.state.(status := RunRunning), i).err
               == Some(EndOfSecondRun(env, plan.steps[o.err.value.id]))
  {
    var id, o := plan.order[i], RunFrom(plan, env, g1, s, i);
    var s1 := o.state.(status := RunRunning);
    FailedStepAgain(env, plan.steps[id], PriorResult(s.results, id));
    forall dep ensures IsTerminal(s1.results, dep) == IsTerminal(s.results, dep) {
    }
    assert PriorResult(s1.results, id) == Settle(env, plan.steps[id], PriorResult(s.results, id)).result;
  }
}
