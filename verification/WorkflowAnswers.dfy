/** How the steps of a run end, said over the runner's answers, the undo and the gates. */
module WorkflowAnswers {
  import opened Ordering
  import opened WorkflowCompiler
  import opened WorkflowRuntime
  import opened WorkflowResume

  type Run = (Step, nat) -> Reply

  /** One attempt, and one more for each retry. */
  function AttemptsGranted(step: Step): nat {
    match step.retries
    case Some(n) => if n > 0 then n + 1 else 1
    case None => 1
  }

  /** The attempts after the first n that the step is granted all come back with an error. */
  ghost predicate AllRefused(run: Run, step: Step, n: nat) {
    forall k :: n < k <= AttemptsGranted(step) ==> run(step, k).Error?
  }

  /** Attempt k is the first after the first n that succeeds. */
  ghost predicate FirstDone(run: Run, step: Step, n: nat, k: nat) {
    && n < k <= AttemptsGranted(step) && run(step, k).Done?
    && forall j :: n < j < k ==> run(step, j).Error?
  }

  predicate Undone(env: Env, step: Step, prior: StepResult) {
    step.onFailure == Compensate && env.undo.Some? && env.undo.value(step, prior.output).None?
  }

  predicate UndoRefused(env: Env, step: Step, prior: StepResult) {
    step.onFailure == Compensate && env.undo.Some? && env.undo.value(step, prior.output).Some?
  }

  lemma GrantedIsMax(step: Step)
    ensures AttemptsGranted(step) == MaxAttempts(step) >= 1
  {
  }

  /** The attempts made: up to the first success, or all of them. */
  lemma {:induction false} TriesAnswer(run: Run, step: Step, n: nat)
    requires n < AttemptsGranted(step)
    ensures var t := TryFrom(run, step, n);
            && n < t.attempts <= AttemptsGranted(step) && t.last == Some(run(step, t.attempts))
            && if t.last.value.Done? then FirstDone(run, step, n, t.attempts)
               else AllRefused(run, step, n) && t.attempts == AttemptsGranted(step)
    decreases AttemptsGranted(step) - n
  {
    if run(step, n + 1).Error? && n + 1 < AttemptsGranted(step) {
      TriesAnswer(run, step, n + 1);
    }
  }

  /** How a runner step with an attempt left ends. An absent policy, fail and retry are alike: once the attempts
      are used up the step has failed. */
  lemma StepAnswers(env: Env, step: Step, prior: StepResult)
    requires env.runner.Some? && prior.attempts < AttemptsGranted(step)
    ensures var end := Settle(env, step, prior);
            var run := env.runner.value;
            var refused := AllRefused(run, step, prior.attempts);
            && end.Settled? && end.result.id == step.id
            && (end.result.state == StepComplete <==> exists k :: FirstDone(run, step, prior.attempts, k))
            && (end.result.state == StepSkipped <==> refused && step.onFailure == Skip)
            && (end.result.state == StepCompensated <==> refused && Undone(env, step, prior))
            && (end.result.state == StepFailed <==> refused && step.onFailure != Skip && !Undone(env, step, prior))
    ensures ResultFits(env, step, prior, Settle(env, step, prior).result)
  {
    var run := env.runner.value;
    TriesAnswer(run, step, prior.attempts);
    var t := TryFrom(run, step, prior.attempts);
    if t.last.value.Done? {
      assert FirstDone(run, step, prior.attempts, t.attempts);
      assert !AllRefused(run, step, prior.attempts);
    } else {
      assert forall k :: !FirstDone(run, step, prior.attempts, k);
    }
  }

  /** What the result of a step says of its attempts: the successful one and its output, or the last one and
      its error; of a refused undo the refusal. */
  ghost predicate ResultFits(env: Env, step: Step, prior: StepResult, r: StepResult)
    requires env.runner.Some?
  {
    var run := env.runner.value;
    match r.state
    case StepComplete =>
      && FirstDone(run, step, prior.attempts, r.attempts)
      && run(step, r.attempts) == Done(r.output) && r.reason == NoReason
    case _ =>
      && r.attempts == AttemptsGranted(step) && r.output == None
      && if UndoRefused(env, step, prior) then r.reason == env.undo.value(step, prior.output).value
         else run(step, r.attempts) == Error(r.reason)
  }

  /** The undo is called once, with what the step had put out before, exactly when a step to be compensated
      has failed for good and there is an undo. */
  lemma UndoAnswers(env: Env, step: Step, prior: StepResult)
    requires env.runner.Some? && prior.attempts < AttemptsGranted(step)
    ensures var log := Settle(env, step, prior).log;
            var calls := TryFrom(env.runner.value, step, prior.attempts).log;
            log == calls + if AllRefused(env.runner.value, step, prior.attempts) && step.onFailure == Compensate
                              && env.undo.Some? then [Undo(step.id, prior.output)] else []
  {
    var run := env.runner.value;
    TriesAnswer(run, step, prior.attempts);
    var t := TryFrom(run, step, prior.attempts);
    assert t.log + [] == t.log;
    if t.last.value.Done? {
      assert !AllRefused(run, step, prior.attempts);
    }
  }

  /** Without a runner a step fails at once. */
  lemma NoRunnerAnswers(env: Env, step: Step, prior: StepResult)
    requires env.runner.None?
    ensures Settle(env, step, prior) == Settled([], StepResult(step.id, StepFailed, 0, None, NoRunner))
  {
  }

  /** The metric of a step: one record, the last thing in its log, with the attempts it took (one for a gate,
      none for a step whose dependencies are not done) and whether it is finished; a crash leaves none. */
  lemma RecordAnswers(plan: Plan, env: Env, gates: Gates, s: RunState, i: nat)
    requires Ready(plan, i) && i < |plan.order|
    ensures var x, log := plan.order[i], StepLog(plan, env, gates, s, i);
            if x !in plan.steps || IsDone(s.results, x) then log == []
            else
              var step, prior := plan.steps[x], PriorResult(s.results, x);
              var waits := exists d :: x in plan.dependsOn && d in plan.dependsOn[x] && !IsDone(s.results, d);
              var held := step.kind == Kind.Gate || step.kind == HumanApproval;
              && (waits ==> log == [Record(x, 0, false)])
              && (!waits && held ==> log == [Record(x, 1, gates.Some? && gates.value(step) == Passed)])
              && (!waits && !held ==>
                    match Settle(env, step, prior)
                    case Crash(calls) => log == calls
                    case Settled(calls, r) => log == calls + [Record(x, r.attempts, Finished(r))])
  {
    var x := plan.order[i];
    if x in plan.steps && !IsDone(s.results, x) && DepsSatisfied(plan, s.results, x) && !IsGate(plan.steps[x]) {
      var step, prior := plan.steps[x], PriorResult(s.results, x);
      GrantedIsMax(step);
      if env.runner.Some? && prior.attempts < AttemptsGranted(step) {
        StepAnswers(env, step, prior);
      }
    }
  }

  // ---- a whole run ----

  predicate Finished(r: StepResult) {
    r.state in {StepComplete, StepSkipped, StepCompensated}
  }

  predicate IsDone(results: map<Id, StepResult>, x: Id) {
    x in results && Finished(results[x])
  }

  /** The reason for which a step that was not finished is finished now. */
  ghost predicate FinishedFor(plan: Plan, env: Env, gates: Gates, before: map<Id, StepResult>, x: Id, r: StepResult)
    requires x in plan.steps
  {
    var step := plan.steps[x];
    if step.kind == Kind.Gate || step.kind == HumanApproval then
      gates.Some? && gates.value(step) == Passed && r == StepResult(x, StepComplete, 0, None, NoReason)
    else
      var prior := PriorResult(before, x);
      && env.runner.Some? && prior.attempts < AttemptsGranted(step) && ResultFits(env, step, prior, r)
      && match r.state
         case StepComplete => true
         case StepSkipped => AllRefused(env.runner.value, step, prior.attempts) && step.onFailure == Skip
         case StepCompensated => AllRefused(env.runner.value, step, prior.attempts) && Undone(env, step, prior)
         case _ => false
  }

  /** Why a run stopped at a step. */
  ghost predicate StoppedFor(plan: Plan, env: Env, gates: Gates, before: map<Id, StepResult>, o: Outcome)
    requires o.err.Some?
  {
    var x := o.err.value.id;
    && x in plan.steps && !IsDone(before, x) && !IsDone(o.state.results, x)
    && var step, prior := plan.steps[x], PriorResult(before, x);
       var held := step.kind == Kind.Gate || step.kind == HumanApproval;
       match o.err.value
       case Unsatisfied(_) =>
         && o.state.status == RunFailed && x in o.state.results && o.state.results[x].state == StepAwaitingGate
         && x in plan.dependsOn && exists d :: d in plan.dependsOn[x] && !IsDone(o.state.results, d)
       case AwaitingApproval(_) =>
         && o.state.status == RunAwaitingApproval && held && !(gates.Some? && gates.value(step) == Passed)
         && x in o.state.results && o.state.results[x].state == StepAwaitingGate
       case Failed(_) =>
         && o.state.status == RunFailed && !held && x in o.state.results && o.state.results[x].state == StepFailed
         && (env.runner.Some? && prior.attempts < AttemptsGranted(step) ==>
               && AllRefused(env.runner.value, step, prior.attempts)
               && step.onFailure != Skip && !Undone(env, step, prior)
               && ResultFits(env, step, prior, o.state.results[x]))
       case Crashed(_) => !held && env.runner.Some? && prior.attempts >= AttemptsGranted(step)
  }

  lemma StepFinishes(plan: Plan, env: Env, gates: Gates, s: RunState, i: nat)
    requires Ready(plan, i) && i < |plan.order| && Advance(plan, env, gates, s, i).Some?
    ensures var x, next := plan.order[i], Advance(plan, env, gates, s, i).value;
            x in plan.steps && !IsDone(s.results, x) ==>
              IsDone(next.results, x) && FinishedFor(plan, env, gates, s.results, x, next.results[x])
    ensures var x, next := plan.order[i], Advance(plan, env, gates, s, i).value;
            forall y :: y != x || x !in plan.steps || IsDone(s.results, x) ==>
              Look(next.results, y) == Look(s.results, y)
  {
    var x := plan.order[i];
    if x in plan.steps && !IsDone(s.results, x) && !IsGate(plan.steps[x]) {
      var step, prior := plan.steps[x], PriorResult(s.results, x);
      GrantedIsMax(step);
      if env.runner.Some? && prior.attempts < AttemptsGranted(step) {
        StepAnswers(env, step, prior);
      } else {
        SettleCrashes(env, step, prior);
      }
    }
  }

  lemma StepStops(plan: Plan, env: Env, gates: Gates, s: RunState, i: nat)
    requires Ready(plan, i) && i < |plan.order| && s.status == RunRunning && Advance(plan, env, gates, s, i).None?
    ensures var o := RunFrom(plan, env, gates, s, i);
            o.err.Some? && o.err.value.id == plan.order[i] && StoppedFor(plan, env, gates, s.results, o)
    ensures var o := RunFrom(plan, env, gates, s, i);
            forall y :: y != plan.order[i] ==> Look(o.state.results, y) == Look(s.results, y)
  {
    var x := plan.order[i];
    var step, prior := plan.steps[x], PriorResult(s.results, x);
    if !DepsSatisfied(plan, s.results, x) {
      var d :| d in plan.dependsOn[x] && !IsTerminal(s.results, d);
      assert !IsDone(RunFrom(plan, env, gates, s, i).state.results, d);
    } else if !IsGate(step) {
      GrantedIsMax(step);
      if env.runner.Some? && prior.attempts < AttemptsGranted(step) {
        StepAnswers(env, step, prior);
      } else {
        SettleCrashes(env, step, prior);
      }
    }
  }

  /** The meaning of a run: every step it finished was passed by its gate, or its attempts and its policy say
      so; where it stopped, they say that; and without an error it went through the whole order. */
  ghost predicate RunFits(plan: Plan, env: Env, gates: Gates, before: map<Id, StepResult>, o: Outcome, i: nat)
    requires i <= |plan.order|
  {
    && (forall x :: x in plan.steps && IsDone(o.state.results, x) && !IsDone(before, x) ==>
          x in plan.order[i..] && FinishedFor(plan, env, gates, before, x, o.state.results[x]))
    && (forall x :: IsDone(before, x) ==> Look(o.state.results, x) == Look(before, x))
    && (o.err.Some? ==> o.err.value.id in plan.order[i..] && StoppedFor(plan, env, gates, before, o))
    && (o.err.None? ==> && o.state.status == RunComplete
                        && forall x :: x in plan.order[i..] && x in plan.steps ==> IsDone(o.state.results, x))
  }

  lemma {:induction false} RunFromFits(plan: Plan, env: Env, gates: Gates, s: RunState, i: nat)
    requires Ready(plan, i) && s.status == RunRunning
    ensures RunFits(plan, env, gates, s.results, RunFrom(plan, env, gates, s, i), i)
    decreases |plan.order| - i
  {
    if i < |plan.order| {
      match Advance(plan, env, gates, s, i)
      case Some(next) =>
        RunStep(plan, env, gates, s, i);
        StepFinishes(plan, env, gates, s, i);
        RunFromFits(plan, env, gates, next, i + 1);
        FitsBefore(plan, env, gates, s, next, i);
      case None =>
        StopFits(plan, env, gates, s, i);
    }
  }

  lemma StopFits(plan: Plan, env: Env, gates: Gates, s: RunState, i: nat)
    requires Ready(plan, i) && i < |plan.order| && s.status == RunRunning && Advance(plan, env, gates, s, i).None?
    ensures RunFits(plan, env, gates, s.results, RunFrom(plan, env, gates, s, i), i)
  {
    StepStops(plan, env, gates, s, i);
    OnlyOneChanged(plan, env, gates, s.results, RunFrom(plan, env, gates, s, i), i);
  }

  lemma OnlyOneChanged(plan: Plan, env: Env, gates: Gates, before: map<Id, StepResult>, o: Outcome, i: nat)
    requires i < |plan.order| && o.err.Some? && o.err.value.id == plan.order[i]
    requires StoppedFor(plan, env, gates, before, o)
    requires forall y :: y != plan.order[i] ==> Look(o.state.results, y) == Look(before, y)
    ensures RunFits(plan, env, gates, before, o, i)
  {
    assert plan.order[i] in plan.order[i..];
    forall x | x != plan.order[i] ensures IsDone(o.state.results, x) == IsDone(before, x) {
      assert Look(o.state.results, x) == Look(before, x);
    }
  }

  /** A reason looks at a step's own earlier result only. */
  lemma FinishedAlike(plan: Plan, env: Env, gates: Gates, a: map<Id, StepResult>, b: map<Id, StepResult>, x: Id,
                      r: StepResult)
    requires x in plan.steps && Look(a, x) == Look(b, x) && FinishedFor(plan, env, gates, a, x, r)
    ensures FinishedFor(plan, env, gates, b, x, r)
  {
    assert PriorResult(a, x) == PriorResult(b, x);
  }

  lemma StoppedAlike(plan: Plan, env: Env, gates: Gates, a: map<Id, StepResult>, b: map<Id, StepResult>, o: Outcome)
    requires o.err.Some? && Look(a, o.err.value.id) == Look(b, o.err.value.id) && StoppedFor(plan, env, gates, a, o)
    ensures StoppedFor(plan, env, gates, b, o)
  {
    assert PriorResult(a, o.err.value.id) == PriorResult(b, o.err.value.id);
  }

  lemma FitsBefore(plan: Plan, env: Env, gates: Gates, s: RunState, next: RunState, i: nat)
    requires Ready(plan, i) && i < |plan.order| && Advance(plan, env, gates, s, i) == Some(next)
    requires RunFits(plan, env, gates, next.results, RunFrom(plan, env, gates, next, i + 1), i + 1)
    ensures RunFits(plan, env, gates, s.results, RunFrom(plan, env, gates, s, i), i)
  {
    RunStep(plan, env, gates, s, i);
    StepFinishes(plan, env, gates, s, i);
    var o, rest := RunFrom(plan, env, gates, s, i), RunFrom(plan, env, gates, next, i + 1);
    assert o.state == rest.state && o.err == rest.err;
    FitsEarlier(plan, env, gates, s.results, next.results, o, rest, i);
  }

  lemma FitsEarlier(plan: Plan, env: Env, gates: Gates, before: map<Id, StepResult>, after: map<Id, StepResult>,
                    o: Outcome, rest: Outcome, i: nat)
    requires i < |plan.order| && o.state == rest.state && o.err == rest.err
    requires RunFits(plan, env, gates, after, rest, i + 1)
    requires var x := plan.order[i];
             && (x in plan.steps && !IsDone(before, x) ==>
                   IsDone(after, x) && FinishedFor(plan, env, gates, before, x, after[x]))
             && forall y :: y != x || x !in plan.steps || IsDone(before, x) ==> Look(after, y) == Look(before, y)
    ensures RunFits(plan, env, gates, before, o, i)
  {
    var x := plan.order[i];
    assert plan.order[i..] == [x] + plan.order[i + 1..];
    forall y | y in plan.steps && IsDone(o.state.results, y) && !IsDone(before, y)
      ensures y in plan.order[i..] && FinishedFor(plan, env, gates, before, y, o.state.results[y])
    {
      if y != x {
        assert Look(after, y) == Look(before, y);
        FinishedAlike(plan, env, gates, after, before, y, o.state.results[y]);
      } else {
        assert IsDone(after, x) && Look(o.state.results, x) == Look(after, x);
      }
    }
    if o.err.Some? {
      StoppedAlike(plan, env, gates, after, before, rest);
    }
  }

  /** A run resumes the state it is given, or starts from nothing. */
  lemma RunStartsFrom(plan: Plan, prior: Option<RunState>)
    ensures var s := InitialState(plan, prior);
            && s.status == RunRunning
            && s.results == (if prior.Some? then prior.value.results else map[])
            && s.order == (if prior.Some? then prior.value.order else plan.order)
            && s.workflowId == (if prior.Some? && prior.value.workflowId != EMPTY then prior.value.workflowId
                                else plan.workflowId)
            && s.version == (if prior.Some? && prior.value.version != EMPTY then prior.value.version else plan.version)
  {
  }

  lemma RunAnswers(plan: Plan, env: Env, gates: Gates, prior: Option<RunState>)
    requires PlanKeyed(plan)
    ensures var before := if prior.Some? then prior.value.results else map[];
            RunFits(plan, env, gates, before, RunPlan(plan, env, gates, prior), 0)
  {
    RunFromFits(plan, env, gates, InitialState(plan, prior), 0);
  }
}
