/** Running a compiled plan over a runner, with gates, bounded retries and resumption. */
module WorkflowRuntime {
  import opened Ordering
  import opened WorkflowCompiler

  datatype RunStatus = RunRunning | RunComplete | RunFailed | RunAwaitingApproval

  datatype StepState =
    | StepPending | StepRunning | StepComplete | StepSkipped | StepCompensated | StepFailed | StepAwaitingGate

  /** Outputs and error texts are passed on unread; a number stands for each. */
  type Output = Option<nat>

  datatype Reason = NoReason | GateNotPassed | DepsNotSatisfied | NoRunner | NoEvaluator | Reported(text: nat)

  datatype StepResult = StepResult(id: Id, state: StepState, attempts: nat, output: Output, reason: Reason)

  datatype RunState = RunState(
    workflowId: Id, version: Id, status: RunStatus, order: seq<Id>, results: map<Id, StepResult>)

  datatype Reply = Done(output: Output) | Error(reason: Reason)

  datatype GateReply = Passed | Withheld | GateError(reason: Reason)

  type Gates = Option<Step -> GateReply>

  /** The outside world: a runner whose answer depends on the step and the attempt, and perhaps the
      ability to undo a step. */
  datatype Env = Env(runner: Option<(Step, nat) -> Reply>, undo: Option<(Step, Output) -> Option<Reason>>)

  /** What a run does to the outside world, in order: runner calls, undo calls and step metrics. */
  datatype Effect = Call(id: Id, attempt: nat) | Undo(id: Id, output: Output) | Record(id: Id, attempts: nat, ok: bool)

  datatype RunError = Unsatisfied(id: Id) | Failed(id: Id) | AwaitingApproval(id: Id) | Crashed(id: Id)

  /** How Run ends. A crash hands nothing back; its state is the one the run crashed with. */
  datatype Outcome = Outcome(state: RunState, log: seq<Effect>, err: Option<RunError>)

  predicate Terminal(r: StepResult) {
    r.state == StepComplete || r.state == StepSkipped || r.state == StepCompensated
  }

  predicate IsTerminal(results: map<Id, StepResult>, id: Id) {
    id in results && Terminal(results[id])
  }

  predicate DepsSatisfied(plan: Plan, results: map<Id, StepResult>, id: Id) {
    id in plan.dependsOn ==> forall dep :: dep in plan.dependsOn[id] ==> IsTerminal(results, dep)
  }

  function MaxAttempts(step: Step): (r: nat)
    ensures r >= 1
  {
    if step.retries.Some? && step.retries.value >= 0 then step.retries.value + 1 else 1
  }

  function PriorResult(results: map<Id, StepResult>, id: Id): StepResult {
    if id in results then results[id] else StepResult(EMPTY, StepPending, 0, None, NoReason)
  }

  predicate IsGate(step: Step) {
    step.kind == Gate || step.kind == HumanApproval
  }

  function AskGate(gates: Gates, step: Step): GateReply {
    match gates
    case None => GateError(NoEvaluator)
    case Some(evaluate) => evaluate(step)
  }

  function Attempted(results: map<Id, StepResult>, id: Id): nat {
    PriorResult(results, id).attempts
  }

  /** A runner step that is not finished but has used up its attempts. */
  predicate Exhausted(plan: Plan, results: map<Id, StepResult>, id: Id) {
    && id in plan.steps && !IsTerminal(results, id) && !IsGate(plan.steps[id])
    && Attempted(results, id) >= MaxAttempts(plan.steps[id])
  }

  /** Every unfinished runner step still has an attempt left. */
  predicate Resumable(plan: Plan, results: map<Id, StepResult>) {
    forall id :: id in plan.steps ==> !Exhausted(plan, results, id)
  }

  predicate PlanKeyed(plan: Plan) {
    forall id :: id in plan.steps ==> plan.steps[id].id == id
  }

  // ---- one step ----

  /** last is what the last attempt came back with, if one was made. */
  datatype Tries = Tries(log: seq<Effect>, attempts: nat, last: Option<Reply>)

  function After(log: seq<Effect>, last: Option<Reply>, t: Tries): Tries {
    Tries(log + t.log, t.attempts, if t.last.Some? then t.last else last)
  }

  /** Attempts after the given one, until the runner succeeds or none is left. */
  function TryFrom(run: (Step, nat) -> Reply, step: Step, attempt: nat): (t: Tries)
    ensures attempt < MaxAttempts(step) ==> attempt < t.attempts <= MaxAttempts(step) && t.last.Some?
    ensures attempt >= MaxAttempts(step) ==> t == Tries([], attempt, None)
    decreases MaxAttempts(step) - attempt
  {
    if attempt >= MaxAttempts(step) then Tries([], attempt, None)
    else
      var reply := run(step, attempt + 1);
      var call := Call(step.id, attempt + 1);
      if reply.Done? then Tries([call], attempt + 1, Some(reply))
      else After([call], Some(reply), TryFrom(run, step, attempt + 1))
  }

  lemma AfterAfter(log: seq<Effect>, last: Option<Reply>, call: Effect, reply: Reply, t: Tries)
    ensures After(log, last, After([call], Some(reply), t)) == After(log + [call], Some(reply), t)
  {
    ConcatAssociates(log, [call], t.log);
  }

  /** How a runner step ends: with a result, or with a crash. */
  datatype Settled = Settled(log: seq<Effect>, result: StepResult) | Crash(log: seq<Effect>)

  /** A result that gives the last error as its reason; reading an error that was never set is a crash. */
  function WithReason(log: seq<Effect>, step: Step, state: StepState, t: Tries): Settled {
    match t.last
    case Some(Error(reason)) => Settled(log, StepResult(step.id, state, t.attempts, None, reason))
    case _ => Crash(log)
  }

  function Settle(env: Env, step: Step, prior: StepResult): Settled {
    match env.runner
    case None => Settled([], StepResult(step.id, StepFailed, 0, None, NoRunner))
    case Some(run) =>
      var t := TryFrom(run, step, prior.attempts);
      match t.last
      case Some(Done(output)) => Settled(t.log, StepResult(step.id, StepComplete, t.attempts, output, NoReason))
      case _ => GiveUp(env, step, prior, t)
  }

  /** The failure policy. */
  function GiveUp(env: Env, step: Step, prior: StepResult, t: Tries): Settled {
    if step.onFailure == Skip then WithReason(t.log, step, StepSkipped, t)
    else if step.onFailure == Compensate && env.undo.Some? then
      var log := t.log + [Undo(step.id, prior.output)];
      match env.undo.value(step, prior.output)
      case None => WithReason(log, step, StepCompensated, t)
      case Some(why) => Settled(log, StepResult(step.id, StepFailed, t.attempts, None, why))
    else WithReason(t.log, step, StepFailed, t)
  }

  predicate GoesOn(end: Settled) {
    end.Settled? && Terminal(end.result)
  }

  /** What a runner step adds to the log: its calls, and a metric unless it crashed. */
  function SettledLog(end: Settled): seq<Effect> {
    match end
    case Crash(log) => log
    case Settled(log, r) => log + [Record(r.id, r.attempts, Terminal(r))]
  }

  function With(s: RunState, id: Id, r: StepResult): RunState {
    s.(results := s.results[id := r])
  }

  function Before(log: seq<Effect>, o: Outcome): Outcome {
    o.(log := log + o.log)
  }

  /** The run from position i of the plan's order. */
  function RunFrom(plan: Plan, env: Env, gates: Gates, s: RunState, i: nat): Outcome
    requires PlanKeyed(plan) && i <= |plan.order|
    decreases |plan.order| - i
  {
    if i == |plan.order| then Outcome(s.(status := RunComplete), [], None)
    else
      var id := plan.order[i];
      if id !in plan.steps || IsTerminal(s.results, id) then RunFrom(plan, env, gates, s, i + 1)
      else if !DepsSatisfied(plan, s.results, id) then
        Outcome(With(s, id, StepResult(id, StepAwaitingGate, 0, None, DepsNotSatisfied)).(status := RunFailed),
                [Record(id, 0, false)], Some(Unsatisfied(id)))
      else if IsGate(plan.steps[id]) then
        match AskGate(gates, plan.steps[id])
        case GateError(reason) => Withhold(s, id, reason)
        case Withheld => Withhold(s, id, GateNotPassed)
        case Passed =>
          Before([Record(id, 1, true)],
                 RunFrom(plan, env, gates, With(s, id, StepResult(id, StepComplete, 0, None, NoReason)), i + 1))
      else
        var end := Settle(env, plan.steps[id], PriorResult(s.results, id));
        if end.Crash? then Outcome(s, end.log, Some(Crashed(id)))
        else if GoesOn(end) then
          Before(SettledLog(end), RunFrom(plan, env, gates, With(s, id, end.result), i + 1))
        else Outcome(With(s, id, end.result).(status := RunFailed), SettledLog(end), Some(Failed(id)))
  }

  function Withhold(s: RunState, id: Id, reason: Reason): Outcome {
    Outcome(With(s, id, StepResult(id, StepAwaitingGate, 0, None, reason)).(status := RunAwaitingApproval),
            [Record(id, 1, false)], Some(AwaitingApproval(id)))
  }

  function InitialState(plan: Plan, prior: Option<RunState>): RunState {
    match prior
    case None => RunState(plan.workflowId, plan.version, RunRunning, plan.order, map[])
    case Some(p) =>
      RunState(if p.workflowId == EMPTY then plan.workflowId else p.workflowId,
               if p.version == EMPTY then plan.version else p.version, RunRunning, p.order, p.results)
  }

  /** The run the documentation describes, as a function. */
  function RunPlan(plan: Plan, env: Env, gates: Gates, prior: Option<RunState>): Outcome
    requires PlanKeyed(plan)
  {
    RunFrom(plan, env, gates, InitialState(plan, prior), 0)
  }

  // ---- the runtime itself ----

  class Runtime {
    const env: Env
    const gates: Gates

    constructor (env: Env, gates: Gates)
      ensures this.env == env && this.gates == gates
    {
      this.env, this.gates := env, gates;
    }

    /** The attempt loop: every try but the last to be made leaves the step running. */
    method Attempt(results0: map<Id, StepResult>, step: Step, run: (Step, nat) -> Reply, prior: nat)
      returns (results: map<Id, StepResult>, tries: Tries)
      ensures tries == TryFrom(run, step, prior)
      ensures match tries.last
              case None => results == results0
              case Some(Done(output)) =>
                results == results0[step.id := StepResult(step.id, StepComplete, tries.attempts, output, NoReason)]
              case Some(Error(reason)) =>
                results == results0[step.id := StepResult(step.id, StepRunning, tries.attempts, None, reason)]
    {
      results := results0;
      var log: seq<Effect> := [];
      var max := MaxAttempts(step);
      var attempt := prior;
      var last: Option<Reply> := None;
      while attempt < max
        invariant TryFrom(run, step, prior) == After(log, last, TryFrom(run, step, attempt))
        invariant last.Some? ==> last.value.Error?
        invariant results == match last
                             case None => results0
                             case Some(r) =>
                               results0[step.id := StepResult(step.id, StepRunning, attempt, None, r.reason)]
      {
        ghost var before, lastBefore := log, last;
        var call := Call(step.id, attempt + 1);
        attempt := attempt + 1;
        var reply := run(step, attempt);
        log, last := log + [call], Some(reply);
        if reply.Done? {
          results := results[step.id := StepResult(step.id, StepComplete, attempt, reply.output, NoReason)];
          return results, Tries(log, attempt, last);
        }
        results := results[step.id := StepResult(step.id, StepRunning, attempt, None, reply.reason)];
        AfterAfter(before, lastBefore, call, reply, TryFrom(run, step, attempt));
      }
      assert log + [] == log;
      tries := Tries(log, attempt, last);
    }

    /** The attempts of one runner step, then its failure policy. No result of a crash is kept. */
    method RunWithPolicy(results0: map<Id, StepResult>, step: Step)
      returns (results: map<Id, StepResult>, end: Settled)
      ensures end == Settle(env, step, PriorResult(results0, step.id))
      ensures results == if end.Crash? then results0 else results0[step.id := end.result]
    {
      results := results0;
      if env.runner.None? {
        end := Settled([], StepResult(step.id, StepFailed, 0, None, NoRunner));
        return results[step.id := end.result], end;
      }
      var prior := PriorResult(results, step.id);
      var tries;
      results, tries := Attempt(results, step, env.runner.value, prior.attempts);
      if tries.last.Some? && tries.last.value.Done? {
        return results, Settled(tries.log, results[step.id]);
      }
      if step.onFailure == Skip {
        end := WithReason(tries.log, step, StepSkipped, tries);
      } else if step.onFailure == Compensate && env.undo.Some? {
        var refused := env.undo.value(step, prior.output);
        var log := tries.log + [Undo(step.id, prior.output)];
        if refused.Some? {
          end := Settled(log, StepResult(step.id, StepFailed, tries.attempts, None, refused.value));
        } else {
          end := WithReason(log, step, StepCompensated, tries);
        }
      } else {
        end := WithReason(tries.log, step, StepFailed, tries);
      }
      if end.Settled? {
        results := results[step.id := end.result];
      }
    }

    method Run(plan: Plan, prior: Option<RunState>) returns (o: Outcome)
      requires PlanKeyed(plan)
      ensures o == RunPlan(plan, env, gates, prior)
    {
      var state := InitialState(plan, prior);
      var log := [];
      for i := 0 to |plan.order|
        invariant RunPlan(plan, env, gates, prior) == Before(log, RunFrom(plan, env, gates, state, i))
      {
        var id := plan.order[i];
        ghost var next := i + 1;
        if id !in plan.steps {
          continue;
        }
        var step := plan.steps[id];
        if IsTerminal(state.results, id) {
          continue;
        }
        if !DepsSatisfied(plan, state.results, id) {
          state := With(state, id, StepResult(id, StepAwaitingGate, 0, None, DepsNotSatisfied)).(status := RunFailed);
          return Outcome(state, log + [Record(id, 0, false)], Some(Unsatisfied(id)));
        }
        if IsGate(step) {
          var reply := AskGate(gates, step);
          if reply.GateError? {
            return Before(log, Withhold(state, id, reply.reason));
          }
          if reply.Withheld? {
            return Before(log, Withhold(state, id, GateNotPassed));
          }
          state := With(state, id, StepResult(id, StepComplete, 0, None, NoReason));
          ConcatAssociates(log, [Record(id, 1, true)], RunFrom(plan, env, gates, state, next).log);
          log := log + [Record(id, 1, true)];
          continue;
        }
        var results, end := RunWithPolicy(state.results, step);
        if end.Crash? {
          return Outcome(state, log + end.log, Some(Crashed(id)));
        }
        state := state.(results := results);
        if !GoesOn(end) {
          return Outcome(state.(status := RunFailed), log + SettledLog(end), Some(Failed(id)));
        }
        ConcatAssociates(log, SettledLog(end), RunFrom(plan, env, gates, state, next).log);
        log := log + SettledLog(end);
      }
      return Outcome(state.(status := RunComplete), log, None);
    }
  }
}
