/** Compiling a declarative workflow into a deterministic plan. */
module WorkflowCompiler {
  import opened Ordering
  import opened TopologicalOrder
  import opened Kahn

  /** Names outside the contract's lists are kept apart from those in them. */
  datatype Kind = Task | Tool | Gate | HumanApproval | Parallel | Conditional | UnknownKind(name: Id)

  datatype OnFailure = Unspecified | Fail | Retry | Skip | Compensate | UnknownPolicy(name: Id)

  datatype ConfigValue = IntValue(int) | FloatValue(real) | TextValue(text: Id) | OtherValue

  datatype Config = NoConfig | Keys(concurrency: Option<ConfigValue>, condition: Option<ConfigValue>)

  datatype Step = Step(
    id: Id,
    kind: Kind,
    toolId: Id,
    dependsOn: seq<Id>,
    retries: Option<int>,
    gates: seq<Id>,
    onFailure: OnFailure,
    config: Config)

  /** header stands for the kind and the envelope of the contract object; a budget is only passed on. */
  datatype Workflow = Workflow(id: Id, header: Id, version: Id, budget: Option<Id>, steps: seq<Step>)

  /** Which headers the contract accepts, and which identifiers have its pattern and length. */
  datatype Rules = Rules(header: Id -> bool, identifier: Id -> bool)

  datatype Plan = Plan(workflowId: Id, version: Id, budget: Option<Id>, order: seq<Id>, steps: map<Id, Step>,
                       dependsOn: Lists)

  datatype CompileError =
    | BreaksContract
    | BadStep(id: Id)
    | SelfDependency(id: Id)
    | UnknownDependency(id: Id, dep: Id)
    | Cyclic

  datatype Result<+T> = Success(value: T) | Failure(error: CompileError)

  /** The workflow contract. */
  predicate MeetsContract(w: Workflow, rules: Rules) {
    && rules.header(w.header)
    && w.version != EMPTY
    && w.steps != []
    && (forall s :: s in w.steps ==>
          rules.identifier(s.id) && !s.kind.UnknownKind? && !s.onFailure.UnknownPolicy?)
    && forall i, j :: 0 <= i < j < |w.steps| ==> w.steps[i].id != w.steps[j].id
  }

  predicate ConfigOk(kind: Kind, config: Config) {
    match (kind, config)
    case (Parallel, Keys(concurrency, _)) =>
      (match concurrency
       case Some(IntValue(v)) => v > 0
       case Some(FloatValue(v)) => v > 0.0 && v == v.Floor as real
       case _ => false)
    case (Conditional, Keys(_, condition)) => condition.Some? && condition.value.TextValue?
    case _ => true
  }

  predicate StepOk(s: Step) {
    && (s.kind == Tool ==> s.toolId != EMPTY)
    && (s.kind == Gate ==> s.gates != [])
    && (s.retries.Some? ==> s.retries.value >= 0)
    && ConfigOk(s.kind, s.config)
  }

  ghost predicate StepsById(w: Workflow, steps: map<Id, Step>) {
    && (forall s :: s in w.steps ==> s.id in steps && steps[s.id] == s)
    && forall x :: x in steps ==> steps[x] in w.steps && steps[x].id == x
  }

  ghost function StepDeps(steps: map<Id, Step>): Deps {
    map x | x in steps :: Elements(steps[x].dependsOn)
  }

  /** What a successful compilation promises. */
  ghost predicate Compiled(w: Workflow, plan: Plan) {
    && plan.workflowId == w.id && plan.version == w.version && plan.budget == w.budget
    && StepsById(w, plan.steps)
    && plan.dependsOn.Keys == plan.steps.Keys
    && (forall x :: x in plan.steps ==>
          && StepOk(plan.steps[x])
          && Sorted(plan.dependsOn[x]) && Distinct(plan.dependsOn[x])
          && Elements(plan.dependsOn[x]) == Elements(plan.steps[x].dependsOn))
    && IsOrder(StepDeps(plan.steps), plan.order)
    && forall t :: IsOrder(StepDeps(plan.steps), t) ==> plan.order == t || LexLess(plan.order, t)
  }

  /** Which workflows compile. */
  ghost predicate Compilable(w: Workflow, steps: map<Id, Step>) {
    && (forall s :: s in w.steps ==> StepOk(s))
    && Closed(StepDeps(steps)) && Acyclic(StepDeps(steps))
  }

  ghost predicate Compiles(w: Workflow, rules: Rules) {
    MeetsContract(w, rules) && exists steps :: StepsById(w, steps) && Compilable(w, steps)
  }

  /** What a step of a plan must be like, said by its fields: a tool step names a tool, a gate step a gate, no
      retries are negative, and a configuration of a parallel step gives a positive whole number, one of a
      conditional step a text. */
  ghost predicate WellFormed(s: Step) {
    && !(s.kind == Tool && s.toolId == EMPTY) && !(s.kind == Gate && |s.gates| == 0)
    && (forall n :: s.retries == Some(n) ==> n >= 0)
    && (s.kind == Parallel && s.config != NoConfig ==> exists n :: n > 0 && IsNumber(s.config.concurrency, n))
    && (s.kind == Conditional && s.config != NoConfig ==> exists text :: s.config.condition == Some(TextValue(text)))
  }

  predicate IsNumber(v: Option<ConfigValue>, n: int) {
    v == Some(IntValue(n)) || v == Some(FloatValue(n as real))
  }

  lemma StepOkByFields(s: Step)
    ensures StepOk(s) <==> WellFormed(s)
  {
    if s.kind == Parallel && s.config.Keys? {
      match s.config.concurrency
      case Some(IntValue(v)) => assert IsNumber(s.config.concurrency, v);
      case Some(FloatValue(v)) => assert v == v.Floor as real ==> IsNumber(s.config.concurrency, v.Floor);
      case _ =>
    }
    if s.kind == Conditional && s.config.Keys? {
      match s.config.condition
      case Some(TextValue(text)) => assert s.config.condition == Some(TextValue(text));
      case _ =>
    }
  }

  /** The contract, by the fields of a workflow. */
  ghost predicate ContractFits(w: Workflow, rules: Rules) {
    && rules.header(w.header) && w.version != EMPTY && |w.steps| >= 1
    && (forall s :: s in w.steps ==>
          && rules.identifier(s.id)
          && s.kind in {Task, Tool, Gate, HumanApproval, Parallel, Conditional}
          && s.onFailure in {Unspecified, Fail, Retry, Skip, Compensate})
    && forall i, j :: 0 <= i < |w.steps| && 0 <= j < |w.steps| && w.steps[i].id == w.steps[j].id ==> i == j
  }

  lemma ContractByFields(w: Workflow, rules: Rules)
    ensures MeetsContract(w, rules) <==> ContractFits(w, rules)
  {
    if MeetsContract(w, rules) {
      forall i, j | 0 <= i < |w.steps| && 0 <= j < |w.steps| && w.steps[i].id == w.steps[j].id ensures i == j {
      }
    }
  }

  lemma StepsByFields(w: Workflow)
    ensures (forall s :: s in w.steps ==> StepOk(s)) <==> (forall s :: s in w.steps ==> WellFormed(s))
  {
    forall s | s in w.steps ensures StepOk(s) <==> WellFormed(s) {
      StepOkByFields(s);
    }
  }

  /** Which workflows compile, said by their fields. */
  lemma CompilesByFields(w: Workflow, rules: Rules)
    ensures Compiles(w, rules) <==>
              && ContractFits(w, rules) && (forall s :: s in w.steps ==> WellFormed(s))
              && exists steps :: StepsById(w, steps) && Closed(StepDeps(steps)) && Acyclic(StepDeps(steps))
  {
    ContractByFields(w, rules);
    StepsByFields(w);
    if steps: map<Id, Step> :| StepsById(w, steps) && Closed(StepDeps(steps)) && Acyclic(StepDeps(steps)) {
      assert (forall s :: s in w.steps ==> StepOk(s)) ==> Compilable(w, steps);
    }
  }

  // ---- conditions ----

  /** The condition the comment beside the check asks of a conditional step. */
  predicate HasCondition(s: Step) {
    match s.config
    case Keys(_, Some(TextValue(text))) => text != EMPTY
    case _ => false
  }

  /** What the check lets pass without one: no configuration at all, or an empty text. */
  predicate LeavesConditionOut(s: Step) {
    s.kind == Conditional && (s.config.NoConfig? || s.config.condition == Some(TextValue(EMPTY)))
  }

  /** Every conditional step of a plan has a condition exactly when no step of the workflow leaves it out. */
  lemma ConditionsIff(w: Workflow, plan: Plan)
    requires Compiled(w, plan)
    ensures (forall x :: x in plan.steps && plan.steps[x].kind == Conditional ==> HasCondition(plan.steps[x]))
       <==> (forall s :: s in w.steps ==> !LeavesConditionOut(s))
  {
    forall s | s in w.steps && s.kind == Conditional ensures HasCondition(s) <==> !LeavesConditionOut(s) {
      assert plan.steps[s.id] == s && StepOk(s);
    }
  }

  function WithStep(w: Workflow, i: nat, s: Step): Workflow
    requires i < |w.steps|
  {
    w.(steps := w.steps[i := s])
  }

  lemma StepReplaced(w: Workflow, i: nat, s: Step, steps: map<Id, Step>)
    requires i < |w.steps| && s.id == w.steps[i].id && StepsById(w, steps)
    requires forall j, k :: 0 <= j < k < |w.steps| ==> w.steps[j].id != w.steps[k].id
    ensures StepsById(WithStep(w, i, s), steps[s.id := s])
  {
    var v := WithStep(w, i, s);
    assert w.steps[i] in w.steps && v.steps[i] == s;
    forall k | 0 <= k < |v.steps| && k != i ensures v.steps[k].id != s.id && v.steps[k] in w.steps {
      assert v.steps[k] == w.steps[k];
    }
    forall x | x in steps && x != s.id ensures steps[x] in v.steps {
      var k :| 0 <= k < |w.steps| && w.steps[k] == steps[x];
      assert v.steps[k] == steps[x];
    }
  }

  lemma ContractKept(w: Workflow, i: nat, s: Step, rules: Rules)
    requires MeetsContract(w, rules) && i < |w.steps|
    requires s.id == w.steps[i].id && s.kind == w.steps[i].kind && s.onFailure == w.steps[i].onFailure
    ensures MeetsContract(WithStep(w, i, s), rules)
  {
    var v := WithStep(w, i, s);
    assert w.steps[i] in w.steps;
    forall t | t in v.steps
      ensures rules.identifier(t.id) && !t.kind.UnknownKind? && !t.onFailure.UnknownPolicy?
    {
      assert t == s || t in w.steps;
    }
    assert forall k :: 0 <= k < |v.steps| ==> v.steps[k].id == w.steps[k].id;
  }

  /** Emptying a condition, or taking the whole configuration away, never makes a compiling workflow
      fail: Compile does not look at the text. */
  lemma ConditionUnread(w: Workflow, i: nat, config: Config, rules: Rules)
    requires Compiles(w, rules) && i < |w.steps| && LeavesConditionOut(w.steps[i].(config := config))
    ensures Compiles(WithStep(w, i, w.steps[i].(config := config)), rules)
  {
    var s := w.steps[i].(config := config);
    var steps :| StepsById(w, steps) && Compilable(w, steps);
    ContractKept(w, i, s, rules);
    IndexKept(w, i, s, steps);
  }

  lemma IndexKept(w: Workflow, i: nat, s: Step, steps: map<Id, Step>)
    requires forall j, k :: 0 <= j < k < |w.steps| ==> w.steps[j].id != w.steps[k].id
    requires i < |w.steps| && StepsById(w, steps) && Compilable(w, steps)
    requires s == w.steps[i].(config := s.config) && ConfigOk(s.kind, s.config)
    ensures exists others :: StepsById(WithStep(w, i, s), others) && Compilable(WithStep(w, i, s), others)
  {
    StepReplaced(w, i, s, steps);
    StillCompilable(w, i, s, steps);
    var others: map<Id, Step> := steps[s.id := s];
    assert StepsById(WithStep(w, i, s), others) && Compilable(WithStep(w, i, s), others);
  }

  lemma StillCompilable(w: Workflow, i: nat, s: Step, steps: map<Id, Step>)
    requires i < |w.steps| && StepsById(w, steps) && Compilable(w, steps)
    requires s == w.steps[i].(config := s.config) && ConfigOk(s.kind, s.config)
    ensures Compilable(WithStep(w, i, s), steps[s.id := s])
  {
    assert w.steps[i] in w.steps && steps[s.id] == w.steps[i];
    assert StepDeps(steps[s.id := s]) == StepDeps(steps);
    forall t | t in WithStep(w, i, s).steps ensures StepOk(t) {
      assert t == s || t in w.steps;
    }
  }

  /** A workflow of one conditional step with an empty condition compiles. */
  lemma EmptyConditionCompiles(w: Workflow, s: Step, rules: Rules)
    requires rules.header(w.header) && rules.identifier(s.id) && w.version != EMPTY && w.steps == [s]
    requires s.kind == Conditional && s.dependsOn == [] && s.retries.None? && s.onFailure == Unspecified
    requires s.config == Keys(None, Some(TextValue(EMPTY)))
    ensures Compiles(w, rules) && LeavesConditionOut(s)
  {
    var steps := map[s.id := s];
    var g := StepDeps(steps);
    assert Closed(g);
    assert IsOrder(g, [s.id]);
    OrderableIffAcyclic(g);
    assert StepsById(w, steps) && Compilable(w, steps);
  }

  /** Two plans for the same steps are the same plan: neither the order in which steps and
      dependencies are written nor the iteration order of a map can be seen in the result. */
  lemma PlanUnique(w1: Workflow, w2: Workflow, p1: Plan, p2: Plan)
    requires Compiled(w1, p1) && Compiled(w2, p2)
    requires w1.id == w2.id && w1.version == w2.version && w1.budget == w2.budget
    requires p1.steps.Keys == p2.steps.Keys
    requires forall x :: x in p1.steps ==> Elements(p1.steps[x].dependsOn) == Elements(p2.steps[x].dependsOn)
    ensures p1.order == p2.order && p1.dependsOn == p2.dependsOn
    ensures multiset(w1.steps) == multiset(w2.steps) ==> p1 == p2
  {
    SameOrders(w1, w2, p1, p2);
    SameLists(p1.steps, p2.steps, p1.dependsOn, p2.dependsOn);
    if multiset(w1.steps) == multiset(w2.steps) {
      SameSteps(w1, w2, p1.steps, p2.steps);
    }
  }

  lemma SameOrders(w1: Workflow, w2: Workflow, p1: Plan, p2: Plan)
    requires Compiled(w1, p1) && Compiled(w2, p2) && p1.steps.Keys == p2.steps.Keys
    requires forall x :: x in p1.steps ==> Elements(p1.steps[x].dependsOn) == Elements(p2.steps[x].dependsOn)
    ensures p1.order == p2.order
  {
    SameDeps(p1.steps, p2.steps);
    LeastOrderUnique(StepDeps(p1.steps), p1.order, p2.order);
  }

  lemma SameDeps(a: map<Id, Step>, b: map<Id, Step>)
    requires a.Keys == b.Keys && forall x :: x in a ==> Elements(a[x].dependsOn) == Elements(b[x].dependsOn)
    ensures StepDeps(a) == StepDeps(b)
  {
  }

  lemma SameLists(a: map<Id, Step>, b: map<Id, Step>, listsA: Lists, listsB: Lists)
    requires a.Keys == b.Keys == listsA.Keys == listsB.Keys
    requires forall x :: x in a ==> Elements(a[x].dependsOn) == Elements(b[x].dependsOn)
    requires forall x :: x in a ==>
               Sorted(listsA[x]) && Distinct(listsA[x]) && Elements(listsA[x]) == Elements(a[x].dependsOn)
    requires forall x :: x in b ==>
               Sorted(listsB[x]) && Distinct(listsB[x]) && Elements(listsB[x]) == Elements(b[x].dependsOn)
    ensures listsA == listsB
  {
    forall x | x in a ensures listsA[x] == listsB[x] {
      SortedOfSetUnique(listsA[x], listsB[x]);
    }
  }

  lemma LeastOrderUnique(g: Deps, a: seq<Id>, b: seq<Id>)
    requires IsOrder(g, a) && forall t :: IsOrder(g, t) ==> a == t || LexLess(a, t)
    requires IsOrder(g, b) && forall t :: IsOrder(g, t) ==> b == t || LexLess(b, t)
    ensures a == b
  {
    if a != b {
      LexAntisymmetric(a, b);
    }
  }

  lemma SameSteps(w1: Workflow, w2: Workflow, a: map<Id, Step>, b: map<Id, Step>)
    requires StepsById(w1, a) && StepsById(w2, b) && multiset(w1.steps) == multiset(w2.steps)
    ensures a == b
  {
    SameMultisetSameElements(w1.steps, w2.steps);
    forall x ensures (x in a <==> x in b) && (x in a ==> a[x] == b[x]) {
      assert x in a ==> a[x] in Elements(w1.steps);
      assert x in b ==> b[x] in Elements(w2.steps);
    }
  }

  lemma {:induction false} LexAntisymmetric(a: seq<Id>, b: seq<Id>)
    requires LexLess(a, b)
    ensures !LexLess(b, a)
  {
    if a[0] == b[0] {
      LexAntisymmetric(a[1..], b[1..]);
    }
  }

  /** What an error says of the workflow: that step has that fault, or the dependencies have a cycle. */
  ghost predicate ErrorFits(w: Workflow, steps: map<Id, Step>, error: CompileError) {
    match error
    case BreaksContract => false
    case BadStep(x) => exists s :: s in w.steps && s.id == x && !WellFormed(s)
    case SelfDependency(x) => exists s :: s in w.steps && s.id == x && x in s.dependsOn
    case UnknownDependency(x, dep) => exists s :: s in w.steps && s.id == x && dep in s.dependsOn && dep !in steps
    case Cyclic => Closed(StepDeps(steps)) && !Acyclic(StepDeps(steps)) && forall s :: s in w.steps ==> WellFormed(s)
  }

  /** The dependencies of one step, each once, sorted. */
  method CollectDeps(s: Step, steps: map<Id, Step>) returns (r: Result<seq<Id>>)
    ensures r.Success? <==> s.id !in s.dependsOn && Elements(s.dependsOn) <= steps.Keys
    ensures r.Failure? ==>
              || (r.error == SelfDependency(s.id) && s.id in s.dependsOn)
              || (r.error.UnknownDependency? && r.error.id == s.id
                  && r.error.dep in s.dependsOn && r.error.dep !in steps)
    ensures r.Success? ==> Sorted(r.value) && Distinct(r.value) && Elements(r.value) == Elements(s.dependsOn)
  {
    var deps: seq<Id> := [];
    var seen: set<Id> := {};
    for i := 0 to |s.dependsOn|
      invariant s.id !in s.dependsOn[..i] && Elements(s.dependsOn[..i]) <= steps.Keys
      invariant Distinct(deps) && seen == Elements(deps) == Elements(s.dependsOn[..i])
    {
      var dep := s.dependsOn[i];
      assert s.dependsOn[..i + 1] == s.dependsOn[..i] + [dep];
      if dep == s.id {
        assert dep in s.dependsOn;
        return Failure(SelfDependency(s.id));
      }
      if dep !in steps {
        assert dep in Elements(s.dependsOn);
        return Failure(UnknownDependency(s.id, dep));
      }
      if dep in seen { continue; }
      seen := seen + {dep};
      deps := deps + [dep];
    }
    assert s.dependsOn[..|s.dependsOn|] == s.dependsOn;
    var sorted := Sort(deps);
    DistinctByMultiset(deps, sorted);
    return Success(sorted);
  }

  /** The relation tables, built while ranging over a map in no particular order. */
  method Invert(depends: Lists) returns (indegree: map<Id, int>, dependents: Lists)
    ensures Counts(depends, {}, indegree) && Inverts(depends, dependents)
  {
    indegree, dependents := map[], map[];
    var todo := depends.Keys;
    ghost var d: Lists := map[];
    while todo != {}
      invariant todo <= depends.Keys && d.Keys == depends.Keys - todo == indegree.Keys
      invariant Inverts(d, dependents)
      invariant forall x :: x in d ==> d[x] == depends[x] && indegree[x] == |d[x]|
    {
      var id :| id in todo;
      todo := todo - {id};
      indegree := indegree[id := |depends[id]|];
      dependents := Enter(d, dependents, id, depends[id]);
      d := d[id := depends[id]];
    }
    assert d == depends;
    InitialCounts(d, indegree);
  }

  method StartingSteps(depends: Lists, indegree: map<Id, int>) returns (ready: seq<Id>)
    requires Counts(depends, {}, indegree)
    ensures Sorted(ready) && QueueHolds(depends, {}, indegree, ready)
  {
    ready := [];
    var todo := indegree.Keys;
    while todo != {}
      invariant todo <= indegree.Keys && Distinct(ready)
      invariant forall x :: x in ready <==> x in indegree.Keys - todo && indegree[x] == 0
    {
      var id :| id in todo;
      todo := todo - {id};
      if indegree[id] == 0 {
        ready := ready + [id];
      }
    }
    ready := SortQueue(depends, {}, indegree, ready);
  }

  /** Among ready steps the least identifier is emitted first; a cycle is refused. */
  method TopoOrder(depends: Lists) returns (r: Result<seq<Id>>)
    ensures var g := DepSets(depends);
            && (r.Success? <==> Closed(g) && Acyclic(g))
            && (r.Success? ==> IsOrder(g, r.value) && forall t :: IsOrder(g, t) ==> r.value == t || LexLess(r.value, t))
    ensures r.Failure? ==> r.error == Cyclic
  {
    var indegree, dependents := Invert(depends);
    var ready := StartingSteps(depends, indegree);
    var order := Drain(depends, indegree, dependents, ready);
    GreedyAnswers(DepSets(depends));
    ghost var g := DepSets(depends);
    assert |g| == |g.Keys| && |depends| == |depends.Keys| && g.Keys == depends.Keys;
    if |order| != |depends| {
      return Failure(Cyclic);
    }
    return Success(order);
  }

  method IndexSteps(w: Workflow) returns (steps: map<Id, Step>)
    requires forall i, j :: 0 <= i < j < |w.steps| ==> w.steps[i].id != w.steps[j].id
    ensures StepsById(w, steps)
  {
    steps := map[];
    for i := 0 to |w.steps|
      invariant forall j :: 0 <= j < i ==> w.steps[j].id in steps && steps[w.steps[j].id] == w.steps[j]
      invariant forall x :: x in steps ==> steps[x] in w.steps && steps[x].id == x
    {
      steps := steps[w.steps[i].id := w.steps[i]];
    }
  }

  /** The dependencies of a step, or what is wrong with it. */
  method CheckStep(w: Workflow, s: Step, steps: map<Id, Step>) returns (r: Result<seq<Id>>)
    requires StepsById(w, steps) && s in w.steps
    ensures r.Success? ==> DependsEntry(s, steps, map[s.id := r.value])
    ensures r.Failure? ==> ErrorFits(w, steps, r.error) && r.error != Cyclic && !Compilable(w, steps)
  {
    if !StepOk(s) {
      StepOkByFields(s);
      return Failure(BadStep(s.id));
    }
    r := CollectDeps(s, steps);
    if r.Failure? {
      RefusedDeps(steps, s);
    }
  }

  /** The dependency lists of all steps, or the first thing wrong with a step. */
  method CollectAll(w: Workflow, steps: map<Id, Step>) returns (r: Result<Lists>)
    requires StepsById(w, steps)
    ensures r.Success? ==> r.value.Keys == steps.Keys && DepSets(r.value) == StepDeps(steps)
    ensures r.Success? ==> forall x :: x in steps ==> DependsEntry(steps[x], steps, r.value)
    ensures r.Failure? ==> ErrorFits(w, steps, r.error) && r.error != Cyclic && !Compilable(w, steps)
  {
    var depends: Lists := map[];
    for i := 0 to |w.steps|
      invariant forall x :: x in depends <==> exists j :: 0 <= j < i && w.steps[j].id == x
      invariant forall j :: 0 <= j < i ==> DependsEntry(w.steps[j], steps, depends)
    {
      var s := w.steps[i];
      var deps := CheckStep(w, s, steps);
      if deps.Failure? {
        return Failure(deps.error);
      }
      depends := depends[s.id := deps.value];
    }
    EntriesComplete(w, steps, depends);
    return Success(depends);
  }

  /** Succeeds exactly on workflows that meet the contract, whose steps are well formed and whose
      dependencies are known and acyclic, with the least plan there is. */
  method Compile(w: Workflow, rules: Rules) returns (r: Result<Plan>)
    ensures r.Success? <==> Compiles(w, rules)
    ensures r.Success? ==> Compiled(w, r.value)
    ensures r == Failure(BreaksContract) <==> !MeetsContract(w, rules)
    ensures r.Failure? && r.error != BreaksContract ==>
              exists steps :: StepsById(w, steps) && ErrorFits(w, steps, r.error)
  {
    if !MeetsContract(w, rules) {
      return Failure(BreaksContract);
    }
    var steps := IndexSteps(w);
    forall other | StepsById(w, other) ensures other == steps {
      OneIndex(w, steps, other);
    }
    var depends := CollectAll(w, steps);
    if depends.Failure? {
      return Failure(depends.error);
    }
    StepsAreOk(w, steps, depends.value);
    var order := TopoOrder(depends.value);
    if order.Failure? {
      forall s | s in w.steps ensures WellFormed(s) {
        StepOkByFields(s);
      }
      return Failure(order.error);
    }
    return Success(Plan(w.id, w.version, w.budget, order.value, steps, depends.value));
  }

  lemma StepsAreOk(w: Workflow, steps: map<Id, Step>, depends: Lists)
    requires StepsById(w, steps) && forall x :: x in steps ==> DependsEntry(steps[x], steps, depends)
    ensures forall s :: s in w.steps ==> StepOk(s)
  {
    forall s | s in w.steps ensures StepOk(s) {
      assert DependsEntry(steps[s.id], steps, depends);
    }
  }

  /** What the loop of Compile has established about one step. */
  ghost predicate DependsEntry(s: Step, steps: map<Id, Step>, depends: Lists) {
    && StepOk(s)
    && s.id in depends
    && s.id !in s.dependsOn && Elements(s.dependsOn) <= steps.Keys
    && Sorted(depends[s.id]) && Distinct(depends[s.id])
    && Elements(depends[s.id]) == Elements(s.dependsOn)
  }

  lemma EntriesComplete(w: Workflow, steps: map<Id, Step>, depends: Lists)
    requires StepsById(w, steps)
    requires forall x :: x in depends <==> exists j :: 0 <= j < |w.steps| && w.steps[j].id == x
    requires forall j :: 0 <= j < |w.steps| ==> DependsEntry(w.steps[j], steps, depends)
    ensures depends.Keys == steps.Keys && DepSets(depends) == StepDeps(steps)
    ensures forall x :: x in steps ==> DependsEntry(steps[x], steps, depends)
  {
    forall x ensures x in depends <==> x in steps {
      if x in steps {
        assert steps[x] in w.steps;
      }
    }
    forall x | x in steps ensures DependsEntry(steps[x], steps, depends) {
      assert steps[x] in w.steps;
    }
  }

  lemma OneIndex(w: Workflow, a: map<Id, Step>, b: map<Id, Step>)
    requires StepsById(w, a) && StepsById(w, b)
    ensures a == b
  {
    assert a.Keys == b.Keys;
  }

  lemma RefusedDeps(steps: map<Id, Step>, s: Step)
    requires s.id in steps && steps[s.id] == s
    requires !(s.id !in s.dependsOn && Elements(s.dependsOn) <= steps.Keys)
    ensures !(Closed(StepDeps(steps)) && Acyclic(StepDeps(steps)))
  {
    var g := StepDeps(steps);
    if s.id in s.dependsOn {
      assert s.id in g[s.id];
      assert IsCycle(g, [s.id, s.id]);
    } else {
      assert !(g[s.id] <= g.Keys);
    }
  }
}
