/** What the sections of a dispatch answer, said over the worker's result and the single gates' decisions,
    and what that makes of a finished run. */
module SchedulerAnswers {
  import opened Ordering
  import opened TopologicalOrder
  import Planner
  import opened Gate
  import opened Assignment
  import opened SchedulerCore
  import opened SchedulerSystem
  import opened SchedulerConfluence
  import opened SchedulerOutcome

  /** The gates' answers to a result: each of them passes it, some leaves it pending, or neither. */
  ghost predicate EachPasses(gates: seq<GateKind>, h: Humans, x: Id, r: WorkResult) {
    forall g :: g in gates ==> var d := Decide(g, h, Subject(x, r.status, r.tests)); d.passed && !d.pending
  }

  ghost predicate SomePends(gates: seq<GateKind>, h: Humans, x: Id, r: WorkResult) {
    exists g :: g in gates && Decide(g, h, Subject(x, r.status, r.tests)).pending
  }

  ghost predicate SomeRefuses(gates: seq<GateKind>, h: Humans, x: Id, r: WorkResult) {
    && !SomePends(gates, h, x, r)
    && exists g :: g in gates && !Decide(g, h, Subject(x, r.status, r.tests)).passed
  }

  predicate IsGood(r: WorkResult) {
    r.status == Succeeded || r.status == Partial
  }

  lemma GatesByMembers(gates: seq<GateKind>, h: Humans, x: Id, r: WorkResult)
    ensures Passes(gates, h, SubjectOf(x, r)) <==> EachPasses(gates, h, x, r)
    ensures Pends(gates, h, SubjectOf(x, r)) <==> SomePends(gates, h, x, r)
    ensures SomeRefuses(gates, h, x, r) <==> !EachPasses(gates, h, x, r) && !SomePends(gates, h, x, r)
  {
    var s := Subject(x, r.status, r.tests);
    assert forall i :: 0 <= i < |gates| ==> gates[i] in gates;
    if EachPasses(gates, h, x, r) {
      assert forall i :: 0 <= i < |gates| ==> Decide(gates[i], h, s).passed && !Decide(gates[i], h, s).pending;
    }
    if Pends(gates, h, s) {
      var i :| 0 <= i < |gates| && Decide(gates[i], h, s).pending;
      assert gates[i] in gates;
    }
  }

  // ---- one section ----

  /** An attempt that came back with a result and was recorded ends in one of three ways. */
  lemma FinishAnswers(cfg: Config, h: Humans, x: Id, slot: Slot, b: Binding, r: WorkResult)
    requires SlotOk(x, slot, Some(Busy(b)))
    ensures var e := FinishSection(cfg, h, slot, b, Answer(r), NoFault);
            && (e.out == WorkSucceeded <==> IsGood(r) && EachPasses(cfg.gates, h, x, r))
            && (e.out == WorkPending <==> IsGood(r) && SomePends(cfg.gates, h, x, r))
            && (e.out == WorkFailed <==> !IsGood(r) || SomeRefuses(cfg.gates, h, x, r))
            && EndsLike(e.slot, e.out) && e.slot.result == Some(r) && e.slot.attempts == slot.attempts
            && e.slot.binding.value.worker == b.worker && e.slot.binding.value.attempt == b.attempt
            && e.events == if e.out == WorkSucceeded then [WorkAccepted(x, b.attempt)] else []
  {
    PathToGates(x, slot.attempts, b.worker);
    GatesByMembers(cfg.gates, h, x, r);
    PassesOrPends(cfg.gates, h, SubjectOf(x, r));
  }

  /** State of the package and of its assignment, outcome by outcome. */
  predicate EndsLike(slot: Slot, out: Status) {
    && slot.binding.Some?
    && match out
       case WorkSucceeded => slot.state == Planner.Completed && slot.binding.value.state == Accepted
       case WorkPending => slot.state == Planner.Running && slot.binding.value.state == AwaitingGates
       case WorkFailed => slot.state == Planner.Deficient && slot.binding.value.state == Failure
       case Errored => false
  }

  /** The other replies: an attempt whose worker broke down has failed; a cancelled one and one whose result
      is refused are errors, and only the first closes its assignment. */
  lemma OtherReplies(cfg: Config, h: Humans, x: Id, slot: Slot, b: Binding)
    requires SlotOk(x, slot, Some(Busy(b)))
    ensures var e := FinishSection(cfg, h, slot, b, Crashed, NoFault);
            && e.out == WorkFailed && EndsLike(e.slot, WorkFailed) && e.events == []
            && e.slot.result == slot.result && e.slot.attempts == slot.attempts
    ensures var e := FinishSection(cfg, h, slot, b, Interrupted, NoFault);
            && e.out == Errored && e.events == [] && e.slot.binding.Some? && e.slot.binding.value.state == Canceled
            && e.slot == slot.(binding := e.slot.binding)
    ensures FinishSection(cfg, h, slot, b, Malformed, NoFault) == Change(slot, [], Errored)
  {
    PathToGates(x, slot.attempts, b.worker);
  }

  /** An attempt whose worker broke down or was cancelled ends as it would, but as an error, when that cannot be
      recorded. */
  lemma UnrecordedReplies(cfg: Config, h: Humans, x: Id, slot: Slot, b: Binding, reply: Reply, fault: Fault)
    requires SlotOk(x, slot, Some(Busy(b))) && (reply.Crashed? || reply.Interrupted?)
    ensures var e, ok := FinishSection(cfg, h, slot, b, reply, fault), FinishSection(cfg, h, slot, b, reply, NoFault);
            if fault == RecordFault(1) then e == Change(ok.slot, [PersistFailed(x)], Errored) else e == ok
  {
  }

  /** A record that cannot be written makes the section an error, is announced, and takes nothing back: the
      result stays with the state it had been given when the record was due. */
  lemma UnrecordedAnswers(cfg: Config, h: Humans, x: Id, slot: Slot, b: Binding, r: WorkResult, n: nat)
    requires SlotOk(x, slot, Some(Busy(b)))
    ensures var e, ok := FinishSection(cfg, h, slot, b, Answer(r), RecordFault(n)),
                         FinishSection(cfg, h, slot, b, Answer(r), NoFault);
            var state := if e.slot.binding.Some? then e.slot.binding.value.state else Planned;
            && (n == 1 ==> e.out == Errored && state == Collecting && e.slot.state == Planner.Running)
            && (n == 2 ==> && e.out == Errored
                           && (IsGood(r) ==> state == AwaitingGates && e.slot.state == Planner.Running)
                           && (!IsGood(r) ==> e.slot == ok.slot))
            && (n == 3 ==> if IsGood(r) && EachPasses(cfg.gates, h, x, r) then e.out == Errored && e.slot == ok.slot
                           else e == ok)
            && (n != 1 && n != 2 && n != 3 ==> e == ok)
            && (e.out == Errored ==> e.events == [PersistFailed(x)] && e.slot.result == Some(r))
  {
    PathToGates(x, slot.attempts, b.worker);
    GatesByMembers(cfg.gates, h, x, r);
  }

  /** Asking the gates again answers the same way; a package that does not await its gates is left alone. */
  lemma ResolveAnswers(cfg: Config, h: Humans, x: Id, slot: Slot, flight: Option<Flight>)
    requires SlotOk(x, slot, flight)
    ensures var e := ResolveSection(cfg, h, slot, NoFault);
            if !(slot.binding.Some? && slot.binding.value.state == AwaitingGates) then e == Change(slot, [], Errored)
            else
              && (e.out == WorkSucceeded <==> EachPasses(cfg.gates, h, x, ResultOf(slot)))
              && (e.out == WorkPending <==> SomePends(cfg.gates, h, x, ResultOf(slot)))
              && (e.out == WorkFailed <==> SomeRefuses(cfg.gates, h, x, ResultOf(slot)))
              && EndsLike(e.slot, e.out) && e.slot.result == slot.result && e.slot.attempts == slot.attempts
              && (e.out == WorkPending ==> e.slot == slot)
              && e.events == if e.out == WorkSucceeded then [WorkAccepted(x, slot.binding.value.attempt)] else []
  {
    GatesByMembers(cfg.gates, h, x, ResultOf(slot));
    PassesOrPends(cfg.gates, h, SubjectOf(x, ResultOf(slot)));
  }

  /** When its record cannot be written, what is accepted or refused stays so, and the answer is an error. */
  lemma UnrecordedResolve(cfg: Config, h: Humans, x: Id, slot: Slot, flight: Option<Flight>, fault: Fault)
    requires SlotOk(x, slot, flight) && slot.binding.Some? && slot.binding.value.state == AwaitingGates
    ensures var e, ok := ResolveSection(cfg, h, slot, fault), ResolveSection(cfg, h, slot, NoFault);
            if fault == RecordFault(1) && ok.out != WorkPending then e == Change(ok.slot, [PersistFailed(x)], Errored)
            else e == ok
  {
  }

  /** A failed package that has an assignment can be tried again: it becomes ready and keeps the rest. */
  lemma ResetAnswers(slot: Slot)
    ensures slot.binding.Some? ==> ResetSection(slot) == (slot.(state := Planner.Ready), true)
    ensures slot.binding.None? ==> ResetSection(slot) == (slot, false)
  {
  }

  /** Taking an outcome: one more dispatch and one more attempt of the package; a failed one goes back to ready
      while attempts are left, and counts as failed when none is. */
  lemma CollectAnswers(cfg: Config, slot: Slot, r: RunReport, x: Id, status: Status)
    requires status != Errored && slot.binding.Some?
    ensures var (after, more) := CollectOne(cfg, slot, r, x, status);
            var n := Counted(r.attempts, x) + 1;
            var again := status == WorkFailed && n < if cfg.maxAttempts < 1 then 1 else cfg.maxAttempts;
            && more.dispatched == r.dispatched + 1 && more.attempts == r.attempts[x := n]
            && more.accepted == r.accepted + (if status == WorkSucceeded then 1 else 0)
            && more.pending == r.pending + (if status == WorkPending then 1 else 0)
            && more.failed == r.failed + (if status == WorkFailed && !again then 1 else 0)
            && after == if again then slot.(state := Planner.Ready) else slot
  {
  }

  /** The first section, without faults: with a worker the attempt is counted, leased to it and under way;
      without one nothing changes. */
  lemma BeginAnswers(cfg: Config, x: Id, capabilities: seq<Id>, slot: Slot, fault: Fault)
    ensures var c := BeginSection(cfg, x, capabilities, slot, fault);
            var chosen := cfg.selectOne(capabilities);
            var n := slot.attempts + 1;
            && (chosen.None? ==> c == Change(slot, [], None))
            && (chosen.Some? ==> c.slot.attempts == n && c.slot.binding == slot.binding && c.slot.result == slot.result)
            && (c.out.Some? <==> chosen.Some? && fault != ContractFault && fault != RecordFault(1))
            && (c.out.Some? ==>
                  && c.slot.state == Planner.Running && c.events == [Started(x, n)]
                  && c.out.value.workPackage == x && c.out.value.attempt == n && c.out.value.worker == chosen.value
                  && c.out.value.state == InProgress)
            && (chosen.Some? && fault == ContractFault ==> c.slot.state == slot.state && c.events == [])
            && (chosen.Some? && fault == RecordFault(1) ==>
                  c.slot.state == Planner.Deficient && c.events == [Started(x, n), PersistFailed(x)])
  {
  }

  // ---- a whole run ----

  /** How attempt n of a package ends, by what its worker and the gates say. */
  ghost predicate IsAccepted(w: World, x: Id, n: nat) {
    var reply := w.worker(x, n);
    reply.Answer? && IsGood(reply.result) && EachPasses(w.cfg.gates, w.humans, x, reply.result)
  }

  ghost predicate IsPending(w: World, x: Id, n: nat) {
    var reply := w.worker(x, n);
    reply.Answer? && IsGood(reply.result) && SomePends(w.cfg.gates, w.humans, x, reply.result)
  }

  ghost predicate IsRefused(w: World, x: Id, n: nat) {
    var reply := w.worker(x, n);
    reply.Crashed?
    || (reply.Answer? && (!IsGood(reply.result) || SomeRefuses(w.cfg.gates, w.humans, x, reply.result)))
  }

  lemma EndingAnswers(w: World, x: Id, capabilities: seq<Id>, n: nat)
    requires n >= 1 && w.cfg.selectOne(capabilities).Some?
    requires w.worker(x, n).Answer? || w.worker(x, n).Crashed?
    ensures var out := Ending(w, x, capabilities, n).out;
            && (out == WorkSucceeded <==> IsAccepted(w, x, n))
            && (out == WorkPending <==> IsPending(w, x, n))
            && (out == WorkFailed <==> IsRefused(w, x, n))
  {
    var b := StartedBinding(x, n, Chosen(w, capabilities));
    var slot := Slot(Planner.Running, None, n, None);
    StartedShape(w, x, capabilities, n);
    SectionOut(w, StartedSlot(w, x, capabilities, n), slot, b, w.worker(x, n));
    match w.worker(x, n)
    case Answer(r) =>
      StartedSlotOk(x, n, b);
      FinishAnswers(w.cfg, w.humans, x, slot, b, r);
    case Crashed =>
      StartedSlotOk(x, n, b);
      OtherReplies(w.cfg, w.humans, x, slot, b);
  }

  lemma StartedSlotOk(x: Id, n: nat, b: Binding)
    requires n >= 1 && b == StartedBinding(x, n, b.worker)
    ensures SlotOk(x, Slot(Planner.Running, None, n, None), Some(Busy(b)))
  {
  }

  /** What a second section answers does not depend on what the package held before. */
  lemma SectionOut(w: World, a: Slot, b: Slot, binding: Binding, reply: Reply)
    ensures FinishSection(w.cfg, w.humans, a, binding, reply, NoFault).out
         == FinishSection(w.cfg, w.humans, b, binding, reply, NoFault).out
  {
  }

  /** What the state of a finished run says of a package, and how often it was tried. */
  ghost predicate EndsByAnswers(w: World, nodes: Planner.Nodes, core: Core, report: RunReport, x: Id)
    requires x in nodes
  {
    var n := Counted(report.attempts, x);
    && x in core.nodes
    && (n >= 1 <==> forall d :: d in nodes[x].dependsOn ==> d in core.nodes && core.nodes[d].state == Planner.Completed)
    && (forall k :: 1 <= k < n ==> IsRefused(w, x, k))
    && (core.nodes[x].state == Planner.Completed <==> n >= 1 && IsAccepted(w, x, n))
    && (core.nodes[x].state == Planner.Running <==> n >= 1 && IsPending(w, x, n))
    && (core.nodes[x].state == Planner.Deficient <==> n >= 1 && IsRefused(w, x, n))
    && (core.nodes[x].state == Planner.Deficient ==> n == if w.cfg.maxAttempts < 1 then 1 else w.cfg.maxAttempts)
    && (core.nodes[x].state == Planner.Proposed <==> n == 0)
  }

  lemma PackageByAnswers(w: World, nodes: Planner.Nodes, t: Sys, x: Id)
    requires Quietly(w, t, Ascending(nodes.Keys)) && !t.active && Grows(nodes, t.core.nodes) && x in nodes
    ensures EndsByAnswers(w, nodes, t.core, t.report, x)
  {
    var ids := Ascending(nodes.Keys);
    var caps := t.core.nodes[x].capabilities;
    FinalPackage(w, t, ids, x);
    var n := Counted(t.report.attempts, x);
    assert DepsWithin(t.core.nodes, x, CompletedSet(t.core)) <==>
           forall d :: d in nodes[x].dependsOn ==> d in t.core.nodes && t.core.nodes[d].state == Planner.Completed by {
      assert nodes[x].dependsOn == t.core.nodes[x].dependsOn;
      assert forall d :: d in nodes[x].dependsOn <==> d in Elements(nodes[x].dependsOn);
    }
    if DepsWithin(t.core.nodes, x, CompletedSet(t.core)) {
      AttemptsByAnswers(w, x, caps);
    }
  }

  /** The attempts a package is given: all before the last were refused, and the last one was not, or was
      the last allowed. */
  lemma AttemptsByAnswers(w: World, x: Id, capabilities: seq<Id>)
    requires w.cfg.selectOne(capabilities).Some?
    requires forall n :: w.worker(x, n).Answer? || w.worker(x, n).Crashed?
    ensures var n := Tries(w, x, capabilities);
            var out := Ending(w, x, capabilities, n).out;
            && (forall k :: 1 <= k < n ==> IsRefused(w, x, k))
            && (out == WorkSucceeded <==> IsAccepted(w, x, n))
            && (out == WorkPending <==> IsPending(w, x, n))
            && (out == WorkFailed <==> IsRefused(w, x, n))
            && (out == WorkFailed ==> n == AttemptLimit(w.cfg))
  {
    var n := Tries(w, x, capabilities);
    TriesStop(Outcomes(w, x, capabilities), AttemptLimit(w.cfg), 1);
    EndingAnswers(w, x, capabilities, n);
    forall k | 1 <= k < n ensures IsRefused(w, x, k) {
      EndingAnswers(w, x, capabilities, k);
      assert Outcomes(w, x, capabilities)(k) == WorkFailed;
    }
  }

  lemma {:induction false} TriesStop(out: nat -> Status, limit: nat, k: nat)
    requires 1 <= k <= limit
    ensures var n := TriesFrom(out, limit, k);
            && (forall j :: k <= j < n ==> out(j) == WorkFailed) && (out(n) == WorkFailed ==> n == limit)
    decreases limit - k
  {
    if out(k) == WorkFailed && k < limit {
      TriesStop(out, limit, k + 1);
    }
  }

  /** The report counts the packages by the state they ended in. */
  ghost predicate CountsStates(core: Core, report: RunReport) {
    && report.accepted == |InState(core, Planner.Completed)|
    && report.failed == |InState(core, Planner.Deficient)|
    && report.pending == |InState(core, Planner.Running)|
  }

  lemma EndByAnswers(w: World, nodes: Planner.Nodes, t: Sys)
    requires Quietly(w, t, Ascending(nodes.Keys)) && !t.active && Grows(nodes, t.core.nodes)
    ensures forall x :: x in nodes ==> EndsByAnswers(w, nodes, t.core, t.report, x)
    ensures CountsStates(t.core, t.report)
  {
    forall x | x in nodes ensures EndsByAnswers(w, nodes, t.core, t.report, x) {
      PackageByAnswers(w, nodes, t, x);
    }
    CountsByState(w, t, Ascending(nodes.Keys));
  }

  ghost function InState(core: Core, state: Planner.State): set<Id> {
    set x | x in core.nodes && core.nodes[x].state == state
  }

  /** The meaning of a finished run, package by package and in its report: a package was tried exactly when
      its dependencies completed; it completed, awaits approval or is deficient as the worker's last answer
      and the gates' decisions on it say, every earlier answer having been refused; and the report counts
      the packages in those states. */
  lemma RunByAnswers(w: World, cfg: Config, s: Sys, acts: seq<Action>, t: Sys)
    requires RunFromFresh(w, cfg, s, acts, t) && !t.active
    ensures forall x :: x in s.core.nodes ==> EndsByAnswers(w, s.core.nodes, t.core, t.report, x)
    ensures CountsStates(t.core, t.report)
  {
    var ids := Ascending(s.core.nodes.Keys);
    QuietStart(w, s, ids);
    QuietRun(w, cfg, Start(s), ids, acts, t);
    EndByAnswers(w, s.core.nodes, t);
  }

  lemma CountsByState(w: World, t: Sys, ids: seq<Id>)
    requires Quietly(w, t, ids) && !t.active
    ensures CountsStates(t.core, t.report)
  {
    FinalTallies(w, t, ids);
    var done := CompletedSet(t.core);
    assert InState(t.core, Planner.Completed) == done;
    InStateIsEnding(w, t, ids, Planner.Deficient, WorkFailed);
    InStateIsEnding(w, t, ids, Planner.Running, WorkPending);
  }

  lemma InStateIsEnding(w: World, t: Sys, ids: seq<Id>, state: Planner.State, out: Status)
    requires Quietly(w, t, ids) && !t.active
    requires (state == Planner.Deficient && out == WorkFailed) || (state == Planner.Running && out == WorkPending)
    ensures InState(t.core, state) == EndingIn(w, t.core.nodes, CompletedSet(t.core), out)
  {
    forall x ensures x in InState(t.core, state) <==> x in EndingIn(w, t.core.nodes, CompletedSet(t.core), out) {
      if x in t.core.nodes {
        StateByEnding(w, t, ids, x);
      }
    }
  }

  lemma StateByEnding(w: World, t: Sys, ids: seq<Id>, x: Id)
    requires Quietly(w, t, ids) && !t.active && x in t.core.nodes
    ensures var nodes, done := t.core.nodes, CompletedSet(t.core);
            var out := LastAttempt(w, nodes, x).out;
            && (nodes[x].state == Planner.Deficient <==> DepsWithin(nodes, x, done) && out == WorkFailed)
            && (nodes[x].state == Planner.Running <==> DepsWithin(nodes, x, done) && out == WorkPending)
  {
    FinalPackage(w, t, ids, x);
  }

  // ---- batches and dependencies, by what the states say ----

  /** A batch is the beginning of the ready list, as long as concurrency allows, and at least one package. */
  lemma BatchAnswers(cfg: Config, s: Sys)
    requires Next(cfg, s, StartBatch).Some?
    ensures var ready, t := ReadyList(s.core.nodes), Next(cfg, s, StartBatch).value;
            var most: nat := if cfg.maxConcurrency < 1 then 1 else cfg.maxConcurrency;
            var n := if |ready| < most then |ready| else most;
            n >= 1 && |t.flights| == n && forall x :: x in t.flights <==> x in ready[..n]
    ensures Sorted(ReadyList(s.core.nodes)) && Distinct(ReadyList(s.core.nodes))
  {
    var batch := Batch(cfg, ReadyList(s.core.nodes));
    DistinctCardinality(batch);
    assert Launch(batch).Keys == Elements(batch);
    assert |Launch(batch)| == |Launch(batch).Keys|;
  }

  /** However goroutines and faults interleave, no more of them are under way than concurrency allows. */
  lemma {:induction false} NeverTooMany(cfg: Config, s: Sys, acts: seq<Action>, t: Sys)
    requires Reaches(cfg, s, acts, t) && |s.flights| <= if cfg.maxConcurrency < 1 then 1 else cfg.maxConcurrency
    ensures |t.flights| <= if cfg.maxConcurrency < 1 then 1 else cfg.maxConcurrency
    decreases |acts|
  {
    if acts != [] {
      FlightsBounded(cfg, s, acts[0]);
      NeverTooMany(cfg, Next(cfg, s, acts[0]).value, acts[1..], t);
    }
  }

  lemma FlightsBounded(cfg: Config, s: Sys, a: Action)
    requires Next(cfg, s, a).Some? && |s.flights| <= if cfg.maxConcurrency < 1 then 1 else cfg.maxConcurrency
    ensures |Next(cfg, s, a).value.flights| <= if cfg.maxConcurrency < 1 then 1 else cfg.maxConcurrency
  {
    if a == StartBatch {
      BatchAnswers(cfg, s);
    } else if a == StartDispatch {
      assert Launch([ReadyList(s.core.nodes)[0]]).Keys == {ReadyList(s.core.nodes)[0]};
      assert |Launch([ReadyList(s.core.nodes)[0]])| == |Launch([ReadyList(s.core.nodes)[0]]).Keys|;
    } else if AboutPackage(a) {
      NextWrites(cfg, s, a);
      StoredSize(s.flights, a.x, Write(cfg, s, a).flight, s.flights);
    }
  }

  lemma StoredSize(m: map<Id, Flight>, x: Id, v: Option<Flight>, before: map<Id, Flight>)
    requires m == before && (v.Some? ==> x in m)
    ensures |Store(m, x, v)| <= |before|
  {
    assert |m| == |m.Keys| && |Store(m, x, v)| == |Store(m, x, v).Keys|;
    assert Store(m, x, v).Keys == if v.Some? then m.Keys else m.Keys - {x};
  }

  /** In every state reached from a fresh graph, over any faults: what is running, completed or deficient has
      all its dependencies completed, and what is completed has a succeeded or partial result and went through
      every stage of its assignment. */
  lemma DependenciesCompleted(cfg: Config, s: Sys, acts: seq<Action>, t: Sys, x: Id)
    requires Fresh(s) && Reaches(cfg, s, acts, t) && x in t.core.nodes
    ensures t.core.nodes[x].state in {Planner.Running, Planner.Completed, Planner.Deficient} ==>
              forall d :: d in t.core.nodes[x].dependsOn ==>
                d in t.core.nodes && t.core.nodes[d].state == Planner.Completed
    ensures t.core.nodes[x].state == Planner.Completed ==>
              && x in t.core.results && t.core.results[x].status in {Succeeded, Partial} && x in t.core.assignments
              && t.core.assignments[x].history
                 == [Planned, Leased, Preparing, InProgress, Collecting, AwaitingGates, Accepted]
  {
    DependencySafetyFromFresh(cfg, s, acts, t);
  }
}
