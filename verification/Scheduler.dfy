/** The scheduler object: its critical sections as methods on fields, and the loop of Run over them. */
module Scheduler {
  import opened Ordering
  import opened TopologicalOrder
  import Planner
  import opened Gate
  import opened Assignment
  import opened SchedulerCore
  import opened SchedulerSystem
  import opened SchedulerConfluence
  import opened SchedulerOutcome
  import opened SchedulerAnswers

  lemma StoreLook<T>(m: map<Id, T>, x: Id)
    ensures Store(m, x, Look(m, x)) == m
  {
  }

  /** Writing back a share that leaves a map as it is. */
  lemma UnchangedMaps(core: Core, x: Id)
    requires forall y :: y in core.attempts ==> core.attempts[y] > 0
    ensures Store(core.assignments, x, Look(core.assignments, x)) == core.assignments
    ensures Store(core.results, x, Look(core.results, x)) == core.results
    ensures var n := AttemptsMade(core, x); Store(core.attempts, x, if n == 0 then None else Some(n)) == core.attempts
    ensures core.events + [] == core.events
  {
    StoreLook(core.assignments, x);
    StoreLook(core.results, x);
  }

  /** Writing only the state of a package. */
  lemma StateWritten(core: Core, x: Id, state: Planner.State, events: seq<Event>)
    requires x in core.nodes && forall y :: y in core.attempts ==> core.attempts[y] > 0
    ensures Put(core, x, SlotOf(core, x).(state := state), events)
         == core.(nodes := core.nodes[x := core.nodes[x].(state := state)], events := core.events + events)
  {
    UnchangedMaps(core, x);
  }

  lemma PutBack(core: Core, x: Id)
    requires x in core.nodes && forall y :: y in core.attempts ==> core.attempts[y] > 0
    ensures Put(core, x, SlotOf(core, x), []) == core
  {
    UnchangedMaps(core, x);
    assert core.nodes[x := core.nodes[x]] == core.nodes;
  }

  class Scheduler {
    const cfg: Config
    const graph: Planner.Graph
    var assignments: map<Id, Binding>
    var attempts: map<Id, nat>
    var results: map<Id, WorkResult>
    const human: HumanReview
    var events: seq<Event>

    ghost predicate Valid()
      reads this, graph, human
    {
      graph.Valid() && forall x :: x in attempts ==> attempts[x] > 0
    }

    ghost function View(): Core
      reads this, graph, human
    {
      Core(graph.nodes, assignments, attempts, results, human.View(), events)
    }

    /** A scheduler over a graph that passed validation, asking the given human gate. */
    constructor (graph: Planner.Graph, cfg: Config, human: HumanReview)
      requires graph.Valid()
      ensures Valid() && this.graph == graph && this.cfg == cfg && this.human == human
      ensures View() == Core(graph.nodes, map[], map[], map[], human.View(), [])
    {
      this.graph, this.cfg, this.human := graph, cfg, human;
      assignments, attempts, results := map[], map[], map[];
      events := [];
    }

    method SetWorkPackageState(x: Id, state: Planner.State)
      requires Valid() && x in graph.nodes && state != Planner.Unset
      modifies graph`nodes
      ensures Valid() && graph.nodes == old(graph.nodes)[x := old(graph.nodes)[x].(state := state)]
    {
      var _ := graph.SetState(x, state);
    }

    /** First critical section of dispatchOne. */
    method BeginDispatch(x: Id, fault: Fault) returns (begun: Option<Binding>)
      requires Valid() && x in graph.nodes
      modifies this, graph`nodes
      ensures Valid() && graph.order == old(graph.order)
      ensures var c := BeginSection(cfg, x, old(graph.nodes[x].capabilities), SlotOf(old(View()), x), fault);
              View() == Put(old(View()), x, c.slot, c.events) && begun == c.out
    {
      ghost var before := View();
      var wp := graph.nodes[x];
      var selected := cfg.selectOne(wp.capabilities);
      if selected.None? {
        PutBack(before, x);
        return None;
      }
      var attempt := CountAttempt(x);
      ghost var counted := SlotOf(before, x).(attempts := attempt);
      PutFrame(before, x, counted, [], x);
      if fault == ContractFault {
        return None;
      }
      var a := NewBinding(x, attempt, selected.value);
      a := Transition(a, Leased);
      a := Transition(a, Preparing);
      a := Transition(a, InProgress);
      ghost var c := BeginSection(cfg, x, wp.capabilities, SlotOf(before, x), fault);
      PutTwice(before, x, counted, c.slot, c.events);
      var ok := MarkRunning(x, attempt, fault);
      return if ok then Some(a) else None;
    }

    method CountAttempt(x: Id) returns (attempt: nat)
      requires Valid() && x in graph.nodes
      modifies this`attempts
      ensures Valid() && attempt == SlotOf(old(View()), x).attempts + 1
      ensures View() == Put(old(View()), x, SlotOf(old(View()), x).(attempts := attempt), [])
    {
      ghost var before := View();
      UnchangedMaps(before, x);
      attempt := (if x in attempts then attempts[x] else 0) + 1;
      attempts := attempts[x := attempt];
      assert graph.nodes[x := graph.nodes[x]] == graph.nodes;
    }

    /** Mark the package running and record the lease; an unrecorded start is undone as deficient. */
    method MarkRunning(x: Id, attempt: nat, fault: Fault) returns (ok: bool)
      requires Valid() && x in graph.nodes
      modifies this`events, graph`nodes
      ensures Valid() && graph.order == old(graph.order) && ok == (fault != RecordFault(1))
      ensures var slot := SlotOf(old(View()), x).(state := if ok then Planner.Running else Planner.Deficient);
              View() == Put(old(View()), x, slot,
                            if ok then [Started(x, attempt)] else [Started(x, attempt), PersistFailed(x)])
    {
      ghost var before := View();
      SetWorkPackageState(x, Planner.Running);
      events := events + [Started(x, attempt)];
      ok := RecordAssignment(x, fault, 1);
      if !ok {
        SetWorkPackageState(x, Planner.Deficient);
      }
      ghost var more := if ok then [Started(x, attempt)] else [Started(x, attempt), PersistFailed(x)];
      assert events == before.events + more;
      ghost var state := if ok then Planner.Running else Planner.Deficient;
      assert graph.nodes == before.nodes[x := before.nodes[x].(state := state)];
      StateWritten(before, x, state, more);
    }

    /** Write an assignment record; a failure is announced. */
    method RecordAssignment(x: Id, fault: Fault, which: nat) returns (ok: bool)
      requires Valid()
      modifies this`events
      ensures Valid() && ok == (fault != RecordFault(which))
      ensures events == old(events) + if ok then [] else [PersistFailed(x)]
    {
      ok := fault != RecordFault(which);
      if !ok {
        events := events + [PersistFailed(x)];
      }
    }

    method Accept(a: Binding, fault: Fault, which: nat) returns (status: Status)
      requires Valid() && a.workPackage in graph.nodes
      modifies this, graph`nodes
      ensures Valid() && graph.order == old(graph.order)
      ensures var x := a.workPackage;
              var c := AcceptWork(SlotOf(old(View()), x), a, fault, which);
              View() == Put(old(View()), x, c.slot, c.events) && status == c.out
    {
      var x := a.workPackage;
      Conclude(x, Planner.Completed, Transition(a, Accepted));
      var ok := RecordAssignment(x, fault, which);
      if !ok {
        return Errored;
      }
      events := events + [WorkAccepted(x, a.attempt)];
      return WorkSucceeded;
    }

    method Fail(a: Binding)
      requires Valid() && a.workPackage in graph.nodes
      modifies this, graph`nodes
      ensures Valid() && graph.order == old(graph.order)
      ensures View() == Put(old(View()), a.workPackage, FailWork(SlotOf(old(View()), a.workPackage), a), [])
    {
      Conclude(a.workPackage, Planner.Deficient, Transition(a, Failure));
    }

    /** The package and its assignment reach the state in which the attempt ends. */
    method Conclude(x: Id, state: Planner.State, b: Binding)
      requires Valid() && x in graph.nodes && state != Planner.Unset
      modifies this`assignments, graph`nodes
      ensures Valid() && graph.order == old(graph.order)
      ensures View() == Put(old(View()), x, SlotOf(old(View()), x).(state := state, binding := Some(b)), [])
    {
      UnchangedMaps(View(), x);
      SetWorkPackageState(x, state);
      assignments := assignments[x := b];
    }

    /** Keep the assignment and the result of an attempt whose result was taken in. */
    method Hold(a: Binding, r: WorkResult)
      requires Valid() && a.workPackage in graph.nodes
      modifies this`assignments, this`results
      ensures Valid()
      ensures var x := a.workPackage;
              View() == Put(old(View()), x, SlotOf(old(View()), x).(binding := Some(a), result := Some(r)), [])
    {
      var x := a.workPackage;
      UnchangedMaps(View(), x);
      assert graph.nodes[x := graph.nodes[x]] == graph.nodes;
      assignments := assignments[x := a];
      results := results[x := r];
    }

    /** Second critical section of dispatchOne. */
    method FinishDispatch(a: Binding, reply: Reply, fault: Fault) returns (status: Status)
      requires Valid() && a.workPackage in graph.nodes
      modifies this, graph`nodes
      ensures Valid() && graph.order == old(graph.order)
      ensures var x := a.workPackage;
              var c := FinishSection(cfg, old(human.View()), SlotOf(old(View()), x), a, reply, fault);
              View() == Put(old(View()), x, c.slot, c.events) && status == c.out
    {
      var x := a.workPackage;
      UnchangedMaps(View(), x);
      assert graph.nodes[x := graph.nodes[x]] == graph.nodes;
      match reply {
        case Malformed => return Errored;
        case Interrupted =>
          assignments := assignments[x := Transition(a, Canceled)];
          var _ := RecordAssignment(x, fault, 1);
          return Errored;
        case Crashed =>
          Fail(a);
          var ok := RecordAssignment(x, fault, 1);
          return if ok then WorkFailed else Errored;
        case Answer(r) =>
          if !CanTransition(a, Collecting) {
            return Errored;
          }
          status := TakeIn(Transition(a, Collecting), r, fault);
      }
    }

    /** The rest of the section once intake has accepted the result. */
    method TakeIn(taken: Binding, r: WorkResult, fault: Fault) returns (status: Status)
      requires Valid() && taken.workPackage in graph.nodes
      modifies this, graph`nodes
      ensures Valid() && graph.order == old(graph.order)
      ensures var x := taken.workPackage;
              var c := TakenIn(cfg, old(human.View()), SlotOf(old(View()), x), taken, r, fault);
              View() == Put(old(View()), x, c.slot, c.events) && status == c.out
    {
      var x := taken.workPackage;
      ghost var before := View();
      ghost var kept := SlotOf(before, x).(binding := Some(taken), result := Some(r));
      Hold(taken, r);
      PutFrame(before, x, kept, [], x);
      var ok := RecordAssignment(x, fault, 1);
      if !ok {
        return Errored;
      }
      if r.status != Succeeded && r.status != Partial {
        PutTwice(before, x, kept, FailWork(kept, taken), []);
        Fail(taken);
        ok := RecordAssignment(x, fault, 2);
        return if ok then WorkFailed else Errored;
      }
      ghost var c := AskHeld(cfg, human.View(), kept, Transition(taken, AwaitingGates), r, fault);
      PutTwice(before, x, kept, c.slot, c.events);
      status := WaitForGates(Transition(taken, AwaitingGates), r, fault);
    }

    /** Record that the assignment waits, and ask its gates. */
    method WaitForGates(waiting: Binding, r: WorkResult, fault: Fault) returns (status: Status)
      requires Valid() && waiting.workPackage in graph.nodes
      modifies this, graph`nodes
      ensures Valid() && graph.order == old(graph.order)
      ensures var x := waiting.workPackage;
              var kept := SlotOf(old(View()), x).(result := Some(r));
              var c := AskHeld(cfg, old(human.View()), kept, waiting, r, fault);
              View() == Put(old(View()), x, c.slot, c.events) && status == c.out
    {
      var x := waiting.workPackage;
      ghost var before := View();
      ghost var held := SlotOf(before, x).(binding := Some(waiting), result := Some(r));
      Hold(waiting, r);
      PutFrame(before, x, held, [], x);
      var ok := RecordAssignment(x, fault, 2);
      if !ok {
        return Errored;
      }
      ghost var c := AskGates(cfg, human.View(), held, waiting, r, fault, 3, None);
      PutTwice(before, x, held, c.slot, c.events);
      status := PassGates(waiting, r, fault, 3, None);
    }

    /** Accept, leave waiting or fail an assignment that awaits its gates. */
    method PassGates(a: Binding, r: WorkResult, fault: Fault, accept: nat, fail: Option<nat>) returns (status: Status)
      requires Valid() && a.workPackage in graph.nodes
      modifies this, graph`nodes
      ensures Valid() && graph.order == old(graph.order)
      ensures var x := a.workPackage;
              var c := AskGates(cfg, old(human.View()), SlotOf(old(View()), x), a, r, fault, accept, fail);
              View() == Put(old(View()), x, c.slot, c.events) && status == c.out
    {
      var x := a.workPackage;
      var report := Evaluate(cfg.gates, human.View(), SubjectOf(x, r));
      if report.passed {
        status := Accept(a, fault, accept);
        return;
      }
      if report.pending {
        PutBack(View(), x);
        return WorkPending;
      }
      status := FailRecorded(a, fault, fail);
    }

    /** Fail the attempt, and record that where the section does. */
    method FailRecorded(a: Binding, fault: Fault, fail: Option<nat>) returns (status: Status)
      requires Valid() && a.workPackage in graph.nodes
      modifies this, graph`nodes
      ensures Valid() && graph.order == old(graph.order) && human.View() == old(human.View())
      ensures var x := a.workPackage;
              var slot := FailWork(SlotOf(old(View()), x), a);
              var failed := fail.Some? && fault == RecordFault(fail.value);
              && View() == Put(old(View()), x, slot, if failed then [PersistFailed(x)] else [])
              && status == if failed then Errored else WorkFailed
    {
      Fail(a);
      if fail.Some? {
        var ok := RecordAssignment(a.workPackage, fault, fail.value);
        return if ok then WorkFailed else Errored;
      }
      return WorkFailed;
    }

    method ResetForRetry(x: Id) returns (ok: bool)
      requires Valid() && x in graph.nodes
      modifies graph`nodes
      ensures Valid()
      ensures var (slot, done) := ResetSection(SlotOf(old(View()), x));
              View() == Put(old(View()), x, slot, []) && ok == done
    {
      PutBack(View(), x);
      if x !in assignments {
        return false;
      }
      ok := graph.SetState(x, Planner.Ready);
    }

    /** Ask the gates again for a package that awaits them. */
    method Resolve(x: Id, fault: Fault) returns (status: Status)
      requires Valid() && x in graph.nodes
      requires x in assignments ==> assignments[x].workPackage == x
      modifies this, graph`nodes
      ensures Valid() && graph.order == old(graph.order)
      ensures var c := ResolveSection(cfg, old(human.View()), SlotOf(old(View()), x), fault);
              View() == Put(old(View()), x, c.slot, c.events) && status == c.out
    {
      PutBack(View(), x);
      if x !in assignments || assignments[x].state != AwaitingGates {
        return Errored;
      }
      var r := if x in results then results[x] else WorkResult(Failed, []);
      status := PassGates(assignments[x], r, fault, 1, Some(1));
    }

    /** Takes the human gate's lock, not the scheduler's: it may fall into a section under way. */
    method RecordApproval(x: Id)
      requires Valid()
      modifies human
      ensures Valid() && View() == old(View()).(humans := Approve(old(human.View()), x))
    {
      human.RecordApproval(x);
    }

    /** Likewise; a section that has asked its gates already is not held up. */
    method RecordRejection(x: Id, reason: Id)
      requires Valid()
      modifies human
      ensures Valid() && View() == old(View()).(humans := Reject(old(human.View()), x, reason))
    {
      human.RecordRejection(x, reason);
    }

    // ---- Run ----

    /** The system state that corresponds to this object with these goroutines under way. */
    ghost function Now(flights: map<Id, Flight>, report: RunReport): Sys
      reads this, graph, human
    {
      Sys(View(), flights, report, true)
    }

    /** A goroutine's first section. */
    method StartTurn(ghost w: World, ghost ids: seq<Id>, worker: (Id, nat) -> Reply, x: Id,
                     flights0: map<Id, Flight>, report: RunReport)
      returns (flights: map<Id, Flight>)
      requires Valid() && w == World(cfg, human.View(), worker)
      requires x in flights0 && flights0[x].Spawned? && Quietly(w, Now(flights0, report), ids)
      modifies this, graph`nodes
      ensures Valid() && graph.order == old(graph.order) && human.View() == old(human.View())
      ensures Quietly(w, Now(flights, report), ids) && Grows(old(graph.nodes), graph.nodes)
      ensures Rank(w, Now(flights, report), ids) < old(Rank(w, Now(flights0, report), ids))
    {
      ghost var s := Now(flights0, report);
      assert x in graph.nodes;
      var begun := BeginDispatch(x, NoFault);
      flights := flights0[x := if begun.Some? then Busy(begun.value) else Sent(Errored)];
      AfterBegin(w, s, ids, x, View(), begun);
    }

    /** The worker's reply and the goroutine's second section. */
    method FinishTurn(ghost w: World, ghost ids: seq<Id>, worker: (Id, nat) -> Reply, x: Id,
                      flights0: map<Id, Flight>, report: RunReport)
      returns (flights: map<Id, Flight>)
      requires Valid() && w == World(cfg, human.View(), worker)
      requires x in flights0 && flights0[x].Busy? && Quietly(w, Now(flights0, report), ids)
      modifies this, graph`nodes
      ensures Valid() && graph.order == old(graph.order) && human.View() == old(human.View())
      ensures Quietly(w, Now(flights, report), ids) && Grows(old(graph.nodes), graph.nodes)
      ensures Rank(w, Now(flights, report), ids) < old(Rank(w, Now(flights0, report), ids))
    {
      ghost var s := Now(flights0, report);
      var b := flights0[x].binding;
      assert x in graph.nodes;
      BusyBinding(w, s, ids, x);
      var status := FinishDispatch(b, worker(x, b.attempt), NoFault);
      flights := flights0[x := Sent(status)];
      AfterFinish(w, s, ids, x, View(), status);
    }

    /** The loop of Run takes an outcome from the channel. */
    method CollectTurn(ghost w: World, ghost ids: seq<Id>, worker: (Id, nat) -> Reply, x: Id,
                       flights0: map<Id, Flight>, report0: RunReport)
      returns (flights: map<Id, Flight>, report: RunReport)
      requires Valid() && w == World(cfg, human.View(), worker)
      requires x in flights0 && flights0[x].Sent? && Quietly(w, Now(flights0, report0), ids)
      modifies this, graph`nodes
      ensures Valid() && graph.order == old(graph.order) && human.View() == old(human.View())
      ensures Quietly(w, Now(flights, report), ids) && Grows(old(graph.nodes), graph.nodes)
      ensures Rank(w, Now(flights, report), ids) < old(Rank(w, Now(flights0, report0), ids))
    {
      ghost var s := Now(flights0, report0);
      assert x in graph.nodes;
      report := TakeOutcome(x, flights0[x].status, report0);
      flights := flights0 - {x};
      AfterCollect(w, s, ids, x, View(), report);
    }

    /** One turn of one goroutine, or of the loop that takes outcomes from the channel: which one is
        left to the caller, as the Go runtime leaves it to nobody. */
    method Turn(ghost w: World, ghost ids: seq<Id>, worker: (Id, nat) -> Reply, x: Id,
                flights0: map<Id, Flight>, report0: RunReport)
      returns (flights: map<Id, Flight>, report: RunReport)
      requires Valid() && w == World(cfg, human.View(), worker)
      requires x in flights0 && Quietly(w, Now(flights0, report0), ids)
      modifies this, graph`nodes
      ensures Valid() && graph.order == old(graph.order) && human.View() == old(human.View())
      ensures Quietly(w, Now(flights, report), ids) && Grows(old(graph.nodes), graph.nodes)
      ensures Rank(w, Now(flights, report), ids) < old(Rank(w, Now(flights0, report0), ids))
    {
      report := report0;
      match flights0[x] {
        case Spawned => flights := StartTurn(w, ids, worker, x, flights0, report);
        case Busy(_) => flights := FinishTurn(w, ids, worker, x, flights0, report);
        case Sent(_) => flights, report := CollectTurn(w, ids, worker, x, flights0, report);
      }
    }

    /** Count one outcome, and send a failed package round again if it has attempts left. */
    method TakeOutcome(x: Id, status: Status, report0: RunReport) returns (report: RunReport)
      requires Valid() && x in graph.nodes
      modifies graph`nodes
      ensures Valid()
      ensures var (slot, counted) := CollectOne(cfg, SlotOf(old(View()), x), report0, x, status);
              View() == Put(old(View()), x, slot, []) && report == counted
    {
      UnchangedMaps(View(), x);
      assert graph.nodes[x := graph.nodes[x]] == graph.nodes;
      var tries := Counted(report0.attempts, x) + 1;
      report := report0.(dispatched := report0.dispatched + 1, attempts := report0.attempts[x := tries]);
      match status {
        case WorkSucceeded => report := report.(accepted := report.accepted + 1);
        case WorkFailed =>
          if tries < AttemptLimit(cfg) {
            var ok := ResetForRetry(x);
            if ok {
              return;
            }
          }
          report := report.(failed := report.failed + 1);
        case _ => report := report.(pending := report.pending + 1);
      }
    }

    /** Wait for all the goroutines of a batch. Every choice of the next one is allowed. */
    method AwaitBatch(ghost w: World, ghost ids: seq<Id>, worker: (Id, nat) -> Reply, batch: seq<Id>,
                      report0: RunReport)
      returns (report: RunReport)
      requires Valid() && w == World(cfg, human.View(), worker)
      requires Quietly(w, Now(SchedulerSystem.Launch(batch), report0), ids)
      modifies this, graph`nodes
      ensures Valid() && graph.order == old(graph.order) && human.View() == old(human.View())
      ensures Quietly(w, Now(map[], report), ids) && Grows(old(graph.nodes), graph.nodes)
      ensures Rank(w, Now(map[], report), ids) <= old(Rank(w, Now(SchedulerSystem.Launch(batch), report0), ids))
    {
      var flights := SchedulerSystem.Launch(batch);
      report := report0;
      while flights != map[]
        invariant Valid() && graph.order == old(graph.order) && human.View() == old(human.View())
        invariant Quietly(w, Now(flights, report), ids) && Grows(old(graph.nodes), graph.nodes)
        invariant Rank(w, Now(flights, report), ids) <= old(Rank(w, Now(SchedulerSystem.Launch(batch), report0), ids))
        decreases Rank(w, Now(flights, report), ids)
      {
        var x :| x in flights;
        ghost var before := graph.nodes;
        flights, report := Turn(w, ids, worker, x, flights, report);
        GrowsTransitive(old(graph.nodes), before, graph.nodes);
      }
    }

    /** Run to the end: no choice of the next goroutine shows in the outcome, which is that of the
        recursion over the graph. */
    method Run(worker: (Id, nat) -> Reply, ghost accepted: set<Id>) returns (report: RunReport)
      requires Valid() && Fresh(Now(map[], NEW_REPORT).(active := false))
      requires Closed(Planner.Dependencies(graph.nodes)) && Acyclic(Planner.Dependencies(graph.nodes))
      requires Quiet(World(cfg, human.View(), worker), graph.nodes)
      requires AreAccepted(World(cfg, human.View(), worker), graph.nodes, accepted)
      modifies this, graph`nodes
      ensures Valid() && graph.order == old(graph.order)
      ensures EndsAs(World(cfg, old(human.View()), worker), old(graph.nodes), accepted, View(), report)
      ensures forall x :: x in old(graph.nodes) ==>
                EndsByAnswers(World(cfg, old(human.View()), worker), old(graph.nodes), View(), report, x)
      ensures CountsStates(View(), report)
    {
      ghost var w := World(cfg, human.View(), worker);
      ghost var nodes := graph.nodes;
      ghost var ids := Ascending(nodes.Keys);
      report := NEW_REPORT;
      QuietStart(w, Now(map[], NEW_REPORT).(active := false), ids);
      while true
        invariant Valid() && graph.order == old(graph.order) && human.View() == old(human.View())
        invariant Quietly(w, Now(map[], report), ids) && Grows(nodes, graph.nodes)
        decreases Rank(w, Now(map[], report), ids)
      {
        var ready := graph.ReadyIds();
        Planner.ReadyListUnique(graph.nodes, ready, ReadyList(graph.nodes));
        if |ready| == 0 {
          break;
        }
        ghost var before := graph.nodes;
        var batch := Batch(cfg, ready);
        AfterLaunch(w, Now(map[], report), ids);
        report := AwaitBatch(w, ids, worker, batch, report);
        GrowsTransitive(nodes, before, graph.nodes);
      }
      SettleRun(w, Now(map[], report), ids);
      QuietEnd(w, nodes, Now(map[], report).(active := false), accepted);
      EndByAnswers(w, nodes, Now(map[], report).(active := false));
    }
  }

  // ---- the methods above take steps of the system ----

  lemma Advances(w: World, s: Sys, ids: seq<Id>, a: Action, t: Sys)
    requires Quietly(w, s, ids) && QuietStep(w, s, a) && Next(w.cfg, s, a) == Some(t)
    ensures Quietly(w, t, ids) && Rank(w, t, ids) < Rank(w, s, ids) && Grows(s.core.nodes, t.core.nodes)
  {
    QuietStepKeeps(w, w.cfg, s, ids, a);
    StepKeepsSafe(w.cfg, s, a);
  }

  lemma AfterLaunch(w: World, s: Sys, ids: seq<Id>)
    requires Quietly(w, s, ids) && s.active && s.flights == map[] && ReadyList(s.core.nodes) != []
    ensures var t := s.(flights := SchedulerSystem.Launch(Batch(w.cfg, ReadyList(s.core.nodes))));
            Quietly(w, t, ids) && Rank(w, t, ids) < Rank(w, s, ids)
  {
    Advances(w, s, ids, StartBatch, s.(flights := SchedulerSystem.Launch(Batch(w.cfg, ReadyList(s.core.nodes)))));
  }

  lemma AfterBegin(w: World, s: Sys, ids: seq<Id>, x: Id, core: Core, begun: Option<Binding>)
    requires Quietly(w, s, ids) && x in s.core.nodes && Look(s.flights, x) == Some(Spawned)
    requires var c := BeginSection(w.cfg, x, s.core.nodes[x].capabilities, SlotOf(s.core, x), NoFault);
             core == Put(s.core, x, c.slot, c.events) && begun == c.out
    ensures var flight := if begun.Some? then Busy(begun.value) else Sent(Errored);
            var t := s.(core := core, flights := s.flights[x := flight]);
            Quietly(w, t, ids) && Rank(w, t, ids) < Rank(w, s, ids) && Grows(s.core.nodes, core.nodes)
  {
    Advances(w, s, ids, Begin(x, NoFault), Next(w.cfg, s, Begin(x, NoFault)).value);
  }

  lemma BusyBinding(w: World, s: Sys, ids: seq<Id>, x: Id)
    requires Quietly(w, s, ids) && x in s.core.nodes && x in s.flights && s.flights[x].Busy?
    ensures s.flights[x].binding.workPackage == x && s.flights[x].binding.attempt == SlotOf(s.core, x).attempts
  {
    assert PackageOk(s, x);
    PathToGates(x, SlotOf(s.core, x).attempts, s.flights[x].binding.worker);
  }

  lemma AfterFinish(w: World, s: Sys, ids: seq<Id>, x: Id, core: Core, status: Status)
    requires Quietly(w, s, ids) && x in s.core.nodes && x in s.flights && s.flights[x].Busy?
    requires var b := s.flights[x].binding;
             var c := FinishSection(w.cfg, s.core.humans, SlotOf(s.core, x), b, w.worker(x, b.attempt), NoFault);
             core == Put(s.core, x, c.slot, c.events) && status == c.out
    ensures var t := s.(core := core, flights := s.flights[x := Sent(status)]);
            Quietly(w, t, ids) && Rank(w, t, ids) < Rank(w, s, ids) && Grows(s.core.nodes, core.nodes)
  {
    BusyBinding(w, s, ids, x);
    var a := Finish(x, w.worker(x, s.flights[x].binding.attempt), NoFault);
    assert SlotAt(s.core, x) == SlotOf(s.core, x);
    Advances(w, s, ids, a, Next(w.cfg, s, a).value);
  }

  lemma SentIsNoError(w: World, s: Sys, x: Id)
    requires Quiet(w, s.core.nodes) && x in s.core.nodes && PackageOnPath(w, s, x)
    requires x in s.flights && s.flights[x].Sent?
    ensures s.flights[x].status != Errored
  {
    var caps := CapabilitiesOf(s.core, x);
    var n := SlotOf(s.core, x).attempts;
    Shapes(w, x, caps, n);
    assert s.flights[x].status == Outcomes(w, x, caps)(n);
  }

  lemma AfterCollect(w: World, s: Sys, ids: seq<Id>, x: Id, core: Core, report: RunReport)
    requires Quietly(w, s, ids) && s.active && x in s.core.nodes && x in s.flights && s.flights[x].Sent?
    requires var (slot, counted) := CollectOne(w.cfg, SlotOf(s.core, x), s.report, x, s.flights[x].status);
             core == Put(s.core, x, slot, []) && report == counted
    ensures var t := s.(core := core, flights := s.flights - {x}, report := report);
            Quietly(w, t, ids) && Rank(w, t, ids) < Rank(w, s, ids) && Grows(s.core.nodes, core.nodes)
  {
    assert PackageOnPath(w, s, x);
    SentIsNoError(w, s, x);
    Advances(w, s, ids, Collect(x), Next(w.cfg, s, Collect(x)).value);
  }

  lemma PutTwice(core: Core, x: Id, first: Slot, second: Slot, events: seq<Event>)
    requires x in core.nodes
    ensures Put(Put(core, x, first, []), x, second, events) == Put(core, x, second, events)
  {
    assert core.events + [] == core.events;
    StoreTwice(core.assignments, x, first.binding, second.binding);
    StoreTwice(core.results, x, first.result, second.result);
    StoreTwice(core.attempts, x, if first.attempts == 0 then None else Some(first.attempts),
               if second.attempts == 0 then None else Some(second.attempts));
  }

  lemma StoreTwice<T>(m: map<Id, T>, x: Id, a: Option<T>, b: Option<T>)
    ensures Store(Store(m, x, a), x, b) == Store(m, x, b)
  {
  }
}
