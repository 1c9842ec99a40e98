/** The scheduler as a system of atomic steps: the loop of Run, its goroutines and the calls of the
    control-plane API, interleaved in any order and with every failure the code allows for. Sections under
    the scheduler's lock are whole steps here; approvals and rejections do not take that lock, and
    SchedulerGates shows what becomes of those that fall into a section. */
module SchedulerSystem {
  import opened Ordering
  import Planner
  import opened Gate
  import opened Assignment
  import opened SchedulerCore

  /** A goroutine of the current batch: not yet in its first section, waiting for its worker, or
      done with its outcome in the channel. */
  datatype Flight = Spawned | Busy(binding: Binding) | Sent(status: Status)

  datatype RunReport = RunReport(dispatched: nat, accepted: nat, failed: nat, pending: nat, attempts: map<Id, nat>)

  const NEW_REPORT := RunReport(0, 0, 0, 0, map[])

  datatype Sys = Sys(core: Core, flights: map<Id, Flight>, report: RunReport, active: bool)

  datatype Action =
    | StartRun | StartBatch | EndRun | CancelRun | StartDispatch
    | Begin(x: Id, fault: Fault) | Finish(x: Id, reply: Reply, fault: Fault)
    | Collect(x: Id) | Discard(x: Id)
    | Resolve(x: Id, fault: Fault) | RecordApproval(x: Id) | RecordRejection(x: Id, reason: Id)

  ghost function ReadyList(nodes: Planner.Nodes): (r: seq<Id>)
    ensures Planner.ListsReady(nodes, r)
  {
    var ready := set x | x in nodes && Planner.IsReady(nodes, x);
    var r := Ascending(ready);
    assert forall x :: x in r <==> x in Elements(r);
    r
  }

  function Batch(cfg: Config, ready: seq<Id>): seq<Id> {
    if |ready| > Concurrency(cfg) then ready[..Concurrency(cfg)] else ready
  }

  function Launch(batch: seq<Id>): map<Id, Flight> {
    map x | x in batch :: Spawned
  }

  function Counted(m: map<Id, nat>, x: Id): nat {
    if x in m then m[x] else 0
  }

  /** The part of Run that takes one outcome from the channel: count it, retry or settle it. */
  function CollectOne(cfg: Config, slot: Slot, report: RunReport, x: Id, status: Status): (Slot, RunReport) {
    var tries := Counted(report.attempts, x) + 1;
    var counted := report.(dispatched := report.dispatched + 1, attempts := report.attempts[x := tries]);
    match status
    case WorkSucceeded => (slot, counted.(accepted := counted.accepted + 1))
    case WorkFailed =>
      var (reset, ok) := ResetSection(slot);
      if tries < AttemptLimit(cfg) && ok then (reset, counted)
      else (slot, counted.(failed := counted.failed + 1))
    case _ => (slot, counted.(pending := counted.pending + 1))
  }

  /** Write back one package's share and its flight. */
  function Update(s: Sys, x: Id, slot: Slot, events: seq<Event>, flight: Option<Flight>): Sys
    requires x in s.core.nodes
  {
    s.(core := Put(s.core, x, slot, events), flights := Store(s.flights, x, flight))
  }

  ghost function Next(cfg: Config, s: Sys, a: Action): Option<Sys> {
    match a
    case StartRun => if !s.active && s.flights == map[] then Some(s.(active := true, report := NEW_REPORT)) else None
    case StartBatch =>
      if s.active && s.flights == map[] && ReadyList(s.core.nodes) != []
      then Some(s.(flights := Launch(Batch(cfg, ReadyList(s.core.nodes))))) else None
    case EndRun =>
      if s.active && s.flights == map[] && ReadyList(s.core.nodes) == [] then Some(s.(active := false)) else None
    case CancelRun => if s.active && s.flights == map[] then Some(s.(active := false)) else None
    case StartDispatch =>
      if !s.active && s.flights == map[] && ReadyList(s.core.nodes) != []
      then Some(s.(flights := Launch([ReadyList(s.core.nodes)[0]]))) else None
    case Begin(x, fault) =>
      if x in s.core.nodes && Look(s.flights, x) == Some(Spawned) then
        var c := BeginSection(cfg, x, s.core.nodes[x].capabilities, SlotOf(s.core, x), fault);
        Some(Update(s, x, c.slot, c.events, Some(if c.out.Some? then Busy(c.out.value) else Sent(Errored))))
      else None
    case Finish(x, reply, fault) =>
      if x in s.core.nodes && x in s.flights && s.flights[x].Busy? then
        var c := FinishSection(cfg, s.core.humans, SlotOf(s.core, x), s.flights[x].binding, reply, fault);
        Some(Update(s, x, c.slot, c.events, Some(Sent(c.out))))
      else None
    case Collect(x) =>
      if s.active && x in s.core.nodes && x in s.flights && s.flights[x].Sent? then
        if s.flights[x].status == Errored then Some(Update(s, x, SlotOf(s.core, x), [], None).(active := false))
        else
          var (slot, report) := CollectOne(cfg, SlotOf(s.core, x), s.report, x, s.flights[x].status);
          Some(Update(s, x, slot, [], None).(report := report))
      else None
    case Discard(x) =>
      if !s.active && x in s.core.nodes && x in s.flights && s.flights[x].Sent?
      then Some(Update(s, x, SlotOf(s.core, x), [], None)) else None
    case Resolve(x, fault) =>
      if x in s.core.nodes then
        var c := ResolveSection(cfg, s.core.humans, SlotOf(s.core, x), fault);
        Some(Update(s, x, c.slot, c.events, Look(s.flights, x)))
      else None
    case RecordApproval(x) => Some(s.(core := s.core.(humans := Approve(s.core.humans, x))))
    case RecordRejection(x, reason) => Some(s.(core := s.core.(humans := Reject(s.core.humans, x, reason))))
  }

  /** The states reached by a sequence of steps, all of them enabled. */
  ghost predicate Reaches(cfg: Config, s: Sys, acts: seq<Action>, t: Sys)
    decreases |acts|
  {
    if acts == [] then s == t
    else Next(cfg, s, acts[0]).Some? && Reaches(cfg, Next(cfg, s, acts[0]).value, acts[1..], t)
  }

  // ---- safety ----

  ghost predicate DepsDone(nodes: Planner.Nodes, x: Id)
    requires x in nodes
  {
    !Planner.Blocked(nodes, nodes[x].dependsOn)
  }

  predicate Waiting(state: Planner.State) {
    state == Planner.Proposed || state == Planner.Ready
  }

  predicate GoodResult(slot: Slot) {
    slot.result.Some? && (slot.result.value.status == Succeeded || slot.result.value.status == Partial)
  }

  /** What holds of one package's share and flight in every reachable state. */
  ghost predicate SlotOk(x: Id, slot: Slot, flight: Option<Flight>) {
    && (slot.binding.Some? ==> slot.binding.value.workPackage == x)
    && (slot.state == Planner.Completed ==>
          slot.binding.Some? && slot.binding.value.state == Accepted
          && slot.binding.value.history == TO_GATES + [Accepted] && GoodResult(slot))
    && (Awaits(slot) ==>
          slot.state == Planner.Running && slot.binding.value.history == TO_GATES && GoodResult(slot)
          && !(flight.Some? && flight.value.Busy?))
    && match flight
       case None => true
       case Some(Spawned) => Waiting(slot.state)
       case Some(Busy(b)) => slot.state == Planner.Running && slot.attempts > 0
           && b == StartedBinding(x, slot.attempts, b.worker)
       case Some(Sent(status)) => status == WorkFailed ==> slot.state == Planner.Deficient && slot.binding.Some?
  }

  /** A package that was ever picked for dispatch. */
  ghost predicate Picked(slot: Slot, flight: Option<Flight>) {
    !Waiting(slot.state) || slot.attempts > 0 || flight == Some(Spawned)
  }

  ghost predicate PackageOk(s: Sys, x: Id)
    requires x in s.core.nodes
  {
    && SlotOk(x, SlotOf(s.core, x), Look(s.flights, x))
    && (Picked(SlotOf(s.core, x), Look(s.flights, x)) ==> DepsDone(s.core.nodes, x))
  }

  ghost predicate Safe(s: Sys) {
    && s.flights.Keys <= s.core.nodes.Keys
    && forall x :: x in s.core.nodes ==> PackageOk(s, x)
  }

  /** Before anything was dispatched. */
  ghost predicate Fresh(s: Sys) {
    && (forall x :: x in s.core.nodes ==> s.core.nodes[x].state == Planner.Proposed)
    && s.core.assignments == map[] && s.core.attempts == map[] && s.core.results == map[]
    && s.flights == map[] && !s.active && s.report == NEW_REPORT
  }

  lemma FreshIsSafe(s: Sys)
    requires Fresh(s)
    ensures Safe(s)
  {
  }

  /** Identifiers, dependencies and capabilities are fixed; only states move, and completion is final. */
  ghost predicate Grows(a: Planner.Nodes, b: Planner.Nodes) {
    && a.Keys == b.Keys
    && (forall x :: x in a ==> b[x] == a[x].(state := b[x].state))
    && forall x :: x in a && a[x].state == Planner.Completed ==> b[x].state == Planner.Completed
  }

  lemma DepsStayDone(a: Planner.Nodes, b: Planner.Nodes, y: Id)
    requires Grows(a, b) && y in a && DepsDone(a, y)
    ensures DepsDone(b, y)
  {
    forall dep | dep in b[y].dependsOn ensures dep in b && b[dep].state == Planner.Completed {
      assert dep in a[y].dependsOn;
    }
  }

  lemma StoreFrame<T>(m: map<Id, T>, x: Id, v: Option<T>, y: Id)
    ensures Look(Store(m, x, v), y) == if y == x then v else Look(m, y)
  {
  }

  lemma PutGrows(core: Core, x: Id, slot: Slot, events: seq<Event>)
    requires x in core.nodes
    requires core.nodes[x].state == Planner.Completed ==> slot.state == Planner.Completed
    ensures Grows(core.nodes, Put(core, x, slot, events).nodes)
  {
  }

  lemma UpdateKeepsSafe(s: Sys, x: Id, slot: Slot, events: seq<Event>, flight: Option<Flight>)
    requires Safe(s) && x in s.core.nodes
    requires SlotOk(x, slot, flight)
    requires Picked(slot, flight) ==> Picked(SlotOf(s.core, x), Look(s.flights, x))
    requires s.core.nodes[x].state == Planner.Completed ==> slot.state == Planner.Completed
    ensures Safe(Update(s, x, slot, events, flight))
    ensures Grows(s.core.nodes, Update(s, x, slot, events, flight).core.nodes)
  {
    var t := Update(s, x, slot, events, flight);
    PutGrows(s.core, x, slot, events);
    forall y | y in t.core.nodes ensures PackageOk(t, y) {
      UpdatedPackageOk(s, x, slot, events, flight, y);
    }
    forall y | y in t.flights ensures y in t.core.nodes {
      StoreFrame(s.flights, x, flight, y);
    }
  }

  lemma UpdatedPackageOk(s: Sys, x: Id, slot: Slot, events: seq<Event>, flight: Option<Flight>, y: Id)
    requires x in s.core.nodes && y in s.core.nodes && PackageOk(s, y) && PackageOk(s, x)
    requires SlotOk(x, slot, flight)
    requires Picked(slot, flight) ==> Picked(SlotOf(s.core, x), Look(s.flights, x))
    requires Grows(s.core.nodes, Put(s.core, x, slot, events).nodes)
    ensures PackageOk(Update(s, x, slot, events, flight), y)
  {
    PutFrame(s.core, x, slot, events, y);
    StoreFrame(s.flights, x, flight, y);
    if DepsDone(s.core.nodes, y) {
      DepsStayDone(s.core.nodes, Put(s.core, x, slot, events).nodes, y);
    }
  }

  // ---- each section, seen from its own package ----

  lemma BeginOk(cfg: Config, x: Id, capabilities: seq<Id>, slot: Slot, fault: Fault)
    requires SlotOk(x, slot, Some(Spawned))
    ensures var c := BeginSection(cfg, x, capabilities, slot, fault);
            && SlotOk(x, c.slot, Some(if c.out.Some? then Busy(c.out.value) else Sent(Errored)))
            && c.slot.state != Planner.Completed
  {
  }

  lemma PathToGates(x: Id, attempt: nat, worker: Id)
    ensures var b := StartedBinding(x, attempt, worker);
            && b.workPackage == x && b.attempt == attempt && b.worker == worker && b.state == InProgress
            && Transition(Transition(b, Collecting), AwaitingGates).history == TO_GATES
  {
  }

  lemma FinishOk(cfg: Config, humans: Humans, x: Id, slot: Slot, b: Binding, reply: Reply, fault: Fault)
    requires SlotOk(x, slot, Some(Busy(b)))
    ensures var c := FinishSection(cfg, humans, slot, b, reply, fault);
            SlotOk(x, c.slot, Some(Sent(c.out)))
  {
    PathToGates(x, slot.attempts, b.worker);
  }

  lemma ResolveOk(cfg: Config, humans: Humans, x: Id, slot: Slot, flight: Option<Flight>, fault: Fault)
    requires SlotOk(x, slot, flight)
    ensures var c := ResolveSection(cfg, humans, slot, fault);
            SlotOk(x, c.slot, flight) && (slot.state == Planner.Completed ==> c.slot.state == Planner.Completed)
  {
  }

  lemma CollectOk(cfg: Config, report: RunReport, x: Id, slot: Slot, status: Status)
    requires SlotOk(x, slot, Some(Sent(status)))
    ensures var (slot', _) := CollectOne(cfg, slot, report, x, status);
            SlotOk(x, slot', None) && (slot.state == Planner.Completed ==> slot'.state == Planner.Completed)
  {
  }

  lemma LaunchKeepsSafe(s: Sys, batch: seq<Id>)
    requires Safe(s) && s.flights == map[]
    requires forall x :: x in batch ==> Planner.IsReady(s.core.nodes, x)
    ensures Safe(s.(flights := Launch(batch)))
  {
    var t := s.(flights := Launch(batch));
    forall x | x in t.core.nodes ensures PackageOk(t, x) {
      assert PackageOk(s, x);
    }
  }

  lemma SameSharesSafe(s: Sys, t: Sys)
    requires Safe(s) && t.flights == s.flights && t.core == s.core.(humans := t.core.humans)
    ensures Safe(t)
  {
    forall x | x in t.core.nodes ensures PackageOk(t, x) {
      assert PackageOk(s, x);
      assert SlotOf(t.core, x) == SlotOf(s.core, x);
    }
  }

  predicate AboutPackage(a: Action) {
    a.Begin? || a.Finish? || a.Collect? || a.Discard? || a.Resolve?
  }

  /** The share, the events and the flight a step about one package writes back. */
  datatype Written = Written(slot: Slot, events: seq<Event>, flight: Option<Flight>)

  function Write(cfg: Config, s: Sys, a: Action): Written
    requires AboutPackage(a) && a.x in s.core.nodes
  {
    var slot := SlotOf(s.core, a.x);
    var flight := Look(s.flights, a.x);
    match a
    case Begin(x, fault) =>
      var c := BeginSection(cfg, x, s.core.nodes[x].capabilities, slot, fault);
      Written(c.slot, c.events, Some(if c.out.Some? then Busy(c.out.value) else Sent(Errored)))
    case Finish(x, reply, fault) =>
      if flight.Some? && flight.value.Busy? then
        var c := FinishSection(cfg, s.core.humans, slot, flight.value.binding, reply, fault);
        Written(c.slot, c.events, Some(Sent(c.out)))
      else Written(slot, [], flight)
    case Collect(x) =>
      if flight.Some? && flight.value.Sent? && flight.value.status != Errored
      then Written(CollectOne(cfg, slot, s.report, x, flight.value.status).0, [], None)
      else Written(slot, [], None)
    case Resolve(x, fault) =>
      var c := ResolveSection(cfg, s.core.humans, slot, fault);
      Written(c.slot, c.events, flight)
    case _ => Written(slot, [], None)
  }

  lemma NextWrites(cfg: Config, s: Sys, a: Action)
    requires AboutPackage(a) && Next(cfg, s, a).Some?
    ensures a.x in s.core.nodes
    ensures var t := Next(cfg, s, a).value;
            var w := Write(cfg, s, a);
            t == Update(s, a.x, w.slot, w.events, w.flight).(report := t.report, active := t.active)
  {
  }

  /** What is written back is sound, keeps a completion, and picks no package that was not picked. */
  ghost predicate WritesSoundly(s: Sys, x: Id, w: Written)
    requires x in s.core.nodes
  {
    && SlotOk(x, w.slot, w.flight)
    && (Picked(w.slot, w.flight) ==> Picked(SlotOf(s.core, x), Look(s.flights, x)))
    && (s.core.nodes[x].state == Planner.Completed ==> w.slot.state == Planner.Completed)
  }

  lemma BeginWrites(cfg: Config, s: Sys, x: Id, fault: Fault)
    requires x in s.core.nodes && PackageOk(s, x) && Next(cfg, s, Begin(x, fault)).Some?
    ensures WritesSoundly(s, x, Write(cfg, s, Begin(x, fault)))
  {
    BeginOk(cfg, x, s.core.nodes[x].capabilities, SlotOf(s.core, x), fault);
  }

  lemma FinishWrites(cfg: Config, s: Sys, x: Id, reply: Reply, fault: Fault)
    requires x in s.core.nodes && PackageOk(s, x) && Next(cfg, s, Finish(x, reply, fault)).Some?
    ensures WritesSoundly(s, x, Write(cfg, s, Finish(x, reply, fault)))
  {
    FinishOk(cfg, s.core.humans, x, SlotOf(s.core, x), s.flights[x].binding, reply, fault);
  }

  lemma CollectWrites(cfg: Config, s: Sys, x: Id)
    requires x in s.core.nodes && PackageOk(s, x) && Next(cfg, s, Collect(x)).Some?
    ensures WritesSoundly(s, x, Write(cfg, s, Collect(x)))
  {
    CollectOk(cfg, s.report, x, SlotOf(s.core, x), s.flights[x].status);
  }

  lemma ResolveWrites(cfg: Config, s: Sys, x: Id, fault: Fault)
    requires x in s.core.nodes && PackageOk(s, x)
    ensures WritesSoundly(s, x, Write(cfg, s, Resolve(x, fault)))
  {
    ResolveOk(cfg, s.core.humans, x, SlotOf(s.core, x), Look(s.flights, x), fault);
  }

  lemma WriteOk(cfg: Config, s: Sys, a: Action)
    requires AboutPackage(a) && Next(cfg, s, a).Some? && Safe(s)
    ensures a.x in s.core.nodes && WritesSoundly(s, a.x, Write(cfg, s, a))
  {
    assert a.x in s.core.nodes ==> PackageOk(s, a.x);
    match a
    case Begin(x, fault) => BeginWrites(cfg, s, x, fault);
    case Finish(x, reply, fault) => FinishWrites(cfg, s, x, reply, fault);
    case Collect(x) => CollectWrites(cfg, s, x);
    case Discard(x) =>
    case Resolve(x, fault) => ResolveWrites(cfg, s, x, fault);
  }

  /** A step about one package: the share it writes back is sound. */
  lemma PackageStepKeepsSafe(cfg: Config, s: Sys, a: Action)
    requires Safe(s) && Next(cfg, s, a).Some? && AboutPackage(a)
    ensures Safe(Next(cfg, s, a).value) && Grows(s.core.nodes, Next(cfg, s, a).value.core.nodes)
  {
    var w := Write(cfg, s, a);
    var u := Update(s, a.x, w.slot, w.events, w.flight);
    NextWrites(cfg, s, a);
    WriteOk(cfg, s, a);
    UpdateKeepsSafe(s, a.x, w.slot, w.events, w.flight);
    SameSharesSafe(u, Next(cfg, s, a).value);
  }

  /** Every step keeps the invariant, whatever fails, and never takes back a completion. */
  lemma StepKeepsSafe(cfg: Config, s: Sys, a: Action)
    requires Safe(s) && Next(cfg, s, a).Some?
    ensures Safe(Next(cfg, s, a).value) && Grows(s.core.nodes, Next(cfg, s, a).value.core.nodes)
  {
    match a
    case StartBatch => LaunchKeepsSafe(s, Batch(cfg, ReadyList(s.core.nodes)));
    case StartDispatch => LaunchKeepsSafe(s, [ReadyList(s.core.nodes)[0]]);
    case StartRun => SameSharesSafe(s, Next(cfg, s, a).value);
    case EndRun => SameSharesSafe(s, Next(cfg, s, a).value);
    case CancelRun => SameSharesSafe(s, Next(cfg, s, a).value);
    case RecordApproval(x) => SameSharesSafe(s, Next(cfg, s, a).value);
    case RecordRejection(x, reason) => SameSharesSafe(s, Next(cfg, s, a).value);
    case _ => PackageStepKeepsSafe(cfg, s, a);
  }

  lemma GrowsTransitive(a: Planner.Nodes, b: Planner.Nodes, c: Planner.Nodes)
    requires Grows(a, b) && Grows(b, c)
    ensures Grows(a, c)
  {
  }

  /** Dependency safety: in every state reachable from a fresh graph, through any interleaving and any
      failures, a package that is running, completed or deficient has all its dependencies completed;
      what is completed stays completed. */
  lemma {:induction false} DependencySafety(cfg: Config, s: Sys, acts: seq<Action>, t: Sys)
    requires Safe(s) && Reaches(cfg, s, acts, t)
    ensures Safe(t) && Grows(s.core.nodes, t.core.nodes)
    ensures forall x :: x in t.core.nodes && !Waiting(t.core.nodes[x].state) ==> DepsDone(t.core.nodes, x)
    decreases |acts|
  {
    if acts != [] {
      var next := Next(cfg, s, acts[0]).value;
      StepKeepsSafe(cfg, s, acts[0]);
      DependencySafety(cfg, next, acts[1..], t);
      GrowsTransitive(s.core.nodes, next.core.nodes, t.core.nodes);
    } else {
      forall x | x in t.core.nodes && !Waiting(t.core.nodes[x].state) ensures DepsDone(t.core.nodes, x) {
        assert PackageOk(t, x);
      }
    }
  }

  lemma DependencySafetyFromFresh(cfg: Config, s: Sys, acts: seq<Action>, t: Sys)
    requires Fresh(s) && Reaches(cfg, s, acts, t)
    ensures forall x :: x in t.core.nodes && !Waiting(t.core.nodes[x].state) ==> DepsDone(t.core.nodes, x)
    ensures forall x :: x in t.core.nodes && t.core.nodes[x].state == Planner.Completed ==>
              var slot := SlotOf(t.core, x);
              && slot.binding.Some? && slot.binding.value.history == TO_GATES + [Accepted] && GoodResult(slot)
  {
    FreshIsSafe(s);
    DependencySafety(cfg, s, acts, t);
    forall x | x in t.core.nodes && t.core.nodes[x].state == Planner.Completed
      ensures var slot := SlotOf(t.core, x);
              && slot.binding.Some? && slot.binding.value.history == TO_GATES + [Accepted] && GoodResult(slot)
    {
      assert PackageOk(t, x);
    }
  }

  // ---- acceptance only through passing gates ----

  predicate CompletedIn(s: Sys, x: Id) {
    x in s.core.nodes && s.core.nodes[x].state == Planner.Completed
  }

  lemma FinishCompletes(cfg: Config, humans: Humans, x: Id, slot: Slot, b: Binding, reply: Reply, fault: Fault)
    requires SlotOk(x, slot, Some(Busy(b)))
    requires FinishSection(cfg, humans, slot, b, reply, fault).slot.state == Planner.Completed
    ensures var after := FinishSection(cfg, humans, slot, b, reply, fault).slot;
            GoodResult(after) && Passes(cfg.gates, humans, SubjectOf(x, ResultOf(after)))
  {
  }

  lemma ResolveCompletes(cfg: Config, humans: Humans, x: Id, slot: Slot, flight: Option<Flight>, fault: Fault)
    requires SlotOk(x, slot, flight) && slot.state != Planner.Completed
    requires ResolveSection(cfg, humans, slot, fault).slot.state == Planner.Completed
    ensures var after := ResolveSection(cfg, humans, slot, fault).slot;
            GoodResult(after) && Passes(cfg.gates, humans, SubjectOf(x, ResultOf(after)))
  {
  }

  /** The one way to become completed: a section in which the result is succeeded or partial and
      every gate passes under the human decisions of that moment. */
  lemma OnlyPassingGatesComplete(cfg: Config, s: Sys, a: Action, x: Id)
    requires Safe(s) && Next(cfg, s, a).Some?
    requires !CompletedIn(s, x) && CompletedIn(Next(cfg, s, a).value, x)
    ensures (a.Finish? || a.Resolve?) && a.x == x
    ensures var slot := SlotOf(Next(cfg, s, a).value.core, x);
            GoodResult(slot) && Passes(cfg.gates, s.core.humans, SubjectOf(x, ResultOf(slot)))
  {
    NextWrites(cfg, s, a);
    var w := Write(cfg, s, a);
    PutFrame(s.core, a.x, w.slot, w.events, x);
    WriteCompletes(cfg, s, a);
  }

  lemma WriteCompletes(cfg: Config, s: Sys, a: Action)
    requires Safe(s) && AboutPackage(a) && Next(cfg, s, a).Some?
    requires a.x in s.core.nodes && !CompletedIn(s, a.x) && Write(cfg, s, a).slot.state == Planner.Completed
    ensures a.Finish? || a.Resolve?
    ensures var slot := Write(cfg, s, a).slot;
            GoodResult(slot) && Passes(cfg.gates, s.core.humans, SubjectOf(a.x, ResultOf(slot)))
  {
    assert PackageOk(s, a.x);
    var slot := SlotOf(s.core, a.x);
    match a
    case Begin(y, fault) => BeginOk(cfg, y, s.core.nodes[y].capabilities, slot, fault);
    case Finish(y, reply, fault) => FinishCompletes(cfg, s.core.humans, y, slot, s.flights[y].binding, reply, fault);
    case Collect(y) =>
    case Discard(y) =>
    case Resolve(y, fault) =>
      ResolveCompletes(cfg, s.core.humans, y, slot, Look(s.flights, y), fault);
  }

  lemma HumansOnlyRecorded(cfg: Config, s: Sys, a: Action, x: Id)
    requires Next(cfg, s, a).Some? && x in s.core.humans.rejected
    ensures x in Next(cfg, s, a).value.core.humans.rejected
  {
    if AboutPackage(a) {
      NextWrites(cfg, s, a);
    }
  }

  /** A rejection is never taken back: after it no section that asks its gates completes the package,
      whatever approvals, retries and resolves follow. */
  lemma {:induction false} RejectionIsFinal(cfg: Config, s: Sys, acts: seq<Action>, t: Sys, x: Id)
    requires Safe(s) && Reaches(cfg, s, acts, t)
    requires HumanGate in cfg.gates && x in s.core.humans.rejected
    ensures x in t.core.humans.rejected
    ensures CompletedIn(t, x) ==> CompletedIn(s, x)
    decreases |acts|
  {
    if acts != [] {
      var next := Next(cfg, s, acts[0]).value;
      StepKeepsSafe(cfg, s, acts[0]);
      HumansOnlyRecorded(cfg, s, acts[0], x);
      if CompletedIn(next, x) && !CompletedIn(s, x) {
        OnlyPassingGatesComplete(cfg, s, acts[0], x);
        RejectedNeverPasses(cfg.gates, s.core.humans, SubjectOf(x, ResultOf(SlotOf(next.core, x))));
      }
      RejectionIsFinal(cfg, next, acts[1..], t, x);
    }
  }
}
