/** The shared state of the scheduler and the critical sections that change it, as functions. */
module SchedulerCore {
  import opened Ordering
  import Planner
  import opened Gate
  import opened Assignment

  datatype WorkResult = WorkResult(status: WorkStatus, tests: seq<TestSummary>)

  /** What a call of the worker adapter comes back with: a result, a result intake refuses, an error,
      or the cancellation of the context. */
  datatype Reply = Answer(result: WorkResult) | Malformed | Crashed | Interrupted

  /** Which of the calls that may fail outside the scheduler does fail: building the contract, or
      the first, second or third time an assignment record is written in the section. */
  datatype Fault = NoFault | ContractFault | RecordFault(which: nat)

  datatype Status = WorkSucceeded | WorkPending | WorkFailed | Errored

  datatype Event =
    | Started(workPackage: Id, attempt: nat)
    | WorkAccepted(workPackage: Id, attempt: nat)
    | PersistFailed(workPackage: Id)

  /** Everything o.mu protects. */
  datatype Core = Core(
    nodes: Planner.Nodes,
    assignments: map<Id, Binding>,
    attempts: map<Id, nat>,
    results: map<Id, WorkResult>,
    humans: Humans,
    events: seq<Event>)

  datatype Config = Config(gates: seq<GateKind>, selectOne: seq<Id> -> Option<Id>, maxConcurrency: int,
                           maxAttempts: int)

  function Concurrency(cfg: Config): (n: nat)
    ensures n >= 1
  {
    if cfg.maxConcurrency < 1 then 1 else cfg.maxConcurrency
  }

  function AttemptLimit(cfg: Config): (n: nat)
    ensures n >= 1
  {
    if cfg.maxAttempts < 1 then 1 else cfg.maxAttempts
  }

  function AttemptsMade(core: Core, x: Id): nat {
    if x in core.attempts then core.attempts[x] else 0
  }

  function SubjectOf(x: Id, r: WorkResult): Subject {
    Subject(x, r.status, r.tests)
  }

  function Store<T>(m: map<Id, T>, x: Id, v: Option<T>): map<Id, T> {
    if v.Some? then m[x := v.value] else m - {x}
  }

  /** The share of one package in the state; a section reads and writes nothing else of a package. */
  datatype Slot = Slot(state: Planner.State, binding: Option<Binding>, attempts: nat, result: Option<WorkResult>)

  function SlotOf(core: Core, x: Id): Slot
    requires x in core.nodes
  {
    Slot(core.nodes[x].state, Look(core.assignments, x), AttemptsMade(core, x), Look(core.results, x))
  }

  function Put(core: Core, x: Id, slot: Slot, events: seq<Event>): Core
    requires x in core.nodes
  {
    core.(nodes := core.nodes[x := core.nodes[x].(state := slot.state)],
          assignments := Store(core.assignments, x, slot.binding),
          attempts := Store(core.attempts, x, if slot.attempts == 0 then None else Some(slot.attempts)),
          results := Store(core.results, x, slot.result),
          events := core.events + events)
  }

  lemma PutFrame(core: Core, x: Id, slot: Slot, events: seq<Event>, y: Id)
    requires x in core.nodes && y in core.nodes
    ensures SlotOf(Put(core, x, slot, events), y) == if y == x then slot else SlotOf(core, y)
  {
  }

  /** What a section does: the new share of the package, the events it emits and its outcome. */
  datatype Change<T> = Change(slot: Slot, events: seq<Event>, out: T)

  // ---- first critical section: select, contract, lease, start ----

  /** The binding with which an attempt starts its work. */
  function StartedBinding(x: Id, attempt: nat, worker: Id): Binding {
    Transition(Transition(Transition(NewBinding(x, attempt, worker), Leased), Preparing), InProgress)
  }

  function BeginSection(cfg: Config, x: Id, capabilities: seq<Id>, slot: Slot, fault: Fault): Change<Option<Binding>> {
    match cfg.selectOne(capabilities)
    case None => Change(slot, [], None)
    case Some(worker) =>
      var attempt := slot.attempts + 1;
      if fault == ContractFault then Change(slot.(attempts := attempt), [], None)
      else if fault == RecordFault(1) then
        Change(slot.(attempts := attempt, state := Planner.Deficient), [Started(x, attempt), PersistFailed(x)], None)
      else
        Change(slot.(attempts := attempt, state := Planner.Running), [Started(x, attempt)],
               Some(StartedBinding(x, attempt, worker)))
  }

  // ---- second critical section: intake, gates, acceptance ----

  /** The record written last in a section: a failure turns the outcome into an error and is
      announced, but takes nothing back. */
  function Recorded(slot: Slot, x: Id, fault: Fault, record: nat, out: Status, events: seq<Event>): Change<Status> {
    if fault == RecordFault(record) then Change(slot, [PersistFailed(x)], Errored) else Change(slot, events, out)
  }

  function AcceptWork(slot: Slot, a: Binding, fault: Fault, record: nat): Change<Status> {
    Recorded(slot.(state := Planner.Completed, binding := Some(Transition(a, Accepted))), a.workPackage, fault, record,
             WorkSucceeded, [WorkAccepted(a.workPackage, a.attempt)])
  }

  function FailWork(slot: Slot, a: Binding): Slot {
    slot.(state := Planner.Deficient, binding := Some(Transition(a, Failure)))
  }

  /** Accept, leave waiting or fail an assignment that awaits its gates. The failure is recorded only
      when fail says as which record of the section. */
  function AskGates(cfg: Config, humans: Humans, slot: Slot, a: Binding, r: WorkResult, fault: Fault,
                    accept: nat, fail: Option<nat>): Change<Status>
  {
    var s := SubjectOf(a.workPackage, r);
    if Passes(cfg.gates, humans, s) then AcceptWork(slot, a, fault, accept)
    else if Pends(cfg.gates, humans, s) then Change(slot, [], WorkPending)
    else if fail.Some? then Recorded(FailWork(slot, a), a.workPackage, fault, fail.value, WorkFailed, [])
    else Change(FailWork(slot, a), [], WorkFailed)
  }

  /** Once intake has taken a result in: record it, ask the gates, settle the attempt. */
  function TakenIn(cfg: Config, humans: Humans, slot: Slot, taken: Binding, r: WorkResult,
                   fault: Fault): Change<Status>
  {
    var x := taken.workPackage;
    var kept := slot.(binding := Some(taken), result := Some(r));
    if fault == RecordFault(1) then Change(kept, [PersistFailed(x)], Errored)
    else if r.status != Succeeded && r.status != Partial then
      Recorded(FailWork(kept, taken), x, fault, 2, WorkFailed, [])
    else AskHeld(cfg, humans, kept, Transition(taken, AwaitingGates), r, fault)
  }

  /** The assignment of a good result is recorded as waiting, and its gates are asked at once. */
  function AskHeld(cfg: Config, humans: Humans, kept: Slot, waiting: Binding, r: WorkResult,
                   fault: Fault): Change<Status>
  {
    var held := kept.(binding := Some(waiting));
    if fault == RecordFault(2) then Change(held, [PersistFailed(waiting.workPackage)], Errored)
    else AskGates(cfg, humans, held, waiting, r, fault, 3, None)
  }

  function FinishSection(cfg: Config, humans: Humans, slot: Slot, a: Binding, reply: Reply,
                         fault: Fault): Change<Status>
  {
    var x := a.workPackage;
    match reply
    case Interrupted => Recorded(slot.(binding := Some(Transition(a, Canceled))), x, fault, 1, Errored, [])
    case Crashed => Recorded(FailWork(slot, a), x, fault, 1, WorkFailed, [])
    case Malformed => Change(slot, [], Errored)
    case Answer(r) =>
      if !CanTransition(a, Collecting) then Change(slot, [], Errored)
      else
        TakenIn(cfg, humans, slot, Transition(a, Collecting), r, fault)
  }

  /** A failed package goes back to ready for another attempt. */
  function ResetSection(slot: Slot): (Slot, bool) {
    if slot.binding.None? then (slot, false) else (slot.(state := Planner.Ready), true)
  }

  predicate Awaits(slot: Slot) {
    slot.binding.Some? && slot.binding.value.state == AwaitingGates
  }

  function ResultOf(slot: Slot): WorkResult {
    if slot.result.Some? then slot.result.value else WorkResult(Failed, [])
  }

  /** Ask the gates again for a package that awaits them. */
  function ResolveSection(cfg: Config, humans: Humans, slot: Slot, fault: Fault): Change<Status> {
    if !Awaits(slot) then Change(slot, [], Errored)
    else
      AskGates(cfg, humans, slot, slot.binding.value, ResultOf(slot), fault, 1, Some(1))
  }
}
