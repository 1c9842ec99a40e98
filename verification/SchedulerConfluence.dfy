/** Confluence of Run: when the worker's answer depends only on the package and the attempt and the
    gates answer the same throughout, every interleaving and every concurrency limit ends alike. */
module SchedulerConfluence {
  import opened Ordering
  import Planner
  import opened Gate
  import opened Assignment
  import opened SchedulerCore
  import opened SchedulerSystem

  /** What a quiet run depends on. */
  datatype World = World(cfg: Config, humans: Humans, worker: (Id, nat) -> Reply)

  /** Workers answer or crash, and every package has an eligible worker: no errors, no cancellation. */
  ghost predicate Quiet(w: World, nodes: Planner.Nodes) {
    && (forall x, n :: w.worker(x, n).Answer? || w.worker(x, n).Crashed?)
    && forall x :: x in nodes ==> w.cfg.selectOne(nodes[x].capabilities).Some?
  }

  /** The same world under another concurrency limit. */
  ghost predicate Runs(w: World, cfg: Config) {
    cfg == w.cfg.(maxConcurrency := cfg.maxConcurrency)
  }

  function Chosen(w: World, capabilities: seq<Id>): Id {
    match w.cfg.selectOne(capabilities) case Some(id) => id case None => EMPTY
  }

  // ---- the life of one package, by itself ----

  /** The section that ends attempt n, applied to the share the attempt started with. */
  function Ending(w: World, x: Id, capabilities: seq<Id>, n: nat): Change<Status>
    requires n >= 1
    decreases n, 1
  {
    FinishSection(w.cfg, w.humans, StartedSlot(w, x, capabilities, n),
                  StartedBinding(x, n, Chosen(w, capabilities)), w.worker(x, n), NoFault)
  }

  /** The share of a package while attempt n is under way. */
  function StartedSlot(w: World, x: Id, capabilities: seq<Id>, n: nat): Slot
    requires n >= 1
    decreases n, 0
  {
    BeginSection(w.cfg, x, capabilities, IdleSlot(w, x, capabilities, n - 1), NoFault).slot
  }

  /** The share of a package that is to be dispatched again after n attempts. */
  function IdleSlot(w: World, x: Id, capabilities: seq<Id>, n: nat): Slot
    decreases n, 2
  {
    if n == 0 then Slot(Planner.Proposed, None, 0, None) else ResetSection(Ending(w, x, capabilities, n).slot).0
  }

  /** The outcomes of a package's attempts, one after the other. */
  function Outcomes(w: World, x: Id, capabilities: seq<Id>): nat -> Status {
    (n: nat) => if n == 0 then WorkFailed else Ending(w, x, capabilities, n).out
  }

  ghost predicate AllFailed(out: nat -> Status, k: nat) {
    forall j :: 1 <= j <= k ==> out(j) == WorkFailed
  }

  /** The number of attempts after which Run leaves a package alone, from attempt k on. */
  function TriesFrom(out: nat -> Status, limit: nat, k: nat): (n: nat)
    requires 1 <= k <= limit
    ensures k <= n <= limit
    decreases limit - k
  {
    if out(k) == WorkFailed && k < limit then TriesFrom(out, limit, k + 1) else k
  }

  /** Attempt n is the last one: those before it failed, and it did not or none is left. */
  ghost predicate Ended(out: nat -> Status, limit: nat, n: nat) {
    1 <= n <= limit && AllFailed(out, n - 1) && (out(n) == WorkFailed ==> n == limit)
  }

  lemma {:induction false} EndedAfterTries(out: nat -> Status, limit: nat, n: nat, k: nat)
    requires Ended(out, limit, n) && 1 <= k <= n
    ensures TriesFrom(out, limit, k) == n
    decreases n - k
  {
    if k < n {
      EndedAfterTries(out, limit, n, k + 1);
    }
  }

  function Tries(w: World, x: Id, capabilities: seq<Id>): (n: nat)
    ensures 1 <= n <= AttemptLimit(w.cfg)
  {
    TriesFrom(Outcomes(w, x, capabilities), AttemptLimit(w.cfg), 1)
  }

  /** The states a package passes through in attempt n. */
  lemma Shapes(w: World, x: Id, capabilities: seq<Id>, n: nat)
    requires n >= 1 && w.cfg.selectOne(capabilities).Some?
    requires w.worker(x, n).Answer? || w.worker(x, n).Crashed?
    ensures IdleSlot(w, x, capabilities, n - 1).attempts == n - 1
    ensures var s := StartedSlot(w, x, capabilities, n); s.attempts == n && s.state == Planner.Running
    ensures var e := Ending(w, x, capabilities, n);
            && e.slot.attempts == n && e.slot.binding.Some? && e.out != Errored
            && e.slot.state == (match e.out case WorkSucceeded => Planner.Completed case WorkPending => Planner.Running
                                            case _ => Planner.Deficient)
  {
    StartedShape(w, x, capabilities, n);
    FinishShape(w, StartedSlot(w, x, capabilities, n), x, n, Chosen(w, capabilities));
  }

  lemma StartedShape(w: World, x: Id, capabilities: seq<Id>, n: nat)
    requires n >= 1 && w.cfg.selectOne(capabilities).Some?
    ensures IdleSlot(w, x, capabilities, n - 1).attempts == n - 1
    ensures var s := StartedSlot(w, x, capabilities, n); s.attempts == n && s.state == Planner.Running
  {
    IdleAttempts(w, x, capabilities, n - 1);
    BeginShape(w, IdleSlot(w, x, capabilities, n - 1), x, capabilities);
  }

  /** Without faults the first section starts the package. */
  lemma BeginShape(w: World, slot: Slot, x: Id, capabilities: seq<Id>)
    requires w.cfg.selectOne(capabilities).Some?
    ensures var s := BeginSection(w.cfg, x, capabilities, slot, NoFault).slot;
            s.attempts == slot.attempts + 1 && s.state == Planner.Running
  {
  }

  /** Without faults the second section settles the package one way or another. */
  lemma FinishShape(w: World, slot: Slot, x: Id, n: nat, worker: Id)
    requires (w.worker(x, n).Answer? || w.worker(x, n).Crashed?) && slot.state == Planner.Running
    ensures var e := FinishSection(w.cfg, w.humans, slot, StartedBinding(x, n, worker), w.worker(x, n), NoFault);
            && e.slot.attempts == slot.attempts && e.slot.binding.Some? && e.out != Errored
            && e.slot.state == (match e.out case WorkSucceeded => Planner.Completed case WorkPending => Planner.Running
                                            case _ => Planner.Deficient)
  {
  }

  /** The second section counts no attempt. */
  lemma FinishAttempts(w: World, slot: Slot, x: Id, n: nat, worker: Id)
    ensures FinishSection(w.cfg, w.humans, slot, StartedBinding(x, n, worker), w.worker(x, n), NoFault).slot.attempts
         == slot.attempts
  {
  }

  lemma {:induction false} IdleAttempts(w: World, x: Id, capabilities: seq<Id>, n: nat)
    requires w.cfg.selectOne(capabilities).Some?
    ensures IdleSlot(w, x, capabilities, n).attempts == n
    decreases n
  {
    if n > 0 {
      IdleAttempts(w, x, capabilities, n - 1);
      assert StartedSlot(w, x, capabilities, n).attempts == n;
      FinishAttempts(w, StartedSlot(w, x, capabilities, n), x, n, Chosen(w, capabilities));
    }
  }

  // ---- where a package stands during a run ----

  /** The share, the flight and the count of collected outcomes of a package lie on its own path. */
  ghost predicate OnPath(w: World, x: Id, capabilities: seq<Id>, slot: Slot, flight: Option<Flight>, counted: nat) {
    var n := slot.attempts;
    var out := Outcomes(w, x, capabilities);
    var limit := AttemptLimit(w.cfg);
    match flight
    case None =>
      && counted == n
      && if Waiting(slot.state) then slot == IdleSlot(w, x, capabilities, n) && n < limit && AllFailed(out, n)
         else n >= 1 && slot == Ending(w, x, capabilities, n).slot && Ended(out, limit, n)
    case Some(Spawned) =>
      counted == n && slot == IdleSlot(w, x, capabilities, n) && n < limit && AllFailed(out, n)
    case Some(Busy(b)) =>
      && 1 <= n <= limit && counted == n - 1 && slot == StartedSlot(w, x, capabilities, n)
      && b == StartedBinding(x, n, Chosen(w, capabilities)) && AllFailed(out, n - 1)
    case Some(Sent(status)) =>
      && 1 <= n <= limit && counted == n - 1 && slot == Ending(w, x, capabilities, n).slot
      && status == out(n) && AllFailed(out, n - 1)
  }

  lemma BeginOnPath(w: World, cfg: Config, x: Id, capabilities: seq<Id>, slot: Slot, counted: nat)
    requires Runs(w, cfg) && w.cfg.selectOne(capabilities).Some?
    requires OnPath(w, x, capabilities, slot, Some(Spawned), counted)
    ensures var c := BeginSection(cfg, x, capabilities, slot, NoFault);
            c.out.Some? && OnPath(w, x, capabilities, c.slot, Some(Busy(c.out.value)), counted)
  {
    var n := slot.attempts + 1;
    StartedShape(w, x, capabilities, n);
    BeginResult(w, cfg, x, capabilities, slot);
    StartsOnPath(w, x, capabilities, StartedSlot(w, x, capabilities, n), n);
  }

  lemma BeginResult(w: World, cfg: Config, x: Id, capabilities: seq<Id>, slot: Slot)
    requires Runs(w, cfg) && w.cfg.selectOne(capabilities).Some?
    ensures var c := BeginSection(cfg, x, capabilities, slot, NoFault);
            && c.slot == BeginSection(w.cfg, x, capabilities, slot, NoFault).slot
            && c.out == Some(StartedBinding(x, slot.attempts + 1, Chosen(w, capabilities)))
  {
  }

  lemma StartsOnPath(w: World, x: Id, capabilities: seq<Id>, slot: Slot, n: nat)
    requires 1 <= n <= AttemptLimit(w.cfg) && slot == StartedSlot(w, x, capabilities, n) && slot.attempts == n
    requires AllFailed(Outcomes(w, x, capabilities), n - 1)
    ensures OnPath(w, x, capabilities, slot, Some(Busy(StartedBinding(x, n, Chosen(w, capabilities)))), n - 1)
  {
  }

  lemma FinishOnPath(w: World, cfg: Config, x: Id, capabilities: seq<Id>, slot: Slot, b: Binding, counted: nat)
    requires Runs(w, cfg) && w.cfg.selectOne(capabilities).Some?
    requires w.worker(x, slot.attempts).Answer? || w.worker(x, slot.attempts).Crashed?
    requires OnPath(w, x, capabilities, slot, Some(Busy(b)), counted)
    ensures var c := FinishSection(cfg, w.humans, slot, b, w.worker(x, slot.attempts), NoFault);
            OnPath(w, x, capabilities, c.slot, Some(Sent(c.out)), counted)
  {
    var n := slot.attempts;
    Shapes(w, x, capabilities, n);
    var c := FinishSection(cfg, w.humans, slot, b, w.worker(x, n), NoFault);
    assert c == Ending(w, x, capabilities, n);
  }

  /** Collecting an outcome either sends the package round again or settles it for good. */
  lemma CollectOnPath(w: World, cfg: Config, x: Id, capabilities: seq<Id>, slot: Slot, status: Status,
                      report: RunReport)
    requires Runs(w, cfg) && w.cfg.selectOne(capabilities).Some?
    requires w.worker(x, slot.attempts).Answer? || w.worker(x, slot.attempts).Crashed?
    requires OnPath(w, x, capabilities, slot, Some(Sent(status)), Counted(report.attempts, x))
    ensures status != Errored
    ensures var (slot', report') := CollectOne(cfg, slot, report, x, status);
            OnPath(w, x, capabilities, slot', None, Counted(report'.attempts, x))
  {
    var n := slot.attempts;
    Shapes(w, x, capabilities, n);
    assert Outcomes(w, x, capabilities)(n) == Ending(w, x, capabilities, n).out;
    var report' := CollectOne(cfg, slot, report, x, status).1;
    assert Counted(report'.attempts, x) == n;
    if status == WorkFailed && n < AttemptLimit(cfg) {
      RetryOnPath(w, x, capabilities, n);
    } else {
      SettledOnPath(w, x, capabilities, n);
    }
  }

  lemma RetryOnPath(w: World, x: Id, capabilities: seq<Id>, n: nat)
    requires 1 <= n < AttemptLimit(w.cfg) && w.cfg.selectOne(capabilities).Some?
    requires AllFailed(Outcomes(w, x, capabilities), n - 1) && Outcomes(w, x, capabilities)(n) == WorkFailed
    requires Ending(w, x, capabilities, n).slot.binding.Some?
    ensures ResetSection(Ending(w, x, capabilities, n).slot).1
    ensures OnPath(w, x, capabilities, ResetSection(Ending(w, x, capabilities, n).slot).0, None, n)
  {
    var ended := Ending(w, x, capabilities, n).slot;
    var slot := ResetSection(ended).0;
    IdleAfter(w, x, capabilities, n, ended);
    ResetShape(ended);
    OneMoreFailed(Outcomes(w, x, capabilities), n);
    RestsOnPath(w, x, capabilities, slot, n);
  }

  lemma IdleAfter(w: World, x: Id, capabilities: seq<Id>, n: nat, ended: Slot)
    requires n >= 1 && w.cfg.selectOne(capabilities).Some? && ended == Ending(w, x, capabilities, n).slot
    ensures IdleSlot(w, x, capabilities, n) == ResetSection(ended).0 && ResetSection(ended).0.attempts == n
  {
    IdleAttempts(w, x, capabilities, n);
  }

  lemma OneMoreFailed(out: nat -> Status, n: nat)
    requires n >= 1 && AllFailed(out, n - 1) && out(n) == WorkFailed
    ensures AllFailed(out, n)
  {
  }

  lemma RestsOnPath(w: World, x: Id, capabilities: seq<Id>, slot: Slot, n: nat)
    requires slot == IdleSlot(w, x, capabilities, n) && slot.attempts == n && Waiting(slot.state)
    requires n < AttemptLimit(w.cfg) && AllFailed(Outcomes(w, x, capabilities), n)
    ensures OnPath(w, x, capabilities, slot, None, n)
  {
  }

  lemma ResetShape(slot: Slot)
    requires slot.binding.Some?
    ensures ResetSection(slot).1 && Waiting(ResetSection(slot).0.state)
  {
  }

  lemma SettledOnPath(w: World, x: Id, capabilities: seq<Id>, n: nat)
    requires 1 <= n <= AttemptLimit(w.cfg)
    requires AllFailed(Outcomes(w, x, capabilities), n - 1)
    requires Outcomes(w, x, capabilities)(n) == WorkFailed ==> n == AttemptLimit(w.cfg)
    requires var e := Ending(w, x, capabilities, n).slot; e.attempts == n && !Waiting(e.state)
    ensures OnPath(w, x, capabilities, Ending(w, x, capabilities, n).slot, None, n)
  {
  }

  // ---- sums over the packages ----

  ghost function Total(ids: seq<Id>, f: Id -> nat): nat {
    if ids == [] then 0 else f(ids[0]) + Total(ids[1..], f)
  }

  lemma {:induction false} TotalSame(ids: seq<Id>, f: Id -> nat, g: Id -> nat)
    requires forall x :: x in ids ==> f(x) == g(x)
    ensures Total(ids, f) == Total(ids, g)
  {
    if ids != [] {
      TotalSame(ids[1..], f, g);
    }
  }

  /** Changing the share of one package changes a sum by that much. */
  lemma {:induction false} TotalChange(ids: seq<Id>, f: Id -> nat, g: Id -> nat, x: Id)
    requires Distinct(ids) && x in ids && forall y :: y in ids && y != x ==> f(y) == g(y)
    ensures Total(ids, g) + f(x) == Total(ids, f) + g(x)
  {
    if ids[0] == x {
      assert x !in ids[1..];
      TotalSame(ids[1..], f, g);
    } else {
      TotalChange(ids[1..], f, g, x);
    }
  }

  lemma {:induction false} TotalBound(ids: seq<Id>, f: Id -> nat, bound: nat)
    requires forall x :: x in ids ==> f(x) <= bound
    ensures Total(ids, f) <= |ids| * bound
  {
    if ids != [] {
      TotalBound(ids[1..], f, bound);
      assert |ids| * bound == |ids[1..]| * bound + bound;
    }
  }

  lemma {:induction false} TotalSmaller(ids: seq<Id>, f: Id -> nat, g: Id -> nat)
    requires forall x :: x in ids ==> g(x) <= f(x)
    ensures Total(ids, g) <= Total(ids, f)
    ensures (exists x :: x in ids && g(x) < f(x)) ==> Total(ids, g) < Total(ids, f)
  {
    if ids != [] {
      TotalSmaller(ids[1..], f, g);
      if x :| x in ids && g(x) < f(x) {
        assert x == ids[0] || x in ids[1..];
      }
    }
  }

  // ---- the whole run ----

  /** What one package adds to the report once it is settled. */
  function AcceptedShare(slot: Slot, flight: Option<Flight>): nat {
    if flight.None? && slot.state == Planner.Completed then 1 else 0
  }

  function FailedShare(slot: Slot, flight: Option<Flight>): nat {
    if flight.None? && slot.state == Planner.Deficient then 1 else 0
  }

  function PendingShare(slot: Slot, flight: Option<Flight>): nat {
    if flight.None? && slot.state == Planner.Running then 1 else 0
  }

  /** Steps still to come on a package's behalf, counted so that every step takes one off. */
  function Potential(limit: nat, slot: Slot, flight: Option<Flight>): nat {
    if slot.attempts > limit then 0
    else
      var rounds := 4 * (limit - slot.attempts);
      match flight
      case None => rounds
      case Some(Spawned) => if rounds == 0 then 0 else rounds - 1
      case Some(Busy(_)) => rounds + 2
      case Some(Sent(_)) => rounds + 1
  }

  function SlotAt(core: Core, x: Id): Slot {
    if x in core.nodes then SlotOf(core, x) else Slot(Planner.Unset, None, 0, None)
  }

  function CapabilitiesOf(core: Core, x: Id): seq<Id>
    requires x in core.nodes
  {
    core.nodes[x].capabilities
  }

  ghost predicate PackageOnPath(w: World, s: Sys, x: Id)
    requires x in s.core.nodes
  {
    OnPath(w, x, CapabilitiesOf(s.core, x), SlotOf(s.core, x), Look(s.flights, x), Counted(s.report.attempts, x))
  }

  ghost function CountsOf(m: map<Id, nat>): Id -> nat {
    x => Counted(m, x)
  }

  ghost function CountedIn(s: Sys): Id -> nat {
    CountsOf(s.report.attempts)
  }

  ghost function AcceptedIn(s: Sys): Id -> nat {
    x => AcceptedShare(SlotAt(s.core, x), Look(s.flights, x))
  }

  ghost function FailedIn(s: Sys): Id -> nat {
    x => FailedShare(SlotAt(s.core, x), Look(s.flights, x))
  }

  ghost function PendingIn(s: Sys): Id -> nat {
    x => PendingShare(SlotAt(s.core, x), Look(s.flights, x))
  }

  ghost function PotentialIn(limit: nat, s: Sys): Id -> nat {
    x => Potential(limit, SlotAt(s.core, x), Look(s.flights, x))
  }

  ghost predicate ReportCounts(s: Sys, ids: seq<Id>) {
    && s.report.dispatched == Total(ids, CountedIn(s))
    && s.report.accepted == Total(ids, AcceptedIn(s))
    && s.report.failed == Total(ids, FailedIn(s))
    && s.report.pending == Total(ids, PendingIn(s))
    && forall x :: x in s.report.attempts ==> x in s.core.nodes && s.report.attempts[x] > 0
  }

  ghost predicate Quietly(w: World, s: Sys, ids: seq<Id>) {
    && Quiet(w, s.core.nodes) && s.core.humans == w.humans
    && Distinct(ids) && Elements(ids) == s.core.nodes.Keys
    && Safe(s)
    && (forall x :: x in s.core.nodes ==> PackageOnPath(w, s, x))
    && ReportCounts(s, ids)
    && (!s.active ==> s.flights == map[] && ReadyList(s.core.nodes) == [])
  }

  ghost function Rank(w: World, s: Sys, ids: seq<Id>): nat {
    Total(ids, PotentialIn(AttemptLimit(w.cfg), s)) + if s.active then 1 else 0
  }

  /** The steps a quiet run is made of: no faults, and the worker's own answer. */
  ghost predicate QuietStep(w: World, s: Sys, a: Action) {
    match a
    case StartBatch => true
    case EndRun => true
    case Begin(x, fault) => fault == NoFault
    case Finish(x, reply, fault) => fault == NoFault && reply == w.worker(x, SlotAt(s.core, x).attempts)
    case Collect(x) => true
    case _ => false
  }

  lemma {:induction false} TotalZero(ids: seq<Id>, f: Id -> nat)
    requires forall x :: x in ids ==> f(x) == 0
    ensures Total(ids, f) == 0
  {
    if ids != [] {
      TotalZero(ids[1..], f);
    }
  }

  lemma QuietStart(w: World, s: Sys, ids: seq<Id>)
    requires Fresh(s) && Quiet(w, s.core.nodes) && s.core.humans == w.humans
    requires Distinct(ids) && Elements(ids) == s.core.nodes.Keys
    ensures Quietly(w, s.(active := true), ids)
  {
    var t := s.(active := true);
    FreshIsSafe(s);
    SameSharesSafe(s, t);
    forall x | x in t.core.nodes ensures PackageOnPath(w, t, x) {
      assert SlotOf(t.core, x) == IdleSlot(w, x, CapabilitiesOf(t.core, x), 0);
    }
    assert forall x :: x in ids ==> x in Elements(ids);
    TotalZero(ids, CountedIn(t));
    TotalZero(ids, AcceptedIn(t));
    TotalZero(ids, FailedIn(t));
    TotalZero(ids, PendingIn(t));
  }

  // ---- a step of a quiet run ----

  lemma BeginStepOnPath(w: World, cfg: Config, s: Sys, x: Id)
    requires Runs(w, cfg) && Quiet(w, s.core.nodes) && x in s.core.nodes && PackageOnPath(w, s, x)
    requires Next(cfg, s, Begin(x, NoFault)).Some?
    ensures var u := Write(cfg, s, Begin(x, NoFault));
            OnPath(w, x, CapabilitiesOf(s.core, x), u.slot, u.flight, Counted(s.report.attempts, x))
  {
    BeginOnPath(w, cfg, x, CapabilitiesOf(s.core, x), SlotOf(s.core, x), Counted(s.report.attempts, x));
  }

  lemma FinishStepOnPath(w: World, cfg: Config, s: Sys, x: Id)
    requires Runs(w, cfg) && Quiet(w, s.core.nodes) && x in s.core.nodes && PackageOnPath(w, s, x)
    requires s.core.humans == w.humans
    requires Next(cfg, s, Finish(x, w.worker(x, SlotOf(s.core, x).attempts), NoFault)).Some?
    ensures var u := Write(cfg, s, Finish(x, w.worker(x, SlotOf(s.core, x).attempts), NoFault));
            OnPath(w, x, CapabilitiesOf(s.core, x), u.slot, u.flight, Counted(s.report.attempts, x))
  {
    FinishOnPath(w, cfg, x, CapabilitiesOf(s.core, x), SlotOf(s.core, x), s.flights[x].binding,
                 Counted(s.report.attempts, x));
  }

  lemma CollectStepOnPath(w: World, cfg: Config, s: Sys, x: Id)
    requires Runs(w, cfg) && Quiet(w, s.core.nodes) && x in s.core.nodes && PackageOnPath(w, s, x)
    requires Next(cfg, s, Collect(x)).Some?
    ensures s.flights[x].status != Errored
    ensures var u := Write(cfg, s, Collect(x));
            OnPath(w, x, CapabilitiesOf(s.core, x), u.slot, u.flight,
                   Counted(Next(cfg, s, Collect(x)).value.report.attempts, x))
  {
    CollectOnPath(w, cfg, x, CapabilitiesOf(s.core, x), SlotOf(s.core, x), s.flights[x].status, s.report);
  }

  /** A quiet step about one package moves that package along its own path. */
  lemma PackageStepOnPath(w: World, cfg: Config, s: Sys, ids: seq<Id>, a: Action)
    requires Runs(w, cfg) && Quietly(w, s, ids) && QuietStep(w, s, a) && AboutPackage(a) && Next(cfg, s, a).Some?
    ensures a.x in s.core.nodes
    ensures var u := Write(cfg, s, a);
            OnPath(w, a.x, CapabilitiesOf(s.core, a.x), u.slot, u.flight,
                   Counted(Next(cfg, s, a).value.report.attempts, a.x))
  {
    assert PackageOnPath(w, s, a.x);
    match a
    case Begin(x, fault) => BeginStepOnPath(w, cfg, s, x);
    case Finish(x, reply, fault) => FinishStepOnPath(w, cfg, s, x);
    case Collect(x) => CollectStepOnPath(w, cfg, s, x);
  }

  /** Everything the invariants look at for one package. */
  ghost predicate SameView(s: Sys, t: Sys, y: Id) {
    && SlotAt(t.core, y) == SlotAt(s.core, y) && Look(t.flights, y) == Look(s.flights, y)
    && Counted(t.report.attempts, y) == Counted(s.report.attempts, y)
    && (y in s.core.nodes ==> y in t.core.nodes && CapabilitiesOf(t.core, y) == CapabilitiesOf(s.core, y))
  }

  lemma OthersKeepView(cfg: Config, s: Sys, a: Action, y: Id)
    requires AboutPackage(a) && Next(cfg, s, a).Some?
    requires y in s.core.nodes && y != a.x
    ensures SameView(s, Next(cfg, s, a).value, y)
  {
    NextWrites(cfg, s, a);
    var u := Write(cfg, s, a);
    PutFrame(s.core, a.x, u.slot, u.events, y);
    StoreFrame(s.flights, a.x, u.flight, y);
    AttemptsCounted(cfg, s, a, y);
  }

  lemma AttemptsCounted(cfg: Config, s: Sys, a: Action, y: Id)
    requires AboutPackage(a) && Next(cfg, s, a).Some? && y != a.x
    ensures Counted(Next(cfg, s, a).value.report.attempts, y) == Counted(s.report.attempts, y)
  {
  }

  lemma ThisOneWritten(cfg: Config, s: Sys, a: Action)
    requires AboutPackage(a) && Next(cfg, s, a).Some?
    ensures var t := Next(cfg, s, a).value;
            var u := Write(cfg, s, a);
            a.x in s.core.nodes && a.x in t.core.nodes && SlotAt(t.core, a.x) == u.slot
                && Look(t.flights, a.x) == u.flight
            && CapabilitiesOf(t.core, a.x) == CapabilitiesOf(s.core, a.x) && t.core.humans == s.core.humans
            && t.core.nodes.Keys == s.core.nodes.Keys
  {
    NextWrites(cfg, s, a);
    var u := Write(cfg, s, a);
    PutFrame(s.core, a.x, u.slot, u.events, a.x);
    StoreFrame(s.flights, a.x, u.flight, a.x);
  }

  lemma PackageStepPaths(w: World, cfg: Config, s: Sys, ids: seq<Id>, a: Action)
    requires Runs(w, cfg) && Quietly(w, s, ids) && QuietStep(w, s, a) && AboutPackage(a) && Next(cfg, s, a).Some?
    ensures var t := Next(cfg, s, a).value;
            t.core.nodes.Keys == s.core.nodes.Keys && forall y :: y in t.core.nodes ==> PackageOnPath(w, t, y)
  {
    var t := Next(cfg, s, a).value;
    ThisOneWritten(cfg, s, a);
    forall y | y in t.core.nodes ensures PackageOnPath(w, t, y) {
      if y == a.x {
        PackageStepOnPath(w, cfg, s, ids, a);
      } else {
        assert PackageOnPath(w, s, y);
        OthersKeepView(cfg, s, a, y);
      }
    }
  }

  lemma QuietStaysQuiet(w: World, s: Sys, t: Sys)
    requires Quiet(w, s.core.nodes) && Grows(s.core.nodes, t.core.nodes)
    ensures Quiet(w, t.core.nodes)
  {
  }

  lemma SumsChange(s: Sys, t: Sys, ids: seq<Id>, x: Id, limit: nat)
    requires Distinct(ids) && x in ids && forall y :: y in ids && y != x ==> SameView(s, t, y)
    ensures Total(ids, CountedIn(t)) + CountedIn(s)(x) == Total(ids, CountedIn(s)) + CountedIn(t)(x)
    ensures Total(ids, AcceptedIn(t)) + AcceptedIn(s)(x) == Total(ids, AcceptedIn(s)) + AcceptedIn(t)(x)
    ensures Total(ids, FailedIn(t)) + FailedIn(s)(x) == Total(ids, FailedIn(s)) + FailedIn(t)(x)
    ensures Total(ids, PendingIn(t)) + PendingIn(s)(x) == Total(ids, PendingIn(s)) + PendingIn(t)(x)
    ensures Total(ids, PotentialIn(limit, t)) + PotentialIn(limit, s)(x) == Total(ids, PotentialIn(limit, s))
        + PotentialIn(limit, t)(x)
  {
    TotalChange(ids, CountedIn(s), CountedIn(t), x);
    TotalChange(ids, AcceptedIn(s), AcceptedIn(t), x);
    TotalChange(ids, FailedIn(s), FailedIn(t), x);
    TotalChange(ids, PendingIn(s), PendingIn(t), x);
    TotalChange(ids, PotentialIn(limit, s), PotentialIn(limit, t), x);
  }

  /** What a step does to the shares and the potential of its own package. */
  ghost predicate Ticks(limit: nat, s: Sys, t: Sys, x: Id) {
    && t.active == s.active
    && t.report.dispatched + CountedIn(s)(x) == s.report.dispatched + CountedIn(t)(x)
    && t.report.accepted + AcceptedIn(s)(x) == s.report.accepted + AcceptedIn(t)(x)
    && t.report.failed + FailedIn(s)(x) == s.report.failed + FailedIn(t)(x)
    && t.report.pending + PendingIn(s)(x) == s.report.pending + PendingIn(t)(x)
    && PotentialIn(limit, t)(x) < PotentialIn(limit, s)(x)
    && (forall y :: y in t.report.attempts ==>
          t.report.attempts[y] > 0 && (y == x || y in s.report.attempts))
  }

  ghost predicate PositiveCounts(s: Sys) {
    forall y :: y in s.report.attempts ==> s.report.attempts[y] > 0
  }

  lemma BeginTicks(w: World, cfg: Config, s: Sys, x: Id)
    requires Next(cfg, s, Begin(x, NoFault)).Some? && PositiveCounts(s)
    requires cfg.selectOne(CapabilitiesOf(s.core, x)).Some? && SlotOf(s.core, x).attempts < AttemptLimit(cfg)
    ensures Ticks(AttemptLimit(cfg), s, Next(cfg, s, Begin(x, NoFault)).value, x)
  {
    ThisOneWritten(cfg, s, Begin(x, NoFault));
  }

  lemma FinishKeepsAttempts(cfg: Config, humans: Humans, slot: Slot, b: Binding, reply: Reply, fault: Fault)
    ensures FinishSection(cfg, humans, slot, b, reply, fault).slot.attempts == slot.attempts
  {
  }

  lemma FinishTicks(cfg: Config, s: Sys, x: Id, reply: Reply)
    requires Next(cfg, s, Finish(x, reply, NoFault)).Some? && PositiveCounts(s)
    requires SlotOf(s.core, x).attempts <= AttemptLimit(cfg)
    ensures Ticks(AttemptLimit(cfg), s, Next(cfg, s, Finish(x, reply, NoFault)).value, x)
  {
    ThisOneWritten(cfg, s, Finish(x, reply, NoFault));
    FinishKeepsAttempts(cfg, s.core.humans, SlotOf(s.core, x), s.flights[x].binding, reply, NoFault);
  }

  /** A package that was waiting to be counted has less ahead of it afterwards. */
  lemma CollectSpends(cfg: Config, s: Sys, x: Id)
    requires Next(cfg, s, Collect(x)).Some? && s.flights[x].status != Errored
    requires SlotOf(s.core, x).attempts <= AttemptLimit(cfg)
    ensures PotentialIn(AttemptLimit(cfg), Next(cfg, s, Collect(x)).value)(x) < PotentialIn(AttemptLimit(cfg), s)(x)
  {
    ThisOneWritten(cfg, s, Collect(x));
    assert Look(s.flights, x) == Some(s.flights[x]);
  }

  lemma CollectCounts(cfg: Config, s: Sys, x: Id)
    requires Next(cfg, s, Collect(x)).Some? && PositiveCounts(s) && s.flights[x].status != Errored
    requires var slot := SlotOf(s.core, x);
             && slot.binding.Some?
             && slot.state == (match s.flights[x].status case WorkSucceeded => Planner.Completed
                                                         case WorkPending => Planner.Running
                                                         case _ => Planner.Deficient)
    ensures var t := Next(cfg, s, Collect(x)).value;
            && t.active == s.active
            && t.report.dispatched + CountedIn(s)(x) == s.report.dispatched + CountedIn(t)(x)
            && (forall y :: y in t.report.attempts ==> t.report.attempts[y] > 0 && (y == x || y in s.report.attempts))
  {
    ThisOneWritten(cfg, s, Collect(x));
    assert Look(s.flights, x) == Some(s.flights[x]);
  }

  lemma CollectSettles(cfg: Config, s: Sys, x: Id)
    requires Next(cfg, s, Collect(x)).Some? && PositiveCounts(s) && s.flights[x].status != Errored
    requires var slot := SlotOf(s.core, x);
             && slot.binding.Some?
             && slot.state == (match s.flights[x].status case WorkSucceeded => Planner.Completed
                                                         case WorkPending => Planner.Running
                                                         case _ => Planner.Deficient)
    ensures var t := Next(cfg, s, Collect(x)).value;
            && t.report.accepted + AcceptedIn(s)(x) == s.report.accepted + AcceptedIn(t)(x)
            && t.report.failed + FailedIn(s)(x) == s.report.failed + FailedIn(t)(x)
            && t.report.pending + PendingIn(s)(x) == s.report.pending + PendingIn(t)(x)
  {
    ThisOneWritten(cfg, s, Collect(x));
    assert Look(s.flights, x) == Some(s.flights[x]);
  }

  lemma CollectTicks(cfg: Config, s: Sys, x: Id)
    requires Next(cfg, s, Collect(x)).Some? && PositiveCounts(s) && s.flights[x].status != Errored
    requires var slot := SlotOf(s.core, x);
             && slot.attempts <= AttemptLimit(cfg)
             && slot.binding.Some?
             && slot.state == (match s.flights[x].status case WorkSucceeded => Planner.Completed
                                                         case WorkPending => Planner.Running
                                                         case _ => Planner.Deficient)
    ensures Ticks(AttemptLimit(cfg), s, Next(cfg, s, Collect(x)).value, x)
  {
    CollectSpends(cfg, s, x);
    CollectCounts(cfg, s, x);
    CollectSettles(cfg, s, x);
  }

  lemma QuietStepTicks(w: World, cfg: Config, s: Sys, ids: seq<Id>, a: Action)
    requires Runs(w, cfg) && Quietly(w, s, ids) && QuietStep(w, s, a) && AboutPackage(a) && Next(cfg, s, a).Some?
    ensures Ticks(AttemptLimit(cfg), s, Next(cfg, s, a).value, a.x)
  {
    assert PackageOnPath(w, s, a.x);
    var n := SlotOf(s.core, a.x).attempts;
    match a
    case Begin(x, fault) => BeginTicks(w, cfg, s, x);
    case Finish(x, reply, fault) => FinishTicks(cfg, s, x, reply);
    case Collect(x) =>
      Shapes(w, x, CapabilitiesOf(s.core, x), n);
      assert s.flights[x].status == Outcomes(w, x, CapabilitiesOf(s.core, x))(n);
      CollectTicks(cfg, s, x);
  }

  lemma TicksCount(limit: nat, s: Sys, t: Sys, ids: seq<Id>, x: Id)
    requires Distinct(ids) && x in ids && Elements(ids) == s.core.nodes.Keys == t.core.nodes.Keys
    requires forall y :: y in ids && y != x ==> SameView(s, t, y)
    requires Ticks(limit, s, t, x) && ReportCounts(s, ids)
    ensures ReportCounts(t, ids) && Total(ids, PotentialIn(limit, t)) < Total(ids, PotentialIn(limit, s))
  {
    SumsChange(s, t, ids, x, limit);
    assert x in Elements(ids);
  }

  /** A quiet step keeps the report in step with the packages and brings the run closer to its end. */
  lemma PackageStepCounts(w: World, cfg: Config, s: Sys, ids: seq<Id>, a: Action)
    requires Runs(w, cfg) && Quietly(w, s, ids) && QuietStep(w, s, a) && AboutPackage(a) && Next(cfg, s, a).Some?
    ensures ReportCounts(Next(cfg, s, a).value, ids)
    ensures Rank(w, Next(cfg, s, a).value, ids) < Rank(w, s, ids)
  {
    var t := Next(cfg, s, a).value;
    OthersKeepViews(cfg, s, ids, a);
    QuietStepTicks(w, cfg, s, ids, a);
    TicksCount(AttemptLimit(cfg), s, t, ids, a.x);
  }

  lemma OthersKeepViews(cfg: Config, s: Sys, ids: seq<Id>, a: Action)
    requires AboutPackage(a) && Next(cfg, s, a).Some? && Elements(ids) == s.core.nodes.Keys
    requires PositiveCounts(s)
    ensures var t := Next(cfg, s, a).value;
            && a.x in ids && t.core.nodes.Keys == s.core.nodes.Keys
            && forall y :: y in ids && y != a.x ==> SameView(s, t, y)
  {
    var t := Next(cfg, s, a).value;
    ThisOneWritten(cfg, s, a);
    assert a.x in Elements(ids);
    forall y | y in ids && y != a.x ensures SameView(s, t, y) {
      assert y in Elements(ids);
      OthersKeepView(cfg, s, a, y);
    }
  }
}
