/** What a quiet run of the scheduler ends in, as a function of the dependency graph. */
module SchedulerOutcome {
  import opened Ordering
  import opened TopologicalOrder
  import Planner
  import opened SchedulerCore
  import opened SchedulerSystem
  import opened SchedulerConfluence

  // ---- the steps that are not about one package ----

  lemma BatchIsReady(cfg: Config, nodes: Planner.Nodes, x: Id)
    requires x in Batch(cfg, ReadyList(nodes))
    ensures x in nodes && Planner.IsReady(nodes, x)
  {
    assert x in ReadyList(nodes);
  }

  lemma LaunchPaths(w: World, cfg: Config, s: Sys, ids: seq<Id>)
    requires Runs(w, cfg) && Quietly(w, s, ids) && Next(cfg, s, StartBatch).Some?
    ensures var t := Next(cfg, s, StartBatch).value; forall x :: x in t.core.nodes ==> PackageOnPath(w, t, x)
  {
    var t := Next(cfg, s, StartBatch).value;
    forall x | x in t.core.nodes ensures PackageOnPath(w, t, x) {
      assert PackageOnPath(w, s, x);
      if x in Batch(cfg, ReadyList(s.core.nodes)) {
        BatchIsReady(cfg, s.core.nodes, x);
      }
    }
  }

  lemma LaunchPackage(w: World, cfg: Config, s: Sys, ids: seq<Id>, x: Id)
    requires Runs(w, cfg) && Quietly(w, s, ids) && Next(cfg, s, StartBatch).Some? && x in s.core.nodes
    ensures var batch := Batch(cfg, ReadyList(s.core.nodes));
            && (x in batch ==> Waiting(SlotAt(s.core, x).state) && SlotAt(s.core, x).attempts < AttemptLimit(w.cfg))
  {
    assert PackageOnPath(w, s, x);
    if x in Batch(cfg, ReadyList(s.core.nodes)) {
      BatchIsReady(cfg, s.core.nodes, x);
    }
  }

  lemma LaunchShares(limit: nat, s: Sys, batch: seq<Id>, x: Id)
    requires s.flights == map[]
    requires x in batch ==> Waiting(SlotAt(s.core, x).state) && SlotAt(s.core, x).attempts < limit
    ensures var t := s.(flights := Launch(batch));
            && CountedIn(t)(x) == CountedIn(s)(x) && AcceptedIn(t)(x) == AcceptedIn(s)(x)
            && FailedIn(t)(x) == FailedIn(s)(x) && PendingIn(t)(x) == PendingIn(s)(x)
            && PotentialIn(limit, t)(x) <= PotentialIn(limit, s)(x)
            && (x in batch ==> PotentialIn(limit, t)(x) < PotentialIn(limit, s)(x))
  {
    assert Look(s.flights, x) == None;
    assert Look(Launch(batch), x) == if x in batch then Some(Spawned) else None;
  }

  lemma LaunchCounts(w: World, cfg: Config, s: Sys, ids: seq<Id>)
    requires Runs(w, cfg) && Quietly(w, s, ids) && Next(cfg, s, StartBatch).Some?
    ensures var t := Next(cfg, s, StartBatch).value; ReportCounts(t, ids) && Rank(w, t, ids) < Rank(w, s, ids)
  {
    var t := Next(cfg, s, StartBatch).value;
    var first := Batch(cfg, ReadyList(s.core.nodes))[0];
    BatchIsReady(cfg, s.core.nodes, first);
    assert first in Elements(ids);
    var limit := AttemptLimit(w.cfg);
    forall x | x in ids
      ensures CountedIn(t)(x) == CountedIn(s)(x) && AcceptedIn(t)(x) == AcceptedIn(s)(x)
      ensures FailedIn(t)(x) == FailedIn(s)(x) && PendingIn(t)(x) == PendingIn(s)(x)
      ensures PotentialIn(limit, t)(x) <= PotentialIn(limit, s)(x)
      ensures x == first ==> PotentialIn(limit, t)(x) < PotentialIn(limit, s)(x)
    {
      assert x in Elements(ids);
      LaunchPackage(w, cfg, s, ids, x);
      LaunchShares(limit, s, Batch(cfg, ReadyList(s.core.nodes)), x);
    }
    LaunchSums(limit, s, t, ids, first);
  }

  lemma LaunchSums(limit: nat, s: Sys, t: Sys, ids: seq<Id>, first: Id)
    requires forall x :: x in ids ==>
      && CountedIn(t)(x) == CountedIn(s)(x) && AcceptedIn(t)(x) == AcceptedIn(s)(x)
      && FailedIn(t)(x) == FailedIn(s)(x) && PendingIn(t)(x) == PendingIn(s)(x)
      && PotentialIn(limit, t)(x) <= PotentialIn(limit, s)(x)
    requires first in ids && PotentialIn(limit, t)(first) < PotentialIn(limit, s)(first)
    requires t.report == s.report && t.core == s.core && ReportCounts(s, ids)
    ensures ReportCounts(t, ids) && Total(ids, PotentialIn(limit, t)) < Total(ids, PotentialIn(limit, s))
  {
    TotalSame(ids, CountedIn(s), CountedIn(t));
    TotalSame(ids, AcceptedIn(s), AcceptedIn(t));
    TotalSame(ids, FailedIn(s), FailedIn(t));
    TotalSame(ids, PendingIn(s), PendingIn(t));
    TotalSmaller(ids, PotentialIn(limit, s), PotentialIn(limit, t));
  }

  /** Every quiet step keeps the run on its course and uses up some of its rank. */
  lemma QuietStepKeeps(w: World, cfg: Config, s: Sys, ids: seq<Id>, a: Action)
    requires Runs(w, cfg) && Quietly(w, s, ids) && QuietStep(w, s, a) && Next(cfg, s, a).Some?
    ensures Quietly(w, Next(cfg, s, a).value, ids)
    ensures Rank(w, Next(cfg, s, a).value, ids) < Rank(w, s, ids)
  {
    var t := Next(cfg, s, a).value;
    StepKeepsSafe(cfg, s, a);
    QuietStaysQuiet(w, s, t);
    if AboutPackage(a) {
      assert s.active;
      PackageStepPaths(w, cfg, s, ids, a);
      PackageStepCounts(w, cfg, s, ids, a);
      ThisOneWritten(cfg, s, a);
      QuietStepTicks(w, cfg, s, ids, a);
    } else if a == StartBatch {
      LaunchPaths(w, cfg, s, ids);
      LaunchCounts(w, cfg, s, ids);
    } else {
      SettleRun(w, s, ids);
    }
  }

  lemma SettleRun(w: World, s: Sys, ids: seq<Id>)
    requires Quietly(w, s, ids) && s.flights == map[] && ReadyList(s.core.nodes) == []
    ensures Quietly(w, s.(active := false), ids)
    ensures s.active ==> Rank(w, s.(active := false), ids) < Rank(w, s, ids)
  {
    var t := s.(active := false);
    SameSharesSafe(s, t);
    forall x | x in t.core.nodes ensures PackageOnPath(w, t, x) {
      assert PackageOnPath(w, s, x);
    }
    TotalSame(ids, CountedIn(s), CountedIn(t));
    TotalSame(ids, AcceptedIn(s), AcceptedIn(t));
    TotalSame(ids, FailedIn(s), FailedIn(t));
    TotalSame(ids, PendingIn(s), PendingIn(t));
    TotalSame(ids, PotentialIn(AttemptLimit(w.cfg), s), PotentialIn(AttemptLimit(w.cfg), t));
  }

  /** A sequence of quiet steps: one interleaving of one run. */
  ghost predicate QuietlyReaches(w: World, cfg: Config, s: Sys, acts: seq<Action>, t: Sys)
    decreases |acts|
  {
    if acts == [] then s == t
    else QuietStep(w, s, acts[0]) && Next(cfg, s, acts[0]).Some?
         && QuietlyReaches(w, cfg, Next(cfg, s, acts[0]).value, acts[1..], t)
  }

  lemma {:induction false} QuietRun(w: World, cfg: Config, s: Sys, ids: seq<Id>, acts: seq<Action>, t: Sys)
    requires Runs(w, cfg) && Quietly(w, s, ids) && QuietlyReaches(w, cfg, s, acts, t)
    ensures Quietly(w, t, ids) && |acts| + Rank(w, t, ids) <= Rank(w, s, ids)
    ensures Grows(s.core.nodes, t.core.nodes)
    decreases |acts|
  {
    if acts != [] {
      var next := Next(cfg, s, acts[0]).value;
      QuietStepKeeps(w, cfg, s, ids, acts[0]);
      StepKeepsSafe(cfg, s, acts[0]);
      QuietRun(w, cfg, next, ids, acts[1..], t);
      GrowsTransitive(s.core.nodes, next.core.nodes, t.core.nodes);
    }
  }

  /** Until it is over, a quiet run can always take a step. */
  lemma QuietProgress(w: World, cfg: Config, s: Sys, ids: seq<Id>)
    requires Runs(w, cfg) && Quietly(w, s, ids) && s.active
    ensures exists a :: QuietStep(w, s, a) && Next(cfg, s, a).Some?
  {
    if s.flights == map[] {
      var a := if ReadyList(s.core.nodes) == [] then EndRun else StartBatch;
      assert QuietStep(w, s, a) && Next(cfg, s, a).Some?;
    } else {
      var x :| x in s.flights;
      FlightProgress(w, cfg, s, x);
    }
  }

  lemma FlightProgress(w: World, cfg: Config, s: Sys, x: Id)
    requires s.active && x in s.flights && x in s.core.nodes
    ensures exists a :: QuietStep(w, s, a) && Next(cfg, s, a).Some?
  {
    match s.flights[x]
    case Spawned =>
      var a := Begin(x, NoFault);
      assert QuietStep(w, s, a) && Next(cfg, s, a).Some?;
    case Busy(_) =>
      var a := Finish(x, w.worker(x, SlotAt(s.core, x).attempts), NoFault);
      assert QuietStep(w, s, a) && Next(cfg, s, a).Some?;
    case Sent(_) =>
      var a := Collect(x);
      assert QuietStep(w, s, a) && Next(cfg, s, a).Some?;
  }

  // ---- the outcome as a function of the graph ----

  ghost predicate DepsWithin(nodes: Planner.Nodes, x: Id, accepted: set<Id>)
    requires x in nodes
  {
    Elements(nodes[x].dependsOn) <= accepted
  }

  /** How the last attempt of a package ends, if it is dispatched at all. */
  ghost function LastAttempt(w: World, nodes: Planner.Nodes, x: Id): Change<Status>
    requires x in nodes
  {
    Ending(w, x, nodes[x].capabilities, Tries(w, x, nodes[x].capabilities))
  }

  ghost predicate Succeeds(w: World, nodes: Planner.Nodes, x: Id)
    requires x in nodes
  {
    LastAttempt(w, nodes, x).out == WorkSucceeded
  }

  /** The recursion over the graph, for packages whose own attempts end well: a package is accepted
      when it is one of them and all its dependencies are accepted. */
  ghost predicate Solves(nodes: Planner.Nodes, good: set<Id>, accepted: set<Id>) {
    && accepted <= nodes.Keys
    && forall x :: x in nodes ==> (x in accepted <==> DepsWithin(nodes, x, accepted) && x in good)
  }

  ghost function Succeeding(w: World, nodes: Planner.Nodes): set<Id> {
    set x | x in nodes && Succeeds(w, nodes, x)
  }

  ghost predicate AreAccepted(w: World, nodes: Planner.Nodes, accepted: set<Id>) {
    Solves(nodes, Succeeding(w, nodes), accepted)
  }

  /** The recursion has one solution on a graph that can be ordered. */
  lemma {:induction false} SolutionUnique(nodes: Planner.Nodes, good: set<Id>, t: seq<Id>, a: set<Id>, b: set<Id>)
    requires IsOrder(Planner.Dependencies(nodes), t) && Solves(nodes, good, a) && Solves(nodes, good, b)
    ensures a == b
  {
    AgreeUpTo(nodes, good, t, a, b, |t|);
    forall x ensures x in a <==> x in b {
      if x in a || x in b {
        assert x in Elements(t);
        var k :| 0 <= k < |t| && t[k] == x;
      }
    }
  }

  lemma {:induction false} AgreeUpTo(nodes: Planner.Nodes, good: set<Id>, t: seq<Id>, a: set<Id>, b: set<Id>, n: nat)
    requires IsOrder(Planner.Dependencies(nodes), t) && Solves(nodes, good, a) && Solves(nodes, good, b)
    requires n <= |t|
    ensures forall k :: 0 <= k < n ==> (t[k] in a <==> t[k] in b)
  {
    if n > 0 {
      AgreeUpTo(nodes, good, t, a, b, n - 1);
      var x := t[n - 1];
      assert x in Planner.Dependencies(nodes);
      forall d | d in nodes[x].dependsOn ensures d in a <==> d in b {
        assert d in Planner.Dependencies(nodes)[x];
        assert d in t[..n - 1];
      }
    }
  }

  /** It also has at least one: take the packages along a topological order. */
  ghost function AcceptedAlong(nodes: Planner.Nodes, good: set<Id>, order: seq<Id>): set<Id> {
    if order == [] then {}
    else
      var x := order[|order| - 1];
      var before := AcceptedAlong(nodes, good, order[..|order| - 1]);
      if x in nodes && DepsWithin(nodes, x, before) && x in good then before + {x} else before
  }

  /** Dependencies of a package never come after it. */
  lemma LaterChangesNothing(nodes: Planner.Nodes, order: seq<Id>, k: nat, n: nat, a: set<Id>)
    requires IsOrder(Planner.Dependencies(nodes), order) && k <= n < |order|
    ensures order[k] in nodes
    ensures DepsWithin(nodes, order[k], a + {order[n]}) <==> DepsWithin(nodes, order[k], a)
  {
    var g := Planner.Dependencies(nodes);
    assert order[k] in g && g[order[k]] == Elements(nodes[order[k]].dependsOn);
    assert order[n] !in Elements(order[..k]);
  }

  /** a is right about the first n packages of an order. */
  ghost predicate AcceptsPrefix(nodes: Planner.Nodes, good: set<Id>, order: seq<Id>, n: nat, a: set<Id>)
    requires n <= |order|
  {
    && a <= Elements(order[..n])
    && forall k :: 0 <= k < n ==>
         order[k] in nodes && (order[k] in a <==> DepsWithin(nodes, order[k], a) && order[k] in good)
  }

  lemma AcceptsOneMore(nodes: Planner.Nodes, good: set<Id>, order: seq<Id>, n: nat, a: set<Id>)
    requires IsOrder(Planner.Dependencies(nodes), order) && n < |order| && AcceptsPrefix(nodes, good, order, n, a)
    ensures order[n] in nodes
    ensures AcceptsPrefix(nodes, good, order, n + 1,
                          if DepsWithin(nodes, order[n], a) && order[n] in good then a + {order[n]} else a)
  {
    assert Elements(order[..n + 1]) == Elements(order[..n]) + {order[n]};
    assert order[n] !in Elements(order[..n]);
    forall k | 0 <= k <= n
      ensures order[k] in nodes && (DepsWithin(nodes, order[k], a + {order[n]}) <==> DepsWithin(nodes, order[k], a))
    {
      LaterChangesNothing(nodes, order, k, n, a);
    }
  }

  lemma {:induction false} AcceptedAlongPrefix(nodes: Planner.Nodes, good: set<Id>, order: seq<Id>, n: nat)
    requires IsOrder(Planner.Dependencies(nodes), order) && n <= |order|
    ensures AcceptsPrefix(nodes, good, order, n, AcceptedAlong(nodes, good, order[..n]))
  {
    if n > 0 {
      AcceptedAlongPrefix(nodes, good, order, n - 1);
      assert order[..n][..n - 1] == order[..n - 1];
      AcceptsOneMore(nodes, good, order, n - 1, AcceptedAlong(nodes, good, order[..n - 1]));
    }
  }

  lemma AcceptedAlongSolves(w: World, nodes: Planner.Nodes, order: seq<Id>)
    requires IsOrder(Planner.Dependencies(nodes), order)
    ensures AreAccepted(w, nodes, AcceptedAlong(nodes, Succeeding(w, nodes), order))
  {
    var good := Succeeding(w, nodes);
    AcceptedAlongPrefix(nodes, good, order, |order|);
    assert order[..|order|] == order;
    SolvesAlong(nodes, good, order, AcceptedAlong(nodes, good, order));
  }

  lemma SolvesAlong(nodes: Planner.Nodes, good: set<Id>, order: seq<Id>, a: set<Id>)
    requires IsOrder(Planner.Dependencies(nodes), order) && a <= Elements(order)
    requires forall k :: 0 <= k < |order| ==>
               order[k] in nodes && (order[k] in a <==> DepsWithin(nodes, order[k], a) && order[k] in good)
    ensures Solves(nodes, good, a)
  {
    forall x | x in nodes ensures x in a <==> DepsWithin(nodes, x, a) && x in good {
      assert x in Elements(order);
    }
  }

  ghost function FinalSlot(w: World, nodes: Planner.Nodes, accepted: set<Id>, x: Id): Slot
    requires x in nodes
  {
    if DepsWithin(nodes, x, accepted) then LastAttempt(w, nodes, x).slot else Slot(Planner.Proposed, None, 0, None)
  }

  ghost function FinalTries(w: World, nodes: Planner.Nodes, accepted: set<Id>): map<Id, nat> {
    map x | x in nodes && DepsWithin(nodes, x, accepted) :: Tries(w, x, nodes[x].capabilities)
  }

  ghost function EndingIn(w: World, nodes: Planner.Nodes, accepted: set<Id>, out: Status): set<Id> {
    set x | x in nodes && DepsWithin(nodes, x, accepted) && LastAttempt(w, nodes, x).out == out
  }

  /** The report Run is to return. */
  ghost function FinalReport(w: World, nodes: Planner.Nodes, accepted: set<Id>, ids: seq<Id>): RunReport {
    var tries := FinalTries(w, nodes, accepted);
    RunReport(Total(ids, CountsOf(tries)), |accepted|, |EndingIn(w, nodes, accepted, WorkFailed)|,
              |EndingIn(w, nodes, accepted, WorkPending)|, tries)
  }

  ghost function CompletedSet(core: Core): set<Id> {
    set x | x in core.nodes && core.nodes[x].state == Planner.Completed
  }

  /** In the end every package has either run out its attempts or never started. */
  lemma FinalPackage(w: World, s: Sys, ids: seq<Id>, x: Id)
    requires Quietly(w, s, ids) && !s.active && x in s.core.nodes
    ensures SlotOf(s.core, x) == FinalSlot(w, s.core.nodes, CompletedSet(s.core), x)
    ensures Counted(s.report.attempts, x) == SlotOf(s.core, x).attempts
    ensures DepsWithin(s.core.nodes, x, CompletedSet(s.core)) <==> !Waiting(SlotOf(s.core, x).state)
    ensures DepsWithin(s.core.nodes, x, CompletedSet(s.core)) ==>
              var e := LastAttempt(w, s.core.nodes, x);
              && e.slot.attempts == Tries(w, x, s.core.nodes[x].capabilities) && e.out != Errored
              && e.slot.state == (match e.out case WorkSucceeded => Planner.Completed case WorkPending
                  => Planner.Running
                                              case _ => Planner.Deficient)
  {
    var caps := s.core.nodes[x].capabilities;
    var slot := SlotOf(s.core, x);
    var n := slot.attempts;
    assert PackageOnPath(w, s, x) && PackageOk(s, x);
    assert DepsWithin(s.core.nodes, x, CompletedSet(s.core)) <==> DepsDone(s.core.nodes, x) by {
      assert forall dep :: dep in s.core.nodes[x].dependsOn <==> dep in Elements(s.core.nodes[x].dependsOn);
    }
    assert x !in ReadyList(s.core.nodes);
    if Waiting(slot.state) {
      assert !DepsDone(s.core.nodes, x);
      assert n == 0;
    } else {
      EndedAfterTries(Outcomes(w, x, caps), AttemptLimit(w.cfg), n, 1);
      Shapes(w, x, caps, n);
    }
  }

  lemma {:induction false} TotalIndicator(ids: seq<Id>, f: Id -> nat, s: set<Id>)
    requires Distinct(ids) && forall x :: x in ids ==> f(x) == if x in s then 1 else 0
    requires forall x :: x in s ==> x in ids
    ensures Total(ids, f) == |s|
  {
    if ids == [] {
      assert s == {};
    } else {
      var first := ids[0];
      var rest := s - {first};
      assert first !in ids[1..];
      assert s == if first in s then rest + {first} else rest;
      TotalIndicator(ids[1..], f, rest);
    }
  }

  lemma FinalIsAccepted(w: World, s: Sys, ids: seq<Id>)
    requires Quietly(w, s, ids) && !s.active
    ensures AreAccepted(w, s.core.nodes, CompletedSet(s.core))
  {
    forall x | x in s.core.nodes
      ensures x in CompletedSet(s.core) <==>
              DepsWithin(s.core.nodes, x, CompletedSet(s.core)) && Succeeds(w, s.core.nodes, x)
    {
      FinalPackage(w, s, ids, x);
    }
  }

  /** How a package stands in the end, by the outcome of its last attempt. */
  lemma FinalStanding(w: World, s: Sys, ids: seq<Id>, x: Id)
    requires Quietly(w, s, ids) && !s.active && x in s.core.nodes
    ensures var done, nodes := CompletedSet(s.core), s.core.nodes;
            var out := LastAttempt(w, nodes, x).out;
            if DepsWithin(nodes, x, done) then (out == WorkSucceeded <==> x in done) && out != Errored else x !in done
  {
    FinalPackage(w, s, ids, x);
  }

  /** One package's part in the final report. */
  lemma FinalShares(w: World, s: Sys, ids: seq<Id>, x: Id)
    requires Quietly(w, s, ids) && !s.active && x in s.core.nodes
    ensures var done := CompletedSet(s.core);
            var failed, pending := EndingIn(w, s.core.nodes, done, WorkFailed),
                EndingIn(w, s.core.nodes, done, WorkPending);
            && Counted(FinalTries(w, s.core.nodes, done), x) == CountedIn(s)(x)
            && AcceptedIn(s)(x) == (if x in done then 1 else 0)
            && FailedIn(s)(x) == (if x in failed then 1 else 0)
            && PendingIn(s)(x) == (if x in pending then 1 else 0)
  {
    FinalPackage(w, s, ids, x);
  }

  /** Every package that started has completed, failed or is waiting for approval, and only one of these. */
  lemma FinalPart(w: World, s: Sys, ids: seq<Id>, x: Id)
    requires Quietly(w, s, ids) && !s.active && x in s.core.nodes
    ensures var done := CompletedSet(s.core);
            var failed, pending := EndingIn(w, s.core.nodes, done, WorkFailed),
                EndingIn(w, s.core.nodes, done, WorkPending);
            && (x in FinalTries(w, s.core.nodes, done) <==> x in done + failed + pending)
            && !(x in done && x in failed) && !(x in done && x in pending) && !(x in failed && x in pending)
  {
    FinalStanding(w, s, ids, x);
  }

  lemma FinalTallies(w: World, s: Sys, ids: seq<Id>)
    requires Quietly(w, s, ids) && !s.active
    ensures var done := CompletedSet(s.core);
            && s.report.accepted == |done|
            && s.report.failed == |EndingIn(w, s.core.nodes, done, WorkFailed)|
            && s.report.pending == |EndingIn(w, s.core.nodes, done, WorkPending)|
  {
    var done := CompletedSet(s.core);
    var failed, pending := EndingIn(w, s.core.nodes, done, WorkFailed), EndingIn(w, s.core.nodes, done, WorkPending);
    assert forall x :: x in ids <==> x in Elements(ids);
    forall x | x in ids
      ensures AcceptedIn(s)(x) == (if x in done then 1 else 0)
      ensures FailedIn(s)(x) == (if x in failed then 1 else 0)
      ensures PendingIn(s)(x) == (if x in pending then 1 else 0)
    {
      FinalShares(w, s, ids, x);
    }
    TotalIndicator(ids, AcceptedIn(s), done);
    TotalIndicator(ids, FailedIn(s), failed);
    TotalIndicator(ids, PendingIn(s), pending);
  }

  lemma FinalAttempts(w: World, s: Sys, ids: seq<Id>)
    requires Quietly(w, s, ids) && !s.active
    ensures s.report.attempts == FinalTries(w, s.core.nodes, CompletedSet(s.core))
  {
    var tries := FinalTries(w, s.core.nodes, CompletedSet(s.core));
    assert forall x :: x in ids <==> x in Elements(ids);
    forall x | x in ids ensures Counted(s.report.attempts, x) == Counted(tries, x) {
      FinalShares(w, s, ids, x);
    }
    SameCounts(s.report.attempts, tries, ids);
  }

  lemma FinalParts(w: World, s: Sys, ids: seq<Id>)
    requires Quietly(w, s, ids) && !s.active
    ensures var done := CompletedSet(s.core);
            |FinalTries(w, s.core.nodes, done)|
              == |done| + |EndingIn(w, s.core.nodes, done, WorkFailed)| + |EndingIn(w, s.core.nodes, done, WorkPending)|
  {
    var done := CompletedSet(s.core);
    var tries := FinalTries(w, s.core.nodes, done);
    var failed, pending := EndingIn(w, s.core.nodes, done, WorkFailed), EndingIn(w, s.core.nodes, done, WorkPending);
    forall x | x in s.core.nodes
      ensures x in tries <==> x in done || x in failed || x in pending
      ensures !(x in done && x in failed) && !(x in done && x in pending) && !(x in failed && x in pending)
    {
      FinalPart(w, s, ids, x);
    }
    ThreeParts(tries, done, failed, pending, s.core.nodes.Keys);
  }

  lemma FinalCounts(w: World, s: Sys, ids: seq<Id>)
    requires Quietly(w, s, ids) && !s.active
    ensures s.report == FinalReport(w, s.core.nodes, CompletedSet(s.core), ids)
    ensures s.report.accepted + s.report.failed + s.report.pending == |s.report.attempts|
  {
    FinalTallies(w, s, ids);
    FinalAttempts(w, s, ids);
    FinalParts(w, s, ids);
  }

  lemma ThreeParts(m: map<Id, nat>, a: set<Id>, b: set<Id>, c: set<Id>, within: set<Id>)
    requires m.Keys <= within && a <= within && b <= within && c <= within
    requires forall x :: x in within ==> (x in m <==> x in a || x in b || x in c)
    requires forall x :: x in within ==> !(x in a && x in b) && !(x in a && x in c) && !(x in b && x in c)
    ensures |m| == |a| + |b| + |c|
  {
    assert m.Keys == a + b + c;
    assert |m| == |m.Keys|;
    assert |a + b| == |a| + |b|;
    assert |a + b + c| == |a + b| + |c|;
  }

  lemma SameCounts(a: map<Id, nat>, b: map<Id, nat>, ids: seq<Id>)
    requires forall x :: x in ids ==> Counted(a, x) == Counted(b, x)
    requires forall x :: x in a ==> x in ids && a[x] > 0
    requires forall x :: x in b ==> x in ids && b[x] > 0
    ensures a == b
  {
    assert forall x :: x in a <==> x in b;
  }

  // ---- main results ----

  ghost function Start(s: Sys): Sys {
    s.(active := true)
  }

  ghost predicate RunFromFresh(w: World, cfg: Config, s: Sys, acts: seq<Action>, t: Sys) {
    Runs(w, cfg) && Fresh(s) && Quiet(w, s.core.nodes) && s.core.humans == w.humans
    && QuietlyReaches(w, cfg, Start(s), acts, t)
  }

  lemma StaticPackage(w: World, a: Planner.Nodes, b: Planner.Nodes, accepted: set<Id>, x: Id)
    requires Grows(a, b) && x in a
    ensures x in b && LastAttempt(w, a, x) == LastAttempt(w, b, x)
    ensures DepsWithin(a, x, accepted) == DepsWithin(b, x, accepted)
    ensures Tries(w, x, a[x].capabilities) == Tries(w, x, b[x].capabilities)
    ensures FinalSlot(w, a, accepted, x) == FinalSlot(w, b, accepted, x)
    ensures Succeeds(w, a, x) == Succeeds(w, b, x)
  {
    assert a[x].dependsOn == b[x].dependsOn && a[x].capabilities == b[x].capabilities;
  }

  lemma StaticAccepted(w: World, a: Planner.Nodes, b: Planner.Nodes, accepted: set<Id>)
    requires Grows(a, b) && AreAccepted(w, a, accepted)
    ensures AreAccepted(w, b, accepted)
  {
    forall x | x in b ensures x in accepted <==> DepsWithin(b, x, accepted) && Succeeds(w, b, x) {
      StaticPackage(w, a, b, accepted, x);
    }
  }

  lemma StaticEnding(w: World, a: Planner.Nodes, b: Planner.Nodes, accepted: set<Id>, out: Status)
    requires Grows(a, b)
    ensures EndingIn(w, a, accepted, out) == EndingIn(w, b, accepted, out)
  {
    forall x ensures x in EndingIn(w, a, accepted, out) <==> x in EndingIn(w, b, accepted, out) {
      if x in a {
        StaticPackage(w, a, b, accepted, x);
      }
    }
  }

  lemma StaticTries(w: World, a: Planner.Nodes, b: Planner.Nodes, accepted: set<Id>)
    requires Grows(a, b)
    ensures FinalTries(w, a, accepted) == FinalTries(w, b, accepted)
  {
    forall x ensures x in FinalTries(w, a, accepted) <==> x in FinalTries(w, b, accepted) {
      if x in a {
        StaticPackage(w, a, b, accepted, x);
      }
    }
    forall x | x in FinalTries(w, a, accepted) ensures FinalTries(w, a, accepted)[x] == FinalTries(w, b, accepted)[x] {
      StaticPackage(w, a, b, accepted, x);
    }
  }

  /** What the specification reads of the graph does not change during a run. */
  lemma StaticParts(w: World, a: Planner.Nodes, b: Planner.Nodes, accepted: set<Id>, ids: seq<Id>)
    requires Grows(a, b)
    ensures Planner.Dependencies(a) == Planner.Dependencies(b)
    ensures FinalReport(w, a, accepted, ids) == FinalReport(w, b, accepted, ids)
  {
    forall x | x in a ensures a[x].dependsOn == b[x].dependsOn {
    }
    StaticEnding(w, a, b, accepted, WorkFailed);
    StaticEnding(w, a, b, accepted, WorkPending);
    StaticTries(w, a, b, accepted);
  }

  /** What the state and the report of a finished run are. */
  ghost predicate EndsAs(w: World, nodes: Planner.Nodes, accepted: set<Id>, core: Core, report: RunReport) {
    && core.nodes.Keys == nodes.Keys
    && (forall x :: x in core.nodes ==> SlotOf(core, x) == FinalSlot(w, nodes, accepted, x))
    && report == FinalReport(w, nodes, accepted, Ascending(nodes.Keys))
    && report.accepted + report.failed + report.pending == |report.attempts|
  }

  lemma QuietEnd(w: World, nodes: Planner.Nodes, t: Sys, accepted: set<Id>)
    requires Quietly(w, t, Ascending(nodes.Keys)) && !t.active && Grows(nodes, t.core.nodes)
    requires Closed(Planner.Dependencies(nodes)) && Acyclic(Planner.Dependencies(nodes))
    requires AreAccepted(w, nodes, accepted)
    ensures EndsAs(w, nodes, accepted, t.core, t.report)
  {
    var ids := Ascending(nodes.Keys);
    FinalIsAccepted(w, t, ids);
    StaticParts(w, nodes, t.core.nodes, accepted, ids);
    StaticAccepted(w, nodes, t.core.nodes, accepted);
    AcyclicMeansOrder(Planner.Dependencies(nodes));
    SolutionUnique(t.core.nodes, Succeeding(w, t.core.nodes), Greedy(Planner.Dependencies(nodes), {}),
                   accepted, CompletedSet(t.core));
    forall x | x in t.core.nodes ensures SlotOf(t.core, x) == FinalSlot(w, nodes, accepted, x) {
      FinalPackage(w, t, ids, x);
      StaticPackage(w, nodes, t.core.nodes, accepted, x);
    }
    FinalCounts(w, t, ids);
  }

  /** Confluence: however the critical sections of the goroutines interleave and whatever the
      concurrency limit, a finished run has left every package in the share, and returns the report,
      that the recursion over the dependency graph gives. */
  lemma RunIsConfluent(w: World, cfg: Config, s: Sys, acts: seq<Action>, t: Sys, accepted: set<Id>)
    requires RunFromFresh(w, cfg, s, acts, t) && !t.active
    requires Closed(Planner.Dependencies(s.core.nodes)) && Acyclic(Planner.Dependencies(s.core.nodes))
    requires AreAccepted(w, s.core.nodes, accepted)
    ensures EndsAs(w, s.core.nodes, accepted, t.core, t.report)
  {
    var ids := Ascending(s.core.nodes.Keys);
    QuietStart(w, s, ids);
    QuietRun(w, cfg, Start(s), ids, acts, t);
    QuietEnd(w, s.core.nodes, t, accepted);
  }

  /** Two runs of the same graph under the same worker and gates cannot be told apart afterwards:
      neither goroutine scheduling nor the concurrency limit shows. */
  lemma SchedulingIsInvisible(w: World, cfg1: Config, cfg2: Config, s: Sys,
                              acts1: seq<Action>, acts2: seq<Action>, t1: Sys, t2: Sys)
    requires RunFromFresh(w, cfg1, s, acts1, t1) && !t1.active
    requires RunFromFresh(w, cfg2, s, acts2, t2) && !t2.active
    requires Closed(Planner.Dependencies(s.core.nodes)) && Acyclic(Planner.Dependencies(s.core.nodes))
    ensures t1.core.nodes.Keys == t2.core.nodes.Keys && t1.report == t2.report
    ensures forall x :: x in t1.core.nodes ==> SlotOf(t1.core, x) == SlotOf(t2.core, x)
  {
    var order := Greedy(Planner.Dependencies(s.core.nodes), {});
    AcyclicMeansOrder(Planner.Dependencies(s.core.nodes));
    AcceptedAlongSolves(w, s.core.nodes, order);
    var accepted := AcceptedAlong(s.core.nodes, Succeeding(w, s.core.nodes), order);
    RunIsConfluent(w, cfg1, s, acts1, t1, accepted);
    RunIsConfluent(w, cfg2, s, acts2, t2, accepted);
  }

  /** Termination: a run takes at most four steps per package and attempt and one more, makes at most
      one dispatch per package and attempt, and is never stuck before its end. */
  lemma RunTerminates(w: World, cfg: Config, s: Sys, acts: seq<Action>, t: Sys)
    requires RunFromFresh(w, cfg, s, acts, t)
    ensures |acts| <= |s.core.nodes| * (4 * AttemptLimit(cfg)) + 1
    ensures t.report.dispatched <= |s.core.nodes| * AttemptLimit(cfg)
    ensures t.active ==> exists a :: QuietStep(w, t, a) && Next(cfg, t, a).Some?
  {
    var ids := Ascending(s.core.nodes.Keys);
    DistinctCardinality(ids);
    assert |s.core.nodes| == |s.core.nodes.Keys| == |ids|;
    QuietStart(w, s, ids);
    QuietRun(w, cfg, Start(s), ids, acts, t);
    RankBound(w, Start(s), ids);
    DispatchBound(w, t, ids);
    if t.active {
      QuietProgress(w, cfg, t, ids);
    }
  }

  lemma RankBound(w: World, s: Sys, ids: seq<Id>)
    requires s.flights == map[]
    ensures Rank(w, s, ids) <= |ids| * (4 * AttemptLimit(w.cfg)) + 1
  {
    TotalBound(ids, PotentialIn(AttemptLimit(w.cfg), s), 4 * AttemptLimit(w.cfg));
  }

  lemma DispatchBound(w: World, t: Sys, ids: seq<Id>)
    requires Quietly(w, t, ids)
    ensures t.report.dispatched <= |ids| * AttemptLimit(w.cfg)
  {
    forall x | x in ids ensures CountedIn(t)(x) <= AttemptLimit(w.cfg) {
      assert x in Elements(ids);
      assert PackageOnPath(w, t, x);
    }
    TotalBound(ids, CountedIn(t), AttemptLimit(w.cfg));
  }

  // ---- why a package was never dispatched ----

  /** Ended badly, or still waiting for its gates. */
  ghost predicate Obstructs(core: Core, x: Id) {
    x in core.nodes && (core.nodes[x].state == Planner.Deficient
                        || (core.nodes[x].state == Planner.Running && Awaits(SlotOf(core, x))))
  }

  lemma PendingAwaits(w: World, x: Id, capabilities: seq<Id>, n: nat)
    requires n >= 1 && Ending(w, x, capabilities, n).out == WorkPending
    ensures Awaits(Ending(w, x, capabilities, n).slot)
  {
    PathToGates(x, n, Chosen(w, capabilities));
  }

  lemma StartedObstructs(w: World, t: Sys, ids: seq<Id>, x: Id)
    requires Quietly(w, t, ids) && !t.active && x in t.core.nodes
    requires !Waiting(t.core.nodes[x].state) && t.core.nodes[x].state != Planner.Completed
    ensures Obstructs(t.core, x)
  {
    FinalPackage(w, t, ids, x);
    var caps := t.core.nodes[x].capabilities;
    if LastAttempt(w, t.core.nodes, x).out == WorkPending {
      PendingAwaits(w, x, caps, Tries(w, x, caps));
    }
  }

  /** Where every member of one set depends on a member of it or of another, some walk leads from
      the first set into the second. */
  lemma {:induction false} WalkToCause(g: Deps, order: seq<Id>, waiting: set<Id>, causes: set<Id>, i: nat)
    returns (p: seq<Id>)
    requires IsOrder(g, order) && i < |order| && order[i] in waiting
    requires forall x :: x in waiting ==> x in g && g[x] * (waiting + causes) != {}
    ensures |p| >= 2 && p[0] == order[i] && IsWalk(g, p) && p[|p| - 1] in causes
    decreases i
  {
    var d :| d in g[order[i]] * (waiting + causes);
    assert d in Elements(order[..i]);
    var j :| 0 <= j < i && order[j] == d;
    if d in causes {
      p := [order[i], d];
    } else {
      var q := WalkToCause(g, order, waiting, causes, j);
      p := [order[i]] + q;
      LongerWalk(g, order[i], q);
    }
  }

  lemma LongerWalk(g: Deps, x: Id, q: seq<Id>)
    requires IsWalk(g, q) && q != [] && x in g && q[0] in g[x]
    ensures IsWalk(g, [x] + q)
  {
    var p := [x] + q;
    forall i | 0 <= i < |p| - 1 ensures p[i] in g && p[i + 1] in g[p[i]] {
      assert i > 0 ==> p[i] == q[i - 1];
    }
  }

  lemma BlockingDependency(w: World, t: Sys, ids: seq<Id>, x: Id) returns (d: Id)
    requires Quietly(w, t, ids) && !t.active && x in t.core.nodes && Waiting(t.core.nodes[x].state)
    requires Closed(Planner.Dependencies(t.core.nodes))
    ensures d in Planner.Dependencies(t.core.nodes)[x] && d in t.core.nodes
    ensures Waiting(t.core.nodes[d].state) || Obstructs(t.core, d)
  {
    FinalPackage(w, t, ids, x);
    d :| d in t.core.nodes[x].dependsOn && d !in CompletedSet(t.core);
    assert d in Planner.Dependencies(t.core.nodes)[x];
    assert d in Planner.Dependencies(t.core.nodes);
    if !Waiting(t.core.nodes[d].state) {
      StartedObstructs(w, t, ids, d);
    }
  }

  /** A package that was never dispatched depends, directly or not, on one that ended deficient or
      still awaits its gates. */
  lemma UndispatchedIsBlocked(w: World, cfg: Config, s: Sys, acts: seq<Action>, t: Sys, x: Id)
    requires RunFromFresh(w, cfg, s, acts, t) && !t.active
    requires Closed(Planner.Dependencies(s.core.nodes)) && Acyclic(Planner.Dependencies(s.core.nodes))
    requires x in t.core.nodes && x !in t.report.attempts
    ensures exists p :: |p| >= 2 && p[0] == x && IsWalk(Planner.Dependencies(s.core.nodes), p)
                        && Obstructs(t.core, p[|p| - 1])
  {
    var ids := Ascending(s.core.nodes.Keys);
    QuietStart(w, s, ids);
    QuietRun(w, cfg, Start(s), ids, acts, t);
    StaticParts(w, s.core.nodes, t.core.nodes, {}, ids);
    BlockedHasCause(w, t, ids, x);
  }

  lemma BlockedHasCause(w: World, t: Sys, ids: seq<Id>, x: Id)
    requires Quietly(w, t, ids) && !t.active && x in t.core.nodes && x !in t.report.attempts
    requires Closed(Planner.Dependencies(t.core.nodes)) && Acyclic(Planner.Dependencies(t.core.nodes))
    ensures exists p :: |p| >= 2 && p[0] == x && IsWalk(Planner.Dependencies(t.core.nodes), p)
                        && Obstructs(t.core, p[|p| - 1])
  {
    var g := Planner.Dependencies(t.core.nodes);
    AcyclicMeansOrder(g);
    FinalPackage(w, t, ids, x);
    var waiting := set y | y in t.core.nodes && Waiting(t.core.nodes[y].state);
    var causes := set y | y in t.core.nodes && Obstructs(t.core, y);
    forall y | y in waiting ensures y in g && g[y] * (waiting + causes) != {} {
      var d := BlockingDependency(w, t, ids, y);
      assert d in g[y] * (waiting + causes);
    }
    assert x in g && x in Elements(Greedy(g, {}));
    var i :| 0 <= i < |Greedy(g, {})| && Greedy(g, {})[i] == x;
    var p := WalkToCause(g, Greedy(g, {}), waiting, causes, i);
  }
}
