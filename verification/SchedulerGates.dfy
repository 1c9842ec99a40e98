/** Human decisions while a section is under way. Approvals and rejections take no scheduler lock, so one
    can be recorded between the moment a section has asked its gates and the moment it ends. */
module SchedulerGates {
  import opened Ordering
  import Planner
  import opened Gate
  import opened Assignment
  import opened SchedulerCore
  import opened SchedulerSystem

  /** A section that holds the lock and has asked its gates under these decisions. */
  datatype Asked = Asked(section: Action, humans: Humans)

  datatype Fine = Fine(sys: Sys, asked: Option<Asked>)

  datatype FineAction = Whole(a: Action) | Ask(section: Action) | Settle | Decided(a: Action)

  predicate AsksGates(a: Action) {
    a.Finish? || a.Resolve?
  }

  predicate IsDecision(a: Action) {
    a.RecordApproval? || a.RecordRejection?
  }

  /** The steps that wait for the scheduler's lock; the others may fall into a section. */
  predicate NeedsLock(s: Sys, a: Action) {
    || AsksGates(a) || a.Begin? || a.StartBatch? || a.EndRun? || a.StartDispatch?
    || (a.Collect? && Look(s.flights, a.x) == Some(Sent(WorkFailed)))
  }

  function WithHumans(s: Sys, h: Humans): Sys {
    s.(core := s.core.(humans := h))
  }

  /** A section ends with the answers its gates gave when they were asked. */
  ghost function Settled(cfg: Config, s: Sys, asked: Asked): Option<Sys> {
    var t := Next(cfg, WithHumans(s, asked.humans), asked.section);
    if t.None? then None else Some(WithHumans(t.value, s.core.humans))
  }

  ghost function FineNext(cfg: Config, f: Fine, b: FineAction): Option<Fine> {
    match b
    case Whole(a) =>
      var t := Next(cfg, f.sys, a);
      if AsksGates(a) || IsDecision(a) || t.None? || (f.asked.Some? && NeedsLock(f.sys, a)) then None
      else Some(f.(sys := t.value))
    case Ask(a) =>
      if f.asked.Some? || !AsksGates(a) || Next(cfg, f.sys, a).None? then None
      else Some(Fine(f.sys, Some(Asked(a, f.sys.core.humans))))
    case Settle =>
      if f.asked.None? || Settled(cfg, f.sys, f.asked.value).None? then None
      else Some(Fine(Settled(cfg, f.sys, f.asked.value).value, None))
    case Decided(a) =>
      var t := Next(cfg, f.sys, a);
      if !IsDecision(a) || t.None? then None else Some(f.(sys := t.value))
  }

  ghost predicate FineReaches(cfg: Config, f: Fine, acts: seq<FineAction>, g: Fine)
    decreases |acts|
  {
    if acts == [] then f == g
    else FineNext(cfg, f, acts[0]).Some? && FineReaches(cfg, FineNext(cfg, f, acts[0]).value, acts[1..], g)
  }

  // ---- decisions move past a section that has asked its gates ----

  /** The decisions after some more have been recorded. */
  function AfterDecisions(h: Humans, decisions: seq<Action>): Humans
    decreases decisions
  {
    if decisions == [] then h
    else
      match decisions[0]
      case RecordApproval(x) => AfterDecisions(Approve(h, x), decisions[1..])
      case RecordRejection(x, reason) => AfterDecisions(Reject(h, x, reason), decisions[1..])
      case _ => AfterDecisions(h, decisions[1..])
  }

  ghost predicate AllDecisions(acts: seq<Action>) {
    forall a :: a in acts ==> IsDecision(a)
  }

  lemma {:induction false} DecisionsReach(cfg: Config, s: Sys, decisions: seq<Action>)
    requires AllDecisions(decisions)
    ensures Reaches(cfg, s, decisions, WithHumans(s, AfterDecisions(s.core.humans, decisions)))
    decreases decisions
  {
    if decisions != [] {
      assert IsDecision(decisions[0]);
      var next := Next(cfg, s, decisions[0]).value;
      DecisionsReach(cfg, next, decisions[1..]);
      assert WithHumans(next, AfterDecisions(next.core.humans, decisions[1..]))
          == WithHumans(s, AfterDecisions(s.core.humans, decisions));
    }
  }

  lemma {:induction false} DecisionsOneMore(h: Humans, decisions: seq<Action>, a: Action)
    ensures AfterDecisions(h, decisions + [a]) == AfterDecisions(AfterDecisions(h, decisions), [a])
    decreases decisions
  {
    if decisions == [] {
      assert decisions + [a] == [a];
    } else {
      assert (decisions + [a])[0] == decisions[0] && (decisions + [a])[1..] == decisions[1..] + [a];
      match decisions[0]
      case RecordApproval(x) => DecisionsOneMore(Approve(h, x), decisions[1..], a);
      case RecordRejection(x, reason) => DecisionsOneMore(Reject(h, x, reason), decisions[1..], a);
      case _ => DecisionsOneMore(h, decisions[1..], a);
    }
  }

  /** A package is rejected once it was rejected at any time, and counts as approved when it was approved at
      any time and never rejected. */
  lemma {:induction false} DecisionsRecorded(h: Humans, decisions: seq<Action>, x: Id)
    requires AllDecisions(decisions)
    ensures var g := AfterDecisions(h, decisions);
            && (x in g.rejected <==> x in h.rejected || exists reason :: RecordRejection(x, reason) in decisions)
            && (x !in g.rejected ==> (x in g.approved <==> x in h.approved || RecordApproval(x) in decisions))
    decreases decisions
  {
    if decisions != [] {
      assert IsDecision(decisions[0]);
      assert forall a :: a in decisions <==> a == decisions[0] || a in decisions[1..];
      match decisions[0]
      case RecordApproval(y) => DecisionsRecorded(Approve(h, y), decisions[1..], x);
      case RecordRejection(y, reason) =>
        assert RecordRejection(y, reason) in decisions;
        DecisionsRecorded(Reject(h, y, reason), decisions[1..], x);
    }
  }

  lemma {:induction false} ReachesConcat(cfg: Config, s: Sys, a: seq<Action>, t: Sys, b: seq<Action>, u: Sys)
    requires Reaches(cfg, s, a, t) && Reaches(cfg, t, b, u)
    ensures Reaches(cfg, s, a + b, u)
    decreases a
  {
    if a == [] {
      assert a + b == b;
    } else {
      assert (a + b)[0] == a[0] && (a + b)[1..] == a[1..] + b;
      ReachesConcat(cfg, Next(cfg, s, a[0]).value, a[1..], t, b, u);
    }
  }

  /** Steps that ask no gates neither read nor write the decisions. */
  lemma WholeIgnoresHumans(cfg: Config, s: Sys, a: Action, h: Humans)
    requires !AsksGates(a) && !IsDecision(a)
    ensures Next(cfg, WithHumans(s, h), a).Some? <==> Next(cfg, s, a).Some?
    ensures Next(cfg, s, a).Some? ==> Next(cfg, WithHumans(s, h), a).value == WithHumans(Next(cfg, s, a).value, h)
    ensures Next(cfg, s, a).Some? ==> Next(cfg, s, a).value.core.humans == s.core.humans
  {
  }

  lemma SectionKeepsHumans(cfg: Config, s: Sys, a: Action)
    requires AsksGates(a) && Next(cfg, s, a).Some?
    ensures Next(cfg, s, a).value.core.humans == s.core.humans
  {
  }

  /** What a run in which decisions fall into sections amounts to: whole steps up to m, under whose
      decisions the open section asked its gates, and then the decisions recorded since. */
  ghost predicate AmountsTo(cfg: Config, s: Sys, f: Fine, before: seq<Action>, m: Sys, since: seq<Action>) {
    && Reaches(cfg, s, before, m) && AllDecisions(since)
    && f.sys == WithHumans(m, AfterDecisions(m.core.humans, since))
    && (f.asked.Some? ==> f.asked.value.humans == m.core.humans && AsksGates(f.asked.value.section))
    && (f.asked.None? ==> since == [])
  }

  lemma OneStepReaches(cfg: Config, s: Sys, a: Action)
    requires Next(cfg, s, a).Some?
    ensures Reaches(cfg, s, [a], Next(cfg, s, a).value)
  {
    var t := Next(cfg, s, a).value;
    assert [a][1..] == [] && Reaches(cfg, t, [], t);
  }

  lemma WholeAmounts(cfg: Config, s: Sys, f: Fine, a: Action, before: seq<Action>, m: Sys, since: seq<Action>)
    returns (before': seq<Action>, m': Sys)
    requires AmountsTo(cfg, s, f, before, m, since) && FineNext(cfg, f, Whole(a)).Some?
    ensures AmountsTo(cfg, s, FineNext(cfg, f, Whole(a)).value, before', m', since)
  {
    var h := AfterDecisions(m.core.humans, since);
    WholeIgnoresHumans(cfg, m, a, h);
    m' := Next(cfg, m, a).value;
    OneStepReaches(cfg, m, a);
    ReachesConcat(cfg, s, before, m, [a], m');
    before' := before + [a];
  }

  lemma DecisionAmounts(cfg: Config, s: Sys, f: Fine, a: Action, before: seq<Action>, m: Sys, since: seq<Action>)
    returns (before': seq<Action>, m': Sys, since': seq<Action>)
    requires AmountsTo(cfg, s, f, before, m, since) && FineNext(cfg, f, Decided(a)).Some?
    ensures AmountsTo(cfg, s, FineNext(cfg, f, Decided(a)).value, before', m', since')
  {
    var g := FineNext(cfg, f, Decided(a)).value;
    if f.asked.None? {
      OneStepReaches(cfg, m, a);
      ReachesConcat(cfg, s, before, m, [a], g.sys);
      before', m', since' := before + [a], g.sys, [];
    } else {
      DecisionsOneMore(m.core.humans, since, a);
      assert AfterDecisions(f.sys.core.humans, [a]) == g.sys.core.humans by {
        assert [a][1..] == [];
      }
      before', m', since' := before, m, since + [a];
    }
  }

  /** The section ends: it is put where its gates were asked, before the decisions recorded since. */
  lemma SettleAmounts(cfg: Config, s: Sys, f: Fine, before: seq<Action>, m: Sys, since: seq<Action>)
    returns (before': seq<Action>, m': Sys)
    requires AmountsTo(cfg, s, f, before, m, since) && FineNext(cfg, f, Settle).Some?
    ensures AmountsTo(cfg, s, FineNext(cfg, f, Settle).value, before', m', [])
  {
    var section := f.asked.value.section;
    assert WithHumans(f.sys, m.core.humans) == m;
    var t := Next(cfg, m, section).value;
    SectionKeepsHumans(cfg, m, section);
    OneStepReaches(cfg, m, section);
    ReachesConcat(cfg, s, before, m, [section], t);
    DecisionsReach(cfg, t, since);
    m' := WithHumans(t, AfterDecisions(m.core.humans, since));
    ReachesConcat(cfg, s, before + [section], t, since, m');
    before' := before + [section] + since;
  }

  lemma {:induction false} RunAmounts(cfg: Config, s: Sys, f: Fine, acts: seq<FineAction>, g: Fine,
                                      before: seq<Action>, m: Sys, since: seq<Action>)
    returns (before': seq<Action>, m': Sys, since': seq<Action>)
    requires AmountsTo(cfg, s, f, before, m, since) && FineReaches(cfg, f, acts, g)
    ensures AmountsTo(cfg, s, g, before', m', since')
    decreases |acts|
  {
    if acts == [] {
      before', m', since' := before, m, since;
    } else {
      match acts[0] {
        case Whole(a) =>
          before', m' := WholeAmounts(cfg, s, f, a, before, m, since);
          since' := since;
        case Ask(a) => before', m', since' := before, m, since;
        case Settle =>
          before', m' := SettleAmounts(cfg, s, f, before, m, since);
          since' := [];
        case Decided(a) => before', m', since' := DecisionAmounts(cfg, s, f, a, before, m, since);
      }
      var next := FineNext(cfg, f, acts[0]).value;
      before', m', since' := RunAmounts(cfg, s, next, acts[1..], g, before', m', since');
    }
  }

  /** Sections may be taken as whole steps: every state between sections that is reached with decisions
      falling anywhere is reached with each decision moved behind the section it fell into. */
  lemma SectionsAreWhole(cfg: Config, s: Sys, acts: seq<FineAction>, t: Sys) returns (whole: seq<Action>)
    requires FineReaches(cfg, Fine(s, None), acts, Fine(t, None))
    ensures Reaches(cfg, s, whole, t)
  {
    assert WithHumans(s, AfterDecisions(s.core.humans, [])) == s;
    var m, since;
    whole, m, since := RunAmounts(cfg, s, Fine(s, None), acts, Fine(t, None), [], s, []);
  }

  /** Hence safety holds in every state, also in the middle of a section. */
  lemma AlwaysSafe(cfg: Config, s: Sys, acts: seq<FineAction>, g: Fine)
    requires Safe(s) && FineReaches(cfg, Fine(s, None), acts, g)
    ensures Safe(g.sys) && Grows(s.core.nodes, g.sys.core.nodes)
  {
    assert WithHumans(s, AfterDecisions(s.core.humans, [])) == s;
    var before, m, since := RunAmounts(cfg, s, Fine(s, None), acts, g, [], s, []);
    DependencySafety(cfg, s, before, m);
    SameSharesSafe(m, g.sys);
  }

  // ---- a rejection and the section under way ----

  /** The open section is about x and will complete it, whatever is decided from now on. */
  ghost predicate WillComplete(cfg: Config, f: Fine, x: Id) {
    && f.asked.Some? && AsksGates(f.asked.value.section) && f.asked.value.section.x == x
    && Settled(cfg, f.sys, f.asked.value).Some?
    && CompletedIn(Settled(cfg, f.sys, f.asked.value).value, x)
  }

  ghost predicate FineSafe(f: Fine) {
    Safe(f.sys) && (f.asked.Some? ==> AsksGates(f.asked.value.section))
  }

  lemma FineStepKeepsSafe(cfg: Config, f: Fine, b: FineAction)
    requires FineSafe(f) && FineNext(cfg, f, b).Some?
    ensures FineSafe(FineNext(cfg, f, b).value)
    ensures Grows(f.sys.core.nodes, FineNext(cfg, f, b).value.sys.core.nodes)
  {
    match b
    case Whole(a) => StepKeepsSafe(cfg, f.sys, a);
    case Decided(a) => StepKeepsSafe(cfg, f.sys, a);
    case Ask(a) =>
    case Settle =>
      var s := WithHumans(f.sys, f.asked.value.humans);
      SameSharesSafe(f.sys, s);
      StepKeepsSafe(cfg, s, f.asked.value.section);
      SameSharesSafe(Next(cfg, s, f.asked.value.section).value, FineNext(cfg, f, b).value.sys);
  }

  /** A step that may fall into a section leaves every share, and every flight a section waits for. */
  lemma StepLeavesShares(cfg: Config, s: Sys, b: Action, x: Id)
    requires Safe(s) && Next(cfg, s, b).Some? && !NeedsLock(s, b) && !IsDecision(b) && x in s.core.nodes
    ensures var t := Next(cfg, s, b).value;
            && x in t.core.nodes && SlotOf(t.core, x) == SlotOf(s.core, x) && t.core.nodes[x] == s.core.nodes[x]
            && (Busy(s, x) || Busy(t, x) ==> Look(t.flights, x) == Look(s.flights, x))
  {
    if AboutPackage(b) {
      NextWrites(cfg, s, b);
      var w := Write(cfg, s, b);
      PutFrame(s.core, b.x, w.slot, w.events, x);
      StoreFrame(s.flights, b.x, w.flight, x);
    }
  }

  predicate Busy(s: Sys, x: Id) {
    x in s.flights && s.flights[x].Busy?
  }

  /** x has the same share and the same open section in both states. */
  ghost predicate SameStanding(s: Sys, t: Sys, x: Id) {
    && x in s.core.nodes && x in t.core.nodes
    && SlotOf(t.core, x) == SlotOf(s.core, x) && t.core.nodes[x] == s.core.nodes[x]
    && (Busy(s, x) || Busy(t, x) ==> Look(t.flights, x) == Look(s.flights, x))
  }

  lemma SectionEnabledAlike(cfg: Config, s: Sys, t: Sys, asked: Asked)
    requires AsksGates(asked.section) && SameStanding(s, t, asked.section.x)
    ensures Settled(cfg, t, asked).Some? <==> Settled(cfg, s, asked).Some?
  {
  }

  lemma SectionWritesAlike(cfg: Config, s: Sys, t: Sys, asked: Asked)
    requires AsksGates(asked.section) && SameStanding(s, t, asked.section.x)
    ensures Write(cfg, WithHumans(t, asked.humans), asked.section).slot
         == Write(cfg, WithHumans(s, asked.humans), asked.section).slot
  {
  }

  lemma SettledWrites(cfg: Config, s: Sys, asked: Asked)
    requires AsksGates(asked.section) && Settled(cfg, s, asked).Some?
    ensures var w := Write(cfg, WithHumans(s, asked.humans), asked.section);
            CompletedIn(Settled(cfg, s, asked).value, asked.section.x) == (w.slot.state == Planner.Completed)
  {
    NextWrites(cfg, WithHumans(s, asked.humans), asked.section);
  }

  /** What a section makes of its package depends on that package's share and flight alone. */
  lemma SectionReadsShare(cfg: Config, s: Sys, t: Sys, asked: Asked)
    requires AsksGates(asked.section) && SameStanding(s, t, asked.section.x)
    ensures Settled(cfg, t, asked).Some? <==> Settled(cfg, s, asked).Some?
    ensures Settled(cfg, t, asked).Some? ==>
              (CompletedIn(Settled(cfg, t, asked).value, asked.section.x)
               <==> CompletedIn(Settled(cfg, s, asked).value, asked.section.x))
  {
    SectionEnabledAlike(cfg, s, t, asked);
    if Settled(cfg, t, asked).Some? {
      SectionWritesAlike(cfg, s, t, asked);
      SettledWrites(cfg, s, asked);
      SettledWrites(cfg, t, asked);
    }
  }

  /** A section that ends has its package in the graph. */
  lemma SettledKnown(cfg: Config, s: Sys, asked: Asked)
    requires AsksGates(asked.section) && Settled(cfg, s, asked).Some?
    ensures asked.section.x in s.core.nodes
  {
  }

  lemma StepKeepsNodes(cfg: Config, s: Sys, b: Action)
    requires Safe(s) && Next(cfg, s, b).Some?
    ensures Next(cfg, s, b).value.core.nodes.Keys == s.core.nodes.Keys
  {
    StepKeepsSafe(cfg, s, b);
  }

  lemma SectionUndisturbed(cfg: Config, s: Sys, b: Action, asked: Asked)
    requires Safe(s) && Next(cfg, s, b).Some? && !NeedsLock(s, b) && !IsDecision(b) && AsksGates(asked.section)
    requires var t := Settled(cfg, Next(cfg, s, b).value, asked); t.Some? && CompletedIn(t.value, asked.section.x)
    ensures var t := Settled(cfg, s, asked); t.Some? && CompletedIn(t.value, asked.section.x)
  {
    var t := Next(cfg, s, b).value;
    SettledKnown(cfg, t, asked);
    StepKeepsNodes(cfg, s, b);
    StepLeavesShares(cfg, s, b, asked.section.x);
    SectionReadsShare(cfg, s, t, asked);
  }

  /** x is rejected, not completed, and no open section is going to complete it. */
  ghost predicate Held(cfg: Config, f: Fine, x: Id) {
    x in f.sys.core.humans.rejected && !CompletedIn(f.sys, x) && !WillComplete(cfg, f, x)
  }

  lemma WholeNeverCompletes(cfg: Config, f: Fine, a: Action, x: Id)
    requires FineSafe(f) && !CompletedIn(f.sys, x) && FineNext(cfg, f, Whole(a)).Some?
    ensures !CompletedIn(FineNext(cfg, f, Whole(a)).value.sys, x)
  {
    if CompletedIn(FineNext(cfg, f, Whole(a)).value.sys, x) {
      OnlyPassingGatesComplete(cfg, f.sys, a, x);
    }
  }

  lemma WholeLeavesSection(cfg: Config, f: Fine, a: Action, x: Id)
    requires FineSafe(f) && !WillComplete(cfg, f, x) && FineNext(cfg, f, Whole(a)).Some?
    ensures !WillComplete(cfg, FineNext(cfg, f, Whole(a)).value, x)
  {
    var t := Next(cfg, f.sys, a).value;
    if WillComplete(cfg, FineNext(cfg, f, Whole(a)).value, x) {
      SectionUndisturbed(cfg, f.sys, a, f.asked.value);
    }
  }

  lemma WholeKeepsHeld(cfg: Config, f: Fine, a: Action, x: Id)
    requires FineSafe(f) && Held(cfg, f, x) && FineNext(cfg, f, Whole(a)).Some?
    ensures Held(cfg, FineNext(cfg, f, Whole(a)).value, x)
  {
    WholeKeepsHumans(cfg, f, a);
    WholeNeverCompletes(cfg, f, a, x);
    WholeLeavesSection(cfg, f, a, x);
  }

  lemma WholeKeepsHumans(cfg: Config, f: Fine, a: Action)
    requires FineNext(cfg, f, Whole(a)).Some?
    ensures FineNext(cfg, f, Whole(a)).value.sys.core.humans == f.sys.core.humans
  {
    WholeIgnoresHumans(cfg, f.sys, a, f.sys.core.humans);
  }

  /** Gates that are asked after the rejection do not let the package pass. */
  lemma AskKeepsHeld(cfg: Config, f: Fine, a: Action, x: Id)
    requires FineSafe(f) && HumanGate in cfg.gates && Held(cfg, f, x) && FineNext(cfg, f, Ask(a)).Some?
    ensures Held(cfg, FineNext(cfg, f, Ask(a)).value, x)
  {
    assert WithHumans(f.sys, f.sys.core.humans) == f.sys;
    var t := Next(cfg, f.sys, a).value;
    if CompletedIn(t, x) {
      OnlyPassingGatesComplete(cfg, f.sys, a, x);
      RejectedNeverPasses(cfg.gates, f.sys.core.humans, SubjectOf(x, ResultOf(SlotOf(t.core, x))));
    }
  }

  lemma SettleKeepsHeld(cfg: Config, f: Fine, x: Id)
    requires FineSafe(f) && Held(cfg, f, x) && FineNext(cfg, f, Settle).Some?
    ensures Held(cfg, FineNext(cfg, f, Settle).value, x)
  {
    var s := WithHumans(f.sys, f.asked.value.humans);
    SameSharesSafe(f.sys, s);
    if CompletedIn(FineNext(cfg, f, Settle).value.sys, x) {
      OnlyPassingGatesComplete(cfg, s, f.asked.value.section, x);
    }
  }

  lemma DecidedKeepsHeld(cfg: Config, f: Fine, a: Action, x: Id)
    requires Held(cfg, f, x) && FineNext(cfg, f, Decided(a)).Some?
    ensures Held(cfg, FineNext(cfg, f, Decided(a)).value, x)
  {
    var g := FineNext(cfg, f, Decided(a)).value;
    if f.asked.Some? {
      assert WithHumans(g.sys, f.asked.value.humans) == WithHumans(f.sys, f.asked.value.humans);
    }
  }

  lemma {:induction false} HeldStaysHeld(cfg: Config, f: Fine, acts: seq<FineAction>, g: Fine, x: Id)
    requires FineSafe(f) && HumanGate in cfg.gates && Held(cfg, f, x) && FineReaches(cfg, f, acts, g)
    ensures Held(cfg, g, x)
    decreases |acts|
  {
    if acts != [] {
      match acts[0] {
        case Whole(a) => WholeKeepsHeld(cfg, f, a, x);
        case Ask(a) => AskKeepsHeld(cfg, f, a, x);
        case Settle => SettleKeepsHeld(cfg, f, x);
        case Decided(a) => DecidedKeepsHeld(cfg, f, a, x);
      }
      FineStepKeepsSafe(cfg, f, acts[0]);
      HeldStaysHeld(cfg, FineNext(cfg, f, acts[0]).value, acts[1..], g, x);
    }
  }

  ghost predicate Completes(cfg: Config, f: Fine, acts: seq<FineAction>, g: Fine, x: Id) {
    FineReaches(cfg, f, acts, g) && CompletedIn(g.sys, x)
  }

  /** The open section is about x and its gates passed when they were asked: for a package that awaits
      its gates, or for a result that is succeeded or partial and whose record was written. */
  ghost predicate PastGates(cfg: Config, f: Fine, x: Id) {
    && f.asked.Some? && x in f.sys.core.nodes
    && match f.asked.value.section
       case Resolve(y, _) =>
         var slot := SlotOf(f.sys.core, x);
         y == x && Awaits(slot) && Passes(cfg.gates, f.asked.value.humans, SubjectOf(x, ResultOf(slot)))
       case Finish(y, Answer(r), fault) =>
         && y == x && Busy(f.sys, x) && (r.status == Succeeded || r.status == Partial)
         && fault != RecordFault(1) && fault != RecordFault(2)
         && Passes(cfg.gates, f.asked.value.humans, SubjectOf(x, r))
       case _ => false
  }

  lemma FinishCompletesIff(cfg: Config, h: Humans, x: Id, slot: Slot, b: Binding, reply: Reply, fault: Fault)
    requires SlotOk(x, slot, Some(Flight.Busy(b)))
    ensures FinishSection(cfg, h, slot, b, reply, fault).slot.state == Planner.Completed
       <==> && reply.Answer? && (reply.result.status == Succeeded || reply.result.status == Partial)
            && fault != RecordFault(1) && fault != RecordFault(2) && Passes(cfg.gates, h, SubjectOf(x, reply.result))
  {
  }

  lemma ResolveCompletesIff(cfg: Config, h: Humans, x: Id, slot: Slot, flight: Option<Flight>, fault: Fault)
    requires SlotOk(x, slot, flight) && slot.state != Planner.Completed
    ensures ResolveSection(cfg, h, slot, fault).slot.state == Planner.Completed
       <==> Awaits(slot) && Passes(cfg.gates, h, SubjectOf(x, ResultOf(slot)))
  {
  }

  lemma PastGatesCompletes(cfg: Config, f: Fine, x: Id)
    requires FineSafe(f) && !CompletedIn(f.sys, x)
    ensures PastGates(cfg, f, x) <==> WillComplete(cfg, f, x)
  {
    if f.asked.Some? && x in f.sys.core.nodes && f.asked.value.section.x == x {
      var slot, flight := SlotOf(f.sys.core, x), Look(f.sys.flights, x);
      assert PackageOk(f.sys, x);
      assert SlotOf(WithHumans(f.sys, f.asked.value.humans).core, x) == slot;
      match f.asked.value.section {
        case Resolve(_, fault) =>
          ResolveCompletesIff(cfg, f.asked.value.humans, x, slot, flight, fault);
          SettledWrites(cfg, f.sys, f.asked.value);
        case Finish(_, reply, fault) =>
          if Busy(f.sys, x) {
            FinishCompletesIff(cfg, f.asked.value.humans, x, slot, f.sys.flights[x].binding, reply, fault);
            SettledWrites(cfg, f.sys, f.asked.value);
          }
      }
    }
  }

  lemma SettlingCompletes(cfg: Config, f: Fine, x: Id) returns (acts: seq<FineAction>, g: Fine)
    requires WillComplete(cfg, f, x)
    ensures Completes(cfg, f, acts, g, x)
  {
    g := FineNext(cfg, f, Settle).value;
    acts := [Settle];
    assert acts[1..] == [] && FineReaches(cfg, g, [], g);
  }

  /** The exact reach of a rejection: a rejected package that is not completed can still become completed
      exactly when a section that asked its gates before the rejection is about to complete it. */
  lemma RejectedCompletesIff(cfg: Config, f: Fine, x: Id)
    requires FineSafe(f) && HumanGate in cfg.gates
    requires x in f.sys.core.humans.rejected && !CompletedIn(f.sys, x)
    ensures (exists acts, g :: Completes(cfg, f, acts, g, x)) <==> PastGates(cfg, f, x)
  {
    PastGatesCompletes(cfg, f, x);
    if PastGates(cfg, f, x) {
      var acts, g := SettlingCompletes(cfg, f, x);
    } else {
      forall acts, g ensures !Completes(cfg, f, acts, g, x) {
        if FineReaches(cfg, f, acts, g) {
          HeldStaysHeld(cfg, f, acts, g, x);
        }
      }
    }
  }

  /** Such a section asked its gates when the package was not yet rejected. */
  lemma PastGatesAskedBefore(cfg: Config, f: Fine, x: Id)
    requires FineSafe(f) && HumanGate in cfg.gates && PastGates(cfg, f, x) && !CompletedIn(f.sys, x)
    ensures x !in f.asked.value.humans.rejected
  {
    PastGatesCompletes(cfg, f, x);
    var s := WithHumans(f.sys, f.asked.value.humans);
    SameSharesSafe(f.sys, s);
    var t := Next(cfg, s, f.asked.value.section).value;
    OnlyPassingGatesComplete(cfg, s, f.asked.value.section, x);
    if x in f.asked.value.humans.rejected {
      RejectedNeverPasses(cfg.gates, s.core.humans, SubjectOf(x, ResultOf(SlotOf(t.core, x))));
    }
  }

  /** And it does happen: a rejection may fall into any section that is going to complete its package. */
  lemma RejectionMayComeTooLate(cfg: Config, s: Sys, section: Action, reason: Id) returns (g: Fine)
    requires AsksGates(section) && Next(cfg, s, section).Some? && CompletedIn(Next(cfg, s, section).value, section.x)
    ensures FineReaches(cfg, Fine(s, None), [Ask(section), Decided(RecordRejection(section.x, reason)), Settle], g)
    ensures section.x in g.sys.core.humans.rejected && CompletedIn(g.sys, section.x)
  {
    var asked := Fine(s, Some(Asked(section, s.core.humans)));
    var reject := RecordRejection(section.x, reason);
    var rejected := FineNext(cfg, asked, Decided(reject)).value;
    assert WithHumans(rejected.sys, s.core.humans) == s;
    g := FineNext(cfg, rejected, Settle).value;
    var acts := [Ask(section), Decided(reject), Settle];
    assert acts[1..] == [Decided(reject), Settle] && acts[1..][1..] == [Settle] && acts[1..][1..][1..] == [];
    assert FineReaches(cfg, g, [], g);
    assert FineReaches(cfg, rejected, [Settle], g);
    assert FineReaches(cfg, asked, [Decided(reject), Settle], g);
  }

  /** Dispatching the first ready package of an idle scheduler, up to its call of the worker. */
  lemma DispatchStarts(cfg: Config, s: Sys, x: Id) returns (t: Sys)
    requires !s.active && s.flights == map[] && ReadyList(s.core.nodes) != [] && x == ReadyList(s.core.nodes)[0]
    requires x in s.core.nodes && cfg.selectOne(s.core.nodes[x].capabilities).Some?
    ensures Reaches(cfg, s, [StartDispatch, Begin(x, NoFault)], t) && t.core.humans == s.core.humans
    ensures x in t.core.nodes && Busy(t, x) && t.flights[x].binding.workPackage == x
    ensures CanTransition(t.flights[x].binding, Collecting)
  {
    var b := Next(cfg, s, StartDispatch).value;
    assert [x][0] in [x];
    t := BeginStarts(cfg, b, x);
    var acts := [StartDispatch, Begin(x, NoFault)];
    assert acts[1..] == [Begin(x, NoFault)];
  }

  lemma BeginStarts(cfg: Config, s: Sys, x: Id) returns (t: Sys)
    requires x in s.core.nodes && Look(s.flights, x) == Some(Spawned)
    requires cfg.selectOne(s.core.nodes[x].capabilities).Some?
    ensures Reaches(cfg, s, [Begin(x, NoFault)], t) && t.core.humans == s.core.humans
    ensures x in t.core.nodes && Busy(t, x) && t.flights[x].binding.workPackage == x
    ensures CanTransition(t.flights[x].binding, Collecting)
  {
    t := Next(cfg, s, Begin(x, NoFault)).value;
    assert [Begin(x, NoFault)][1..] == [] && Reaches(cfg, t, [], t);
  }

  /** Sections like that are reached: dispatch a ready package that only the human gate holds up. */
  lemma CompletingSectionIsReached(cfg: Config, s: Sys, x: Id) returns (acts: seq<Action>, t: Sys)
    requires Fresh(s) && ReadyList(s.core.nodes) != [] && x == ReadyList(s.core.nodes)[0]
    requires cfg.gates == [HumanGate] && x !in s.core.humans.rejected
    requires x in s.core.nodes && cfg.selectOne(s.core.nodes[x].capabilities).Some?
    ensures var section := Finish(x, Answer(WorkResult(Succeeded, [])), NoFault);
            && Reaches(cfg, s, acts, t)
            && Next(cfg, t, section).Some? && CompletedIn(Next(cfg, t, section).value, x)
  {
    var a := Next(cfg, s, RecordApproval(x)).value;
    t := DispatchStarts(cfg, a, x);
    acts := [RecordApproval(x), StartDispatch, Begin(x, NoFault)];
    assert acts[1..] == [StartDispatch, Begin(x, NoFault)];
    FinishPasses(cfg, t, x);
  }

  lemma FinishPasses(cfg: Config, t: Sys, x: Id)
    requires cfg.gates == [HumanGate] && x in t.core.humans.approved && x !in t.core.humans.rejected
    requires x in t.core.nodes && Busy(t, x) && t.flights[x].binding.workPackage == x
    requires CanTransition(t.flights[x].binding, Collecting)
    ensures var section := Finish(x, Answer(WorkResult(Succeeded, [])), NoFault);
            Next(cfg, t, section).Some? && CompletedIn(Next(cfg, t, section).value, x)
  {
  }
}
