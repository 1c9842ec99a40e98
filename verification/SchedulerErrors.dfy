/** What Run reports when a dispatch ends in an error: it returns at the first error it takes from the
    channel, with what it has counted so far. */
module SchedulerErrors {
  import opened Ordering
  import Planner
  import opened Gate
  import opened Assignment
  import opened SchedulerCore
  import opened SchedulerSystem

  /** What happens to each package of a batch, whenever its goroutine gets to run: the faults of its two
      sections and the answer of its worker. */
  datatype Fate = Fate(begin: Id -> Fault, reply: Id -> Reply, finish: Id -> Fault)

  predicate Foreseen(fate: Fate, a: Action) {
    match a
    case Begin(x, fault) => fault == fate.begin(x)
    case Finish(x, reply, fault) => reply == fate.reply(x) && fault == fate.finish(x)
    case Collect(_) => true
    case _ => false
  }

  ghost predicate AllForeseen(fate: Fate, acts: seq<Action>) {
    forall a :: a in acts ==> Foreseen(fate, a)
  }

  /** How the first section of each package of a batch comes out, and how its whole dispatch ends. */
  datatype Course = Course(begun: map<Id, Change<Option<Binding>>>, ended: map<Id, Change<Status>>)

  function Begun(cfg: Config, core: Core, fate: Fate, x: Id): Change<Option<Binding>>
    requires x in core.nodes
  {
    BeginSection(cfg, x, core.nodes[x].capabilities, SlotOf(core, x), fate.begin(x))
  }

  function Ended(cfg: Config, core: Core, fate: Fate, x: Id): Change<Status>
    requires x in core.nodes
  {
    var c := Begun(cfg, core, fate, x);
    if c.out.None? then Change(c.slot, [], Errored)
    else FinishSection(cfg, core.humans, c.slot, c.out.value, fate.reply(x), fate.finish(x))
  }

  function CourseOf(cfg: Config, core: Core, fate: Fate): Course {
    Course(map x | x in core.nodes :: Begun(cfg, core, fate, x), map x | x in core.nodes :: Ended(cfg, core, fate, x))
  }

  predicate Errs(c: Course, x: Id) {
    x in c.ended && c.ended[x].out == Errored
  }

  /** Run starts a batch: a goroutine for each of its packages, no outcome taken yet. */
  ghost predicate Starts(s: Sys, batch: seq<Id>) {
    && s.active && Distinct(batch) && batch != [] && s.flights == Launch(batch)
    && forall x :: x in batch ==> x in s.core.nodes
  }

  lemma EveryBatchStarts(cfg: Config, s: Sys)
    requires Next(cfg, s, StartBatch).Some?
    ensures Starts(Next(cfg, s, StartBatch).value, Batch(cfg, ReadyList(s.core.nodes)))
  {
    var ready := ReadyList(s.core.nodes);
    assert forall x :: x in Batch(cfg, ready) ==> x in ready;
    assert forall x :: x in ready ==> Planner.IsReady(s.core.nodes, x);
  }

  // ---- what a batch adds to the report ----

  predicate GivesUp(cfg: Config, r: RunReport, c: Course, x: Id) {
    && x in c.ended && c.ended[x].out == WorkFailed
    && !(Counted(r.attempts, x) + 1 < AttemptLimit(cfg) && ResetSection(c.ended[x].slot).1)
  }

  function EndingAs(c: Course, taken: set<Id>, out: Status): set<Id> {
    set x | x in taken && x in c.ended && c.ended[x].out == out
  }

  function GivingUp(cfg: Config, r: RunReport, c: Course, taken: set<Id>): set<Id> {
    set x | x in taken && GivesUp(cfg, r, c, x)
  }

  function OneMoreEach(attempts: map<Id, nat>, taken: set<Id>): map<Id, nat> {
    map x | x in attempts.Keys + taken :: Counted(attempts, x) + if x in taken then 1 else 0
  }

  /** The report once the outcomes of some packages have been taken, in whatever order. */
  function Reported(cfg: Config, r: RunReport, c: Course, taken: set<Id>): RunReport {
    RunReport(r.dispatched + |taken|, r.accepted + |EndingAs(c, taken, WorkSucceeded)|,
              r.failed + |GivingUp(cfg, r, c, taken)|, r.pending + |EndingAs(c, taken, WorkPending)|,
              OneMoreEach(r.attempts, taken))
  }

  lemma NothingTaken(cfg: Config, r: RunReport, c: Course)
    ensures Reported(cfg, r, c, {}) == r
  {
    assert EndingAs(c, {}, WorkSucceeded) == {} == EndingAs(c, {}, WorkPending) && GivingUp(cfg, r, c, {}) == {};
    assert OneMoreEach(r.attempts, {}) == r.attempts;
  }

  lemma AttemptsMore(attempts: map<Id, nat>, taken: set<Id>, x: Id)
    requires x !in taken
    ensures Counted(OneMoreEach(attempts, taken), x) == Counted(attempts, x)
    ensures OneMoreEach(attempts, taken + {x}) == OneMoreEach(attempts, taken)[x := Counted(attempts, x) + 1]
  {
  }

  lemma EndingMore(c: Course, taken: set<Id>, x: Id, out: Status)
    requires x in c.ended && x !in taken
    ensures |EndingAs(c, taken + {x}, out)| == |EndingAs(c, taken, out)| + if c.ended[x].out == out then 1 else 0
  {
    OneMoreIn(taken, x, EndingAs(c, taken, out), EndingAs(c, taken + {x}, out));
  }

  lemma GivingUpMore(cfg: Config, r: RunReport, c: Course, taken: set<Id>, x: Id)
    requires x !in taken
    ensures |GivingUp(cfg, r, c, taken + {x})| == |GivingUp(cfg, r, c, taken)| + if GivesUp(cfg, r, c, x) then 1 else 0
  {
    OneMoreIn(taken, x, GivingUp(cfg, r, c, taken), GivingUp(cfg, r, c, taken + {x}));
  }

  /** The later report counts one outcome more; gives says whether that is a failure Run gives up on. */
  predicate CountsOne(r: RunReport, more: RunReport, x: Id, status: Status, gives: bool) {
    && more.dispatched == r.dispatched + 1 && more.attempts == r.attempts[x := Counted(r.attempts, x) + 1]
    && more.accepted == r.accepted + (if status == WorkSucceeded then 1 else 0)
    && more.failed == r.failed + (if gives then 1 else 0)
    && more.pending == r.pending + (if status == WorkPending then 1 else 0)
  }

  lemma CollectIs(cfg: Config, slot: Slot, r: RunReport, more: RunReport, x: Id, status: Status, gives: bool)
    requires status != Errored && CountsOne(r, more, x, status, gives)
    requires gives == (status == WorkFailed
                       && !(Counted(r.attempts, x) + 1 < AttemptLimit(cfg) && ResetSection(slot).1))
    ensures CollectOne(cfg, slot, r, x, status).1 == more
  {
  }

  lemma ReportedTries(cfg: Config, r: RunReport, c: Course, taken: set<Id>, x: Id)
    requires x !in taken
    ensures var before := Reported(cfg, r, c, taken).attempts;
            Reported(cfg, r, c, taken + {x}).attempts == before[x := Counted(before, x) + 1]
  {
    AttemptsMore(r.attempts, taken, x);
  }

  lemma ReportedSums(cfg: Config, r: RunReport, c: Course, taken: set<Id>, x: Id)
    requires x in c.ended && x !in taken
    ensures var before, after := Reported(cfg, r, c, taken), Reported(cfg, r, c, taken + {x});
            && after.accepted == before.accepted + (if c.ended[x].out == WorkSucceeded then 1 else 0)
            && after.pending == before.pending + (if c.ended[x].out == WorkPending then 1 else 0)
  {
    EndingMore(c, taken, x, WorkSucceeded);
    EndingMore(c, taken, x, WorkPending);
  }

  lemma ReportedMore(cfg: Config, r: RunReport, c: Course, taken: set<Id>, x: Id)
    requires x in c.ended && x !in taken
    ensures CountsOne(Reported(cfg, r, c, taken), Reported(cfg, r, c, taken + {x}), x, c.ended[x].out,
                      GivesUp(cfg, r, c, x))
  {
    ReportedTries(cfg, r, c, taken, x);
    ReportedSums(cfg, r, c, taken, x);
    GivingUpMore(cfg, r, c, taken, x);
  }

  lemma OneMoreTaken(cfg: Config, r: RunReport, c: Course, taken: set<Id>, x: Id)
    requires x in c.ended && x !in taken && !Errs(c, x)
    ensures CollectOne(cfg, c.ended[x].slot, Reported(cfg, r, c, taken), x, c.ended[x].out).1
         == Reported(cfg, r, c, taken + {x})
  {
    ReportedMore(cfg, r, c, taken, x);
    AttemptsMore(r.attempts, taken, x);
    CollectIs(cfg, c.ended[x].slot, Reported(cfg, r, c, taken), Reported(cfg, r, c, taken + {x}), x, c.ended[x].out,
              GivesUp(cfg, r, c, x));
  }

  lemma OneMoreIn(taken: set<Id>, x: Id, a: set<Id>, b: set<Id>)
    requires x !in taken && a <= taken && b <= taken + {x} && forall y :: y in taken ==> (y in a <==> y in b)
    ensures |b| == |a| + if x in b then 1 else 0
  {
    assert b == if x in b then a + {x} else a;
  }

  // ---- while the batch is under way ----

  predicate SlotStands(c: Course, before: Slot, x: Id, slot: Slot, flight: Option<Flight>) {
    && x in c.begun && x in c.ended
    && match flight
       case None => true
       case Some(Spawned) => slot == before
       case Some(Busy(b)) => c.begun[x].out == Some(b) && slot == c.begun[x].slot
       case Some(Sent(status)) => status == c.ended[x].out && slot == c.ended[x].slot
  }

  ghost predicate Standing(s0: Sys, c: Course, s: Sys, x: Id) {
    && x in s0.core.nodes && x in s.core.nodes && s.core.nodes[x].capabilities == s0.core.nodes[x].capabilities
    && SlotStands(c, SlotOf(s0.core, x), x, SlotOf(s.core, x), Look(s.flights, x))
  }

  ghost predicate During(cfg: Config, s0: Sys, c: Course, batch: seq<Id>, s: Sys) {
    && s.core.humans == s0.core.humans
    && (forall x :: x in s.flights ==> x in batch)
    && (forall x :: x in batch ==> Standing(s0, c, s, x))
    && Tally(cfg, s0.report, c, batch, s)
  }

  /** What has been counted: every outcome taken, and none of them an error while Run goes on. */
  ghost predicate Tally(cfg: Config, r: RunReport, c: Course, batch: seq<Id>, s: Sys) {
    && (s.active ==> forall x :: x in batch && x !in s.flights ==> !Errs(c, x))
    && (s.active ==> s.report == Reported(cfg, r, c, Elements(batch) - s.flights.Keys))
    && (!s.active ==> exists x :: x in batch && Errs(c, x))
    && ((forall x :: x in batch ==> Errs(c, x)) ==> s.report == r)
  }

  lemma BatchStarts(cfg: Config, s: Sys, fate: Fate, batch: seq<Id>)
    requires Starts(s, batch)
    ensures During(cfg, s, CourseOf(cfg, s.core, fate), batch, s)
  {
    var c := CourseOf(cfg, s.core, fate);
    assert Elements(batch) - s.flights.Keys == {};
    NothingTaken(cfg, s.report, c);
    forall x | x in batch ensures Standing(s, c, s, x) {
    }
  }

  lemma OthersStand(cfg: Config, s0: Sys, c: Course, s: Sys, a: Action, y: Id)
    requires AboutPackage(a) && Next(cfg, s, a).Some? && y != a.x && Standing(s0, c, s, y)
    ensures var t := Next(cfg, s, a).value; Standing(s0, c, t, y) && Look(t.flights, y) == Look(s.flights, y)
  {
    NextWrites(cfg, s, a);
    var w := Write(cfg, s, a);
    PutFrame(s.core, a.x, w.slot, w.events, y);
    StoreFrame(s.flights, a.x, w.flight, y);
  }

  lemma BeginStanding(cfg: Config, s0: Sys, fate: Fate, s: Sys, x: Id)
    requires var c := CourseOf(cfg, s0.core, fate); Standing(s0, c, s, x)
    requires Next(cfg, s, Begin(x, fate.begin(x))).Some?
    ensures var c, t := CourseOf(cfg, s0.core, fate), Next(cfg, s, Begin(x, fate.begin(x))).value;
            && Standing(s0, c, t, x)
            && Look(t.flights, x)
               == Some(if c.begun[x].out.Some? then Busy(c.begun[x].out.value) else Sent(c.ended[x].out))
  {
    var b := Begun(cfg, s0.core, fate, x);
    BeginUpdates(cfg, s0, fate, s, x);
    PutFrame(s.core, x, b.slot, b.events, x);
    StoreFrame(s.flights, x, FlightAfter(b), x);
  }

  function FlightAfter(b: Change<Option<Binding>>): Option<Flight> {
    Some(if b.out.Some? then Busy(b.out.value) else Sent(Errored))
  }

  lemma BeginUpdates(cfg: Config, s0: Sys, fate: Fate, s: Sys, x: Id)
    requires x in s0.core.nodes && x in s.core.nodes && s.core.nodes[x].capabilities == s0.core.nodes[x].capabilities
    requires SlotOf(s.core, x) == SlotOf(s0.core, x) && Next(cfg, s, Begin(x, fate.begin(x))).Some?
    ensures var b := Begun(cfg, s0.core, fate, x);
            Next(cfg, s, Begin(x, fate.begin(x))).value == Update(s, x, b.slot, b.events, FlightAfter(b))
  {
  }

  lemma FinishStanding(cfg: Config, s0: Sys, fate: Fate, s: Sys, x: Id)
    requires var c := CourseOf(cfg, s0.core, fate); Standing(s0, c, s, x)
    requires s.core.humans == s0.core.humans && Next(cfg, s, Finish(x, fate.reply(x), fate.finish(x))).Some?
    ensures var c, t := CourseOf(cfg, s0.core, fate), Next(cfg, s, Finish(x, fate.reply(x), fate.finish(x))).value;
            Standing(s0, c, t, x) && Look(t.flights, x) == Some(Sent(c.ended[x].out))
  {
    var e := Ended(cfg, s0.core, fate, x);
    PutFrame(s.core, x, e.slot, e.events, x);
    StoreFrame(s.flights, x, Some(Sent(e.out)), x);
  }

  lemma CollectStanding(cfg: Config, s0: Sys, c: Course, s: Sys, x: Id)
    requires Standing(s0, c, s, x) && Next(cfg, s, Collect(x)).Some?
    ensures var t := Next(cfg, s, Collect(x)).value; Standing(s0, c, t, x) && Look(t.flights, x) == None
  {
    NextWrites(cfg, s, Collect(x));
    var w := Write(cfg, s, Collect(x));
    PutFrame(s.core, x, w.slot, w.events, x);
    StoreFrame(s.flights, x, w.flight, x);
  }

  /** Where the package of a step stands after it. */
  lemma OwnStanding(cfg: Config, s0: Sys, fate: Fate, s: Sys, a: Action)
    requires Foreseen(fate, a) && Next(cfg, s, a).Some? && s.core.humans == s0.core.humans
    requires Standing(s0, CourseOf(cfg, s0.core, fate), s, a.x)
    ensures Standing(s0, CourseOf(cfg, s0.core, fate), Next(cfg, s, a).value, a.x)
  {
    match a
    case Begin(x, _) => BeginStanding(cfg, s0, fate, s, x);
    case Finish(x, _, _) => FinishStanding(cfg, s0, fate, s, x);
    case Collect(x) => CollectStanding(cfg, s0, CourseOf(cfg, s0.core, fate), s, x);
  }

  lemma StepsFrame(cfg: Config, s: Sys, fate: Fate, a: Action)
    requires Foreseen(fate, a) && Next(cfg, s, a).Some?
    ensures AboutPackage(a) && a.x in s.flights
    ensures var t := Next(cfg, s, a).value;
            && t.core.humans == s.core.humans
            && t.flights.Keys == (if a.Collect? then s.flights.Keys - {a.x} else s.flights.Keys)
            && (!a.Collect? ==> t.report == s.report && t.active == s.active)
  {
  }

  lemma CollectCounts(cfg: Config, s: Sys, x: Id, slot: Slot, status: Status)
    requires Next(cfg, s, Collect(x)).Some? && SlotOf(s.core, x) == slot && s.flights[x].status == status
    ensures var t := Next(cfg, s, Collect(x)).value;
            && t.active == (status != Errored)
            && t.report == (if status == Errored then s.report else CollectOne(cfg, slot, s.report, x, status).1)
            && t.report.dispatched == s.report.dispatched + if status == Errored then 0 else 1
  {
  }

  lemma CollectReports(cfg: Config, s0: Sys, c: Course, batch: seq<Id>, s: Sys, x: Id)
    requires During(cfg, s0, c, batch, s) && Next(cfg, s, Collect(x)).Some? && x in batch
    ensures var t := Next(cfg, s, Collect(x)).value;
            if Errs(c, x) then !t.active && t.report == s.report
            else t.active && t.report == Reported(cfg, s0.report, c, (Elements(batch) - s.flights.Keys) + {x})
  {
    assert Standing(s0, c, s, x);
    CollectCounts(cfg, s, x, c.ended[x].slot, c.ended[x].out);
    if !Errs(c, x) {
      OneMoreTaken(cfg, s0.report, c, Elements(batch) - s.flights.Keys, x);
    }
  }

  lemma StepTallies(cfg: Config, s0: Sys, fate: Fate, c: Course, batch: seq<Id>, s: Sys, a: Action)
    requires During(cfg, s0, c, batch, s) && Foreseen(fate, a) && Next(cfg, s, a).Some?
    ensures Tally(cfg, s0.report, c, batch, Next(cfg, s, a).value)
  {
    var t := Next(cfg, s, a).value;
    StepsFrame(cfg, s, fate, a);
    if a.Collect? {
      CollectReports(cfg, s0, c, batch, s, a.x);
      TakenTallies(cfg, s0.report, c, batch, s, t, a.x);
    }
  }

  lemma TakenTallies(cfg: Config, r: RunReport, c: Course, batch: seq<Id>, s: Sys, t: Sys, x: Id)
    requires Tally(cfg, r, c, batch, s) && s.active && x in batch && x in s.flights
    requires t.flights.Keys == s.flights.Keys - {x}
    requires if Errs(c, x) then !t.active && t.report == s.report
             else t.active && t.report == Reported(cfg, r, c, (Elements(batch) - s.flights.Keys) + {x})
    ensures Tally(cfg, r, c, batch, t)
  {
    OneMoreMissing(batch, s.flights.Keys, x);
    if t.active {
      forall y | y in batch && y !in t.flights ensures !Errs(c, y) {
        assert y == x || y !in s.flights;
      }
    } else {
      assert x in batch && Errs(c, x);
    }
  }

  lemma OneMoreMissing(batch: seq<Id>, keys: set<Id>, x: Id)
    requires x in batch && x in keys
    ensures Elements(batch) - (keys - {x}) == (Elements(batch) - keys) + {x}
  {
  }

  lemma BatchStep(cfg: Config, s0: Sys, fate: Fate, batch: seq<Id>, s: Sys, a: Action)
    requires During(cfg, s0, CourseOf(cfg, s0.core, fate), batch, s) && Foreseen(fate, a) && Next(cfg, s, a).Some?
    ensures During(cfg, s0, CourseOf(cfg, s0.core, fate), batch, Next(cfg, s, a).value)
    ensures a.x in batch
    ensures forall y :: y in batch && y != a.x ==> Look(Next(cfg, s, a).value.flights, y) == Look(s.flights, y)
  {
    var c, t := CourseOf(cfg, s0.core, fate), Next(cfg, s, a).value;
    StepsFrame(cfg, s, fate, a);
    StepTallies(cfg, s0, fate, c, batch, s, a);
    OwnStanding(cfg, s0, fate, s, a);
    forall y | y in batch
      ensures Standing(s0, c, t, y) && (y != a.x ==> Look(t.flights, y) == Look(s.flights, y))
    {
      if y != a.x {
        OthersStand(cfg, s0, c, s, a, y);
      }
    }
  }

  lemma {:induction false} BatchRun(cfg: Config, s0: Sys, fate: Fate, batch: seq<Id>, s: Sys, acts: seq<Action>, t: Sys)
    requires During(cfg, s0, CourseOf(cfg, s0.core, fate), batch, s)
    requires AllForeseen(fate, acts) && Reaches(cfg, s, acts, t)
    ensures During(cfg, s0, CourseOf(cfg, s0.core, fate), batch, t)
    decreases |acts|
  {
    if acts != [] {
      BatchStep(cfg, s0, fate, batch, s, acts[0]);
      assert forall a :: a in acts[1..] ==> a in acts;
      BatchRun(cfg, s0, fate, batch, Next(cfg, s, acts[0]).value, acts[1..], t);
    }
  }

  // ---- how the batch can end ----

  /** Run has taken every outcome, or returned with an error. */
  predicate Over(s: Sys) {
    !s.active || s.flights == map[]
  }

  ghost predicate CanEnd(cfg: Config, s: Sys, fate: Fate, t: Sys) {
    Over(t) && exists acts :: AllForeseen(fate, acts) && Reaches(cfg, s, acts, t)
  }

  ghost predicate ReportIsFixed(cfg: Config, s: Sys, fate: Fate) {
    forall t, u :: CanEnd(cfg, s, fate, t) && CanEnd(cfg, s, fate, u) ==> t.report == u.report
  }

  /** Some dispatch of the batch ends in an error and another does not. */
  ghost predicate Mixed(c: Course, batch: seq<Id>) {
    exists x, y :: x in batch && y in batch && Errs(c, x) && !Errs(c, y)
  }

  lemma UnmixedEnd(cfg: Config, s: Sys, fate: Fate, batch: seq<Id>, t: Sys)
    requires Starts(s, batch) && !Mixed(CourseOf(cfg, s.core, fate), batch) && CanEnd(cfg, s, fate, t)
    ensures var c := CourseOf(cfg, s.core, fate);
            t.report == if Errs(c, batch[0]) then s.report else Reported(cfg, s.report, c, Elements(batch))
  {
    var acts :| AllForeseen(fate, acts) && Reaches(cfg, s, acts, t);
    BatchStarts(cfg, s, fate, batch);
    BatchRun(cfg, s, fate, batch, s, acts, t);
    TallyAtEnd(cfg, s.report, CourseOf(cfg, s.core, fate), batch, t);
  }

  lemma TallyAtEnd(cfg: Config, r: RunReport, c: Course, batch: seq<Id>, t: Sys)
    requires Tally(cfg, r, c, batch, t) && !Mixed(c, batch) && Over(t) && batch != []
    ensures t.report == if Errs(c, batch[0]) then r else Reported(cfg, r, c, Elements(batch))
  {
    assert batch[0] in batch;
    if !Errs(c, batch[0]) {
      assert Elements(batch) - t.flights.Keys == Elements(batch);
    }
  }

  // ---- a mixed batch ends in two ways ----

  lemma OneStep(cfg: Config, s: Sys, a: Action, t: Sys)
    requires Next(cfg, s, a) == Some(t)
    ensures Reaches(cfg, s, [a], t)
  {
    assert [a][1..] == [] && Reaches(cfg, t, [], t);
  }

  lemma {:induction false} Onward(cfg: Config, s: Sys, a: seq<Action>, t: Sys, b: seq<Action>, u: Sys)
    requires Reaches(cfg, s, a, t) && Reaches(cfg, t, b, u)
    ensures Reaches(cfg, s, a + b, u)
    decreases |a|
  {
    if a == [] {
      assert a + b == b;
    } else {
      assert (a + b)[0] == a[0] && (a + b)[1..] == a[1..] + b;
      Onward(cfg, Next(cfg, s, a[0]).value, a[1..], t, b, u);
    }
  }

  lemma ForeseenTogether(fate: Fate, a: seq<Action>, b: seq<Action>)
    requires AllForeseen(fate, a) && AllForeseen(fate, b)
    ensures AllForeseen(fate, a + b)
  {
    forall x | x in a + b ensures Foreseen(fate, x) {
      assert x in a || x in b;
    }
  }

  lemma OneForeseen(fate: Fate, a: Action)
    requires Foreseen(fate, a)
    ensures AllForeseen(fate, [a])
  {
  }

  lemma EndsBy(cfg: Config, s: Sys, fate: Fate, acts: seq<Action>, t: Sys)
    requires Over(t) && AllForeseen(fate, acts) && Reaches(cfg, s, acts, t)
    ensures CanEnd(cfg, s, fate, t)
  {
  }

  lemma BeginEnabled(cfg: Config, s0: Sys, fate: Fate, s: Sys, x: Id)
    requires Standing(s0, CourseOf(cfg, s0.core, fate), s, x) && Look(s.flights, x) == Some(Spawned)
    ensures Next(cfg, s, Begin(x, fate.begin(x))).Some?
    ensures var f := Look(Next(cfg, s, Begin(x, fate.begin(x))).value.flights, x);
            f.Some? && (f.value.Busy? || f.value.Sent?)
  {
    BeginStanding(cfg, s0, fate, s, x);
  }

  lemma FinishEnabled(cfg: Config, s0: Sys, fate: Fate, s: Sys, x: Id)
    requires Standing(s0, CourseOf(cfg, s0.core, fate), s, x) && s.core.humans == s0.core.humans
    requires x in s.flights && s.flights[x].Busy?
    ensures var f := Finish(x, fate.reply(x), fate.finish(x));
            Next(cfg, s, f).Some? && x in Next(cfg, s, f).value.flights && Next(cfg, s, f).value.flights[x].Sent?
  {
    FinishPossible(cfg, s, x, fate.reply(x), fate.finish(x));
    FinishStanding(cfg, s0, fate, s, x);
  }

  lemma FinishPossible(cfg: Config, s: Sys, x: Id, reply: Reply, fault: Fault)
    requires x in s.core.nodes && x in s.flights && s.flights[x].Busy?
    ensures Next(cfg, s, Finish(x, reply, fault)).Some?
  {
  }

  /** What a goroutine does to the state as it runs: its own flight only. */
  ghost predicate OnlyFlight(batch: seq<Id>, x: Id, s: Sys, t: Sys) {
    && t.active == s.active && t.report == s.report
    && forall y :: y in batch && y != x ==> Look(t.flights, y) == Look(s.flights, y)
  }

  /** The second section of a goroutine, if it is still to come. */
  lemma FinishesIfBusy(cfg: Config, s0: Sys, fate: Fate, batch: seq<Id>, s: Sys, x: Id)
    returns (acts: seq<Action>, t: Sys)
    requires During(cfg, s0, CourseOf(cfg, s0.core, fate), batch, s)
    requires x in batch && x in s.flights && !s.flights[x].Spawned?
    ensures AllForeseen(fate, acts) && Reaches(cfg, s, acts, t)
    ensures During(cfg, s0, CourseOf(cfg, s0.core, fate), batch, t)
    ensures OnlyFlight(batch, x, s, t) && x in t.flights && t.flights[x].Sent?
  {
    acts, t := [], s;
    if s.flights[x].Busy? {
      var f := Finish(x, fate.reply(x), fate.finish(x));
      assert Standing(s0, CourseOf(cfg, s0.core, fate), s, x);
      FinishEnabled(cfg, s0, fate, s, x);
      t := Next(cfg, s, f).value;
      acts := [f];
      OneStep(cfg, s, f, t);
      StepsFrame(cfg, s, fate, f);
      BatchStep(cfg, s0, fate, batch, s, f);
    }
  }

  /** The goroutine of a package runs to its end, and the others wait. */
  lemma RunsToItsEnd(cfg: Config, s0: Sys, fate: Fate, batch: seq<Id>, s: Sys, x: Id)
    returns (acts: seq<Action>, t: Sys)
    requires During(cfg, s0, CourseOf(cfg, s0.core, fate), batch, s)
    requires x in batch && Look(s.flights, x) == Some(Spawned)
    ensures AllForeseen(fate, acts) && Reaches(cfg, s, acts, t)
    ensures During(cfg, s0, CourseOf(cfg, s0.core, fate), batch, t)
    ensures OnlyFlight(batch, x, s, t) && x in t.flights && t.flights[x].Sent?
  {
    var b := Begin(x, fate.begin(x));
    assert Standing(s0, CourseOf(cfg, s0.core, fate), s, x);
    BeginEnabled(cfg, s0, fate, s, x);
    var m := Next(cfg, s, b).value;
    OneStep(cfg, s, b, m);
    StepsFrame(cfg, s, fate, b);
    BatchStep(cfg, s0, fate, batch, s, b);
    var rest;
    rest, t := FinishesIfBusy(cfg, s0, fate, batch, m, x);
    Onward(cfg, s, [b], m, rest, t);
    ForeseenTogether(fate, [b], rest);
    acts := [b] + rest;
  }

  /** The goroutine of a package runs to its end and its outcome is taken. */
  lemma IsTaken(cfg: Config, s0: Sys, fate: Fate, batch: seq<Id>, s: Sys, x: Id) returns (acts: seq<Action>, t: Sys)
    requires During(cfg, s0, CourseOf(cfg, s0.core, fate), batch, s) && s.active
    requires x in batch && Look(s.flights, x) == Some(Spawned)
    ensures AllForeseen(fate, acts) && Reaches(cfg, s, acts, t)
    ensures During(cfg, s0, CourseOf(cfg, s0.core, fate), batch, t)
    ensures if Errs(CourseOf(cfg, s0.core, fate), x) then !t.active && t.report == s.report
            else t.active && t.report.dispatched == s.report.dispatched + 1
    ensures forall y :: y in batch && y != x ==> Look(t.flights, y) == Look(s.flights, y)
  {
    var before, m := RunsToItsEnd(cfg, s0, fate, batch, s, x);
    t := TakesOutcome(cfg, s0, fate, batch, m, x);
    Onward(cfg, s, before, m, [Collect(x)], t);
    OneForeseen(fate, Collect(x));
    ForeseenTogether(fate, before, [Collect(x)]);
    acts := before + [Collect(x)];
  }

  lemma CollectEnabled(cfg: Config, s: Sys, x: Id)
    requires s.active && x in s.core.nodes && x in s.flights && s.flights[x].Sent?
    ensures Next(cfg, s, Collect(x)).Some?
  {
  }

  lemma TakesOutcome(cfg: Config, s0: Sys, fate: Fate, batch: seq<Id>, s: Sys, x: Id) returns (t: Sys)
    requires During(cfg, s0, CourseOf(cfg, s0.core, fate), batch, s) && s.active
    requires x in batch && x in s.flights && s.flights[x].Sent?
    ensures Reaches(cfg, s, [Collect(x)], t) && During(cfg, s0, CourseOf(cfg, s0.core, fate), batch, t)
    ensures if Errs(CourseOf(cfg, s0.core, fate), x) then !t.active && t.report == s.report
            else t.active && t.report.dispatched == s.report.dispatched + 1
    ensures forall y :: y in batch && y != x ==> Look(t.flights, y) == Look(s.flights, y)
  {
    var c := CourseOf(cfg, s0.core, fate);
    assert Standing(s0, c, s, x);
    CollectEnabled(cfg, s, x);
    t := Next(cfg, s, Collect(x)).value;
    OneStep(cfg, s, Collect(x), t);
    BatchStep(cfg, s0, fate, batch, s, Collect(x));
    CollectCounts(cfg, s, x, c.ended[x].slot, c.ended[x].out);
  }

  lemma MixedEnds(cfg: Config, s: Sys, fate: Fate, batch: seq<Id>) returns (t: Sys, u: Sys)
    requires Starts(s, batch) && Mixed(CourseOf(cfg, s.core, fate), batch)
    ensures CanEnd(cfg, s, fate, t) && CanEnd(cfg, s, fate, u)
    ensures t.report == s.report && u.report.dispatched == s.report.dispatched + 1
  {
    var c := CourseOf(cfg, s.core, fate);
    var x, y :| x in batch && y in batch && Errs(c, x) && !Errs(c, y);
    BatchStarts(cfg, s, fate, batch);
    var first;
    first, t := IsTaken(cfg, s, fate, batch, s, x);
    var second, m := IsTaken(cfg, s, fate, batch, s, y);
    var third;
    third, u := IsTaken(cfg, s, fate, batch, m, x);
    Onward(cfg, s, second, m, third, u);
    ForeseenTogether(fate, second, third);
    EndsBy(cfg, s, fate, first, t);
    EndsBy(cfg, s, fate, second + third, u);
  }

  /** The exact condition: what Run has counted when a batch is over depends on the order in which its
      goroutines ran exactly when some dispatch of the batch ended in an error and another did not. */
  lemma ReportIsFixedIff(cfg: Config, s: Sys, fate: Fate, batch: seq<Id>)
    requires Starts(s, batch)
    ensures ReportIsFixed(cfg, s, fate) <==> !Mixed(CourseOf(cfg, s.core, fate), batch)
  {
    if Mixed(CourseOf(cfg, s.core, fate), batch) {
      var t, u := MixedEnds(cfg, s, fate, batch);
    } else {
      forall t, u | CanEnd(cfg, s, fate, t) && CanEnd(cfg, s, fate, u) ensures t.report == u.report {
        UnmixedEnd(cfg, s, fate, batch, t);
        UnmixedEnd(cfg, s, fate, batch, u);
      }
    }
  }
}
