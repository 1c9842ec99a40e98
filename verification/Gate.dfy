/** Gates evaluated before work is accepted, and the record of human decisions. */
module Gate {
  import opened Ordering

  datatype WorkStatus = Succeeded | Failed | Partial | Blocked | Cancelled

  datatype TestOutcome = TestPassed | TestFailed | TestSkipped | TestError

  datatype TestSummary = TestSummary(name: Id, outcome: TestOutcome)

  datatype Subject = Subject(workPackage: Id, status: WorkStatus, tests: seq<TestSummary>)

  datatype Decision = Decision(gate: Id, passed: bool, pending: bool)

  /** Decisions recorded for each work package: approvals, and rejections with their reason. */
  datatype Humans = Humans(approved: set<Id>, rejected: map<Id, Id>)

  /** The two built-in gates, and gates supplied from outside. */
  datatype GateKind = TestsGate | HumanGate | OtherGate(name: Id, decide: Subject -> Decision)

  /** Names in string order: human_review before tests. */
  const HUMAN_REVIEW: Id := 1
  const TESTS: Id := 2

  datatype Report = Report(passed: bool, pending: bool, decisions: seq<Decision>)

  function GateName(g: GateKind): Id {
    match g
    case TestsGate => TESTS
    case HumanGate => HUMAN_REVIEW
    case OtherGate(name, _) => name
  }

  function Approve(h: Humans, x: Id): Humans {
    h.(approved := h.approved + {x})
  }

  function Reject(h: Humans, x: Id, reason: Id): Humans {
    Humans(h.approved - {x}, h.rejected[x := reason])
  }

  /** Rejection first, then approval, otherwise pending. */
  function Decide(g: GateKind, h: Humans, s: Subject): Decision {
    match g
    case TestsGate => Decision(TESTS, s.tests != [] && forall t :: t in s.tests ==> t.outcome == TestPassed, false)
    case HumanGate =>
      if s.workPackage in h.rejected then Decision(HUMAN_REVIEW, false, false)
      else if s.workPackage in h.approved then Decision(HUMAN_REVIEW, true, false)
      else Decision(HUMAN_REVIEW, false, true)
    case OtherGate(_, decide) => decide(s)
  }

  /** The built-in gates, and what is asked of a gate from outside. Tests never leave a subject pending; a
      person decides for good by rejecting, and leaves pending what was neither rejected nor approved. */
  lemma Verdicts(h: Humans, s: Subject, other: GateKind)
    ensures var d := Decide(TestsGate, h, s);
            && !d.pending && (d.passed <==> |s.tests| > 0 && !exists t :: t in s.tests && t.outcome != TestPassed)
    ensures var d := Decide(HumanGate, h, s);
            && (d.passed <==> s.workPackage in h.approved && s.workPackage !in h.rejected)
            && (d.pending <==> s.workPackage !in h.approved && s.workPackage !in h.rejected)
    ensures other.OtherGate? ==> Decide(other, h, s) == other.decide(s)
    ensures !other.OtherGate? ==> Decide(other, h, s).gate == GateName(other)
    ensures GateName(HumanGate) < GateName(TestsGate)
  {
  }

  predicate Passes(gates: seq<GateKind>, h: Humans, s: Subject) {
    forall i :: 0 <= i < |gates| ==> Decide(gates[i], h, s).passed && !Decide(gates[i], h, s).pending
  }

  predicate Pends(gates: seq<GateKind>, h: Humans, s: Subject) {
    exists i :: 0 <= i < |gates| && Decide(gates[i], h, s).pending
  }

  function InsertGate(g: GateKind, s: seq<GateKind>): (r: seq<GateKind>)
    ensures |r| == |s| + 1 && forall x :: x in r <==> x == g || x in s
  {
    if s == [] || GateName(g) <= GateName(s[0]) then [g] + s
    else
      assert forall x :: x in s <==> x == s[0] || x in s[1..];
      [s[0]] + InsertGate(g, s[1..])
  }

  function SortGates(s: seq<GateKind>): (r: seq<GateKind>)
    ensures |r| == |s| && forall x :: x in r <==> x in s
  {
    if s == [] then []
    else
      assert forall x :: x in s <==> x == s[0] || x in s[1..];
      InsertGate(s[0], SortGates(s[1..]))
  }

  ghost predicate ByName(s: seq<GateKind>) {
    forall i, j :: 0 <= i < j < |s| ==> GateName(s[i]) <= GateName(s[j])
  }

  lemma {:induction false} InsertKeepsGates(g: GateKind, s: seq<GateKind>)
    ensures multiset(InsertGate(g, s)) == multiset(s) + multiset{g}
  {
    if s == [] || GateName(g) <= GateName(s[0]) {
      assert multiset([g] + s) == multiset{g} + multiset(s);
    } else {
      InsertKeepsGates(g, s[1..]);
      SplitFirst(s);
      assert InsertGate(g, s)[1..] == InsertGate(g, s[1..]);
      SplitFirst(InsertGate(g, s));
    }
  }

  lemma {:induction false} InsertKeepsNames(g: GateKind, s: seq<GateKind>)
    requires ByName(s)
    ensures ByName(InsertGate(g, s))
  {
    if s != [] && GateName(g) > GateName(s[0]) {
      InsertKeepsNames(g, s[1..]);
      var rest := InsertGate(g, s[1..]);
      forall j | 0 <= j < |rest| ensures GateName(s[0]) <= GateName(rest[j]) {
        assert rest[j] in rest;
      }
    }
  }

  /** The same gates, each as often as before, by name. */
  lemma {:induction false} SortGatesByName(s: seq<GateKind>)
    ensures ByName(SortGates(s)) && multiset(SortGates(s)) == multiset(s)
  {
    if s != [] {
      SortGatesByName(s[1..]);
      InsertKeepsNames(s[0], SortGates(s[1..]));
      InsertKeepsGates(s[0], SortGates(s[1..]));
      SplitFirst(s);
    }
  }

  lemma OneMoreGate(gates: seq<GateKind>, i: nat, h: Humans, s: Subject)
    requires i < |gates|
    ensures var d := Decide(gates[i], h, s);
            && Passes(gates[..i + 1], h, s) == (Passes(gates[..i], h, s) && d.passed && !d.pending)
            && Pends(gates[..i + 1], h, s) == (Pends(gates[..i], h, s) || d.pending)
  {
    var more := gates[..i + 1];
    assert more[i] == gates[i] && forall j :: 0 <= j < i ==> more[j] == gates[..i][j];
  }

  /** Asks the gates by name. The combined outcome does not depend on that: it passes when every gate
      passes, and is pending when some gate is, whatever the others say. */
  method Evaluate(gates: seq<GateKind>, h: Humans, s: Subject) returns (report: Report)
    ensures report.passed == Passes(gates, h, s)
    ensures report.pending == Pends(gates, h, s)
    ensures report.passed <==> forall d :: d in report.decisions ==> d.passed && !d.pending
    ensures report.pending <==> exists d :: d in report.decisions && d.pending
    ensures |report.decisions| == |gates|
    ensures forall i :: 0 <= i < |gates| ==> report.decisions[i] == Decide(SortGates(gates)[i], h, s)
    ensures ByName(SortGates(gates)) && multiset(SortGates(gates)) == multiset(gates)
  {
    var sorted := SortGates(gates);
    SortGatesByName(gates);
    report := Report(true, false, []);
    for i := 0 to |sorted|
      invariant report.passed == Passes(sorted[..i], h, s)
      invariant report.pending == Pends(sorted[..i], h, s)
      invariant |report.decisions| == i
      invariant forall j :: 0 <= j < i ==> report.decisions[j] == Decide(sorted[j], h, s)
    {
      var d := Decide(sorted[i], h, s);
      OneMoreGate(sorted, i, h, s);
      report := report.(decisions := report.decisions + [d]);
      if d.pending {
        report := report.(pending := true, passed := false);
        continue;
      }
      if !d.passed {
        report := report.(passed := false);
      }
    }
    assert sorted[..|sorted|] == sorted;
    DecisionsSay(sorted, h, s, report.decisions);
    SameGatesSameOutcome(gates, sorted, h, s);
  }

  lemma DecisionsSay(gates: seq<GateKind>, h: Humans, s: Subject, decisions: seq<Decision>)
    requires |decisions| == |gates| && forall i :: 0 <= i < |gates| ==> decisions[i] == Decide(gates[i], h, s)
    ensures Passes(gates, h, s) <==> forall d :: d in decisions ==> d.passed && !d.pending
    ensures Pends(gates, h, s) <==> exists d :: d in decisions && d.pending
  {
    forall i | 0 <= i < |gates| ensures Decide(gates[i], h, s) in decisions {
      assert decisions[i] in decisions;
    }
  }

  lemma SameGatesSameOutcome(a: seq<GateKind>, b: seq<GateKind>, h: Humans, s: Subject)
    requires forall g :: g in a <==> g in b
    ensures Passes(a, h, s) == Passes(b, h, s) && Pends(a, h, s) == Pends(b, h, s)
  {
    assert forall i :: 0 <= i < |a| ==> a[i] in b;
    assert forall i :: 0 <= i < |b| ==> b[i] in a;
  }

  /** The two outcomes exclude each other. */
  lemma PassesOrPends(gates: seq<GateKind>, h: Humans, s: Subject)
    ensures !(Passes(gates, h, s) && Pends(gates, h, s))
  {
  }

  /** A rejected package never passes a set of gates with a human gate in it, whatever is approved. */
  lemma RejectedNeverPasses(gates: seq<GateKind>, h: Humans, s: Subject)
    requires HumanGate in gates && s.workPackage in h.rejected
    ensures !Passes(gates, h, s)
  {
    var i :| 0 <= i < |gates| && gates[i] == HumanGate;
    assert !Decide(gates[i], h, s).passed;
  }

  /** The human gate as the object it is in the source; Rejections are never taken back. */
  class HumanReview {
    var approved: set<Id>
    var rejected: map<Id, Id>

    function View(): Humans
      reads this
    {
      Humans(approved, rejected)
    }

    constructor ()
      ensures View() == Humans({}, map[])
    {
      approved, rejected := {}, map[];
    }

    method RecordApproval(x: Id)
      modifies this
      ensures View() == Approve(old(View()), x)
      ensures approved == old(approved) + {x} && rejected == old(rejected)
    {
      approved := approved + {x};
    }

    method RecordRejection(x: Id, reason: Id)
      modifies this
      ensures View() == Reject(old(View()), x, reason)
      ensures approved == old(approved) - {x} && rejected == old(rejected)[x := reason]
    {
      approved := approved - {x};
      rejected := rejected[x := reason];
    }
  }
}
