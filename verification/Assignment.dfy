/** The assignment state machine, its leases and its retries. */
module Assignment {
  import opened Ordering

  datatype AState =
    | Planned | Leased | Preparing | InProgress | Paused | Collecting
    | AwaitingGates | Accepted | Failure | Canceled | Expired

  /** A work package bound to a worker for one attempt, with every state it has been in. */
  datatype Binding = Binding(workPackage: Id, attempt: nat, worker: Id, state: AState, history: seq<AState>,
                             leaseUntil: Option<int>)

  predicate Allowed(from: AState, to: AState) {
    match from
    case Planned => to == Leased || to == Canceled
    case Leased => to == Preparing || to == Expired || to == Canceled
    case Preparing => to == InProgress || to == Failure || to == Expired || to == Canceled
    case InProgress => to == Paused || to == Collecting || to == Failure || to == Canceled
    case Paused => to == InProgress || to == Failure || to == Canceled
    case Collecting => to == AwaitingGates || to == Failure
    case AwaitingGates => to == Accepted || to == Failure
    case Accepted => false
    case Failure => to == Planned
    case Canceled => false
    case Expired => to == Planned
  }

  /** The moves an assignment can make, one by one. */
  lemma TableIs(from: AState, to: AState)
    ensures Allowed(from, to) <==>
              (from, to) in {
                (Planned, Leased), (Leased, Preparing), (Preparing, InProgress), (InProgress, Collecting),
                (Collecting, AwaitingGates), (AwaitingGates, Accepted),
                (InProgress, Paused), (Paused, InProgress),
                (Leased, Expired), (Preparing, Expired), (Expired, Planned), (Failure, Planned),
                (Preparing, Failure), (InProgress, Failure), (Paused, Failure), (Collecting, Failure),
                (AwaitingGates, Failure),
                (Planned, Canceled), (Leased, Canceled), (Preparing, Canceled), (InProgress, Canceled),
                (Paused, Canceled)}
  {
  }

  /** An assignment is accepted from its gates only, and what is accepted or canceled stays so. */
  lemma {:induction false} AcceptedFromGates(a: Binding)
    requires LegalHistory(a)
    ensures a.state == Accepted ==> |a.history| >= 2 && a.history[|a.history| - 2] == AwaitingGates
    ensures forall i :: 0 <= i < |a.history| - 1 ==> a.history[i] != Accepted && a.history[i] != Canceled
  {
    forall i | 0 <= i < |a.history| - 1 ensures a.history[i] != Accepted && a.history[i] != Canceled {
      assert Allowed(a.history[i], a.history[i + 1]);
    }
    if a.state == Accepted {
      assert |a.history| > 1 && Allowed(a.history[|a.history| - 2], a.history[|a.history| - 2 + 1]);
    }
  }

  predicate CanTransition(a: Binding, to: AState) {
    a.state == to || Allowed(a.state, to)
  }

  /** An illegal transition is an error and leaves the assignment as it is. */
  function Transition(a: Binding, to: AState): Binding {
    if a.state != to && Allowed(a.state, to) then a.(state := to, history := a.history + [to]) else a
  }

  function NewBinding(x: Id, attempt: nat, worker: Id): Binding {
    Binding(x, attempt, worker, Planned, [Planned], None)
  }

  function Expire(a: Binding, now: int): Binding {
    if (a.state == Leased || a.state == Preparing) && (a.leaseUntil.None? || a.leaseUntil.value <= now)
    then Transition(a, Expired) else a
  }

  function Retry(a: Binding): Option<Binding> {
    if a.state == Expired || a.state == Failure
    then Some(Transition(a, Planned).(attempt := a.attempt + 1, leaseUntil := None)) else None
  }

  /** Every step of the history is a move the table allows, and the history ends in the present. */
  ghost predicate LegalHistory(a: Binding) {
    && a.history != [] && a.history[0] == Planned && a.history[|a.history| - 1] == a.state
    && forall i :: 0 <= i < |a.history| - 1 ==> Allowed(a.history[i], a.history[i + 1])
  }

  lemma TransitionKeepsHistoryLegal(a: Binding, to: AState)
    requires LegalHistory(a)
    ensures LegalHistory(Transition(a, to)) && a.history <= Transition(a, to).history
    ensures Transition(a, to).state == if CanTransition(a, to) then to else a.state
  {
  }

  /** An attempt that expired or failed, and only such a one, can be planned again as the next attempt. */
  lemma RetryPlansNextAttempt(a: Binding, now: int)
    requires LegalHistory(a)
    ensures LegalHistory(Expire(a, now)) && a.history <= Expire(a, now).history
    ensures Retry(a).Some? <==> Allowed(a.state, Planned)
    ensures Retry(a).Some? ==>
              var r := Retry(a).value;
              && LegalHistory(r) && r.history == a.history + [Planned]
              && r.attempt == a.attempt + 1 && r.leaseUntil.None?
    ensures Expire(a, now).state == Expired && a.state != Expired ==> Retry(Expire(a, now)).Some?
    ensures Expire(a, now) != a <==>
              && (a.state == Leased || a.state == Preparing)
              && (a.leaseUntil == None || exists until :: a.leaseUntil == Some(until) && until <= now)
  {
    TransitionKeepsHistoryLegal(a, Expired);
    TransitionKeepsHistoryLegal(a, Planned);
  }

  /** What one attempt goes through on its way to the gates. */
  const TO_GATES: seq<AState> := [Planned, Leased, Preparing, InProgress, Collecting, AwaitingGates]
}
