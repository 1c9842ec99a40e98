/** Live subscriptions of the journal: the backlog is snapshotted under the journal's lock but sent
    outside it, and so is every appended event, so appends, deliveries and backlog sends interleave. */
module Subscriptions {
  import opened Ordering
  import opened Journal

  /** Room a subscription's channel has beyond its backlog. */
  const SLACK: nat := 64

  type SubId = nat

  /** queue is the channel's buffer; received and lost record what left it and what never got in. */
  datatype Sub = Sub(
    from: int, startedAt: nat, capacity: nat, backlog: seq<Event>, queue: seq<Event>,
    received: seq<Event>, lost: seq<Event>, dropped: nat, registered: bool, closed: bool)

  /** pending holds the deliveries that appenders still have to make after releasing the lock. */
  datatype St = St(log: Log, subs: map<SubId, Sub>, pending: set<(SubId, Event)>)

  datatype Action =
    | Append(ev: Event)
    | Deliver(s: SubId, ev: Event)
    | Subscribe(s: SubId, from: int)
    | SendBacklog(s: SubId)
    | Receive(s: SubId)
    | CloseSub(s: SubId)
    | Remove(s: SubId)
    | CloseJournal

  function Registered(subs: map<SubId, Sub>): set<SubId> {
    set s | s in subs && subs[s].registered
  }

  function Copies(to: set<SubId>, ev: Event): set<(SubId, Event)> {
    set s | s in to :: (s, ev)
  }

  /** A delivery never blocks: it enqueues, or counts a drop when the buffer is full. */
  function DeliverTo(sub: Sub, ev: Event): Sub {
    if sub.closed then sub
    else if |sub.queue| < sub.capacity then sub.(queue := sub.queue + [ev])
    else sub.(lost := sub.lost + [ev], dropped := sub.dropped + 1)
  }

  function Opened(log: Log, from: int): Sub {
    var backlog := From(log.events, from);
    Sub(from, log.next, |backlog| + SLACK, backlog, [], [], [], 0, true, false)
  }

  /** One step, or None when it is not enabled. */
  function Next(st: St, a: Action, acceptable: Id -> bool): Option<St> {
    match a
    case Append(ev) =>
      if !Accepts(st.log, ev, acceptable) then None
      else Some(st.(log := AppendTo(st.log, ev, acceptable),
                    pending := st.pending + Copies(Registered(st.subs), Stamp(ev, st.log.next))))
    case Deliver(s, ev) =>
      if (s, ev) !in st.pending || s !in st.subs then None
      else Some(st.(subs := st.subs[s := DeliverTo(st.subs[s], ev)], pending := st.pending - {(s, ev)}))
    case Subscribe(s, from) =>
      if s in st.subs || st.log.closed then None
      else Some(st.(subs := st.subs[s := Opened(st.log, from)]))
    case SendBacklog(s) =>
      if s !in st.subs || st.subs[s].closed || st.subs[s].backlog == [] || |st.subs[s].queue| >= st.subs[s].capacity
          then None
      else
        var sub := st.subs[s];
        Some(st.(subs := st.subs[s := sub.(queue := sub.queue + [sub.backlog[0]], backlog := sub.backlog[1..])]))
    case Receive(s) =>
      // the subscriber holds the channel only once its backlog has been sent
      if s !in st.subs || st.subs[s].backlog != [] || st.subs[s].queue == [] then None
      else
        var sub := st.subs[s];
        Some(st.(subs := st.subs[s := sub.(received := sub.received + [sub.queue[0]], queue := sub.queue[1..])]))
    case CloseSub(s) =>
      if s !in st.subs || (st.subs[s].backlog != [] && !st.log.closed) then None
      else Some(st.(subs := st.subs[s := st.subs[s].(closed := true)]))
    case Remove(s) =>
      if s !in st.subs || !st.subs[s].closed then None
      else Some(st.(subs := st.subs[s := st.subs[s].(registered := false)]))
    case CloseJournal =>
      Some(St(st.log.(closed := true), map s | s in st.subs :: st.subs[s].(registered := false), st.pending))
  }

  function Run(st: St, actions: seq<Action>, acceptable: Id -> bool): Option<St>
    decreases actions
  {
    if actions == [] then Some(st)
    else
      var after := Next(st, actions[0], acceptable);
      if after.None? then None else Run(after.value, actions[1..], acceptable)
  }

  const START: St := St(Log([], 0, false), map[], {})

  // ---- accounting ----

  function Count(s: seq<Event>, e: Event): nat {
    multiset(s)[e]
  }

  /** In how many places, and how often, an event is on record for a subscription. */
  function Tally(sub: Sub, waiting: bool, e: Event): nat {
    Count(sub.received, e) + Count(sub.queue, e) + Count(sub.lost, e) + Count(sub.backlog, e) + if waiting then 1 else 0
  }

  /** The events a subscription is owed: those at or after from, and in any case all later ones. */
  ghost predicate Owed(log: Log, sub: Sub, e: Event) {
    e in log.events && e.sequence >= Min(sub.from, sub.startedAt)
  }

  /** Exactly once: an owed event is in one place, one time; nothing else is anywhere. */
  ghost predicate Accounted(st: St, s: SubId, e: Event)
    requires s in st.subs
  {
    Tally(st.subs[s], (s, e) in st.pending, e) == if Owed(st.log, st.subs[s], e) then 1 else 0
  }

  ghost predicate SubOk(log: Log, sub: Sub) {
    && sub.startedAt <= log.next
    && sub.dropped == |sub.lost|
    && (!sub.closed && !log.closed ==> sub.registered)
    && (log.closed ==> !sub.registered)
    && (sub.received != [] ==> sub.backlog == [])
    && |sub.queue| <= sub.capacity
  }

  ghost predicate Consistent(st: St) {
    && LogOk(st.log)
    && (forall p :: p in st.pending ==> p.0 in st.subs)
    && (forall s :: s in st.subs ==> SubOk(st.log, st.subs[s]))
    && (forall s, e :: s in st.subs && !st.subs[s].closed ==> Accounted(st, s, e))
  }

  lemma CountConcat(a: seq<Event>, b: seq<Event>, e: Event)
    ensures Count(a + b, e) == Count(a, e) + Count(b, e)
  {
  }

  lemma CountOne(x: Event, e: Event)
    ensures Count([x], e) == if x == e then 1 else 0
  {
  }

  lemma CountFirst(s: seq<Event>, e: Event)
    requires s != []
    ensures Count(s, e) == Count(s[1..], e) + if s[0] == e then 1 else 0
  {
    SplitFirst(s);
  }

  lemma CountEvents(s: seq<Event>, e: Event)
    requires Rising(s)
    ensures Count(s, e) == if e in s then 1 else 0
  {
    assert Distinct(s);
    DistinctCardinality(s);
  }

  lemma AppendAccounts(st: St, ev: Event, acceptable: Id -> bool, s: SubId, e: Event)
    requires Consistent(st) && Accepts(st.log, ev, acceptable) && s in st.subs && !st.subs[s].closed
    ensures Accounted(Next(st, Append(ev), acceptable).value, s, e)
  {
    var after := Next(st, Append(ev), acceptable).value;
    var stored := Stamp(ev, st.log.next);
    assert Accounted(st, s, e);
    assert stored !in st.log.events;
    assert s in Registered(st.subs);
    assert (s, e) in Copies(Registered(st.subs), stored) <==> e == stored;
    assert e in after.log.events <==> e in st.log.events || e == stored;
  }

  lemma DeliverAccounts(st: St, d: SubId, ev: Event, acceptable: Id -> bool, s: SubId, e: Event)
    requires Consistent(st) && (d, ev) in st.pending && d in st.subs
    requires s in st.subs && !st.subs[s].closed
    ensures Accounted(Next(st, Deliver(d, ev), acceptable).value, s, e)
  {
    assert Accounted(st, s, e);
    if s == d {
      CountOne(ev, e);
      CountConcat(st.subs[s].queue, [ev], e);
      CountConcat(st.subs[s].lost, [ev], e);
    }
  }

  lemma SubscribeAccounts(st: St, n: SubId, from: int, acceptable: Id -> bool, s: SubId, e: Event)
    requires Consistent(st) && n !in st.subs && !st.log.closed
    requires s in st.subs[n := Opened(st.log, from)] && !(st.subs[n := Opened(st.log, from)][s].closed)
    ensures Accounted(Next(st, Subscribe(n, from), acceptable).value, s, e)
  {
    if s == n {
      FromRises(st.log.events, from);
      CountEvents(From(st.log.events, from), e);
      assert (n, e) !in st.pending;
    } else {
      assert Accounted(st, s, e);
    }
  }

  lemma SendAccounts(st: St, d: SubId, acceptable: Id -> bool, s: SubId, e: Event)
    requires Consistent(st) && Next(st, SendBacklog(d), acceptable).Some?
    requires s in st.subs && !st.subs[s].closed
    ensures Accounted(Next(st, SendBacklog(d), acceptable).value, s, e)
  {
    assert Accounted(st, s, e);
    if s == d {
      var sub := st.subs[s];
      CountFirst(sub.backlog, e);
      CountOne(sub.backlog[0], e);
      CountConcat(sub.queue, [sub.backlog[0]], e);
    }
  }

  lemma ReceiveAccounts(st: St, d: SubId, acceptable: Id -> bool, s: SubId, e: Event)
    requires Consistent(st) && Next(st, Receive(d), acceptable).Some?
    requires s in st.subs && !st.subs[s].closed
    ensures Accounted(Next(st, Receive(d), acceptable).value, s, e)
  {
    assert Accounted(st, s, e);
    if s == d {
      var sub := st.subs[s];
      CountFirst(sub.queue, e);
      CountOne(sub.queue[0], e);
      CountConcat(sub.received, [sub.queue[0]], e);
    }
  }

  lemma StepAccounts(st: St, a: Action, acceptable: Id -> bool, s: SubId, e: Event)
    requires Consistent(st) && Next(st, a, acceptable).Some?
    requires s in Next(st, a, acceptable).value.subs && !Next(st, a, acceptable).value.subs[s].closed
    ensures Accounted(Next(st, a, acceptable).value, s, e)
  {
    match a {
      case Append(ev) => AppendAccounts(st, ev, acceptable, s, e);
      case Deliver(d, ev) => DeliverAccounts(st, d, ev, acceptable, s, e);
      case Subscribe(n, from) => SubscribeAccounts(st, n, from, acceptable, s, e);
      case SendBacklog(d) => SendAccounts(st, d, acceptable, s, e);
      case Receive(d) => ReceiveAccounts(st, d, acceptable, s, e);
      case CloseSub(_) => assert Accounted(st, s, e);
      case Remove(_) => assert Accounted(st, s, e);
      case CloseJournal => assert Accounted(st, s, e);
    }
  }

  lemma StepKeepsSubs(st: St, a: Action, acceptable: Id -> bool, s: SubId)
    requires Consistent(st) && Next(st, a, acceptable).Some? && s in Next(st, a, acceptable).value.subs
    ensures SubOk(Next(st, a, acceptable).value.log, Next(st, a, acceptable).value.subs[s])
  {
    if s in st.subs {
      assert SubOk(st.log, st.subs[s]);
    }
  }

  lemma StepKeepsConsistent(st: St, a: Action, acceptable: Id -> bool)
    requires Consistent(st) && Next(st, a, acceptable).Some?
    ensures Consistent(Next(st, a, acceptable).value)
  {
    var after := Next(st, a, acceptable).value;
    forall s | s in after.subs ensures SubOk(after.log, after.subs[s]) {
      StepKeepsSubs(st, a, acceptable, s);
    }
    forall s, e | s in after.subs && !after.subs[s].closed ensures Accounted(after, s, e) {
      StepAccounts(st, a, acceptable, s, e);
    }
    if a.Append? {
      AppendKeepsLogOk(st.log, a.ev, acceptable);
    }
  }

  lemma {:induction false} RunKeepsConsistent(st: St, actions: seq<Action>, acceptable: Id -> bool)
    requires Consistent(st) && Run(st, actions, acceptable).Some?
    ensures Consistent(Run(st, actions, acceptable).value)
    decreases actions
  {
    if actions != [] {
      StepKeepsConsistent(st, actions[0], acceptable);
      RunKeepsConsistent(Next(st, actions[0], acceptable).value, actions[1..], acceptable);
    }
  }

  /** Over every interleaving: an open subscription's events sent, lost, still in its backlog or still
      to be delivered are exactly the journaled events at or after its start, none of them twice, and
      the drop counter counts the lost ones. */
  lemma ExactlyOnce(actions: seq<Action>, acceptable: Id -> bool, s: SubId)
    requires Run(START, actions, acceptable).Some?
    requires s in Run(START, actions, acceptable).value.subs
    requires !Run(START, actions, acceptable).value.subs[s].closed
    ensures var st := Run(START, actions, acceptable).value;
            var sub := st.subs[s];
            var waiting := set p | p in st.pending && p.0 == s :: p.1;
            && multiset(sub.received) + multiset(sub.queue) + multiset(sub.lost) + multiset(sub.backlog)
                + multiset(waiting)
               == multiset(From(st.log.events, Min(sub.from, sub.startedAt)))
            && sub.dropped == |sub.lost|
  {
    RunKeepsConsistent(START, actions, acceptable);
    var st := Run(START, actions, acceptable).value;
    var sub := st.subs[s];
    var waiting := set p | p in st.pending && p.0 == s :: p.1;
    var owed := From(st.log.events, Min(sub.from, sub.startedAt));
    var all := multiset(sub.received) + multiset(sub.queue) + multiset(sub.lost) + multiset(sub.backlog)
        + multiset(waiting);
    FromRises(st.log.events, Min(sub.from, sub.startedAt));
    forall e ensures all[e] == multiset(owed)[e] {
      assert Accounted(st, s, e);
      CountEvents(owed, e);
      assert (s, e) in st.pending <==> e in waiting by {
        if (s, e) in st.pending {
          assert (s, e).1 in waiting;
        }
      }
    }
  }

  // ---- when Subscribe returns ----

  /** How many of the events were journaled after the subscription started. */
  function LiveIn(s: seq<Event>, startedAt: int): nat {
    if s == [] then 0 else LiveIn(s[..|s| - 1], startedAt) + if s[|s| - 1].sequence >= startedAt then 1 else 0
  }

  /** While the backlog is being sent nothing is received, and the buffer holds the part already sent
      and the live events that got in between. */
  ghost predicate Filling(st: St, s: SubId)
    requires s in st.subs
  {
    var sub := st.subs[s];
    && (forall e :: e in sub.backlog ==> e.sequence < sub.startedAt)
    && (forall e :: (s, e) in st.pending ==> sub.startedAt <= e.sequence)
    && |sub.backlog| + SLACK <= sub.capacity
    && (sub.backlog != [] ==> |sub.queue| == LiveIn(sub.queue, sub.startedAt) + sub.capacity - SLACK - |sub.backlog|)
  }

  lemma LiveInOneMore(s: seq<Event>, e: Event, startedAt: int)
    ensures LiveIn(s + [e], startedAt) == LiveIn(s, startedAt) + if e.sequence >= startedAt then 1 else 0
  {
    assert (s + [e])[..|s|] == s;
  }

  lemma DeliverKeepsFilling(st: St, d: SubId, ev: Event, acceptable: Id -> bool, s: SubId)
    requires (d, ev) in st.pending && d in st.subs && s in st.subs && Filling(st, s)
    ensures Filling(Next(st, Deliver(d, ev), acceptable).value, s)
  {
    LiveInOneMore(st.subs[s].queue, ev, st.subs[s].startedAt);
  }

  lemma SendKeepsFilling(st: St, d: SubId, acceptable: Id -> bool, s: SubId)
    requires Consistent(st) && Next(st, SendBacklog(d), acceptable).Some? && s in st.subs && Filling(st, s)
    ensures Filling(Next(st, SendBacklog(d), acceptable).value, s)
  {
    if d == s {
      assert st.subs[s].backlog[0] in st.subs[s].backlog;
      LiveInOneMore(st.subs[s].queue, st.subs[s].backlog[0], st.subs[s].startedAt);
    }
  }

  lemma StepKeepsFilling(st: St, a: Action, acceptable: Id -> bool, s: SubId)
    requires Consistent(st) && Next(st, a, acceptable).Some? && s in Next(st, a, acceptable).value.subs
    requires s in st.subs ==> Filling(st, s)
    ensures Filling(Next(st, a, acceptable).value, s)
  {
    match a {
      case Append(ev) => assert SubOk(st.log, st.subs[s]);
      case Deliver(d, ev) => DeliverKeepsFilling(st, d, ev, acceptable, s);
      case SendBacklog(d) => SendKeepsFilling(st, d, acceptable, s);
      case Subscribe(_, _) =>
      case Receive(_) =>
      case CloseSub(_) =>
      case Remove(_) =>
      case CloseJournal =>
    }
  }

  lemma {:induction false} RunKeepsFilling(st: St, actions: seq<Action>, acceptable: Id -> bool, s: SubId)
    requires Consistent(st) && Run(st, actions, acceptable).Some? && s in Run(st, actions, acceptable).value.subs
    requires s in st.subs ==> Filling(st, s)
    ensures Filling(Run(st, actions, acceptable).value, s)
    decreases actions
  {
    if actions != [] {
      var after := Next(st, actions[0], acceptable).value;
      StepKeepsConsistent(st, actions[0], acceptable);
      if s in after.subs {
        StepKeepsFilling(st, actions[0], acceptable, s);
      }
      RunKeepsFilling(after, actions[1..], acceptable, s);
    }
  }

  /** Subscribe can send its next backlog event exactly while fewer live events than the slack and the
      rest of the backlog together have got into the buffer: sixty-four of them never block it. */
  lemma BacklogFitsIff(actions: seq<Action>, acceptable: Id -> bool, s: SubId)
    requires Run(START, actions, acceptable).Some? && s in Run(START, actions, acceptable).value.subs
    requires var sub := Run(START, actions, acceptable).value.subs[s]; !sub.closed && sub.backlog != []
    ensures var st := Run(START, actions, acceptable).value;
            var sub := st.subs[s];
            Next(st, SendBacklog(s), acceptable).Some? <==> LiveIn(sub.queue, sub.startedAt) < 64 + |sub.backlog|
  {
    RunKeepsFilling(START, actions, acceptable, s);
  }

  ghost predicate Stuck(st: St, s: SubId) {
    s in st.subs && st.subs[s].backlog != [] && |st.subs[s].queue| >= st.subs[s].capacity
  }

  /** A Subscribe whose buffer filled up before its backlog was sent does not return: nothing empties the
      buffer, and all that could end its wait is a close of the journal, at which its send panics. */
  lemma {:induction false} StuckStays(st: St, actions: seq<Action>, acceptable: Id -> bool, s: SubId)
    requires Stuck(st, s) && Run(st, actions, acceptable).Some?
    ensures Stuck(Run(st, actions, acceptable).value, s)
    ensures Run(st, actions, acceptable).value.subs[s].backlog == st.subs[s].backlog
    decreases actions
  {
    if actions != [] {
      StuckStays(Next(st, actions[0], acceptable).value, actions[1..], acceptable, s);
    }
  }

  /** An append and its delivery to an open subscriber with room put one more live event in the buffer. */
  lemma AppendAndDeliver(st: St, s: SubId, ev: Event, acceptable: Id -> bool) returns (end: St)
    requires Accepts(st.log, ev, acceptable) && s in st.subs && st.subs[s].registered && !st.subs[s].closed
    requires |st.subs[s].queue| < st.subs[s].capacity
    ensures Run(st, [Append(ev), Deliver(s, Stamp(ev, st.log.next))], acceptable) == Some(end)
    ensures end.log == AppendTo(st.log, ev, acceptable) && s in end.subs
    ensures end.subs[s] == st.subs[s].(queue := st.subs[s].queue + [Stamp(ev, st.log.next)])
  {
    var stored := Stamp(ev, st.log.next);
    var mid := Next(st, Append(ev), acceptable).value;
    assert (s, stored) in mid.pending by {
      assert s in Registered(st.subs);
    }
    end := Next(mid, Deliver(s, stored), acceptable).value;
    assert [Append(ev), Deliver(s, stored)][1..] == [Deliver(s, stored)];
    assert Run(end, [], acceptable) == Some(end);
    assert Run(mid, [Deliver(s, stored)], acceptable) == Some(end);
  }

  lemma {:induction false} RunConcat(st: St, a: seq<Action>, b: seq<Action>, acceptable: Id -> bool)
    requires Run(st, a, acceptable).Some?
    ensures Run(st, a + b, acceptable) == Run(Run(st, a, acceptable).value, b, acceptable)
    decreases a
  {
    if a == [] {
      assert a + b == b;
    } else {
      assert (a + b)[0] == a[0] && (a + b)[1..] == a[1..] + b;
      RunConcat(Next(st, a[0], acceptable).value, a[1..], b, acceptable);
    }
  }

  /** n such pairs fill n places of the buffer. */
  lemma {:induction false} FillBuffer(st: St, s: SubId, ev: Event, n: nat, acceptable: Id -> bool)
    returns (actions: seq<Action>, end: St)
    requires ev.version == VERSION && acceptable(ev.content) && !st.log.closed
    requires s in st.subs && st.subs[s].registered && !st.subs[s].closed
    requires |st.subs[s].queue| + n <= st.subs[s].capacity
    ensures Run(st, actions, acceptable) == Some(end) && s in end.subs
    ensures |end.subs[s].queue| == |st.subs[s].queue| + n
    ensures end.subs[s].(queue := []) == st.subs[s].(queue := [])
    decreases n
  {
    if n == 0 {
      actions, end := [], st;
    } else {
      var mid := AppendAndDeliver(st, s, ev, acceptable);
      var rest;
      rest, end := FillBuffer(mid, s, ev, n - 1, acceptable);
      var first := [Append(ev), Deliver(s, Stamp(ev, st.log.next))];
      RunConcat(st, first, rest, acceptable);
      actions := first + rest;
    }
  }

  /** One backlog event and sixty-five live ones are enough: Subscribe can really be held like that. */
  lemma SubscribeGetsStuck(acceptable: Id -> bool, content: Id) returns (actions: seq<Action>)
    requires acceptable(content)
    ensures Run(START, actions, acceptable).Some? && Stuck(Run(START, actions, acceptable).value, 0)
  {
    var e := Event(VERSION, content, 0);
    var before := [Append(e), Subscribe(0, 0)];
    SubscribeOne(e, acceptable);
    var st := Run(START, before, acceptable).value;
    var after, end := FillBuffer(st, 0, e, 1 + SLACK, acceptable);
    RunConcat(START, before, after, acceptable);
    actions := before + after;
  }

  // ---- delivery order ----

  function Sent(sub: Sub): seq<Event> {
    sub.received + sub.queue
  }

  /** A delivery that does not overtake: the backlog is out and no smaller event still waits. */
  ghost predicate InTurn(st: St, s: SubId, ev: Event)
    requires s in st.subs
  {
    st.subs[s].backlog == [] && forall e :: (s, e) in st.pending && e != ev ==> ev.sequence < e.sequence
  }

  /** The buffer takes the event, and more can follow it: the buffer does not fill up on a backlog. */
  predicate GetsIn(sub: Sub) {
    !sub.closed && |sub.queue| < sub.capacity && (sub.backlog == [] || |sub.queue| + 2 <= sub.capacity)
  }

  /** Every delivery to s that gets in takes its turn; what is dropped or stays last may come anyhow. */
  ghost predicate Orderly(st: St, a: Action, s: SubId) {
    a.Deliver? && a.s == s && s in st.subs && GetsIn(st.subs[s]) ==> InTurn(st, s, a.ev)
  }

  ghost predicate AllOrderly(st: St, actions: seq<Action>, acceptable: Id -> bool, s: SubId)
    requires Run(st, actions, acceptable).Some?
    decreases actions
  {
    actions == []
    || (Orderly(st, actions[0], s) && AllOrderly(Next(st, actions[0], acceptable).value, actions[1..], acceptable, s))
  }

  /** Sent before backlog before pending before the next sequence. */
  ghost predicate InLine(st: St, s: SubId)
    requires s in st.subs
  {
    var sub := st.subs[s];
    && Rising(Sent(sub)) && Rising(sub.backlog)
    && (forall x, y :: x in Sent(sub) && y in sub.backlog ==> x.sequence < y.sequence)
    && (forall x, y :: x in Sent(sub) && (s, y) in st.pending ==> x.sequence < y.sequence)
    && (forall x :: x in Sent(sub) || x in sub.backlog || (s, x) in st.pending ==> x.sequence < st.log.next)
  }

  lemma RisingOneMore(s: seq<Event>, e: Event)
    requires Rising(s) && forall x :: x in s ==> x.sequence < e.sequence
    ensures Rising(s + [e]) && forall x :: x in s + [e] <==> x in s || x == e
  {
    forall i | 0 <= i < |s| ensures s[i].sequence < e.sequence {
      assert s[i] in s;
    }
    assert (s + [e])[|s|] == e;
  }

  lemma AppendKeepsInLine(st: St, ev: Event, acceptable: Id -> bool, s: SubId)
    requires Accepts(st.log, ev, acceptable) && s in st.subs && InLine(st, s)
    ensures InLine(Next(st, Append(ev), acceptable).value, s)
  {
  }

  lemma DeliverKeepsInLine(st: St, d: SubId, ev: Event, acceptable: Id -> bool, s: SubId)
    requires (d, ev) in st.pending && d in st.subs && s in st.subs && InLine(st, s)
    requires d == s && GetsIn(st.subs[s]) ==> InTurn(st, s, ev)
    ensures OrderHolds(Next(st, Deliver(d, ev), acceptable).value, s)
  {
    var sub := st.subs[s];
    if s == d && !sub.closed && |sub.queue| < sub.capacity {
      RisingOneMore(Sent(sub), ev);
      ConcatAssociates(sub.received, sub.queue, [ev]);
    }
  }

  lemma SendKeepsInLine(st: St, d: SubId, acceptable: Id -> bool, s: SubId)
    requires Next(st, SendBacklog(d), acceptable).Some? && s in st.subs && InLine(st, s) && Filling(st, s)
    ensures InLine(Next(st, SendBacklog(d), acceptable).value, s)
  {
    if s == d {
      var sub := st.subs[s];
      assert sub.backlog[0] in sub.backlog;
      RisingOneMore(Sent(sub), sub.backlog[0]);
      ConcatAssociates(sub.received, sub.queue, [sub.backlog[0]]);
    }
  }

  lemma ReceiveKeepsSent(sub: Sub)
    requires sub.queue != []
    ensures Sent(sub.(received := sub.received + [sub.queue[0]], queue := sub.queue[1..])) == Sent(sub)
  {
  }

  lemma SubscribeKeepsInLine(st: St, n: SubId, from: int, acceptable: Id -> bool, s: SubId)
    requires Consistent(st) && Next(st, Subscribe(n, from), acceptable).Some?
        && (s == n || (s in st.subs && InLine(st, s)))
    ensures InLine(Next(st, Subscribe(n, from), acceptable).value, s)
  {
    if n == s {
      FromRises(st.log.events, from);
    }
  }

  /** Either all is in line, or nothing will ever be sent again. */
  ghost predicate OrderHolds(st: St, s: SubId)
    requires s in st.subs
  {
    Rising(Sent(st.subs[s])) && (InLine(st, s) || Stuck(st, s))
  }

  lemma StuckKeepsSent(st: St, a: Action, acceptable: Id -> bool, s: SubId)
    requires Stuck(st, s) && Next(st, a, acceptable).Some?
    ensures Stuck(Next(st, a, acceptable).value, s)
    ensures Sent(Next(st, a, acceptable).value.subs[s]) == Sent(st.subs[s])
  {
  }

  /** Receiving and closing move nothing that is sent or waits. */
  lemma OtherStepKeepsInLine(st: St, a: Action, acceptable: Id -> bool, s: SubId)
    requires a.Receive? || a.CloseSub? || a.Remove? || a.CloseJournal?
    requires Next(st, a, acceptable).Some? && s in st.subs && InLine(st, s)
    ensures InLine(Next(st, a, acceptable).value, s)
  {
    if a == Receive(s) {
      ReceiveKeepsSent(st.subs[s]);
    }
  }

  lemma StepKeepsOrder(st: St, a: Action, acceptable: Id -> bool, s: SubId)
    requires Consistent(st) && Next(st, a, acceptable).Some? && s in Next(st, a, acceptable).value.subs
    requires Orderly(st, a, s) && (s in st.subs ==> OrderHolds(st, s) && Filling(st, s))
    ensures OrderHolds(Next(st, a, acceptable).value, s)
  {
    if Stuck(st, s) {
      StuckKeepsSent(st, a, acceptable, s);
    } else {
      match a {
        case Append(ev) => AppendKeepsInLine(st, ev, acceptable, s);
        case Deliver(d, ev) => DeliverKeepsInLine(st, d, ev, acceptable, s);
        case Subscribe(n, from) => SubscribeKeepsInLine(st, n, from, acceptable, s);
        case SendBacklog(d) => SendKeepsInLine(st, d, acceptable, s);
        case _ => OtherStepKeepsInLine(st, a, acceptable, s);
      }
    }
  }

  lemma {:induction false} RunKeepsOrder(st: St, actions: seq<Action>, acceptable: Id -> bool, s: SubId)
    requires Consistent(st) && Run(st, actions, acceptable).Some? && AllOrderly(st, actions, acceptable, s)
    requires s in st.subs ==> OrderHolds(st, s) && Filling(st, s)
    requires s in Run(st, actions, acceptable).value.subs
    ensures OrderHolds(Run(st, actions, acceptable).value, s)
    decreases actions
  {
    if actions != [] {
      var after := Next(st, actions[0], acceptable).value;
      StepKeepsConsistent(st, actions[0], acceptable);
      if s in after.subs {
        StepKeepsOrder(st, actions[0], acceptable, s);
        StepKeepsFilling(st, actions[0], acceptable, s);
      }
      RunKeepsOrder(after, actions[1..], acceptable, s);
    }
  }

  /** Events reach a subscriber in sequence order when every delivery that gets in takes its turn. */
  lemma OrderlyRunsDeliverInOrder(actions: seq<Action>, acceptable: Id -> bool, s: SubId)
    requires Run(START, actions, acceptable).Some? && AllOrderly(START, actions, acceptable, s)
    requires s in Run(START, actions, acceptable).value.subs
    ensures Rising(Sent(Run(START, actions, acceptable).value.subs[s]))
  {
    RunKeepsOrder(START, actions, acceptable, s);
  }

  /** Every orderly way to go on leaves the subscriber in order. */
  ghost predicate StaysInOrder(st: St, acceptable: Id -> bool, s: SubId) {
    forall actions :: Run(st, actions, acceptable).Some? && AllOrderly(st, actions, acceptable, s)
                      && s in Run(st, actions, acceptable).value.subs
                      ==> Rising(Sent(Run(st, actions, acceptable).value.subs[s]))
  }

  /** Delivered while the backlog is still being sent: the next backlog event comes out of order. */
  lemma OvertakingTheBacklog(st: St, s: SubId, ev: Event, acceptable: Id -> bool)
    requires s in st.subs && Filling(st, s) && (s, ev) in st.pending
    requires GetsIn(st.subs[s]) && st.subs[s].backlog != []
    ensures !StaysInOrder(Next(st, Deliver(s, ev), acceptable).value, acceptable, s)
  {
    var mid := Next(st, Deliver(s, ev), acceptable).value;
    var sub := mid.subs[s];
    var end := Next(mid, SendBacklog(s), acceptable).value;
    assert Run(end, [], acceptable) == Some(end);
    assert [SendBacklog(s)][1..] == [];
    assert AllOrderly(end, [], acceptable, s);
    assert Run(mid, [SendBacklog(s)], acceptable) == Some(end) && AllOrderly(mid, [SendBacklog(s)], acceptable, s);
    assert sub.backlog[0] in st.subs[s].backlog;
    var n := |Sent(st.subs[s])|;
    assert Sent(end.subs[s])[n] == ev && Sent(end.subs[s])[n + 1] == sub.backlog[0];
  }

  function WaitingFor(st: St, s: SubId): set<Event> {
    set p | p in st.pending && p.0 == s :: p.1
  }

  ghost predicate IsFirst(e: Event, waiting: set<Event>) {
    e in waiting && forall x :: x in waiting ==> e.sequence <= x.sequence
  }

  lemma {:induction false} FirstWaiting(waiting: set<Event>) returns (first: Event)
    requires waiting != {}
    ensures IsFirst(first, waiting)
    decreases |waiting|
  {
    var x :| x in waiting;
    if waiting == {x} {
      first := x;
    } else {
      var other := FirstWaiting(waiting - {x});
      first := if x.sequence < other.sequence then x else other;
      forall y | y in waiting ensures first.sequence <= y.sequence {
        assert y == x || y in waiting - {x};
      }
    }
  }

  /** One delivery that follows at once, in its turn, to a subscriber with room. */
  lemma LateDelivery(mid: St, s: SubId, e: Event, acceptable: Id -> bool)
    requires s in mid.subs && (s, e) in mid.pending && GetsIn(mid.subs[s]) && InTurn(mid, s, e)
    requires Sent(mid.subs[s]) != [] && Sent(mid.subs[s])[|Sent(mid.subs[s])| - 1].sequence >= e.sequence
    ensures !StaysInOrder(mid, acceptable, s)
  {
    var end := Next(mid, Deliver(s, e), acceptable).value;
    var sent := Sent(mid.subs[s]);
    assert Run(end, [], acceptable) == Some(end);
    assert [Deliver(s, e)][1..] == [];
    assert AllOrderly(end, [], acceptable, s);
    assert Run(mid, [Deliver(s, e)], acceptable) == Some(end) && AllOrderly(mid, [Deliver(s, e)], acceptable, s);
    assert Sent(end.subs[s]) == sent + [e] by {
      ConcatAssociates(mid.subs[s].received, mid.subs[s].queue, [e]);
    }
    assert Sent(end.subs[s])[|sent| - 1] == sent[|sent| - 1] && Sent(end.subs[s])[|sent|] == e;
  }

  lemma StepMayBreakOrder(st: St, a: Action, acceptable: Id -> bool, s: SubId)
    requires Next(st, a, acceptable).Some? && !a.Deliver?
    requires !StaysInOrder(Next(st, a, acceptable).value, acceptable, s)
    ensures !StaysInOrder(st, acceptable, s)
  {
    var next := Next(st, a, acceptable).value;
    var rest :| Run(next, rest, acceptable).Some? && AllOrderly(next, rest, acceptable, s)
                && s in Run(next, rest, acceptable).value.subs
                && !Rising(Sent(Run(next, rest, acceptable).value.subs[s]));
    var actions := [a] + rest;
    assert actions[1..] == rest;
    assert Run(st, actions, acceptable) == Run(next, rest, acceptable);
    assert AllOrderly(st, actions, acceptable, s);
  }

  /** Delivered before a smaller event that waits too: that one comes out of order. */
  lemma OvertakingAnAppend(st: St, s: SubId, ev: Event, acceptable: Id -> bool)
    requires Consistent(st) && s in st.subs && (s, ev) in st.pending && GetsIn(st.subs[s])
    requires st.subs[s].backlog == [] && st.subs[s].capacity > 1 && !InTurn(st, s, ev)
    ensures !StaysInOrder(Next(st, Deliver(s, ev), acceptable).value, acceptable, s)
  {
    var mid := Next(st, Deliver(s, ev), acceptable).value;
    var smaller :| (s, smaller) in st.pending && smaller != ev && smaller.sequence <= ev.sequence;
    assert smaller in WaitingFor(mid, s) by {
      assert (s, smaller) in mid.pending;
    }
    var e := FirstWaiting(WaitingFor(mid, s));
    WaitingIsJournaled(st, s, ev, e);
    forall x | (s, x) in mid.pending && x != e ensures e.sequence < x.sequence {
      assert x in WaitingFor(mid, s) by { assert (s, x).1 == x; }
      WaitingIsJournaled(st, s, e, x);
    }
    var sub := mid.subs[s];
    assert Sent(sub)[|Sent(sub)| - 1] == ev;
    if |sub.queue| < sub.capacity {
      LateDelivery(mid, s, e, acceptable);
    } else {
      var room := Next(mid, Receive(s), acceptable).value;
      ReceiveKeepsSent(sub);
      LateDelivery(room, s, e, acceptable);
      StepMayBreakOrder(mid, Receive(s), acceptable, s);
    }
  }

  /** Two events that wait for one open subscriber are journaled, so they differ in sequence. */
  lemma WaitingIsJournaled(st: St, s: SubId, a: Event, b: Event)
    requires Consistent(st) && s in st.subs && !st.subs[s].closed && (s, a) in st.pending && (s, b) in st.pending
    ensures a == b || a.sequence != b.sequence
  {
    assert Accounted(st, s, a) && Accounted(st, s, b);
    assert a in st.log.events && b in st.log.events;
  }

  /** The exact condition for delivery in sequence order. In a state that an orderly run has reached,
      a delivery takes its turn, or does not get in, exactly when every orderly way to go on from it
      keeps the subscriber in order. */
  lemma OrderlyExactly(before: seq<Action>, acceptable: Id -> bool, s: SubId, ev: Event)
    requires Run(START, before, acceptable).Some? && AllOrderly(START, before, acceptable, s)
    requires var st := Run(START, before, acceptable).value;
             s in st.subs && !st.subs[s].closed && (s, ev) in st.pending
    ensures var st := Run(START, before, acceptable).value;
            Orderly(st, Deliver(s, ev), s) <==> StaysInOrder(Next(st, Deliver(s, ev), acceptable).value, acceptable, s)
  {
    var st := Run(START, before, acceptable).value;
    RunKeepsConsistent(START, before, acceptable);
    RunKeepsFilling(START, before, acceptable, s);
    RunKeepsOrder(START, before, acceptable, s);
    if Orderly(st, Deliver(s, ev), s) {
      OrderlyStays(st, s, ev, acceptable);
    } else if st.subs[s].backlog != [] {
      OvertakingTheBacklog(st, s, ev, acceptable);
    } else {
      OvertakingAnAppend(st, s, ev, acceptable);
    }
  }

  lemma OrderlyStays(st: St, s: SubId, ev: Event, acceptable: Id -> bool)
    requires Consistent(st) && s in st.subs && OrderHolds(st, s) && Filling(st, s)
    requires (s, ev) in st.pending && Orderly(st, Deliver(s, ev), s)
    ensures StaysInOrder(Next(st, Deliver(s, ev), acceptable).value, acceptable, s)
  {
    var mid := Next(st, Deliver(s, ev), acceptable).value;
    StepKeepsConsistent(st, Deliver(s, ev), acceptable);
    StepKeepsOrder(st, Deliver(s, ev), acceptable, s);
    StepKeepsFilling(st, Deliver(s, ev), acceptable, s);
    forall actions | Run(mid, actions, acceptable).Some? && AllOrderly(mid, actions, acceptable, s)
                     && s in Run(mid, actions, acceptable).value.subs
      ensures Rising(Sent(Run(mid, actions, acceptable).value.subs[s]))
    {
      RunKeepsOrder(mid, actions, acceptable, s);
    }
  }

  lemma SubscribeOne(e: Event, acceptable: Id -> bool)
    requires Validates(e, acceptable) && e.sequence == 0
    ensures Run(START, [Append(e), Subscribe(0, 0)], acceptable)
         == Some(St(Log([e], 1, false), map[0 := Sub(0, 1, 1 + SLACK, [e], [], [], [], 0, true, false)], {}))
  {
    var one := Log([e], 1, false);
    assert Stamp(e, 0) == e;
    assert AppendTo(START.log, e, acceptable) == one by {
      assert [] + [e] == [e];
    }
    assert Next(START, Append(e), acceptable) == Some(St(one, map[], {})) by {
      assert Registered(START.subs) == {};
      assert START.pending + Copies({}, e) == {};
    }
    assert Opened(one, 0).backlog == [e] by {
      assert From([e][1..], 0) == [];
    }
    var end := St(one, map[0 := Opened(one, 0)], {});
    assert [Append(e), Subscribe(0, 0)][1..] == [Subscribe(0, 0)];
    assert Run(end, [], acceptable) == Some(end);
    assert Run(St(one, map[], {}), [Subscribe(0, 0)], acceptable) == Some(end);
  }

  /** An append while the backlog is still being sent: events are not always delivered in order. */
  lemma LiveOvertakesBacklog(acceptable: Id -> bool, content: Id) returns (before: seq<Action>)
    requires acceptable(content)
    ensures Run(START, before, acceptable).Some? && 0 in Run(START, before, acceptable).value.subs
    ensures !StaysInOrder(Run(START, before, acceptable).value, acceptable, 0)
  {
    var e := Event(VERSION, content, 0);
    var late := e.(sequence := 1);
    SubscribeOne(e, acceptable);
    var st := Run(START, [Append(e), Subscribe(0, 0)], acceptable).value;
    var raced := Next(st, Append(e), acceptable).value;
    assert (0, late) in raced.pending by {
      assert 0 in Registered(st.subs) && Stamp(e, 1) == late;
    }
    var end := Next(raced, Deliver(0, late), acceptable).value;
    OvertakingTheBacklog(raced, 0, late, acceptable);
    var race := [Append(e), Deliver(0, late)];
    assert race[1..] == [Deliver(0, late)];
    assert Run(end, [], acceptable) == Some(end);
    assert Run(raced, [Deliver(0, late)], acceptable) == Some(end);
    RunConcat(START, [Append(e), Subscribe(0, 0)], race, acceptable);
    before := [Append(e), Subscribe(0, 0)] + race;
  }

  /** Two appenders that deliver after releasing the lock, the later one first. */
  lemma LiveOvertakesLive(acceptable: Id -> bool, content: Id) returns (before: seq<Action>)
    requires acceptable(content)
    ensures Run(START, before, acceptable).Some? && 0 in Run(START, before, acceptable).value.subs
    ensures !StaysInOrder(Run(START, before, acceptable).value, acceptable, 0)
  {
    var e := Event(VERSION, content, 0);
    var late := e.(sequence := 1);
    var a := Next(START, Subscribe(0, 0), acceptable).value;
    var b := Next(a, Append(e), acceptable).value;
    var c := Next(b, Append(e), acceptable).value;
    assert (0, e) in b.pending by {
      assert 0 in Registered(a.subs) && Stamp(e, 0) == e;
    }
    assert (0, late) in c.pending by {
      assert 0 in Registered(b.subs) && Stamp(e, 1) == late;
    }
    var end := Next(c, Deliver(0, late), acceptable).value;
    before := [Subscribe(0, 0), Append(e), Append(e), Deliver(0, late)];
    assert before[1..] == [Append(e), Append(e), Deliver(0, late)];
    assert before[1..][1..] == [Append(e), Deliver(0, late)];
    assert before[1..][1..][1..] == [Deliver(0, late)];
    assert before[1..][1..][1..][1..] == [];
    assert Run(c, before[1..][1..][1..], acceptable) == Some(end);
    assert Run(b, before[1..][1..], acceptable) == Some(end);
    assert Run(a, before[1..], acceptable) == Some(end);
    StepKeepsConsistent(START, Subscribe(0, 0), acceptable);
    StepKeepsConsistent(a, Append(e), acceptable);
    StepKeepsConsistent(b, Append(e), acceptable);
    OvertakingAnAppend(c, 0, late, acceptable);
  }

  // ---- the subscription object ----

  class Subscription {
    const capacity: nat
    var queue: seq<Event>
    var dropped: nat
    var closed: bool

    constructor (backlog: nat)
      ensures capacity == backlog + 64 && queue == [] && dropped == 0 && !closed
    {
      capacity := backlog + SLACK;
      queue, dropped, closed := [], 0, false;
    }

    /** What this object shows of a subscription in the state machine. */
    ghost predicate Shows(sub: Sub)
      reads this
    {
      sub.capacity == capacity && sub.queue == queue && sub.dropped == dropped && sub.closed == closed
    }

    method Deliver(ev: Event)
      modifies this
      ensures forall sub: Sub :: old(Shows(sub)) ==> Shows(DeliverTo(sub, ev))
      ensures closed == old(closed)
      ensures old(closed) ==> queue == old(queue) && dropped == old(dropped)
      ensures !old(closed) && |old(queue)| < capacity ==> queue == old(queue) + [ev] && dropped == old(dropped)
      ensures !old(closed) && |old(queue)| >= capacity ==> queue == old(queue) && dropped == old(dropped) + 1
    {
      if closed {
        return;
      }
      if |queue| < capacity {
        queue := queue + [ev];
      } else {
        dropped := dropped + 1;
      }
    }
  }
}
