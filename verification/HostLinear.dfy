/** Concurrent callers of the tool host: every interleaving of their critical sections is explained
    by one sequential history of a much simpler object, one cell per key. */
module HostLinear {
  import opened Ordering
  import opened Host

  /** Where a caller is: before its first section, executing the tool, waiting for another caller's
      execution, or returned. */
  datatype Pc = Entered | Executing | Waiting(leader: Caller) | Returned(response: Response)

  datatype Thread = Thread(key: Key, inputHash: InputHash, pc: Pc)

  /** Operations of the simple object. Claim starts an execution, Drop forgets a result; every other
      operation answers one caller. */
  datatype Op =
    | Claim(t: Caller, key: Key, inputHash: InputHash)
    | Succeed(t: Caller, key: Key, inputHash: InputHash, output: Output)
    | Fail(t: Caller, key: Key, inputHash: InputHash, error: nat)
    | Replay(t: Caller, key: Key, inputHash: InputHash, output: Output)
    | Share(t: Caller, key: Key, inputHash: InputHash, error: nat)
    | Refuse(t: Caller, key: Key, inputHash: InputHash)
    | Drop(key: Key)

  /** What the simple object knows of a key: nothing, that its last execution failed, that one is
      under way, or the first success. */
  datatype Cell =
    | Free
    | Failing(inputHash: InputHash, error: nat)
    | Claimed(t: Caller, inputHash: InputHash)
    | Held(inputHash: InputHash, output: Output)

  /** One operation on the cell of its key; None when the operation is not allowed there. */
  function Apply(c: Cell, op: Op): Option<Cell> {
    match op
    case Claim(t, _, h) => if c.Free? || c.Failing? then Some(Claimed(t, h)) else None
    case Succeed(t, _, h, output) => if c == Claimed(t, h) then Some(Held(h, output)) else None
    case Fail(t, _, h, error) => if c == Claimed(t, h) then Some(Failing(h, error)) else None
    case Replay(_, _, h, output) => if c == Held(h, output) then Some(c) else None
    case Share(_, _, h, error) => if c == Failing(h, error) then Some(c) else None
    case Refuse(_, _, h) => if (c.Claimed? || c.Held?) && c.inputHash != h then Some(c) else None
    case Drop(_) => if c.Held? then Some(Free) else None
  }

  function ApplyTo(c: Option<Cell>, op: Op, k: Key): Option<Cell> {
    if c.Some? && op.key == k then Apply(c.value, op) else c
  }

  /** The cell of a key after a history. */
  function CellAfter(c: Option<Cell>, hist: seq<Op>, k: Key): Option<Cell>
    decreases hist
  {
    if hist == [] then c else CellAfter(ApplyTo(c, hist[0], k), hist[1..], k)
  }

  function CellOf(hist: seq<Op>, k: Key): Option<Cell> {
    CellAfter(Some(Free), hist, k)
  }

  /** A history the simple object can go through. */
  ghost predicate Legal(hist: seq<Op>) {
    forall k :: CellOf(hist, k).Some?
  }

  predicate Answers(op: Op, t: Caller) {
    !op.Claim? && !op.Drop? && op.t == t
  }

  /** The operations of a history that answer one caller. */
  function AnswersTo(hist: seq<Op>, t: Caller): seq<Op> {
    if hist == [] then [] else (if Answers(hist[0], t) then [hist[0]] else []) + AnswersTo(hist[1..], t)
  }

  lemma {:induction false} CellConcat(c: Option<Cell>, a: seq<Op>, b: seq<Op>, k: Key)
    ensures CellAfter(c, a + b, k) == CellAfter(CellAfter(c, a, k), b, k)
    decreases a
  {
    if a == [] {
      assert a + b == b;
    } else {
      assert (a + b)[0] == a[0] && (a + b)[1..] == a[1..] + b;
      CellConcat(ApplyTo(c, a[0], k), a[1..], b, k);
    }
  }

  lemma {:induction false} AnswersConcat(a: seq<Op>, b: seq<Op>, t: Caller)
    ensures AnswersTo(a + b, t) == AnswersTo(a, t) + AnswersTo(b, t)
  {
    if a == [] {
      assert a + b == b;
    } else {
      assert (a + b)[0] == a[0] && (a + b)[1..] == a[1..] + b;
      AnswersConcat(a[1..], b, t);
      ConcatAssociates(if Answers(a[0], t) then [a[0]] else [], AnswersTo(a[1..], t), AnswersTo(b, t));
    }
  }

  // ---- the concurrent system ----

  datatype Sys = Sys(tables: Tables, threads: map<Caller, Thread>, hist: seq<Op>)

  datatype Action =
    | Enter(t: Caller, key: Key, inputHash: InputHash)
    | First(t: Caller)
    | Second(t: Caller, reply: Reply)
    | Wake(t: Caller)
    | Abandon(t: Caller)

  const INITIAL := Sys(Tables(map[], [], map[], map[]), map[], [])

  ghost function WaitersOf(s: Sys, leader: Caller): seq<Caller> {
    Ascending(set u | u in s.threads && s.threads[u].pc == Waiting(leader))
  }

  function WaiterOp(t: Caller, key: Key, inputHash: InputHash, reply: Reply): Op {
    match reply case Success(o) => Replay(t, key, inputHash, o) case Failure(e) => Share(t, key, inputHash, e)
  }

  /** The cell an execution leaves behind. */
  function SettledCell(inputHash: InputHash, reply: Reply): Cell {
    match reply case Success(o) => Held(inputHash, o) case Failure(e) => Failing(inputHash, e)
  }

  /** Those who wait are answered together with the caller they wait for. */
  function Group(waiters: seq<Caller>, key: Key, inputHash: InputHash, reply: Reply): seq<Op> {
    if waiters == [] then []
    else
      [WaiterOp(waiters[0], key, inputHash, reply)] + Group(waiters[1..], key, inputHash, reply)
  }

  /** The operation of the caller that executed. */
  function LeaderOp(t: Caller, key: Key, inputHash: InputHash, reply: Reply): Op {
    match reply case Success(o) => Succeed(t, key, inputHash, o) case Failure(e) => Fail(t, key, inputHash, e)
  }

  function Dropped(limit: nat, h: Tables, key: Key, reply: Reply): seq<Op> {
    if reply.Success? && |h.cache| >= limit && |h.cacheOrder| > 0 then [Drop(h.cacheOrder[0])] else []
  }

  function Move(s: Sys, t: Caller, pc: Pc): map<Caller, Thread>
    requires t in s.threads
  {
    s.threads[t := s.threads[t].(pc := pc)]
  }

  function FirstOps(t: Caller, key: Key, inputHash: InputHash, d: Decision): seq<Op> {
    match d
    case Answer(Replayed(output)) => [Replay(t, key, inputHash, output)]
    case Answer(_) => [Refuse(t, key, inputHash)]
    case Wait(_) => []
    case Execute => [Claim(t, key, inputHash)]
  }

  function FirstPc(d: Decision): Pc {
    match d case Answer(r) => Returned(r) case Wait(leader) => Waiting(leader) case Execute => Executing
  }

  ghost function Next(limit: nat, s: Sys, a: Action): Option<Sys> {
    match a
    case Enter(t, key, h) =>
      if t !in s.threads then Some(s.(threads := s.threads[t := Thread(key, h, Entered)])) else None
    case First(t) =>
      if t in s.threads && s.threads[t].pc == Entered then
        var me := s.threads[t];
        var (tables, d) := Lookup(s.tables, t, me.key, me.inputHash);
        Some(Sys(tables, Move(s, t, FirstPc(d)), s.hist + FirstOps(t, me.key, me.inputHash, d)))
      else None
    case Second(t, reply) =>
      if t in s.threads && s.threads[t].pc == Executing && t in s.tables.calls then
        var me := s.threads[t];
        Some(Sys(Complete(limit, s.tables, t, reply), Move(s, t, Returned(LeaderResponse(reply))),
                 s.hist + [LeaderOp(t, me.key, me.inputHash, reply)]
                 + Group(WaitersOf(s, t), me.key, me.inputHash, reply)
                 + Dropped(limit, s.tables, me.key, reply)))
      else None
    case Wake(t) =>
      if t in s.threads && s.threads[t].pc.Waiting? && s.threads[t].pc.leader in s.tables.calls
         && s.tables.calls[s.threads[t].pc.leader].reply.Some?
      then
        var reply := s.tables.calls[s.threads[t].pc.leader].reply.value;
        Some(s.(threads := Move(s, t, Returned(WaiterResponse(reply)))))
      else None
    case Abandon(t) =>
      if t in s.threads && s.threads[t].pc.Waiting? then Some(s.(threads := Move(s, t, Returned(Cancelled)))) else None
  }

  ghost predicate Reaches(limit: nat, s: Sys, acts: seq<Action>, u: Sys)
    decreases |acts|
  {
    if acts == [] then s == u
    else Next(limit, s, acts[0]).Some? && Reaches(limit, Next(limit, s, acts[0]).value, acts[1..], u)
  }

  // ---- the invariant ----

  /** The real tables and the simple object agree on a key. */
  ghost predicate CellMatches(h: Tables, c: Option<Cell>, k: Key) {
    && c.Some?
    && (if k in h.cache then c.value == Held(h.cache[k].inputHash, h.cache[k].output)
        else if k in h.inflight
            then h.inflight[k] in h.calls && c.value == Claimed(h.inflight[k], h.calls[h.inflight[k]].inputHash)
        else c.value.Free? || c.value.Failing?)
  }

  /** The operation that answers a caller with a given response. */
  ghost predicate IsAnswer(op: Op, t: Caller, me: Thread, r: Response) {
    match r
    case Executed(output) => op == Succeed(t, me.key, me.inputHash, output)
    case Replayed(output) => op == Replay(t, me.key, me.inputHash, output)
    case Conflicting => op == Refuse(t, me.key, me.inputHash)
    case Failed(error) => op == Fail(t, me.key, me.inputHash, error) || op == Share(t, me.key, me.inputHash, error)
    case Cancelled => true
  }

  ghost predicate AnsweredWith(answers: seq<Op>, t: Caller, me: Thread, r: Response) {
    if r == Cancelled then |answers| <= 1 else |answers| == 1 && IsAnswer(answers[0], t, me, r)
  }

  ghost predicate ThreadOk(h: Tables, answers: seq<Op>, t: Caller, me: Thread) {
    match me.pc
    case Entered => t !in h.calls && answers == []
    case Executing => Look(h.calls, t) == Some(Call(me.key, me.inputHash, None)) && Look(h.inflight, me.key) == Some(t)
        && answers == []
    case Waiting(leader) =>
      && leader in h.calls && h.calls[leader].key == me.key && h.calls[leader].inputHash == me.inputHash
      && (if h.calls[leader].reply.None? then answers == []
          else AnsweredWith(answers, t, me, WaiterResponse(h.calls[leader].reply.value)))
    case Returned(r) => AnsweredWith(answers, t, me, r)
  }

  ghost predicate Consistent(limit: nat, s: Sys) {
    && limit >= 1 && Sound(limit, s.tables)
    && (forall k :: CellMatches(s.tables, CellOf(s.hist, k), k))
    && (forall t :: t in s.threads ==> ThreadOk(s.tables, AnswersTo(s.hist, t), t, s.threads[t]))
    && (forall t :: t !in s.threads ==> AnswersTo(s.hist, t) == [] && t !in s.tables.calls)
  }

  lemma InitialConsistent(limit: nat)
    requires limit >= 1
    ensures Consistent(limit, INITIAL)
  {
  }

  // ---- each step keeps it ----

  lemma OneOp(hist: seq<Op>, op: Op, k: Key, t: Caller)
    ensures CellOf(hist + [op], k) == ApplyTo(CellOf(hist, k), op, k)
    ensures AnswersTo(hist + [op], t) == AnswersTo(hist, t) + if Answers(op, t) then [op] else []
  {
    CellConcat(Some(Free), hist, [op], k);
    AnswersConcat(hist, [op], t);
  }

  /** The first section, as the simple object and the callers see it. */
  lemma FirstHist(limit: nat, s: Sys, t: Caller, k: Key, x: Caller)
    requires Consistent(limit, s) && Next(limit, s, First(t)).Some?
    ensures var me := s.threads[t];
            var ops := FirstOps(t, me.key, me.inputHash, Lookup(s.tables, t, me.key, me.inputHash).1);
            var hist := Next(limit, s, First(t)).value.hist;
            && CellOf(hist, k) == (if ops == [] then CellOf(s.hist, k) else ApplyTo(CellOf(s.hist, k), ops[0], k))
            && AnswersTo(hist, x) == AnswersTo(s.hist, x) + (if ops != [] && Answers(ops[0], x) then ops else [])
  {
    var me := s.threads[t];
    var ops := FirstOps(t, me.key, me.inputHash, Lookup(s.tables, t, me.key, me.inputHash).1);
    if ops == [] {
      assert s.hist + ops == s.hist;
    } else {
      assert ops == [ops[0]];
      OneOp(s.hist, ops[0], k, x);
    }
  }

  lemma LookupCell(limit: nat, h: Tables, t: Caller, key: Key, inputHash: InputHash, c: Option<Cell>, k: Key)
    requires Sound(limit, h) && t !in h.calls && CellMatches(h, c, k)
    ensures var (g, d) := Lookup(h, t, key, inputHash);
            var ops := FirstOps(t, key, inputHash, d);
            CellMatches(g, if ops == [] then c else ApplyTo(c, ops[0], k), k)
  {
  }

  lemma FirstCell(limit: nat, s: Sys, t: Caller, k: Key)
    requires Consistent(limit, s) && Next(limit, s, First(t)).Some?
    ensures var u := Next(limit, s, First(t)).value; CellMatches(u.tables, CellOf(u.hist, k), k)
  {
    FirstHist(limit, s, t, k, t);
    assert ThreadOk(s.tables, AnswersTo(s.hist, t), t, s.threads[t]);
    LookupCell(limit, s.tables, t, s.threads[t].key, s.threads[t].inputHash, CellOf(s.hist, k), k);
  }

  lemma LookupOwn(limit: nat, h: Tables, t: Caller, key: Key, inputHash: InputHash)
    requires Sound(limit, h) && t !in h.calls
    ensures var (g, d) := Lookup(h, t, key, inputHash);
            var ops := FirstOps(t, key, inputHash, d);
            ThreadOk(g, if ops != [] && Answers(ops[0], t) then ops else [], t, Thread(key, inputHash, FirstPc(d)))
  {
  }

  lemma FirstOwnThread(limit: nat, s: Sys, t: Caller)
    requires Consistent(limit, s) && Next(limit, s, First(t)).Some?
    ensures var u := Next(limit, s, First(t)).value;
            t in u.threads && ThreadOk(u.tables, AnswersTo(u.hist, t), t, u.threads[t])
  {
    FirstHist(limit, s, t, s.threads[t].key, t);
    assert ThreadOk(s.tables, AnswersTo(s.hist, t), t, s.threads[t]);
    LookupOwn(limit, s.tables, t, s.threads[t].key, s.threads[t].inputHash);
  }

  lemma FirstThread(limit: nat, s: Sys, t: Caller, x: Caller)
    requires Consistent(limit, s) && Next(limit, s, First(t)).Some?
    ensures var u := Next(limit, s, First(t)).value;
            if x in u.threads then ThreadOk(u.tables, AnswersTo(u.hist, x), x, u.threads[x])
            else AnswersTo(u.hist, x) == [] && x !in u.tables.calls
  {
    if x == t {
      FirstOwnThread(limit, s, t);
    } else {
      FirstHist(limit, s, t, s.threads[t].key, x);
      assert x in s.threads ==> ThreadOk(s.tables, AnswersTo(s.hist, x), x, s.threads[x]);
    }
  }

  lemma FirstKeeps(limit: nat, s: Sys, t: Caller)
    requires Consistent(limit, s) && Next(limit, s, First(t)).Some?
    ensures Consistent(limit, Next(limit, s, First(t)).value)
  {
    var me := s.threads[t];
    assert ThreadOk(s.tables, AnswersTo(s.hist, t), t, me);
    LookupKeepsSound(limit, s.tables, t, me.key, me.inputHash);
    forall k { FirstCell(limit, s, t, k); }
    forall x { FirstThread(limit, s, t, x); }
  }

  // ---- the second section and those who wait for it ----

  lemma {:induction false} GroupCell(c: Option<Cell>, waiters: seq<Caller>, key: Key, h: InputHash, reply: Reply,
                                     k: Key)
    requires c == Some(SettledCell(h, reply)) || k != key
    ensures CellAfter(c, Group(waiters, key, h, reply), k) == c
  {
    if waiters != [] {
      GroupCell(c, waiters[1..], key, h, reply, k);
    }
  }

  lemma {:induction false} GroupAnswers(waiters: seq<Caller>, key: Key, h: InputHash, reply: Reply, x: Caller)
    requires Distinct(waiters)
    ensures var answers := AnswersTo(Group(waiters, key, h, reply), x);
            if x in waiters then answers == [WaiterOp(x, key, h, reply)]
            else answers == []
  {
    if waiters != [] {
      GroupAnswers(waiters[1..], key, h, reply, x);
    }
  }

  /** What a completed execution adds to the history. */
  function SecondOps(limit: nat, h: Tables, t: Caller, key: Key, inputHash: InputHash, reply: Reply,
                     waiters: seq<Caller>): seq<Op>
  {
    [LeaderOp(t, key, inputHash, reply)] + Group(waiters, key, inputHash, reply) + Dropped(limit, h, key, reply)
  }

  lemma SecondOpsCell(limit: nat, h: Tables, t: Caller, key: Key, inputHash: InputHash, reply: Reply,
                      waiters: seq<Caller>, c: Cell, k: Key)
    requires k == key ==> c == Claimed(t, inputHash)
    ensures var after := if k != key then Some(c)
                         else Some(SettledCell(inputHash, reply));
            var dropped := Dropped(limit, h, key, reply);
            CellAfter(Some(c), SecondOps(limit, h, t, key, inputHash, reply, waiters), k)
              == if dropped == [] then after else ApplyTo(after, dropped[0], k)
  {
    var first := [LeaderOp(t, key, inputHash, reply)];
    var group := Group(waiters, key, inputHash, reply);
    var dropped := Dropped(limit, h, key, reply);
    var after := ApplyTo(Some(c), first[0], k);
    assert CellAfter(Some(c), first, k) == after;
    GroupCell(after, waiters, key, inputHash, reply, k);
    CellConcat(Some(c), first, group, k);
    CellConcat(Some(c), first + group, dropped, k);
  }

  lemma SecondOpsAnswers(limit: nat, h: Tables, t: Caller, key: Key, inputHash: InputHash, reply: Reply,
                         waiters: seq<Caller>, x: Caller)
    requires Distinct(waiters) && t !in waiters
    ensures var answers := AnswersTo(SecondOps(limit, h, t, key, inputHash, reply, waiters), x);
            if x == t then answers == [LeaderOp(t, key, inputHash, reply)]
            else if x in waiters then answers == [WaiterOp(x, key, inputHash, reply)]
            else answers == []
  {
    var first := [LeaderOp(t, key, inputHash, reply)];
    var group := Group(waiters, key, inputHash, reply);
    var dropped := Dropped(limit, h, key, reply);
    GroupAnswers(waiters, key, inputHash, reply, x);
    AnswersConcat(first, group, x);
    AnswersConcat(first + group, dropped, x);
    assert AnswersTo(dropped, x) == [];
  }

  lemma SecondHist(limit: nat, s: Sys, t: Caller, reply: Reply)
    requires Next(limit, s, Second(t, reply)).Some?
    ensures var me := s.threads[t];
            Next(limit, s, Second(t, reply)).value.hist
              == s.hist + SecondOps(limit, s.tables, t, me.key, me.inputHash, reply, WaitersOf(s, t))
  {
    var me := s.threads[t];
    ConcatAssociates(s.hist, [LeaderOp(t, me.key, me.inputHash, reply)],
                     Group(WaitersOf(s, t), me.key, me.inputHash, reply));
    ConcatAssociates(s.hist,
                     [LeaderOp(t, me.key, me.inputHash, reply)] + Group(WaitersOf(s, t), me.key, me.inputHash, reply),
                     Dropped(limit, s.tables, me.key, reply));
  }

  /** The tables after the second section, key by key. */
  lemma CompleteAt(limit: nat, h: Tables, t: Caller, reply: Reply)
    requires limit >= 1 && Sound(limit, h) && t in h.calls && Look(h.inflight, h.calls[t].key) == Some(t)
    ensures var call := h.calls[t];
            var u := Complete(limit, h, t, reply);
            var dropped := Dropped(limit, h, call.key, reply);
            && u.calls == h.calls[t := call.(reply := Some(reply))]
            && u.inflight == h.inflight - {call.key}
            && (dropped == [] ==>
                  u.cache == if reply.Success? then h.cache[call.key := Entry(reply.output, call.inputHash)]
                             else h.cache)
            && (dropped != [] ==> && dropped[0].key != call.key && dropped[0].key in h.cache
                                  && u.cache == h.cache[call.key := Entry(reply.output, call.inputHash)]
                                                - {dropped[0].key})
  {
    var call := h.calls[t];
    var published := h.(calls := h.calls[t := call.(reply := Some(reply))]);
    if reply.Success? {
      StoredShape(limit, published, call.key, Entry(reply.output, call.inputHash));
    }
  }

  lemma SecondCell(limit: nat, s: Sys, t: Caller, reply: Reply, k: Key)
    requires Consistent(limit, s) && Next(limit, s, Second(t, reply)).Some?
    ensures var u := Next(limit, s, Second(t, reply)).value; CellMatches(u.tables, CellOf(u.hist, k), k)
  {
    var me := s.threads[t];
    assert ThreadOk(s.tables, AnswersTo(s.hist, t), t, me);
    assert CellMatches(s.tables, CellOf(s.hist, k), k);
    var waiters := WaitersOf(s, t);
    SecondHist(limit, s, t, reply);
    CellConcat(Some(Free), s.hist, SecondOps(limit, s.tables, t, me.key, me.inputHash, reply, waiters), k);
    SecondOpsCell(limit, s.tables, t, me.key, me.inputHash, reply, waiters, CellOf(s.hist, k).value, k);
    CompleteAt(limit, s.tables, t, reply);
  }

  /** The second section answers its own caller and everyone who waits for it, once each. */
  lemma SecondAnswers(limit: nat, s: Sys, t: Caller, reply: Reply, x: Caller)
    requires Next(limit, s, Second(t, reply)).Some? && t !in WaitersOf(s, t)
    ensures var me := s.threads[t];
            AnswersTo(Next(limit, s, Second(t, reply)).value.hist, x)
              == AnswersTo(s.hist, x)
                 + if x == t then [LeaderOp(t, me.key, me.inputHash, reply)]
                   else if x in WaitersOf(s, t) then [WaiterOp(x, me.key, me.inputHash, reply)] else []
  {
    var me := s.threads[t];
    var waiters := WaitersOf(s, t);
    SecondHist(limit, s, t, reply);
    AnswersConcat(s.hist, SecondOps(limit, s.tables, t, me.key, me.inputHash, reply, waiters), x);
    SecondOpsAnswers(limit, s.tables, t, me.key, me.inputHash, reply, waiters, x);
  }

  lemma SecondThread(limit: nat, s: Sys, t: Caller, reply: Reply, x: Caller)
    requires Consistent(limit, s) && Next(limit, s, Second(t, reply)).Some?
    ensures var u := Next(limit, s, Second(t, reply)).value;
            if x in u.threads then ThreadOk(u.tables, AnswersTo(u.hist, x), x, u.threads[x])
            else AnswersTo(u.hist, x) == [] && x !in u.tables.calls
  {
    var me := s.threads[t];
    assert ThreadOk(s.tables, AnswersTo(s.hist, t), t, me);
    if x in s.threads {
      assert ThreadOk(s.tables, AnswersTo(s.hist, x), x, s.threads[x]);
    }
    assert forall y :: y in WaitersOf(s, t) <==> y in Elements(WaitersOf(s, t));
    SecondAnswers(limit, s, t, reply, x);
    CompleteAt(limit, s.tables, t, reply);
  }

  lemma SecondKeeps(limit: nat, s: Sys, t: Caller, reply: Reply)
    requires Consistent(limit, s) && Next(limit, s, Second(t, reply)).Some?
    ensures Consistent(limit, Next(limit, s, Second(t, reply)).value)
  {
    assert ThreadOk(s.tables, AnswersTo(s.hist, t), t, s.threads[t]);
    CompleteKeepsSound(limit, s.tables, t, reply);
    forall k { SecondCell(limit, s, t, reply, k); }
    forall x { SecondThread(limit, s, t, reply, x); }
  }

  lemma ReturnKeeps(limit: nat, s: Sys, a: Action)
    requires Consistent(limit, s) && Next(limit, s, a).Some? && (a.Enter? || a.Wake? || a.Abandon?)
    ensures Consistent(limit, Next(limit, s, a).value)
  {
    var u := Next(limit, s, a).value;
    forall x | x in u.threads ensures ThreadOk(u.tables, AnswersTo(u.hist, x), x, u.threads[x]) {
      if x in s.threads {
        assert ThreadOk(s.tables, AnswersTo(s.hist, x), x, s.threads[x]);
      }
    }
  }

  lemma StepKeeps(limit: nat, s: Sys, a: Action)
    requires Consistent(limit, s) && Next(limit, s, a).Some?
    ensures Consistent(limit, Next(limit, s, a).value)
    ensures s.hist <= Next(limit, s, a).value.hist
  {
    match a
    case First(t) => FirstKeeps(limit, s, t);
    case Second(t, reply) => SecondKeeps(limit, s, t, reply);
    case _ => ReturnKeeps(limit, s, a);
  }

  lemma {:induction false} RunKeeps(limit: nat, s: Sys, acts: seq<Action>, u: Sys)
    requires Consistent(limit, s) && Reaches(limit, s, acts, u)
    ensures Consistent(limit, u) && s.hist <= u.hist
    decreases |acts|
  {
    if acts != [] {
      StepKeeps(limit, s, acts[0]);
      RunKeeps(limit, Next(limit, s, acts[0]).value, acts[1..], u);
    }
  }

  // ---- main results ----

  /** Linearizability: whatever the interleaving, the history is one the simple object can go through,
      and every caller that returned has exactly one operation in it, with its own key, its own input
      hash and the response it got. */
  lemma Linearizable(limit: nat, acts: seq<Action>, u: Sys)
    requires limit >= 1 && Reaches(limit, INITIAL, acts, u)
    ensures Legal(u.hist) && Sound(limit, u.tables)
    ensures forall t :: t in u.threads && u.threads[t].pc.Returned? ==>
              AnsweredWith(AnswersTo(u.hist, t), t, u.threads[t], u.threads[t].pc.response)
    ensures forall k :: CellMatches(u.tables, CellOf(u.hist, k), k)
  {
    InitialConsistent(limit);
    RunKeeps(limit, INITIAL, acts, u);
    forall k ensures CellOf(u.hist, k).Some? {
      assert CellMatches(u.tables, CellOf(u.hist, k), k);
    }
    forall t | t in u.threads && u.threads[t].pc.Returned?
      ensures AnsweredWith(AnswersTo(u.hist, t), t, u.threads[t], u.threads[t].pc.response)
    {
      assert ThreadOk(u.tables, AnswersTo(u.hist, t), t, u.threads[t]);
    }
  }

  lemma {:induction false} ReturnedStays(limit: nat, s: Sys, acts: seq<Action>, u: Sys, t: Caller)
    requires Reaches(limit, s, acts, u) && t in s.threads && s.threads[t].pc.Returned?
    ensures t in u.threads && u.threads[t] == s.threads[t]
    decreases |acts|
  {
    if acts != [] {
      ReturnedStays(limit, Next(limit, s, acts[0]).value, acts[1..], u, t);
    }
  }

  /** Real-time order: the operation that answers a caller enters the history after the caller does
      and before it returns, and the history is never rewritten. */
  lemma AnswersInTime(limit: nat, before: seq<Action>, m: Sys, after: seq<Action>, u: Sys, t: Caller)
    requires limit >= 1 && Reaches(limit, INITIAL, before, m) && Reaches(limit, m, after, u)
    ensures m.hist <= u.hist
    ensures t !in m.threads ==> AnswersTo(m.hist, t) == []
    ensures t in m.threads && m.threads[t].pc.Returned? && m.threads[t].pc.response != Cancelled ==>
              AnswersTo(u.hist, t) == AnswersTo(m.hist, t)
  {
    InitialConsistent(limit);
    RunKeeps(limit, INITIAL, before, m);
    RunKeeps(limit, m, after, u);
    if t in m.threads && m.threads[t].pc.Returned? && m.threads[t].pc.response != Cancelled {
      ReturnedStays(limit, m, after, u, t);
      AnsweredOnce(limit, m, u, t);
    }
  }

  /** A caller that has returned with its one answer gets no other. */
  lemma AnsweredOnce(limit: nat, m: Sys, u: Sys, t: Caller)
    requires Consistent(limit, m) && Consistent(limit, u) && m.hist <= u.hist
    requires t in m.threads && t in u.threads && u.threads[t] == m.threads[t]
    requires m.threads[t].pc.Returned? && m.threads[t].pc.response != Cancelled
    ensures AnswersTo(u.hist, t) == AnswersTo(m.hist, t)
  {
    assert ThreadOk(m.tables, AnswersTo(m.hist, t), t, m.threads[t]);
    assert ThreadOk(u.tables, AnswersTo(u.hist, t), t, u.threads[t]);
    assert u.hist == m.hist + u.hist[|m.hist|..];
    AnswersConcat(m.hist, u.hist[|m.hist|..], t);
    assert AnswersTo(u.hist, t)[0] == AnswersTo(m.hist, t)[0];
  }

  // ---- what every legal history of the simple object satisfies ----

  ghost predicate NoDropFrom(hist: seq<Op>, i: nat, k: Key) {
    forall m :: i <= m < |hist| ==> hist[m] != Drop(k)
  }

  ghost predicate IsSuccess(op: Op, k: Key, h: InputHash, output: Output) {
    op.Succeed? && op.key == k && op.inputHash == h && op.output == output
  }

  lemma CellOfLast(hist: seq<Op>, k: Key)
    requires hist != []
    ensures CellOf(hist, k) == ApplyTo(CellOf(hist[..|hist| - 1], k), hist[|hist| - 1], k)
  {
    assert hist == hist[..|hist| - 1] + [hist[|hist| - 1]];
    CellConcat(Some(Free), hist[..|hist| - 1], [hist[|hist| - 1]], k);
  }

  /** What a cell holds was put there by one success and not dropped since. */
  lemma {:induction false} HeldHasSource(hist: seq<Op>, k: Key) returns (i: nat)
    requires CellOf(hist, k).Some? && CellOf(hist, k).value.Held?
    ensures i < |hist| && IsSuccess(hist[i], k, CellOf(hist, k).value.inputHash, CellOf(hist, k).value.output)
    ensures NoDropFrom(hist, i, k)
    decreases |hist|
  {
    var n := |hist| - 1;
    CellOfLast(hist, k);
    if hist[n].key == k && hist[n].Succeed? {
      i := n;
    } else {
      i := HeldHasSource(hist[..n], k);
      assert forall m :: i <= m < n ==> hist[m] == hist[..n][m];
    }
  }

  lemma {:induction false} LegalPrefix(hist: seq<Op>, n: nat, k: Key)
    requires n <= |hist| && CellOf(hist, k).Some?
    ensures CellOf(hist[..n], k).Some?
    decreases |hist|
  {
    if n < |hist| {
      CellOfLast(hist, k);
      assert hist[..|hist| - 1][..n] == hist[..n];
      LegalPrefix(hist[..|hist| - 1], n, k);
    } else {
      assert hist[..n] == hist;
    }
  }

  /** Every operation of a legal history is allowed where it stands. */
  lemma AllowedAt(hist: seq<Op>, j: nat)
    requires Legal(hist) && j < |hist|
    ensures var c := CellOf(hist[..j], hist[j].key); c.Some? && Apply(c.value, hist[j]).Some?
    ensures forall k :: CellOf(hist[..j + 1], k) == ApplyTo(CellOf(hist[..j], k), hist[j], k)
  {
    assert hist[..j + 1][..j] == hist[..j];
    forall k ensures CellOf(hist[..j + 1], k) == ApplyTo(CellOf(hist[..j], k), hist[j], k) {
      CellOfLast(hist[..j + 1], k);
    }
    LegalPrefix(hist, j + 1, hist[j].key);
    LegalPrefix(hist, j, hist[j].key);
  }

  /** Every replayed result is the output of an execution with that key and that input hash. */
  lemma ReplayHasSource(hist: seq<Op>, j: nat) returns (i: nat)
    requires Legal(hist) && j < |hist| && hist[j].Replay?
    ensures i < j && IsSuccess(hist[i], hist[j].key, hist[j].inputHash, hist[j].output)
    ensures NoDropFrom(hist[..j], i, hist[j].key)
  {
    AllowedAt(hist, j);
    i := HeldHasSource(hist[..j], hist[j].key);
  }

  /** A held cell stays held until it is dropped. */
  lemma {:induction false} HeldUntilDrop(hist: seq<Op>, i: nat, n: nat, k: Key)
    requires Legal(hist) && i < n <= |hist| && hist[i].Succeed? && hist[i].key == k
    requires NoDropFrom(hist[..n], i, k)
    ensures CellOf(hist[..n], k) == Some(Held(hist[i].inputHash, hist[i].output))
    decreases n
  {
    AllowedAt(hist, n - 1);
    if n > i + 1 {
      assert NoDropFrom(hist[..n - 1], i, k) by {
        assert forall m :: i <= m < n - 1 ==> hist[..n - 1][m] == hist[..n][m];
      }
      HeldUntilDrop(hist, i, n - 1, k);
      assert hist[..n][n - 1] != Drop(k);
    }
  }

  /** First success wins: a key is claimed or succeeds again only after its result was evicted. */
  lemma SecondExecutionNeedsEviction(hist: seq<Op>, i: nat, j: nat)
    requires Legal(hist) && i < j < |hist| && hist[i].Succeed? && hist[i].key == hist[j].key
    requires hist[j].Succeed? || hist[j].Claim?
    ensures exists m :: i < m < j && hist[m] == Drop(hist[i].key)
  {
    var k := hist[i].key;
    AllowedAt(hist, j);
    if NoDropFrom(hist[..j], i, k) {
      HeldUntilDrop(hist, i, j, k);
    }
    var m :| i <= m < |hist[..j]| && hist[..j][m] == Drop(k);
    assert hist[m] == Drop(k);
  }

  /** A claimed cell stays claimed until its own execution ends. */
  lemma {:induction false} ClaimedUntilEnd(hist: seq<Op>, i: nat, n: nat, k: Key)
    requires Legal(hist) && i < n <= |hist| && hist[i].Claim? && hist[i].key == k
    requires forall m :: i < m < n && hist[m].key == k ==> !hist[m].Succeed? && !hist[m].Fail?
    ensures CellOf(hist[..n], k) == Some(Claimed(hist[i].t, hist[i].inputHash))
    decreases n
  {
    AllowedAt(hist, n - 1);
    if n > i + 1 {
      ClaimedUntilEnd(hist, i, n - 1, k);
    }
  }

  /** At most one execution per key is under way: a second claim comes after the first one ended. */
  lemma OneExecutionAtATime(hist: seq<Op>, i: nat, j: nat)
    requires Legal(hist) && i < j < |hist| && hist[i].Claim? && hist[j].Claim? && hist[i].key == hist[j].key
    ensures exists m :: i < m < j && hist[m].key == hist[i].key
                        && (hist[m].Succeed? || hist[m].Fail?) && hist[m].t == hist[i].t
  {
    var k := hist[i].key;
    AllowedAt(hist, j);
    if n :| i < n < j && hist[n].key == k && (hist[n].Succeed? || hist[n].Fail?) {
      var m := FirstEnd(hist, i, n, k);
      AllowedAt(hist, m);
      ClaimedUntilEnd(hist, i, m, k);
    } else {
      ClaimedUntilEnd(hist, i, j, k);
    }
  }

  lemma {:induction false} FirstEnd(hist: seq<Op>, i: nat, n: nat, k: Key) returns (m: nat)
    requires i < n < |hist| && hist[n].key == k && (hist[n].Succeed? || hist[n].Fail?)
    ensures i < m <= n && hist[m].key == k && (hist[m].Succeed? || hist[m].Fail?)
    ensures forall x :: i < x < m && hist[x].key == k ==> !hist[x].Succeed? && !hist[x].Fail?
    decreases n
  {
    if x :| i < x < n && hist[x].key == k && (hist[x].Succeed? || hist[x].Fail?) {
      m := FirstEnd(hist, i, x, k);
    } else {
      m := n;
    }
  }
}
