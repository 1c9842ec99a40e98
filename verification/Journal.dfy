/** The append-only observation journal: sequences assigned under the lock, replay, and a durable file. */
module Journal {
  import opened Ordering

  const VERSION: string := "1.0"

  /** content stands for every other field; whether it is acceptable is up to the protocol. */
  datatype Event = Event(version: string, content: Id, sequence: int)

  datatype Log = Log(events: seq<Event>, next: nat, closed: bool)

  datatype Result<+T> = Ok(value: T) | Refused

  predicate Validates(e: Event, acceptable: Id -> bool) {
    e.version == VERSION && e.sequence >= 0 && acceptable(e.content)
  }

  /** What is stored for an event: the default version filled in and the journal's own sequence. */
  function Stamp(ev: Event, next: nat): Event {
    ev.(version := if ev.version == "" then VERSION else ev.version, sequence := next)
  }

  predicate Accepts(log: Log, ev: Event, acceptable: Id -> bool) {
    !log.closed && Validates(Stamp(ev, log.next), acceptable)
  }

  function AppendTo(log: Log, ev: Event, acceptable: Id -> bool): Log {
    if Accepts(log, ev, acceptable) then log.(events := log.events + [Stamp(ev, log.next)], next := log.next + 1)
        else log
  }

  ghost predicate Rising(s: seq<Event>) {
    forall i, j :: 0 <= i < j < |s| ==> s[i].sequence < s[j].sequence
  }

  /** Sequences rise strictly and stay below the next one. */
  ghost predicate LogOk(log: Log) {
    Rising(log.events) && forall e :: e in log.events ==> 0 <= e.sequence < log.next
  }

  lemma AppendKeepsLogOk(log: Log, ev: Event, acceptable: Id -> bool)
    requires LogOk(log)
    ensures LogOk(AppendTo(log, ev, acceptable))
  {
  }

  /** The events at or after a sequence. */
  function From(events: seq<Event>, from: int): (r: seq<Event>)
    ensures forall e :: e in r <==> e in events && e.sequence >= from
  {
    if events == [] then []
    else if events[0].sequence >= from then [events[0]] + From(events[1..], from)
    else From(events[1..], from)
  }

  lemma {:induction false} FromRises(events: seq<Event>, from: int)
    requires Rising(events)
    ensures Rising(From(events, from))
  {
    if events != [] {
      FromRises(events[1..], from);
      var rest := From(events[1..], from);
      forall i | 0 <= i < |rest| ensures events[0].sequence < rest[i].sequence {
        assert rest[i] in rest;
      }
    }
  }

  lemma {:induction false} FromConcat(a: seq<Event>, b: seq<Event>, from: int)
    ensures From(a + b, from) == From(a, from) + From(b, from)
  {
    if a == [] {
      assert a + b == b;
    } else {
      assert (a + b)[0] == a[0] && (a + b)[1..] == a[1..] + b;
      FromConcat(a[1..], b, from);
    }
  }

  lemma FromOneMore(events: seq<Event>, n: nat, from: int)
    requires n < |events|
    ensures From(events[..n + 1], from)
         == From(events[..n], from) + if events[n].sequence >= from then [events[n]] else []
  {
    assert events[..n + 1] == events[..n] + [events[n]];
    FromConcat(events[..n], [events[n]], from);
  }

  class Memory {
    const acceptable: Id -> bool
    var events: seq<Event>
    var next: nat
    var closed: bool

    function View(): Log
      reads this
    {
      Log(events, next, closed)
    }

    constructor (acceptable: Id -> bool)
      ensures View() == Log([], 0, false) && this.acceptable == acceptable
    {
      this.acceptable := acceptable;
      events, next, closed := [], 0, false;
    }

    /** The section of an append under the journal's lock. */
    method AppendAssigned(ev: Event) returns (r: Result<Event>)
      modifies this
      ensures View() == AppendTo(old(View()), ev, acceptable)
      ensures r == if Accepts(old(View()), ev, acceptable) then Ok(Stamp(ev, old(next))) else Refused
      ensures r.Ok? <==> !old(closed) && (ev.version == "" || ev.version == "1.0") && acceptable(ev.content)
      ensures r.Ok? ==> && r.value == Event("1.0", ev.content, old(next)) && events == old(events) + [r.value]
                        && next == old(next) + 1
      ensures r.Refused? ==> events == old(events) && next == old(next)
      ensures closed == old(closed)
    {
      if closed {
        return Refused;
      }
      var stored := ev;
      if stored.version == "" {
        stored := stored.(version := VERSION);
      }
      stored := stored.(sequence := next);
      if !Validates(stored, acceptable) {
        return Refused;
      }
      events := events + [stored];
      next := next + 1;
      return Ok(stored);
    }

    method Replay(from: int) returns (out: seq<Event>)
      ensures out == From(events, from)
    {
      out := [];
      for i := 0 to |events|
        invariant out == From(events[..i], from)
      {
        FromOneMore(events, i, from);
        if events[i].sequence >= from {
          out := out + [events[i]];
        }
      }
      assert events[..|events|] == events;
    }
  }

  // ---- the durable journal ----

  /** Loading takes the sequence of a line for the next one unless it lies below. */
  function Raised(log: Log, line: Event): Log {
    if line.sequence > log.next then log.(next := line.sequence) else log
  }

  /** What loading the lines of a file one by one leaves in memory. */
  function Load(lines: seq<Event>, n: nat, acceptable: Id -> bool): Result<Log>
    requires n <= |lines|
  {
    if n == 0 then Ok(Log([], 0, false))
    else
      var earlier := Load(lines, n - 1, acceptable);
      if earlier.Refused? then Refused
      else
        var raised := Raised(earlier.value, lines[n - 1]);
        if Accepts(raised, lines[n - 1], acceptable) then Ok(AppendTo(raised, lines[n - 1], acceptable)) else Refused
  }

  /** Lines a journal could have written: valid, with rising sequences. */
  ghost predicate Durable(lines: seq<Event>, acceptable: Id -> bool) {
    Rising(lines) && forall e :: e in lines ==> Validates(e, acceptable)
  }

  function NextAfter(lines: seq<Event>): int {
    if lines == [] then 0 else lines[|lines| - 1].sequence + 1
  }

  /** Loading one more durable line stores it as it is. */
  lemma LoadOneMore(lines: seq<Event>, n: nat, log: Log, acceptable: Id -> bool)
    requires n < |lines| && Rising(lines) && Validates(lines[n], acceptable)
    requires log.events == lines[..n] && log.next == NextAfter(lines[..n]) && !log.closed && LogOk(log)
    ensures var raised := Raised(log, lines[n]);
            && Accepts(raised, lines[n], acceptable)
            && AppendTo(raised, lines[n], acceptable) == Log(lines[..n + 1], NextAfter(lines[..n + 1]), false)
            && LogOk(Log(lines[..n + 1], NextAfter(lines[..n + 1]), false))
  {
    assert lines[..n + 1] == lines[..n] + [lines[n]];
    assert Stamp(lines[n], lines[n].sequence) == lines[n];
    forall e | e in lines[..n + 1] ensures 0 <= e.sequence <= lines[n].sequence {
      if e in lines[..n] {
        assert e in log.events;
      }
    }
  }

  lemma {:induction false} LoadOfDurable(lines: seq<Event>, n: nat, acceptable: Id -> bool)
    requires Durable(lines, acceptable) && n <= |lines|
    ensures Load(lines, n, acceptable).Ok?
    ensures var log := Load(lines, n, acceptable).value;
            log.events == lines[..n] && log.next == NextAfter(lines[..n]) && !log.closed && LogOk(log)
  {
    if n > 0 {
      LoadOfDurable(lines, n - 1, acceptable);
      var log := Load(lines, n - 1, acceptable).value;
      assert lines[n - 1] in lines;
      LoadOneMore(lines, n - 1, log, acceptable);
      LoadLine(lines, n, log, acceptable);
    }
  }

  lemma LoadLine(lines: seq<Event>, n: nat, log: Log, acceptable: Id -> bool)
    requires 0 < n <= |lines| && Load(lines, n - 1, acceptable) == Ok(log)
    ensures var raised := Raised(log, lines[n - 1]);
            Load(lines, n, acceptable)
              == if Accepts(raised, lines[n - 1], acceptable) then Ok(AppendTo(raised, lines[n - 1], acceptable))
                 else Refused
  {
  }

  lemma {:induction false} LoadedIsDurable(lines: seq<Event>, n: nat, acceptable: Id -> bool)
    requires n <= |lines| && Load(lines, n, acceptable).Ok?
    ensures var log := Load(lines, n, acceptable).value;
            |log.events| == n && LogOk(log) && !log.closed && forall e :: e in log.events ==> Validates(e, acceptable)
  {
    if n > 0 {
      LoadedIsDurable(lines, n - 1, acceptable);
      var log := Load(lines, n - 1, acceptable).value;
      LoadLine(lines, n, log, acceptable);
      AppendStaysDurable(Raised(log, lines[n - 1]), lines[n - 1], acceptable);
    }
  }

  lemma AppendStaysDurable(log: Log, ev: Event, acceptable: Id -> bool)
    requires LogOk(log) && !log.closed && forall e :: e in log.events ==> Validates(e, acceptable)
    ensures var after := AppendTo(log, ev, acceptable);
            LogOk(after) && !after.closed && forall e :: e in after.events ==> Validates(e, acceptable)
  {
    AppendKeepsLogOk(log, ev, acceptable);
  }

  /** A reopened journal replays the lines of its file exactly when their sequences rise and every
      line validates; lines that do not rise are given other sequences or refused. */
  lemma ReopenPreservesIff(lines: seq<Event>, acceptable: Id -> bool)
    ensures (var r := Load(lines, |lines|, acceptable); r.Ok? && r.value.events == lines)
        <==> Durable(lines, acceptable)
  {
    if Durable(lines, acceptable) {
      LoadOfDurable(lines, |lines|, acceptable);
      assert lines[..|lines|] == lines;
    }
    if Load(lines, |lines|, acceptable).Ok? {
      LoadedIsDurable(lines, |lines|, acceptable);
    }
  }

  /** A file journal: its lines and its index in memory. */
  datatype FileState = FileState(lines: seq<Event>, log: Log)

  datatype FileOp = Write(ev: Event, written: bool) | Reopen

  function FileStep(st: FileState, op: FileOp, acceptable: Id -> bool): Result<FileState> {
    match op
    case Write(ev, written) =>
      Ok(FileState(if Accepts(st.log, ev, acceptable) && written then st.lines + [Stamp(ev, st.log.next)] else st.lines,
                   AppendTo(st.log, ev, acceptable)))
    case Reopen =>
      var loaded := Load(st.lines, |st.lines|, acceptable);
      if loaded.Refused? then Refused else Ok(FileState(st.lines, loaded.value))
  }

  function FileRun(st: FileState, ops: seq<FileOp>, acceptable: Id -> bool): Result<FileState>
    decreases ops
  {
    if ops == [] then Ok(st)
    else
      var r := FileStep(st, ops[0], acceptable);
      if r.Refused? then Refused else FileRun(r.value, ops[1..], acceptable)
  }

  /** The lines are durable, were all indexed, and lie below the next sequence. */
  ghost predicate FileOk(st: FileState, acceptable: Id -> bool) {
    && Durable(st.lines, acceptable) && LogOk(st.log) && !st.log.closed
    && forall e :: e in st.lines ==> e in st.log.events
  }

  lemma FileStepKeepsOk(st: FileState, op: FileOp, acceptable: Id -> bool)
    requires FileOk(st, acceptable)
    ensures FileStep(st, op, acceptable).Ok? && FileOk(FileStep(st, op, acceptable).value, acceptable)
    ensures st.lines <= FileStep(st, op, acceptable).value.lines
  {
    match op {
      case Write(ev, written) =>
        AppendKeepsLogOk(st.log, ev, acceptable);
        var after := FileStep(st, op, acceptable).value;
        forall i, j | 0 <= i < j < |after.lines| ensures after.lines[i].sequence < after.lines[j].sequence {
          if j == |st.lines| {
            assert st.lines[i] in st.lines;
          }
        }
      case Reopen =>
        LoadOfDurable(st.lines, |st.lines|, acceptable);
        assert st.lines[..|st.lines|] == st.lines;
    }
  }

  lemma {:induction false} FileRunKeepsOk(st: FileState, ops: seq<FileOp>, acceptable: Id -> bool)
    requires FileOk(st, acceptable)
    ensures FileRun(st, ops, acceptable).Ok? && FileOk(FileRun(st, ops, acceptable).value, acceptable)
    ensures st.lines <= FileRun(st, ops, acceptable).value.lines
    decreases ops
  {
    if ops != [] {
      FileStepKeepsOk(st, ops[0], acceptable);
      FileRunKeepsOk(FileStep(st, ops[0], acceptable).value, ops[1..], acceptable);
    }
  }

  /** After any appends, failed writes and reopens, opening the file again succeeds, replays exactly
      the written events with their own sequences, and the next append lies above all of them. */
  lemma ReopenRoundTrip(ops: seq<FileOp>, acceptable: Id -> bool)
    ensures var empty := FileState([], Log([], 0, false));
            var end := FileRun(empty, ops, acceptable);
            && end.Ok?
            && var again := FileStep(end.value, Reopen, acceptable);
               && again.Ok? && again.value.lines == end.value.lines
               && From(again.value.log.events, 0) == again.value.log.events == end.value.lines
               && Rising(end.value.lines)
               && forall e :: e in end.value.lines ==> e.sequence < again.value.log.next
  {
    var empty := FileState([], Log([], 0, false));
    FileRunKeepsOk(empty, ops, acceptable);
    var lines := FileRun(empty, ops, acceptable).value.lines;
    LoadOfDurable(lines, |lines|, acceptable);
    assert lines[..|lines|] == lines;
    FromStart(lines);
  }

  lemma {:induction false} FromStart(events: seq<Event>)
    requires forall e :: e in events ==> e.sequence >= 0
    ensures From(events, 0) == events
  {
    if events != [] {
      assert events[0] in events;
      FromStart(events[1..]);
    }
  }

  // ---- sequences handed out twice ----

  /** The sequence an operation gives to an event. */
  function GivenBy(st: FileState, op: FileOp, acceptable: Id -> bool): seq<int> {
    if op.Write? && Accepts(st.log, op.ev, acceptable) then [st.log.next] else []
  }

  /** The sequences given to events, which live subscribers see whether or not the line is written. */
  function Given(st: FileState, ops: seq<FileOp>, acceptable: Id -> bool): seq<int>
    decreases ops
  {
    if ops == [] || FileStep(st, ops[0], acceptable).Refused? then []
    else GivenBy(st, ops[0], acceptable) + Given(FileStep(st, ops[0], acceptable).value, ops[1..], acceptable)
  }

  /** The last event accepted since the file was opened is not in it. */
  predicate TailMissing(st: FileState) {
    st.log.next != NextAfter(st.lines)
  }

  /** The file is reopened while its tail is missing, and an event is accepted some time after that. */
  predicate AppendsAfterLoss(st: FileState, ops: seq<FileOp>, lost: bool, acceptable: Id -> bool)
    decreases ops
  {
    && ops != [] && FileStep(st, ops[0], acceptable).Ok?
    && var next := FileStep(st, ops[0], acceptable).value;
       match ops[0]
       case Write(ev, _) =>
         (lost && Accepts(st.log, ev, acceptable)) || AppendsAfterLoss(next, ops[1..], lost, acceptable)
       case Reopen => AppendsAfterLoss(next, ops[1..], lost || TailMissing(st), acceptable)
  }

  /** What is known of the sequences given so far. After a loss the next one has been given before. */
  ghost predicate GivenOk(st: FileState, given: seq<int>, lost: bool) {
    if lost then st.log.next == NextAfter(st.lines) && st.log.next in given
    else
      && Distinct(given) && NextAfter(st.lines) <= st.log.next
      && (forall g :: g in given ==> g < st.log.next)
      && forall g :: NextAfter(st.lines) <= g < st.log.next ==> g in given
  }

  lemma WriteGives(st: FileState, given: seq<int>, ev: Event, written: bool, acceptable: Id -> bool)
    requires FileOk(st, acceptable) && GivenOk(st, given, false)
    ensures var next := FileStep(st, Write(ev, written), acceptable).value;
            GivenOk(next, given + GivenBy(st, Write(ev, written), acceptable), false)
  {
    if Accepts(st.log, ev, acceptable) {
      var n := st.log.next;
      var next := FileStep(st, Write(ev, written), acceptable).value;
      assert next.log.next == n + 1 && NextAfter(next.lines) == if written then n + 1 else NextAfter(st.lines);
      assert forall g :: g in given + [n] <==> g in given || g == n;
      assert forall i :: 0 <= i < |given| ==> given[i] in given;
    }
  }

  lemma ReopenGives(st: FileState, given: seq<int>, lost: bool, acceptable: Id -> bool)
    requires FileOk(st, acceptable) && GivenOk(st, given, lost)
    ensures FileStep(st, Reopen, acceptable).Ok?
    ensures GivenOk(FileStep(st, Reopen, acceptable).value, given, lost || TailMissing(st))
  {
    LoadOfDurable(st.lines, |st.lines|, acceptable);
    assert st.lines[..|st.lines|] == st.lines;
  }

  lemma RepeatedStaysRepeated(given: seq<int>, g: int, more: seq<int>)
    requires g in given
    ensures !Distinct(given + ([g] + more))
  {
    var i :| 0 <= i < |given| && given[i] == g;
    assert (given + ([g] + more))[i] == (given + ([g] + more))[|given|];
  }

  lemma {:induction false} GivenTwice(st: FileState, ops: seq<FileOp>, given: seq<int>, lost: bool,
                                      acceptable: Id -> bool)
    requires FileOk(st, acceptable) && GivenOk(st, given, lost) && Distinct(given)
    ensures Distinct(given + Given(st, ops, acceptable)) <==> !AppendsAfterLoss(st, ops, lost, acceptable)
    decreases ops, 1
  {
    if ops == [] {
      assert given + [] == given;
    } else {
      FileStepKeepsOk(st, ops[0], acceptable);
      var next := FileStep(st, ops[0], acceptable).value;
      var now := GivenBy(st, ops[0], acceptable);
      ConcatAssociates(given, now, Given(next, ops[1..], acceptable));
      assert now == [] ==> given + now == given;
      match ops[0]
      case Reopen =>
        ReopenGives(st, given, lost, acceptable);
        GivenTwice(next, ops[1..], given, lost || TailMissing(st), acceptable);
      case Write(ev, written) => GivenTwiceWriting(st, ops, given, lost, acceptable, next, now);
    }
  }

  lemma GivenTwiceWriting(st: FileState, ops: seq<FileOp>, given: seq<int>, lost: bool, acceptable: Id -> bool,
                          next: FileState, now: seq<int>)
    requires FileOk(st, acceptable) && GivenOk(st, given, lost) && Distinct(given)
    requires ops != [] && ops[0].Write? && FileStep(st, ops[0], acceptable) == Ok(next) && FileOk(next, acceptable)
    requires now == GivenBy(st, ops[0], acceptable)
    ensures Distinct((given + now) + Given(next, ops[1..], acceptable))
       <==> !AppendsAfterLoss(st, ops, lost, acceptable)
    decreases ops, 0
  {
    var rest := Given(next, ops[1..], acceptable);
    if lost && now != [] {
      RepeatedStaysRepeated(given, st.log.next, rest);
      ConcatAssociates(given, now, rest);
    } else {
      if lost {
        assert next == st;
      } else {
        WriteGives(st, given, ops[0].ev, ops[0].written, acceptable);
      }
      assert now == [] ==> given + now == given;
      GivenTwice(next, ops[1..], given + now, lost, acceptable);
    }
  }

  /** The exact condition for a sequence to be given to two events of one journal: the file is reopened
      after an append whose line was not written and no later line was, and appended to again. */
  lemma SequenceReusedIff(ops: seq<FileOp>, acceptable: Id -> bool)
    ensures var empty := FileState([], Log([], 0, false));
            Distinct(Given(empty, ops, acceptable)) <==> !AppendsAfterLoss(empty, ops, false, acceptable)
  {
    var empty := FileState([], Log([], 0, false));
    GivenTwice(empty, ops, [], false, acceptable);
    assert [] + Given(empty, ops, acceptable) == Given(empty, ops, acceptable);
  }

  /** A failed write, a reopen and one more append are enough. */
  lemma FailedWriteReused(ev: Event, acceptable: Id -> bool)
    requires ev.version == "" && acceptable(ev.content)
    ensures Given(FileState([], Log([], 0, false)), [Write(ev, false), Reopen, Write(ev, true)], acceptable) == [0, 0]
  {
    var ops := [Write(ev, false), Reopen, Write(ev, true)];
    var empty := FileState([], Log([], 0, false));
    assert ops[1..] == [Reopen, Write(ev, true)] && ops[1..][1..] == [Write(ev, true)] && ops[1..][1..][1..] == [];
    var failed := FileStep(empty, ops[0], acceptable).value;
    assert failed.lines == [];
    assert FileStep(failed, Reopen, acceptable) == Ok(empty);
    assert Given(empty, [Write(ev, true)], acceptable) == [0];
  }

  class File {
    const memory: Memory
    var lines: seq<Event>

    ghost predicate Valid()
      reads this, memory
    {
      FileOk(View(), memory.acceptable)
    }

    ghost function View(): FileState
      reads this, memory
    {
      FileState(lines, memory.View())
    }

    /** A file whose lines are indexed by the given memory. */
    constructor (stored: seq<Event>, index: Memory)
      requires FileOk(FileState(stored, index.View()), index.acceptable)
      ensures Valid() && memory == index && lines == stored
    {
      memory := index;
      lines := stored;
    }

    /** Indexes an event, then writes it; the write puts the whole line down or nothing. */
    method Append(ev: Event, written: bool) returns (r: Result<Event>)
      requires Valid()
      modifies this, memory
      ensures Valid()
      ensures Ok(View()) == FileStep(old(View()), Write(ev, written), memory.acceptable)
      ensures r.Ok? ==> written && lines == old(lines) + [r.value]
      ensures r.Refused? ==> lines == old(lines)
      ensures r.Ok? <==> written && memory.events != old(memory.events)
      ensures r == if Accepts(old(memory.View()), ev, memory.acceptable) && written
                   then Ok(Stamp(ev, old(memory.next))) else Refused
    {
      FileStepKeepsOk(View(), Write(ev, written), memory.acceptable);
      var stored := memory.AppendAssigned(ev);
      if stored.Refused? {
        return Refused;
      }
      if !written {
        return Refused;
      }
      lines := lines + [stored.value];
      return stored;
    }
  }

  lemma {:induction false} RefusedStaysRefused(lines: seq<Event>, n: nat, m: nat, acceptable: Id -> bool)
    requires n <= m <= |lines| && Load(lines, n, acceptable).Refused?
    ensures Load(lines, m, acceptable).Refused?
    decreases m
  {
    if n < m {
      RefusedStaysRefused(lines, n, m - 1, acceptable);
    }
  }

  /** Loads a file's lines into a new memory; a line that is refused fails the whole opening. */
  method OpenFile(stored: seq<Event>, acceptable: Id -> bool) returns (ok: bool, mem: Memory)
    ensures fresh(mem) && mem.acceptable == acceptable
    ensures ok == Load(stored, |stored|, acceptable).Ok?
    ensures ok ==> mem.View() == Load(stored, |stored|, acceptable).value
    ensures Durable(stored, acceptable) ==> ok && mem.events == stored && mem.next == NextAfter(stored)
  {
    mem := new Memory(acceptable);
    for i := 0 to |stored|
      invariant fresh(mem) && mem.acceptable == acceptable
      invariant Load(stored, i, acceptable) == Ok(mem.View())
    {
      if stored[i].sequence > mem.next {
        mem.next := stored[i].sequence;
      }
      var r := mem.AppendAssigned(stored[i]);
      if r.Refused? {
        RefusedStaysRefused(stored, i + 1, |stored|, acceptable);
        ReopenPreservesIff(stored, acceptable);
        return false, mem;
      }
    }
    ok := true;
    if Durable(stored, acceptable) {
      LoadOfDurable(stored, |stored|, acceptable);
      assert stored[..|stored|] == stored;
    }
  }
}
