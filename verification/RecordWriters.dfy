/** Several writers of the record store at once. Nothing holds a lock from the look at the old record to
    the write of the new one, or from there to the view, so a typed write is three steps. */
module RecordWriters {
  import opened Ordering
  import opened RecordStore

  /** A writer that was told its record changes the store, or one that has written it. */
  datatype Stage = Approved(rec: Record) | Stored(rec: Record)

  datatype Sys = Sys(records: Records, view: View, writers: map<Id, Stage>)

  datatype Action = Ask(w: Id, rec: Record) | Write(w: Id, written: bool) | Show(w: Id)

  /** A write that is refused or changes nothing ends at its first step; so does one whose file is not
      written at its second. The view's answer is dropped. */
  function Next(s: Sys, a: Action, rules: Rules): Option<Sys> {
    match a
    case Ask(w, rec) =>
      if w in s.writers then None
      else if PutOutcome(s.records, rec, true, rules) != Ok(true) then Some(s)
      else Some(s.(writers := s.writers[w := Approved(rec)]))
    case Write(w, written) =>
      if w !in s.writers || !s.writers[w].Approved? then None
      else
        var rec := s.writers[w].rec;
        if !written then Some(s.(writers := s.writers - {w}))
        else Some(s.(records := s.records[KeyOf(rec) := rec], writers := s.writers[w := Stored(rec)]))
    case Show(w) =>
      if w !in s.writers || !s.writers[w].Stored? then None
      else
        var shown := ProjectOutcome(s.view, s.writers[w].rec);
        Some(s.(view := if shown.Ok? then shown.value else s.view, writers := s.writers - {w}))
  }

  ghost predicate Reaches(s: Sys, acts: seq<Action>, t: Sys, rules: Rules)
    decreases acts
  {
    if acts == [] then s == t
    else Next(s, acts[0], rules).Some? && Reaches(Next(s, acts[0], rules).value, acts[1..], t, rules)
  }

  /** What every run keeps: sound records, writers with valid records, and no entry without a record. */
  ghost predicate Sound(s: Sys, rules: Rules) {
    && RulesOk(rules) && StoreOk(s.records, rules) && s.view.Keys <= s.records.Keys
    && forall w :: w in s.writers ==>
         Validates(s.writers[w].rec, rules) && (s.writers[w].Stored? ==> KeyOf(s.writers[w].rec) in s.records)
  }

  lemma StepKeepsSound(s: Sys, a: Action, rules: Rules)
    requires Sound(s, rules) && Next(s, a, rules).Some?
    ensures Sound(Next(s, a, rules).value, rules)
  {
  }

  // ---- when the view catches up ----

  ghost predicate OnItsWay(s: Sys, rec: Record) {
    exists w :: w in s.writers && s.writers[w] == Stored(rec)
  }

  predicate Shows(view: View, k: Key, rec: Record) {
    k in view && view[k] == rec
  }

  /** The view has the key's record, or some writer is about to show it. */
  ghost predicate SettledAt(s: Sys, k: Key) {
    k in s.records ==> Shows(s.view, k, s.records[k]) || OnItsWay(s, s.records[k])
  }

  /** The step of w leaves its key behind: no other writer shows the record the store has, and this one
      shows it in vain, or puts another in its place. */
  ghost predicate LeavesBehind(s: Sys, w: Id)
    requires w in s.writers && s.writers[w].Stored? && KeyOf(s.writers[w].rec) in s.records
  {
    var rec := s.writers[w].rec;
    var k := KeyOf(rec);
    var now := s.records[k];
    && (forall v :: v in s.writers && v != w ==> s.writers[v] != Stored(now))
    && if rec == now then
         k in s.view && s.view[k] != now && (s.view[k].hash == now.hash || now.revision < s.view[k].revision)
       else rec.hash != now.hash && rec.revision >= now.revision
  }

  /** Showing a record keeps its key settled exactly when it does not leave it behind. */
  lemma ShowKeepsIff(s: Sys, w: Id, rules: Rules)
    requires Sound(s, rules) && Next(s, Show(w), rules).Some?
    requires SettledAt(s, KeyOf(s.writers[w].rec))
    ensures SettledAt(Next(s, Show(w), rules).value, KeyOf(s.writers[w].rec)) <==> !LeavesBehind(s, w)
  {
    var rec := s.writers[w].rec;
    var k := KeyOf(rec);
    var now := s.records[k];
    var t := Next(s, Show(w), rules).value;
    assert OnItsWay(t, now) <==> exists v :: v in s.writers && v != w && s.writers[v] == Stored(now) by {
      if v :| v in s.writers && v != w && s.writers[v] == Stored(now) {
        assert t.writers[v] == Stored(now);
      }
    }
  }

  /** A key that was left behind stays so, whatever is shown. */
  lemma ShowStaysBehind(s: Sys, w: Id, rules: Rules)
    requires Sound(s, rules) && Next(s, Show(w), rules).Some? && !SettledAt(s, KeyOf(s.writers[w].rec))
    ensures !SettledAt(Next(s, Show(w), rules).value, KeyOf(s.writers[w].rec))
  {
    var k := KeyOf(s.writers[w].rec);
    var t := Next(s, Show(w), rules).value;
    assert s.writers[w].rec != s.records[k];
    assert forall v :: v in t.writers ==> v in s.writers && t.writers[v] == s.writers[v];
  }

  /** A key is settled again when it is written again, and no step about another key touches it. */
  lemma OtherStepsSettle(s: Sys, a: Action, k: Key, rules: Rules)
    requires Sound(s, rules) && Next(s, a, rules).Some?
    requires a.Show? ==> KeyOf(s.writers[a.w].rec) != k
    ensures SettledAt(Next(s, a, rules).value, k) <==> SettledAt(s, k) || WritesAt(s, a, k)
  {
    var t := Next(s, a, rules).value;
    if WritesAt(s, a, k) {
      assert t.writers[a.w] == Stored(t.records[k]);
    } else if k in s.records {
      var now := s.records[k];
      if v :| v in s.writers && s.writers[v] == Stored(now) {
        assert t.writers[v] == Stored(now);
      }
      if v :| v in t.writers && t.writers[v] == Stored(now) {
        assert s.writers[v] == Stored(now);
      }
    }
  }

  predicate WritesAt(s: Sys, a: Action, k: Key) {
    a.Write? && a.written && a.w in s.writers && KeyOf(s.writers[a.w].rec) == k
  }

  /** The last thing of note that happens to a key over a run: it is left behind, and not written again. */
  ghost predicate LeftBehind(s: Sys, acts: seq<Action>, k: Key, behind: bool, rules: Rules)
    requires Sound(s, rules)
    decreases acts
  {
    if acts == [] || Next(s, acts[0], rules).None? then behind
    else
      StepKeepsSound(s, acts[0], rules);
      LeftBehind(Next(s, acts[0], rules).value, acts[1..], k, BehindAfter(s, acts[0], k, behind, rules), rules)
  }

  ghost predicate BehindAfter(s: Sys, a: Action, k: Key, behind: bool, rules: Rules)
    requires Sound(s, rules) && Next(s, a, rules).Some?
  {
    !WritesAt(s, a, k) && (behind || (a.Show? && KeyOf(s.writers[a.w].rec) == k && LeavesBehind(s, a.w)))
  }

  lemma StepSettles(s: Sys, a: Action, k: Key, rules: Rules)
    requires Sound(s, rules) && Next(s, a, rules).Some?
    ensures SettledAt(Next(s, a, rules).value, k) <==> !BehindAfter(s, a, k, !SettledAt(s, k), rules)
  {
    if a.Show? && KeyOf(s.writers[a.w].rec) == k {
      if SettledAt(s, k) {
        ShowKeepsIff(s, a.w, rules);
      } else {
        ShowStaysBehind(s, a.w, rules);
      }
    } else {
      OtherStepsSettle(s, a, k, rules);
    }
  }

  lemma {:induction false} RunSettles(s: Sys, acts: seq<Action>, t: Sys, k: Key, rules: Rules)
    requires Sound(s, rules) && Reaches(s, acts, t, rules)
    ensures Sound(t, rules)
    ensures SettledAt(t, k) <==> !LeftBehind(s, acts, k, !SettledAt(s, k), rules)
    decreases acts
  {
    if acts != [] {
      var next := Next(s, acts[0], rules).value;
      StepKeepsSound(s, acts[0], rules);
      StepSettles(s, acts[0], k, rules);
      RunSettles(next, acts[1..], t, k, rules);
    }
  }

  ghost predicate AtRest(s: Sys) {
    s.writers == map[]
  }

  ghost predicate Follows(s: Sys) {
    s.view == ProjectAll(s.records)
  }

  lemma FollowsAtRest(s: Sys, rules: Rules)
    requires Sound(s, rules) && AtRest(s)
    ensures Follows(s) <==> forall k :: SettledAt(s, k)
  {
    if forall k :: SettledAt(s, k) {
      forall k | k in s.records ensures k in s.view && s.view[k] == s.records[k] {
        assert SettledAt(s, k);
      }
    }
  }

  /** Over a run from a state at rest, k is left behind and not written again. */
  ghost predicate EndsBehind(s: Sys, acts: seq<Action>, k: Key, rules: Rules)
    requires Sound(s, rules)
  {
    LeftBehind(s, acts, k, false, rules)
  }

  /** The exact condition for a view that follows its store under concurrent writers: once no write is
      under way it equals the records exactly when every key left behind was written again. */
  lemma FollowsIff(s: Sys, acts: seq<Action>, t: Sys, rules: Rules)
    requires Sound(s, rules) && Follows(s) && AtRest(s)
    requires Reaches(s, acts, t, rules) && AtRest(t)
    ensures Follows(t) <==> forall k :: !EndsBehind(s, acts, k, rules)
  {
    forall k ensures SettledAt(t, k) <==> !EndsBehind(s, acts, k, rules) {
      assert SettledAt(s, k);
      RunSettles(s, acts, t, k, rules);
    }
    RunSettles(s, acts, t, Key(EMPTY, EMPTY), rules);
    FollowsAtRest(t, rules);
  }

  // ---- one writer of a key at a time ----

  /** Every write of a key is asked for when no other write of that key is under way. */
  ghost predicate TakingTurns(s: Sys, acts: seq<Action>, rules: Rules)
    decreases acts
  {
    acts == [] || Next(s, acts[0], rules).None?
    || ((acts[0].Ask? ==> forall v :: v in s.writers ==> KeyOf(s.writers[v].rec) != KeyOf(acts[0].rec))
        && TakingTurns(Next(s, acts[0], rules).value, acts[1..], rules))
  }

  /** What a writer that has its key to itself can rely on. */
  ghost predicate HasKey(s: Sys, w: Id, rules: Rules)
    requires w in s.writers
  {
    var k := KeyOf(s.writers[w].rec);
    && (forall v :: v in s.writers && v != w ==> KeyOf(s.writers[v].rec) != k)
    && match s.writers[w]
       case Approved(rec) => PutOutcome(s.records, rec, true, rules) == Ok(true)
       case Stored(rec) =>
         k in s.records && s.records[k] == rec
         && (k in s.view ==> s.view[k].hash != rec.hash && s.view[k].revision < rec.revision)
  }

  ghost predicate Exclusive(s: Sys, rules: Rules) {
    (forall w :: w in s.writers ==> HasKey(s, w, rules)) && forall k :: SettledAt(s, k)
  }

  lemma TurnKeepsWriters(s: Sys, a: Action, rules: Rules, w: Id)
    requires Sound(s, rules) && Exclusive(s, rules) && Next(s, a, rules).Some?
    requires a.Ask? ==> forall v :: v in s.writers ==> KeyOf(s.writers[v].rec) != KeyOf(a.rec)
    requires w in Next(s, a, rules).value.writers
    ensures HasKey(Next(s, a, rules).value, w, rules)
  {
    if w in s.writers {
      assert HasKey(s, w, rules) && SettledAt(s, KeyOf(s.writers[w].rec));
    }
    if a.w in s.writers {
      assert HasKey(s, a.w, rules) && SettledAt(s, KeyOf(s.writers[a.w].rec));
    }
  }

  lemma TurnKeepsSettled(s: Sys, a: Action, rules: Rules, k: Key)
    requires Sound(s, rules) && Exclusive(s, rules) && Next(s, a, rules).Some?
    ensures SettledAt(Next(s, a, rules).value, k)
  {
    assert SettledAt(s, k);
    if a.Show? {
      assert HasKey(s, a.w, rules);
    }
    StepSettles(s, a, k, rules);
  }

  lemma TurnGoesForward(s: Sys, a: Action, rules: Rules)
    requires Sound(s, rules) && Exclusive(s, rules) && Next(s, a, rules).Some?
    ensures Later(s.records, Next(s, a, rules).value.records)
  {
    if a.w in s.writers {
      assert HasKey(s, a.w, rules);
    }
  }

  /** With one writer of a key at a time, whatever is under way about other keys, no write is lost, the
      store never goes back, and the view follows it. */
  lemma {:induction false} TurnsKeepStoreAndView(s: Sys, acts: seq<Action>, t: Sys, rules: Rules)
    requires Sound(s, rules) && Exclusive(s, rules)
    requires Reaches(s, acts, t, rules) && TakingTurns(s, acts, rules)
    ensures Sound(t, rules) && Exclusive(t, rules) && Later(s.records, t.records)
    ensures AtRest(t) ==> Follows(t)
    decreases acts
  {
    if acts == [] {
      if AtRest(t) {
        FollowsAtRest(t, rules);
      }
    } else {
      var next := Next(s, acts[0], rules).value;
      StepKeepsSound(s, acts[0], rules);
      forall w | w in next.writers ensures HasKey(next, w, rules) {
        TurnKeepsWriters(s, acts[0], rules, w);
      }
      forall k ensures SettledAt(next, k) {
        TurnKeepsSettled(s, acts[0], rules, k);
      }
      TurnGoesForward(s, acts[0], rules);
      TurnsKeepStoreAndView(next, acts[1..], t, rules);
      LaterChains(s.records, next.records, t.records);
    }
  }

  // ---- without that ----

  /** A write takes a record back exactly when another one of at least its revision was written after its
      writer had looked. */
  lemma GoesBackIff(s: Sys, w: Id, rules: Rules)
    requires Sound(s, rules) && Next(s, Write(w, true), rules).Some?
    ensures var rec := s.writers[w].rec;
            Later(s.records, Next(s, Write(w, true), rules).value.records)
            <==> (KeyOf(rec) in s.records ==>
                    s.records[KeyOf(rec)].revision < rec.revision || s.records[KeyOf(rec)] == rec)
  {
    var rec := s.writers[w].rec;
    var after := Next(s, Write(w, true), rules).value.records;
    assert after[KeyOf(rec)] == rec;
  }

  const NOTHING: Sys := Sys(map[], map[], map[])

  /** Two writers that both looked before either wrote: the older revision ends up in the store, the newer
      one in the view, and the view's refusal of the older is dropped. */
  lemma OlderWriteLast(older: Record, newer: Record, v: Id, w: Id, rules: Rules) returns (acts: seq<Action>, t: Sys)
    requires RulesOk(rules) && v != w && Validates(older, rules) && Validates(newer, rules)
    requires KeyOf(older) == KeyOf(newer) && older.revision < newer.revision && older.hash != newer.hash
    ensures Reaches(NOTHING, acts, t, rules) && AtRest(t)
    ensures t.records == map[KeyOf(older) := older] && t.view == map[KeyOf(older) := newer]
  {
    var k := KeyOf(older);
    var asked := Sys(map[], map[], map[v := Approved(newer), w := Approved(older)]);
    var wrote := Sys(map[k := older], map[], map[v := Stored(newer), w := Stored(older)]);
    t := Sys(map[k := older], map[k := newer], map[]);
    acts := [Ask(v, newer), Ask(w, older), Write(v, true), Write(w, true), Show(v), Show(w)];
    Steps2(NOTHING, Ask(v, newer), Ask(w, older), asked, rules);
    Steps2(asked, Write(v, true), Write(w, true), wrote, rules);
    Steps2(wrote, Show(v), Show(w), t, rules);
    ReachesConcat(NOTHING, [Ask(v, newer), Ask(w, older)], asked, [Write(v, true), Write(w, true)], wrote, rules);
    ReachesConcat(NOTHING, [Ask(v, newer), Ask(w, older)] + [Write(v, true), Write(w, true)], wrote, [Show(v), Show(w)],
                  t, rules);
    assert acts == [Ask(v, newer), Ask(w, older)] + [Write(v, true), Write(w, true)] + [Show(v), Show(w)];
  }

  lemma Steps2(s: Sys, a: Action, b: Action, t: Sys, rules: Rules)
    requires Next(s, a, rules).Some? && Next(Next(s, a, rules).value, b, rules).Some?
    requires var u := Next(Next(s, a, rules).value, b, rules).value;
             u.records == t.records && u.view == t.view && u.writers == t.writers
    ensures Reaches(s, [a, b], t, rules)
  {
    assert [a, b][1..] == [b] && [b][1..] == [];
    assert Reaches(t, [], t, rules);
    assert Reaches(Next(s, a, rules).value, [b], t, rules);
  }

  lemma {:induction false} ReachesConcat(s: Sys, a: seq<Action>, t: Sys, b: seq<Action>, u: Sys, rules: Rules)
    requires Reaches(s, a, t, rules) && Reaches(t, b, u, rules)
    ensures Reaches(s, a + b, u, rules)
    decreases a
  {
    if a == [] {
      assert a + b == b;
    } else {
      assert (a + b)[0] == a[0] && (a + b)[1..] == a[1..] + b;
      ReachesConcat(Next(s, a[0], rules).value, a[1..], t, b, u, rules);
    }
  }

  /** A writer looks and writes in one go. */
  function AtOnce(w: Id, rec: Record): seq<Action> {
    [Ask(w, rec), Write(w, true)]
  }

  lemma WritesAtOnce(s: Sys, w: Id, rec: Record, rules: Rules)
    requires w !in s.writers && PutOutcome(s.records, rec, true, rules) == Ok(true)
    ensures Reaches(s, AtOnce(w, rec),
                    Sys(s.records[KeyOf(rec) := rec], s.view, s.writers[w := Stored(rec)]), rules)
  {
    Steps2(s, Ask(w, rec), Write(w, true), Sys(s.records[KeyOf(rec) := rec], s.view, s.writers[w := Stored(rec)]),
           rules);
  }

  lemma ThreeWrites(s: Sys, a: Record, b: Record, c: Record, u: Id, v: Id, w: Id, t: Sys, rules: Rules)
    requires RulesOk(rules) && u != v && v != w && u != w && s.records == s.view == map[] && AtRest(s)
    requires Validates(a, rules) && Validates(b, rules) && Validates(c, rules) && KeyOf(a) == KeyOf(b) == KeyOf(c)
    requires a.revision < b.revision < c.revision && a.hash == c.hash && a.hash != b.hash
    requires t == Sys(map[KeyOf(a) := c], map[], map[u := Stored(a), v := Stored(b), w := Stored(c)])
    ensures Reaches(s, AtOnce(u, a) + AtOnce(v, b) + AtOnce(w, c), t, rules)
  {
    var one := Sys(s.records[KeyOf(a) := a], s.view, s.writers[u := Stored(a)]);
    var two := Sys(one.records[KeyOf(b) := b], one.view, one.writers[v := Stored(b)]);
    var three := Sys(two.records[KeyOf(c) := c], two.view, two.writers[w := Stored(c)]);
    WritesAtOnce(s, u, a, rules);
    WritesAtOnce(one, v, b, rules);
    WritesAtOnce(two, w, c, rules);
    ReachesConcat(s, AtOnce(u, a), one, AtOnce(v, b), two, rules);
    ReachesConcat(s, AtOnce(u, a) + AtOnce(v, b), two, AtOnce(w, c), three, rules);
    assert three.records == t.records && three.writers == t.writers;
  }

  lemma ThreeShows(s: Sys, a: Record, b: Record, c: Record, u: Id, v: Id, w: Id, t: Sys, rules: Rules)
    requires RulesOk(rules) && u != v && v != w && u != w
    requires Validates(a, rules) && KeyOf(a) == KeyOf(b) == KeyOf(c)
    requires a.revision < b.revision && a.hash == c.hash && a.hash != b.hash
    requires s == Sys(map[KeyOf(a) := c], map[], map[u := Stored(a), v := Stored(b), w := Stored(c)])
    requires t == Sys(map[KeyOf(a) := c], map[KeyOf(a) := b], map[])
    ensures Reaches(s, [Show(u), Show(w)] + [Show(v)], t, rules)
  {
    var shown := Sys(s.records, map[KeyOf(a) := a], map[v := Stored(b)]);
    Steps2(s, Show(u), Show(w), shown, rules);
    var last := Next(shown, Show(v), rules).value;
    assert last.view == t.view && last.writers == t.writers;
    assert [Show(v)][1..] == [] && Reaches(t, [], t, rules) && Reaches(shown, [Show(v)], t, rules);
    ReachesConcat(s, [Show(u), Show(w)], shown, [Show(v)], t, rules);
  }

  /** Even when every writer looks and writes in one go, content that returns is lost on the way to the
      view: the third write brings back what the first one wrote, and the view takes it for that. */
  lemma ReturningContent(a: Record, b: Record, c: Record, u: Id, v: Id, w: Id, rules: Rules)
    returns (acts: seq<Action>, t: Sys)
    requires RulesOk(rules) && u != v && v != w && u != w
    requires Validates(a, rules) && Validates(b, rules) && Validates(c, rules) && KeyOf(a) == KeyOf(b) == KeyOf(c)
    requires a.revision < b.revision < c.revision && a.hash == c.hash && a.hash != b.hash
    ensures acts == AtOnce(u, a) + AtOnce(v, b) + AtOnce(w, c) + ([Show(u), Show(w)] + [Show(v)])
    ensures Reaches(NOTHING, acts, t, rules) && AtRest(t)
    ensures t.records == map[KeyOf(a) := c] && t.view == map[KeyOf(a) := b]
  {
    var three := Sys(map[KeyOf(a) := c], map[], map[u := Stored(a), v := Stored(b), w := Stored(c)]);
    t := Sys(map[KeyOf(a) := c], map[KeyOf(a) := b], map[]);
    acts := AtOnce(u, a) + AtOnce(v, b) + AtOnce(w, c) + ([Show(u), Show(w)] + [Show(v)]);
    ThreeWrites(NOTHING, a, b, c, u, v, w, three, rules);
    ThreeShows(three, a, b, c, u, v, w, t, rules);
    ReachesConcat(NOTHING, AtOnce(u, a) + AtOnce(v, b) + AtOnce(w, c), three, [Show(u), Show(w)] + [Show(v)], t, rules);
  }
}
