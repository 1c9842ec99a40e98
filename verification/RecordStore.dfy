/** The canonical record store and the disposable view derived from it. */
module RecordStore {
  import opened Ordering

  datatype Key = Key(kind: Id, id: Id)

  /** data is a record's canonical JSON, hash what its writer claims for it. */
  datatype Record = Record(kind: Id, id: Id, revision: int, data: Id, hash: Id)

  /** A projected record has the same fields as the record it comes from. */
  type Entry = Record

  type Records = map<Key, Record>
  type View = map<Key, Entry>

  datatype Error = Invalid | Stale | NotWritten

  datatype Result<+T> = Ok(value: T) | Err(error: Error)

  /** What the store takes as given: which names are safe path segments, and the hash of data. */
  datatype Rules = Rules(safe: Id -> bool, hash: Id -> Id)

  ghost predicate RulesOk(rules: Rules) {
    !rules.safe(EMPTY)
  }

  function KeyOf(r: Record): Key {
    Key(r.kind, r.id)
  }

  predicate Validates(r: Record, rules: Rules) {
    rules.safe(r.kind) && rules.safe(r.id) && r.revision >= 0 && rules.hash(r.data) == r.hash
  }

  /** Every stored record validates and lies under its own key. */
  ghost predicate StoreOk(records: Records, rules: Rules) {
    forall k :: k in records ==> KeyOf(records[k]) == k && Validates(records[k], rules)
  }

  // ---- writing a record ----

  /** Whether a write changes the store, or why it is refused. */
  function PutOutcome(records: Records, rec: Record, written: bool, rules: Rules): Result<bool> {
    if !Validates(rec, rules) then Err(Invalid)
    else if KeyOf(rec) in records && records[KeyOf(rec)].hash == rec.hash then Ok(false)
    else if KeyOf(rec) in records && rec.revision <= records[KeyOf(rec)].revision then Err(Stale)
    else if !written then Err(NotWritten)
    else Ok(true)
  }

  function PutTo(records: Records, rec: Record, written: bool, rules: Rules): Records {
    if PutOutcome(records, rec, written, rules) == Ok(true) then records[KeyOf(rec) := rec] else records
  }

  lemma PutKeepsStoreOk(records: Records, rec: Record, written: bool, rules: Rules)
    requires StoreOk(records, rules)
    ensures StoreOk(PutTo(records, rec, written, rules), rules)
    ensures Later(records, PutTo(records, rec, written, rules))
  {
  }

  /** A later state of a store: no record is lost or goes back, and a revision names one content. */
  ghost predicate Later(before: Records, after: Records) {
    forall k :: k in before ==>
      && k in after && before[k].revision <= after[k].revision
      && (after[k].revision == before[k].revision ==> after[k] == before[k])
  }

  // ---- listing ----

  predicate Less(a: Key, b: Key) {
    a.kind < b.kind || (a.kind == b.kind && a.id < b.id)
  }

  ghost predicate ByKey(s: seq<Record>) {
    forall i, j :: 0 <= i < j < |s| ==> Less(KeyOf(s[i]), KeyOf(s[j]))
  }

  /** s holds exactly the records under some of the keys, by kind then id. */
  ghost predicate Lists(s: seq<Record>, records: Records, keys: set<Key>)
    requires keys <= records.Keys
  {
    && ByKey(s)
    && (forall r :: r in s ==> KeyOf(r) in keys && records[KeyOf(r)] == r)
    && (forall k :: k in keys ==> records[k] in s)
  }

  function InsertRecord(r: Record, s: seq<Record>): (out: seq<Record>)
    ensures forall x :: x in out <==> x == r || x in s
  {
    if s == [] || Less(KeyOf(r), KeyOf(s[0])) then [r] + s else [s[0]] + InsertRecord(r, s[1..])
  }

  lemma {:induction false} InsertAscends(r: Record, s: seq<Record>)
    requires ByKey(s) && forall x :: x in s ==> KeyOf(x) != KeyOf(r)
    ensures ByKey(InsertRecord(r, s))
  {
    if s != [] && !Less(KeyOf(r), KeyOf(s[0])) {
      InsertAscends(r, s[1..]);
      var rest := InsertRecord(r, s[1..]);
      forall j | 0 <= j < |rest| ensures Less(KeyOf(s[0]), KeyOf(rest[j])) {
        assert rest[j] in rest;
        if rest[j] != r {
          var k :| 0 <= k < |s[1..]| && s[1..][k] == rest[j];
          assert s[k + 1] == rest[j];
        } else {
          assert s[0] in s;
        }
      }
    }
  }

  // ---- the view ----

  function ProjectAll(records: Records): View {
    records
  }

  /** Whether the view takes an entry, and what it then holds. */
  function ProjectOutcome(view: View, e: Entry): Result<View> {
    if e.kind == EMPTY || e.id == EMPTY then Err(Invalid)
    else if KeyOf(e) in view && view[KeyOf(e)].hash == e.hash then Ok(view)
    else if KeyOf(e) in view && e.revision < view[KeyOf(e)].revision then Err(Stale)
    else Ok(view[KeyOf(e) := e])
  }

  // ---- the objects ----

  class Store {
    const rules: Rules
    var records: Records

    constructor (rules: Rules)
      ensures records == map[] && this.rules == rules
    {
      this.rules := rules;
      records := map[];
    }

    /** written is whether the atomic file write succeeds. */
    method PutRecord(rec: Record, written: bool) returns (r: Result<bool>)
      modifies this
      ensures r == PutOutcome(old(records), rec, written, rules)
      ensures records == PutTo(old(records), rec, written, rules)
      ensures var k := Key(rec.kind, rec.id);
              var valid := rules.safe(rec.kind) && rules.safe(rec.id) && rec.revision >= 0
                           && rules.hash(rec.data) == rec.hash;
              var known := k in old(records);
              && (r == Err(Invalid) <==> !valid)
              && (r == Ok(false) <==> valid && known && old(records)[k].hash == rec.hash)
              && (r == Err(Stale) <==> valid && known && old(records)[k].hash != rec.hash
                                       && old(records)[k].revision >= rec.revision)
              && (r == Ok(true) ==> written && (known ==> old(records)[k].revision < rec.revision))
              && records == if r == Ok(true) then old(records)[k := rec] else old(records)
    {
      if !Validates(rec, rules) {
        return Err(Invalid);
      }
      var k := KeyOf(rec);
      if k in records {
        var existing := records[k];
        if existing.hash == rec.hash {
          return Ok(false);
        }
        if rec.revision <= existing.revision {
          return Err(Stale);
        }
      }
      if !written {
        return Err(NotWritten);
      }
      records := records[k := rec];
      return Ok(true);
    }

    /** Walks the records in any order and sorts what it found. */
    method ListAllRecords() returns (all: seq<Record>)
      requires StoreOk(records, rules)
      ensures Lists(all, records, records.Keys)
      ensures forall i, j :: 0 <= i < j < |all| ==>
                all[i].kind < all[j].kind || (all[i].kind == all[j].kind && all[i].id < all[j].id)
    {
      all := [];
      var rest := records.Keys;
      while rest != {}
        invariant rest <= records.Keys && Lists(all, records, records.Keys - rest)
        decreases |rest|
      {
        var k: Key :| k in rest;
        InsertAscends(records[k], all);
        all := InsertRecord(records[k], all);
        rest := rest - {k};
      }
      assert records.Keys - {} == records.Keys;
    }
  }

  class MemProjection {
    var entries: View

    constructor ()
      ensures entries == map[]
    {
      entries := map[];
    }

    method Put(e: Entry) returns (r: Result<()>)
      modifies this
      ensures r.Ok? == ProjectOutcome(old(entries), e).Ok?
      ensures entries == if r.Ok? then ProjectOutcome(old(entries), e).value else old(entries)
      ensures var k := Key(e.kind, e.id);
              var known := k in old(entries);
              && (r == Err(Invalid) <==> e.kind == EMPTY || e.id == EMPTY)
              && (r == Err(Stale) <==> && e.kind != EMPTY && e.id != EMPTY && known
                                       && old(entries)[k].hash != e.hash && old(entries)[k].revision > e.revision)
              && entries == if r.Ok? && !(known && old(entries)[k].hash == e.hash) then old(entries)[k := e]
                            else old(entries)
    {
      if e.kind == EMPTY || e.id == EMPTY {
        return Err(Invalid);
      }
      var k := KeyOf(e);
      if k in entries {
        var existing := entries[k];
        if existing.hash == e.hash {
          return Ok(());
        }
        if e.revision < existing.revision {
          return Err(Stale);
        }
      }
      entries := entries[k := e];
      return Ok(());
    }

    method Reset()
      modifies this
      ensures entries == map[]
    {
      entries := map[];
    }
  }

  function Keys(s: seq<Record>): (r: set<Key>)
    ensures forall k :: k in r <==> exists i :: 0 <= i < |s| && KeyOf(s[i]) == k
  {
    set i | 0 <= i < |s| :: KeyOf(s[i])
  }

  lemma NextKeyIsNew(all: seq<Record>, i: nat, records: Records)
    requires i < |all| && Lists(all, records, records.Keys)
    ensures KeyOf(all[i]) !in Keys(all[..i]) && Keys(all[..i + 1]) == Keys(all[..i]) + {KeyOf(all[i])}
    ensures KeyOf(all[i]) in records && records[KeyOf(all[i])] == all[i]
  {
    assert all[i] in all;
    forall j | 0 <= j < i ensures KeyOf(all[..i][j]) != KeyOf(all[i]) {
      assert Less(KeyOf(all[j]), KeyOf(all[i]));
    }
    forall k ensures k in Keys(all[..i + 1]) <==> k in Keys(all[..i]) || k == KeyOf(all[i]) {
      if k in Keys(all[..i]) {
        var j :| 0 <= j < i && KeyOf(all[..i][j]) == k;
        assert KeyOf(all[..i + 1][j]) == k;
      }
      if k == KeyOf(all[i]) {
        assert KeyOf(all[..i + 1][i]) == k;
      }
    }
  }

  lemma ListedKeys(all: seq<Record>, records: Records)
    requires Lists(all, records, records.Keys) && forall k :: k in records ==> KeyOf(records[k]) == k
    ensures Keys(all) == records.Keys
  {
    forall k | k in records ensures k in Keys(all) {
      var i :| 0 <= i < |all| && all[i] == records[k];
      assert KeyOf(all[i]) == k;
    }
    forall k | k in Keys(all) ensures k in records {
      var i :| 0 <= i < |all| && KeyOf(all[i]) == k;
      assert all[i] in all;
    }
  }

  /** Puts the listed records into an empty view one by one. */
  method Refill(p: MemProjection, all: seq<Record>, ghost records: Records, ghost rules: Rules) returns (r: Result<()>)
    requires StoreOk(records, rules) && RulesOk(rules) && Lists(all, records, records.Keys) && p.entries == map[]
    modifies p
    ensures r.Ok? && p.entries.Keys == Keys(all)
    ensures forall k :: k in p.entries ==> k in records && p.entries[k] == records[k]
  {
    for i := 0 to |all|
      invariant p.entries.Keys == Keys(all[..i])
      invariant forall k :: k in p.entries ==> k in records && p.entries[k] == records[k]
    {
      NextKeyIsNew(all, i, records);
      assert Validates(records[KeyOf(all[i])], rules);
      r := p.Put(all[i]);
      if r.Err? {
        assert false;
      }
    }
    r := Ok(());
    assert all[..|all|] == all;
  }

  /** Rebuilding never fails on a well-formed store and leaves exactly its records, whatever the view held. */
  method Rebuild(p: MemProjection, s: Store) returns (r: Result<()>)
    requires StoreOk(s.records, s.rules) && RulesOk(s.rules)
    modifies p
    ensures r.Ok? && p.entries == ProjectAll(s.records)
  {
    var all := s.ListAllRecords();
    p.Reset();
    r := Refill(p, all, s.records, s.rules);
    ListedKeys(all, s.records);
  }

  // ---- the repositories' write path ----

  /** A repository's state: the store's records and the view beside them. */
  datatype State = State(records: Records, view: View)

  datatype Op = PutTyped(rec: Record, written: bool) | Refresh

  /** A typed write stores first, and refreshes the view only after a change; its error is dropped. */
  function Step(st: State, op: Op, rules: Rules): State {
    match op
    case Refresh => st.(view := ProjectAll(st.records))
    case PutTyped(rec, written) =>
      var records := PutTo(st.records, rec, written, rules);
      if PutOutcome(st.records, rec, written, rules) != Ok(true) then st.(records := records)
      else
        var projected := ProjectOutcome(st.view, rec);
        State(records, if projected.Ok? then projected.value else st.view)
  }

  function Run(st: State, ops: seq<Op>, rules: Rules): State
    decreases ops
  {
    if ops == [] then st else Run(Step(st, ops[0], rules), ops[1..], rules)
  }

  ghost predicate Coherent(st: State) {
    st.view == ProjectAll(st.records)
  }

  /** While the view is coherent, refreshing it after a write cannot fail. */
  lemma ProjectionErrorNeverHappens(st: State, rec: Record, written: bool, rules: Rules)
    requires Coherent(st) && RulesOk(rules) && PutOutcome(st.records, rec, written, rules) == Ok(true)
    ensures ProjectOutcome(st.view, rec) == Ok(ProjectAll(PutTo(st.records, rec, written, rules)))
  {
  }

  lemma StepKeepsCoherent(st: State, op: Op, rules: Rules)
    requires Coherent(st) && RulesOk(rules) && StoreOk(st.records, rules)
    ensures Coherent(Step(st, op, rules)) && StoreOk(Step(st, op, rules).records, rules)
    ensures Later(st.records, Step(st, op, rules).records)
  {
    if op.PutTyped? {
      PutKeepsStoreOk(st.records, op.rec, op.written, rules);
      if PutOutcome(st.records, op.rec, op.written, rules) == Ok(true) {
        ProjectionErrorNeverHappens(st, op.rec, op.written, rules);
      }
    }
  }

  lemma LaterChains(a: Records, b: Records, c: Records)
    requires Later(a, b) && Later(b, c)
    ensures Later(a, c)
  {
    forall k | k in a
      ensures k in c && a[k].revision <= c[k].revision && (c[k].revision == a[k].revision ==> c[k] == a[k])
    {
      assert k in b;
    }
  }

  lemma {:induction false} RunKeepsCoherent(st: State, ops: seq<Op>, rules: Rules)
    requires Coherent(st) && RulesOk(rules) && StoreOk(st.records, rules)
    ensures Coherent(Run(st, ops, rules)) && StoreOk(Run(st, ops, rules).records, rules)
    ensures Later(st.records, Run(st, ops, rules).records)
    decreases ops
  {
    if ops != [] {
      var next := Step(st, ops[0], rules);
      StepKeepsCoherent(st, ops[0], rules);
      RunKeepsCoherent(next, ops[1..], rules);
      LaterChains(st.records, next.records, Run(st, ops, rules).records);
    }
  }

  /** Once rebuilt, the view follows any typed writes - new, repeated, stale or failed - and another
      rebuild changes nothing; meanwhile no record is lost, goes back or changes within a revision. */
  lemma ViewCoherence(st: State, ops: seq<Op>, rules: Rules)
    requires RulesOk(rules) && StoreOk(st.records, rules)
    ensures var end := Run(Step(st, Refresh, rules), ops, rules);
            end.view == ProjectAll(end.records) && Step(end, Refresh, rules) == end && Later(st.records, end.records)
  {
    RunKeepsCoherent(Step(st, Refresh, rules), ops, rules);
  }

  /** A record put straight into the store leaves the view behind exactly when the record validates, its
      file is written, and it is new or newer than the stored one and of another content. */
  lemma DirectPutBreaksIff(st: State, rec: Record, written: bool, rules: Rules)
    requires Coherent(st)
    ensures !Coherent(st.(records := PutTo(st.records, rec, written, rules)))
       <==> && Validates(rec, rules) && written
            && (KeyOf(rec) in st.records ==>
                  st.records[KeyOf(rec)].hash != rec.hash && st.records[KeyOf(rec)].revision < rec.revision)
  {
    var after := PutTo(st.records, rec, written, rules);
    if PutOutcome(st.records, rec, written, rules) == Ok(true) {
      assert after[KeyOf(rec)] == rec;
    } else {
      assert after == st.records;
    }
  }

  /** A view that was never rebuilt agrees on a record from the record's first change on. */
  lemma UnbuiltViewCatchesUp(st: State, rec: Record, written: bool, rules: Rules)
    requires RulesOk(rules) && PutOutcome(st.records, rec, written, rules) == Ok(true)
    requires forall k :: k in st.view ==> k in st.records && st.view[k] == st.records[k]
    ensures var after := Step(st, PutTyped(rec, written), rules);
            && (forall k :: k in after.view ==> k in after.records && after.view[k] == after.records[k])
            && after.view.Keys == st.view.Keys + {KeyOf(rec)}
  {
    assert ProjectOutcome(st.view, rec) == Ok(st.view[KeyOf(rec) := rec]);
  }

  method PutTypedRecord(s: Store, p: MemProjection, kind: Id, id: Id, revision: int, data: Id, written: bool)
    returns (r: Result<bool>)
    modifies s, p
    ensures var rec := Record(kind, id, revision, data, s.rules.hash(data));
            && r == PutOutcome(old(s.records), rec, written, s.rules)
            && State(s.records, p.entries) == Step(State(old(s.records), old(p.entries)), PutTyped(rec, written),
                                                   s.rules)
  {
    if !s.rules.safe(kind) || !s.rules.safe(id) || revision < 0 {
      return Err(Invalid);
    }
    var rec := Record(kind, id, revision, data, s.rules.hash(data));
    r := s.PutRecord(rec, written);
    if r.Ok? && r.value {
      var _ := p.Put(rec);
    }
  }
}
