/** The offline change queue and the reconciliation of two sides that were apart. */
module Queue {
  import opened Ordering
  import Revision

  type Path = Id

  datatype Change = Change(record: Revision.Record, node: Id)

  type Changes = map<Path, Change>

  datatype Conflict = Conflict(path: Path, ours: Change, theirs: Change)

  datatype Decision = Decision(send: seq<Change>, apply: seq<Change>, converged: seq<Path>, conflicts: seq<Conflict>)

  const NOTHING := Decision([], [], [], [])

  /** Higher revision first; a tie is broken by node. */
  predicate Newer(a: Change, b: Change) {
    if a.record.revision != b.record.revision then a.record.revision > b.record.revision else a.node > b.node
  }

  predicate Same(a: Change, b: Change) {
    a.record.deleted == b.record.deleted && a.record.hash == b.record.hash
  }

  ghost predicate Filed(q: Changes) {
    forall p :: p in q ==> p != EMPTY && q[p].record.path == p
  }

  function Keep(q: Changes, c: Change): Changes {
    if c.record.path in q && !Newer(c, q[c.record.path]) then q else q[c.record.path := c]
  }

  function KeepAll(q: Changes, cs: seq<Change>): Changes
    decreases cs
  {
    if cs == [] then q else KeepAll(Keep(q, cs[0]), cs[1..])
  }

  predicate AllNamed(cs: seq<Change>) {
    forall c :: c in cs ==> c.record.path != EMPTY
  }

  datatype Verdict = Send(c: Change) | Take(c: Change) | Agree | Clash(ours: Change, theirs: Change) | Absent

  /** What is decided about one path. */
  function Judge(l: Changes, r: Changes, p: Path): Verdict {
    if p in l && p !in r then Send(l[p])
    else if p in r && p !in l then Take(r[p])
    else if p !in l then Absent
    else if l[p].record.revision > r[p].record.revision then Send(l[p])
    else if r[p].record.revision > l[p].record.revision then Take(r[p])
    else if Same(l[p], r[p]) then Agree
    else Clash(l[p], r[p])
  }

  /** The decision over paths in order. */
  function DecideOver(l: Changes, r: Changes, paths: seq<Path>): Decision {
    if paths == [] then NOTHING else Placed(Judge(l, r, paths[0]), paths[0], DecideOver(l, r, paths[1..]))
  }

  ghost function Decide(l: Changes, r: Changes): Decision {
    DecideOver(l, r, Ascending(l.Keys + r.Keys))
  }

  // ---- what a queue keeps, and when the order of arrival shows ----

  /** No change of the same path is newer. */
  ghost predicate IsNewest(cs: seq<Change>, c: Change) {
    c in cs && forall d :: d in cs && d.record.path == c.record.path ==> !Newer(d, c)
  }

  /** A path never has two different newest changes: revision and node decide them. */
  ghost predicate NewestDecided(cs: seq<Change>) {
    forall c, d :: IsNewest(cs, c) && IsNewest(cs, d) && c.record.path == d.record.path ==> c == d
  }

  /** What is kept at a path is one of the changes offered, and none of them is newer. */
  lemma {:induction false} KeptAt(q: Changes, cs: seq<Change>, p: Path)
    requires p in q ==> q[p].record.path == p
    ensures var k := KeepAll(q, cs);
            && (p in k <==> p in q || exists c :: c in cs && c.record.path == p)
            && (p in k ==> k[p].record.path == p && (k[p] in cs || (p in q && k[p] == q[p])))
            && (p in q ==> !Newer(q[p], k[p]))
            && forall c :: c in cs && c.record.path == p ==> !Newer(c, k[p])
    decreases cs
  {
    if cs != [] {
      KeptAt(Keep(q, cs[0]), cs[1..], p);
      assert forall c :: c in cs <==> c == cs[0] || c in cs[1..];
    }
  }

  lemma {:induction false} FirstNewestStays(q: Changes, cs: seq<Change>, c: Change)
    requires Look(q, c.record.path) == Some(c)
    requires forall d :: d in cs && d.record.path == c.record.path ==> !Newer(d, c)
    ensures Look(KeepAll(q, cs), c.record.path) == Some(c)
    decreases cs
  {
    if cs != [] {
      assert cs[0] in cs && forall d :: d in cs[1..] ==> d in cs;
      FirstNewestStays(Keep(q, cs[0]), cs[1..], c);
    }
  }

  lemma KeptIsNewest(cs: seq<Change>, p: Path)
    ensures var k := KeepAll(map[], cs);
            && (p in k <==> exists c :: c in cs && c.record.path == p)
            && (p in k ==> IsNewest(cs, k[p]) && k[p].record.path == p)
  {
    KeptAt(map[], cs, p);
  }

  /** It has the highest revision offered for the path, and among those the greatest node. */
  lemma KeptIsHighest(cs: seq<Change>, c: Change)
    requires c in cs
    ensures var k := KeepAll(map[], cs);
            && c.record.path in k && k[c.record.path] in cs && k[c.record.path].record.path == c.record.path
            && k[c.record.path].record.revision >= c.record.revision
            && (k[c.record.path].record.revision == c.record.revision ==> k[c.record.path].node >= c.node)
  {
    KeptAt(map[], cs, c.record.path);
  }

  lemma SameChanges(cs: seq<Change>, ds: seq<Change>)
    requires multiset(cs) == multiset(ds)
    ensures forall c :: c in cs <==> c in ds
  {
    forall c ensures c in cs <==> c in ds {
      assert c in multiset(cs) <==> c in multiset(ds);
    }
  }

  lemma OrderUnseen(cs: seq<Change>, ds: seq<Change>)
    requires multiset(ds) == multiset(cs) && NewestDecided(cs)
    ensures KeepAll(map[], ds) == KeepAll(map[], cs)
  {
    SameChanges(cs, ds);
    forall p ensures Look(KeepAll(map[], ds), p) == Look(KeepAll(map[], cs), p) {
      KeptIsNewest(cs, p);
      KeptIsNewest(ds, p);
    }
    SameLooks(KeepAll(map[], ds), KeepAll(map[], cs));
  }

  /** A newest change that comes first is kept. */
  lemma BroughtFirst(cs: seq<Change>, c: Change) returns (ds: seq<Change>)
    requires IsNewest(cs, c)
    ensures multiset(ds) == multiset(cs) && Look(KeepAll(map[], ds), c.record.path) == Some(c)
  {
    var i :| 0 <= i < |cs| && cs[i] == c;
    ds := [c] + (cs[..i] + cs[i + 1..]);
    assert cs == cs[..i] + [c] + cs[i + 1..];
    assert multiset(ds) == multiset{c} + multiset(cs[..i]) + multiset(cs[i + 1..]);
    assert ds[1..] == cs[..i] + cs[i + 1..];
    FirstNewestStays(Keep(map[], c), ds[1..], c);
  }

  /** The exact condition for a result that does not depend on the order in which changes are queued: no
      path has two different newest changes with one revision and one node. */
  lemma OneQueueIff(cs: seq<Change>)
    ensures (forall ds :: multiset(ds) == multiset(cs) ==> KeepAll(map[], ds) == KeepAll(map[], cs))
       <==> NewestDecided(cs)
  {
    if NewestDecided(cs) {
      forall ds | multiset(ds) == multiset(cs) ensures KeepAll(map[], ds) == KeepAll(map[], cs) {
        OrderUnseen(cs, ds);
      }
    } else {
      var c, d :| IsNewest(cs, c) && IsNewest(cs, d) && c.record.path == d.record.path && c != d;
      var first := BroughtFirst(cs, c);
      var second := BroughtFirst(cs, d);
      assert KeepAll(map[], first) != KeepAll(map[], second);
    }
  }

  // ---- every path is decided once ----

  function ChangePaths(cs: seq<Change>): seq<Path> {
    if cs == [] then [] else [cs[0].record.path] + ChangePaths(cs[1..])
  }

  function ConflictPaths(cs: seq<Conflict>): seq<Path> {
    if cs == [] then [] else [cs[0].path] + ConflictPaths(cs[1..])
  }

  /** How often a path occurs among the decided ones. */
  function Occurrences(d: Decision, p: Path): nat {
    multiset(ChangePaths(d.send))[p] + multiset(ChangePaths(d.apply))[p] + multiset(d.converged)[p]
    + multiset(ConflictPaths(d.conflicts))[p]
  }

  lemma ConsCount(x: Path, s: seq<Path>, p: Path)
    ensures multiset([x] + s)[p] == multiset(s)[p] + if x == p then 1 else 0
  {
    assert multiset([x] + s) == multiset{x} + multiset(s);
  }

  lemma FirstCount(s: seq<Path>, p: Path)
    requires s != []
    ensures multiset(s)[p] == multiset(s[1..])[p] + if s[0] == p then 1 else 0
  {
    assert s == [s[0]] + s[1..];
    ConsCount(s[0], s[1..], p);
  }

  /** What one verdict adds to a decision. */
  function Placed(v: Verdict, path: Path, rest: Decision): Decision {
    match v
    case Send(c) => rest.(send := [c] + rest.send)
    case Take(c) => rest.(apply := [c] + rest.apply)
    case Agree => rest.(converged := [path] + rest.converged)
    case Clash(ours, theirs) => rest.(conflicts := [Conflict(path, ours, theirs)] + rest.conflicts)
    case Absent => rest
  }

  lemma PlacedCounts(v: Verdict, path: Path, rest: Decision, p: Path)
    requires v.Send? || v.Take? ==> v.c.record.path == path
    requires !v.Absent?
    ensures Occurrences(Placed(v, path, rest), p) == Occurrences(rest, p) + if path == p then 1 else 0
  {
    match v
    case Send(c) =>
      assert ChangePaths([c] + rest.send) == [path] + ChangePaths(rest.send);
      ConsCount(path, ChangePaths(rest.send), p);
    case Take(c) =>
      assert ChangePaths([c] + rest.apply) == [path] + ChangePaths(rest.apply);
      ConsCount(path, ChangePaths(rest.apply), p);
    case Agree => ConsCount(path, rest.converged, p);
    case Clash(ours, theirs) =>
      assert ConflictPaths([Conflict(path, ours, theirs)] + rest.conflicts) == [path] + ConflictPaths(rest.conflicts);
      ConsCount(path, ConflictPaths(rest.conflicts), p);
  }

  lemma {:induction false} DecidesEachOnce(l: Changes, r: Changes, paths: seq<Path>, p: Path)
    requires Filed(l) && Filed(r) && forall q :: q in paths ==> q in l || q in r
    ensures Occurrences(DecideOver(l, r, paths), p) == multiset(paths)[p]
  {
    if paths != [] {
      DecidesEachOnce(l, r, paths[1..], p);
      PlacedCounts(Judge(l, r, paths[0]), paths[0], DecideOver(l, r, paths[1..]), p);
      FirstCount(paths, p);
    }
  }

  /** Each path either side has is in exactly one list, and in it once. */
  lemma EachPathOnce(l: Changes, r: Changes, p: Path)
    requires Filed(l) && Filed(r)
    ensures Occurrences(Decide(l, r), p) == if p in l || p in r then 1 else 0
  {
    var paths := Ascending(l.Keys + r.Keys);
    assert forall q :: q in paths <==> q in Elements(paths);
    DecidesEachOnce(l, r, paths, p);
    DistinctCardinality(paths);
  }

  // ---- what is decided, said field by field ----

  /** Both sides have a change of the path, of one revision. */
  predicate Level(l: Changes, r: Changes, p: Path) {
    p in l && p in r && l[p].record.revision == r[p].record.revision
  }

  /** The left side's change is the only one, or of the higher revision. */
  predicate Ahead(l: Changes, r: Changes, p: Path) {
    p in l && (p in r ==> l[p].record.revision > r[p].record.revision)
  }

  predicate Alike(a: Change, b: Change) {
    a.record.deleted == b.record.deleted && a.record.hash == b.record.hash
  }

  /** One path's place in the four lists. */
  ghost predicate PlaceFits(d: Decision, l: Changes, r: Changes, p: Path) {
    && (forall c :: c in d.send && c.record.path == p <==> Ahead(l, r, p) && c == l[p])
    && (forall c :: c in d.apply && c.record.path == p <==> Ahead(r, l, p) && c == r[p])
    && (p in d.converged <==> Level(l, r, p) && Alike(l[p], r[p]))
    && (forall x :: x in d.conflicts && x.path == p <==>
          Level(l, r, p) && !Alike(l[p], r[p]) && x == Conflict(p, l[p], r[p]))
  }

  lemma {:induction false} PlacedOver(l: Changes, r: Changes, paths: seq<Path>, p: Path)
    requires Filed(l) && Filed(r)
    ensures var d := DecideOver(l, r, paths);
            if p in paths then PlaceFits(d, l, r, p)
            else && (forall c :: c in d.send || c in d.apply ==> c.record.path != p)
                 && p !in d.converged && forall x :: x in d.conflicts ==> x.path != p
    decreases paths
  {
    if paths != [] {
      PlacedOver(l, r, paths[1..], p);
      var d, rest := DecideOver(l, r, paths), DecideOver(l, r, paths[1..]);
      PlacedMembers(Judge(l, r, paths[0]), paths[0], rest);
      assert forall q :: q in paths <==> q == paths[0] || q in paths[1..];
    }
  }

  lemma PlacedMembers(v: Verdict, path: Path, rest: Decision)
    ensures var d := Placed(v, path, rest);
            && (forall c :: c in d.send <==> c in rest.send || v == Send(c))
            && (forall c :: c in d.apply <==> c in rest.apply || v == Take(c))
            && (forall p :: p in d.converged <==> p in rest.converged || (v.Agree? && p == path))
            && (forall x :: x in d.conflicts <==>
                  x in rest.conflicts || (v.Clash? && x == Conflict(path, v.ours, v.theirs)))
  {
  }

  /** What is decided: the change that is the only one or of the higher revision goes to the other side; two of
      one revision have converged when deletion and hash agree, and are a conflict when one of them differs. */
  lemma DecisionByFields(l: Changes, r: Changes, p: Path)
    requires Filed(l) && Filed(r)
    ensures PlaceFits(Decide(l, r), l, r, p)
  {
    var paths := Ascending(l.Keys + r.Keys);
    assert p in paths <==> p in Elements(paths);
    PlacedOver(l, r, paths, p);
  }

  // ---- the other side decides the mirror image ----

  function Swap(cs: seq<Conflict>): seq<Conflict> {
    if cs == [] then [] else [Conflict(cs[0].path, cs[0].theirs, cs[0].ours)] + Swap(cs[1..])
  }

  function Mirror(d: Decision): Decision {
    Decision(d.apply, d.send, d.converged, Swap(d.conflicts))
  }

  lemma {:induction false} MirrorOver(l: Changes, r: Changes, paths: seq<Path>)
    ensures DecideOver(r, l, paths) == Mirror(DecideOver(l, r, paths))
  {
    if paths != [] {
      MirrorOver(l, r, paths[1..]);
      var rest := DecideOver(l, r, paths[1..]);
      match Judge(l, r, paths[0])
      case Clash(ours, theirs) =>
        assert Swap([Conflict(paths[0], ours, theirs)] + rest.conflicts)[0] == Conflict(paths[0], theirs, ours);
        assert ([Conflict(paths[0], ours, theirs)] + rest.conflicts)[1..] == rest.conflicts;
      case _ =>
    }
  }

  /** Swapping the arguments swaps what is sent and what is applied, and the sides of each conflict. */
  lemma DecisionMirrors(l: Changes, r: Changes)
    ensures Decide(r, l) == Mirror(Decide(l, r))
  {
    assert l.Keys + r.Keys == r.Keys + l.Keys;
    MirrorOver(l, r, Ascending(l.Keys + r.Keys));
  }

  // ---- exchanging what was decided ----

  /** What a side holds at a path after it has taken what it was told to take. */
  function Taken(l: Changes, r: Changes, p: Path): Option<Change> {
    match Judge(l, r, p) case Take(c) => Some(c) case _ => Look(l, p)
  }

  lemma {:induction false} TakesDecided(l: Changes, r: Changes, now: Changes, paths: seq<Path>)
    requires Filed(l) && Filed(r) && Filed(now) && Distinct(paths)
    requires forall p :: p in paths ==> Look(now, p) == Look(l, p)
    ensures var after := KeepAll(now, DecideOver(l, r, paths).apply);
            Filed(after) && forall p :: Look(after, p) == if p in paths then Taken(l, r, p) else Look(now, p)
    decreases paths
  {
    if paths != [] {
      var p := paths[0];
      assert p !in paths[1..];
      match Judge(l, r, p)
      case Take(c) =>
        var d := DecideOver(l, r, paths);
        assert d.apply[0] == c && d.apply[1..] == DecideOver(l, r, paths[1..]).apply;
        assert c.record.path == p;
        assert Look(now, p) == Look(l, p);
        assert Keep(now, c) == now[p := c];
        TakesDecided(l, r, now[p := c], paths[1..]);
      case _ => TakesDecided(l, r, now, paths[1..]);
    }
  }

  /** What one side holds after reconciling. */
  ghost function AfterTaking(l: Changes, r: Changes): Changes {
    KeepAll(l, Decide(l, r).apply)
  }

  lemma AfterTakingAt(l: Changes, r: Changes)
    requires Filed(l) && Filed(r)
    ensures Filed(AfterTaking(l, r)) && forall p :: Look(AfterTaking(l, r), p) == Taken(l, r, p)
  {
    var paths := Ascending(l.Keys + r.Keys);
    assert forall q :: q in paths <==> q in Elements(paths);
    TakesDecided(l, r, l, paths);
  }

  /** Two sides that cannot be told apart at a path: same revision, same deletion flag, same hash. */
  predicate InAgreement(l: Changes, r: Changes, p: Path) {
    && p in l && p in r && l[p].record.revision == r[p].record.revision
    && l[p].record.deleted == r[p].record.deleted && l[p].record.hash == r[p].record.hash
  }

  lemma {:induction false} NoConflictsIff(l: Changes, r: Changes, paths: seq<Path>)
    ensures DecideOver(l, r, paths).conflicts == [] <==> forall p :: p in paths ==> !Judge(l, r, p).Clash?
  {
    if paths != [] {
      NoConflictsIff(l, r, paths[1..]);
      assert forall p :: p in paths <==> p == paths[0] || p in paths[1..];
    }
  }

  lemma {:induction false} OnlyConvergedIff(l: Changes, r: Changes, paths: seq<Path>)
    requires forall p :: p in paths ==> p in l || p in r
    ensures DecideOver(l, r, paths) == NOTHING.(converged := paths) <==> forall p :: p in paths ==> InAgreement(l, r, p)
  {
    if paths != [] {
      OnlyConvergedIff(l, r, paths[1..]);
      assert forall p :: p in paths <==> p == paths[0] || p in paths[1..];
      var rest := DecideOver(l, r, paths[1..]);
      if InAgreement(l, r, paths[0]) {
        assert Judge(l, r, paths[0]) == Agree;
        assert [paths[0]] + paths[1..] == paths;
        if rest.converged != paths[1..] {
          assert ([paths[0]] + rest.converged)[1..] != paths[1..];
        }
      } else {
        assert !Judge(l, r, paths[0]).Agree?;
        NotLonger(l, r, paths[1..]);
      }
    }
  }

  lemma {:induction false} NotLonger(l: Changes, r: Changes, paths: seq<Path>)
    ensures |DecideOver(l, r, paths).converged| <= |paths|
  {
    if paths != [] {
      NotLonger(l, r, paths[1..]);
    }
  }

  /** What the exchange does at one path, whatever else it does. */
  lemma ExchangeAt(l: Changes, r: Changes, l': Changes, r': Changes, p: Path)
    requires Look(l', p) == Taken(l, r, p) && Look(r', p) == Taken(r, l, p)
    ensures (p in l' <==> p in l || p in r) && (p in r' <==> p in l || p in r)
    ensures p in l || p in r ==>
              && (InAgreement(l', r', p) <==> !Judge(l, r, p).Clash?)
              && (p in l ==>
                    l'[p].record.revision >= l[p].record.revision && r'[p].record.revision >= l[p].record.revision)
              && (p in r ==>
                    l'[p].record.revision >= r[p].record.revision && r'[p].record.revision >= r[p].record.revision)
  {
  }

  lemma ExchangeEverywhere(l: Changes, r: Changes, l': Changes, r': Changes, paths: seq<Path>)
    requires paths == Ascending(l.Keys + r.Keys)
    requires forall p :: Look(l', p) == Taken(l, r, p) && Look(r', p) == Taken(r, l, p)
    ensures l'.Keys == r'.Keys == l.Keys + r.Keys
    ensures forall p :: p in paths <==> p in l || p in r
    ensures forall p :: p in paths ==> (InAgreement(l', r', p) <==> !Judge(l, r, p).Clash?)
  {
    forall p ensures p in paths <==> p in l || p in r {
      assert p in paths <==> p in Elements(paths);
    }
    forall p ensures (p in l' <==> p in l || p in r) && (p in r' <==> p in l || p in r) {
      ExchangeAt(l, r, l', r', p);
    }
    forall p | p in paths ensures InAgreement(l', r', p) <==> !Judge(l, r, p).Clash? {
      ExchangeAt(l, r, l', r', p);
    }
  }

  /** No newer change is lost: at a path either side has, q holds a revision at least as high as both. */
  ghost predicate KeepsHighest(q: Changes, l: Changes, r: Changes, p: Path) {
    p in l || p in r ==>
      && p in q
      && (p in l ==> q[p].record.revision >= l[p].record.revision)
      && (p in r ==> q[p].record.revision >= r[p].record.revision)
      && ((p in l && q[p] == l[p]) || (p in r && q[p] == r[p]))
  }

  /** Convergence: after each side has enqueued what it must apply, both hold the highest revision of the
      two at every path, and they hold the same deletion flag and hash for it everywhere, and reconciling
      again reports only agreement, exactly when the first reconciliation found no conflict. */
  lemma ExchangeConverges(l: Changes, r: Changes)
    requires Filed(l) && Filed(r)
    ensures var l', r' := AfterTaking(l, r), AfterTaking(r, l);
            && l'.Keys == r'.Keys == l.Keys + r.Keys
            && (forall p :: KeepsHighest(l', l, r, p) && KeepsHighest(r', l, r, p))
            && (Decide(l, r).conflicts == [] <==> forall p :: p in l || p in r ==> InAgreement(l', r', p))
            && (Decide(l, r).conflicts == [] <==> Decide(l', r') == NOTHING.(converged := Ascending(l.Keys + r.Keys)))
  {
    var l', r' := AfterTaking(l, r), AfterTaking(r, l);
    AfterTakingAt(l, r);
    AfterTakingAt(r, l);
    ExchangedConverge(l, r, l', r');
    ExchangedKeepHighest(l, r, l', r');
  }

  lemma ExchangedKeepHighest(l: Changes, r: Changes, l': Changes, r': Changes)
    requires forall p :: Look(l', p) == Taken(l, r, p) && Look(r', p) == Taken(r, l, p)
    ensures forall p :: KeepsHighest(l', l, r, p) && KeepsHighest(r', l, r, p)
  {
    forall p ensures KeepsHighest(l', l, r, p) && KeepsHighest(r', l, r, p) {
      ExchangeAt(l, r, l', r', p);
    }
  }

  lemma ExchangedConverge(l: Changes, r: Changes, l': Changes, r': Changes)
    requires forall p :: Look(l', p) == Taken(l, r, p) && Look(r', p) == Taken(r, l, p)
    ensures l'.Keys == r'.Keys == l.Keys + r.Keys
    ensures Decide(l, r).conflicts == [] <==> forall p :: p in l || p in r ==> InAgreement(l', r', p)
    ensures Decide(l, r).conflicts == [] <==> Decide(l', r') == NOTHING.(converged := Ascending(l.Keys + r.Keys))
  {
    var paths := Ascending(l.Keys + r.Keys);
    ExchangeEverywhere(l, r, l', r', paths);
    NoConflictsIff(l, r, paths);
    assert l'.Keys + r'.Keys == l.Keys + r.Keys;
    OnlyConvergedIff(l', r', paths);
  }

  // ---- the queue object and the reconciling method ----

  class Queue {
    var changes: Changes

    ghost predicate Valid()
      reads this
    {
      Filed(changes)
    }

    constructor ()
      ensures Valid() && changes == map[]
    {
      changes := map[];
    }

    method Enqueue(c: Change) returns (ok: bool)
      requires Valid()
      modifies this
      ensures Valid() && ok == (c.record.path != EMPTY)
      ensures changes == if ok then Keep(old(changes), c) else old(changes)
    {
      if c.record.path == EMPTY {
        return false;
      }
      if c.record.path in changes {
        if !Newer(c, changes[c.record.path]) {
          return true;
        }
      }
      changes := changes[c.record.path := c];
      return true;
    }

    /** The queued changes, by path. */
    method Pending() returns (out: seq<Change>)
      requires Valid()
      ensures out == Listed(changes, Ascending(changes.Keys))
      ensures forall i, j :: 0 <= i < j < |out| ==> out[i].record.path < out[j].record.path
      ensures forall c :: c in out <==> c.record.path in changes && changes[c.record.path] == c
    {
      var paths := SortedKeys(changes);
      assert forall p :: p in paths <==> p in Elements(paths);
      out := AtPaths(changes, paths);
      assert forall j :: 0 <= j < |paths| ==> paths[j] in paths;
      ListedAt(changes, paths, out);
      ListedByPath(changes, paths, out);
    }

    method Drain() returns (out: seq<Change>)
      requires Valid()
      modifies this
      ensures Valid() && changes == map[] && out == Listed(old(changes), Ascending(old(changes).Keys))
    {
      out := Pending();
      changes := map[];
    }
  }

  method AtPaths(q: Changes, paths: seq<Path>) returns (out: seq<Change>)
    requires forall j :: 0 <= j < |paths| ==> paths[j] in q
    ensures |out| == |paths| && forall j :: 0 <= j < |paths| ==> out[j] == q[paths[j]]
  {
    out := [];
    for i := 0 to |paths|
      invariant |out| == i && forall j :: 0 <= j < i ==> out[j] == q[paths[j]]
    {
      out := out + [q[paths[i]]];
    }
  }

  function Listed(q: Changes, paths: seq<Path>): seq<Change> {
    if paths == [] then [] else (if paths[0] in q then [q[paths[0]]] else []) + Listed(q, paths[1..])
  }

  lemma ListedByPath(q: Changes, paths: seq<Path>, out: seq<Change>)
    requires Filed(q) && |out| == |paths| && Sorted(paths) && Distinct(paths) && Elements(paths) == q.Keys
    requires forall j :: 0 <= j < |paths| ==> paths[j] in q && out[j] == q[paths[j]]
    ensures forall i, j :: 0 <= i < j < |out| ==> out[i].record.path < out[j].record.path
    ensures forall c :: c in out <==> c.record.path in q && q[c.record.path] == c
  {
    forall c: Change | c.record.path in q && q[c.record.path] == c ensures c in out {
      assert c.record.path in Elements(paths);
      var j :| 0 <= j < |paths| && paths[j] == c.record.path;
      assert out[j] == c;
    }
    assert forall i, j :: 0 <= i < j < |paths| ==> paths[i] <= paths[j] && paths[i] != paths[j];
  }

  lemma {:induction false} ListedAt(q: Changes, paths: seq<Path>, list: seq<Change>)
    requires |list| == |paths| && forall p :: p in paths ==> p in q
    requires forall j :: 0 <= j < |paths| ==> list[j] == Look(q, paths[j]).value
    ensures list == Listed(q, paths)
  {
    if paths != [] {
      assert paths[0] in paths && forall p :: p in paths[1..] ==> p in paths;
      ListedAt(q, paths[1..], list[1..]);
      assert list == [list[0]] + list[1..];
    }
  }

  lemma {:induction false} KeepAllFiled(q: Changes, cs: seq<Change>)
    requires Filed(q) && AllNamed(cs)
    ensures Filed(KeepAll(q, cs))
    decreases cs
  {
    if cs != [] {
      KeepAllFiled(Keep(q, cs[0]), cs[1..]);
    }
  }

  /** The newest change of each path; None when a change has no path. */
  method BestByPath(cs: seq<Change>) returns (best: Option<Changes>)
    ensures best == if AllNamed(cs) then Some(KeepAll(map[], cs)) else None
    ensures best.Some? ==> Filed(best.value)
  {
    var q: Changes := map[];
    for i := 0 to |cs|
      invariant AllNamed(cs[..i]) && KeepAll(map[], cs) == KeepAll(q, cs[i..])
    {
      assert cs[i..][0] == cs[i] && cs[i..][1..] == cs[i + 1..];
      assert cs[..i + 1] == cs[..i] + [cs[i]];
      if cs[i].record.path == EMPTY {
        return None;
      }
      if cs[i].record.path !in q || Newer(cs[i], q[cs[i].record.path]) {
        q := q[cs[i].record.path := cs[i]];
      }
    }
    assert cs[..|cs|] == cs;
    KeepAllFiled(map[], cs);
    return Some(q);
  }

  /** The queue of a side lists back to itself. */
  lemma {:induction false} ListedKeeps(q: Changes, now: Changes, paths: seq<Path>)
    requires Filed(q) && Distinct(paths) && (forall p :: p in paths ==> p in q && p !in now)
    ensures AllNamed(Listed(q, paths))
    ensures var after := KeepAll(now, Listed(q, paths));
            forall p :: Look(after, p) == if p in paths then Look(q, p) else Look(now, p)
    decreases paths
  {
    if paths != [] {
      var p := paths[0];
      assert p !in paths[1..];
      var list := Listed(q, paths);
      assert list[0] == q[p] && list[1..] == Listed(q, paths[1..]);
      ListedKeeps(q, now[p := q[p]], paths[1..]);
    }
  }

  lemma SameLooks(a: Changes, b: Changes)
    requires forall p :: Look(a, p) == Look(b, p)
    ensures a == b
  {
    forall p ensures (p in a <==> p in b) && (p in a ==> a[p] == b[p]) {
      assert Look(a, p) == Look(b, p);
    }
  }

  /** What a queue lists, queued again, is that queue. */
  lemma PendingRoundTrip(q: Changes)
    requires Filed(q)
    ensures var list := Listed(q, Ascending(q.Keys)); AllNamed(list) && KeepAll(map[], list) == q
  {
    AscendingMembers(q.Keys);
    ListedKeeps(q, map[], Ascending(q.Keys));
    SameLooks(KeepAll(map[], Listed(q, Ascending(q.Keys))), q);
  }

  function Together(a: Decision, b: Decision): Decision {
    Decision(a.send + b.send, a.apply + b.apply, a.converged + b.converged, a.conflicts + b.conflicts)
  }

  lemma TogetherNothing(d: Decision)
    ensures Together(NOTHING, d) == d && Together(d, NOTHING) == d
  {
  }

  /** Add the decision about one path to the lists so far. */
  method Place(d: Decision, lb: Changes, rb: Changes, path: Path, ghost rest: Decision) returns (r: Decision)
    requires path in lb || path in rb
    ensures Together(r, rest) == Together(d, Placed(Judge(lb, rb, path), path, rest))
  {
    if path in lb && path !in rb {
      ConcatAssociates(d.send, [lb[path]], rest.send);
      return d.(send := d.send + [lb[path]]);
    }
    if path in rb && path !in lb {
      ConcatAssociates(d.apply, [rb[path]], rest.apply);
      return d.(apply := d.apply + [rb[path]]);
    }
    var lc, rc := lb[path], rb[path];
    if lc.record.revision > rc.record.revision {
      ConcatAssociates(d.send, [lc], rest.send);
      return d.(send := d.send + [lc]);
    }
    if rc.record.revision > lc.record.revision {
      ConcatAssociates(d.apply, [rc], rest.apply);
      return d.(apply := d.apply + [rc]);
    }
    if Same(lc, rc) {
      ConcatAssociates(d.converged, [path], rest.converged);
      return d.(converged := d.converged + [path]);
    }
    ConcatAssociates(d.conflicts, [Conflict(path, lc, rc)], rest.conflicts);
    return d.(conflicts := d.conflicts + [Conflict(path, lc, rc)]);
  }

  /** Decide what each side should do with the changes of both. */
  method Reconcile(ours: seq<Change>, theirs: seq<Change>) returns (r: Option<Decision>)
    ensures r.Some? <==> AllNamed(ours) && AllNamed(theirs)
    ensures r.Some? ==> r.value == Decide(KeepAll(map[], ours), KeepAll(map[], theirs))
  {
    var localBest := BestByPath(ours);
    if localBest.None? {
      return None;
    }
    var remoteBest := BestByPath(theirs);
    if remoteBest.None? {
      return None;
    }
    var lb, rb := localBest.value, remoteBest.value;
    var union := lb + rb;
    assert union.Keys == lb.Keys + rb.Keys;
    var paths := SortedKeys(union);
    var d := NOTHING;
    assert paths[0..] == paths;
    TogetherNothing(DecideOver(lb, rb, paths));
    for i := 0 to |paths|
      invariant Together(d, DecideOver(lb, rb, paths[i..])) == DecideOver(lb, rb, paths)
    {
      assert paths[i..][0] == paths[i] && paths[i..][1..] == paths[i + 1..];
      assert paths[i] in paths && paths[i] in union;
      d := Place(d, lb, rb, paths[i], DecideOver(lb, rb, paths[i + 1..]));
    }
    TogetherNothing(d);
    return Some(d);
  }
}
