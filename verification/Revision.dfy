/** One-way revision sync between replicas, with tombstones and deletion guards. */
module Revision {
  import opened Ordering

  type Path = Id

  datatype Record = Record(id: Id, path: Path, revision: nat, hash: Id, size: int, deleted: bool)

  type Records = map<Path, Record>

  datatype OpKind = OpPut | OpDelete

  datatype Op = Op(kind: OpKind, record: Record)

  datatype PutError = PathRequired | NewerRevision

  datatype Refusal = Refusal(path: Path, byGuard: bool)

  datatype Applied = Applied(records: Records, applied: nat, refused: seq<Refusal>, err: Option<PutError>)

  /** Every record is filed under its own path, and no path is empty. */
  ghost predicate Filed(r: Records) {
    forall p :: p in r ==> p != EMPTY && r[p].path == p
  }

  // ---- one path at a time ----

  /** The operation Diff emits for a path the source has. */
  function DiffAt(src: Record, local: Option<Record>): Option<Op> {
    if local.Some? && local.value.revision >= src.revision && local.value.deleted == src.deleted then None
    else if local.Some? && local.value.revision > src.revision then None
    else Some(Op(if src.deleted then OpDelete else OpPut, src))
  }

  datatype Effect = Skip | Refuse(r: Refusal) | Write | Fail(e: PutError)

  /** What Apply does with one operation, given the local record of its path. */
  function ApplyAt(op: Op, local: Option<Record>): Effect {
    var rec := op.record;
    if local.Some? && local.value.revision == rec.revision && local.value.hash == rec.hash
        && local.value.deleted == rec.deleted then Skip
    else if op.kind == OpDelete && local.Some? && local.value.revision > rec.revision
        then Refuse(Refusal(rec.path, true))
    else if op.kind == OpDelete && local.Some? && local.value.deleted then Skip
    else if rec.path == EMPTY then Fail(PathRequired)
    else if local.Some? && local.value.revision > rec.revision then Refuse(Refusal(rec.path, false))
    else Write
  }

  function ApplyOps(r: Records, ops: seq<Op>): Applied
    decreases ops
  {
    if ops == [] then Applied(r, 0, [], None)
    else
      match ApplyAt(ops[0], Look(r, ops[0].record.path))
      case Skip => ApplyOps(r, ops[1..])
      case Refuse(refusal) =>
        var rest := ApplyOps(r, ops[1..]);
        rest.(refused := [refusal] + rest.refused)
      case Write =>
        var rest := ApplyOps(r[ops[0].record.path := ops[0].record], ops[1..]);
        rest.(applied := rest.applied + 1)
      case Fail(e) => Applied(r, 0, [], Some(e))
  }

  function DiffOver(source: Records, replica: Records, paths: seq<Path>): seq<Op>
    requires forall p :: p in paths ==> p in source
  {
    if paths == [] then []
    else
      var rest := DiffOver(source, replica, paths[1..]);
      match DiffAt(source[paths[0]], Look(replica, paths[0]))
      case None => rest
      case Some(op) => [op] + rest
  }

  /** The paths of a set of records in increasing order; no operation of Diff depends on more. */
  ghost function DiffOf(source: Records, replica: Records): seq<Op> {
    var paths := Ascending(source.Keys);
    assert forall p :: p in paths ==> p in Elements(paths);
    DiffOver(source, replica, paths)
  }

  // ---- any operations, whether Diff emitted them or not ----

  lemma {:induction false} ApplyConcat(r: Records, ops: seq<Op>, op: Op)
    ensures var a := ApplyOps(r, ops);
            var last := ApplyOps(a.records, [op]);
            ApplyOps(r, ops + [op])
              == if a.err.Some? then a
                 else Applied(last.records, a.applied + last.applied, a.refused + last.refused, last.err)
    decreases ops
  {
    if ops == [] {
      assert ops + [op] == [op];
    } else {
      assert (ops + [op])[0] == ops[0] && (ops + [op])[1..] == ops[1..] + [op];
      var effect := ApplyAt(ops[0], Look(r, ops[0].record.path));
      ApplyConcat(if effect == Write then r[ops[0].record.path := ops[0].record] else r, ops[1..], op);
    }
  }

  /** What one more operation does. Older than the record it meets it is refused, a deletion by its guard; an
      operation that finds its own record, or a deletion that finds any tombstone, changes nothing; an empty
      path stops the whole; every other one is written. */
  lemma OneMoreOperation(r: Records, ops: seq<Op>, op: Op)
    requires Filed(r) && ApplyOps(r, ops).err.None?
    ensures var a, rec := ApplyOps(r, ops), op.record;
            var p := rec.path;
            var older := p in a.records && rec.revision < a.records[p].revision;
            var settled := && p in a.records && !older
                           && ((op.kind == OpDelete && a.records[p].deleted)
                               || (rec.revision == a.records[p].revision && rec.hash == a.records[p].hash
                                   && rec.deleted == a.records[p].deleted));
            ApplyOps(r, ops + [op])
              == if p == EMPTY then a.(err := Some(PathRequired))
                 else if older then a.(refused := a.refused + [Refusal(p, op.kind == OpDelete)])
                 else if settled then a
                 else a.(records := a.records[p := rec], applied := a.applied + 1)
  {
    ApplyConcat(r, ops, op);
    ApplyKeepsFiled(r, ops);
    var a := ApplyOps(r, ops);
    assert [op][1..] == [] && a.refused + [] == a.refused;
    assert forall x: Refusal :: [x] + [] == [x];
  }

  lemma {:induction false} ApplyKeepsFiled(r: Records, ops: seq<Op>)
    requires Filed(r)
    ensures Filed(ApplyOps(r, ops).records)
    decreases ops
  {
    if ops != [] {
      var effect := ApplyAt(ops[0], Look(r, ops[0].record.path));
      ApplyKeepsFiled(if effect == Write then r[ops[0].record.path := ops[0].record] else r, ops[1..]);
    }
  }

  /** Whatever is applied, no record goes away and no revision goes down. */
  lemma {:induction false} RevisionsNeverFall(r: Records, ops: seq<Op>, p: Path)
    requires p in r
    ensures var after := ApplyOps(r, ops).records; p in after && after[p].revision >= r[p].revision
    decreases ops
  {
    if ops != [] {
      var effect := ApplyAt(ops[0], Look(r, ops[0].record.path));
      RevisionsNeverFall(if effect == Write then r[ops[0].record.path := ops[0].record] else r, ops[1..], p);
    }
  }

  /** Diff emits the records the replica lacks, holds an older revision of, or holds with the other deletion
      flag at the same revision; a deletion for a tombstone, a put for any other. */
  predicate IsDue(source: Records, replica: Records, p: Path) {
    && p in source
    && (p in replica ==>
          replica[p].revision < source[p].revision
          || (replica[p].revision == source[p].revision && replica[p].deleted != source[p].deleted))
  }

  predicate Emits(source: Records, p: Path, op: Op) {
    p in source && op.record == source[p] && (op.kind == OpDelete <==> source[p].deleted)
  }

  lemma DiffAtFits(source: Records, replica: Records, p: Path, op: Op)
    requires p in source
    ensures DiffAt(source[p], Look(replica, p)) == Some(op) <==> IsDue(source, replica, p) && Emits(source, p, op)
  {
  }

  lemma {:induction false} DiffOverFits(source: Records, replica: Records, paths: seq<Path>, op: Op)
    requires forall p :: p in paths ==> p in source
    ensures op in DiffOver(source, replica, paths)
       <==> exists p :: p in paths && IsDue(source, replica, p) && Emits(source, p, op)
    decreases paths
  {
    if paths != [] {
      var rest := DiffOver(source, replica, paths[1..]);
      DiffOverFits(source, replica, paths[1..], op);
      DiffAtFits(source, replica, paths[0], op);
      assert op in DiffOver(source, replica, paths)
        <==> DiffAt(source[paths[0]], Look(replica, paths[0])) == Some(op) || op in rest;
      assert forall p :: p in paths <==> p == paths[0] || p in paths[1..];
      if op in rest {
        var p :| p in paths[1..] && IsDue(source, replica, p) && Emits(source, p, op);
        assert p in paths;
      }
    }
  }

  lemma DiffFits(source: Records, replica: Records, op: Op)
    ensures op in DiffOf(source, replica) <==> exists p :: IsDue(source, replica, p) && Emits(source, p, op)
  {
    var paths := Ascending(source.Keys);
    assert forall p :: p in paths <==> p in Elements(paths);
    DiffOverFits(source, replica, paths, op);
  }

  // ---- a pass of Diff and Apply ----

  /** What one pass leaves at a path: the source's record where Diff emits it and Apply writes it. */
  function Synced(source: Records, replica: Records, p: Path): Option<Record> {
    if p !in source then Look(replica, p)
    else
      match DiffAt(source[p], Look(replica, p))
      case None => Look(replica, p)
      case Some(op) => if ApplyAt(op, Look(replica, p)) == Write then Some(source[p]) else Look(replica, p)
  }

  /** How many of these paths one pass writes. */
  function WritesAmong(source: Records, replica: Records, paths: seq<Path>): nat
    requires forall p :: p in paths ==> p in source
  {
    if paths == [] then 0
    else
      var op := DiffAt(source[paths[0]], Look(replica, paths[0]));
      WritesAmong(source, replica, paths[1..])
        + if op.Some? && ApplyAt(op.value, Look(replica, paths[0])) == Write then 1 else 0
  }

  /** Applying what Diff found, path by path: nothing is refused, and the paths do not interfere. */
  lemma {:induction false} PassOver(source: Records, replica: Records, now: Records, paths: seq<Path>)
    requires Filed(source) && Distinct(paths) && forall p :: p in paths ==> p in source
    requires forall p :: p in paths ==> Look(now, p) == Look(replica, p)
    ensures var a := ApplyOps(now, DiffOver(source, replica, paths));
            && a.refused == [] && a.err == None && a.applied == WritesAmong(source, replica, paths)
            && forall p :: Look(a.records, p) == if p in paths then Synced(source, replica, p) else Look(now, p)
    decreases paths
  {
    if paths != [] {
      var p := paths[0];
      assert p !in paths[1..];
      var op := DiffAt(source[p], Look(replica, p));
      if op.Some? {
        var ops := DiffOver(source, replica, paths);
        assert ops[0] == op.value && ops[1..] == DiffOver(source, replica, paths[1..]);
        var effect := ApplyAt(op.value, Look(now, p));
        assert effect == Skip || effect == Write;
        PassOver(source, replica, if effect == Write then now[p := source[p]] else now, paths[1..]);
      } else {
        PassOver(source, replica, now, paths[1..]);
      }
    }
  }

  lemma PassAt(source: Records, replica: Records)
    requires Filed(source)
    ensures var a := ApplyOps(replica, DiffOf(source, replica));
            a.refused == [] && a.err == None && forall p :: Look(a.records, p) == Synced(source, replica, p)
  {
    var paths := Ascending(source.Keys);
    assert forall p :: p in paths <==> p in Elements(paths);
    PassOver(source, replica, replica, paths);
  }

  /** One pass: nothing is refused, paths the source does not have are untouched, no revision goes
      down, and a path the source is not behind on ends with the source's deletion flag, and with the
      source's record unless revision and flag agreed already or both sides held tombstones. */
  lemma OnePass(source: Records, replica: Records)
    requires Filed(source)
    ensures var a := ApplyOps(replica, DiffOf(source, replica));
            && a.refused == [] && a.err == None
            && forall p :: GoodPass(source, replica, a.records, p)
  {
    PassAt(source, replica);
    var a := ApplyOps(replica, DiffOf(source, replica));
    forall p ensures GoodPass(source, replica, a.records, p) {
      assert Look(a.records, p) == Synced(source, replica, p);
    }
  }

  /** What a pass promises about one path. */
  ghost predicate GoodPass(source: Records, replica: Records, after: Records, p: Path) {
    && (p !in source ==> Look(after, p) == Look(replica, p))
    && (p in replica ==> p in after && after[p].revision >= replica[p].revision)
    && (p in source && p in replica && source[p].revision < replica[p].revision ==> after[p] == replica[p])
    && (p in source && (p in replica ==> source[p].revision >= replica[p].revision) ==>
          && p in after && after[p].deleted == source[p].deleted
          && (after[p] == source[p]
              || (p in replica && after[p] == replica[p] && replica[p].deleted == source[p].deleted
                  && (replica[p].revision == source[p].revision || source[p].deleted))))
  }

  /** Exactly when one pass leaves the replica with the source's own record. */
  lemma ConvergesExactly(source: Records, replica: Records, p: Path)
    requires Filed(source) && p in source
    ensures var a := ApplyOps(replica, DiffOf(source, replica));
            (p in a.records && a.records[p] == source[p])
              <==> (p in replica ==>
                      || replica[p] == source[p]
                      || (source[p].revision > replica[p].revision && !(source[p].deleted && replica[p].deleted))
                      || (source[p].revision == replica[p].revision && source[p].deleted != replica[p].deleted))
  {
    PassAt(source, replica);
    assert Look(ApplyOps(replica, DiffOf(source, replica)).records, p) == Synced(source, replica, p);
    SyncedConverges(source, replica, p);
  }

  lemma SyncedConverges(source: Records, replica: Records, p: Path)
    requires Filed(source) && p in source
    ensures Synced(source, replica, p) == Some(source[p])
       <==> (p in replica ==>
               || replica[p] == source[p]
               || (source[p].revision > replica[p].revision && !(source[p].deleted && replica[p].deleted))
               || (source[p].revision == replica[p].revision && source[p].deleted != replica[p].deleted))
  {
  }

  /** A second pass writes nothing. */
  lemma {:induction false} NothingLeft(source: Records, replica: Records, after: Records, paths: seq<Path>)
    requires Filed(source) && forall p :: p in paths ==> p in source
    requires forall p :: p in paths ==> Look(after, p) == Synced(source, replica, p)
    ensures WritesAmong(source, after, paths) == 0
    ensures forall p :: p in paths ==> Synced(source, after, p) == Look(after, p)
  {
    if paths != [] {
      NothingLeft(source, replica, after, paths[1..]);
      assert Look(after, paths[0]) == Synced(source, replica, paths[0]);
    }
  }

  lemma SameLocals(a: Records, b: Records)
    requires forall p :: Look(a, p) == Look(b, p)
    ensures a == b
  {
    forall p ensures (p in a <==> p in b) && (p in a ==> a[p] == b[p]) {
      assert Look(a, p) == Look(b, p);
    }
  }

  lemma WritesAll(source: Records, replica: Records)
    requires Filed(source)
    ensures forall p :: p in Ascending(source.Keys) ==> p in source
    ensures ApplyOps(replica, DiffOf(source, replica)).applied == WritesAmong(source, replica, Ascending(source.Keys))
  {
    var paths := Ascending(source.Keys);
    assert forall p :: p in paths <==> p in Elements(paths);
    PassOver(source, replica, replica, paths);
  }

  /** Syncing is idempotent: a second pass applies nothing and changes nothing. */
  lemma SecondPassIsIdle(source: Records, replica: Records)
    requires Filed(source)
    ensures var once := ApplyOps(replica, DiffOf(source, replica)).records;
            var twice := ApplyOps(once, DiffOf(source, once));
            twice.records == once && twice.applied == 0 && twice.refused == [] && twice.err == None
  {
    var once := ApplyOps(replica, DiffOf(source, replica)).records;
    PassAt(source, replica);
    PassAt(source, once);
    WritesAll(source, once);
    NothingLeft(source, replica, once, Ascending(source.Keys));
    forall p ensures Look(ApplyOps(once, DiffOf(source, once)).records, p) == Look(once, p) {
      assert p in source.Keys <==> p in Ascending(source.Keys) by {
        assert p in Elements(Ascending(source.Keys)) <==> p in source.Keys;
      }
    }
    SameLocals(ApplyOps(once, DiffOf(source, once)).records, once);
  }

  lemma {:induction false} DiffEmptyIff(source: Records, replica: Records, paths: seq<Path>)
    requires forall p :: p in paths ==> p in source
    ensures DiffOver(source, replica, paths) == []
        <==> forall p :: p in paths ==> DiffAt(source[p], Look(replica, p)).None?
  {
    if paths != [] {
      DiffEmptyIff(source, replica, paths[1..]);
      assert forall p :: p in paths <==> p == paths[0] || p in paths[1..];
    }
  }

  /** A path that is deleted on both sides, the replica's tombstone being the older one. */
  ghost predicate OlderTombstone(source: Records, replica: Records, p: Path) {
    && p in source && p in replica && source[p].deleted && replica[p].deleted
    && replica[p].revision < source[p].revision
  }

  lemma LeftToReport(source: Records, replica: Records, p: Path)
    requires Filed(source) && p in source
    ensures DiffAt(source[p], Synced(source, replica, p)).Some? <==> OlderTombstone(source, replica, p)
  {
  }

  /** A pass leaves nothing for Diff to report exactly when the replica held no older tombstone for a
      path that is deleted in the source too: such a tombstone is skipped, not advanced. */
  lemma DiffEmptyAfterApply(source: Records, replica: Records)
    requires Filed(source)
    ensures DiffOf(source, ApplyOps(replica, DiffOf(source, replica)).records) == []
       <==> forall p :: !OlderTombstone(source, replica, p)
  {
    var paths := Ascending(source.Keys);
    AscendingMembers(source.Keys);
    PassAt(source, replica);
    var once := ApplyOps(replica, DiffOf(source, replica)).records;
    DiffEmptyIff(source, once, paths);
    forall p | p in paths ensures DiffAt(source[p], Look(once, p)).None? <==> !OlderTombstone(source, replica, p) {
      assert Look(once, p) == Synced(source, replica, p);
      LeftToReport(source, replica, p);
    }
    if forall p | p in paths :: !OlderTombstone(source, replica, p) {
      assert forall p :: OlderTombstone(source, replica, p) ==> p in paths;
    }
  }

  /** The claim that Diff is empty after Apply fails on two tombstones of different age. */
  lemma OlderTombstoneIsNotAdvanced()
    ensures var source := map[1 := Record(0, 1, 2, 0, 0, true)];
            var replica := map[1 := Record(0, 1, 1, 0, 0, true)];
            DiffOf(source, ApplyOps(replica, DiffOf(source, replica)).records) != []
  {
    var source := map[1 := Record(0, 1, 2, 0, 0, true)];
    var replica := map[1 := Record(0, 1, 1, 0, 0, true)];
    assert OlderTombstone(source, replica, 1);
    DiffEmptyAfterApply(source, replica);
  }

  // ---- the replica object ----

  class Set {
    var records: Records

    ghost predicate Valid()
      reads this
    {
      Filed(records)
    }

    constructor ()
      ensures Valid() && records == map[]
    {
      records := map[];
    }

    /** An older revision never overwrites a newer one. */
    method Put(rec: Record) returns (err: Option<PutError>)
      requires Valid()
      modifies this
      ensures Valid()
      ensures err == if rec.path == EMPTY then Some(PathRequired)
                     else if rec.path in old(records) && old(records)[rec.path].revision > rec.revision
                         then Some(NewerRevision) else None
      ensures records == if err.None? then old(records)[rec.path := rec] else old(records)
    {
      if rec.path == EMPTY {
        return Some(PathRequired);
      }
      if rec.path in records && records[rec.path].revision > rec.revision {
        return Some(NewerRevision);
      }
      records := records[rec.path := rec];
      return None;
    }

    function Get(p: Path): Option<Record>
      reads this
    {
      Look(records, p)
    }
  }

  lemma {:induction false} DiffOverSnoc(source: Records, replica: Records, paths: seq<Path>, p: Path)
    requires p in source && forall q :: q in paths ==> q in source
    ensures forall q :: q in paths + [p] ==> q in source
    ensures DiffOver(source, replica, paths + [p])
         == DiffOver(source, replica, paths)
            + match DiffAt(source[p], Look(replica, p)) case None => [] case Some(op) => [op]
  {
    if paths == [] {
      assert paths + [p] == [p];
    } else {
      assert (paths + [p])[0] == paths[0] && (paths + [p])[1..] == paths[1..] + [p];
      DiffOverSnoc(source, replica, paths[1..], p);
    }
  }

  lemma NextPath(source: Records, replica: Records, paths: seq<Path>, i: nat)
    requires i < |paths| && forall p :: p in paths ==> p in source
    ensures forall p :: p in paths[..i] ==> p in source
    ensures forall p :: p in paths[..i + 1] ==> p in source
    ensures var at := DiffAt(source[paths[i]], Look(replica, paths[i]));
            DiffOver(source, replica, paths[..i + 1])
              == if at.Some? then DiffOver(source, replica, paths[..i]) + [at.value]
                  else DiffOver(source, replica, paths[..i])
  {
    assert paths[..i + 1] == paths[..i] + [paths[i]];
    DiffOverSnoc(source, replica, paths[..i], paths[i]);
  }

  /** The operations that bring the replica up to the source, by path; a nil source has none. */
  method Diff(source: Set?, replica: Set) returns (ops: seq<Op>)
    ensures ops == if source == null then [] else DiffOf(source.records, replica.records)
  {
    if source == null {
      return [];
    }
    var paths := SortedKeys(source.records);
    assert forall p :: p in paths <==> p in Elements(paths);
    ops := [];
    for i := 0 to |paths|
      invariant forall p :: p in paths[..i] ==> p in source.records
      invariant ops == DiffOver(source.records, replica.records, paths[..i])
    {
      var path := paths[i];
      NextPath(source.records, replica.records, paths, i);
      var src := source.records[path];
      var local := replica.Get(path);
      if local.Some? && local.value.revision >= src.revision && local.value.deleted == src.deleted {
        continue;
      }
      if local.Some? && local.value.revision > src.revision {
        continue;
      }
      var kind := if src.deleted then OpDelete else OpPut;
      ops := ops + [Op(kind, src)];
    }
    assert paths[..|paths|] == paths;
  }

  function Onto(applied: nat, refused: seq<Refusal>, a: Applied): Applied {
    a.(applied := applied + a.applied, refused := refused + a.refused)
  }

  /** Apply operations in order; what is refused is reported, and an invalid record stops it. */
  method Apply(replica: Set, ops: seq<Op>) returns (applied: nat, refused: seq<Refusal>, err: Option<PutError>)
    requires replica.Valid()
    modifies replica
    ensures replica.Valid()
    ensures Applied(replica.records, applied, refused, err) == ApplyOps(old(replica.records), ops)
  {
    applied, refused := 0, [];
    for i := 0 to |ops|
      invariant replica.Valid()
      invariant ApplyOps(old(replica.records), ops) == Onto(applied, refused, ApplyOps(replica.records, ops[i..]))
    {
      var op := ops[i];
      ghost var here := replica.records;
      assert ops[i..][0] == op && ops[i..][1..] == ops[i + 1..];
      var local := replica.Get(op.record.path);
      if local.Some? && local.value.revision == op.record.revision && local.value.hash == op.record.hash
         && local.value.deleted == op.record.deleted {
        continue;
      }
      if op.kind == OpDelete && local.Some? && local.value.revision > op.record.revision {
        ConcatAssociates(refused, [Refusal(op.record.path, true)], ApplyOps(here, ops[i + 1..]).refused);
        refused := refused + [Refusal(op.record.path, true)];
        continue;
      }
      if op.kind == OpDelete && local.Some? && local.value.deleted {
        continue;
      }
      var failed := replica.Put(op.record);
      if failed.Some? {
        if failed.value == NewerRevision {
          ConcatAssociates(refused, [Refusal(op.record.path, false)], ApplyOps(here, ops[i + 1..]).refused);
          refused := refused + [Refusal(op.record.path, false)];
          continue;
        }
        return applied, refused, failed;
      }
      applied := applied + 1;
    }
    return applied, refused, None;
  }
}
