/** Resumable chunked transfer: manifests, a receiver that verifies every chunk, and sessions that
    carry on from what the receiver already holds. The hash is a parameter. */
module Transfer {
  import opened Ordering

  type Bytes = seq<bv8>
  type Digest = Id
  type Hash = Bytes -> Digest

  const DEFAULT_CHUNK_SIZE: nat := 65536

  datatype Chunk = Chunk(index: int, offset: int, length: int, hash: Digest)

  datatype Manifest = Manifest(id: Id, name: Id, size: int, chunkSize: int, hash: Digest, chunks: seq<Chunk>)

  datatype Error = Invalid | Corrupt | NotFound | Disconnected

  datatype Result<+T> = Ok(value: T) | Err(error: Error)

  ghost predicate Injective(h: Hash) {
    forall a, b :: h(a) == h(b) ==> a == b
  }

  // ---- manifests ----

  function ChunksFrom(h: Hash, data: Bytes, chunkSize: nat, offset: nat, index: nat): seq<Chunk>
    requires chunkSize > 0
    decreases |data| - offset
  {
    if offset >= |data| then []
    else
      var end := Min(offset + chunkSize, |data|);
      [Chunk(index, offset, end - offset, h(data[offset..end]))]
      + ChunksFrom(h, data, chunkSize, offset + chunkSize, index + 1)
  }

  method BuildChunks(h: Hash, data: Bytes, chunkSize: nat) returns (chunks: seq<Chunk>)
    requires chunkSize > 0
    ensures chunks == ChunksFrom(h, data, chunkSize, 0, 0)
  {
    chunks := [];
    var offset, index := 0, 0;
    while offset < |data|
      invariant 0 <= offset && index == |chunks|
      invariant chunks + ChunksFrom(h, data, chunkSize, offset, index) == ChunksFrom(h, data, chunkSize, 0, 0)
      decreases |data| - offset
    {
      var end := Min(offset + chunkSize, |data|);
      var next := Chunk(index, offset, end - offset, h(data[offset..end]));
      ConcatAssociates(chunks, [next], ChunksFrom(h, data, chunkSize, offset + chunkSize, index + 1));
      chunks := chunks + [next];
      offset, index := offset + chunkSize, index + 1;
    }
    assert chunks + [] == chunks;
  }

  /** Every chunk is of the chunk size, the last one perhaps shorter. */
  ghost predicate Sized(chunks: seq<Chunk>, chunkSize: nat) {
    && (forall i :: 0 <= i < |chunks| - 1 ==> chunks[i].length == chunkSize)
    && (chunks != [] ==> 0 < chunks[|chunks| - 1].length <= chunkSize)
  }

  lemma {:induction false} ChunksSized(h: Hash, data: Bytes, chunkSize: nat, offset: nat, index: nat)
    requires chunkSize > 0
    ensures Sized(ChunksFrom(h, data, chunkSize, offset, index), chunkSize)
    decreases |data| - offset
  {
    if offset < |data| {
      ChunksSized(h, data, chunkSize, offset + chunkSize, index + 1);
      var rest := ChunksFrom(h, data, chunkSize, offset + chunkSize, index + 1);
      var chunks := ChunksFrom(h, data, chunkSize, offset, index);
      assert forall i :: 0 < i < |chunks| ==> chunks[i] == rest[i - 1];
      assert rest != [] ==> offset + chunkSize < |data|;
    }
  }

  method Build(h: Hash, id: Id, name: Id, data: Bytes, chunkSize0: int) returns (r: Result<Manifest>)
    ensures id == EMPTY <==> r == Err(Invalid)
    ensures r.Ok? <==> id != EMPTY
    ensures r.Ok? ==> IsManifest(h, data, r.value) && r.value.id == id && r.value.name == name
    ensures r.Ok? ==> r.value.chunkSize == (if chunkSize0 <= 0 then 65536 else chunkSize0)
    ensures r.Ok? ==> r.value.chunkSize > 0 && Sized(r.value.chunks, r.value.chunkSize)
  {
    if id == EMPTY {
      return Err(Invalid);
    }
    var chunkSize := if chunkSize0 <= 0 then DEFAULT_CHUNK_SIZE else chunkSize0;
    var chunks := BuildChunks(h, data, chunkSize);
    ChunksTile(h, data, chunkSize, 0, 0);
    ChunksSized(h, data, chunkSize, 0, 0);
    return Ok(Manifest(id, name, |data|, chunkSize, h(data), chunks));
  }

  /** The chunks lie end to end, none empty, from an offset to the end of the data. */
  ghost predicate Tiles(h: Hash, data: Bytes, chunks: seq<Chunk>, offset: nat, index: nat)
    decreases chunks
  {
    if chunks == [] then offset == |data|
    else
      var c := chunks[0];
      && c.index == index && c.offset == offset && c.length > 0 && offset + c.length <= |data|
      && c.hash == h(data[offset..offset + c.length])
      && Tiles(h, data, chunks[1..], offset + c.length, index + 1)
  }

  lemma {:induction false} ChunksTile(h: Hash, data: Bytes, chunkSize: nat, offset: nat, index: nat)
    requires chunkSize > 0 && offset <= |data|
    ensures Tiles(h, data, ChunksFrom(h, data, chunkSize, offset, index), offset, index)
    decreases |data| - offset
  {
    if offset < |data| {
      if offset + chunkSize <= |data| {
        ChunksTile(h, data, chunkSize, offset + chunkSize, index + 1);
      } else {
        assert ChunksFrom(h, data, chunkSize, offset + chunkSize, index + 1) == [];
      }
    }
  }

  /** A manifest that describes these data. */
  ghost predicate IsManifest(h: Hash, data: Bytes, m: Manifest) {
    m.size == |data| && m.hash == h(data) && Tiles(h, data, m.chunks, 0, 0)
  }

  /** The part of the data a chunk describes. */
  ghost function Slice(data: Bytes, c: Chunk): Bytes {
    if 0 <= c.offset && 0 <= c.length && c.offset + c.length <= |data| then data[c.offset..c.offset + c.length] else []
  }

  lemma {:induction false} TileAt(h: Hash, data: Bytes, chunks: seq<Chunk>, offset: nat, index: nat, i: nat)
    requires Tiles(h, data, chunks, offset, index) && i < |chunks|
    ensures var c := chunks[i];
            && c.index == index + i && 0 <= c.offset && c.length > 0 && c.offset + c.length <= |data|
            && c.hash == h(Slice(data, c)) && |Slice(data, c)| == c.length
            && c.offset + c.length == (if i + 1 < |chunks| then chunks[i + 1].offset else |data|)
            && Tiles(h, data, chunks[i..], c.offset, index + i)
    decreases chunks
  {
    if i > 0 {
      TileAt(h, data, chunks[1..], offset + chunks[0].length, index + 1, i - 1);
      assert chunks[1..][i - 1..] == chunks[i..];
    } else if |chunks| > 1 {
      TileAt(h, data, chunks[1..], offset + chunks[0].length, index + 1, 0);
    }
  }

  // ---- the receiver, as a value ----

  type Parts = map<int, Bytes>

  predicate Acceptable(h: Hash, m: Manifest, i: int, data: Bytes) {
    0 <= i < |m.chunks| && |data| == m.chunks[i].length && h(data) == m.chunks[i].hash
  }

  function AcceptInto(h: Hash, m: Manifest, parts: Parts, i: int, data: Bytes): Parts {
    if Acceptable(h, m, i, data) then parts[i := data] else parts
  }

  /** Only verified chunks are held. */
  ghost predicate Verified(h: Hash, m: Manifest, parts: Parts) {
    forall i :: i in parts ==> Acceptable(h, m, i, parts[i])
  }

  function HeldFrom(parts: Parts, i: nat, n: nat): seq<int>
    requires i <= n
    decreases n - i
  {
    if i == n then [] else (if i in parts then [i] else []) + HeldFrom(parts, i + 1, n)
  }

  function MissingFrom(parts: Parts, i: nat, n: nat): seq<int>
    requires i <= n
    decreases n - i
  {
    if i == n then [] else (if i in parts then [] else [i]) + MissingFrom(parts, i + 1, n)
  }

  function JoinFrom(parts: Parts, i: nat, n: nat): Bytes
    requires i <= n
    decreases n - i
  {
    if i == n then [] else (if i in parts then parts[i] else []) + JoinFrom(parts, i + 1, n)
  }

  function Completed(h: Hash, m: Manifest, parts: Parts): Result<Bytes> {
    var n := |m.chunks|;
    if MissingFrom(parts, 0, n) != [] then Err(NotFound)
    else if h(JoinFrom(parts, 0, n)) != m.hash then Err(Corrupt)
    else Ok(JoinFrom(parts, 0, n))
  }

  datatype Frame = ChunkFrame(index: int, data: Bytes) | CloseFrame | OtherFrame

  datatype Session = Session(parts: Parts, result: Result<Bytes>)

  /** The receiver's side of one session: it ends with a close frame, an unexpected frame, a chunk that
      does not verify, or the end of the connection. */
  function Receive(h: Hash, m: Manifest, parts: Parts, frames: seq<Frame>): Session
    decreases frames
  {
    if frames == [] then Session(parts, Err(Disconnected))
    else
      match frames[0]
      case CloseFrame => Session(parts, Completed(h, m, parts))
      case OtherFrame => Session(parts, Err(Invalid))
      case ChunkFrame(i, data) =>
        if Acceptable(h, m, i, data) then Receive(h, m, parts[i := data], frames[1..])
        else Session(parts, Err(if 0 <= i < |m.chunks| then Corrupt else Invalid))
  }

  /** Sessions one after the other, each fed any frames at all. */
  function AfterSessions(h: Hash, m: Manifest, parts: Parts, sessions: seq<seq<Frame>>): Parts
    decreases sessions
  {
    if sessions == [] then parts else AfterSessions(h, m, Receive(h, m, parts, sessions[0]).parts, sessions[1..])
  }

  /** Any frames at all given to Accept, errors ignored. */
  function AcceptAll(h: Hash, m: Manifest, parts: Parts, frames: seq<(int, Bytes)>): Parts
    decreases frames
  {
    if frames == [] then parts else AcceptAll(h, m, AcceptInto(h, m, parts, frames[0].0, frames[0].1), frames[1..])
  }

  // ---- the answers of the receiver, spelled out ----

  ghost predicate Climbs(s: seq<int>) {
    forall i, j :: 0 <= i < j < |s| ==> s[i] < s[j]
  }

  lemma ClimbsFrom(i: int, rest: seq<int>)
    requires Climbs(rest) && forall j :: j in rest ==> i < j
    ensures Climbs([i] + rest)
  {
    assert forall k :: 0 <= k < |rest| ==> rest[k] in rest;
  }

  lemma {:induction false} HeldListed(parts: Parts, i: nat, n: nat)
    requires i <= n
    ensures Climbs(HeldFrom(parts, i, n)) && forall j :: j in HeldFrom(parts, i, n) <==> i <= j < n && j in parts
    decreases n - i
  {
    if i < n {
      HeldListed(parts, i + 1, n);
      ClimbsFrom(i, HeldFrom(parts, i + 1, n));
      assert [] + HeldFrom(parts, i + 1, n) == HeldFrom(parts, i + 1, n);
    }
  }

  lemma {:induction false} MissingListed(parts: Parts, i: nat, n: nat)
    requires i <= n
    ensures Climbs(MissingFrom(parts, i, n))
    ensures forall j :: j in MissingFrom(parts, i, n) <==> i <= j < n && !(j in parts)
    decreases n - i
  {
    if i < n {
      var rest := MissingFrom(parts, i + 1, n);
      MissingListed(parts, i + 1, n);
      if i in parts {
        assert MissingFrom(parts, i, n) == rest;
      } else {
        assert MissingFrom(parts, i, n) == [i] + rest;
        ClimbsFrom(i, rest);
        MembersOneMore(i, rest);
      }
    }
  }

  lemma MembersOneMore(i: int, rest: seq<int>)
    ensures forall j :: j in [i] + rest <==> j == i || j in rest
  {
  }

  /** The two lists are of increasing indexes and split the range between them. */
  lemma ListsSplit(parts: Parts, n: nat)
    ensures Climbs(HeldFrom(parts, 0, n)) && Climbs(MissingFrom(parts, 0, n))
    ensures forall j :: 0 <= j < n ==> (j in HeldFrom(parts, 0, n) <==> j in parts)
    ensures forall j :: j in MissingFrom(parts, 0, n) <==> 0 <= j < n && j !in HeldFrom(parts, 0, n)
  {
    HeldListed(parts, 0, n);
    MissingListed(parts, 0, n);
  }

  /** Completion answers for chunks missing first, then for the hash of the whole. */
  lemma CompletionAnswers(h: Hash, m: Manifest, parts: Parts)
    ensures var r := Completed(h, m, parts);
            var all := forall j :: 0 <= j < |m.chunks| ==> j in parts;
            && (r == Err(NotFound) <==> !all)
            && (r == Err(Corrupt) <==> all && h(JoinFrom(parts, 0, |m.chunks|)) != m.hash)
            && (r.Ok? <==> all && h(JoinFrom(parts, 0, |m.chunks|)) == m.hash)
            && (r.Ok? ==> h(r.value) == m.hash && r.value == JoinFrom(parts, 0, |m.chunks|))
  {
    NothingMissing(parts, 0, |m.chunks|);
  }

  /** Chunk frames from the first on that the manifest accepts. */
  ghost predicate AllAccepted(h: Hash, m: Manifest, frames: seq<Frame>, k: nat)
    requires k <= |frames|
  {
    forall i :: 0 <= i < k ==>
      && frames[i].ChunkFrame? && 0 <= frames[i].index < |m.chunks|
      && |frames[i].data| == m.chunks[frames[i].index].length && h(frames[i].data) == m.chunks[frames[i].index].hash
  }

  /** What is held after some chunk frames: for every index the last one of them that brings it. */
  ghost predicate HeldAfter(before: Parts, frames: seq<Frame>, k: nat, after: Parts)
    requires k <= |frames| && forall i :: 0 <= i < k ==> frames[i].ChunkFrame?
  {
    forall j :: (j in after <==> j in before || exists i :: 0 <= i < k && frames[i].index == j)
      && (j in after ==> || (j in before && after[j] == before[j] && forall i :: 0 <= i < k ==> frames[i].index != j)
                         || exists i :: LastBringing(frames, k, i, j) && after[j] == frames[i].data)
  }

  ghost predicate LastBringing(frames: seq<Frame>, k: nat, i: int, j: int)
    requires k <= |frames| && forall x :: 0 <= x < k ==> frames[x].ChunkFrame?
  {
    0 <= i < k && frames[i].index == j && forall x :: i < x < k ==> frames[x].index != j
  }

  /** A session takes chunk frames while they verify; the first other frame, or the end, decides its answer. */
  lemma {:induction false} SessionAnswers(h: Hash, m: Manifest, parts: Parts, frames: seq<Frame>) returns (k: nat)
    ensures k <= |frames| && AllAccepted(h, m, frames, k)
    ensures HeldAfter(parts, frames, k, Receive(h, m, parts, frames).parts)
    ensures var s := Receive(h, m, parts, frames);
            if k == |frames| then s.result == Err(Disconnected)
            else
              match frames[k]
              case CloseFrame => s.result == Completed(h, m, s.parts)
              case OtherFrame => s.result == Err(Invalid)
              case ChunkFrame(i, data) =>
                s.result == Err(if 0 <= i < |m.chunks| then Corrupt else Invalid) && !AllAccepted(h, m, frames, k + 1)
    decreases frames
  {
    if frames != [] && frames[0].ChunkFrame? && Acceptable(h, m, frames[0].index, frames[0].data) {
      var next := parts[frames[0].index := frames[0].data];
      var rest := SessionAnswers(h, m, next, frames[1..]);
      k := rest + 1;
      assert forall i :: 0 < i < |frames| ==> frames[i] == frames[1..][i - 1];
      HeldEarlier(parts, next, frames, k, Receive(h, m, parts, frames).parts);
    } else {
      k := 0;
    }
  }

  lemma HeldEarlier(before: Parts, next: Parts, frames: seq<Frame>, k: nat, after: Parts)
    requires 0 < k <= |frames| && (forall i :: 0 <= i < k ==> frames[i].ChunkFrame?)
    requires forall i :: 0 <= i < k - 1 ==> frames[1..][i].ChunkFrame?
    requires next == before[frames[0].index := frames[0].data] && HeldAfter(next, frames[1..], k - 1, after)
    ensures HeldAfter(before, frames, k, after)
  {
    assert forall i :: 0 < i < |frames| ==> frames[i] == frames[1..][i - 1];
    forall j
      ensures j in after <==> j in before || exists i :: 0 <= i < k && frames[i].index == j
      ensures j in after ==> || (j in before && after[j] == before[j]
                                 && forall i :: 0 <= i < k ==> frames[i].index != j)
                             || exists i :: LastBringing(frames, k, i, j) && after[j] == frames[i].data
    {
      if i :| 0 <= i < k && frames[i].index == j && i > 0 {
        assert frames[1..][i - 1].index == j;
      }
      if j in after {
        if i :| LastBringing(frames[1..], k - 1, i, j) && after[j] == frames[1..][i].data {
          assert frames[1..][i] == frames[i + 1] && forall x :: i + 1 < x < k ==> frames[x] == frames[1..][x - 1];
          assert LastBringing(frames, k, i + 1, j) && after[j] == frames[i + 1].data;
        } else if frames[0].index == j {
          assert LastBringing(frames, k, 0, j) && after[j] == frames[0].data;
        }
      }
    }
  }

  // ---- what the receiver holds ----

  lemma {:induction false} AcceptAllKeys(h: Hash, m: Manifest, parts: Parts, frames: seq<(int, Bytes)>, i: int)
    requires Verified(h, m, parts)
    ensures var after := AcceptAll(h, m, parts, frames);
            && Verified(h, m, after)
            && (i in after <==>
                  i in parts
                  || exists k :: 0 <= k < |frames| && frames[k].0 == i && Acceptable(h, m, i, frames[k].1))
    decreases frames
  {
    if frames != [] {
      var next := AcceptInto(h, m, parts, frames[0].0, frames[0].1);
      AcceptAllKeys(h, m, next, frames[1..], i);
      if k :| 0 <= k < |frames[1..]| && frames[1..][k].0 == i && Acceptable(h, m, i, frames[1..][k].1) {
        assert frames[k + 1] == frames[1..][k];
      }
      if k :| 0 <= k < |frames| && frames[k].0 == i && Acceptable(h, m, i, frames[k].1) {
        if k > 0 {
          assert frames[1..][k - 1] == frames[k];
        }
      }
    }
  }

  lemma {:induction false} NothingMissing(parts: Parts, i: nat, n: nat)
    requires i <= n
    ensures MissingFrom(parts, i, n) == [] <==> forall j :: i <= j < n ==> j in parts
    decreases n - i
  {
    if i < n {
      NothingMissing(parts, i + 1, n);
    }
  }

  lemma JoinOneMore(data: Bytes, parts: Parts, i: nat, n: nat, a: nat, b: nat)
    requires i < n && i in parts && a <= b <= |data| && parts[i] == data[a..b] && JoinFrom(parts, i + 1, n) == data[b..]
    ensures JoinFrom(parts, i, n) == data[a..]
  {
    assert data[a..b] + data[b..] == data[a..];
  }

  /** A verified part is the slice of the data its chunk describes. */
  lemma PartIsSlice(h: Hash, data: Bytes, m: Manifest, parts: Parts, i: nat)
    requires Injective(h) && IsManifest(h, data, m) && Verified(h, m, parts) && i < |m.chunks| && i in parts
    ensures var c := m.chunks[i];
            && 0 <= c.offset && 0 < c.length && c.offset + c.length <= |data|
            && parts[i] == data[c.offset..c.offset + c.length]
            && c.offset + c.length == (if i + 1 < |m.chunks| then m.chunks[i + 1].offset else |data|)
  {
    TileAt(h, data, m.chunks, 0, 0, i);
    assert h(parts[i]) == h(Slice(data, m.chunks[i]));
  }

  /** Verified parts of a tiled manifest, put end to end, are the data. */
  lemma {:induction false} JoinIsData(h: Hash, data: Bytes, m: Manifest, parts: Parts, i: nat) returns (offset: nat)
    requires Injective(h) && IsManifest(h, data, m) && Verified(h, m, parts)
    requires i <= |m.chunks| && forall j :: i <= j < |m.chunks| ==> j in parts
    ensures offset == (if i < |m.chunks| then m.chunks[i].offset else |data|) && offset <= |data|
    ensures JoinFrom(parts, i, |m.chunks|) == data[offset..]
    decreases |m.chunks| - i
  {
    if i == |m.chunks| {
      offset := |data|;
    } else {
      PartIsSlice(h, data, m, parts, i);
      var next := JoinIsData(h, data, m, parts, i + 1);
      offset := m.chunks[i].offset;
      JoinOneMore(data, parts, i, |m.chunks|, offset, next);
    }
  }

  lemma WholeJoin(h: Hash, data: Bytes, m: Manifest, parts: Parts)
    requires Injective(h) && IsManifest(h, data, m) && Verified(h, m, parts)
    requires forall j :: 0 <= j < |m.chunks| ==> j in parts
    ensures JoinFrom(parts, 0, |m.chunks|) == data
  {
    var offset := JoinIsData(h, data, m, parts, 0);
    if m.chunks != [] {
      TileAt(h, data, m.chunks, 0, 0, 0);
    }
    assert data[0..] == data;
  }

  /** Complete either gives back the original data or reports that chunks are missing, and it is the
      first exactly when every chunk is held. */
  lemma CompleteIffHeld(h: Hash, data: Bytes, m: Manifest, parts: Parts)
    requires Injective(h) && IsManifest(h, data, m) && Verified(h, m, parts)
    ensures Completed(h, m, parts) == if forall j :: 0 <= j < |m.chunks| ==> j in parts then Ok(data) else Err(NotFound)
  {
    NothingMissing(parts, 0, |m.chunks|);
    if forall j :: 0 <= j < |m.chunks| ==> j in parts {
      WholeJoin(h, data, m, parts);
    }
  }

  /** For any frames whatever, reordered, repeated or wrong: Complete succeeds exactly when every index
      has come with its right data at least once, and then returns the original. */
  lemma AnyFramesComplete(h: Hash, data: Bytes, m: Manifest, frames: seq<(int, Bytes)>)
    requires Injective(h) && IsManifest(h, data, m)
    ensures Completed(h, m, AcceptAll(h, m, map[], frames))
         == if forall i :: 0 <= i < |m.chunks| ==> (i, Slice(data, m.chunks[i])) in frames
            then Ok(data) else Err(NotFound)
  {
    var after := AcceptAll(h, m, map[], frames);
    forall i | 0 <= i < |m.chunks| ensures i in after <==> (i, Slice(data, m.chunks[i])) in frames {
      AcceptAllKeys(h, m, map[], frames, i);
      TileAt(h, data, m.chunks, 0, 0, i);
      if k :| 0 <= k < |frames| && frames[k].0 == i && Acceptable(h, m, i, frames[k].1) {
        assert frames[k] == (i, Slice(data, m.chunks[i]));
      }
      if (i, Slice(data, m.chunks[i])) in frames {
        var k :| 0 <= k < |frames| && frames[k] == (i, Slice(data, m.chunks[i]));
        assert Acceptable(h, m, i, frames[k].1);
      }
    }
    AcceptAllKeys(h, m, map[], frames, 0);
    CompleteIffHeld(h, data, m, after);
  }

  // ---- sessions ----

  lemma {:induction false} ReceiveKeepsVerified(h: Hash, m: Manifest, parts: Parts, frames: seq<Frame>)
    requires Verified(h, m, parts)
    ensures var s := Receive(h, m, parts, frames); Verified(h, m, s.parts) && parts.Keys <= s.parts.Keys
    decreases frames
  {
    if frames != [] && frames[0].ChunkFrame? && Acceptable(h, m, frames[0].index, frames[0].data) {
      ReceiveKeepsVerified(h, m, parts[frames[0].index := frames[0].data], frames[1..]);
    }
  }

  /** Whatever happens in any number of sessions, nothing unverified is held and nothing held is lost. */
  lemma {:induction false} SessionsKeepVerified(h: Hash, m: Manifest, parts: Parts, sessions: seq<seq<Frame>>)
    requires Verified(h, m, parts)
    ensures var after := AfterSessions(h, m, parts, sessions); Verified(h, m, after) && parts.Keys <= after.Keys
    decreases sessions
  {
    if sessions != [] {
      ReceiveKeepsVerified(h, m, parts, sessions[0]);
      SessionsKeepVerified(h, m, Receive(h, m, parts, sessions[0]).parts, sessions[1..]);
    }
  }

  /** What a sender pushes when it is told which chunks are held: the others, in order, then a close. */
  ghost function PushFrom(data: Bytes, m: Manifest, have: set<int>, i: nat): seq<Frame>
    requires i <= |m.chunks|
    decreases |m.chunks| - i
  {
    if i == |m.chunks| then [CloseFrame]
    else (if i in have then [] else [ChunkFrame(i, Slice(data, m.chunks[i]))]) + PushFrom(data, m, have, i + 1)
  }

  /** The chunk indexes among some frames. */
  function SentIndexes(frames: seq<Frame>): seq<int> {
    if frames == [] then [] else (if frames[0].ChunkFrame? then [frames[0].index] else []) + SentIndexes(frames[1..])
  }

  lemma {:induction false} PushSendsMissing(data: Bytes, m: Manifest, parts: Parts, i: nat)
    requires i <= |m.chunks|
    ensures SentIndexes(PushFrom(data, m, parts.Keys, i)) == MissingFrom(parts, i, |m.chunks|)
    decreases |m.chunks| - i
  {
    if i < |m.chunks| {
      PushSendsMissing(data, m, parts, i + 1);
      var rest := PushFrom(data, m, parts.Keys, i + 1);
      if i in parts {
        assert PushFrom(data, m, parts.Keys, i) == rest;
      } else {
        assert PushFrom(data, m, parts.Keys, i)[1..] == rest;
      }
    }
  }

  lemma PushHead(h: Hash, data: Bytes, m: Manifest, have: set<int>, i: nat)
    requires IsManifest(h, data, m) && i < |m.chunks|
    ensures var frames := PushFrom(data, m, have, i);
            if i in have then frames == PushFrom(data, m, have, i + 1)
            else frames != [] && frames[0] == ChunkFrame(i, Slice(data, m.chunks[i]))
                 && frames[1..] == PushFrom(data, m, have, i + 1)
    ensures Acceptable(h, m, i, Slice(data, m.chunks[i]))
  {
    TileAt(h, data, m.chunks, 0, 0, i);
    assert [] + PushFrom(data, m, have, i + 1) == PushFrom(data, m, have, i + 1);
  }

  /** The receiver's side of one more chunk of a push. */
  lemma PushOneMore(h: Hash, data: Bytes, m: Manifest, have: set<int>, parts: Parts, i: nat) returns (held: Parts)
    requires IsManifest(h, data, m) && Verified(h, m, parts) && i < |m.chunks| && have <= parts.Keys
    ensures Receive(h, m, parts, PushFrom(data, m, have, i)).result
         == Receive(h, m, held, PushFrom(data, m, have, i + 1)).result
    ensures Verified(h, m, held) && parts.Keys <= held.Keys && i in held
  {
    PushHead(h, data, m, have, i);
    held := if i in have then parts else parts[i := Slice(data, m.chunks[i])];
  }

  lemma {:induction false} PushCompletes(h: Hash, data: Bytes, m: Manifest, have: set<int>, parts: Parts, i: nat)
    requires Injective(h) && IsManifest(h, data, m) && Verified(h, m, parts)
    requires i <= |m.chunks| && have <= parts.Keys && forall j :: 0 <= j < i ==> j in parts
    ensures Receive(h, m, parts, PushFrom(data, m, have, i)).result == Ok(data)
    decreases |m.chunks| - i
  {
    if i == |m.chunks| {
      CompleteIffHeld(h, data, m, parts);
    } else {
      var held := PushOneMore(h, data, m, have, parts, i);
      PushCompletes(h, data, m, have, held, i + 1);
    }
  }

  /** Resumption: after any number of sessions over an unreliable source of frames, one clean session
      sends exactly the missing chunks and completes the transfer with the original data. */
  lemma ResumedTransferCompletes(h: Hash, data: Bytes, m: Manifest, sessions: seq<seq<Frame>>)
    requires Injective(h) && IsManifest(h, data, m)
    ensures var parts := AfterSessions(h, m, map[], sessions);
            var frames := PushFrom(data, m, parts.Keys, 0);
            && SentIndexes(frames) == MissingFrom(parts, 0, |m.chunks|)
            && Receive(h, m, parts, frames).result == Ok(data)
  {
    SessionsKeepVerified(h, m, map[], sessions);
    var parts := AfterSessions(h, m, map[], sessions);
    PushSendsMissing(data, m, parts, 0);
    PushCompletes(h, data, m, parts.Keys, parts, 0);
  }

  // ---- the objects ----

  datatype Source = Source(manifest: Manifest, data: Bytes)

  function ChunkData(s: Source, index: int): Result<Bytes> {
    if index < 0 || index >= |s.manifest.chunks| then Err(NotFound)
    else
      var c := s.manifest.chunks[index];
      if c.offset + c.length > |s.data| || c.offset < 0 || c.length < 0 then Err(Corrupt)
      else Ok(s.data[c.offset..c.offset + c.length])
  }

  /** What is sent from the i-th chunk on: every chunk not in have, then a close frame; the first chunk
      the data do not cover ends the push with an error. */
  function Pushed(s: Source, have: set<int>, i: nat): (seq<Frame>, bool)
    requires i <= |s.manifest.chunks|
    decreases |s.manifest.chunks| - i
  {
    if i == |s.manifest.chunks| then ([CloseFrame], true)
    else if s.manifest.chunks[i].index in have then Pushed(s, have, i + 1)
    else
      var data := ChunkData(s, s.manifest.chunks[i].index);
      if data.Err? then ([], false)
      else
        var rest := Pushed(s, have, i + 1);
        ([ChunkFrame(s.manifest.chunks[i].index, data.value)] + rest.0, rest.1)
  }

  /** With a manifest of its own data a source never fails, and sends every chunk under its own index. */
  lemma {:induction false} PushedOfManifest(h: Hash, s: Source, have: set<int>, i: nat)
    requires IsManifest(h, s.data, s.manifest) && i <= |s.manifest.chunks|
    ensures Pushed(s, have, i) == (PushFrom(s.data, s.manifest, have, i), true)
    decreases |s.manifest.chunks| - i
  {
    if i < |s.manifest.chunks| {
      TileAt(h, s.data, s.manifest.chunks, 0, 0, i);
      PushedOfManifest(h, s, have, i + 1);
      if i in have {
        assert [] + PushFrom(s.data, s.manifest, have, i + 1) == PushFrom(s.data, s.manifest, have, i + 1);
      }
    }
  }

  /** The chunk's place in the data, if the data reach that far. */
  predicate Covers(s: Source, c: Chunk) {
    && 0 <= c.index < |s.manifest.chunks|
    && var d := s.manifest.chunks[c.index]; 0 <= d.offset && 0 <= d.length && d.offset + d.length <= |s.data|
  }

  /** A chunk frame with the data at the place its index names, for a chunk that is not held. */
  predicate Carries(s: Source, have: set<int>, f: Frame) {
    && f.ChunkFrame? && f.index !in have && 0 <= f.index < |s.manifest.chunks|
    && var d := s.manifest.chunks[f.index];
       && 0 <= d.offset && 0 <= d.length && d.offset + d.length <= |s.data|
       && f.data == s.data[d.offset..d.offset + d.length]
  }

  /** The frames of a push: such chunk frames, and a close at the very end of one that succeeds. */
  predicate FramesFit(s: Source, have: set<int>, frames: seq<Frame>, ok: bool) {
    var n := if ok then |frames| - 1 else |frames|;
    n >= 0 && (ok ==> frames[n] == CloseFrame) && forall k :: 0 <= k < n ==> Carries(s, have, frames[k])
  }

  lemma FramesOneMore(s: Source, have: set<int>, f: Frame, frames: seq<Frame>, ok: bool)
    requires Carries(s, have, f) && FramesFit(s, have, frames, ok)
    ensures FramesFit(s, have, [f] + frames, ok)
  {
  }

  /** Whatever its manifest says, a push succeeds exactly when the data cover every chunk it has to send; each
      chunk frame carries the data at the place its index names; and only a push that succeeds closes. */
  lemma {:induction false} PushAnswers(s: Source, have: set<int>, i: nat)
    requires i <= |s.manifest.chunks|
    ensures FramesFit(s, have, Pushed(s, have, i).0, Pushed(s, have, i).1)
    ensures Pushed(s, have, i).1 <==>
              forall j :: i <= j < |s.manifest.chunks| && s.manifest.chunks[j].index !in have ==>
                Covers(s, s.manifest.chunks[j])
    decreases |s.manifest.chunks| - i
  {
    if i < |s.manifest.chunks| {
      PushAnswers(s, have, i + 1);
      var c := s.manifest.chunks[i];
      var data := ChunkData(s, c.index);
      assert data.Ok? <==> Covers(s, c);
      if c.index !in have && data.Ok? {
        FramesOneMore(s, have, ChunkFrame(c.index, data.value), Pushed(s, have, i + 1).0, Pushed(s, have, i + 1).1);
      }
    }
  }

  method Push(s: Source, have: seq<int>) returns (frames: seq<Frame>, ok: bool)
    ensures (frames, ok) == Pushed(s, set i | i in have, 0)
  {
    var skip := set i | i in have;
    frames := [];
    assert [] + Pushed(s, skip, 0).0 == Pushed(s, skip, 0).0;
    for i := 0 to |s.manifest.chunks|
      invariant Pushed(s, skip, 0) == (frames + Pushed(s, skip, i).0, Pushed(s, skip, i).1)
    {
      var chunk := s.manifest.chunks[i];
      if chunk.index in skip {
        continue;
      }
      var data := ChunkData(s, chunk.index);
      if data.Err? {
        assert frames + [] == frames;
        return frames, false;
      }
      ConcatAssociates(frames, [ChunkFrame(chunk.index, data.value)], Pushed(s, skip, i + 1).0);
      frames := frames + [ChunkFrame(chunk.index, data.value)];
    }
    frames, ok := frames + [CloseFrame], true;
  }

  class Receiver {
    const h: Hash
    const manifest: Manifest
    var parts: Parts
    var have: set<int>

    ghost predicate Valid()
      reads this
    {
      have == parts.Keys && Verified(h, manifest, parts)
    }

    constructor (h: Hash, manifest: Manifest)
      ensures Valid() && parts == map[] && this.h == h && this.manifest == manifest
    {
      this.h, this.manifest := h, manifest;
      parts, have := map[], {};
    }

    /** Store a chunk that verifies against the manifest; leave everything as it is otherwise. */
    method Accept(index: int, data: Bytes) returns (err: Option<Error>)
      requires Valid()
      modifies this
      ensures Valid() && parts == AcceptInto(h, manifest, old(parts), index, data)
      ensures err.None? <==> && 0 <= index < |manifest.chunks| && |data| == manifest.chunks[index].length
                             && h(data) == manifest.chunks[index].hash
      ensures parts == if err.None? then old(parts)[index := data] else old(parts)
      ensures err.Some? ==> err.value == if 0 <= index < |manifest.chunks| then Corrupt else Invalid
    {
      if index < 0 || index >= |manifest.chunks| {
        return Some(Invalid);
      }
      var want := manifest.chunks[index];
      if |data| != want.length {
        return Some(Corrupt);
      }
      if h(data) != want.hash {
        return Some(Corrupt);
      }
      parts := parts[index := data];
      have := have + {index};
      return None;
    }

    method Have() returns (out: seq<int>)
      requires Valid()
      ensures out == HeldFrom(parts, 0, |manifest.chunks|)
      ensures (set i | i in out) == parts.Keys
    {
      out := [];
      for i := 0 to |manifest.chunks|
        invariant out + HeldFrom(parts, i, |manifest.chunks|) == HeldFrom(parts, 0, |manifest.chunks|)
        invariant forall j :: j in out <==> 0 <= j < i && j in parts
      {
        if i in have {
          ConcatAssociates(out, [i], HeldFrom(parts, i + 1, |manifest.chunks|));
          out := out + [i];
        } else {
          assert [] + HeldFrom(parts, i + 1, |manifest.chunks|) == HeldFrom(parts, i + 1, |manifest.chunks|);
        }
      }
      assert out + [] == out;
      forall j ensures j in out <==> j in parts {
        assert j in parts ==> Acceptable(h, manifest, j, parts[j]);
      }
    }

    method Missing() returns (out: seq<int>)
      requires Valid()
      ensures out == MissingFrom(parts, 0, |manifest.chunks|)
    {
      out := [];
      for i := 0 to |manifest.chunks|
        invariant out + MissingFrom(parts, i, |manifest.chunks|) == MissingFrom(parts, 0, |manifest.chunks|)
      {
        if i !in have {
          ConcatAssociates(out, [i], MissingFrom(parts, i + 1, |manifest.chunks|));
          out := out + [i];
        } else {
          assert [] + MissingFrom(parts, i + 1, |manifest.chunks|) == MissingFrom(parts, i + 1, |manifest.chunks|);
        }
      }
    }

    method Complete() returns (r: Result<Bytes>)
      requires Valid()
      ensures r == Completed(h, manifest, parts)
    {
      var missing := Missing();
      if |missing| != 0 {
        return Err(NotFound);
      }
      NothingMissing(parts, 0, |manifest.chunks|);
      var buf: Bytes := [];
      for i := 0 to |manifest.chunks|
        invariant buf + JoinFrom(parts, i, |manifest.chunks|) == JoinFrom(parts, 0, |manifest.chunks|)
      {
        ConcatAssociates(buf, parts[i], JoinFrom(parts, i + 1, |manifest.chunks|));
        buf := buf + parts[i];
      }
      assert buf + [] == buf;
      if h(buf) != manifest.hash {
        return Err(Corrupt);
      }
      return Ok(buf);
    }

    /** One session over frames that arrive in some order until the connection ends. */
    method Run(frames: seq<Frame>) returns (r: Result<Bytes>)
      requires Valid()
      modifies this
      ensures Valid() && Session(parts, r) == Receive(h, manifest, old(parts), frames)
    {
      for i := 0 to |frames|
        invariant Valid()
        invariant Receive(h, manifest, old(parts), frames) == Receive(h, manifest, parts, frames[i..])
      {
        assert frames[i..][0] == frames[i] && frames[i..][1..] == frames[i + 1..];
        match frames[i] {
          case CloseFrame =>
            r := Complete();
            return;
          case OtherFrame => return Err(Invalid);
          case ChunkFrame(index, data) =>
            var err := Accept(index, data);
            if err.Some? {
              return Err(err.value);
            }
        }
      }
      return Err(Disconnected);
    }
  }

  /** A whole resumable transfer into a receiver that has been through anything before. */
  method Transfer(src: Source, recv: Receiver) returns (r: Result<Bytes>)
    requires recv.Valid() && Injective(recv.h) && IsManifest(recv.h, src.data, src.manifest)
        && recv.manifest == src.manifest
    modifies recv
    ensures recv.Valid() && r == Ok(src.data)
  {
    var offer := recv.Have();
    var frames, ok := Push(src, offer);
    PushedOfManifest(recv.h, src, recv.parts.Keys, 0);
    PushCompletes(recv.h, src.data, src.manifest, recv.parts.Keys, recv.parts, 0);
    r := recv.Run(frames);
  }
}
