/** The tool host's idempotent invocation: a bounded cache and a table of calls under way. */
module Host {
  import opened Ordering

  const CACHE_LIMIT: nat := 10000

  /** Keys, input hashes, outputs and error texts are compared and passed on, never read. */
  type Key = Id
  type InputHash = Id
  type Output = nat
  type Caller = Id

  datatype Reply = Success(output: Output) | Failure(error: nat)

  datatype Entry = Entry(output: Output, inputHash: InputHash)

  /** A call under way, or one that is over, kept for those who wait for it. */
  datatype Call = Call(key: Key, inputHash: InputHash, reply: Option<Reply>)

  datatype Tables = Tables(
    cache: map<Key, Entry>, cacheOrder: seq<Key>, inflight: map<Key, Caller>, calls: map<Caller, Call>)

  datatype Response = Executed(output: Output) | Replayed(output: Output) | Conflicting | Failed(error: nat) | Cancelled

  /** What the first critical section decides. */
  datatype Decision = Answer(response: Response) | Wait(leader: Caller) | Execute

  function Lookup(h: Tables, me: Caller, key: Key, inputHash: InputHash): (Tables, Decision) {
    if key in h.cache then
      (h, Answer(if h.cache[key].inputHash == inputHash then Replayed(h.cache[key].output) else Conflicting))
    else if key in h.inflight && h.inflight[key] in h.calls then
      var leader := h.inflight[key];
      (h, if h.calls[leader].inputHash == inputHash then Wait(leader) else Answer(Conflicting))
    else
      (h.(inflight := h.inflight[key := me], calls := h.calls[me := Call(key, inputHash, None)]), Execute)
  }

  /** Evict from the front while the cache is over its limit. */
  function Evict(limit: nat, cache: map<Key, Entry>, order: seq<Key>): (r: (map<Key, Entry>, seq<Key>))
    decreases |order|
  {
    if |cache| > limit && |order| > 0 then Evict(limit, cache - {order[0]}, order[1..]) else (cache, order)
  }

  function Stored(limit: nat, h: Tables, key: Key, entry: Entry): Tables {
    var order := if key in h.cache then h.cacheOrder else h.cacheOrder + [key];
    var (cache, kept) := Evict(limit, h.cache[key := entry], order);
    h.(cache := cache, cacheOrder := kept)
  }

  /** The second critical section: publish the reply, cache a success, and close the call. */
  function Complete(limit: nat, h: Tables, me: Caller, reply: Reply): Tables
    requires me in h.calls
  {
    var call := h.calls[me];
    var published := h.(calls := h.calls[me := call.(reply := Some(reply))]);
    var stored := if reply.Success? then Stored(limit, published, call.key, Entry(reply.output, call.inputHash))
        else published;
    stored.(inflight := stored.inflight - {call.key})
  }

  function LeaderResponse(reply: Reply): Response {
    match reply case Success(output) => Executed(output) case Failure(error) => Failed(error)
  }

  function WaiterResponse(reply: Reply): Response {
    match reply case Success(output) => Replayed(output) case Failure(error) => Failed(error)
  }

  /** What the tables look like between critical sections. */
  ghost predicate Sound(limit: nat, h: Tables) {
    && CacheOk(limit, h.cache, h.cacheOrder)
    && h.cache.Keys !! h.inflight.Keys
    && forall k :: k in h.inflight ==>
         h.inflight[k] in h.calls && h.calls[h.inflight[k]].key == k && h.calls[h.inflight[k]].reply.None?
  }

  ghost predicate CacheOk(limit: nat, cache: map<Key, Entry>, order: seq<Key>) {
    Distinct(order) && Elements(order) == cache.Keys && |cache| <= limit
  }

  lemma AppendedOrder(cache: map<Key, Entry>, order: seq<Key>, key: Key, entry: Entry)
    requires Distinct(order) && Elements(order) == cache.Keys && key !in cache
    ensures Distinct(order + [key]) && Elements(order + [key]) == cache[key := entry].Keys
    ensures |cache[key := entry]| == |cache| + 1
  {
    assert forall x :: x in order <==> x in Elements(order);
    assert Elements(order + [key]) == Elements(order) + {key};
    assert cache[key := entry].Keys == cache.Keys + {key};
    assert |cache| == |cache.Keys| && |cache[key := entry]| == |cache[key := entry].Keys|;
  }

  lemma DroppedFirst(cache: map<Key, Entry>, order: seq<Key>)
    requires Distinct(order) && Elements(order) == cache.Keys && order != []
    ensures Distinct(order[1..]) && Elements(order[1..]) == (cache - {order[0]}).Keys
    ensures |cache - {order[0]}| == |cache| - 1
  {
    SplitFirst(order);
    assert order[0] in Elements(order) && order[0] !in order[1..];
    assert Elements(order) == {order[0]} + Elements(order[1..]);
    assert (cache - {order[0]}).Keys == cache.Keys - {order[0]};
    assert |cache| == |cache.Keys| && |cache - {order[0]}| == |(cache - {order[0]}).Keys|;
  }

  /** Storing a new key into a sound cache evicts at most the oldest key, and never the new one. */
  lemma StoredShape(limit: nat, h: Tables, key: Key, entry: Entry)
    requires limit >= 1 && CacheOk(limit, h.cache, h.cacheOrder) && key !in h.cache
    ensures var s := Stored(limit, h, key, entry);
            && CacheOk(limit, s.cache, s.cacheOrder)
            && s == h.(cache := s.cache, cacheOrder := s.cacheOrder)
            && if |h.cache| < limit then s.cache == h.cache[key := entry] && s.cacheOrder == h.cacheOrder + [key]
               else && |h.cacheOrder| > 0 && h.cacheOrder[0] in h.cache && h.cacheOrder[0] != key
                    && s.cache == (h.cache[key := entry]) - {h.cacheOrder[0]}
                        && s.cacheOrder == h.cacheOrder[1..] + [key]
  {
    AppendedOrder(h.cache, h.cacheOrder, key, entry);
    if |h.cache| == limit {
      StoredWhenFull(limit, h, key, entry);
    }
  }

  lemma StoredWhenFull(limit: nat, h: Tables, key: Key, entry: Entry)
    requires limit >= 1 && CacheOk(limit, h.cache, h.cacheOrder) && key !in h.cache && |h.cache| == limit
    ensures |h.cacheOrder| == limit && h.cacheOrder[0] in h.cache
    ensures var s := Stored(limit, h, key, entry);
            && CacheOk(limit, s.cache, s.cacheOrder)
            && s == h.(cache := (h.cache[key := entry]) - {h.cacheOrder[0]}, cacheOrder := h.cacheOrder[1..] + [key])
  {
    var full := h.cache[key := entry];
    var order := h.cacheOrder + [key];
    DistinctCardinality(h.cacheOrder);
    assert |h.cache| == |h.cache.Keys|;
    assert h.cacheOrder[0] in Elements(h.cacheOrder);
    AppendedOrder(h.cache, h.cacheOrder, key, entry);
    DroppedFirst(full, order);
    TailOfAppend(h.cacheOrder, key);
    assert Evict(limit, full, order) == Evict(limit, full - {order[0]}, order[1..]);
  }

  lemma TailOfAppend(s: seq<Key>, key: Key)
    requires s != []
    ensures (s + [key])[1..] == s[1..] + [key]
  {
  }

  lemma LookupKeepsSound(limit: nat, h: Tables, me: Caller, key: Key, inputHash: InputHash)
    requires Sound(limit, h) && me !in h.calls
    ensures Sound(limit, Lookup(h, me, key, inputHash).0)
  {
  }

  lemma CompleteKeepsSound(limit: nat, h: Tables, me: Caller, reply: Reply)
    requires limit >= 1 && Sound(limit, h) && me in h.calls && Look(h.inflight, h.calls[me].key) == Some(me)
    ensures Sound(limit, Complete(limit, h, me, reply))
  {
    var call := h.calls[me];
    var published := h.(calls := h.calls[me := call.(reply := Some(reply))]);
    if reply.Success? {
      StoredShape(limit, published, call.key, Entry(reply.output, call.inputHash));
    }
    var t := Complete(limit, h, me, reply);
    forall k | k in t.inflight
      ensures t.inflight[k] in t.calls && t.calls[t.inflight[k]].key == k && t.calls[t.inflight[k]].reply.None?
    {
      assert k in h.inflight && k != call.key;
    }
  }

  class Host {
    const limit: nat
    var cache: map<Key, Entry>
    var cacheOrder: seq<Key>
    var inflight: map<Key, Caller>
    var calls: map<Caller, Call>

    ghost function View(): Tables
      reads this
    {
      Tables(cache, cacheOrder, inflight, calls)
    }

    constructor ()
      ensures limit == 10000 && View() == Tables(map[], [], map[], map[])
      ensures Sound(limit, View())
    {
      limit := CACHE_LIMIT;
      cache, cacheOrder, inflight, calls := map[], [], map[], map[];
    }

    /** The first critical section of Invoke. */
    method Consult(me: Caller, key: Key, inputHash: InputHash) returns (d: Decision)
      requires Sound(limit, View()) && me !in calls
      modifies this
      ensures (View(), d) == Lookup(old(View()), me, key, inputHash)
      ensures Sound(limit, View())
    {
      LookupKeepsSound(limit, View(), me, key, inputHash);
      if key in cache {
        if cache[key].inputHash != inputHash {
          return Answer(Conflicting);
        }
        return Answer(Replayed(cache[key].output));
      }
      if key in inflight {
        var leader := inflight[key];
        if calls[leader].inputHash != inputHash {
          return Answer(Conflicting);
        }
        return Wait(leader);
      }
      inflight := inflight[key := me];
      calls := calls[me := Call(key, inputHash, None)];
      return Execute;
    }

    method StoreLocked(key: Key, entry: Entry)
      modifies this`cache, this`cacheOrder
      ensures View() == Stored(limit, old(View()), key, entry)
    {
      if key !in cache {
        cacheOrder := cacheOrder + [key];
      }
      cache := cache[key := entry];
      ghost var done := Evict(limit, cache, cacheOrder);
      while |cache| > limit && |cacheOrder| > 0
        invariant Evict(limit, cache, cacheOrder) == done
        decreases |cacheOrder|
      {
        var oldest := cacheOrder[0];
        cacheOrder := cacheOrder[1..];
        cache := cache - {oldest};
      }
    }

    /** The second critical section of Invoke, once the provider has replied. */
    method Publish(me: Caller, reply: Reply) returns (r: Response)
      requires limit >= 1 && Sound(limit, View())
      requires me in calls && Look(inflight, calls[me].key) == Some(me)
      modifies this
      ensures View() == Complete(limit, old(View()), me, reply) && r == LeaderResponse(reply)
      ensures Sound(limit, View())
    {
      CompleteKeepsSound(limit, View(), me, reply);
      var call := calls[me];
      calls := calls[me := call.(reply := Some(reply))];
      if reply.Success? {
        StoreLocked(call.key, Entry(reply.output, call.inputHash));
      }
      inflight := inflight - {call.key};
      return LeaderResponse(reply);
    }
  }
}
