/** Which results the tool host forgets: the one stored longest ago, and only to make room. */
module HostFifo {
  import opened Ordering
  import opened Host
  import opened HostLinear

  /** The keys held, oldest first, after one more operation. A success enters last; a result may be dropped
      only when it is the oldest and one more than the limit are held. */
  function OrderStep(limit: nat, order: Option<seq<Key>>, op: Op): Option<seq<Key>> {
    match order
    case None => None
    case Some(keys) =>
      match op
      case Succeed(_, k, _, _) => Some(keys + [k])
      case Drop(k) => if |keys| == limit + 1 && keys[0] == k then Some(keys[1..]) else None
      case _ => order
  }

  function OrderAfter(limit: nat, order: Option<seq<Key>>, hist: seq<Op>): Option<seq<Key>>
    decreases hist
  {
    if hist == [] then order else OrderAfter(limit, OrderStep(limit, order, hist[0]), hist[1..])
  }

  /** The keys held after a history; None when it drops a result out of turn. */
  function OrderOf(limit: nat, hist: seq<Op>): Option<seq<Key>> {
    OrderAfter(limit, Some([]), hist)
  }

  lemma {:induction false} OrderConcat(limit: nat, order: Option<seq<Key>>, a: seq<Op>, b: seq<Op>)
    ensures OrderAfter(limit, order, a + b) == OrderAfter(limit, OrderAfter(limit, order, a), b)
    decreases a
  {
    if a == [] {
      assert a + b == b;
    } else {
      assert (a + b)[0] == a[0] && (a + b)[1..] == a[1..] + b;
      OrderConcat(limit, OrderStep(limit, order, a[0]), a[1..], b);
    }
  }

  // ---- the order list of the tables is that order ----

  lemma FirstKeepsOrder(limit: nat, s: Sys, t: Caller)
    requires Next(limit, s, First(t)).Some? && OrderOf(limit, s.hist) == Some(s.tables.cacheOrder)
    ensures var u := Next(limit, s, First(t)).value; OrderOf(limit, u.hist) == Some(u.tables.cacheOrder)
  {
    var me := s.threads[t];
    var ops := FirstOps(t, me.key, me.inputHash, Lookup(s.tables, t, me.key, me.inputHash).1);
    OrderConcat(limit, Some([]), s.hist, ops);
    if ops != [] {
      assert ops[1..] == [];
    }
  }

  lemma {:induction false} GroupKeepsOrder(limit: nat, order: Option<seq<Key>>, waiters: seq<Caller>, key: Key,
                                           h: InputHash, reply: Reply)
    ensures OrderAfter(limit, order, Group(waiters, key, h, reply)) == order
  {
    if waiters != [] {
      GroupKeepsOrder(limit, order, waiters[1..], key, h, reply);
    }
  }

  /** Storing a result appends its key and drops the oldest one when the cache was full. */
  lemma CompleteOrder(limit: nat, h: Tables, t: Caller, reply: Reply)
    requires limit >= 1 && Sound(limit, h) && t in h.calls && Look(h.inflight, h.calls[t].key) == Some(t)
    ensures var key := h.calls[t].key;
            var order := Complete(limit, h, t, reply).cacheOrder;
            if reply.Failure? then order == h.cacheOrder && Dropped(limit, h, key, reply) == []
            else if |h.cache| < limit then order == h.cacheOrder + [key] && Dropped(limit, h, key, reply) == []
            else && |h.cacheOrder| == limit && order == h.cacheOrder[1..] + [key]
                 && Dropped(limit, h, key, reply) == [Drop(h.cacheOrder[0])]
  {
    var call := h.calls[t];
    var published := h.(calls := h.calls[t := call.(reply := Some(reply))]);
    if reply.Success? {
      StoredShape(limit, published, call.key, Entry(reply.output, call.inputHash));
      DistinctCardinality(h.cacheOrder);
      assert |h.cache| == |h.cache.Keys|;
    }
  }

  lemma SecondOpsOrder(limit: nat, h: Tables, t: Caller, key: Key, inputHash: InputHash, reply: Reply,
                       waiters: seq<Caller>, keys: seq<Key>)
    ensures var led := if reply.Success? then keys + [key] else keys;
            OrderAfter(limit, Some(keys), SecondOps(limit, h, t, key, inputHash, reply, waiters))
              == OrderAfter(limit, Some(led), Dropped(limit, h, key, reply))
  {
    var first := [LeaderOp(t, key, inputHash, reply)];
    var group := Group(waiters, key, inputHash, reply);
    var led := OrderStep(limit, Some(keys), first[0]);
    assert first[1..] == [] && OrderAfter(limit, Some(keys), first) == led;
    GroupKeepsOrder(limit, led, waiters, key, inputHash, reply);
    OrderConcat(limit, Some(keys), first, group);
    OrderConcat(limit, Some(keys), first + group, Dropped(limit, h, key, reply));
  }

  lemma SecondKeepsOrder(limit: nat, s: Sys, t: Caller, reply: Reply)
    requires Consistent(limit, s) && Next(limit, s, Second(t, reply)).Some?
    requires OrderOf(limit, s.hist) == Some(s.tables.cacheOrder)
    ensures var u := Next(limit, s, Second(t, reply)).value; OrderOf(limit, u.hist) == Some(u.tables.cacheOrder)
  {
    var me := s.threads[t];
    var keys := s.tables.cacheOrder;
    assert ThreadOk(s.tables, AnswersTo(s.hist, t), t, me);
    var ops := SecondOps(limit, s.tables, t, me.key, me.inputHash, reply, WaitersOf(s, t));
    SecondHist(limit, s, t, reply);
    OrderConcat(limit, Some([]), s.hist, ops);
    SecondOpsOrder(limit, s.tables, t, me.key, me.inputHash, reply, WaitersOf(s, t), keys);
    CompleteOrder(limit, s.tables, t, reply);
    DropsOldest(limit, keys, me.key);
  }

  lemma DropsOldest(limit: nat, keys: seq<Key>, key: Key)
    requires limit >= 1
    ensures |keys| == limit ==> OrderAfter(limit, Some(keys + [key]), [Drop(keys[0])]) == Some(keys[1..] + [key])
  {
    if |keys| == limit {
      assert (keys + [key])[1..] == keys[1..] + [key];
      assert [Drop(keys[0])][1..] == [];
    }
  }

  lemma {:induction false} RunKeepsOrder(limit: nat, s: Sys, acts: seq<Action>, u: Sys)
    requires Consistent(limit, s) && Reaches(limit, s, acts, u)
    requires OrderOf(limit, s.hist) == Some(s.tables.cacheOrder)
    ensures Consistent(limit, u) && OrderOf(limit, u.hist) == Some(u.tables.cacheOrder)
    decreases |acts|
  {
    if acts != [] {
      StepKeeps(limit, s, acts[0]);
      match acts[0] {
        case First(t) => FirstKeepsOrder(limit, s, t);
        case Second(t, reply) => SecondKeepsOrder(limit, s, t, reply);
        case _ =>
      }
      RunKeepsOrder(limit, Next(limit, s, acts[0]).value, acts[1..], u);
    }
  }

  // ---- first in, first out ----

  /** The keys that succeeded, in order. */
  function SuccessKeys(hist: seq<Op>): seq<Key> {
    if hist == [] then [] else (if hist[0].Succeed? then [hist[0].key] else []) + SuccessKeys(hist[1..])
  }

  lemma {:induction false} SuccessKeysConcat(a: seq<Op>, b: seq<Op>)
    ensures SuccessKeys(a + b) == SuccessKeys(a) + SuccessKeys(b)
  {
    if a == [] {
      assert a + b == b;
    } else {
      assert (a + b)[0] == a[0] && (a + b)[1..] == a[1..] + b;
      SuccessKeysConcat(a[1..], b);
    }
  }

  /** A history the simple object can go through with a cache of this size. */
  ghost predicate Fifo(limit: nat, hist: seq<Op>) {
    Legal(hist) && OrderOf(limit, hist).Some?
  }

  lemma {:induction false} OrderLost(limit: nat, hist: seq<Op>)
    ensures OrderAfter(limit, None, hist) == None
  {
    if hist != [] {
      OrderLost(limit, hist[1..]);
    }
  }

  lemma OrderAt(limit: nat, hist: seq<Op>, n: nat)
    requires OrderOf(limit, hist).Some? && n <= |hist|
    ensures OrderOf(limit, hist[..n]).Some?
    ensures n < |hist| ==> OrderOf(limit, hist[..n + 1]) == OrderStep(limit, OrderOf(limit, hist[..n]), hist[n])
  {
    assert hist == hist[..n] + hist[n..];
    OrderConcat(limit, Some([]), hist[..n], hist[n..]);
    OrderLost(limit, hist[n..]);
    if n < |hist| {
      assert hist[..n + 1] == hist[..n] + [hist[n]];
      OrderConcat(limit, Some([]), hist[..n], [hist[n]]);
    }
  }

  ghost predicate HeldIn(hist: seq<Op>, k: Key) {
    CellOf(hist, k).Some? && CellOf(hist, k).value.Held?
  }

  /** The keys in the order are those that hold a result, each once. */
  lemma {:induction false} OrderHolds(limit: nat, hist: seq<Op>, n: nat)
    requires Fifo(limit, hist) && n <= |hist|
    ensures OrderOf(limit, hist[..n]).Some?
    ensures var keys := OrderOf(limit, hist[..n]).value;
            Distinct(keys) && forall k :: k in keys <==> HeldIn(hist[..n], k)
    decreases n
  {
    if n > 0 {
      OrderHolds(limit, hist, n - 1);
      OrderAt(limit, hist, n - 1);
      OrderAt(limit, hist, n);
      AllowedAt(hist, n - 1);
      HoldsStep(limit, OrderOf(limit, hist[..n - 1]).value, hist, n - 1);
    }
  }

  lemma HoldsStep(limit: nat, keys: seq<Key>, hist: seq<Op>, n: nat)
    requires n < |hist| && Distinct(keys) && OrderStep(limit, Some(keys), hist[n]).Some?
    requires forall k :: k in keys <==> HeldIn(hist[..n], k)
    requires var c := CellOf(hist[..n], hist[n].key); c.Some? && Apply(c.value, hist[n]).Some?
    requires forall k :: CellOf(hist[..n + 1], k) == ApplyTo(CellOf(hist[..n], k), hist[n], k)
    ensures var after := OrderStep(limit, Some(keys), hist[n]).value;
            Distinct(after) && forall k :: k in after <==> HeldIn(hist[..n + 1], k)
  {
    var op := hist[n];
    assert HeldIn(hist[..n], op.key) <==> op.key in keys;
    var after := OrderStep(limit, Some(keys), op).value;
    if op.Drop? {
      SplitFirst(keys);
      assert op.key !in after;
    }
    forall k ensures k in after <==> HeldIn(hist[..n + 1], k) {
      assert CellOf(hist[..n + 1], k) == ApplyTo(CellOf(hist[..n], k), op, k);
      assert k in keys <==> HeldIn(hist[..n], k);
    }
  }

  /** While a result is not dropped, what stands behind it in the order is what succeeded since. */
  lemma {:induction false} OrderSince(limit: nat, hist: seq<Op>, i: nat, n: nat) returns (before: seq<Key>)
    requires Fifo(limit, hist) && i < n <= |hist| && hist[i].Succeed?
    requires forall m :: i < m < n ==> hist[m] != Drop(hist[i].key)
    ensures OrderOf(limit, hist[..n]) == Some(before + [hist[i].key] + SuccessKeys(hist[i + 1..n]))
    decreases n
  {
    var k := hist[i].key;
    OrderAt(limit, hist, n - 1);
    OrderAt(limit, hist, n);
    if n == i + 1 {
      before := OrderOf(limit, hist[..i]).value;
      assert hist[i + 1..n] == [] && before + [k] + [] == before + [k];
    } else {
      before := OrderSince(limit, hist, i, n - 1);
      var since := SuccessKeys(hist[i + 1..n - 1]);
      assert hist[i + 1..n] == hist[i + 1..n - 1] + [hist[n - 1]];
      SuccessKeysConcat(hist[i + 1..n - 1], [hist[n - 1]]);
      before := StepSince(limit, before, k, since, hist[n - 1]);
      assert hist[..n - 1] + [hist[n - 1]] == hist[..n];
    }
  }

  lemma StepSince(limit: nat, before: seq<Key>, k: Key, since: seq<Key>, op: Op) returns (after: seq<Key>)
    requires op != Drop(k) && OrderStep(limit, Some(before + [k] + since), op).Some?
    ensures OrderStep(limit, Some(before + [k] + since), op) == Some(after + [k] + (since + SuccessKeys([op])))
  {
    assert [op][1..] == [] && SuccessKeys([op]) == if op.Succeed? then [op.key] else [];
    assert since + [] == since;
    after := before;
    match op
    case Succeed(_, x, _, _) => ConcatAssociates(before + [k], since, [x]);
    case Drop(x) =>
      assert before != [] && (before + [k] + since)[1..] == before[1..] + [k] + since;
      after := before[1..];
    case _ =>
  }

  /** Between two places of a history as many other keys succeed, each once, as the cache holds. */
  ghost predicate RoomMade(limit: nat, hist: seq<Op>, i: nat, j: nat)
    requires i < j <= |hist| && hist[i].Succeed?
  {
    var later := SuccessKeys(hist[i + 1..j]);
    |later| == limit && Distinct(later) && hist[i].key !in later
  }

  /** First in, first out: a result is dropped exactly when as many other keys have succeeded after it as
      the cache holds, and each of them once. */
  lemma DroppedInTurn(limit: nat, hist: seq<Op>, i: nat, j: nat)
    requires Fifo(limit, hist) && i < j < |hist| && hist[i].Succeed? && hist[j] == Drop(hist[i].key)
    requires forall m :: i < m < j ==> hist[m] != Drop(hist[i].key)
    ensures RoomMade(limit, hist, i, j)
  {
    var before := OrderSince(limit, hist, i, j);
    var keys := before + [hist[i].key] + SuccessKeys(hist[i + 1..j]);
    OrderAt(limit, hist, j + 1);
    OrderAt(limit, hist, j);
    OrderHolds(limit, hist, j);
    assert keys[0] == hist[i].key == keys[|before|];
    assert before == [];
    SplitFirst(keys);
    assert keys[1..] == SuccessKeys(hist[i + 1..j]);
  }

  lemma {:induction false} FirstDrop(hist: seq<Op>, i: nat, m: nat, k: Key) returns (j: nat)
    requires i < m < |hist| && hist[m] == Drop(k)
    ensures i < j <= m && hist[j] == Drop(k) && forall x :: i < x < j ==> hist[x] != Drop(k)
    decreases m
  {
    if x :| i < x < m && hist[x] == Drop(k) {
      j := FirstDrop(hist, i, x, k);
    } else {
      j := m;
    }
  }

  /** So a key is executed again only after as many other keys have succeeded as the cache holds. */
  lemma ExecutedAgainAfterLimit(limit: nat, hist: seq<Op>, i: nat, j: nat)
    requires Fifo(limit, hist) && i < j < |hist| && hist[i].Succeed? && hist[i].key == hist[j].key
    requires hist[j].Succeed? || hist[j].Claim?
    ensures exists n :: i < n < j && RoomMade(limit, hist, i, n)
  {
    SecondExecutionNeedsEviction(hist, i, j);
    var m :| i < m < j && hist[m] == Drop(hist[i].key);
    var n := FirstDrop(hist, i, m, hist[i].key);
    DroppedInTurn(limit, hist, i, n);
  }

  /** Every interleaving of callers leaves such a history behind. */
  lemma EveryRunIsFifo(limit: nat, acts: seq<Action>, u: Sys)
    requires limit >= 1 && Reaches(limit, INITIAL, acts, u)
    ensures Fifo(limit, u.hist) && OrderOf(limit, u.hist) == Some(u.tables.cacheOrder)
  {
    InitialConsistent(limit);
    RunKeepsOrder(limit, INITIAL, acts, u);
    Linearizable(limit, acts, u);
  }
}
