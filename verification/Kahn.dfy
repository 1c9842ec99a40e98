/** The drain loop shared by the planner's graph and the workflow compiler: indegrees counted with
    repetition, a map of children, and a queue that is sorted again after every node. */
module Kahn {
  import opened Ordering
  import opened TopologicalOrder

  /** Dependency lists as written, where a dependency may be repeated or missing. */
  type Lists = map<Id, seq<Id>>

  ghost function DepSets(d: Lists): Deps {
    map x | x in d :: Elements(d[x])
  }

  /** How many entries of a dependency list are not taken yet: the indegree the loop maintains. */
  function Remaining(deps: seq<Id>, done: set<Id>): nat {
    if deps == [] then 0 else (if deps[0] in done then 0 else 1) + Remaining(deps[1..], done)
  }

  function ChildrenOf(children: Lists, p: Id): seq<Id> {
    if p in children then children[p] else []
  }

  /** x appears among the children of p as often as p appears among the dependencies of x. */
  ghost predicate AreChildren(d: Lists, p: Id, bag: multiset<Id>) {
    forall x :: bag[x] == if x in d then multiset(d[x])[p] else 0
  }

  ghost predicate Inverts(d: Lists, children: Lists) {
    forall p :: AreChildren(d, p, multiset(ChildrenOf(children, p)))
  }

  lemma {:induction false} RemainingAfter(deps: seq<Id>, done: set<Id>, id: Id)
    requires id !in done
    ensures Remaining(deps, done + {id}) + multiset(deps)[id] == Remaining(deps, done)
  {
    if deps != [] {
      RemainingAfter(deps[1..], done, id);
      SplitFirst(deps);
    }
  }

  lemma {:induction false} RemainingZero(deps: seq<Id>, done: set<Id>)
    ensures Remaining(deps, done) == 0 <==> Elements(deps) <= done
  {
    if deps != [] {
      RemainingZero(deps[1..], done);
      ElementsSplit(deps);
    }
  }

  lemma {:induction false} RemainingNone(deps: seq<Id>)
    ensures Remaining(deps, {}) == |deps|
  {
    if deps != [] {
      RemainingNone(deps[1..]);
    }
  }

  /** The nodes whose count has reached zero are the ready ones. */
  lemma ZeroIsReady(d: Lists, done: set<Id>, x: Id)
    requires x in d && x !in done
    ensures Remaining(d[x], done) == 0 <==> x in ReadySet(DepSets(d), done)
  {
    RemainingZero(d[x], done);
  }

  ghost predicate QueueHolds(d: Lists, done: set<Id>, indegree: map<Id, int>, queue: seq<Id>) {
    && indegree.Keys == d.Keys
    && Distinct(queue)
    && forall x :: x in queue <==> x in d && x !in done && indegree[x] == 0
  }

  ghost predicate Settled(d: Lists, done: set<Id>) {
    forall x :: x in done ==> x in d && Remaining(d[x], done) == 0
  }

  ghost predicate Counts(d: Lists, done: set<Id>, indegree: map<Id, int>) {
    && indegree.Keys == d.Keys
    && (forall x :: x in d ==> indegree[x] == Remaining(d[x], done))
    && Settled(d, done)
  }

  /** Recording one more dependency of id keeps the two directions of the relation in step. */
  lemma RecordsChild(d: Lists, children: Lists, id: Id, dep: Id)
    requires Inverts(d, children) && id in d
    ensures Inverts(d[id := d[id] + [dep]], children[dep := ChildrenOf(children, dep) + [id]])
  {
    var d' := d[id := d[id] + [dep]];
    var children' := children[dep := ChildrenOf(children, dep) + [id]];
    forall p ensures AreChildren(d', p, multiset(ChildrenOf(children', p))) {
      assert AreChildren(d, p, multiset(ChildrenOf(children, p)));
      OneMoreChild(d, id, dep, p, ChildrenOf(children, p));
    }
  }

  lemma OneMoreChild(d: Lists, id: Id, dep: Id, p: Id, kids: seq<Id>)
    requires id in d && AreChildren(d, p, multiset(kids))
    ensures AreChildren(d[id := d[id] + [dep]], p, multiset(if p == dep then kids + [id] else kids))
  {
    assert multiset(d[id] + [dep]) == multiset(d[id]) + multiset{dep};
    assert multiset(kids + [id]) == multiset(kids) + multiset{id};
  }

  lemma RecordsNode(d: Lists, children: Lists, id: Id)
    requires Inverts(d, children) && id !in d
    ensures Inverts(d[id := []], children)
  {
    forall p ensures AreChildren(d[id := []], p, multiset(ChildrenOf(children, p))) {
      assert AreChildren(d, p, multiset(ChildrenOf(children, p)));
    }
  }

  /** Enter one node of the dependency lists into the map of children. */
  method Enter(ghost d: Lists, children0: Lists, id: Id, deps: seq<Id>) returns (children: Lists)
    requires Inverts(d, children0) && id !in d
    ensures Inverts(d[id := deps], children)
  {
    children := children0;
    RecordsNode(d, children, id);
    for i := 0 to |deps|
      invariant Inverts(d[id := deps[..i]], children)
    {
      RecordsChild(d[id := deps[..i]], children, id, deps[i]);
      children := children[deps[i] := ChildrenOf(children, deps[i]) + [id]];
      assert deps[..i + 1] == deps[..i] + [deps[i]];
      assert d[id := deps[..i]][id := deps[..i + 1]] == d[id := deps[..i + 1]];
    }
    assert deps[..|deps|] == deps;
  }

  /** Counts before anything is taken are the lengths of the lists. */
  lemma InitialCounts(d: Lists, indegree: map<Id, int>)
    requires indegree.Keys == d.Keys && forall x :: x in d ==> indegree[x] == |d[x]|
    ensures Counts(d, {}, indegree)
  {
    forall x | x in d ensures Remaining(d[x], {}) == |d[x]| {
      RemainingNone(d[x]);
    }
  }

  lemma SuffixCount(s: seq<Id>, i: nat)
    requires i < |s|
    ensures forall x :: multiset(s[i..])[x] == multiset(s[i + 1..])[x] + if x == s[i] then 1 else 0
  {
    assert s[i..] == [s[i]] + s[i + 1..];
  }

  /** Counts in the middle of releasing the children of the newest taken node: owed[x] decrements are to come. */
  ghost predicate Owing(d: Lists, done: set<Id>, owed: multiset<Id>, indegree: map<Id, int>) {
    && indegree.Keys == d.Keys
    && (forall x :: x in d ==> indegree[x] == Remaining(d[x], done) + owed[x])
    && forall x :: x in owed ==> x in d && x !in done
  }

  lemma OwingAfterTake(d: Lists, done: set<Id>, id: Id, kids: seq<Id>, indegree: map<Id, int>)
    requires Counts(d, done, indegree)
    requires id in d && id !in done && Remaining(d[id], done) == 0
    requires AreChildren(d, id, multiset(kids))
    ensures Owing(d, done + {id}, multiset(kids), indegree) && Settled(d, done + {id})
  {
    forall x | x in done + {id} ensures Remaining(d[x], done + {id}) == 0 && multiset(d[x])[id] == 0 {
      RemainingAfter(d[x], done, id);
    }
    forall x | x in d ensures Remaining(d[x], done + {id}) + multiset(kids)[x] == Remaining(d[x], done) {
      RemainingAfter(d[x], done, id);
    }
  }

  /** Lower the count of every child, queueing those that reach zero. */
  method Release(ghost d: Lists, ghost done: set<Id>, kids: seq<Id>, indegree0: map<Id, int>, queue0: seq<Id>)
    returns (indegree: map<Id, int>, queue: seq<Id>)
    requires Owing(d, done, multiset(kids), indegree0) && QueueHolds(d, done, indegree0, queue0)
    ensures Owing(d, done, multiset{}, indegree) && QueueHolds(d, done, indegree, queue)
  {
    indegree, queue := indegree0, queue0;
    assert kids[0..] == kids;
    for i := 0 to |kids|
      invariant Owing(d, done, multiset(kids[i..]), indegree)
      invariant QueueHolds(d, done, indegree, queue)
    {
      var child := kids[i];
      SuffixCount(kids, i);
      assert child in multiset(kids[i..]);
      indegree := indegree[child := indegree[child] - 1];
      if indegree[child] == 0 {
        queue := queue + [child];
      }
    }
  }

  /** One turn of the loop: take the head of the queue and release its children. */
  method TakeHead(ghost d: Lists, ghost done: set<Id>, indegree0: map<Id, int>, children: Lists, queue0: seq<Id>)
    returns (id: Id, indegree: map<Id, int>, queue: seq<Id>)
    requires Counts(d, done, indegree0) && QueueHolds(d, done, indegree0, queue0) && Sorted(queue0) && queue0 != []
    requires Inverts(d, children)
    ensures id in d && id !in done && Greedy(DepSets(d), done) == [id] + Greedy(DepSets(d), done + {id})
    ensures Counts(d, done + {id}, indegree) && QueueHolds(d, done + {id}, indegree, queue) && Sorted(queue)
  {
    id := queue0[0];
    QueueHeadIsLeast(d, done, indegree0, queue0);
    var next := Sort(ChildrenOf(children, id));
    OwingAfterTake(d, done, id, next, indegree0);
    indegree, queue := Release(d, done + {id}, next, indegree0, queue0[1..]);
    queue := SortQueue(d, done + {id}, indegree, queue);
  }

  /** Both sorts compute the greedy order: least ready identifier first, until nothing is ready. */
  method Drain(ghost d: Lists, indegree0: map<Id, int>, children: Lists, queue0: seq<Id>) returns (order: seq<Id>)
    requires Counts(d, {}, indegree0) && Inverts(d, children)
    requires Sorted(queue0) && QueueHolds(d, {}, indegree0, queue0)
    ensures order == Greedy(DepSets(d), {})
  {
    ghost var done := {};
    var indegree, queue := indegree0, queue0;
    order := [];
    while |queue| > 0
      invariant Counts(d, done, indegree) && QueueHolds(d, done, indegree, queue) && Sorted(queue)
      invariant order + Greedy(DepSets(d), done) == Greedy(DepSets(d), {})
      decreases d.Keys - done
    {
      var id;
      id, indegree, queue := TakeHead(d, done, indegree, children, queue);
      ConcatAssociates(order, [id], Greedy(DepSets(d), done + {id}));
      order := order + [id];
      done := done + {id};
    }
    EmptyQueueIsStuck(d, done, indegree);
  }

  function SortQueue(ghost d: Lists, ghost done: set<Id>, ghost indegree: map<Id, int>, queue: seq<Id>): (r: seq<Id>)
    requires QueueHolds(d, done, indegree, queue)
    ensures Sorted(r) && QueueHolds(d, done, indegree, r)
  {
    var r := Sort(queue);
    DistinctByMultiset(queue, r);
    assert forall x :: (x in r <==> x in Elements(r)) && (x in queue <==> x in Elements(queue));
    r
  }

  lemma QueueHeadIsLeast(d: Lists, done: set<Id>, indegree: map<Id, int>, queue: seq<Id>)
    requires Counts(d, done, indegree) && QueueHolds(d, done, indegree, queue) && Sorted(queue) && queue != []
    ensures var g := DepSets(d);
            && ReadySet(g, done) != {} && Least(ReadySet(g, done)) == queue[0]
            && Greedy(g, done) == [queue[0]] + Greedy(g, done + {queue[0]})
    ensures queue[0] in d && queue[0] !in done && Remaining(d[queue[0]], done) == 0
    ensures QueueHolds(d, done + {queue[0]}, indegree, queue[1..])
  {
    var g := DepSets(d);
    forall x ensures x in queue <==> x in ReadySet(g, done) {
      if x in d && x !in done {
        ZeroIsReady(d, done, x);
      }
    }
    assert queue[0] in ReadySet(g, done);
    forall y | y in ReadySet(g, done) ensures queue[0] <= y {
      assert y in queue;
    }
    forall x ensures x in queue[1..] <==> x in queue && x != queue[0] {
      assert queue == [queue[0]] + queue[1..];
    }
  }

  lemma EmptyQueueIsStuck(d: Lists, done: set<Id>, indegree: map<Id, int>)
    requires Counts(d, done, indegree) && QueueHolds(d, done, indegree, [])
    ensures ReadySet(DepSets(d), done) == {}
  {
    forall x | x in d && x !in done ensures x !in ReadySet(DepSets(d), done) {
      ZeroIsReady(d, done, x);
      assert x !in [];
    }
  }
}
