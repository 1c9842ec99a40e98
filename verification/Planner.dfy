/** The kernel's work-package graph: insertion, state changes, readiness and validation. */
module Planner {
  import opened Ordering
  import opened TopologicalOrder
  import opened Kahn

  /** Unset is the empty string, which Add replaces by Proposed. */
  datatype State = Unset | Proposed | Ready | Running | Completed | Deficient

  datatype WorkPackage = WorkPackage(id: Id, capabilities: seq<Id>, dependsOn: seq<Id>, state: State)

  type Nodes = map<Id, WorkPackage>

  datatype AddError = IdRequired | Duplicate

  datatype Invalid = DependsOnItself(id: Id) | MissingDependency(id: Id, dep: Id) | DependencyCycle

  function DependsOf(nodes: Nodes): Lists {
    map x | x in nodes :: nodes[x].dependsOn
  }

  ghost function Dependencies(nodes: Nodes): Deps {
    DepSets(DependsOf(nodes))
  }

  predicate Blocked(nodes: Nodes, deps: seq<Id>) {
    exists dep :: dep in deps && !(dep in nodes && nodes[dep].state == Completed)
  }

  /** Not yet dispatched, and every dependency completed. */
  predicate IsReady(nodes: Nodes, x: Id) {
    && x in nodes
    && (nodes[x].state == Proposed || nodes[x].state == Ready)
    && !Blocked(nodes, nodes[x].dependsOn)
  }

  ghost predicate ListsReady(nodes: Nodes, ready: seq<Id>) {
    Sorted(ready) && Distinct(ready) && forall x :: x in ready <==> IsReady(nodes, x)
  }

  lemma ReadyListUnique(nodes: Nodes, a: seq<Id>, b: seq<Id>)
    requires ListsReady(nodes, a) && ListsReady(nodes, b)
    ensures a == b
  {
    assert forall x :: x in Elements(a) <==> x in Elements(b);
    SortedOfSetUnique(a, b);
  }

  /** The indegree table and the map of children, built in insertion order. */
  method Tabulate(nodes: Nodes, order: seq<Id>) returns (indegree: map<Id, int>, children: Lists)
    requires Distinct(order) && Elements(order) == nodes.Keys
    ensures Counts(DependsOf(nodes), {}, indegree) && Inverts(DependsOf(nodes), children)
  {
    indegree, children := map[], map[];
    ghost var d: Lists := map[];
    for i := 0 to |order|
      invariant Inverts(d, children)
      invariant d.Keys == Elements(order[..i]) == indegree.Keys
      invariant forall x :: x in d ==> x in nodes && d[x] == nodes[x].dependsOn && indegree[x] == |d[x]|
    {
      var id := order[i];
      assert order[..i + 1] == order[..i] + [id];
      assert id in Elements(order) && id !in order[..i];
      indegree := indegree[id := |nodes[id].dependsOn|];
      children := Enter(d, children, id, nodes[id].dependsOn);
      d := d[id := nodes[id].dependsOn];
    }
    assert order[..|order|] == order;
    assert d == DependsOf(nodes);
    InitialCounts(d, indegree);
  }

  /** The nodes without dependencies, sorted. */
  method Sources(nodes: Nodes, order: seq<Id>, indegree: map<Id, int>) returns (queue: seq<Id>)
    requires Distinct(order) && Elements(order) == nodes.Keys
    requires Counts(DependsOf(nodes), {}, indegree)
    ensures Sorted(queue) && QueueHolds(DependsOf(nodes), {}, indegree, queue)
  {
    queue := [];
    for i := 0 to |order|
      invariant Distinct(queue)
      invariant forall x :: x in queue <==> x in order[..i] && indegree[x] == 0
    {
      assert order[..i + 1] == order[..i] + [order[i]];
      assert order[i] in Elements(order) && order[i] !in order[..i];
      if indegree[order[i]] == 0 {
        queue := queue + [order[i]];
      }
    }
    assert order[..|order|] == order;
    assert forall x :: x in order <==> x in Elements(order);
    queue := SortQueue(DependsOf(nodes), {}, indegree, queue);
  }

  lemma SameSize(nodes: Nodes)
    ensures |Dependencies(nodes)| == |nodes|
  {
    var g := Dependencies(nodes);
    assert |g| == |g.Keys| && |nodes| == |nodes.Keys| && g.Keys == nodes.Keys;
  }

  class Graph {
    var nodes: Nodes
    var order: seq<Id>

    ghost predicate Valid()
      reads this
    {
      && Distinct(order) && Elements(order) == nodes.Keys
      && forall x :: x in nodes ==> nodes[x].id == x && x != EMPTY && nodes[x].state != Unset
    }

    constructor ()
      ensures Valid() && nodes == map[] && order == []
    {
      nodes, order := map[], [];
    }

    method Add(wp: WorkPackage) returns (err: Option<AddError>)
      requires Valid()
      modifies this
      ensures Valid()
      ensures err == if wp.id == EMPTY then Some(IdRequired) else if wp.id in old(nodes) then Some(Duplicate) else None
      ensures err.Some? ==> nodes == old(nodes) && order == old(order)
      ensures err.None? ==>
                && nodes == old(nodes)[wp.id := wp.(state := if wp.state == Unset then Proposed else wp.state)]
                && order == old(order) + [wp.id]
    {
      if wp.id == EMPTY { return Some(IdRequired); }
      if wp.id in nodes { return Some(Duplicate); }
      var copy := if wp.state == Unset then wp.(state := Proposed) else wp;
      assert wp.id !in Elements(order);
      nodes := nodes[wp.id := copy];
      order := order + [wp.id];
      return None;
    }

    method SetState(id: Id, state: State) returns (known: bool)
      requires Valid() && state != Unset
      modifies this`nodes
      ensures Valid()
      ensures known == (id in old(nodes))
      ensures nodes == if known then old(nodes)[id := old(nodes)[id].(state := state)] else old(nodes)
    {
      if id !in nodes { return false; }
      nodes := nodes[id := nodes[id].(state := state)];
      return true;
    }

    /** The dispatchable packages: exactly the ready ones, each once, in identifier order. */
    method ReadyIds() returns (ready: seq<Id>)
      requires Valid()
      ensures ListsReady(nodes, ready)
      ensures forall x :: x in ready <==>
                && x in nodes && (nodes[x].state == Proposed || nodes[x].state == Ready)
                && forall dep :: dep in nodes[x].dependsOn ==> dep in nodes && nodes[dep].state == Completed
    {
      ready := [];
      for i := 0 to |order|
        invariant Distinct(ready)
        invariant forall x :: x in ready <==> x in order[..i] && IsReady(nodes, x)
      {
        assert order[..i + 1] == order[..i] + [order[i]];
        assert order[i] in Elements(order) && order[i] !in order[..i];
        var wp := nodes[order[i]];
        if wp.state != Proposed && wp.state != Ready {
          continue;
        }
        var blocked := false;
        for j := 0 to |wp.dependsOn|
          invariant blocked == Blocked(nodes, wp.dependsOn[..j])
        {
          var dep := wp.dependsOn[j];
          assert wp.dependsOn[..j + 1] == wp.dependsOn[..j] + [dep];
          if !(dep in nodes && nodes[dep].state == Completed) {
            blocked := true;
            assert dep in wp.dependsOn && dep in wp.dependsOn[..j + 1];
            break;
          }
        }
        assert !blocked ==> wp.dependsOn[..|wp.dependsOn|] == wp.dependsOn;
        if !blocked {
          ready := ready + [order[i]];
        }
      }
      var sorted := Sort(ready);
      DistinctByMultiset(ready, sorted);
      assert order[..|order|] == order;
      assert forall x :: (x in sorted <==> x in Elements(sorted)) && (x in ready <==> x in Elements(ready));
      assert forall x :: x in order <==> x in Elements(order);
      ready := sorted;
    }

    /** Succeeds exactly on graphs that can be ordered, with the least order there is: the answer
        depends on the dependency sets alone, not on insertion order or repetition. */
    method Topological() returns (r: Option<seq<Id>>)
      requires Valid()
      ensures r.Some? <==> Closed(Dependencies(nodes)) && Acyclic(Dependencies(nodes))
      ensures r.Some? ==> IsOrder(Dependencies(nodes), r.value) && r.value == Greedy(Dependencies(nodes), {})
      ensures r.Some? ==> forall t :: IsOrder(Dependencies(nodes), t) ==> r.value == t || LexLess(r.value, t)
    {
      ghost var lists := DependsOf(nodes);
      var indegree, children := Tabulate(nodes, order);
      var queue := Sources(nodes, order, indegree);
      var sorted := Drain(lists, indegree, children, queue);
      GreedyAnswers(Dependencies(nodes));
      SameSize(nodes);
      return if |sorted| != |nodes| then None else Some(sorted);
    }

    /** Accepts exactly the graphs without a missing dependency, a self-dependency or a longer cycle. */
    method Validate() returns (err: Option<Invalid>)
      requires Valid()
      ensures err.None? <==> Closed(Dependencies(nodes)) && Acyclic(Dependencies(nodes))
      ensures match err
              case None => true
              case Some(DependsOnItself(x)) => x in nodes && x in nodes[x].dependsOn
              case Some(MissingDependency(x, dep)) => x in nodes && dep in nodes[x].dependsOn && dep !in nodes
              case Some(DependencyCycle) =>
                && Closed(Dependencies(nodes)) && !Acyclic(Dependencies(nodes))
                && forall x :: x in nodes ==> x !in nodes[x].dependsOn
    {
      ghost var g := Dependencies(nodes);
      for i := 0 to |order|
        invariant forall x :: x in order[..i] ==>
                    x in nodes && x !in nodes[x].dependsOn && Elements(nodes[x].dependsOn) <= nodes.Keys
      {
        var id := order[i];
        assert order[..i + 1] == order[..i] + [id];
        assert id in Elements(order);
        var deps := nodes[id].dependsOn;
        for j := 0 to |deps|
          invariant id !in deps[..j] && Elements(deps[..j]) <= nodes.Keys
        {
          assert deps[..j + 1] == deps[..j] + [deps[j]];
          if deps[j] == id {
            assert id in g[id];
            assert IsCycle(g, [id, id]);
            return Some(DependsOnItself(id));
          }
          if deps[j] !in nodes {
            assert deps[j] in g[id];
            return Some(MissingDependency(id, deps[j]));
          }
        }
        assert deps[..|deps|] == deps;
      }
      assert order[..|order|] == order;
      assert forall x :: x in order <==> x in Elements(order);
      var sorted := Topological();
      if sorted.None? {
        return Some(DependencyCycle);
      }
      return None;
    }
  }
}
