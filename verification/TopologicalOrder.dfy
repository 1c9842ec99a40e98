/** Dependency graphs and their topological orders: what the two sorts of the repository compute,
    stated without indegrees, queues or maps of children. */
module TopologicalOrder {
  import opened Ordering

  /** Each node with the nodes it depends on; a dependency may be missing from the keys. */
  type Deps = map<Id, set<Id>>

  /** t lists every node once, each after all its dependencies. */
  ghost predicate IsOrder(g: Deps, t: seq<Id>) {
    && Distinct(t)
    && Elements(t) == g.Keys
    && forall i :: 0 <= i < |t| ==> t[i] in g && g[t[i]] <= Elements(t[..i])
  }

  ghost predicate Closed(g: Deps) {
    forall x :: x in g ==> g[x] <= g.Keys
  }

  /** p follows dependencies: each node of p depends on the next. */
  ghost predicate IsWalk(g: Deps, p: seq<Id>) {
    forall i :: 0 <= i < |p| - 1 ==> p[i] in g && p[i + 1] in g[p[i]]
  }

  ghost predicate IsCycle(g: Deps, p: seq<Id>) {
    |p| >= 2 && IsWalk(g, p) && p[0] == p[|p| - 1]
  }

  ghost predicate Acyclic(g: Deps) {
    forall p :: !IsCycle(g, p)
  }

  ghost function ReadySet(g: Deps, done: set<Id>): set<Id> {
    set x | x in g && x !in done && g[x] <= done
  }

  /** Keep taking the least node whose dependencies are all taken. */
  ghost function Greedy(g: Deps, done: set<Id>): seq<Id>
    decreases g.Keys - done
  {
    var ready := ReadySet(g, done);
    if ready == {} then [] else [Least(ready)] + Greedy(g, done + {Least(ready)})
  }

  /** a comes before b in dictionary order, at some position both have. */
  ghost predicate LexLess(a: seq<Id>, b: seq<Id>) {
    a != [] && b != [] && (a[0] < b[0] || (a[0] == b[0] && LexLess(a[1..], b[1..])))
  }

  /** t takes new nodes one by one, each ready when it is taken. */
  ghost predicate Takes(g: Deps, done: set<Id>, t: seq<Id>)
    decreases t
  {
    t == [] || (t[0] in ReadySet(g, done) && Takes(g, done + {t[0]}, t[1..]))
  }

  lemma ElementsSplit(t: seq<Id>)
    requires t != []
    ensures Elements(t) == {t[0]} + Elements(t[1..])
  {
    assert t == [t[0]] + t[1..];
  }

  lemma {:induction false} TakesAt(g: Deps, done: set<Id>, t: seq<Id>, i: nat)
    requires Takes(g, done, t) && i < |t|
    ensures t[i] in g && t[i] !in done + Elements(t[..i]) && g[t[i]] <= done + Elements(t[..i])
    decreases t
  {
    if i == 0 {
      assert done + Elements(t[..0]) == done;
    } else {
      TakesAt(g, done + {t[0]}, t[1..], i - 1);
      assert t[..i][1..] == t[1..][..i - 1];
      ElementsSplit(t[..i]);
      assert done + Elements(t[..i]) == done + {t[0]} + Elements(t[1..][..i - 1]);
    }
  }

  lemma {:induction false} OrderTakes(g: Deps, t: seq<Id>, k: nat)
    requires IsOrder(g, t) && k <= |t|
    ensures Takes(g, Elements(t[..k]), t[k..])
    decreases |t| - k
  {
    if k < |t| {
      OrderTakes(g, t, k + 1);
      assert Elements(t[..k + 1]) == Elements(t[..k]) + {t[k]};
      assert t[k..][1..] == t[k + 1..];
    }
  }

  /** The two readings of a topological order agree. */
  lemma OrderIffTakes(g: Deps, t: seq<Id>)
    ensures IsOrder(g, t) <==> Takes(g, {}, t) && Elements(t) == g.Keys
  {
    if IsOrder(g, t) {
      OrderTakes(g, t, 0);
      assert t[0..] == t && Elements(t[..0]) == {};
    }
    if Takes(g, {}, t) && Elements(t) == g.Keys {
      forall i | 0 <= i < |t| ensures t[i] in g && g[t[i]] <= Elements(t[..i]) && t[i] !in Elements(t[..i]) {
        TakesAt(g, {}, t, i);
        assert {} + Elements(t[..i]) == Elements(t[..i]);
      }
      forall i, j | 0 <= i < j < |t| ensures t[i] != t[j] {
        assert t[i] == t[..j][i];
      }
    }
  }

  lemma {:induction false} GreedyTakes(g: Deps, done: set<Id>)
    ensures Takes(g, done, Greedy(g, done))
    ensures ReadySet(g, done + Elements(Greedy(g, done))) == {}
    decreases g.Keys - done
  {
    var ready := ReadySet(g, done);
    var t := Greedy(g, done);
    if ready == {} {
      assert done + Elements(t) == done;
    } else {
      GreedyTakes(g, done + {Least(ready)});
      ElementsSplit(t);
      assert done + Elements(t) == done + {t[0]} + Elements(t[1..]);
    }
  }

  /** When some order completes the graph, taking ready nodes never gets stuck early, whatever was taken. */
  lemma {:induction false} NeverStuck(g: Deps, done: set<Id>, t: seq<Id>, taken: set<Id>)
    requires Takes(g, done, t) && done + Elements(t) == g.Keys
    requires done <= taken && ReadySet(g, taken) == {}
    ensures g.Keys <= taken
    decreases t
  {
    if t == [] {
      assert done + Elements(t) == done;
    } else {
      ElementsSplit(t);
      assert done + {t[0]} + Elements(t[1..]) == g.Keys;
      assert t[0] in ReadySet(g, taken) || t[0] in taken;
      NeverStuck(g, done + {t[0]}, t[1..], taken);
    }
  }

  lemma {:induction false} GreedyLeastFrom(g: Deps, done: set<Id>, t: seq<Id>)
    requires Takes(g, done, t) && done + Elements(t) == g.Keys
    ensures Greedy(g, done) == t || LexLess(Greedy(g, done), t)
    decreases t
  {
    if t == [] {
      assert done + Elements(t) == done;
      assert ReadySet(g, done) == {};
    } else {
      ElementsSplit(t);
      assert done + {t[0]} + Elements(t[1..]) == g.Keys;
      if Least(ReadySet(g, done)) == t[0] {
        GreedyLeastFrom(g, done + {t[0]}, t[1..]);
      }
    }
  }

  /** The greedy order is a topological order whenever there is one, and the least of them all. */
  lemma GreedyIsLeastOrder(g: Deps, t: seq<Id>)
    requires IsOrder(g, t)
    ensures IsOrder(g, Greedy(g, {}))
    ensures Greedy(g, {}) == t || LexLess(Greedy(g, {}), t)
  {
    var r := Greedy(g, {});
    OrderIffTakes(g, t);
    assert {} + Elements(t) == Elements(t) && {} + Elements(r) == Elements(r);
    GreedyTakes(g, {});
    GreedyLeastFrom(g, {}, t);
    NeverStuck(g, {}, t, Elements(r));
    GreedyStaysInside(g, {});
    OrderIffTakes(g, r);
  }

  lemma {:induction false} GreedyStaysInside(g: Deps, done: set<Id>)
    ensures Elements(Greedy(g, done)) <= g.Keys - done
    ensures Distinct(Greedy(g, done))
    decreases g.Keys - done
  {
    var t := Greedy(g, done);
    if t != [] {
      GreedyStaysInside(g, done + {t[0]});
      ElementsSplit(t);
      assert forall x :: x in t[1..] ==> x in Elements(t[1..]);
      assert t[0] !in t[1..];
    }
  }

  /** The greedy order is complete exactly when the graph can be ordered at all. */
  lemma GreedyDecides(g: Deps)
    ensures |Greedy(g, {})| == |g| <==> exists t :: IsOrder(g, t)
    ensures |Greedy(g, {})| == |g| <==> IsOrder(g, Greedy(g, {}))
  {
    var r := Greedy(g, {});
    GreedyTakes(g, {});
    GreedyStaysInside(g, {});
    DistinctCardinality(r);
    assert |g| == |g.Keys|;
    SubsetCardinality(Elements(r), g.Keys);
    OrderIffTakes(g, r);
    if t: seq<Id> :| IsOrder(g, t) {
      GreedyIsLeastOrder(g, t);
    }
  }

  // ---- orders and cycles ----

  lemma {:induction false} WalkDescends(g: Deps, t: seq<Id>, p: seq<Id>, k: nat) returns (j: nat)
    requires IsOrder(g, t) && IsWalk(g, p) && |p| >= 2
    requires k < |t| && t[k] == p[0]
    ensures j < k && t[j] == p[|p| - 1]
    decreases |p|
  {
    assert p[1] in g[p[0]] && p[1] in Elements(t[..k]);
    j :| 0 <= j < k && t[j] == p[1];
    if |p| > 2 {
      assert p[1..][0] == p[1] && p[1..][|p| - 2] == p[|p| - 1];
      assert IsWalk(g, p[1..]) by {
        forall i | 0 <= i < |p[1..]| - 1 ensures p[1..][i] in g && p[1..][i + 1] in g[p[1..][i]] {
          assert p[1..][i] == p[i + 1] && p[1..][i + 1] == p[i + 2];
        }
      }
      j := WalkDescends(g, t, p[1..], j);
    }
  }

  /** A walk of any length exists inside a set that every member depends into. */
  lemma {:induction false} GrowWalk(g: Deps, r: set<Id>, n: nat) returns (p: seq<Id>)
    requires r != {} && r <= g.Keys
    requires forall x :: x in r ==> g[x] * r != {}
    ensures |p| == n + 1 && IsWalk(g, p) && Elements(p) <= r
  {
    if n == 0 {
      var x :| x in r;
      p := [x];
    } else {
      var q := GrowWalk(g, r, n - 1);
      var last := q[|q| - 1];
      assert last in Elements(q);
      var d :| d in g[last] * r;
      p := q + [d];
      assert Elements(p) == Elements(q) + {d};
    }
  }

  lemma OrderMeansAcyclic(g: Deps, t: seq<Id>)
    requires IsOrder(g, t)
    ensures Closed(g) && Acyclic(g)
  {
    forall x | x in g ensures g[x] <= g.Keys {
      assert x in Elements(t);
      var k :| 0 <= k < |t| && t[k] == x;
      assert Elements(t[..k]) <= Elements(t);
    }
    forall p ensures !IsCycle(g, p) {
      if IsCycle(g, p) {
        assert p[0] in g && p[0] in Elements(t);
        var k :| 0 <= k < |t| && t[k] == p[0];
        var j := WalkDescends(g, t, p, k);
      }
    }
  }

  /** Nodes that all keep waiting for one another leave room for a walk long enough to repeat. */
  lemma StuckMeansCycle(g: Deps, r: set<Id>)
    requires r != {} && r <= g.Keys && forall x :: x in r ==> g[x] * r != {}
    ensures !Acyclic(g)
  {
    var p := GrowWalk(g, r, |r|);
    LongWalkRepeats(g, p, r);
  }

  lemma AcyclicMeansOrder(g: Deps)
    requires Closed(g) && Acyclic(g)
    ensures IsOrder(g, Greedy(g, {}))
  {
    var done := Elements(Greedy(g, {}));
    GreedyTakes(g, {});
    GreedyStaysInside(g, {});
    assert {} + done == done;
    var r := g.Keys - done;
    forall x | x in r ensures g[x] * r != {} {
      assert x !in ReadySet(g, done);
      var d :| d in g[x] && d !in done;
      assert d in g[x] * r;
    }
    if r != {} {
      StuckMeansCycle(g, r);
    }
    assert done == g.Keys;
    OrderIffTakes(g, Greedy(g, {}));
  }

  /** A graph can be ordered exactly when no dependency is missing and there is no cycle. */
  lemma OrderableIffAcyclic(g: Deps)
    ensures (exists t :: IsOrder(g, t)) <==> Closed(g) && Acyclic(g)
  {
    if t: seq<Id> :| IsOrder(g, t) {
      OrderMeansAcyclic(g, t);
    }
    if Closed(g) && Acyclic(g) {
      AcyclicMeansOrder(g);
    }
  }

  lemma LongWalkRepeats(g: Deps, p: seq<Id>, r: set<Id>)
    requires IsWalk(g, p) && Elements(p) <= r && |p| > |r|
    ensures !Acyclic(g)
  {
    if Distinct(p) {
      DistinctCardinality(p);
      SubsetCardinality(Elements(p), r);
    }
    var i, j :| 0 <= i < j < |p| && p[i] == p[j];
    var c := p[i..j + 1];
    assert IsCycle(g, c);
  }

  /** The length test at the end of both sorts tells the two cases apart. */
  lemma GreedyAnswers(g: Deps)
    ensures var r := Greedy(g, {});
            && (|r| == |g| <==> Closed(g) && Acyclic(g))
            && (|r| == |g| ==> IsOrder(g, r) && forall t :: IsOrder(g, t) ==> r == t || LexLess(r, t))
  {
    var r := Greedy(g, {});
    GreedyDecides(g);
    OrderableIffAcyclic(g);
    forall t | IsOrder(g, t) ensures r == t || LexLess(r, t) {
      GreedyIsLeastOrder(g, t);
    }
  }
}
