/** Identifiers, sorted sequences and sequences without repetition.

    An identifier stands for its place in the byte order of strings, so that comparing identifiers
    is comparing numbers; EMPTY stands for the empty string, which is least in that order. */
module Ordering {

  type Id = nat
  const EMPTY: Id := 0

  datatype Option<+T> = None | Some(value: T)

  predicate Sorted(s: seq<Id>) {
    forall i, j :: 0 <= i < j < |s| ==> s[i] <= s[j]
  }

  predicate Distinct<T(==)>(s: seq<T>) {
    forall i, j :: 0 <= i < j < |s| ==> s[i] != s[j]
  }

  function Min(a: int, b: int): int {
    if a <= b then a else b
  }

  /** A map lookup as a value. */
  function Look<T>(m: map<Id, T>, k: Id): Option<T> {
    if k in m then Some(m[k]) else None
  }

  function Elements<T(==)>(s: seq<T>): set<T> {
    set x | x in s
  }

  function Insert(x: Id, s: seq<Id>): (r: seq<Id>)
    ensures |r| == |s| + 1
    ensures forall y :: y in r ==> y == x || y in s
  {
    if s == [] || x <= s[0] then [x] + s else [s[0]] + Insert(x, s[1..])
  }

  lemma {:induction false} InsertKeepsItems(x: Id, s: seq<Id>)
    ensures multiset(Insert(x, s)) == multiset(s) + multiset{x}
  {
    if s == [] || x <= s[0] {
      assert multiset([x] + s) == multiset{x} + multiset(s);
    } else {
      InsertKeepsItems(x, s[1..]);
      SplitFirst(s);
      SplitFirst(Insert(x, s));
      assert Insert(x, s)[1..] == Insert(x, s[1..]);
    }
  }

  lemma {:induction false} InsertSorts(x: Id, s: seq<Id>)
    requires Sorted(s)
    ensures Sorted(Insert(x, s))
  {
    if s != [] && x > s[0] {
      var rest := Insert(x, s[1..]);
      InsertSorts(x, s[1..]);
      forall i, j | 0 <= i < j < |rest| + 1 ensures ([s[0]] + rest)[i] <= ([s[0]] + rest)[j] {
        assert rest[j - 1] in rest;
      }
    }
  }

  /** What sort.Strings leaves in its argument. */
  function Sort(s: seq<Id>): (r: seq<Id>)
    ensures Sorted(r) && multiset(r) == multiset(s) && |r| == |s|
    ensures Elements(r) == Elements(s)
  {
    if s == [] then []
    else
      var rest := Sort(s[1..]);
      SplitFirst(s);
      InsertSorts(s[0], rest);
      InsertKeepsItems(s[0], rest);
      SameMultisetSameElements(Insert(s[0], rest), s);
      Insert(s[0], rest)
  }

  lemma SameMultisetSameElements<T>(a: seq<T>, b: seq<T>)
    requires multiset(a) == multiset(b)
    ensures Elements(a) == Elements(b) && |a| == |b|
  {
    forall x ensures x in a <==> x in b {
      assert x in a <==> x in multiset(a);
      assert x in b <==> x in multiset(b);
    }
    assert |a| == |multiset(a)| == |multiset(b)| == |b|;
  }

  lemma SplitFirst<T>(s: seq<T>)
    requires s != []
    ensures s == [s[0]] + s[1..] && multiset(s) == multiset{s[0]} + multiset(s[1..])
  {
    assert s == [s[0]] + s[1..];
  }

  lemma ConcatAssociates<T>(a: seq<T>, b: seq<T>, c: seq<T>)
    ensures (a + b) + c == a + (b + c)
  {
  }

  /** Sorting forgets the original arrangement: two sorted arrangements of the same items are equal. */
  lemma {:induction false} SortedUnique(a: seq<Id>, b: seq<Id>)
    requires Sorted(a) && Sorted(b) && multiset(a) == multiset(b)
    ensures a == b
  {
    SameMultisetSameElements(a, b);
    if a != [] {
      assert a[0] in Elements(b) && b[0] in Elements(a);
      assert a[0] == b[0];
      SplitFirst(a);
      SplitFirst(b);
      assert multiset(a[1..]) == multiset(a) - multiset{a[0]};
      assert multiset(b[1..]) == multiset(b) - multiset{b[0]};
      SortedUnique(a[1..], b[1..]);
    }
  }

  lemma {:induction false} DistinctCardinality<T>(s: seq<T>)
    requires Distinct(s)
    ensures |Elements(s)| == |s|
    ensures forall x :: multiset(s)[x] == if x in s then 1 else 0
  {
    if s == [] {
      assert Elements(s) == {};
    } else {
      DistinctCardinality(s[1..]);
      SplitFirst(s);
      assert s[0] !in s[1..];
      assert Elements(s) == {s[0]} + Elements(s[1..]);
    }
  }

  /** The sorted arrangement of a finite set of identifiers. */
  lemma {:induction false} SortedOfSetUnique(a: seq<Id>, b: seq<Id>)
    requires Sorted(a) && Sorted(b) && Distinct(a) && Distinct(b) && Elements(a) == Elements(b)
    ensures a == b
  {
    DistinctCardinality(a);
    DistinctCardinality(b);
    forall x ensures multiset(a)[x] == multiset(b)[x] {
      assert x in a <==> x in Elements(a);
      assert x in b <==> x in Elements(b);
    }
    assert multiset(a) == multiset(b);
    SortedUnique(a, b);
  }

  lemma RepeatCounted<T>(s: seq<T>, i: nat, j: nat)
    requires i < j < |s| && s[i] == s[j]
    ensures multiset(s)[s[i]] >= 2
  {
    assert s == s[..i] + [s[i]] + s[i+1..j] + [s[j]] + s[j+1..];
  }

  /** Distinctness is a property of the items, not of their arrangement. */
  lemma DistinctByMultiset<T>(a: seq<T>, b: seq<T>)
    requires Distinct(a) && multiset(a) == multiset(b)
    ensures Distinct(b)
  {
    DistinctCardinality(a);
    forall i, j | 0 <= i < j < |b| ensures b[i] != b[j] {
      if b[i] == b[j] {
        RepeatCounted(b, i, j);
      }
    }
  }

  lemma SubsetCardinality<T>(a: set<T>, b: set<T>)
    requires a <= b
    ensures |a| <= |b|
    ensures |a| == |b| ==> a == b
  {
    assert b == a + (b - a);
  }

  ghost predicate IsLeast(m: Id, s: set<Id>) {
    m in s && forall y :: y in s ==> m <= y
  }

  lemma {:induction false} LeastExists(s: set<Id>)
    requires s != {}
    ensures exists m :: IsLeast(m, s)
  {
    var x :| x in s;
    if s == {x} {
      assert IsLeast(x, s);
    } else {
      LeastExists(s - {x});
      var m: Id :| IsLeast(m, s - {x});
      var least := if m <= x then m else x;
      forall y | y in s ensures least <= y {
        if y != x { assert y in s - {x}; }
      }
      assert IsLeast(least, s);
    }
  }

  ghost function Least(s: set<Id>): (m: Id)
    requires s != {}
    ensures IsLeast(m, s)
  {
    LeastExists(s);
    var m :| IsLeast(m, s);
    m
  }

  /** The members of a set in increasing order. */
  ghost function Ascending(s: set<Id>): (r: seq<Id>)
    ensures Sorted(r) && Distinct(r) && Elements(r) == s
  {
    if s == {} then []
    else
      var m := Least(s);
      var rest := Ascending(s - {m});
      assert forall x :: x in rest ==> x in Elements(rest);
      assert Elements([m] + rest) == {m} + Elements(rest);
      [m] + rest
  }

  lemma AscendingMembers(s: set<Id>)
    ensures forall x :: x in Ascending(s) <==> x in s
  {
    forall x ensures x in Ascending(s) <==> x in s {
      assert x in Ascending(s) <==> x in Elements(Ascending(s));
    }
  }

  /** The keys of a map in increasing order, ranging over the map in no particular order. */
  method SortedKeys<V>(m: map<Id, V>) returns (keys: seq<Id>)
    ensures keys == Ascending(m.Keys) && forall k :: k in keys <==> k in m
  {
    keys := [];
    var todo := m.Keys;
    while todo != {}
      invariant todo <= m.Keys && Distinct(keys) && Elements(keys) == m.Keys - todo
    {
      var k :| k in todo;
      assert k !in Elements(keys);
      assert Elements(keys + [k]) == Elements(keys) + {k};
      todo := todo - {k};
      keys := keys + [k];
    }
    var sorted := Sort(keys);
    DistinctByMultiset(keys, sorted);
    SortedOfSetUnique(sorted, Ascending(m.Keys));
    keys := sorted;
    AscendingMembers(m.Keys);
  }
}
