/** Folding an event stream into a graph whose node identities are derived, not stored. */
module VisualSession {
  import opened Ordering

  type NodeId = string

  datatype EdgeKind = Correlation | Causation | Contains | Produces | Assigns | Access

  datatype EdgeKey = EdgeKey(from: NodeId, to: NodeId, kind: EdgeKind)

  /** What normalising an event's metadata gives: an error, or up to two values. */
  datatype Metadata = BadMetadata | Metadata(secondary: Option<string>, access: Option<string>)

  /** An event as the projection reads it; the empty string stands for an absent field. */
  datatype Event = Event(
    id: string, sequence: int, eventType: string, kind: string, aggregate: string, actor: string,
    causation: string, correlation: string, metadata: Metadata, workPackage: string, artifact: string)

  datatype Node = Node(kind: string, ref: string, sequence: int, secondary: Option<string>, access: Option<string>)

  type Nodes = map<NodeId, Node>
  type Edges = map<EdgeKey, int>

  /** Nodes by identity and edges with the sequence they carry; the source lists both, sorted. */
  datatype Graph = Graph(session: string, nodes: Nodes, edges: Edges)

  datatype Error = Invalid | Empty | BadEvent | NoLayout

  datatype Result<+T> = Ok(value: T) | Err(error: Error)

  const SESSION: string := "session"
  const ACTOR: string := "actor"
  const WORK_PACKAGE: string := "work_package"
  const ARTIFACT: string := "artifact"

  function NodeIdFor(kind: string, ref: string): NodeId {
    kind + ":" + ref
  }

  function AggregateOf(e: Event): NodeId {
    NodeIdFor(e.kind, e.aggregate)
  }

  // ---- ordering events ----

  ghost predicate InOrder(s: seq<Event>) {
    forall i, j :: 0 <= i < j < |s| ==> s[i].sequence <= s[j].sequence
  }

  /** Insert before the first event that is not earlier, so that equal sequences keep their order. */
  function InsertEvent(e: Event, s: seq<Event>): (r: seq<Event>)
    ensures |r| == |s| + 1
    ensures forall x :: x in r ==> x == e || x in s
  {
    if s == [] || e.sequence <= s[0].sequence then [e] + s else [s[0]] + InsertEvent(e, s[1..])
  }

  /** The stable sort by sequence. */
  function OrderedCopy(s: seq<Event>): (r: seq<Event>)
    ensures |r| == |s|
  {
    if s == [] then [] else InsertEvent(s[0], OrderedCopy(s[1..]))
  }

  lemma {:induction false} InsertEventKeeps(e: Event, s: seq<Event>)
    ensures multiset(InsertEvent(e, s)) == multiset(s) + multiset{e}
  {
    if s == [] || e.sequence <= s[0].sequence {
      assert multiset([e] + s) == multiset{e} + multiset(s);
    } else {
      InsertEventKeeps(e, s[1..]);
      SplitFirst(s);
      SplitFirst(InsertEvent(e, s));
      assert InsertEvent(e, s)[1..] == InsertEvent(e, s[1..]);
    }
  }

  lemma {:induction false} InsertEventSorts(e: Event, s: seq<Event>)
    requires InOrder(s)
    ensures InOrder(InsertEvent(e, s))
  {
    if s != [] && e.sequence > s[0].sequence {
      InsertEventSorts(e, s[1..]);
      var rest := InsertEvent(e, s[1..]);
      forall i, j | 0 <= i < j < |rest| + 1 ensures ([s[0]] + rest)[i].sequence <= ([s[0]] + rest)[j].sequence {
        assert rest[j - 1] in rest;
      }
    }
  }

  lemma {:induction false} OrderedCopySorts(s: seq<Event>)
    ensures InOrder(OrderedCopy(s)) && multiset(OrderedCopy(s)) == multiset(s)
  {
    if s != [] {
      OrderedCopySorts(s[1..]);
      InsertEventSorts(s[0], OrderedCopy(s[1..]));
      InsertEventKeeps(s[0], OrderedCopy(s[1..]));
      SplitFirst(s);
    }
  }

  /** A list that is in order already is left alone, prefixes of it included. */
  lemma {:induction false} OrderedCopyOfSorted(s: seq<Event>)
    requires InOrder(s)
    ensures OrderedCopy(s) == s
  {
    if s != [] {
      OrderedCopyOfSorted(s[1..]);
    }
  }

  /** Events that share a sequence are equal, as a redelivered one is. */
  ghost predicate SequencesDecide(s: seq<Event>) {
    forall x, y :: x in s && y in s && x.sequence == y.sequence ==> x == y
  }

  lemma SequencesDecideAlike(a: seq<Event>, b: seq<Event>)
    requires multiset(a) == multiset(b) && SequencesDecide(a)
    ensures SequencesDecide(b)
  {
    forall x | x in b ensures x in a {
      assert x in multiset(b);
    }
  }

  lemma SameEarliest(a: seq<Event>, b: seq<Event>)
    requires InOrder(a) && InOrder(b) && multiset(a) == multiset(b) && SequencesDecide(b) && a != []
    ensures b != [] && a[0] == b[0]
  {
    assert a[0] in multiset(b);
    assert b[0] in multiset(a);
    var k :| 0 <= k < |b| && b[k] == a[0];
    var m :| 0 <= m < |a| && a[m] == b[0];
  }

  lemma {:induction false} SortedEventsUnique(a: seq<Event>, b: seq<Event>)
    requires InOrder(a) && InOrder(b) && multiset(a) == multiset(b) && SequencesDecide(b)
    ensures a == b
    decreases |a|
  {
    if a == [] {
      assert |multiset(b)| == 0;
    } else {
      SameEarliest(a, b);
      SameTails(a, b);
      assert forall x :: x in b[1..] ==> x in b;
      SortedEventsUnique(a[1..], b[1..]);
    }
  }

  lemma SameTails(a: seq<Event>, b: seq<Event>)
    requires multiset(a) == multiset(b) && a != [] && b != [] && a[0] == b[0]
    ensures multiset(a[1..]) == multiset(b[1..])
  {
    SplitFirst(a);
    SplitFirst(b);
    assert multiset(a[1..]) == multiset(a) - multiset{a[0]};
    assert multiset(b[1..]) == multiset(b) - multiset{b[0]};
  }

  /** Where equal sequences mean equal events, the order of arrival leaves no trace. */
  lemma ArrivalOrderIrrelevant(a: seq<Event>, b: seq<Event>)
    requires multiset(a) == multiset(b) && SequencesDecide(a)
    ensures OrderedCopy(a) == OrderedCopy(b)
  {
    OrderedCopySorts(a);
    OrderedCopySorts(b);
    SequencesDecideAlike(a, OrderedCopy(b));
    SortedEventsUnique(OrderedCopy(a), OrderedCopy(b));
  }

  function Swapped(s: seq<Event>, i: nat, j: nat): seq<Event>
    requires i < j < |s|
  {
    s[i := s[j]][j := s[i]]
  }

  /** Different events that share a sequence can stand in order either way. */
  lemma TiedEventsSwap(s: seq<Event>, i: nat, j: nat)
    requires InOrder(s) && i < j < |s| && s[i].sequence == s[j].sequence && s[i] != s[j]
    ensures OrderedCopy(Swapped(s, i, j)) != s && multiset(Swapped(s, i, j)) == multiset(s)
  {
    var t := Swapped(s, i, j);
    SwapKeepsEvents(s, i, j);
    assert InOrder(t) by {
      assert forall k :: 0 <= k < |s| ==> t[k].sequence == s[k].sequence;
    }
    OrderedCopyOfSorted(t);
    assert t[i] != s[i];
  }

  lemma SwapKeepsEvents(s: seq<Event>, i: nat, j: nat)
    requires i < j < |s|
    ensures multiset(Swapped(s, i, j)) == multiset(s)
  {
  }

  /** The exact condition: every order of arrival gives one ordered copy exactly when events that share a
      sequence are equal. */
  lemma ArrivalOrderIff(a: seq<Event>)
    ensures (forall b :: multiset(b) == multiset(a) ==> OrderedCopy(b) == OrderedCopy(a)) <==> SequencesDecide(a)
  {
    var s := OrderedCopy(a);
    OrderedCopySorts(a);
    if SequencesDecide(a) {
      forall b | multiset(b) == multiset(a) ensures OrderedCopy(b) == OrderedCopy(a) {
        ArrivalOrderIrrelevant(a, b);
      }
    } else {
      var x, y :| x in a && y in a && x.sequence == y.sequence && x != y;
      assert x in multiset(s) && y in multiset(s);
      var i :| 0 <= i < |s| && s[i] == x;
      var j :| 0 <= j < |s| && s[j] == y;
      var t := if i < j then Swapped(s, i, j) else Swapped(s, j, i);
      if i < j {
        TiedEventsSwap(s, i, j);
      } else {
        TiedEventsSwap(s, j, i);
      }
      assert multiset(t) == multiset(a) && OrderedCopy(t) != OrderedCopy(a);
    }
  }

  // ---- the projection ----

  function Ensure(nodes: Nodes, kind: string, ref: string, sequence: int): Nodes {
    var id := NodeIdFor(kind, ref);
    if id in nodes then nodes else nodes[id := Node(kind, ref, sequence, None, None)]
  }

  function Annotate(nodes: Nodes, id: NodeId, m: Metadata): Nodes {
    if id !in nodes || m.BadMetadata? then nodes
    else
      nodes[id := nodes[id].(secondary := if m.secondary.Some? then m.secondary else nodes[id].secondary,
                             access := if m.access.Some? then m.access else nodes[id].access)]
  }

  function AddEdge(edges: Edges, key: EdgeKey, sequence: int): Edges {
    if key in edges && sequence >= edges[key] then edges else edges[key := sequence]
  }

  function AddSome(edges: Edges, key: Option<EdgeKey>, sequence: int): Edges {
    if key.Some? then AddEdge(edges, key.value, sequence) else edges
  }

  /** The fold's state: the graph so far, the node of each event, the first node of each correlation. */
  datatype Fold = Fold(
    nodes: Nodes, edges: Edges, byEvent: map<string, NodeId>, firstByCorrelation: map<string, NodeId>)

  function Start(session: string, sequence: int): Fold {
    Fold(Ensure(map[], SESSION, session, sequence), map[], map[], map[])
  }

  // The edges one event asks for, an edge from a node to itself left out.

  function EdgeUnlessSelf(from: NodeId, to: NodeId, kind: EdgeKind): (r: Option<EdgeKey>)
    ensures r.Some? <==> from != to
    ensures r.Some? ==> r.value.kind == kind
  {
    if from == to then None else Some(EdgeKey(from, to, kind))
  }

  function ContainsKey(session: string, e: Event): Option<EdgeKey> {
    EdgeUnlessSelf(NodeIdFor(SESSION, session), AggregateOf(e), Contains)
  }

  /** An actor is linked to its aggregate even when they are the same node. */
  function AccessKey(e: Event): Option<EdgeKey> {
    if e.actor != "" then Some(EdgeKey(NodeIdFor(ACTOR, e.actor), AggregateOf(e), Access)) else None
  }

  function CausationKey(byEvent: map<string, NodeId>, e: Event): Option<EdgeKey> {
    if e.causation != "" && e.causation in byEvent
    then EdgeUnlessSelf(byEvent[e.causation], AggregateOf(e), Causation) else None
  }

  function CorrelationKey(first: map<string, NodeId>, e: Event): Option<EdgeKey> {
    if e.correlation != "" && e.correlation in first
    then EdgeUnlessSelf(first[e.correlation], AggregateOf(e), Correlation) else None
  }

  function AssignsKey(e: Event): Option<EdgeKey> {
    if e.workPackage != "" then EdgeUnlessSelf(AggregateOf(e), NodeIdFor(WORK_PACKAGE, e.workPackage), Assigns)
        else None
  }

  function ProducesKey(e: Event): Option<EdgeKey> {
    if e.artifact != "" then EdgeUnlessSelf(AggregateOf(e), NodeIdFor(ARTIFACT, e.artifact), Produces) else None
  }

  function EnsureUnlessEmpty(nodes: Nodes, kind: string, ref: string, sequence: int): Nodes {
    if ref == "" then nodes else Ensure(nodes, kind, ref, sequence)
  }

  function LinkEdges(session: string, f: Fold, e: Event): Edges {
    var contained := AddSome(f.edges, ContainsKey(session, e), e.sequence);
    var accessed := AddSome(contained, AccessKey(e), e.sequence);
    var caused := AddSome(accessed, CausationKey(f.byEvent[e.id := AggregateOf(e)], e), e.sequence);
    AddSome(caused, CorrelationKey(f.firstByCorrelation, e), e.sequence)
  }

  function FirstWith(first: map<string, NodeId>, e: Event): map<string, NodeId> {
    if e.correlation != "" && e.correlation !in first then first[e.correlation := AggregateOf(e)] else first
  }

  /** What an event does before its metadata are looked at. */
  function Link(session: string, f: Fold, e: Event): Fold {
    Fold(EnsureUnlessEmpty(Ensure(f.nodes, e.kind, e.aggregate, e.sequence), ACTOR, e.actor, e.sequence),
         LinkEdges(session, f, e), f.byEvent[e.id := AggregateOf(e)], FirstWith(f.firstByCorrelation, e))
  }

  function DescribeNodes(nodes: Nodes, e: Event): Nodes {
    var annotated := Annotate(nodes, AggregateOf(e), e.metadata);
    var allotted := EnsureUnlessEmpty(annotated, WORK_PACKAGE, e.workPackage, e.sequence);
    EnsureUnlessEmpty(allotted, ARTIFACT, e.artifact, e.sequence)
  }

  function DescribeEdges(edges: Edges, e: Event): Edges {
    AddSome(AddSome(edges, AssignsKey(e), e.sequence), ProducesKey(e), e.sequence)
  }

  /** One event folded in; None when its metadata are malformed. */
  function Step(session: string, f: Fold, e: Event): Option<Fold> {
    if e.metadata.BadMetadata? then None
    else
      var linked := Link(session, f, e);
      Some(linked.(nodes := DescribeNodes(linked.nodes, e), edges := DescribeEdges(linked.edges, e)))
  }

  /** The first n events folded in. */
  function FoldTo(session: string, ordered: seq<Event>, n: nat): (r: Option<Fold>)
    requires n <= |ordered| && ordered != []
    ensures r.Some? <==> forall i :: 0 <= i < n ==> !ordered[i].metadata.BadMetadata?
  {
    if n == 0 then Some(Start(session, ordered[0].sequence))
    else
      var f := FoldTo(session, ordered, n - 1);
      if f.None? then None else Step(session, f.value, ordered[n - 1])
  }

  function ProjectOf(session: string, events: seq<Event>): Result<Graph> {
    if session == "" then Err(Invalid)
    else if events == [] then Err(Empty)
    else
      var ordered := OrderedCopy(events);
      match FoldTo(session, ordered, |ordered|)
      case None => Err(BadEvent)
      case Some(f) => Ok(Graph(session, f.nodes, f.edges))
  }

  // ---- which events mention a node or an edge, said without a fold ----

  ghost predicate MentionsNode(e: Event, id: NodeId) {
    || id == AggregateOf(e)
    || (e.actor != "" && id == NodeIdFor(ACTOR, e.actor))
    || (e.workPackage != "" && id == NodeIdFor(WORK_PACKAGE, e.workPackage))
    || (e.artifact != "" && id == NodeIdFor(ARTIFACT, e.artifact))
  }

  /** i is the last event up to j with this identifier. */
  ghost predicate LastWithId(ordered: seq<Event>, i: nat, j: nat, id: string)
    requires j < |ordered|
  {
    i <= j && ordered[i].id == id && forall m :: i < m <= j ==> ordered[m].id != id
  }

  /** i is the first event with this correlation. */
  ghost predicate FirstCorrelated(ordered: seq<Event>, i: nat, correlation: string) {
    i < |ordered| && ordered[i].correlation == correlation
    && forall m :: 0 <= m < i ==> ordered[m].correlation != correlation
  }

  ghost predicate MentionsEdge(session: string, ordered: seq<Event>, j: nat, key: EdgeKey)
    requires j < |ordered|
  {
    var e := ordered[j];
    var agg := AggregateOf(e);
    match key.kind
    case Contains => key.from == NodeIdFor(SESSION, session) && key.to == agg && key.from != key.to
    case Access => e.actor != "" && key.from == NodeIdFor(ACTOR, e.actor) && key.to == agg
    case Causation =>
      e.causation != "" && key.to == agg && key.from != key.to
      && exists i :: 0 <= i <= j && LastWithId(ordered, i, j, e.causation) && key.from == AggregateOf(ordered[i])
    case Correlation =>
      e.correlation != "" && key.to == agg && key.from != key.to
      && exists i :: 0 <= i < j && FirstCorrelated(ordered, i, e.correlation) && key.from == AggregateOf(ordered[i])
    case Assigns =>
      e.workPackage != "" && key.from == agg && key.to == NodeIdFor(WORK_PACKAGE, e.workPackage) && key.from != key.to
    case Produces =>
      e.artifact != "" && key.from == agg && key.to == NodeIdFor(ARTIFACT, e.artifact) && key.from != key.to
  }

  ghost predicate NodeCarries(session: string, ordered: seq<Event>, n: nat, nodes: Nodes, id: NodeId)
    requires n <= |ordered| && ordered != []
  {
    && (id in nodes ==> Named(id, nodes[id]))
    && NodeSequenceIs(session, ordered, n, nodes, id)
  }

  /** The session's node carries the first sequence of all; any other the least that mentions it. */
  ghost predicate NodeSequenceIs(session: string, ordered: seq<Event>, n: nat, nodes: Nodes, id: NodeId)
    requires n <= |ordered| && ordered != []
  {
    if id == NodeIdFor(SESSION, session) then id in nodes && nodes[id].sequence == ordered[0].sequence
    else if id in nodes then
      (exists j :: 0 <= j < n && MentionsNode(ordered[j], id) && nodes[id].sequence == ordered[j].sequence)
      && forall j :: 0 <= j < n && MentionsNode(ordered[j], id) ==> nodes[id].sequence <= ordered[j].sequence
    else forall j :: 0 <= j < n ==> !MentionsNode(ordered[j], id)
  }

  ghost predicate EdgeCarries(session: string, ordered: seq<Event>, n: nat, edges: Edges, key: EdgeKey)
    requires n <= |ordered|
  {
    if key in edges then
      (exists j :: 0 <= j < n && MentionsEdge(session, ordered, j, key) && edges[key] == ordered[j].sequence)
      && forall j :: 0 <= j < n && MentionsEdge(session, ordered, j, key) ==> edges[key] <= ordered[j].sequence
    else forall j :: 0 <= j < n ==> !MentionsEdge(session, ordered, j, key)
  }

  ghost predicate EventTableHolds(ordered: seq<Event>, n: nat, byEvent: map<string, NodeId>)
    requires n <= |ordered|
  {
    && (forall id :: id in byEvent ==>
          exists i :: 0 <= i < n && LastWithId(ordered, i, n - 1, id) && byEvent[id] == AggregateOf(ordered[i]))
    && (forall id :: id !in byEvent ==> forall i :: 0 <= i < n ==> ordered[i].id != id)
  }

  ghost predicate FirstTableHolds(ordered: seq<Event>, n: nat, first: map<string, NodeId>)
    requires n <= |ordered|
  {
    && (forall c :: c in first ==>
          c != "" && exists i :: 0 <= i < n && FirstCorrelated(ordered, i, c) && first[c] == AggregateOf(ordered[i]))
    && (forall c :: c != "" && c !in first ==> forall i :: 0 <= i < n ==> ordered[i].correlation != c)
  }

  /** What an event brings a node: metadata go to its own aggregate only. */
  function Brings(e: Event, id: NodeId, secondary: bool): Option<string> {
    if e.metadata.BadMetadata? || id != AggregateOf(e) then None
    else if secondary then e.metadata.secondary else e.metadata.access
  }

  /** v is what the last of n events that brings a node something brings it. */
  ghost predicate LastBrings(ordered: seq<Event>, n: nat, id: NodeId, secondary: bool, v: Option<string>)
    requires n <= |ordered|
  {
    if v.None? then forall j :: 0 <= j < n ==> Brings(ordered[j], id, secondary).None?
    else exists j :: 0 <= j < n && Brings(ordered[j], id, secondary) == v
                     && forall m :: j < m < n ==> Brings(ordered[m], id, secondary).None?
  }

  function MetadataOf(nodes: Nodes, id: NodeId, secondary: bool): Option<string> {
    if id !in nodes then None else if secondary then nodes[id].secondary else nodes[id].access
  }

  /** What the two lookup tables hold after n events. */
  ghost predicate TablesHold(ordered: seq<Event>, n: nat, f: Fold)
    requires n <= |ordered|
  {
    EventTableHolds(ordered, n, f.byEvent) && FirstTableHolds(ordered, n, f.firstByCorrelation)
  }

  // ---- one step of the fold ----

  /** A node's identity is derived from its kind and its reference. */
  ghost predicate Named(id: NodeId, n: Node) {
    id == NodeIdFor(n.kind, n.ref)
  }

  /** How a map that records first sequences grows: a node that is there is kept. */
  ghost predicate GrewBy(before: Nodes, after: Nodes, id: NodeId, mentioned: bool, sequence: int) {
    && (id in after <==> id in before || mentioned)
    && (id in before && Named(id, before[id]) ==> Named(id, after[id]))
    && (id in after && id !in before ==> Named(id, after[id]))
    && (id in after ==> after[id].sequence == if id in before then before[id].sequence else sequence)
  }

  lemma EnsureGrows(nodes: Nodes, kind: string, ref: string, sequence: int, id: NodeId)
    ensures GrewBy(nodes, Ensure(nodes, kind, ref, sequence), id, id == NodeIdFor(kind, ref), sequence)
    ensures GrewBy(nodes, EnsureUnlessEmpty(nodes, kind, ref, sequence), id,
                   ref != "" && id == NodeIdFor(kind, ref), sequence)
  {
  }

  lemma LinkNodes(session: string, f: Fold, e: Event, id: NodeId)
    ensures GrewBy(f.nodes, Link(session, f, e).nodes, id,
                   id == AggregateOf(e) || (e.actor != "" && id == NodeIdFor(ACTOR, e.actor)), e.sequence)
  {
    EnsureGrows(f.nodes, e.kind, e.aggregate, e.sequence, id);
    EnsureGrows(Ensure(f.nodes, e.kind, e.aggregate, e.sequence), ACTOR, e.actor, e.sequence, id);
  }

  lemma DescribedNodes(nodes: Nodes, e: Event, id: NodeId)
    ensures GrewBy(nodes, DescribeNodes(nodes, e), id,
                   || (e.workPackage != "" && id == NodeIdFor(WORK_PACKAGE, e.workPackage))
                   || (e.artifact != "" && id == NodeIdFor(ARTIFACT, e.artifact)), e.sequence)
  {
    var annotated := Annotate(nodes, AggregateOf(e), e.metadata);
    assert GrewBy(nodes, annotated, id, false, e.sequence);
    EnsureGrows(annotated, WORK_PACKAGE, e.workPackage, e.sequence, id);
    EnsureGrows(EnsureUnlessEmpty(annotated, WORK_PACKAGE, e.workPackage, e.sequence), ARTIFACT, e.artifact,
                e.sequence, id);
  }

  lemma StepNodes(session: string, f: Fold, e: Event, id: NodeId)
    requires Step(session, f, e).Some?
    ensures GrewBy(f.nodes, Step(session, f, e).value.nodes, id, MentionsNode(e, id), e.sequence)
  {
    LinkNodes(session, f, e, id);
    DescribedNodes(Link(session, f, e).nodes, e, id);
  }

  lemma StepMetadata(session: string, f: Fold, e: Event, id: NodeId, secondary: bool)
    requires Step(session, f, e).Some?
    ensures var brought := Brings(e, id, secondary);
            MetadataOf(Step(session, f, e).value.nodes, id, secondary)
              == if brought.Some? then brought else MetadataOf(f.nodes, id, secondary)
  {
    var own := Ensure(f.nodes, e.kind, e.aggregate, e.sequence);
    var linked := EnsureUnlessEmpty(own, ACTOR, e.actor, e.sequence);
    var annotated := Annotate(linked, AggregateOf(e), e.metadata);
    var allotted := EnsureUnlessEmpty(annotated, WORK_PACKAGE, e.workPackage, e.sequence);
    assert AggregateOf(e) in linked;
    EnsureKeepsMetadata(f.nodes, e.kind, e.aggregate, e.sequence, id, secondary);
    EnsureKeepsMetadata(own, ACTOR, e.actor, e.sequence, id, secondary);
    EnsureKeepsMetadata(annotated, WORK_PACKAGE, e.workPackage, e.sequence, id, secondary);
    EnsureKeepsMetadata(allotted, ARTIFACT, e.artifact, e.sequence, id, secondary);
  }

  lemma EnsureKeepsMetadata(nodes: Nodes, kind: string, ref: string, sequence: int, id: NodeId, secondary: bool)
    ensures MetadataOf(Ensure(nodes, kind, ref, sequence), id, secondary) == MetadataOf(nodes, id, secondary)
    ensures MetadataOf(EnsureUnlessEmpty(nodes, kind, ref, sequence), id, secondary) == MetadataOf(nodes, id, secondary)
  {
  }

  /** The edges one event adds, given the two lookup tables it meets. */
  ghost predicate AddsEdge(session: string, f: Fold, e: Event, key: EdgeKey) {
    match key.kind
    case Contains => ContainsKey(session, e) == Some(key)
    case Access => AccessKey(e) == Some(key)
    case Causation => CausationKey(f.byEvent[e.id := AggregateOf(e)], e) == Some(key)
    case Correlation => CorrelationKey(f.firstByCorrelation, e) == Some(key)
    case Assigns => AssignsKey(e) == Some(key)
    case Produces => ProducesKey(e) == Some(key)
  }

  /** How an edge map changes: an edge that is added again keeps the smaller sequence. */
  ghost predicate LoweredBy(before: Edges, after: Edges, key: EdgeKey, added: bool, sequence: int) {
    && (key in after <==> key in before || added)
    && (key in after ==> after[key] == if key in before && (!added || sequence >= before[key]) then before[key]
        else sequence)
  }

  lemma AddSomeLowers(edges: Edges, added: Option<EdgeKey>, sequence: int, key: EdgeKey)
    ensures LoweredBy(edges, AddSome(edges, added, sequence), key, added == Some(key), sequence)
  {
  }

  lemma LinkedEdges(session: string, f: Fold, e: Event, key: EdgeKey)
    ensures LoweredBy(f.edges, LinkEdges(session, f, e), key,
                      AddsEdge(session, f, e, key) && key.kind != Assigns && key.kind != Produces, e.sequence)
  {
    var contained := AddSome(f.edges, ContainsKey(session, e), e.sequence);
    var accessed := AddSome(contained, AccessKey(e), e.sequence);
    var causation := CausationKey(f.byEvent[e.id := AggregateOf(e)], e);
    AddSomeLowers(f.edges, ContainsKey(session, e), e.sequence, key);
    AddSomeLowers(contained, AccessKey(e), e.sequence, key);
    AddSomeLowers(accessed, causation, e.sequence, key);
    AddSomeLowers(AddSome(accessed, causation, e.sequence), CorrelationKey(f.firstByCorrelation, e), e.sequence, key);
  }

  lemma StepEdges(session: string, f: Fold, e: Event, key: EdgeKey)
    requires Step(session, f, e).Some?
    ensures LoweredBy(f.edges, Step(session, f, e).value.edges, key, AddsEdge(session, f, e, key), e.sequence)
  {
    var linked := LinkEdges(session, f, e);
    LinkedEdges(session, f, e, key);
    AddSomeLowers(linked, AssignsKey(e), e.sequence, key);
    AddSomeLowers(AddSome(linked, AssignsKey(e), e.sequence), ProducesKey(e), e.sequence, key);
  }

  /** One step, said declaratively: it grows the nodes, lowers the edges and extends both tables. */
  ghost predicate Advances(session: string, f: Fold, e: Event, g: Fold) {
    && (forall id :: GrewBy(f.nodes, g.nodes, id, MentionsNode(e, id), e.sequence))
    && (forall key :: LoweredBy(f.edges, g.edges, key, AddsEdge(session, f, e, key), e.sequence))
    && (forall id, secondary :: MetadataOf(g.nodes, id, secondary)
          == if Brings(e, id, secondary).Some? then Brings(e, id, secondary) else MetadataOf(f.nodes, id, secondary))
    && g.byEvent == f.byEvent[e.id := AggregateOf(e)]
    && g.firstByCorrelation == FirstWith(f.firstByCorrelation, e)
  }

  lemma StepAdvances(session: string, f: Fold, e: Event)
    requires Step(session, f, e).Some?
    ensures Advances(session, f, e, Step(session, f, e).value)
  {
    var g := Step(session, f, e).value;
    forall id ensures GrewBy(f.nodes, g.nodes, id, MentionsNode(e, id), e.sequence) {
      StepNodes(session, f, e, id);
    }
    forall key ensures LoweredBy(f.edges, g.edges, key, AddsEdge(session, f, e, key), e.sequence) {
      StepEdges(session, f, e, key);
    }
    forall id, secondary ensures MetadataOf(g.nodes, id, secondary)
      == if Brings(e, id, secondary).Some? then Brings(e, id, secondary) else MetadataOf(f.nodes, id, secondary)
    {
      StepMetadata(session, f, e, id, secondary);
    }
  }

  lemma StepEventTable(ordered: seq<Event>, session: string, n: nat, f: Fold, g: Fold)
    requires n < |ordered| && EventTableHolds(ordered, n, f.byEvent)
        && g.byEvent == f.byEvent[ordered[n].id := AggregateOf(ordered[n])]
    ensures EventTableHolds(ordered, n + 1, g.byEvent)
  {
    forall id | id in g.byEvent
      ensures exists i :: 0 <= i < n + 1 && LastWithId(ordered, i, n, id) && g.byEvent[id] == AggregateOf(ordered[i])
    {
      if id == ordered[n].id {
        assert LastWithId(ordered, n, n, id);
      } else {
        var i :| 0 <= i < n && LastWithId(ordered, i, n - 1, id) && f.byEvent[id] == AggregateOf(ordered[i]);
        assert LastWithId(ordered, i, n, id);
      }
    }
  }

  lemma StepFirstTable(ordered: seq<Event>, session: string, n: nat, f: Fold, g: Fold)
    requires n < |ordered| && FirstTableHolds(ordered, n, f.firstByCorrelation)
    requires g.firstByCorrelation == FirstWith(f.firstByCorrelation, ordered[n])
    ensures FirstTableHolds(ordered, n + 1, g.firstByCorrelation)
  {
    forall c | c in g.firstByCorrelation
      ensures c != ""
      ensures exists i :: 0 <= i < n + 1 && FirstCorrelated(ordered, i, c)
                          && g.firstByCorrelation[c] == AggregateOf(ordered[i])
    {
      if c in f.firstByCorrelation {
        var i :| 0 <= i < n && FirstCorrelated(ordered, i, c) && f.firstByCorrelation[c] == AggregateOf(ordered[i]);
      } else {
        assert FirstCorrelated(ordered, n, c);
      }
    }
  }

  lemma StepTables(ordered: seq<Event>, session: string, n: nat, f: Fold, g: Fold)
    requires n < |ordered| && TablesHold(ordered, n, f)
    requires g.byEvent == f.byEvent[ordered[n].id := AggregateOf(ordered[n])]
    requires g.firstByCorrelation == FirstWith(f.firstByCorrelation, ordered[n])
    ensures TablesHold(ordered, n + 1, g)
  {
    StepEventTable(ordered, session, n, f, g);
    StepFirstTable(ordered, session, n, f, g);
  }

  /** The lookup tables find exactly the events the declarative reading asks for. */
  lemma AddsIsMentions(session: string, ordered: seq<Event>, n: nat, f: Fold, key: EdgeKey)
    requires n < |ordered| && TablesHold(ordered, n, f)
    ensures AddsEdge(session, f, ordered[n], key) <==> MentionsEdge(session, ordered, n, key)
  {
    var e := ordered[n];
    match key.kind {
      case Causation =>
        var byEvent := f.byEvent[e.id := AggregateOf(e)];
        if e.causation == e.id {
          assert LastWithId(ordered, n, n, e.causation);
        } else if e.causation in f.byEvent {
          var i :| 0 <= i < n && LastWithId(ordered, i, n - 1, e.causation)
              && f.byEvent[e.causation] == AggregateOf(ordered[i]);
          assert LastWithId(ordered, i, n, e.causation);
          forall k | 0 <= k <= n && LastWithId(ordered, k, n, e.causation) ensures k == i {
          }
        }
      case Correlation =>
        if e.correlation in f.firstByCorrelation {
          var i :| 0 <= i < n && FirstCorrelated(ordered, i, e.correlation)
            && f.firstByCorrelation[e.correlation] == AggregateOf(ordered[i]);
          forall k | 0 <= k < n && FirstCorrelated(ordered, k, e.correlation) ensures k == i {
          }
        }
      case _ =>
    }
  }

  // ---- the whole fold ----

  /** f is where n steps lead. */
  ghost predicate Reaches(session: string, ordered: seq<Event>, n: nat, f: Fold)
    requires n <= |ordered| && ordered != []
  {
    if n == 0 then f == Start(session, ordered[0].sequence)
    else
      var e := ordered[n - 1];
      exists before :: Advances(session, before, e, f) && Reaches(session, ordered, n - 1, before)
  }

  lemma {:induction false} FoldReaches(session: string, ordered: seq<Event>, n: nat)
    requires ordered != [] && n <= |ordered| && FoldTo(session, ordered, n).Some?
    ensures Reaches(session, ordered, n, FoldTo(session, ordered, n).value)
  {
    if n > 0 {
      var before := FoldTo(session, ordered, n - 1).value;
      FoldReaches(session, ordered, n - 1);
      StepAdvances(session, before, ordered[n - 1]);
    }
  }

  lemma {:induction false} FoldTables(session: string, ordered: seq<Event>, n: nat, f: Fold)
    requires ordered != [] && n <= |ordered| && Reaches(session, ordered, n, f)
    ensures TablesHold(ordered, n, f)
  {
    if n > 0 {
      var before :| Reaches(session, ordered, n - 1, before) && Advances(session, before, ordered[n - 1], f);
      FoldTables(session, ordered, n - 1, before);
      StepTables(ordered, session, n - 1, before, f);
    }
  }

  lemma NodeCarriesOn(session: string, ordered: seq<Event>, n: nat, before: Nodes, after: Nodes, id: NodeId)
    requires n < |ordered| && InOrder(ordered) && NodeCarries(session, ordered, n, before, id)
    requires GrewBy(before, after, id, MentionsNode(ordered[n], id), ordered[n].sequence)
    ensures NodeCarries(session, ordered, n + 1, after, id)
  {
    if id != NodeIdFor(SESSION, session) && id in after && id !in before {
      assert MentionsNode(ordered[n], id);
    }
  }

  lemma EdgeCarriesOn(session: string, ordered: seq<Event>, n: nat, before: Edges, after: Edges, key: EdgeKey)
    requires n < |ordered| && InOrder(ordered) && EdgeCarries(session, ordered, n, before, key)
    requires LoweredBy(before, after, key, MentionsEdge(session, ordered, n, key), ordered[n].sequence)
    ensures EdgeCarries(session, ordered, n + 1, after, key)
  {
    if key in after && key !in before {
      assert MentionsEdge(session, ordered, n, key);
    }
  }

  lemma StepMentions(session: string, ordered: seq<Event>, n: nat, f: Fold, g: Fold, key: EdgeKey)
    requires n < |ordered| && TablesHold(ordered, n, f) && Advances(session, f, ordered[n], g)
    ensures LoweredBy(f.edges, g.edges, key, MentionsEdge(session, ordered, n, key), ordered[n].sequence)
  {
    AddsIsMentions(session, ordered, n, f, key);
  }

  lemma EdgeStep(session: string, ordered: seq<Event>, n: nat, f: Fold, g: Fold, key: EdgeKey)
    requires n < |ordered| && InOrder(ordered) && Reaches(session, ordered, n, f) && Advances(session, f, ordered[n], g)
    requires EdgeCarries(session, ordered, n, f.edges, key)
    ensures EdgeCarries(session, ordered, n + 1, g.edges, key)
  {
    assert LoweredBy(f.edges, g.edges, key, MentionsEdge(session, ordered, n, key), ordered[n].sequence) by {
      FoldTables(session, ordered, n, f);
      StepMentions(session, ordered, n, f, g, key);
    }
    EdgeCarriesOn(session, ordered, n, f.edges, g.edges, key);
  }

  lemma {:induction false} FoldNodes(session: string, ordered: seq<Event>, n: nat, f: Fold, id: NodeId)
    requires ordered != [] && n <= |ordered| && InOrder(ordered) && Reaches(session, ordered, n, f)
    ensures NodeCarries(session, ordered, n, f.nodes, id)
  {
    if n > 0 {
      var before :| Reaches(session, ordered, n - 1, before) && Advances(session, before, ordered[n - 1], f);
      FoldNodes(session, ordered, n - 1, before, id);
      NodeCarriesOn(session, ordered, n - 1, before.nodes, f.nodes, id);
    }
  }

  lemma {:induction false} FoldEdges(session: string, ordered: seq<Event>, n: nat, f: Fold, key: EdgeKey)
    requires ordered != [] && n <= |ordered| && InOrder(ordered) && Reaches(session, ordered, n, f)
    ensures EdgeCarries(session, ordered, n, f.edges, key)
  {
    if n > 0 {
      var before :| Reaches(session, ordered, n - 1, before) && Advances(session, before, ordered[n - 1], f);
      FoldEdges(session, ordered, n - 1, before, key);
      EdgeStep(session, ordered, n - 1, before, f, key);
    }
  }

  lemma BringsOneMore(ordered: seq<Event>, n: nat, id: NodeId, secondary: bool, v: Option<string>)
    requires n < |ordered| && LastBrings(ordered, n, id, secondary, v)
    ensures LastBrings(ordered, n + 1, id, secondary,
                       if Brings(ordered[n], id, secondary).Some? then Brings(ordered[n], id, secondary) else v)
  {
    if Brings(ordered[n], id, secondary).None? && v.Some? {
      var j :| 0 <= j < n && Brings(ordered[j], id, secondary) == v
               && forall m :: j < m < n ==> Brings(ordered[m], id, secondary).None?;
      assert forall m :: j < m < n + 1 ==> Brings(ordered[m], id, secondary).None?;
    }
  }

  lemma {:induction false} FoldMetadata(session: string, ordered: seq<Event>, n: nat, f: Fold, id: NodeId,
                                        secondary: bool)
    requires ordered != [] && n <= |ordered| && Reaches(session, ordered, n, f)
    ensures LastBrings(ordered, n, id, secondary, MetadataOf(f.nodes, id, secondary))
  {
    if n > 0 {
      var e := ordered[n - 1];
      var before :| Advances(session, before, e, f) && Reaches(session, ordered, n - 1, before);
      FoldMetadata(session, ordered, n - 1, before, id, secondary);
      AdvanceBrings(session, before, e, f, id, secondary);
      BringsOneMore(ordered, n - 1, id, secondary, MetadataOf(before.nodes, id, secondary));
    }
  }

  lemma AdvanceBrings(session: string, f: Fold, e: Event, g: Fold, id: NodeId, secondary: bool)
    requires Advances(session, f, e, g)
    ensures MetadataOf(g.nodes, id, secondary)
         == if Brings(e, id, secondary).Some? then Brings(e, id, secondary) else MetadataOf(f.nodes, id, secondary)
  {
  }

  lemma ProjectionReaches(session: string, events: seq<Event>, g: Graph) returns (f: Fold)
    requires ProjectOf(session, events) == Ok(g)
    ensures OrderedCopy(events) != [] && Reaches(session, OrderedCopy(events), |events|, f)
    ensures g == Graph(session, f.nodes, f.edges)
  {
    f := FoldTo(session, OrderedCopy(events), |events|).value;
    FoldReaches(session, OrderedCopy(events), |events|);
  }

  /** Only the events' order matters, not the order they came in. */
  lemma ProjectionOfOrdered(session: string, events: seq<Event>)
    ensures ProjectOf(session, OrderedCopy(events)) == ProjectOf(session, events)
  {
    OrderedCopySorts(events);
    OrderedCopyOfSorted(OrderedCopy(events));
  }

  lemma EdgeEndsMentioned(session: string, ordered: seq<Event>, j: nat, key: EdgeKey)
    requires j < |ordered| && MentionsEdge(session, ordered, j, key)
    ensures exists i :: 0 <= i <= j && (MentionsNode(ordered[i], key.from) || key.from == NodeIdFor(SESSION, session))
    ensures MentionsNode(ordered[j], key.to)
  {
    match key.kind {
      case Causation =>
        var i :| 0 <= i <= j && LastWithId(ordered, i, j, ordered[j].causation) && key.from == AggregateOf(ordered[i]);
        assert MentionsNode(ordered[i], key.from);
      case Correlation =>
        var i :| 0 <= i < j && FirstCorrelated(ordered, i, ordered[j].correlation)
            && key.from == AggregateOf(ordered[i]);
        assert MentionsNode(ordered[i], key.from);
      case Contains => assert key.from == NodeIdFor(SESSION, session);
      case _ => assert MentionsNode(ordered[j], key.from);
    }
  }

  /** What a projected graph is: its nodes and edges are the mentioned ones, each with the least
      sequence that mentions it, each node with the metadata the last of its events to bring any
      brings, and both ends of every edge are nodes. */
  lemma ProjectionIsMentioned(session: string, events: seq<Event>)
    requires ProjectOf(session, events).Ok?
    ensures var g := ProjectOf(session, events).value;
            var ordered := OrderedCopy(events);
            && ordered != [] && g.session == session
            && (forall id :: NodeCarries(session, ordered, |ordered|, g.nodes, id))
            && (forall key :: EdgeCarries(session, ordered, |ordered|, g.edges, key))
            && (forall id, secondary ::
                  LastBrings(ordered, |ordered|, id, secondary, MetadataOf(g.nodes, id, secondary)))
            && forall key :: key in g.edges ==> key.from in g.nodes && key.to in g.nodes
  {
    var ordered := OrderedCopy(events);
    var g := ProjectOf(session, events).value;
    OrderedCopySorts(events);
    var f := ProjectionReaches(session, events, g);
    forall id ensures NodeCarries(session, ordered, |ordered|, g.nodes, id) {
      FoldNodes(session, ordered, |ordered|, f, id);
    }
    forall key ensures EdgeCarries(session, ordered, |ordered|, g.edges, key) {
      FoldEdges(session, ordered, |ordered|, f, key);
    }
    forall id, secondary ensures LastBrings(ordered, |ordered|, id, secondary, MetadataOf(g.nodes, id, secondary)) {
      FoldMetadata(session, ordered, |ordered|, f, id, secondary);
    }
    forall key | key in g.edges ensures key.from in g.nodes && key.to in g.nodes {
      assert EdgeCarries(session, ordered, |ordered|, g.edges, key);
      var j :| 0 <= j < |ordered| && MentionsEdge(session, ordered, j, key);
      EdgeEndsMentioned(session, ordered, j, key);
      assert NodeCarries(session, ordered, |ordered|, g.nodes, key.from);
      assert NodeCarries(session, ordered, |ordered|, g.nodes, key.to);
    }
  }

  /** What it takes for a projection to succeed. */
  lemma ProjectionFails(session: string, events: seq<Event>)
    requires ProjectOf(session, events).Err?
    ensures var error := ProjectOf(session, events).error;
            && (error == Invalid <==> session == "")
            && (error == Empty <==> session != "" && events == [])
            && (error == BadEvent <==> session != "" && exists e :: e in events && e.metadata.BadMetadata?)
  {
    ProjectionSucceeds(session, events);
  }

  lemma ProjectionSucceeds(session: string, events: seq<Event>)
    ensures ProjectOf(session, events).Ok? <==>
            session != "" && events != [] && forall e :: e in events ==> !e.metadata.BadMetadata?
  {
    var ordered := OrderedCopy(events);
    OrderedCopySorts(events);
    SameMultisetSameElements(ordered, events);
    forall e ensures e in events <==> e in ordered {
      assert e in Elements(events) <==> e in Elements(ordered);
    }
  }

  // ---- the projecting method ----

  class NodeSet {
    var nodes: Nodes

    constructor ()
      ensures nodes == map[]
    {
      nodes := map[];
    }

    method EnsureNode(kind: string, ref: string, sequence: int) returns (id: NodeId)
      modifies this
      ensures nodes == Ensure(old(nodes), kind, ref, sequence) && id == NodeIdFor(kind, ref)
    {
      id := NodeIdFor(kind, ref);
      if id in nodes {
        return;
      }
      nodes := nodes[id := Node(kind, ref, sequence, None, None)];
    }

    method AnnotateNode(id: NodeId, m: Metadata)
      modifies this
      ensures nodes == Annotate(old(nodes), id, m)
    {
      if id !in nodes || m.BadMetadata? {
        return;
      }
      var n := nodes[id];
      if m.secondary.Some? {
        n := n.(secondary := m.secondary);
      }
      if m.access.Some? {
        n := n.(access := m.access);
      }
      nodes := nodes[id := n];
    }
  }

  class EdgeSet {
    var edges: Edges

    constructor ()
      ensures edges == map[]
    {
      edges := map[];
    }

    method Add(from: NodeId, to: NodeId, kind: EdgeKind, sequence: int)
      modifies this
      ensures edges == AddEdge(old(edges), EdgeKey(from, to, kind), sequence)
    {
      var key := EdgeKey(from, to, kind);
      if key in edges {
        if sequence < edges[key] {
          edges := edges[key := sequence];
        }
        return;
      }
      edges := edges[key := sequence];
    }
  }

  method LinkEvent(session: string, nodes: NodeSet, edges: EdgeSet, byEvent0: map<string, NodeId>,
                   first0: map<string, NodeId>, e: Event)
    returns (byEvent: map<string, NodeId>, first: map<string, NodeId>, agg: NodeId)
    modifies nodes, edges
    ensures agg == AggregateOf(e)
    ensures Fold(nodes.nodes, edges.edges, byEvent, first)
         == Link(session, Fold(old(nodes.nodes), old(edges.edges), byEvent0, first0), e)
  {
    byEvent, first := byEvent0, first0;
    var sessionNode := NodeIdFor(SESSION, session);
    agg := nodes.EnsureNode(e.kind, e.aggregate, e.sequence);
    if agg != sessionNode {
      edges.Add(sessionNode, agg, Contains, e.sequence);
    }
    byEvent := byEvent[e.id := agg];
    if e.actor != "" {
      var actor := nodes.EnsureNode(ACTOR, e.actor, e.sequence);
      edges.Add(actor, agg, Access, e.sequence);
    }
    if e.causation != "" && e.causation in byEvent && byEvent[e.causation] != agg {
      edges.Add(byEvent[e.causation], agg, Causation, e.sequence);
    }
    if e.correlation != "" {
      if e.correlation in first {
        if first[e.correlation] != agg {
          edges.Add(first[e.correlation], agg, Correlation, e.sequence);
        }
      } else {
        first := first[e.correlation := agg];
      }
    }
  }

  method DescribeEvent(nodes: NodeSet, edges: EdgeSet, agg: NodeId, e: Event)
    requires agg == AggregateOf(e)
    modifies nodes, edges
    ensures nodes.nodes == DescribeNodes(old(nodes.nodes), e) && edges.edges == DescribeEdges(old(edges.edges), e)
  {
    nodes.AnnotateNode(agg, e.metadata);
    if e.workPackage != "" {
      var wp := nodes.EnsureNode(WORK_PACKAGE, e.workPackage, e.sequence);
      if wp != agg {
        edges.Add(agg, wp, Assigns, e.sequence);
      }
    }
    if e.artifact != "" {
      var artifact := nodes.EnsureNode(ARTIFACT, e.artifact, e.sequence);
      if artifact != agg {
        edges.Add(agg, artifact, Produces, e.sequence);
      }
    }
  }

  method FoldEvent(session: string, nodes: NodeSet, edges: EdgeSet, byEvent0: map<string, NodeId>,
                   first0: map<string, NodeId>, e: Event)
    returns (byEvent: map<string, NodeId>, first: map<string, NodeId>, ok: bool)
    modifies nodes, edges
    ensures var after := Step(session, Fold(old(nodes.nodes), old(edges.edges), byEvent0, first0), e);
            ok == after.Some? && (ok ==> after.value == Fold(nodes.nodes, edges.edges, byEvent, first))
  {
    var agg;
    byEvent, first, agg := LinkEvent(session, nodes, edges, byEvent0, first0, e);
    if e.metadata.BadMetadata? {
      return byEvent, first, false;
    }
    DescribeEvent(nodes, edges, agg, e);
    ok := true;
  }

  method FoldNext(session: string, ordered: seq<Event>, i: nat, nodes: NodeSet, edges: EdgeSet,
                  byEvent0: map<string, NodeId>, first0: map<string, NodeId>)
    returns (byEvent: map<string, NodeId>, first: map<string, NodeId>, ok: bool)
    requires i < |ordered| && FoldTo(session, ordered, i) == Some(Fold(nodes.nodes, edges.edges, byEvent0, first0))
    modifies nodes, edges
    ensures ok ==> FoldTo(session, ordered, i + 1) == Some(Fold(nodes.nodes, edges.edges, byEvent, first))
    ensures ok == !ordered[i].metadata.BadMetadata?
  {
    byEvent, first, ok := FoldEvent(session, nodes, edges, byEvent0, first0, ordered[i]);
  }

  method FoldAll(session: string, ordered: seq<Event>, nodes: NodeSet, edges: EdgeSet) returns (ok: bool)
    requires ordered != []
    requires nodes.nodes == Start(session, ordered[0].sequence).nodes && edges.edges == map[]
    modifies nodes, edges
    ensures ok == FoldTo(session, ordered, |ordered|).Some?
    ensures ok ==> FoldTo(session, ordered, |ordered|).value.nodes == nodes.nodes
                   && FoldTo(session, ordered, |ordered|).value.edges == edges.edges
  {
    var byEvent: map<string, NodeId> := map[];
    var first: map<string, NodeId> := map[];
    for i := 0 to |ordered|
      invariant FoldTo(session, ordered, i) == Some(Fold(nodes.nodes, edges.edges, byEvent, first))
    {
      byEvent, first, ok := FoldNext(session, ordered, i, nodes, edges, byEvent, first);
      if !ok {
        return;
      }
    }
    ok := true;
  }

  method Project(session: string, events: seq<Event>) returns (r: Result<Graph>)
    ensures r == ProjectOf(session, events)
  {
    if session == "" {
      return Err(Invalid);
    }
    if |events| == 0 {
      return Err(Empty);
    }
    var ordered := OrderedCopy(events);
    var nodes := new NodeSet();
    var edges := new EdgeSet();
    var _ := nodes.EnsureNode(SESSION, session, ordered[0].sequence);
    var ok := FoldAll(session, ordered, nodes, edges);
    r := if ok then Ok(Graph(session, nodes.nodes, edges.edges)) else Err(BadEvent);
  }

  /** Ties show in the graph too: of two events that share a sequence and bring different metadata to one
      node, the one that arrived last decides. */
  lemma TieShowsInGraph(session: string, e: Event, f: Event, id: NodeId, secondary: bool)
    requires session != "" && !e.metadata.BadMetadata? && !f.metadata.BadMetadata? && e.sequence == f.sequence
    requires Brings(e, id, secondary).Some? && Brings(f, id, secondary).Some?
    requires Brings(e, id, secondary) != Brings(f, id, secondary)
    ensures ProjectOf(session, [e, f]) != ProjectOf(session, [f, e])
  {
    LastOfTwo(session, e, f, id, secondary);
    LastOfTwo(session, f, e, id, secondary);
  }

  lemma LastOfTwo(session: string, e: Event, f: Event, id: NodeId, secondary: bool)
    requires session != "" && !e.metadata.BadMetadata? && !f.metadata.BadMetadata? && e.sequence <= f.sequence
    requires Brings(f, id, secondary).Some?
    ensures ProjectOf(session, [e, f]).Ok?
    ensures MetadataOf(ProjectOf(session, [e, f]).value.nodes, id, secondary) == Brings(f, id, secondary)
  {
    var events := [e, f];
    OrderedCopyOfSorted(events);
    ProjectionSucceeds(session, events);
    ProjectionIsMentioned(session, events);
    var v := MetadataOf(ProjectOf(session, events).value.nodes, id, secondary);
    assert LastBrings(events, |events|, id, secondary, v);
    assert events[1] == f;
  }
}
