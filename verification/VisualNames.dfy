/** The projected graph said by kind and reference: what events name and link, without node identities. */
module VisualNames {
  import opened Ordering
  import opened VisualSession

  /** A kind and a reference; a node stands for one of these. */
  datatype Name = Name(kind: string, ref: string)

  predicate Plain(kind: string) {
    ':' !in kind
  }

  predicate PlainKinds(events: seq<Event>) {
    forall e :: e in events ==> Plain(e.kind)
  }

  function NameOf(n: Node): Name {
    Name(n.kind, n.ref)
  }

  function Subject(e: Event): Name {
    Name(e.kind, e.aggregate)
  }

  /** What an event names: its aggregate, and its actor, work package and artifact when it has them. */
  predicate Names(e: Event, x: Name) {
    || x == Subject(e)
    || (x.kind == "actor" && x.ref == e.actor && x.ref != "")
    || (x.kind == "work_package" && x.ref == e.workPackage && x.ref != "")
    || (x.kind == "artifact" && x.ref == e.artifact && x.ref != "")
  }

  // ---- identities keep names apart ----

  /** The identity of a node is its kind, a colon and its reference. */
  lemma IdentitySpelled(kind: string, ref: string)
    ensures var id := NodeIdFor(kind, ref);
            && |id| == |kind| + 1 + |ref| && id[..|kind|] == kind && id[|kind|] == ':' && id[|kind| + 1..] == ref
  {
  }

  /** The first colon of an identity ends its kind. */
  lemma FirstColon(kind: string, ref: string, id: NodeId)
    requires Plain(kind) && id == NodeIdFor(kind, ref)
    ensures |kind| < |id| && id[|kind|] == ':' && forall i :: 0 <= i < |kind| ==> id[i] != ':'
    ensures id[..|kind|] == kind && id[|kind| + 1..] == ref
  {
    IdentitySpelled(kind, ref);
  }

  /** Where kinds have no colon, different kinds or references have different identities. */
  lemma IdentityIsOwn(a: Name, b: Name)
    requires Plain(a.kind) && Plain(b.kind)
    ensures NodeIdFor(a.kind, a.ref) == NodeIdFor(b.kind, b.ref) <==> a == b
  {
    FirstColon(a.kind, a.ref, NodeIdFor(a.kind, a.ref));
    FirstColon(b.kind, b.ref, NodeIdFor(b.kind, b.ref));
  }

  /** With a colon in a kind they need not: these two are one node. */
  lemma ColonsCollide()
    ensures NodeIdFor("a:b", "c") == NodeIdFor("a", "b:c")
  {
  }

  lemma ConstantsArePlain()
    ensures Plain(SESSION) && Plain(ACTOR) && Plain(WORK_PACKAGE) && Plain(ARTIFACT)
    ensures SESSION == "session" && ACTOR == "actor" && WORK_PACKAGE == "work_package" && ARTIFACT == "artifact"
  {
  }

  lemma MentionIsName(e: Event, x: Name)
    requires Plain(e.kind) && Plain(x.kind)
    ensures MentionsNode(e, NodeIdFor(x.kind, x.ref)) <==> Names(e, x)
  {
    ConstantsArePlain();
    IdentityIsOwn(x, Subject(e));
    IdentityIsOwn(x, Name(ACTOR, e.actor));
    IdentityIsOwn(x, Name(WORK_PACKAGE, e.workPackage));
    IdentityIsOwn(x, Name(ARTIFACT, e.artifact));
  }

  /** An identity that is mentioned is that of a plain name. */
  lemma MentionHasName(e: Event, id: NodeId) returns (x: Name)
    requires Plain(e.kind) && MentionsNode(e, id)
    ensures Plain(x.kind) && id == NodeIdFor(x.kind, x.ref) && Names(e, x)
  {
    ConstantsArePlain();
    x := if id == AggregateOf(e) then Subject(e)
         else if e.actor != "" && id == NodeIdFor(ACTOR, e.actor) then Name(ACTOR, e.actor)
         else if e.artifact != "" && id == NodeIdFor(ARTIFACT, e.artifact) then Name(ARTIFACT, e.artifact)
         else Name(WORK_PACKAGE, e.workPackage);
  }

  // ---- nodes ----

  /** Events of a session name it, or one of them does. */
  ghost predicate IsNamed(session: string, events: seq<Event>, x: Name) {
    x == Name("session", session) || exists e :: e in events && Names(e, x)
  }

  /** The nodes of a graph are those of the names, one each, under their own kind and reference; each carries
      the least sequence that names it, and the session the first of all. */
  ghost predicate NodesFit(session: string, ordered: seq<Event>, g: Graph) {
    && (forall x: Name :: IsNamed(session, ordered, x) <==> exists id :: id in g.nodes && NameOf(g.nodes[id]) == x)
    && (forall a, b :: a in g.nodes && b in g.nodes && NameOf(g.nodes[a]) == NameOf(g.nodes[b]) ==> a == b)
    && forall id :: id in g.nodes ==> SequenceFits(session, ordered, g.nodes[id])
  }

  ghost predicate SequenceFits(session: string, ordered: seq<Event>, n: Node) {
    && ordered != []
    && if NameOf(n) == Name("session", session) then n.sequence == ordered[0].sequence
       else && (exists e :: e in ordered && Names(e, NameOf(n)) && n.sequence == e.sequence)
            && forall e :: e in ordered && Names(e, NameOf(n)) ==> n.sequence <= e.sequence
  }

  /** Every node has the name of one of the events, or of the session. */
  ghost predicate NodesNamed(session: string, events: seq<Event>, nodes: Nodes) {
    forall id :: id in nodes ==>
      id == NodeIdFor(nodes[id].kind, nodes[id].ref) && IsNamed(session, events, NameOf(nodes[id]))
  }

  /** Ensuring a node keeps every name, and makes a new node only for its own. */
  lemma EnsureNames(nodes: Nodes, kind: string, ref: string, sequence: int, id: NodeId)
    requires id in EnsureUnlessEmpty(nodes, kind, ref, sequence) || id in Ensure(nodes, kind, ref, sequence)
    ensures id in Ensure(nodes, kind, ref, sequence)
    ensures var n := Ensure(nodes, kind, ref, sequence)[id];
            if id in nodes then n == nodes[id] else NameOf(n) == Name(kind, ref) && id == NodeIdFor(kind, ref)
    ensures id in EnsureUnlessEmpty(nodes, kind, ref, sequence) && id !in nodes ==> ref != ""
  {
  }

  lemma LinkNames(session: string, f: Fold, e: Event, id: NodeId)
    requires id in Link(session, f, e).nodes
    ensures var n := Link(session, f, e).nodes[id];
            if id in f.nodes then n == f.nodes[id]
            else Names(e, NameOf(n)) && id == NodeIdFor(n.kind, n.ref)
  {
    ConstantsArePlain();
    var own := Ensure(f.nodes, e.kind, e.aggregate, e.sequence);
    EnsureNames(own, ACTOR, e.actor, e.sequence, id);
    if id in own {
      EnsureNames(f.nodes, e.kind, e.aggregate, e.sequence, id);
    }
  }

  lemma DescribeNames(nodes: Nodes, e: Event, id: NodeId)
    requires id in DescribeNodes(nodes, e)
    ensures var n := DescribeNodes(nodes, e)[id];
            if id in nodes then NameOf(n) == NameOf(nodes[id])
            else Names(e, NameOf(n)) && id == NodeIdFor(n.kind, n.ref)
  {
    ConstantsArePlain();
    var annotated := Annotate(nodes, AggregateOf(e), e.metadata);
    var allotted := EnsureUnlessEmpty(annotated, WORK_PACKAGE, e.workPackage, e.sequence);
    EnsureNames(allotted, ARTIFACT, e.artifact, e.sequence, id);
    if id in allotted {
      EnsureNames(annotated, WORK_PACKAGE, e.workPackage, e.sequence, id);
    }
  }

  /** A step keeps the names of nodes and makes new ones only for what its event names. */
  lemma StepNames(session: string, f: Fold, e: Event, id: NodeId)
    requires Step(session, f, e).Some? && id in Step(session, f, e).value.nodes
    ensures var n := Step(session, f, e).value.nodes[id];
            if id in f.nodes then NameOf(n) == NameOf(f.nodes[id])
            else Names(e, NameOf(n)) && id == NodeIdFor(n.kind, n.ref)
  {
    var linked := Link(session, f, e).nodes;
    DescribeNames(linked, e, id);
    if id in linked {
      LinkNames(session, f, e, id);
    }
  }

  /** What StepNames says, of any two sets of nodes. */
  ghost predicate NamesKept(f: Fold, e: Event, g: Fold) {
    forall id :: id in g.nodes ==> NameKept(f.nodes, e, id, g.nodes[id])
  }

  predicate NameKept(before: Nodes, e: Event, id: NodeId, n: Node) {
    if id in before then NameOf(n) == NameOf(before[id])
    else Names(e, NameOf(n)) && id == NodeIdFor(n.kind, n.ref)
  }

  ghost predicate NamesReach(session: string, ordered: seq<Event>, n: nat, f: Fold)
    requires n <= |ordered| && ordered != []
  {
    if n == 0 then f == Start(session, ordered[0].sequence)
    else
      var e := ordered[n - 1];
      exists before: Fold :: NamesKept(before, e, f) && NamesReach(session, ordered, n - 1, before)
  }

  lemma StepKeepsNames(session: string, f: Fold, e: Event)
    requires Step(session, f, e).Some?
    ensures NamesKept(f, e, Step(session, f, e).value)
  {
    forall id | id in Step(session, f, e).value.nodes {
      StepNames(session, f, e, id);
    }
  }

  lemma {:induction false} FoldReachesNames(session: string, ordered: seq<Event>, n: nat)
    requires n <= |ordered| && ordered != [] && FoldTo(session, ordered, n).Some?
    ensures NamesReach(session, ordered, n, FoldTo(session, ordered, n).value)
  {
    if n > 0 {
      var before := FoldTo(session, ordered, n - 1).value;
      FoldReachesNames(session, ordered, n - 1);
      StepKeepsNames(session, before, ordered[n - 1]);
    }
  }

  lemma NamedByOneMore(session: string, events: seq<Event>, e: Event, x: Name)
    requires IsNamed(session, events, x) || Names(e, x)
    ensures IsNamed(session, events + [e], x)
  {
    assert e in events + [e] && forall y :: y in events ==> y in events + [e];
  }

  lemma {:induction false} ReachedNamed(session: string, ordered: seq<Event>, n: nat, f: Fold)
    requires n <= |ordered| && ordered != [] && NamesReach(session, ordered, n, f)
    ensures NodesNamed(session, ordered[..n], f.nodes)
  {
    if n == 0 {
      StartNamed(session, ordered[..0], ordered[0].sequence);
    } else {
      var e := ordered[n - 1];
      var before :| NamesKept(before, e, f) && NamesReach(session, ordered, n - 1, before);
      ReachedNamed(session, ordered, n - 1, before);
      assert ordered[..n] == ordered[..n - 1] + [e];
      forall id | id in f.nodes
        ensures id == NodeIdFor(f.nodes[id].kind, f.nodes[id].ref)
        ensures IsNamed(session, ordered[..n], NameOf(f.nodes[id]))
      {
        assert NameKept(before.nodes, e, id, f.nodes[id]);
        NamedByOneMore(session, ordered[..n - 1], e, NameOf(f.nodes[id]));
      }
    }
  }

  lemma FoldNamed(session: string, ordered: seq<Event>, n: nat)
    requires n <= |ordered| && ordered != [] && FoldTo(session, ordered, n).Some?
    ensures NodesNamed(session, ordered[..n], FoldTo(session, ordered, n).value.nodes)
  {
    FoldReachesNames(session, ordered, n);
    ReachedNamed(session, ordered, n, FoldTo(session, ordered, n).value);
  }

  lemma StartNamed(session: string, events: seq<Event>, sequence: int)
    ensures NodesNamed(session, events, Start(session, sequence).nodes)
  {
    ConstantsArePlain();
  }

  lemma PlainNames(session: string, events: seq<Event>, x: Name)
    requires PlainKinds(events) && IsNamed(session, events, x)
    ensures Plain(x.kind)
  {
    ConstantsArePlain();
  }

  /** The identity of every node is that of a plain name. */
  lemma NodesArePlain(session: string, events: seq<Event>)
    requires PlainKinds(events) && ProjectOf(session, events).Ok?
    ensures var g := ProjectOf(session, events).value;
            forall id :: id in g.nodes ==>
              var x := NameOf(g.nodes[id]);
              id == NodeIdFor(x.kind, x.ref) && Plain(x.kind) && IsNamed(session, OrderedCopy(events), x)
    ensures PlainKinds(OrderedCopy(events)) && OrderedCopy(events) != []
  {
    var ordered := OrderedCopy(events);
    var g := ProjectOf(session, events).value;
    OrderedCopySorts(events);
    SameMultisetSameElements(ordered, events);
    forall e | e in ordered ensures e in events {
      assert e in Elements(ordered);
    }
    assert ordered[..|ordered|] == ordered;
    FoldNamed(session, ordered, |ordered|);
    forall id | id in g.nodes ensures Plain(NameOf(g.nodes[id]).kind) {
      PlainNames(session, ordered, NameOf(g.nodes[id]));
    }
  }

  /** Where kinds have no colon, every name has its own node. */
  lemma NamesHaveNodes(session: string, events: seq<Event>)
    requires PlainKinds(events) && ProjectOf(session, events).Ok?
    ensures NodesFit(session, OrderedCopy(events), ProjectOf(session, events).value)
  {
    var ordered := OrderedCopy(events);
    var g := ProjectOf(session, events).value;
    NodesArePlain(session, events);
    ProjectionIsMentioned(session, events);
    forall x: Name ensures IsNamed(session, ordered, x) <==> exists id :: id in g.nodes && NameOf(g.nodes[id]) == x {
      if IsNamed(session, ordered, x) {
        NamedHasNode(session, ordered, g, x);
      }
    }
    forall id | id in g.nodes ensures SequenceFits(session, ordered, g.nodes[id]) {
      assert NodeCarries(session, ordered, |ordered|, g.nodes, id);
      SequenceByName(session, ordered, g, id);
    }
  }

  lemma NamedHasNode(session: string, ordered: seq<Event>, g: Graph, x: Name)
    requires PlainKinds(ordered) && ordered != [] && IsNamed(session, ordered, x)
    requires forall id :: NodeCarries(session, ordered, |ordered|, g.nodes, id)
    requires forall id :: id in g.nodes ==> Plain(g.nodes[id].kind)
    ensures NodeIdFor(x.kind, x.ref) in g.nodes && NameOf(g.nodes[NodeIdFor(x.kind, x.ref)]) == x
  {
    var id := NodeIdFor(x.kind, x.ref);
    ConstantsArePlain();
    PlainNames(session, ordered, x);
    assert NodeCarries(session, ordered, |ordered|, g.nodes, id);
    if x != Name(SESSION, session) {
      var e :| e in ordered && Names(e, x);
      var j :| 0 <= j < |ordered| && ordered[j] == e;
      MentionIsName(e, x);
      IdentityIsOwn(x, Name(SESSION, session));
      assert MentionsNode(ordered[j], id);
    }
    IdentityIsOwn(x, NameOf(g.nodes[id]));
  }

  lemma SequenceByName(session: string, ordered: seq<Event>, g: Graph, id: NodeId)
    requires PlainKinds(ordered) && ordered != [] && NodeCarries(session, ordered, |ordered|, g.nodes, id)
    requires id in g.nodes && Plain(g.nodes[id].kind)
    ensures SequenceFits(session, ordered, g.nodes[id])
  {
    var x := NameOf(g.nodes[id]);
    ConstantsArePlain();
    IdentityIsOwn(x, Name(SESSION, session));
    forall e | e in ordered ensures MentionsNode(e, id) <==> Names(e, x) {
      MentionIsName(e, x);
    }
    if x != Name(SESSION, session) {
      var j :| 0 <= j < |ordered| && MentionsNode(ordered[j], id) && g.nodes[id].sequence == ordered[j].sequence;
      assert ordered[j] in ordered;
      forall e | e in ordered && Names(e, x) ensures g.nodes[id].sequence <= e.sequence {
        var k :| 0 <= k < |ordered| && ordered[k] == e;
        assert MentionsNode(ordered[k], id);
      }
    }
  }

  // ---- edges ----

  /** What event j links, and how: the session to its aggregate, its actor to its aggregate, the aggregate of
      its cause and of the first of its correlation to its own, and its own to its work package and artifact. */
  ghost predicate Links(session: string, ordered: seq<Event>, j: nat, kind: EdgeKind, from: Name, to: Name)
    requires j < |ordered|
  {
    var e := ordered[j];
    match kind
    case Contains => from == Name("session", session) && to == Subject(e) && from != to
    case Access => e.actor != "" && from == Name("actor", e.actor) && to == Subject(e)
    case Causation =>
      && e.causation != "" && to == Subject(e) && from != to
      && exists i :: 0 <= i <= j && ordered[i].id == e.causation && from == Subject(ordered[i])
                     && forall m :: i < m <= j ==> ordered[m].id != e.causation
    case Correlation =>
      && e.correlation != "" && to == Subject(e) && from != to
      && exists i :: 0 <= i < j && ordered[i].correlation == e.correlation && from == Subject(ordered[i])
                     && forall m :: 0 <= m < i ==> ordered[m].correlation != e.correlation
    case Assigns => e.workPackage != "" && from == Subject(e) && to == Name("work_package", e.workPackage) && from != to
    case Produces => e.artifact != "" && from == Subject(e) && to == Name("artifact", e.artifact) && from != to
  }

  function KeyOf(kind: EdgeKind, from: Name, to: Name): EdgeKey {
    EdgeKey(NodeIdFor(from.kind, from.ref), NodeIdFor(to.kind, to.ref), kind)
  }

  lemma LinkIsMention(session: string, ordered: seq<Event>, j: nat, kind: EdgeKind, from: Name, to: Name)
    requires PlainKinds(ordered) && j < |ordered| && Plain(from.kind) && Plain(to.kind)
    ensures MentionsEdge(session, ordered, j, KeyOf(kind, from, to)) <==> Links(session, ordered, j, kind, from, to)
  {
    var e := ordered[j];
    ConstantsArePlain();
    assert e in ordered;
    IdentityIsOwn(from, to);
    IdentityIsOwn(from, Subject(e));
    IdentityIsOwn(to, Subject(e));
    match kind
    case Contains => IdentityIsOwn(from, Name(SESSION, session));
    case Access => IdentityIsOwn(from, Name(ACTOR, e.actor));
    case Assigns => IdentityIsOwn(to, Name(WORK_PACKAGE, e.workPackage));
    case Produces => IdentityIsOwn(to, Name(ARTIFACT, e.artifact));
    case _ => SubjectsByIdentity(ordered, from);
  }

  lemma SubjectsByIdentity(ordered: seq<Event>, x: Name)
    requires PlainKinds(ordered) && Plain(x.kind)
    ensures forall i :: 0 <= i < |ordered| ==>
              (NodeIdFor(x.kind, x.ref) == AggregateOf(ordered[i]) <==> x == Subject(ordered[i]))
  {
    forall i | 0 <= i < |ordered|
      ensures NodeIdFor(x.kind, x.ref) == AggregateOf(ordered[i]) <==> x == Subject(ordered[i])
    {
      assert ordered[i] in ordered;
      IdentityIsOwn(x, Subject(ordered[i]));
    }
  }

  /** Two names are linked in a graph when it has an edge between their nodes. */
  ghost predicate Linked(g: Graph, kind: EdgeKind, from: Name, to: Name, sequence: int) {
    exists key :: key in g.edges && key.kind == kind && key.from in g.nodes && key.to in g.nodes
                  && NameOf(g.nodes[key.from]) == from && NameOf(g.nodes[key.to]) == to && g.edges[key] == sequence
  }

  /** Some event links the names, none does with a smaller sequence, and this is its sequence. */
  ghost predicate FirstLinks(session: string, ordered: seq<Event>, kind: EdgeKind, from: Name, to: Name,
                             sequence: int)
  {
    && (exists j :: 0 <= j < |ordered| && Links(session, ordered, j, kind, from, to) && ordered[j].sequence == sequence)
    && forall j :: 0 <= j < |ordered| && Links(session, ordered, j, kind, from, to) ==> sequence <= ordered[j].sequence
  }

  /** Where kinds have no colon, the edges are exactly those that events make between what they name. */
  lemma LinksAreEdges(session: string, events: seq<Event>, kind: EdgeKind, from: Name, to: Name, sequence: int)
    requires PlainKinds(events) && ProjectOf(session, events).Ok?
    ensures Linked(ProjectOf(session, events).value, kind, from, to, sequence)
       <==> FirstLinks(session, OrderedCopy(events), kind, from, to, sequence)
  {
    var ordered := OrderedCopy(events);
    var g := ProjectOf(session, events).value;
    NodesArePlain(session, events);
    ProjectionIsMentioned(session, events);
    if Linked(g, kind, from, to, sequence) {
      var key :| key in g.edges && key.kind == kind && key.from in g.nodes && key.to in g.nodes
                 && NameOf(g.nodes[key.from]) == from && NameOf(g.nodes[key.to]) == to && g.edges[key] == sequence;
      assert key == KeyOf(kind, from, to);
      assert EdgeCarries(session, ordered, |ordered|, g.edges, key);
      EdgeIsLink(session, ordered, g, kind, from, to, sequence);
    }
    if FirstLinks(session, ordered, kind, from, to, sequence) {
      LinkIsEdge(session, ordered, g, kind, from, to, sequence);
    }
  }

  lemma EdgeIsLink(session: string, ordered: seq<Event>, g: Graph, kind: EdgeKind, from: Name, to: Name, sequence: int)
    requires PlainKinds(ordered) && Plain(from.kind) && Plain(to.kind)
    requires var key := KeyOf(kind, from, to);
             key in g.edges && g.edges[key] == sequence && EdgeCarries(session, ordered, |ordered|, g.edges, key)
    ensures FirstLinks(session, ordered, kind, from, to, sequence)
  {
    forall j | 0 <= j < |ordered|
      ensures MentionsEdge(session, ordered, j, KeyOf(kind, from, to)) <==> Links(session, ordered, j, kind, from, to)
    {
      LinkIsMention(session, ordered, j, kind, from, to);
    }
  }

  lemma LinkEndsNamed(session: string, ordered: seq<Event>, j: nat, kind: EdgeKind, from: Name, to: Name)
    requires j < |ordered| && Links(session, ordered, j, kind, from, to)
    ensures IsNamed(session, ordered, from) && IsNamed(session, ordered, to)
  {
    assert ordered[j] in ordered && Names(ordered[j], Subject(ordered[j]));
    if kind == Causation || kind == Correlation {
      var i :| 0 <= i <= j && from == Subject(ordered[i]);
      assert ordered[i] in ordered && Names(ordered[i], from);
    }
  }

  lemma LinkIsEdge(session: string, ordered: seq<Event>, g: Graph, kind: EdgeKind, from: Name, to: Name, sequence: int)
    requires PlainKinds(ordered) && ordered != [] && FirstLinks(session, ordered, kind, from, to, sequence)
    requires forall id :: NodeCarries(session, ordered, |ordered|, g.nodes, id)
    requires forall key :: EdgeCarries(session, ordered, |ordered|, g.edges, key)
    requires forall id :: id in g.nodes ==> Plain(g.nodes[id].kind)
    ensures Linked(g, kind, from, to, sequence)
  {
    var key := KeyOf(kind, from, to);
    var j :| 0 <= j < |ordered| && Links(session, ordered, j, kind, from, to) && ordered[j].sequence == sequence;
    LinkEndsNamed(session, ordered, j, kind, from, to);
    PlainNames(session, ordered, from);
    PlainNames(session, ordered, to);
    NamedHasNode(session, ordered, g, from);
    NamedHasNode(session, ordered, g, to);
    EdgeOfLink(session, ordered, g, kind, from, to, sequence);
  }

  lemma EdgeOfLink(session: string, ordered: seq<Event>, g: Graph, kind: EdgeKind, from: Name, to: Name, sequence: int)
    requires PlainKinds(ordered) && Plain(from.kind) && Plain(to.kind)
    requires FirstLinks(session, ordered, kind, from, to, sequence)
    requires EdgeCarries(session, ordered, |ordered|, g.edges, KeyOf(kind, from, to))
    ensures KeyOf(kind, from, to) in g.edges && g.edges[KeyOf(kind, from, to)] == sequence
  {
    forall j | 0 <= j < |ordered|
      ensures MentionsEdge(session, ordered, j, KeyOf(kind, from, to)) <==> Links(session, ordered, j, kind, from, to)
    {
      LinkIsMention(session, ordered, j, kind, from, to);
    }
  }

  // ---- metadata ----

  /** What the last event about x that brings a value brings; None when none does. */
  ghost predicate LastValue(ordered: seq<Event>, x: Name, secondary: bool, v: Option<string>) {
    if v.None? then forall e :: e in ordered && Subject(e) == x ==> Value(e, secondary).None?
    else exists j :: 0 <= j < |ordered| && Subject(ordered[j]) == x && Value(ordered[j], secondary) == v
                     && forall m :: j < m < |ordered| && Subject(ordered[m]) == x ==> Value(ordered[m], secondary).None?
  }

  function Value(e: Event, secondary: bool): Option<string> {
    match e.metadata
    case BadMetadata => None
    case Metadata(s, a) => if secondary then s else a
  }

  /** Every node has the values its own events bring last, each of the two by itself. */
  lemma MetadataByName(session: string, events: seq<Event>, id: NodeId)
    requires PlainKinds(events) && ProjectOf(session, events).Ok? && id in ProjectOf(session, events).value.nodes
    ensures var n := ProjectOf(session, events).value.nodes[id];
            && LastValue(OrderedCopy(events), NameOf(n), true, n.secondary)
            && LastValue(OrderedCopy(events), NameOf(n), false, n.access)
  {
    var ordered := OrderedCopy(events);
    var g := ProjectOf(session, events).value;
    NodesArePlain(session, events);
    ProjectionIsMentioned(session, events);
    ValueByName(ordered, g, id, true);
    ValueByName(ordered, g, id, false);
  }

  lemma ValueByName(ordered: seq<Event>, g: Graph, id: NodeId, secondary: bool)
    requires PlainKinds(ordered) && id in g.nodes && Plain(g.nodes[id].kind)
    requires id == NodeIdFor(g.nodes[id].kind, g.nodes[id].ref)
    requires LastBrings(ordered, |ordered|, id, secondary, MetadataOf(g.nodes, id, secondary))
    ensures LastValue(ordered, NameOf(g.nodes[id]), secondary, MetadataOf(g.nodes, id, secondary))
  {
    var x, v := NameOf(g.nodes[id]), MetadataOf(g.nodes, id, secondary);
    SubjectsByIdentity(ordered, x);
    assert forall i :: 0 <= i < |ordered| ==>
      Brings(ordered[i], id, secondary) == if Subject(ordered[i]) == x then Value(ordered[i], secondary) else None;
    if v.None? {
      forall e | e in ordered && Subject(e) == x ensures Value(e, secondary).None? {
        var i :| 0 <= i < |ordered| && ordered[i] == e;
        assert Brings(ordered[i], id, secondary).None?;
      }
    } else {
      var j :| 0 <= j < |ordered| && Brings(ordered[j], id, secondary) == v
               && forall m :: j < m < |ordered| ==> Brings(ordered[m], id, secondary).None?;
      assert Subject(ordered[j]) == x && Value(ordered[j], secondary) == v;
    }
  }
}
