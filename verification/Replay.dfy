/** One frame per event, and the live bridge that rebuilds the same frames as events arrive. */
module Replay {
  import opened Ordering
  import opened VisualSession

  datatype Frame<P> = Frame(index: nat, sequence: int, eventId: string, eventType: string, graph: Graph, placement: P)

  datatype FrameList<P> = FrameList(session: string, frames: seq<Frame<P>>)

  /** The frame of the n-th event: the projection of the events up to it, laid out. */
  function FrameOf<P>(session: string, ordered: seq<Event>, layout: Graph -> Option<P>, i: nat): Result<Frame<P>>
    requires i < |ordered|
  {
    match ProjectOf(session, ordered[..i + 1])
    case Err(e) => Err(e)
    case Ok(g) =>
      var placed := layout(g);
      if placed.None? then Err(NoLayout)
      else Ok(Frame(i, ordered[i].sequence, ordered[i].id, ordered[i].eventType, g, placed.value))
  }

  ghost predicate FirstFailure<P>(session: string, ordered: seq<Event>, layout: Graph -> Option<P>, i: nat,
                                  error: Error)
    requires i < |ordered|
  {
    && FrameOf(session, ordered, layout, i) == Err(error)
    && forall k :: 0 <= k < i ==> FrameOf(session, ordered, layout, k).Ok?
  }

  function FramesTo<P>(session: string, ordered: seq<Event>, layout: Graph -> Option<P>, n: nat)
    : (r: Result<seq<Frame<P>>>)
    requires n <= |ordered|
    ensures r.Ok? ==>
              |r.value| == n && forall i :: 0 <= i < n ==> FrameOf(session, ordered, layout, i) == Ok(r.value[i])
  {
    if n == 0 then Ok([])
    else
      var earlier := FramesTo(session, ordered, layout, n - 1);
      if earlier.Err? then earlier
      else
        var frame := FrameOf(session, ordered, layout, n - 1);
        if frame.Err? then Err(frame.error) else Ok(earlier.value + [frame.value])
  }

  lemma {:induction false} FirstFailureOf<P>(session: string, ordered: seq<Event>, layout: Graph -> Option<P>, n: nat)
    requires n <= |ordered| && FramesTo(session, ordered, layout, n).Err?
    ensures exists i :: 0 <= i < n && FirstFailure(session, ordered, layout, i,
                                                   FramesTo(session, ordered, layout, n).error)
  {
    if FramesTo(session, ordered, layout, n - 1).Err? {
      FirstFailureOf(session, ordered, layout, n - 1);
    } else {
      assert FirstFailure(session, ordered, layout, n - 1, FrameOf(session, ordered, layout, n - 1).error);
    }
  }

  function BuildOf<P>(session: string, events: seq<Event>, layout: Graph -> Option<P>): Result<FrameList<P>> {
    if session == "" then Err(Invalid)
    else if events == [] then Err(Empty)
    else
      var ordered := OrderedCopy(events);
      var frames := FramesTo(session, ordered, layout, |ordered|);
      if frames.Err? then Err(frames.error) else Ok(FrameList(session, frames.value))
  }

  method FrameAt<P>(session: string, ordered: seq<Event>, layout: Graph -> Option<P>, i: nat)
    returns (r: Result<Frame<P>>)
    requires i < |ordered|
    ensures r == FrameOf(session, ordered, layout, i)
  {
    var graph := Project(session, ordered[..i + 1]);
    if graph.Err? {
      return Err(graph.error);
    }
    var placed := layout(graph.value);
    if placed.None? {
      return Err(NoLayout);
    }
    var e := ordered[i];
    return Ok(Frame(i, e.sequence, e.id, e.eventType, graph.value, placed.value));
  }

  /** The frames so far and one more, or the error that ends the whole list. */
  method NextFrames<P>(session: string, ordered: seq<Event>, layout: Graph -> Option<P>, i: nat, frames: seq<Frame<P>>)
    returns (r: Result<seq<Frame<P>>>)
    requires i < |ordered| && FramesTo(session, ordered, layout, i) == Ok(frames)
    ensures r == FramesTo(session, ordered, layout, if r.Ok? then i + 1 else |ordered|)
  {
    var frame := FrameAt(session, ordered, layout, i);
    if frame.Err? {
      FailedFrame(session, ordered, layout, i, |ordered|);
      return Err(frame.error);
    }
    return Ok(frames + [frame.value]);
  }

  method BuildFrames<P>(session: string, ordered: seq<Event>, layout: Graph -> Option<P>)
    returns (r: Result<seq<Frame<P>>>)
    ensures r == FramesTo(session, ordered, layout, |ordered|)
  {
    r := Ok([]);
    for i := 0 to |ordered|
      invariant r.Ok? && r == FramesTo(session, ordered, layout, i)
    {
      r := NextFrames(session, ordered, layout, i, r.value);
      if r.Err? {
        return;
      }
    }
  }

  method Build<P>(session: string, events: seq<Event>, layout: Graph -> Option<P>) returns (r: Result<FrameList<P>>)
    ensures r == BuildOf(session, events, layout)
  {
    if session == "" {
      return Err(Invalid);
    }
    if |events| == 0 {
      return Err(Empty);
    }
    var frames := BuildFrames(session, OrderedCopy(events), layout);
    if frames.Err? {
      return Err(frames.error);
    }
    return Ok(FrameList(session, frames.value));
  }

  /** The projection of the events up to one of them, if it can be projected and laid out. */
  ghost predicate StageFits<P>(session: string, ordered: seq<Event>, layout: Graph -> Option<P>, i: nat)
    requires i < |ordered|
  {
    ProjectOf(session, ordered[..i + 1]).Ok? && layout(ProjectOf(session, ordered[..i + 1]).value).Some?
  }

  /** A frame: the event's own number, sequence, identifier and type, that projection and its layout. */
  ghost predicate FrameFits<P>(session: string, ordered: seq<Event>, layout: Graph -> Option<P>, i: nat, x: Frame<P>)
    requires i < |ordered|
  {
    && x.index == i && x.sequence == ordered[i].sequence
    && x.eventId == ordered[i].id && x.eventType == ordered[i].eventType
    && ProjectOf(session, ordered[..i + 1]) == Ok(x.graph) && layout(x.graph) == Some(x.placement)
  }

  ghost predicate StageFails<P>(session: string, ordered: seq<Event>, layout: Graph -> Option<P>, i: nat, error: Error)
    requires i < |ordered|
  {
    match ProjectOf(session, ordered[..i + 1])
    case Err(e) => error == e
    case Ok(g) => layout(g).None? && error == NoLayout
  }

  lemma FrameAnswers<P>(session: string, ordered: seq<Event>, layout: Graph -> Option<P>, i: nat)
    requires i < |ordered|
    ensures var r := FrameOf(session, ordered, layout, i);
            && (r.Ok? <==> StageFits(session, ordered, layout, i))
            && (r.Ok? ==> FrameFits(session, ordered, layout, i, r.value))
            && (r.Err? ==> StageFails(session, ordered, layout, i, r.error))
  {
  }

  /** A built list has one such frame for each event in sequence order. */
  lemma FramesAnswer<P>(session: string, events: seq<Event>, layout: Graph -> Option<P>, list: FrameList<P>)
    requires BuildOf(session, events, layout) == Ok(list)
    ensures session != "" && events != [] && list.session == session
    ensures var ordered := OrderedCopy(events);
            && |list.frames| == |ordered| == |events|
            && forall i :: 0 <= i < |ordered| ==> FrameFits(session, ordered, layout, i, list.frames[i])
  {
    OrderedCopySorts(events);
    assert |multiset(OrderedCopy(events))| == |multiset(events)|;
    var ordered := OrderedCopy(events);
    forall i | 0 <= i < |ordered| ensures FrameFits(session, ordered, layout, i, list.frames[i]) {
      FrameAnswers(session, ordered, layout, i);
    }
  }

  /** Why no list is built: no session, no events, or the first stage that cannot be projected or laid out. */
  lemma BuildFails<P>(session: string, events: seq<Event>, layout: Graph -> Option<P>)
    requires BuildOf(session, events, layout).Err?
    ensures var error := BuildOf(session, events, layout).error;
            && (session == "" ==> error == Invalid)
            && (session != "" && events == [] ==> error == Empty)
            && (session != "" && events != [] ==> FailsSomewhere(session, OrderedCopy(events), layout, error))
  {
    if session != "" && events != [] {
      var ordered := OrderedCopy(events);
      FirstFailureOf(session, ordered, layout, |ordered|);
      FramesFail(session, ordered, layout, FramesTo(session, ordered, layout, |ordered|).error);
    }
  }

  ghost predicate FailsSomewhere<P>(session: string, ordered: seq<Event>, layout: Graph -> Option<P>, error: Error) {
    exists i :: && 0 <= i < |ordered| && StageFails(session, ordered, layout, i, error)
                && forall k :: 0 <= k < i ==> StageFits(session, ordered, layout, k)
  }

  lemma FramesFail<P>(session: string, ordered: seq<Event>, layout: Graph -> Option<P>, error: Error)
    requires exists i :: 0 <= i < |ordered| && FirstFailure(session, ordered, layout, i, error)
    ensures FailsSomewhere(session, ordered, layout, error)
  {
    var i :| 0 <= i < |ordered| && FirstFailure(session, ordered, layout, i, error);
    FrameAnswers(session, ordered, layout, i);
    forall k | 0 <= k < i ensures StageFits(session, ordered, layout, k) {
      FrameAnswers(session, ordered, layout, k);
    }
  }

  /** A frame that cannot be built is not in any list. */
  lemma FramesStop<P>(session: string, ordered: seq<Event>, layout: Graph -> Option<P>, i: nat, n: nat)
    requires i < n <= |ordered| && FrameOf(session, ordered, layout, i).Err?
    ensures FramesTo(session, ordered, layout, n).Err?
  {
  }

  /** The first frame that cannot be built decides the error. */
  lemma FailedFrame<P>(session: string, ordered: seq<Event>, layout: Graph -> Option<P>, i: nat, n: nat)
    requires i < n <= |ordered| && FramesTo(session, ordered, layout, i).Ok?
    requires FrameOf(session, ordered, layout, i).Err?
    ensures FramesTo(session, ordered, layout, n) == Err(FrameOf(session, ordered, layout, i).error)
  {
    var r := FramesTo(session, ordered, layout, n);
    FramesStop(session, ordered, layout, i, n);
    FirstFailureOf(session, ordered, layout, n);
    var k :| 0 <= k < n && FirstFailure(session, ordered, layout, k, r.error);
    assert k == i;
  }

  // ---- frames of one list agree with one another ----

  lemma InOrderPrefix(ordered: seq<Event>, n: nat)
    requires InOrder(ordered) && n <= |ordered|
    ensures InOrder(ordered[..n])
  {
  }

  lemma {:induction false} ReachesOfPrefix(session: string, ordered: seq<Event>, m: nat, n: nat, f: Fold)
    requires 0 < m <= |ordered| && n <= m && Reaches(session, ordered[..m], n, f)
    ensures Reaches(session, ordered, n, f)
  {
    if n > 0 {
      var e := ordered[..m][n - 1];
      var before :| Advances(session, before, e, f) && Reaches(session, ordered[..m], n - 1, before);
      ReachesOfPrefix(session, ordered, m, n - 1, before);
    }
  }

  /** A frame of the i-th event: its graph is a stage of the one fold over all the events. */
  ghost predicate IsStage<P>(session: string, ordered: seq<Event>, i: nat, frame: Frame<P>)
    requires i < |ordered|
  {
    && frame.index == i && frame.sequence == ordered[i].sequence && frame.graph.session == session
    && exists f :: Reaches(session, ordered, i + 1, f) && frame.graph.nodes == f.nodes && frame.graph.edges == f.edges
  }

  lemma FrameIsStage<P>(session: string, ordered: seq<Event>, layout: Graph -> Option<P>, i: nat, frame: Frame<P>)
    requires InOrder(ordered) && i < |ordered| && FrameOf(session, ordered, layout, i) == Ok(frame)
    ensures IsStage(session, ordered, i, frame) && layout(frame.graph) == Some(frame.placement)
  {
    var prefix := ordered[..i + 1];
    InOrderPrefix(ordered, i + 1);
    OrderedCopyOfSorted(prefix);
    var f := ProjectionReaches(session, prefix, frame.graph);
    ReachesOfPrefix(session, ordered, i + 1, i + 1, f);
  }

  /** Everything in g is in h, with the same identity and the same sequence. */
  ghost predicate Within(g: Graph, h: Graph) {
    && (forall id :: id in g.nodes ==> id in h.nodes && h.nodes[id].sequence == g.nodes[id].sequence)
    && (forall key :: key in g.edges ==> key in h.edges && h.edges[key] == g.edges[key])
  }

  lemma NodeStays(session: string, ordered: seq<Event>, m: nat, n: nat, a: Nodes, b: Nodes, id: NodeId)
    requires ordered != [] && m <= n <= |ordered| && InOrder(ordered) && id in a
    requires NodeCarries(session, ordered, m, a, id) && NodeCarries(session, ordered, n, b, id)
    ensures id in b && b[id].sequence == a[id].sequence
  {
    if id != NodeIdFor(SESSION, session) {
      var i :| 0 <= i < m && MentionsNode(ordered[i], id) && a[id].sequence == ordered[i].sequence;
      var j :| 0 <= j < n && MentionsNode(ordered[j], id) && b[id].sequence == ordered[j].sequence;
      if j >= m {
        assert ordered[i].sequence <= ordered[j].sequence;
      }
    }
  }

  lemma EdgeStays(session: string, ordered: seq<Event>, m: nat, n: nat, a: Edges, b: Edges, key: EdgeKey)
    requires m <= n <= |ordered| && InOrder(ordered) && key in a
    requires EdgeCarries(session, ordered, m, a, key) && EdgeCarries(session, ordered, n, b, key)
    ensures key in b && b[key] == a[key]
  {
    var i :| 0 <= i < m && MentionsEdge(session, ordered, i, key) && a[key] == ordered[i].sequence;
    var j :| 0 <= j < n && MentionsEdge(session, ordered, j, key) && b[key] == ordered[j].sequence;
    if j >= m {
      assert ordered[i].sequence <= ordered[j].sequence;
    }
  }

  lemma FoldsGrow(session: string, ordered: seq<Event>, m: nat, n: nat, f: Fold, g: Fold)
    requires ordered != [] && m <= n <= |ordered| && InOrder(ordered)
    requires Reaches(session, ordered, m, f) && Reaches(session, ordered, n, g)
    ensures Within(Graph(session, f.nodes, f.edges), Graph(session, g.nodes, g.edges))
  {
    forall id | id in f.nodes ensures id in g.nodes && g.nodes[id].sequence == f.nodes[id].sequence {
      FoldNodes(session, ordered, m, f, id);
      FoldNodes(session, ordered, n, g, id);
      NodeStays(session, ordered, m, n, f.nodes, g.nodes, id);
    }
    forall key | key in f.edges ensures key in g.edges && g.edges[key] == f.edges[key] {
      FoldEdges(session, ordered, m, f, key);
      FoldEdges(session, ordered, n, g, key);
      EdgeStays(session, ordered, m, n, f.edges, g.edges, key);
    }
  }

  lemma StagesGrow<P>(session: string, ordered: seq<Event>, i: nat, j: nat, a: Frame<P>, b: Frame<P>)
    requires i <= j < |ordered| && InOrder(ordered)
    requires IsStage(session, ordered, i, a) && IsStage(session, ordered, j, b)
    ensures a.sequence <= b.sequence && Within(a.graph, b.graph)
  {
    var f :| Reaches(session, ordered, i + 1, f) && a.graph.nodes == f.nodes && a.graph.edges == f.edges;
    var g :| Reaches(session, ordered, j + 1, g) && b.graph.nodes == g.nodes && b.graph.edges == g.edges;
    FoldsGrow(session, ordered, i + 1, j + 1, f, g);
  }

  lemma FramesAreStages<P>(session: string, events: seq<Event>, layout: Graph -> Option<P>, list: FrameList<P>)
    requires BuildOf(session, events, layout) == Ok(list)
    ensures |list.frames| == |events| == |OrderedCopy(events)| > 0
    ensures forall i :: 0 <= i < |list.frames| ==>
              IsStage(session, OrderedCopy(events), i, list.frames[i])
              && layout(list.frames[i].graph) == Some(list.frames[i].placement)
  {
    var ordered := OrderedCopy(events);
    OrderedCopySorts(events);
    forall i | 0 <= i < |list.frames|
      ensures IsStage(session, ordered, i, list.frames[i])
          && layout(list.frames[i].graph) == Some(list.frames[i].placement)
    {
      FrameIsStage(session, ordered, layout, i, list.frames[i]);
    }
  }

  lemma LastFrameIsProjection<P>(session: string, events: seq<Event>, layout: Graph -> Option<P>, list: FrameList<P>)
    requires BuildOf(session, events, layout) == Ok(list) && list.frames != []
    ensures ProjectOf(session, events) == Ok(list.frames[|list.frames| - 1].graph)
  {
    var ordered := OrderedCopy(events);
    ProjectionOfOrdered(session, events);
    assert FrameOf(session, ordered, layout, |ordered| - 1) == Ok(list.frames[|ordered| - 1]);
    assert ordered[..|ordered|] == ordered;
  }

  /** A built list has one frame for each event, in sequence order; each frame is contained in every
      later one, and the last one is the projection of all the events. */
  lemma FramesGrow<P>(session: string, events: seq<Event>, layout: Graph -> Option<P>, list: FrameList<P>)
    requires BuildOf(session, events, layout) == Ok(list)
    ensures |list.frames| == |events| > 0
    ensures forall i :: 0 <= i < |list.frames| ==>
              list.frames[i].index == i && layout(list.frames[i].graph) == Some(list.frames[i].placement)
    ensures forall i, j :: 0 <= i <= j < |list.frames| ==>
              list.frames[i].sequence <= list.frames[j].sequence && Within(list.frames[i].graph, list.frames[j].graph)
    ensures ProjectOf(session, events) == Ok(list.frames[|list.frames| - 1].graph)
  {
    var ordered := OrderedCopy(events);
    OrderedCopySorts(events);
    FramesAreStages(session, events, layout, list);
    forall i, j | 0 <= i <= j < |list.frames|
      ensures list.frames[i].sequence <= list.frames[j].sequence && Within(list.frames[i].graph, list.frames[j].graph)
    {
      StagesGrow(session, ordered, i, j, list.frames[i], list.frames[j]);
    }
    LastFrameIsProjection(session, events, layout, list);
  }

  /** The order events arrive in does not show in the graph or in any frame. */
  lemma ArrivalLeavesNoTrace<P>(session: string, a: seq<Event>, b: seq<Event>, layout: Graph -> Option<P>)
    requires multiset(a) == multiset(b) && SequencesDecide(a)
    ensures ProjectOf(session, a) == ProjectOf(session, b) && BuildOf(session, a, layout) == BuildOf(session, b, layout)
  {
    SameMultisetSameElements(a, b);
    ArrivalOrderIrrelevant(a, b);
  }

  // ---- the live bridge ----

  /** What consuming a subscription one event at a time keeps: all before the first invalid one. */
  function Taken(events: seq<Event>, valid: Event -> bool): (r: seq<Event>)
    ensures r <= events && forall e :: e in r ==> valid(e)
    ensures |r| < |events| ==> !valid(events[|r|])
  {
    if events == [] || !valid(events[0]) then [] else [events[0]] + Taken(events[1..], valid)
  }

  lemma {:induction false} TakenIs(events: seq<Event>, n: nat, valid: Event -> bool)
    requires n <= |events| && forall i :: 0 <= i < n ==> valid(events[i])
    requires n < |events| ==> !valid(events[n])
    ensures Taken(events, valid) == events[..n]
  {
    if n > 0 {
      TakenIs(events[1..], n - 1, valid);
      assert events[..n] == [events[0]] + events[1..][..n - 1];
    }
  }

  class Bridge<P> {
    const session: string
    const valid: Event -> bool
    const layout: Graph -> Option<P>
    var events: seq<Event>
    var frames: FrameList<P>
    var built: bool

    /** The cached list is the one the accumulated events give. */
    ghost predicate Valid()
      reads this
    {
      session != "" && (built ==> BuildOf(session, events, layout) == Ok(frames))
    }

    constructor (session: string, valid: Event -> bool, layout: Graph -> Option<P>)
      requires session != ""
      ensures Valid() && events == []
      ensures this.session == session && this.valid == valid && this.layout == layout
    {
      this.session := session;
      this.valid := valid;
      this.layout := layout;
      events := [];
      frames := FrameList(session, []);
      built := false;
    }

    method Apply(batch: seq<Event>) returns (ok: bool)
      requires Valid()
      modifies this
      ensures Valid()
      ensures ok <==> forall e :: e in batch ==> valid(e)
      ensures events == if ok then old(events) + batch else old(events)
    {
      for i := 0 to |batch|
        invariant Valid() && events == old(events)
        invariant forall j :: 0 <= j < i ==> valid(batch[j])
      {
        if !valid(batch[i]) {
          return false;
        }
      }
      events := events + batch;
      built := false;
      ok := true;
    }

    method Frames() returns (r: Result<FrameList<P>>)
      requires Valid()
      modifies this
      ensures Valid() && events == old(events)
      ensures r == BuildOf(session, events, layout)
    {
      if !built {
        var list := Build(session, events, layout);
        if list.Err? {
          return list;
        }
        frames := list.value;
        built := true;
      }
      return Ok(frames);
    }

    method ApplyOne(e: Event) returns (ok: bool)
      requires Valid()
      modifies this
      ensures Valid() && ok == valid(e)
      ensures events == if ok then old(events) + [e] else old(events)
    {
      assert [e][0] in [e];
      ok := Apply([e]);
    }

    /** Reads a subscription to its end, or to the first event that does not validate. */
    method Consume(received: seq<Event>) returns (ok: bool)
      requires Valid()
      modifies this
      ensures Valid() && events == old(events) + Taken(received, valid)
      ensures ok <==> Taken(received, valid) == received
    {
      var i := 0;
      ok := true;
      while i < |received| && ok
        invariant 0 <= i <= |received| && Valid()
        invariant events == old(events) + received[..i] && forall j :: 0 <= j < i ==> valid(received[j])
        invariant !ok ==> i < |received| && !valid(received[i])
        decreases |received| - i, ok
      {
        ok := ApplyOne(received[i]);
        if ok {
          assert received[..i + 1] == received[..i] + [received[i]];
          i := i + 1;
        }
      }
      TakenIs(received, i, valid);
    }
  }

  /** What can happen to a bridge: a batch is applied, a subscription is read, its frames are asked for. */
  datatype Arrival = Batch(batch: seq<Event>) | Stream(received: seq<Event>) | Shown

  /** The events one arrival adds. */
  function Added(a: Arrival, valid: Event -> bool): seq<Event> {
    match a
    case Batch(batch) => if forall e :: e in batch ==> valid(e) then batch else []
    case Stream(received) => Taken(received, valid)
    case Shown => []
  }

  function Gathered(arrivals: seq<Arrival>, n: nat, valid: Event -> bool): seq<Event>
    requires n <= |arrivals|
  {
    if n == 0 then [] else Gathered(arrivals, n - 1, valid) + Added(arrivals[n - 1], valid)
  }

  /** One arrival at a bridge. */
  method Arrive<P>(bridge: Bridge<P>, a: Arrival)
    requires bridge.Valid()
    modifies bridge
    ensures bridge.Valid() && bridge.events == old(bridge.events) + Added(a, bridge.valid)
  {
    match a {
      case Batch(batch) => var _ := bridge.Apply(batch);
      case Stream(received) => var _ := bridge.Consume(received);
      case Shown => var _ := bridge.Frames();
    }
  }

  /** A bridge after some arrivals. */
  method Follow<P>(session: string, valid: Event -> bool, layout: Graph -> Option<P>, arrivals: seq<Arrival>)
    returns (bridge: Bridge<P>)
    requires session != ""
    ensures fresh(bridge) && bridge.Valid() && bridge.events == Gathered(arrivals, |arrivals|, valid)
    ensures bridge.session == session && bridge.layout == layout
  {
    bridge := new Bridge<P>(session, valid, layout);
    for i := 0 to |arrivals|
      invariant fresh(bridge) && bridge.Valid() && bridge.events == Gathered(arrivals, i, valid)
    {
      Arrive(bridge, arrivals[i]);
    }
  }

  /** Following a session live and replaying its journal give the same frames: whatever the order in
      which the events reach a bridge, however they are divided into batches and streams, and whenever
      its frames were asked for before, it shows what one build over the journal shows. */
  method LiveIsReplay<P>(session: string, valid: Event -> bool, layout: Graph -> Option<P>, arrivals: seq<Arrival>,
                         journal: seq<Event>)
    returns (live: Result<FrameList<P>>)
    requires session != "" && SequencesDecide(journal)
    requires multiset(Gathered(arrivals, |arrivals|, valid)) == multiset(journal)
    ensures live == BuildOf(session, journal, layout)
  {
    var bridge := Follow(session, valid, layout, arrivals);
    ArrivalLeavesNoTrace(session, journal, bridge.events, layout);
    live := bridge.Frames();
  }
}
