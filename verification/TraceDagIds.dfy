/** The trace graph as the program keeps it, its nodes known by the texts of their ids. */
module TraceDagIds {
  import opened Options
  import opened Text
  import opened TraceDag

  // ---------------------------------------------------------------- texts of ids

  lemma InnerDiffers(a: NodeId, b: NodeId)
    requires RunOf(a).Some? && RunOf(b).Some?
    requires Inner(a) == Inner(b) && a.run == b.run
    ensures a == b
  {
    if a.Start? || b.Start? {
      StartHasNoColon(a);
      StartHasNoColon(b);
    } else {
      var (ta, ra) := InnerParts(a);
      var (tb, rb) := InnerParts(b);
      SplitAtFirst(':', ta, ra, tb, rb);
      if !a.Tool? {
        assert ta == "event" && tb == "event";
        DigitsHaveNoColon(a.eventSeq);
        DigitsHaveNoColon(b.eventSeq);
        SplitAtFirst(':', Digits(a.eventSeq), if a.Context? then "context" else "terminal",
                     Digits(b.eventSeq), if b.Context? then "context" else "terminal");
        DigitsDiffer(a.eventSeq, b.eventSeq);
      }
    }
  }

  lemma StartHasNoColon(a: NodeId)
    requires RunOf(a).Some?
    ensures ':' in Inner(a) <==> !a.Start?
  {
  }

  function InnerParts(id: NodeId): (r: (string, string))
    requires id.Context? || id.Terminal? || id.Tool?
    ensures Inner(id) == r.0 + ":" + r.1 && ':' !in r.0
  {
    match id
    case Context(_, n) => ("event", Digits(n) + ":" + "context")
    case Terminal(_, n) => ("event", Digits(n) + ":" + "terminal")
    case Tool(_, call) => ("tool", call)
  }

  /** The first run's id goes on where the second's tool call begins, and the call ends as the first node's id does. */
  ghost predicate Clash(a: NodeId, b: NodeId) {
    RunOf(a).Some? && b.Tool? && exists tail :: ClashAt(a.run, Inner(a), b.run, b.call, tail)
  }

  predicate ClashAt(run: string, part: string, run': string, call: string, tail: string) {
    run == run' + (":tool" + tail) && tail + ":" + part == ":" + call
  }

  /** A colon in two joined texts is the joint or one of the second text. */
  lemma ColonOfJoined(a: string, b: string, k: nat)
    requires ':' !in a && k < |a + ":" + b| && (a + ":" + b)[k] == ':'
    ensures var end := (a + ":" + b)[k + 1..];
            (k == |a| && end == b) || (k > |a| && b[k - |a| - 1] == ':' && end == b[k - |a|..])
  {
    assert forall i :: 0 <= i < |a| ==> (a + ":" + b)[i] == a[i];
  }

  lemma StartsWith(a: NodeId)
    requires RunOf(a).Some?
    ensures Inner(a) != "" && Inner(a)[0] in "set" && Inner(a) != "context" && Inner(a) != "terminal"
  {
  }

  /** What follows a colon of an event's part: its number, or its last word. */
  lemma EventPartEnds(n: nat, last: string, k: nat)
    requires ':' !in last
    requires var part := "event" + ":" + (Digits(n) + ":" + last); k < |part| && part[k] == ':'
    ensures var end := ("event" + ":" + (Digits(n) + ":" + last))[k + 1..];
            end == last || (end != "" && '0' <= end[0] <= '9')
  {
    DigitsHaveNoColon(n);
    ColonOfJoined("event", Digits(n) + ":" + last, k);
    if k > 5 { ColonOfJoined(Digits(n), last, k - 6); }
  }

  /** Where a node's own part goes on after a colon in another node's part, that other node is a tool call. */
  lemma OnlyCallsEndLikeNodes(a: NodeId, b: NodeId, k: nat)
    requires RunOf(a).Some? && RunOf(b).Some? && k < |Inner(b)|
    requires Inner(b)[k] == ':' && Inner(b)[k + 1..] == Inner(a)
    ensures b.Tool? && k >= 4
  {
    StartHasNoColon(b);
    StartsWith(a);
    if b.Tool? {
      ColonOfJoined("tool", b.call, k);
    } else {
      EventPartEnds(b.eventSeq, if b.Context? then "context" else "terminal", k);
    }
  }

  /** What the longer of two beginnings has more ends at a colon of the other's part. */
  lemma LongerBeginning(run: string, part: string, run': string, part': string)
    requires |run| > |run'| && run + ":" + part == run' + ":" + part'
    ensures var more, k := run[|run'|..], |run| - |run'| - 1;
            && run == run' + more && more + ":" + part == ":" + part'
            && k < |part'| && part'[k] == ':' && part'[k + 1..] == part
  {
    var whole, n := run + ":" + part, |run'|;
    assert whole[..n] == run' && whole[..n] == run[..n];
    assert run[n..] + ":" + part == whole[n..] && ":" + part' == whole[n..];
    assert part' == whole[n + 1..] && whole[|run|] == ':' && whole[|run| + 1..] == part;
  }

  lemma CutAt(more: string, part: string, call: string)
    requires |more| >= 5 && more + ":" + part == ":" + ("tool" + ":" + call)
    ensures more == ":tool" + more[5..] && more[5..] + ":" + part == ":" + call
  {
    var whole := more + ":" + part;
    assert whole[..5] == more[..5] && (":" + ("tool" + ":" + call))[..5] == ":tool";
    assert more[5..] + ":" + part == whole[5..] && (":" + ("tool" + ":" + call))[5..] == ":" + call;
    assert more == more[..5] + more[5..];
  }

  lemma LongerTextClashes(run: string, part: string, run': string, call: string)
    requires |run| >= |run'| + 5 && run + ":" + part == run' + ":" + ("tool" + ":" + call)
    ensures exists tail :: ClashAt(run, part, run', call, tail)
  {
    var more := run[|run'|..];
    LongerBeginning(run, part, run', "tool" + ":" + call);
    CutAt(more, part, call);
    assert ClashAt(run, part, run', call, more[5..]);
  }

  /** Two nodes of runs carry the same id, the first run's id being the longer: they clash. */
  lemma LongerRunClashes(a: NodeId, b: NodeId)
    requires RunOf(a).Some? && RunOf(b).Some? && |a.run| > |b.run|
    requires a.run + ":" + Inner(a) == b.run + ":" + Inner(b)
    ensures Clash(a, b)
  {
    LongerBeginning(a.run, Inner(a), b.run, Inner(b));
    OnlyCallsEndLikeNodes(a, b, |a.run| - |b.run| - 1);
    LongerTextClashes(a.run, Inner(a), b.run, b.call);
    hide ClashAt, Inner;
  }

  lemma ClashingIdsAgree(a: NodeId, b: NodeId)
    requires Clash(a, b)
    ensures Print(a) == Print(b) && a != b
  {
    var tail :| ClashAt(a.run, Inner(a), b.run, b.call, tail);
    ClashingText(a.run, Inner(a), b.run, b.call, tail);
  }

  lemma ClashingText(run: string, part: string, run': string, call: string, tail: string)
    requires ClashAt(run, part, run', call, tail)
    ensures run + ":" + part == run' + ":" + ("tool" + ":" + call) && run != run'
  {
    assert run + ":" + part == run' + ":tool" + (tail + ":" + part);
    assert run' + ":" + ("tool" + ":" + call) == run' + ":tool" + (":" + call);
  }

  /** Two nodes carry the same id exactly when they are the same node or clash. */
  lemma PrintedIdsDiffer(a: NodeId, b: NodeId)
    requires !a.Named? && !b.Named?
    ensures Print(a) == Print(b) <==> a == b || Clash(a, b) || Clash(b, a)
  {
    hide Clash;
    if Clash(a, b) { ClashingIdsAgree(a, b); }
    if Clash(b, a) { ClashingIdsAgree(b, a); }
    if Print(a) == Print(b) {
      SplitAtFirst(':', Tag(a), Rest(a), Tag(b), Rest(b));
      if RunOf(a).Some? {
        hide Inner, Print;
        if |a.run| > |b.run| {
          LongerRunClashes(a, b);
        } else if |b.run| > |a.run| {
          LongerRunClashes(b, a);
        } else {
          SameRunSameNode(a, b);
        }
      }
    }
  }

  lemma SameRunSameNode(a: NodeId, b: NodeId)
    requires RunOf(a).Some? && RunOf(b).Some? && |a.run| == |b.run|
    requires a.run + ":" + Inner(a) == b.run + ":" + Inner(b)
    ensures a == b
  {
    var whole, n := a.run + ":" + Inner(a), |a.run|;
    assert whole[..n] == a.run && whole[..n] == b.run;
    assert whole[n + 1..] == Inner(a) && whole[n + 1..] == Inner(b);
    InnerDiffers(a, b);
  }

  // ---------------------------------------------------------------- the two graphs

  /** The nodes a graph may hold: those of visible runs are the expected ones. */
  ghost predicate Belongs(input: Input, id: NodeId) {
    match RunOf(id)
    case None => !id.Named?
    case Some(run) => run in VisibleRunIds(input) && Expected(run, EventsOf(input, run), id)
  }

  /** No node of a visible run clashes with a tool call of another. */
  ghost predicate NoClashes(input: Input) {
    forall a, b :: Belongs(input, a) && Belongs(input, b) ==> !Clash(a, b)
  }

  function ById(id: NodeId): NodeId { Key(ByText, id) }

  function PrintAll(order: seq<NodeId>): seq<NodeId> { seq(|order|, i requires 0 <= i < |order| => ById(order[i])) }

  function PrintEdge(e: Edge): Edge { Edge(ById(e.source), ById(e.target), e.kind) }

  ghost predicate PrintedEdges(edges: seq<Edge>, texts: seq<Edge>) {
    |texts| == |edges| && forall i :: 0 <= i < |edges| ==> texts[i] == PrintEdge(edges[i])
  }

  ghost predicate PrintedInfo(info: map<NodeId, Node>, texts: map<NodeId, Node>) {
    forall id :: id in info ==> ById(id) in texts && texts[ById(id)] == info[id]
  }

  ghost predicate PrintedPoints(points: map<string, NodeId>, texts: map<string, NodeId>) {
    texts.Keys == points.Keys && forall c :: c in points ==> texts[c] == ById(points[c])
  }

  /** `t` is `g` with every node under the text of its id. */
  ghost predicate Printed(g: Graph, t: Graph) {
    && g.keying.ByNode? && t.keying.ByText?
    && t.order == PrintAll(g.order) && PrintedEdges(g.edges, t.edges)
    && PrintedInfo(g.info, t.info) && PrintedPoints(g.checkpointNode, t.checkpointNode)
  }

  /** Nodes that belong are told apart by their texts. */
  ghost predicate Apart(input: Input) {
    forall a, b :: Belongs(input, a) && Belongs(input, b) && ById(a) == ById(b) ==> a == b
  }

  lemma NoClashesApart(input: Input)
    ensures NoClashes(input) <==> Apart(input)
  {
    hide Belongs, Clash, Print;
    if NoClashes(input) {
      forall a, b | Belongs(input, a) && Belongs(input, b) && ById(a) == ById(b) ensures a == b {
        BelongsHasText(input, a);
        BelongsHasText(input, b);
        PrintedIdsDiffer(a, b);
      }
    }
    if Apart(input) {
      forall a, b | Belongs(input, a) && Belongs(input, b) ensures !Clash(a, b) {
        if Clash(a, b) { ClashingIdsAgree(a, b); }
      }
    }
  }

  lemma BelongsHasText(input: Input, id: NodeId)
    requires Belongs(input, id)
    ensures !id.Named?
  {
  }

  /** Only nodes that belong are in the graph. */
  ghost predicate Owned(input: Input, g: Graph) {
    && (forall id :: id in g.order <==> id in g.info)
    && (forall id :: id in g.order ==> Belongs(input, id))
    && (forall e :: e in g.edges ==> Belongs(input, e.source) && Belongs(input, e.target))
    && (forall c :: c in g.checkpointNode ==> Belongs(input, g.checkpointNode[c]))
  }

  ghost predicate Twin(input: Input, g: Graph, t: Graph) {
    Owned(input, g) && Printed(g, t) && Listing(t)
  }

  ghost predicate Listing(t: Graph) { forall key :: key in t.info ==> key in t.order }

  lemma KnownTwin(input: Input, g: Graph, t: Graph, id: NodeId)
    requires Apart(input) && Twin(input, g, t) && Belongs(input, id)
    ensures id in g.info <==> ById(id) in t.info
  {
    hide Belongs, ById;
    if ById(id) in t.info {
      var i :| 0 <= i < |t.order| && t.order[i] == ById(id);
      assert g.order[i] in g.order && ById(g.order[i]) == ById(id);
    }
  }

  /** Storing a node under a key, with the checkpoint that points to it. */
  function Put(g: Graph, key: NodeId, value: Node, point: Option<Checkpoint>): Graph {
    g.(order := if key in g.info then g.order else g.order + [key],
       info := g.info[key := if point.Some? then value.(checkpoint := Some(point.value.id)) else value],
       checkpointNode := if point.Some? then g.checkpointNode[point.value.id := key] else g.checkpointNode)
  }

  lemma AddNodeIsPut(g: Graph, checkpoints: seq<Checkpoint>, id: NodeId, node: Node)
    ensures var key := Key(g.keying, id);
            var next := if key in g.info then Merged(g.info[key], node) else node;
            AddNode(g, checkpoints, id, node) == Put(g, key, next, ResolveCheckpoint(checkpoints, id, next))
  {
  }

  lemma PutOwned(input: Input, g: Graph, id: NodeId, value: Node, point: Option<Checkpoint>)
    requires Owned(input, g) && Belongs(input, id)
    ensures Owned(input, Put(g, id, value, point))
  {
    hide Belongs;
  }

  lemma PutInfo(input: Input, info: map<NodeId, Node>, texts: map<NodeId, Node>, id: NodeId, value: Node)
    requires Apart(input) && PrintedInfo(info, texts) && Belongs(input, id) && forall x :: x in info ==> Belongs(input, x)
    ensures PrintedInfo(info[id := value], texts[ById(id) := value])
  {
    hide Belongs, ById;
  }

  lemma PutPoint(points: map<string, NodeId>, texts: map<string, NodeId>, c: string, id: NodeId)
    requires PrintedPoints(points, texts)
    ensures PrintedPoints(points[c := id], texts[c := ById(id)])
  {
    hide ById;
  }

  lemma PrintMore(order: seq<NodeId>, id: NodeId)
    ensures PrintAll(order + [id]) == PrintAll(order) + [ById(id)]
  {
    hide ById;
  }

  lemma PutTwin(input: Input, g: Graph, t: Graph, id: NodeId, value: Node, point: Option<Checkpoint>)
    requires Apart(input) && Twin(input, g, t) && Belongs(input, id)
    ensures Twin(input, Put(g, id, value, point), Put(t, ById(id), value, point))
  {
    KnownTwin(input, g, t, id);
    PutOwned(input, g, id, value, point);
    PutInfo(input, g.info, t.info, id, if point.Some? then value.(checkpoint := Some(point.value.id)) else value);
    if point.Some? { PutPoint(g.checkpointNode, t.checkpointNode, point.value.id, id); }
    PrintMore(g.order, id);
    assert Listing(Put(t, ById(id), value, point));
    hide Belongs, ById, Owned, Apart, PrintedInfo, PrintedEdges, PrintedPoints, PrintAll, Listing;
  }

  lemma NodeTwin(input: Input, g: Graph, t: Graph, id: NodeId, node: Node)
    requires Apart(input) && Twin(input, g, t) && Belongs(input, id)
    ensures Twin(input, AddNode(g, input.checkpoints, id, node), AddNode(t, input.checkpoints, id, node))
  {
    KnownTwin(input, g, t, id);
    AddNodeIsPut(g, input.checkpoints, id, node);
    AddNodeIsPut(t, input.checkpoints, id, node);
    var next := if id in g.info then Merged(g.info[id], node) else node;
    PutTwin(input, g, t, id, next, ResolveCheckpoint(input.checkpoints, id, next));
    hide Belongs, ResolveCheckpoint, Merged, Print, Put, AddNode, Owned, PrintAll, PrintedEdges, PrintedPoints, Apart;
  }

  lemma EdgesTwin(input: Input, edges: seq<Edge>, texts: seq<Edge>, e: Edge)
    requires Apart(input) && PrintedEdges(edges, texts) && Belongs(input, e.source) && Belongs(input, e.target)
    requires forall x :: x in edges ==> Belongs(input, x.source) && Belongs(input, x.target)
    ensures e in edges <==> PrintEdge(e) in texts
    ensures PrintedEdges(edges + [e], texts + [PrintEdge(e)])
  {
    hide Belongs, ById;
    if PrintEdge(e) in texts {
      var i :| 0 <= i < |texts| && texts[i] == PrintEdge(e);
      assert edges[i] in edges;
    }
    if e in edges {
      var i :| 0 <= i < |edges| && edges[i] == e;
      assert texts[i] == PrintEdge(e);
    }
  }

  lemma EdgeOwned(input: Input, g: Graph, a: NodeId, b: NodeId, kind: EdgeKind)
    requires Owned(input, g) && Belongs(input, a) && Belongs(input, b) && g.keying.ByNode?
    ensures Owned(input, AddEdge(g, a, b, kind))
  {
    hide Belongs, Continues;
  }

  lemma EdgeTwin(input: Input, g: Graph, t: Graph, a: NodeId, a': NodeId, b: NodeId, kind: EdgeKind)
    requires Apart(input) && Twin(input, g, t) && Belongs(input, a) && Belongs(input, b) && ById(a') == ById(a)
    ensures Twin(input, AddEdge(g, a, b, kind), AddEdge(t, a', b, kind))
  {
    EdgesTwin(input, g.edges, t.edges, Edge(a, b, kind));
    EdgeOwned(input, g, a, b, kind);
    assert ById(a) == ById(b) <==> a == b;
    hide Belongs, Print, Continues, PrintedEdges, Owned, Apart, PrintedInfo, PrintedPoints, PrintAll, Listing;
    assert Listing(AddEdge(t, a', b, kind)) by { assert Listing(t); }
  }

  // ---------------------------------------------------------------- step by step

  /** Both graphs are built with the same places to hang nodes from. */
  ghost predicate Placed(input: Input, at: Cursor) {
    Belongs(input, at.last) && (at.active.Some? ==> Belongs(input, at.active.value))
  }

  lemma MadeBelongs(input: Input, run: string, e: EventRecord, id: NodeId)
    requires run in VisibleRunIds(input) && e in EventsOf(input, run) && Makes(run, e, id)
    ensures Belongs(input, id)
  {
    var events := EventsOf(input, run);
    var i :| 0 <= i < |events| && events[i] == e;
    assert Makes(run, events[i], id);
  }

  lemma HungTwin(input: Input, g: Graph, t: Graph, parent: NodeId, id: NodeId, node: Node, kind: EdgeKind)
    requires Apart(input) && Twin(input, g, t) && Belongs(input, parent) && Belongs(input, id)
    ensures Twin(input, AddEdge(AddNode(g, input.checkpoints, id, node), parent, id, kind),
                 AddEdge(AddNode(t, input.checkpoints, id, node), parent, id, kind))
  {
    NodeTwin(input, g, t, id, node);
    hide *;
    EdgeTwin(input, AddNode(g, input.checkpoints, id, node), AddNode(t, input.checkpoints, id, node),
             parent, parent, id, kind);
  }

  lemma EventTwin(input: Input, g: Graph, t: Graph, run: string, at: Cursor, e: EventRecord)
    requires Apart(input) && Twin(input, g, t) && Placed(input, at)
    requires run in VisibleRunIds(input) && e in EventsOf(input, run)
    ensures var (g', at') := TakeEvent(g, input.checkpoints, run, at, e);
            var (t', to') := TakeEvent(t, input.checkpoints, run, at, e);
            Twin(input, g', t') && at' == to' && Placed(input, at')
  {
    hide Twin, Apart, Belongs, AddNode, AddEdge, Continues, EventsOf, VisibleRunIds;
    match e.payload
    case ContextCompiled =>
      var id := Context(run, e.eventSeq);
      MadeBelongs(input, run, e, id);
      HungTwin(input, g, t, at.last, id, Node(Some(run), Some(e.eventSeq), None, None), Emits);
    case ContextDetail(present) =>
      if at.active.Some? { NodeTwin(input, g, t, at.active.value, Node(Some(run), None, None, None)); }
    case ToolCall(call) =>
      if call.Some? {
        var id := Tool(run, call.value);
        MadeBelongs(input, run, e, id);
        NodeTwin(input, g, t, id, Node(Some(run), Some(e.eventSeq), call, None));
        HungTwin(input, g, t, at.last, id, Node(Some(run), Some(e.eventSeq), call, None), Emits);
      }
    case RunEnd =>
      var id := Terminal(run, e.eventSeq);
      MadeBelongs(input, run, e, id);
      HungTwin(input, g, t, at.last, id, Node(Some(run), Some(e.eventSeq), None, None), Emits);
    case OtherEvent =>
  }

  lemma {:induction false} EventsTwin(input: Input, g: Graph, t: Graph, run: string, user: Option<NodeId>,
                                      events: seq<EventRecord>)
    requires Apart(input) && Twin(input, g, t) && run in VisibleRunIds(input) && events <= EventsOf(input, run)
    requires user.Some? ==> Belongs(input, user.value)
    ensures var (g', at) := TakeEvents(g, input.checkpoints, run, user, events);
            var (t', to) := TakeEvents(t, input.checkpoints, run, user, events);
            Twin(input, g', t') && at == to && Placed(input, at)
  {
    hide Twin, Apart, AddNode, AddEdge, Continues, TakeEvent, VisibleRunIds;
    if events == [] {
      assert Belongs(input, Start(run));
      hide Belongs;
      NodeTwin(input, g, t, Start(run), Node(Some(run), None, None, None));
      if user.Some? { HungTwin(input, g, t, user.value, Start(run), Node(Some(run), None, None, None), StartsRun); }
    } else {
      hide Belongs;
      var before, e := events[..|events| - 1], events[|events| - 1];
      assert e in EventsOf(input, run) by { assert EventsOf(input, run)[|events| - 1] == e; }
      EventsTwin(input, g, t, run, user, before);
      var (g', at) := TakeEvents(g, input.checkpoints, run, user, before);
      EventTwin(input, g', TakeEvents(t, input.checkpoints, run, user, before).0, run, at, e);
    }
  }

  lemma EmptyTwin(input: Input)
    ensures Twin(input, Empty(ByNode), Empty(ByText))
  {
  }

  lemma {:induction false} TurnsTwin(input: Input, messages: seq<MessageRow>)
    requires Apart(input)
    ensures var (g, first) := UserTurns(input.checkpoints, messages, ByNode);
            var (t, firstly) := UserTurns(input.checkpoints, messages, ByText);
            Twin(input, g, t) && first == firstly && forall run :: run in first ==> Belongs(input, first[run])
  {
    hide Twin, Apart, AddNode, Continues;
    if messages == [] {
      EmptyTwin(input);
    } else {
      var before, m := messages[..|messages| - 1], messages[|messages| - 1];
      assert Belongs(input, Message(m.id));
      hide Belongs;
      TurnsTwin(input, before);
      NodeTwin(input, UserTurns(input.checkpoints, before, ByNode).0, UserTurns(input.checkpoints, before, ByText).0,
               Message(m.id), Node(Some(m.run), None, None, None));
    }
  }

  lemma {:induction false} RunsTwin(input: Input, runs: seq<string>)
    requires Apart(input) && forall run :: run in runs ==> run in VisibleRunIds(input)
    ensures var (g, lasts) := TakeRuns(input, runs, ByNode);
            var (t, lastly) := TakeRuns(input, runs, ByText);
            Twin(input, g, t) && lasts == lastly && forall run :: run in lasts ==> Belongs(input, lasts[run])
  {
    hide Twin, Apart, Belongs, UserTurns, TakeEvents, Continues, VisibleRunIds, EventsOf;
    TurnsTwin(input, input.messages);
    if runs != [] {
      var before, run := runs[..|runs| - 1], runs[|runs| - 1];
      RunsTwin(input, before);
      var user := Lookup(UserTurns(input.checkpoints, input.messages, ByNode).1, run);
      EventsTwin(input, TakeRuns(input, before, ByNode).0, TakeRuns(input, before, ByText).0, run, user,
                 EventsOf(input, run));
    }
  }

  lemma {:induction false} ArtifactsTwin(input: Input, g: Graph, t: Graph, run: string, parent: Option<NodeId>,
                                         ids: seq<string>)
    requires Apart(input) && Twin(input, g, t) && (parent.Some? ==> Belongs(input, parent.value))
    ensures Twin(input, TakeArtifacts(g, input.checkpoints, run, parent, ids),
                 TakeArtifacts(t, input.checkpoints, run, parent, ids))
  {
    hide Twin, Apart, AddNode, AddEdge, Continues;
    if ids != [] {
      var before, id := ids[..|ids| - 1], Artifact(ids[|ids| - 1]);
      assert Belongs(input, id);
      hide Belongs;
      ArtifactsTwin(input, g, t, run, parent, before);
      var g' := TakeArtifacts(g, input.checkpoints, run, parent, before);
      var t' := TakeArtifacts(t, input.checkpoints, run, parent, before);
      NodeTwin(input, g', t', id, Node(Some(run), None, None, None));
      if parent.Some? { HungTwin(input, g', t', parent.value, id, Node(Some(run), None, None, None), ProducesArtifact); }
    }
  }

  lemma {:induction false} AllArtifactsTwin(input: Input, g: Graph, t: Graph, lasts: map<string, NodeId>,
                                            runs: seq<string>)
    requires Apart(input) && Twin(input, g, t) && forall run :: run in lasts ==> Belongs(input, lasts[run])
    ensures Twin(input, TakeAllArtifacts(input, g, lasts, runs), TakeAllArtifacts(input, t, lasts, runs))
  {
    hide Twin, Apart, Belongs, TakeArtifacts, Continues;
    if runs != [] {
      var before, run := runs[..|runs| - 1], runs[|runs| - 1];
      AllArtifactsTwin(input, g, t, lasts, before);
      ArtifactsTwin(input, TakeAllArtifacts(input, g, lasts, before), TakeAllArtifacts(input, t, lasts, before), run,
                    Lookup(lasts, run), ArtifactsOf(input, run));
    }
  }

  lemma BranchTwin(input: Input, g: Graph, t: Graph, b: BranchRow)
    requires Apart(input) && Twin(input, g, t)
    ensures Twin(input, TakeBranch(g, input.checkpoints, b), TakeBranch(t, input.checkpoints, b))
  {
    assert Belongs(input, Branch(b.id));
    assert IsShown(g, b) <==> IsShown(t, b);
    if IsShown(g, b) {
      var c, node := b.forkCheckpoint.value, Node(Some(b.forkRun), None, None, None);
      assert Belongs(input, g.checkpointNode[c]) && ById(t.checkpointNode[c]) == ById(g.checkpointNode[c]);
      hide Twin, Apart, Belongs, AddNode, AddEdge, Continues, ById;
      NodeTwin(input, g, t, Branch(b.id), node);
      EdgeTwin(input, AddNode(g, input.checkpoints, Branch(b.id), node), AddNode(t, input.checkpoints, Branch(b.id), node),
               g.checkpointNode[c], t.checkpointNode[c], Branch(b.id), BranchesFrom);
    }
  }

  lemma {:induction false} BranchesTwin(input: Input, g: Graph, t: Graph, branches: seq<BranchRow>)
    requires Apart(input) && Twin(input, g, t)
    ensures Twin(input, TakeBranches(g, input.checkpoints, branches), TakeBranches(t, input.checkpoints, branches))
  {
    hide Twin, Apart, TakeBranch, Continues;
    if branches != [] {
      var before := branches[..|branches| - 1];
      BranchesTwin(input, g, t, before);
      BranchTwin(input, TakeBranches(g, input.checkpoints, before), TakeBranches(t, input.checkpoints, before),
                 branches[|branches| - 1]);
    }
  }

  lemma BuildTwin(input: Input)
    requires Apart(input)
    ensures Twin(input, Build(input, ByNode), Build(input, ByText))
  {
    hide Twin, Apart, Belongs, TakeRuns, TakeAllArtifacts, TakeBranches, VisibleRunIds, Continues, Tidy;
    var runs := VisibleRunIds(input);
    RunsTwin(input, runs);
    var (g, lasts) := TakeRuns(input, runs, ByNode);
    var t := TakeRuns(input, runs, ByText).0;
    AllArtifactsTwin(input, g, t, lasts, runs);
    BranchesTwin(input, TakeAllArtifacts(input, g, lasts, runs), TakeAllArtifacts(input, t, lasts, runs), input.branches);
  }

  // ---------------------------------------------------------------- the graph the program builds

  lemma PrecedesPrinted(order: seq<NodeId>, a: NodeId, b: NodeId)
    requires Precedes(order, a, b)
    ensures Precedes(PrintAll(order), ById(a), ById(b))
  {
    hide ById;
    var i, j :| 0 <= i < j < |order| && order[i] == a && order[j] == b;
    assert PrintAll(order)[i] == ById(a) && PrintAll(order)[j] == ById(b);
  }

  lemma ForestPrinted(input: Input, g: Graph, t: Graph)
    requires Apart(input) && Twin(input, g, t) && Forest(g) && Tidy(t)
    ensures Forest(t)
  {
    hide Belongs, ById, Precedes, NoRepeats, PrintAll;
    forall i | 0 <= i < |t.edges| ensures Precedes(t.order, t.edges[i].source, t.edges[i].target) {
      PrecedesPrinted(g.order, g.edges[i].source, g.edges[i].target);
    }
    forall i, j | 0 <= i < j < |t.edges| ensures t.edges[i].target != t.edges[j].target {
      assert g.edges[i] in g.edges && g.edges[j] in g.edges;
    }
  }

  lemma LinkedPrinted(edges: seq<Edge>, texts: seq<Edge>, a: NodeId, b: NodeId)
    requires PrintedEdges(edges, texts) && Linked(edges, a, b)
    ensures Linked(texts, ById(a), ById(b))
  {
    hide ById;
    var kind :| Edge(a, b, kind) in edges;
    var i :| 0 <= i < |edges| && edges[i] == Edge(a, b, kind);
    assert texts[i] == Edge(ById(a), ById(b), kind);
  }

  lemma PathsPrinted(edges: seq<Edge>, texts: seq<Edge>, a: NodeId, b: NodeId)
    requires PrintedEdges(edges, texts) && Reaches(edges, a, b)
    ensures Reaches(texts, ById(a), ById(b))
  {
    var path :| IsPath(edges, a, path, b);
    var printed := PrintAll(path);
    forall i, j | 0 <= i && j == i + 1 && j < |printed| ensures Linked(texts, printed[i], printed[j]) {
      LinkedPrinted(edges, texts, path[i], path[j]);
    }
    hide ById, Linked;
    assert IsPath(texts, ById(a), printed, ById(b));
  }

  lemma SharedTextRepeats(order: seq<NodeId>, a: NodeId, b: NodeId)
    requires a in order && b in order && a != b && ById(a) == ById(b)
    ensures !NoRepeats(PrintAll(order))
  {
    hide ById;
    var i :| 0 <= i < |order| && order[i] == a;
    var j :| 0 <= j < |order| && order[j] == b;
    assert PrintAll(order)[i] == PrintAll(order)[j];
  }

  /** A clash puts two nodes with one text into the list. */
  lemma ClashRepeats(input: Input, g: Graph, a: NodeId, b: NodeId)
    requires Clash(a, b) && Belongs(input, a) && Belongs(input, b)
    requires forall run :: run in VisibleRunIds(input) ==> RunDone(input, g, run)
    ensures !NoRepeats(PrintAll(g.order))
  {
    ClashingIdsAgree(a, b);
    assert RunOf(a).Some? && RunOf(b).Some?;
    hide Clash, Expected, Reaches, HangsBelow, VisibleRunIds, Print, NoRepeats, PrintAll;
    assert RunDone(input, g, RunOf(a).value) && RunDone(input, g, RunOf(b).value);
    SharedTextRepeats(g.order, a, b);
  }

  lemma ApartNeverRepeats(input: Input, g: Graph)
    requires Apart(input) && NoRepeats(g.order) && forall id :: id in g.order ==> Belongs(input, id)
    ensures NoRepeats(PrintAll(g.order))
  {
    hide Belongs, ById;
  }

  /** The program's graph is the forest of nodes, each under the text of its id, exactly when no visible run clashes
    * with a tool call of another; exactly then the texts differ. It is then a forest with the same paths. */
  lemma TraceGraphIsAForest(input: Input)
    requires Distinct(input)
    ensures var g, t := Build(input, ByNode), Build(input, ByText);
            && (NoClashes(input) <==> Printed(g, t))
            && (NoClashes(input) <==> NoRepeats(PrintAll(g.order)))
            && (NoClashes(input) ==> Forest(t))
            && (NoClashes(input) ==> forall a, b :: Reaches(g.edges, a, b) ==> Reaches(t.edges, ById(a), ById(b)))
  {
    var g, t := Build(input, ByNode), Build(input, ByText);
    NoClashesApart(input);
    NodesFormAForest(input);
    hide Build, Apart, RunDone, Distinct, NoRepeats, Clash, Belongs, ById, Precedes, VisibleRunIds, PrintAll;
    if NoClashes(input) {
      BuildTwin(input);
      hide NoClashes;
      ForestPrinted(input, g, t);
      ApartNeverRepeats(input, g);
      forall a, b | Reaches(g.edges, a, b) ensures Reaches(t.edges, ById(a), ById(b)) {
        PathsPrinted(g.edges, t.edges, a, b);
      }
    } else {
      var a, b :| Belongs(input, a) && Belongs(input, b) && Clash(a, b);
      ClashRepeats(input, g, a, b);
    }
  }

  /** Runs whose ids hold no colon never clash. */
  lemma ColonFreeRunsNeverClash(input: Input)
    requires forall run :: run in VisibleRunIds(input) ==> ':' !in run
    ensures NoClashes(input)
  {
    forall a, b | Clash(a, b) ensures ':' in RunOf(a).value { ClashHasColon(a, b); }
    hide Clash;
  }

  lemma ClashHasColon(a: NodeId, b: NodeId)
    requires Clash(a, b)
    ensures ':' in a.run
  {
    var tail :| ClashAt(a.run, Inner(a), b.run, b.call, tail);
    assert a.run[|b.run|] == ':';
  }

  /** Without clashes a branch forked from a compiled context's checkpoint hangs below that context in the program's
    * graph too. */
  lemma BranchShownBelowItsContext(input: Input, run: string, eventSeq: nat, c: Checkpoint, b: BranchRow)
    requires Distinct(input) && NoClashes(input) && run in VisibleRunIds(input) && OfContext(input, run, eventSeq, c)
    requires b in input.branches && b.forkCheckpoint == Some(c.id) && c.id != ""
    ensures var t := Build(input, ByText);
            && c.id in t.checkpointNode && t.checkpointNode[c.id] == ById(Context(run, eventSeq))
            && Edge(ById(Context(run, eventSeq)), ById(Branch(b.id)), BranchesFrom) in t.edges
  {
    BranchHangsBelowItsContext(input, run, eventSeq, c, b);
    TraceGraphIsAForest(input);
    hide *;
    PrintedBranch(Build(input, ByNode), Build(input, ByText), c.id, Context(run, eventSeq), Branch(b.id));
  }

  lemma PrintedBranch(g: Graph, t: Graph, c: string, parent: NodeId, id: NodeId)
    requires Printed(g, t) && c in g.checkpointNode && g.checkpointNode[c] == parent
    requires Edge(parent, id, BranchesFrom) in g.edges
    ensures c in t.checkpointNode && t.checkpointNode[c] == ById(parent)
    ensures Edge(ById(parent), ById(id), BranchesFrom) in t.edges
  {
    hide ById, PrintAll, PrintedInfo;
    var i :| 0 <= i < |g.edges| && g.edges[i] == Edge(parent, id, BranchesFrom);
    assert t.edges[i] == PrintEdge(g.edges[i]) && c in t.checkpointNode.Keys;
  }

  // ---------------------------------------------------------------- ids of edges

  function KindText(kind: EdgeKind): string {
    match kind
    case StartsRun => "starts_run" case Emits => "emits" case ProducesArtifact => "produces_artifact"
    case BranchesFrom => "branches_from"
  }

  /** The id the program gives an edge. */
  function EdgeId(e: Edge): string { Print(e.source) + "->" + Print(e.target) + ":" + KindText(e.kind) }

  /** While the ids edges start from hold no `>`, edge ids tell apart whatever nodes and kinds do. */
  lemma EdgeIdsDiffer(e: Edge, e': Edge)
    requires '>' !in Print(e.source) && '>' !in Print(e'.source)
    ensures EdgeId(e) == EdgeId(e') <==> PrintEdge(e) == PrintEdge(e')
  {
    if EdgeId(e) == EdgeId(e') {
      var (a, b, a', b') := (Print(e.source), Print(e.target), Print(e'.source), Print(e'.target));
      hide Print;
      assert EdgeId(e) == (a + "->" + b) + [':'] + KindText(e.kind);
      assert EdgeId(e') == (a' + "->" + b') + [':'] + KindText(e'.kind);
      SplitAtLast(':', a + "->" + b, KindText(e.kind), a' + "->" + b', KindText(e'.kind));
      assert a + "->" + b == (a + "-") + ['>'] + b && a' + "->" + b' == (a' + "-") + ['>'] + b';
      SplitAtFirst('>', a + "-", b, a' + "-", b');
      assert a == (a + "-")[..|a|] && a' == (a' + "-")[..|a'|];
      SameKind(e.kind, e'.kind);
    }
  }

  lemma SameKind(kind: EdgeKind, kind': EdgeKind)
    requires KindText(kind) == KindText(kind')
    ensures kind == kind'
  {
    assert KindText(StartsRun)[0] == 's' && KindText(Emits)[0] == 'e' && KindText(ProducesArtifact)[0] == 'p'
           && KindText(BranchesFrom)[0] == 'b';
  }

  // ---------------------------------------------------------------- what a clash does

  ghost predicate HasParent(g: Graph, id: NodeId) { exists source :: Edge(source, ById(id), Emits) in g.edges }

  lemma ParentStays(g: Graph, g': Graph, id: NodeId)
    requires HasParent(g, id) && g.edges <= g'.edges
    ensures HasParent(g', id)
  {
    hide ById;
    var source :| Edge(source, ById(id), Emits) in g.edges;
    assert Edge(source, ById(id), Emits) in g'.edges;
  }

  /** Every tool call noted hangs from a node, and the last node of the run is no other call. */
  ghost predicate CallsHang(g: Graph, run: string, at: Cursor) {
    && g.keying.ByText? && RunOf(at.last) == Some(run) && (at.last.Tool? ==> at.last.call in at.tools)
    && forall c :: c in at.tools ==> HasParent(g, Tool(run, c))
  }

  lemma OneRunApart(a: NodeId, b: NodeId)
    requires RunOf(a).Some? && RunOf(b).Some? && a.run == b.run && a != b
    ensures ById(a) != ById(b)
  {
    PrintedIdsDiffer(a, b);
  }

  lemma CallHangs(g: Graph, g': Graph, checkpoints: seq<Checkpoint>, run: string, at: Cursor, e: EventRecord)
    requires CallsHang(g, run, at) && g' == TakeEvent(g, checkpoints, run, at, e).0
    ensures CallsHang(g', run, TakeEvent(g, checkpoints, run, at, e).1)
  {
    var at' := TakeEvent(g, checkpoints, run, at, e).1;
    forall c | c in at'.tools ensures HasParent(g', Tool(run, c)) {
      if c in at.tools {
        ParentStays(g, g', Tool(run, c));
      } else {
        assert e.payload == ToolCall(Some(c));
        OneRunApart(at.last, Tool(run, c));
        hide Print, ResolveCheckpoint, Merged;
        assert Edge(ById(at.last), ById(Tool(run, c)), Emits) in g'.edges;
      }
    }
  }

  lemma NotesCall(g: Graph, checkpoints: seq<Checkpoint>, run: string, at: Cursor, e: EventRecord, call: string)
    ensures var tools := TakeEvent(g, checkpoints, run, at, e).1.tools;
            at.tools <= tools && (Makes(run, e, Tool(run, call)) ==> call in tools)
  {
    hide AddNode, AddEdge;
  }

  lemma {:induction false} CallsHangBelow(g: Graph, checkpoints: seq<Checkpoint>, run: string, user: Option<NodeId>,
                                          events: seq<EventRecord>, call: string)
    requires g.keying.ByText?
    ensures var (g', at) := TakeEvents(g, checkpoints, run, user, events);
            CallsHang(g', run, at) && (Expected(run, events, Tool(run, call)) ==> call in at.tools)
  {
    if events != [] {
      var before, e := events[..|events| - 1], events[|events| - 1];
      assert events == before + [e];
      CallsHangBelow(g, checkpoints, run, user, before, call);
      ExpectedMore(run, before, e, Tool(run, call));
      var (mid, at) := TakeEvents(g, checkpoints, run, user, before);
      CallHangs(mid, TakeEvent(mid, checkpoints, run, at, e).0, checkpoints, run, at, e);
      NotesCall(mid, checkpoints, run, at, e, call);
      hide CallsHang, Expected, Makes, TakeEvent, Continues, StartRun;
    } else {
      hide AddNode, AddEdge, Continues;
    }
  }

  lemma {:induction false} StartHangsByText(g: Graph, checkpoints: seq<Checkpoint>, run: string, message: string,
                                            events: seq<EventRecord>)
    requires g.keying.ByText?
    ensures Edge(ById(Message(message)), ById(Start(run)), StartsRun)
            in TakeEvents(g, checkpoints, run, Some(Message(message)), events).0.edges
  {
    if events == [] {
      PrintedIdsDiffer(Message(message), Start(run));
      hide Print, ResolveCheckpoint, Merged, Clash;
    } else {
      StartHangsByText(g, checkpoints, run, message, events[..|events| - 1]);
      hide ById, TakeEvent, StartRun;
    }
  }

  lemma {:induction false} FirstTurnsAlike(checkpoints: seq<Checkpoint>, messages: seq<MessageRow>)
    ensures var first := UserTurns(checkpoints, messages, ByText).1;
            first == UserTurns(checkpoints, messages, ByNode).1 && forall run :: run in first ==> first[run].Message?
  {
    hide AddNode, Continues, Tidy;
    if messages != [] { FirstTurnsAlike(checkpoints, messages[..|messages| - 1]); }
  }

  /** In the program's graph a run's start hangs below its user turn, and each tool call below some node. */
  ghost predicate RunHangs(input: Input, g: Graph, run: string, call: string) {
    && (UserTurnOf(input, run).Some? ==> Edge(ById(UserTurnOf(input, run).value), ById(Start(run)), StartsRun) in g.edges)
    && (Expected(run, EventsOf(input, run), Tool(run, call)) ==> HasParent(g, Tool(run, call)))
  }

  lemma RunHangsStill(input: Input, g: Graph, g': Graph, run: string, call: string)
    requires RunHangs(input, g, run, call) && g.edges <= g'.edges
    ensures RunHangs(input, g', run, call)
  {
    hide ById, Expected, HasParent, UserTurnOf;
    if HasParent(g, Tool(run, call)) { ParentStays(g, g', Tool(run, call)); }
  }

  lemma {:induction false} RunsHang(input: Input, runs: seq<string>, run: string, call: string)
    requires run in runs
    ensures RunHangs(input, TakeRuns(input, runs, ByText).0, run, call)
  {
    var before, last := runs[..|runs| - 1], runs[|runs| - 1];
    FirstTurnsAlike(input.checkpoints, input.messages);
    var g, user := TakeRuns(input, before, ByText).0, UserTurnOf(input, last);
    hide TakeEvents, UserTurns, Tidy, ById, Expected;
    if last == run {
      CallsHangBelow(g, input.checkpoints, run, user, EventsOf(input, run), call);
      if user.Some? { StartHangsByText(g, input.checkpoints, run, user.value.id, EventsOf(input, run)); }
    } else {
      RunsHang(input, before, run, call);
      RunHangsStill(input, g, TakeRuns(input, runs, ByText).0, run, call);
    }
  }

  /** When a run with a user turn starts under the text of another run's tool call, the node the two share has two
    * incoming edges: the program's graph is no forest. */
  lemma ClashGivesTwoParents(input: Input, run: string, other: string, call: string)
    requires run in VisibleRunIds(input) && other in VisibleRunIds(input) && UserTurnOf(input, other).Some?
    requires Expected(run, EventsOf(input, run), Tool(run, call)) && Clash(Start(other), Tool(run, call))
    ensures !Forest(Build(input, ByText))
  {
    var runs, t := VisibleRunIds(input), Build(input, ByText);
    var (g, lasts) := TakeRuns(input, runs, ByText);
    RunsHang(input, runs, run, call);
    RunsHang(input, runs, other, call);
    ClashingIdsAgree(Start(other), Tool(run, call));
    hide VisibleRunIds, TakeRuns, TakeAllArtifacts, TakeBranches, UserTurnOf, Expected, Clash, Print, Tidy;
    RunHangsStill(input, g, t, run, call);
    RunHangsStill(input, g, t, other, call);
    var source :| Edge(source, ById(Tool(run, call)), Emits) in t.edges;
    var i :| 0 <= i < |t.edges| && t.edges[i] == Edge(source, ById(Tool(run, call)), Emits);
    var j :| 0 <= j < |t.edges| && t.edges[j] == Edge(ById(UserTurnOf(input, other).value), ById(Start(other)), StartsRun);
    assert t.edges[i].target == t.edges[j].target && i != j;
  }

  /** Any run whose id is another's followed by `:tool:` and more clashes with a tool call of that other run. */
  lemma ColonsMakeIdsClash(run: string, call: string)
    ensures Clash(Start(run + (":tool" + (":" + call))), Tool(run, call + ":" + "start"))
  {
    var other := run + (":tool" + (":" + call));
    assert (":" + call) + ":" + "start" == ":" + (call + ":" + "start");
    assert ClashAt(other, Inner(Start(other)), run, call + ":" + "start", ":" + call);
  }

  /** The ids as the client sees them. */
  lemma PrintedForms(run: string, n: nat, call: string, id: string)
    ensures Print(Message(id)) == "message:" + id
    ensures Print(Artifact(id)) == "artifact:" + id && Print(Branch(id)) == "branch:" + id
    ensures Print(Start(run)) == "run:" + (run + ":" + "start")
    ensures Print(Context(run, n)) == "run:" + (run + ":" + ("event:" + (Digits(n) + ":" + "context")))
    ensures Print(Terminal(run, n)) == "run:" + (run + ":" + ("event:" + (Digits(n) + ":" + "terminal")))
    ensures Print(Tool(run, call)) == "run:" + (run + ":" + ("tool:" + call))
  {
    hide Digits;
    assert "message" + ":" == "message:" && "artifact" + ":" == "artifact:" && "branch" + ":" == "branch:";
    assert "run" + ":" == "run:" && "event" + ":" == "event:" && "tool" + ":" == "tool:";
  }
}
