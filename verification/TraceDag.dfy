/** The trace graph of a session: nodes and edges built from its messages, run events, artifacts and branches. */
module TraceDag {
  import opened Options
  import opened Text

  datatype NodeId = Message(id: string) | Start(run: string) | Context(run: string, eventSeq: nat)
                  | Terminal(run: string, eventSeq: nat) | Tool(run: string, call: string)
                  | Artifact(id: string) | Branch(id: string) | Named(text: string)

  /** The program knows a node by the text of its id; with `ByNode` nodes are kept apart whatever their texts. */
  datatype Keying = ByNode | ByText

  datatype EdgeKind = StartsRun | Emits | ProducesArtifact | BranchesFrom

  datatype Edge = Edge(source: NodeId, target: NodeId, kind: EdgeKind)

  datatype CheckpointKind = ContextCompiledPoint | RunTerminalPoint | OtherPoint

  datatype Checkpoint = Checkpoint(id: string, run: string, eventSeq: nat, toolCall: Option<string>, kind: CheckpointKind)

  /** What later steps read off a node; labels, summaries and details are left out. */
  datatype Node = Node(run: Option<string>, eventSeq: Option<nat>, toolCall: Option<string>, checkpoint: Option<string>)

  /** `order` is the order in which the nodes were first added. */
  datatype Graph = Graph(keying: Keying, order: seq<NodeId>, info: map<NodeId, Node>, edges: seq<Edge>,
                         checkpointNode: map<string, NodeId>)

  datatype Payload = ContextCompiled | ContextDetail(present: bool) | ToolCall(call: Option<string>) | RunEnd | OtherEvent

  datatype EventRecord = EventRecord(eventSeq: nat, payload: Payload)

  datatype MessageRow = MessageRow(id: string, run: string, fromUser: bool)

  datatype BranchRow = BranchRow(id: string, forkRun: string, forkCheckpoint: Option<string>)

  /** Everything the builder reads: visible messages, the session's own branch row, and per run its events and
    * artifacts. */
  datatype Input = Input(messages: seq<MessageRow>, own: Option<BranchRow>, events: map<string, seq<EventRecord>>,
                         artifacts: map<string, seq<string>>, checkpoints: seq<Checkpoint>, branches: seq<BranchRow>)

  function Empty(keying: Keying): Graph { Graph(keying, [], map[], [], map[]) }

  // ---------------------------------------------------------------- ids

  function RunOf(id: NodeId): Option<string> {
    if id.Start? || id.Context? || id.Terminal? || id.Tool? then Some(id.run) else None
  }

  /** A node's id as the graph carries it, such as `run:<run>:event:<number>:context` or `message:<id>`. */
  function Print(id: NodeId): string { if id.Named? then id.text else Tag(id) + ":" + Rest(id) }

  function Tag(id: NodeId): string
    requires !id.Named?
  {
    match id
    case Message(_) => "message" case Artifact(_) => "artifact" case Branch(_) => "branch" case _ => "run"
  }

  function Rest(id: NodeId): string
    requires !id.Named?
  {
    if RunOf(id).Some? then id.run + ":" + Inner(id) else id.id
  }

  function Inner(id: NodeId): string
    requires RunOf(id).Some?
  {
    match id
    case Start(_) => "start"
    case Context(_, n) => "event" + ":" + (Digits(n) + ":" + "context")
    case Terminal(_, n) => "event" + ":" + (Digits(n) + ":" + "terminal")
    case Tool(_, call) => "tool" + ":" + call
  }

  // ---------------------------------------------------------------- checkpoints

  function AtEvent(checkpoints: seq<Checkpoint>, run: string, eventSeq: nat): seq<Checkpoint> {
    if checkpoints == [] then []
    else
      var last := checkpoints[|checkpoints| - 1];
      AtEvent(checkpoints[..|checkpoints| - 1], run, eventSeq) + (if last.run == run && last.eventSeq == eventSeq then [last] else [])
  }

  function EventKey(run: string, eventSeq: nat): string { run + ":" + Digits(eventSeq) }

  function ToolKey(run: string, call: string): string { run + ":" + call }

  /** The last checkpoint of a tool call under a key. */
  function AtTool(checkpoints: seq<Checkpoint>, key: string): Option<Checkpoint> {
    if checkpoints == [] then None
    else
      var last := checkpoints[|checkpoints| - 1];
      if last.toolCall.Some? && last.toolCall.value != "" && ToolKey(last.run, last.toolCall.value) == key then Some(last)
      else AtTool(checkpoints[..|checkpoints| - 1], key)
  }

  function FirstOfKind(checkpoints: seq<Checkpoint>, kind: CheckpointKind): Option<Checkpoint> {
    if checkpoints == [] then None
    else if checkpoints[0].kind == kind then Some(checkpoints[0]) else FirstOfKind(checkpoints[1..], kind)
  }

  function Preferred(id: NodeId, checkpoints: seq<Checkpoint>): Option<Checkpoint> {
    var first := if checkpoints == [] then None else Some(checkpoints[0]);
    var own := if id.Context? then FirstOfKind(checkpoints, ContextCompiledPoint)
               else if id.Terminal? then FirstOfKind(checkpoints, RunTerminalPoint) else None;
    if own.Some? then own else first
  }

  predicate HasCall(node: Node) { node.toolCall.Some? && node.toolCall.value != "" }

  function ResolveCheckpoint(checkpoints: seq<Checkpoint>, id: NodeId, node: Node): Option<Checkpoint> {
    if node.run.None? || node.run.value == "" then None
    else if HasCall(node) && AtTool(checkpoints, ToolKey(node.run.value, node.toolCall.value)).Some?
    then AtTool(checkpoints, ToolKey(node.run.value, node.toolCall.value))
    else if node.eventSeq.None? then None
    else Preferred(id, AtEvent(checkpoints, node.run.value, node.eventSeq.value))
  }

  // ---------------------------------------------------------------- adding nodes and edges

  function Merged(existing: Node, node: Node): Node {
    Node(if node.run.Some? then node.run else existing.run,
         if node.eventSeq.Some? then node.eventSeq else existing.eventSeq,
         if node.toolCall.Some? then node.toolCall else existing.toolCall,
         existing.checkpoint)
  }

  function Key(keying: Keying, id: NodeId): NodeId { if keying.ByText? then Named(Print(id)) else id }

  ghost predicate NoRepeats<T>(list: seq<T>) {
    forall i, j :: 0 <= i < j < |list| ==> list[i] != list[j]
  }

  /** Nodes are known by one key each. */
  ghost predicate Tidy(g: Graph) { NoRepeats(g.order) && forall id :: id in g.order ==> id in g.info }

  /** Nodes stay known by one key each, and edges stay. */
  ghost predicate Continues(g: Graph, next: Graph) {
    (Tidy(g) ==> Tidy(next)) && next.keying == g.keying && g.edges <= next.edges
  }

  /** A node already there takes over what the new one says, its kind included. */
  function AddNode(g: Graph, checkpoints: seq<Checkpoint>, id: NodeId, node: Node): (r: Graph)
    ensures Continues(g, r)
  {
    var key := Key(g.keying, id);
    var next := if key in g.info then Merged(g.info[key], node) else node;
    var order := if key in g.info then g.order else g.order + [key];
    match ResolveCheckpoint(checkpoints, id, next)
    case None => g.(order := order, info := g.info[key := next])
    case Some(c) =>
      g.(order := order, info := g.info[key := next.(checkpoint := Some(c.id))],
         checkpointNode := g.checkpointNode[c.id := key])
  }

  function AddEdge(g: Graph, source: NodeId, target: NodeId, kind: EdgeKind): (r: Graph)
    ensures Continues(g, r)
  {
    var edge := Edge(Key(g.keying, source), Key(g.keying, target), kind);
    if edge.source == edge.target || edge in g.edges then g else g.(edges := g.edges + [edge])
  }

  // ---------------------------------------------------------------- the builder

  function UserTurns(checkpoints: seq<Checkpoint>, messages: seq<MessageRow>, keying: Keying)
    : (r: (Graph, map<string, NodeId>))
    ensures Tidy(r.0) && r.0.keying == keying
  {
    if messages == [] then (Empty(keying), map[])
    else
      var (g, first) := UserTurns(checkpoints, messages[..|messages| - 1], keying);
      var m := messages[|messages| - 1];
      if !m.fromUser then (g, first)
      else
        (AddNode(g, checkpoints, Message(m.id), Node(Some(m.run), None, None, None)),
         if m.run in first then first else first[m.run := Message(m.id)])
  }

  /** Where a run's events stand: the node the next one hangs from, the active context, the tool calls seen. */
  datatype Cursor = Cursor(last: NodeId, active: Option<NodeId>, tools: set<string>)

  function TakeEvent(g: Graph, checkpoints: seq<Checkpoint>, run: string, at: Cursor, e: EventRecord): (r: (Graph, Cursor))
    ensures Continues(g, r.0)
  {
    match e.payload
    case ContextCompiled =>
      var id := Context(run, e.eventSeq);
      (AddEdge(AddNode(g, checkpoints, id, Node(Some(run), Some(e.eventSeq), None, None)), at.last, id, Emits),
       at.(last := id, active := Some(id)))
    case ContextDetail(present) =>
      if at.active.None? || !present then (g, at)
      else (AddNode(g, checkpoints, at.active.value, Node(Some(run), None, None, None)), at)
    case ToolCall(call) =>
      if call.None? then (g, at)
      else
        var id := Tool(run, call.value);
        var added := AddNode(g, checkpoints, id, Node(Some(run), Some(e.eventSeq), call, None));
        (if call.value in at.tools then added else AddEdge(added, at.last, id, Emits),
         at.(last := id, tools := at.tools + {call.value}))
    case RunEnd =>
      var id := Terminal(run, e.eventSeq);
      (AddEdge(AddNode(g, checkpoints, id, Node(Some(run), Some(e.eventSeq), None, None)), at.last, id, Emits),
       at.(last := id))
    case OtherEvent => (g, at)
  }

  function StartRun(g: Graph, checkpoints: seq<Checkpoint>, run: string, user: Option<NodeId>): (r: Graph)
    ensures Continues(g, r)
  {
    var added := AddNode(g, checkpoints, Start(run), Node(Some(run), None, None, None));
    if user.Some? then AddEdge(added, user.value, Start(run), StartsRun) else added
  }

  function TakeEvents(g: Graph, checkpoints: seq<Checkpoint>, run: string, user: Option<NodeId>, events: seq<EventRecord>)
    : (r: (Graph, Cursor))
    ensures Continues(g, r.0)
  {
    if events == [] then (StartRun(g, checkpoints, run, user), Cursor(Start(run), None, {}))
    else
      var (before, at) := TakeEvents(g, checkpoints, run, user, events[..|events| - 1]);
      TakeEvent(before, checkpoints, run, at, events[|events| - 1])
  }

  function Lookup<T>(m: map<string, T>, key: string): Option<T> { if key in m then Some(m[key]) else None }

  function EventsOf(input: Input, run: string): seq<EventRecord> { if run in input.events then input.events[run] else [] }

  function ArtifactsOf(input: Input, run: string): seq<string> { if run in input.artifacts then input.artifacts[run] else [] }

  /** All runs, each hung below its user turn; with the last node of each. */
  function TakeRuns(input: Input, runs: seq<string>, keying: Keying): (r: (Graph, map<string, NodeId>))
    ensures Tidy(r.0) && r.0.keying == keying
  {
    var (turns, users) := UserTurns(input.checkpoints, input.messages, keying);
    if runs == [] then (turns, map[])
    else
      var run := runs[|runs| - 1];
      var (before, lasts) := TakeRuns(input, runs[..|runs| - 1], keying);
      var (g, at) := TakeEvents(before, input.checkpoints, run, Lookup(users, run), EventsOf(input, run));
      (g, lasts[run := at.last])
  }

  function TakeArtifacts(g: Graph, checkpoints: seq<Checkpoint>, run: string, parent: Option<NodeId>, ids: seq<string>)
    : (r: Graph)
    ensures Continues(g, r)
  {
    if ids == [] then g
    else
      var before := TakeArtifacts(g, checkpoints, run, parent, ids[..|ids| - 1]);
      var id := Artifact(ids[|ids| - 1]);
      var added := AddNode(before, checkpoints, id, Node(Some(run), None, None, None));
      if parent.Some? then AddEdge(added, parent.value, id, ProducesArtifact) else added
  }

  function TakeAllArtifacts(input: Input, g: Graph, lasts: map<string, NodeId>, runs: seq<string>): (r: Graph)
    ensures Continues(g, r)
  {
    if runs == [] then g
    else
      var run := runs[|runs| - 1];
      TakeArtifacts(TakeAllArtifacts(input, g, lasts, runs[..|runs| - 1]), input.checkpoints, run, Lookup(lasts, run),
                    ArtifactsOf(input, run))
  }

  function TakeBranch(g: Graph, checkpoints: seq<Checkpoint>, b: BranchRow): (r: Graph)
    ensures Continues(g, r)
  {
    if b.forkCheckpoint.None? || b.forkCheckpoint.value == "" || b.forkCheckpoint.value !in g.checkpointNode then g
    else
      AddEdge(AddNode(g, checkpoints, Branch(b.id), Node(Some(b.forkRun), None, None, None)),
              g.checkpointNode[b.forkCheckpoint.value], Branch(b.id), BranchesFrom)
  }

  function TakeBranches(g: Graph, checkpoints: seq<Checkpoint>, branches: seq<BranchRow>): (r: Graph)
    ensures Continues(g, r)
  {
    if branches == [] then g
    else TakeBranch(TakeBranches(g, checkpoints, branches[..|branches| - 1]), checkpoints, branches[|branches| - 1])
  }

  /** The non-empty texts of a list, each once, in the order they first appear. */
  function UniqueStrings(values: seq<string>): seq<string> {
    if values == [] then []
    else
      var before, last := UniqueStrings(values[..|values| - 1]), values[|values| - 1];
      if last == "" || last in before then before else before + [last]
  }

  function RunsOf(messages: seq<MessageRow>): seq<string> {
    if messages == [] then [] else RunsOf(messages[..|messages| - 1]) + [messages[|messages| - 1].run]
  }

  function VisibleRunIds(input: Input): seq<string> {
    UniqueStrings(RunsOf(input.messages)
                  + (if input.own.Some? && input.own.value.forkCheckpoint.Some? && input.own.value.forkCheckpoint.value != ""
                     then [input.own.value.forkRun] else []))
  }

  function Build(input: Input, keying: Keying): (r: Graph)
    ensures Tidy(r) && r.keying == keying
  {
    var runs := VisibleRunIds(input);
    var (g, lasts) := TakeRuns(input, runs, keying);
    TakeBranches(TakeAllArtifacts(input, g, lasts, runs), input.checkpoints, input.branches)
  }

  // ---------------------------------------------------------------- the builder class

  /** The two tables hold, per event and per tool call, what the list of checkpoints says. */
  ghost predicate Indexed(checkpoints: seq<Checkpoint>, byEvent: map<string, seq<Checkpoint>>,
                          byTool: map<string, Checkpoint>)
  {
    && (forall run, eventSeq: nat :: AtEvent(checkpoints, run, eventSeq) == Listed(byEvent, EventKey(run, eventSeq)))
    && (forall key :: AtTool(checkpoints, key) == Lookup(byTool, key))
  }

  function Listed(byEvent: map<string, seq<Checkpoint>>, key: string): seq<Checkpoint> {
    if key in byEvent then byEvent[key] else []
  }

  /** A run's id may hold colons; the last one of a key begins the number. */
  lemma EventKeysDiffer(run: string, eventSeq: nat, run': string, eventSeq': nat)
    requires EventKey(run, eventSeq) == EventKey(run', eventSeq')
    ensures run == run' && eventSeq == eventSeq'
  {
    DigitsHaveNoColon(eventSeq);
    DigitsHaveNoColon(eventSeq');
    SplitAtLast(':', run, Digits(eventSeq), run', Digits(eventSeq'));
    DigitsDiffer(eventSeq, eventSeq');
  }

  lemma NothingIndexed()
    ensures Indexed([], map[], map[])
  {
  }

  lemma OneMoreEvent(checkpoints: seq<Checkpoint>, c: Checkpoint, byEvent: map<string, seq<Checkpoint>>,
                     run: string, eventSeq: nat)
    requires AtEvent(checkpoints, run, eventSeq) == Listed(byEvent, EventKey(run, eventSeq))
    ensures var key := EventKey(c.run, c.eventSeq);
            AtEvent(checkpoints + [c], run, eventSeq)
            == Listed(byEvent[key := Listed(byEvent, key) + [c]], EventKey(run, eventSeq))
  {
    var upTo := checkpoints + [c];
    assert upTo[..|checkpoints|] == checkpoints && upTo[|checkpoints|] == c;
    if EventKey(run, eventSeq) == EventKey(c.run, c.eventSeq) { EventKeysDiffer(run, eventSeq, c.run, c.eventSeq); }
    hide EventKey;
  }

  function WithTool(byTool: map<string, Checkpoint>, c: Checkpoint): map<string, Checkpoint> {
    if c.toolCall.Some? && c.toolCall.value != "" then byTool[ToolKey(c.run, c.toolCall.value) := c] else byTool
  }

  lemma OneMoreTool(checkpoints: seq<Checkpoint>, c: Checkpoint, byTool: map<string, Checkpoint>, key: string)
    requires AtTool(checkpoints, key) == Lookup(byTool, key)
    ensures AtTool(checkpoints + [c], key)
            == Lookup(WithTool(byTool, c), key)
  {
    var upTo := checkpoints + [c];
    assert upTo[..|checkpoints|] == checkpoints && upTo[|checkpoints|] == c;
    hide ToolKey;
  }

  lemma OneMoreIndexed(checkpoints: seq<Checkpoint>, c: Checkpoint, byEvent: map<string, seq<Checkpoint>>,
                       byTool: map<string, Checkpoint>)
    requires Indexed(checkpoints, byEvent, byTool)
    ensures var key := EventKey(c.run, c.eventSeq);
            Indexed(checkpoints + [c], byEvent[key := Listed(byEvent, key) + [c]],
                    WithTool(byTool, c))
  {
    hide AtEvent, AtTool, EventKey, WithTool, Listed, Lookup;
    forall run, eventSeq: nat { OneMoreEvent(checkpoints, c, byEvent, run, eventSeq); }
    forall key { OneMoreTool(checkpoints, c, byTool, key); }
  }

  class TraceDagBuilder {
    const checkpoints: seq<Checkpoint>
    var checkpointByEvent: map<string, seq<Checkpoint>>
    var checkpointByTool: map<string, Checkpoint>
    var graph: Graph

    ghost predicate Valid()
      reads this
    {
      Indexed(checkpoints, checkpointByEvent, checkpointByTool)
    }

    constructor (checkpoints: seq<Checkpoint>)
      ensures Valid() && graph == Empty(ByText) && this.checkpoints == checkpoints
    {
      this.checkpoints := checkpoints;
      graph := Empty(ByText);
      var byEvent: map<string, seq<Checkpoint>>, byTool: map<string, Checkpoint> := map[], map[];
      assert checkpoints[..0] == [] && checkpoints[..|checkpoints|] == checkpoints;
      NothingIndexed();
      hide Indexed;
      for i := 0 to |checkpoints|
        invariant Indexed(checkpoints[..i], byEvent, byTool)
      {
        var c := checkpoints[i];
        assert checkpoints[..i + 1] == checkpoints[..i] + [c];
        OneMoreIndexed(checkpoints[..i], c, byEvent, byTool);
        var key := EventKey(c.run, c.eventSeq);
        byEvent := byEvent[key := Listed(byEvent, key) + [c]];
        if c.toolCall.Some? && c.toolCall.value != "" {
          byTool := byTool[ToolKey(c.run, c.toolCall.value) := c];
        }
      }
      checkpointByEvent := byEvent;
      checkpointByTool := byTool;
    }

    function Resolve(id: NodeId, node: Node): (r: Option<Checkpoint>)
      requires Valid()
      reads this
      ensures r == ResolveCheckpoint(checkpoints, id, node)
    {
      if node.run.None? || node.run.value == "" then None
      else if HasCall(node) && ToolKey(node.run.value, node.toolCall.value) in checkpointByTool
      then Some(checkpointByTool[ToolKey(node.run.value, node.toolCall.value)])
      else if node.eventSeq.None? then None
      else Preferred(id, Listed(checkpointByEvent, EventKey(node.run.value, node.eventSeq.value)))
    }

    method PutNode(id: NodeId, node: Node)
      requires Valid()
      modifies this`graph
      ensures Valid() && graph == AddNode(old(graph), checkpoints, id, node)
    {
      var key := Key(graph.keying, id);
      var next := if key in graph.info then Merged(graph.info[key], node) else node;
      var checkpoint := Resolve(id, next);
      if key !in graph.info {
        graph := graph.(order := graph.order + [key]);
      }
      if checkpoint.Some? {
        next := next.(checkpoint := Some(checkpoint.value.id));
        graph := graph.(checkpointNode := graph.checkpointNode[checkpoint.value.id := key]);
      }
      graph := graph.(info := graph.info[key := next]);
    }

    method PutEdge(source: NodeId, target: NodeId, kind: EdgeKind)
      requires Valid()
      modifies this`graph
      ensures Valid() && graph == AddEdge(old(graph), source, target, kind)
    {
      var edge := Edge(Key(graph.keying, source), Key(graph.keying, target), kind);
      if edge.source == edge.target {
        return;
      }
      if edge in graph.edges {
        return;
      }
      graph := graph.(edges := graph.edges + [edge]);
    }

    method AddUserTurnNodes(messages: seq<MessageRow>) returns (first: map<string, NodeId>)
      requires Valid() && graph == Empty(ByText)
      modifies this`graph
      ensures Valid() && (graph, first) == UserTurns(checkpoints, messages, ByText)
    {
      first := map[];
      for i := 0 to |messages|
        invariant Valid() && (graph, first) == UserTurns(checkpoints, messages[..i], ByText)
      {
        var m := messages[i];
        ghost var upTo := messages[..i + 1];
        assert upTo[..i] == messages[..i] && upTo[i] == m;
        if m.fromUser {
          PutNode(Message(m.id), Node(Some(m.run), None, None, None));
          if m.run !in first {
            first := first[m.run := Message(m.id)];
          }
        }
      }
      assert messages[..|messages|] == messages;
    }

    method AddEventNode(run: string, at: Cursor, e: EventRecord) returns (next: Cursor)
      requires Valid()
      modifies this`graph
      ensures Valid() && (graph, next) == TakeEvent(old(graph), checkpoints, run, at, e)
    {
      next := at;
      match e.payload {
        case ContextCompiled =>
          var id := Context(run, e.eventSeq);
          PutNode(id, Node(Some(run), Some(e.eventSeq), None, None));
          PutEdge(at.last, id, Emits);
          next := at.(last := id, active := Some(id));
        case ContextDetail(present) =>
          if at.active.Some? && present {
            PutNode(at.active.value, Node(Some(run), None, None, None));
          }
        case ToolCall(call) =>
          if call.Some? {
            var id := Tool(run, call.value);
            PutNode(id, Node(Some(run), Some(e.eventSeq), call, None));
            if call.value !in at.tools {
              PutEdge(at.last, id, Emits);
            }
            next := at.(last := id, tools := at.tools + {call.value});
          }
        case RunEnd =>
          var id := Terminal(run, e.eventSeq);
          PutNode(id, Node(Some(run), Some(e.eventSeq), None, None));
          PutEdge(at.last, id, Emits);
          next := at.(last := id);
        case OtherEvent =>
      }
    }

    method AddRun(run: string, user: Option<NodeId>, events: seq<EventRecord>) returns (at: Cursor)
      requires Valid()
      modifies this`graph
      ensures Valid() && (graph, at) == TakeEvents(old(graph), checkpoints, run, user, events)
    {
      PutNode(Start(run), Node(Some(run), None, None, None));
      if user.Some? {
        PutEdge(user.value, Start(run), StartsRun);
      }
      at := Cursor(Start(run), None, {});
      for i := 0 to |events|
        invariant Valid() && (graph, at) == TakeEvents(old(graph), checkpoints, run, user, events[..i])
      {
        ghost var upTo := events[..i + 1];
        assert upTo[..i] == events[..i] && upTo[i] == events[i];
        at := AddEventNode(run, at, events[i]);
      }
      assert events[..|events|] == events;
    }

    method AddArtifactNodes(run: string, parent: Option<NodeId>, ids: seq<string>)
      requires Valid()
      modifies this`graph
      ensures Valid() && graph == TakeArtifacts(old(graph), checkpoints, run, parent, ids)
    {
      for i := 0 to |ids|
        invariant Valid() && graph == TakeArtifacts(old(graph), checkpoints, run, parent, ids[..i])
      {
        ghost var upTo := ids[..i + 1];
        assert upTo[..i] == ids[..i] && upTo[i] == ids[i];
        PutNode(Artifact(ids[i]), Node(Some(run), None, None, None));
        if parent.Some? {
          PutEdge(parent.value, Artifact(ids[i]), ProducesArtifact);
        }
      }
      assert ids[..|ids|] == ids;
    }

    method AddCheckpointBranchNodes(branches: seq<BranchRow>)
      requires Valid()
      modifies this`graph
      ensures Valid() && graph == TakeBranches(old(graph), checkpoints, branches)
    {
      for i := 0 to |branches|
        invariant Valid() && graph == TakeBranches(old(graph), checkpoints, branches[..i])
      {
        var b := branches[i];
        ghost var upTo := branches[..i + 1];
        assert upTo[..i] == branches[..i] && upTo[i] == b;
        if b.forkCheckpoint.None? || b.forkCheckpoint.value == "" {
          continue;
        }
        if b.forkCheckpoint.value !in graph.checkpointNode {
          continue;
        }
        var parent := graph.checkpointNode[b.forkCheckpoint.value];
        PutNode(Branch(b.id), Node(Some(b.forkRun), None, None, None));
        PutEdge(parent, Branch(b.id), BranchesFrom);
      }
      assert branches[..|branches|] == branches;
    }
  }

  method BuildSessionTraceDag(input: Input) returns (graph: Graph)
    ensures graph == Build(input, ByText)
  {
    hide TakeEvents, TakeArtifacts, TakeBranches, UniqueStrings, RunsOf, Indexed;
    var runs := VisibleRunIds(input);
    var builder := new TraceDagBuilder(input.checkpoints);
    var users := builder.AddUserTurnNodes(input.messages);
    var lasts: map<string, NodeId> := map[];
    for i := 0 to |runs|
      invariant builder.Valid() && builder.checkpoints == input.checkpoints
      invariant (builder.graph, lasts) == TakeRuns(input, runs[..i], ByText)
    {
      ghost var upTo := runs[..i + 1];
      assert upTo[..i] == runs[..i] && upTo[i] == runs[i];
      var at := builder.AddRun(runs[i], Lookup(users, runs[i]), EventsOf(input, runs[i]));
      lasts := lasts[runs[i] := at.last];
    }
    assert runs[..|runs|] == runs;
    ghost var before := builder.graph;
    for i := 0 to |runs|
      invariant builder.Valid() && builder.checkpoints == input.checkpoints
      invariant builder.graph == TakeAllArtifacts(input, before, lasts, runs[..i])
    {
      ghost var upTo := runs[..i + 1];
      assert upTo[..i] == runs[..i] && upTo[i] == runs[i];
      builder.AddArtifactNodes(runs[i], Lookup(lasts, runs[i]), ArtifactsOf(input, runs[i]));
    }
    builder.AddCheckpointBranchNodes(input.branches);
    graph := builder.graph;
  }

  // ---------------------------------------------------------------- forests

  ghost predicate Precedes(order: seq<NodeId>, a: NodeId, b: NodeId) {
    exists i, j :: 0 <= i < j < |order| && order[i] == a && order[j] == b
  }

  /** The node list is a topological order of the edges, and no node has two incoming edges. */
  ghost predicate Forest(g: Graph) {
    && NoRepeats(g.order)
    && (forall i :: 0 <= i < |g.edges| ==> Precedes(g.order, g.edges[i].source, g.edges[i].target))
    && (forall i, j :: 0 <= i < j < |g.edges| ==> g.edges[i].target != g.edges[j].target)
  }

  /** A forest whose tables agree with its node list; checkpoints sit on nodes of runs. */
  ghost predicate Sound(g: Graph) { Forest(g) && Tabled(g) }

  ghost predicate Tabled(g: Graph) {
    && g.keying.ByNode?
    && (forall id :: id in g.order <==> id in g.info)
    && (forall c :: c in g.checkpointNode ==> g.checkpointNode[c] in g.order && RunOf(g.checkpointNode[c]).Some?)
    && (forall id :: id in g.info && RunOf(id).None? ==> g.info[id].eventSeq.None? && g.info[id].toolCall.None?)
  }

  ghost predicate Extends(g: Graph, g': Graph) {
    g.order <= g'.order && g.edges <= g'.edges
  }

  /** What may be stored at a node: only nodes of runs have an event or a tool call. */
  predicate Fits(id: NodeId, node: Node) {
    RunOf(id).None? ==> node.eventSeq.None? && node.toolCall.None?
  }

  lemma PrecedesLast(order: seq<NodeId>, a: NodeId, id: NodeId)
    requires a in order
    ensures Precedes(order + [id], a, id)
  {
    var i :| 0 <= i < |order| && order[i] == a;
    assert (order + [id])[i] == a && (order + [id])[|order|] == id;
  }

  lemma ForestMore(g: Graph, order: seq<NodeId>)
    requires Forest(g) && g.order <= order && NoRepeats(order)
    ensures Forest(g.(order := order))
  {
  }

  lemma ForestByParts(g: Graph, g': Graph)
    requires Forest(g) && g'.order == g.order && g'.edges == g.edges
    ensures Forest(g')
  {
  }

  lemma TablesKeep(g: Graph, checkpoints: seq<Checkpoint>, id: NodeId, node: Node)
    requires Sound(g) && Fits(id, node)
    ensures var g' := AddNode(g, checkpoints, id, node);
            && Tabled(g') && g'.edges == g.edges
            && g'.order == if id in g.order then g.order else g.order + [id]
  {
  }

  lemma NodeKeeps(g: Graph, checkpoints: seq<Checkpoint>, id: NodeId, node: Node)
    requires Sound(g) && Fits(id, node)
    ensures var g' := AddNode(g, checkpoints, id, node);
            && Sound(g') && g'.edges == g.edges
            && g'.order == if id in g.order then g.order else g.order + [id]
  {
    TablesKeep(g, checkpoints, id, node);
    var g' := AddNode(g, checkpoints, id, node);
    hide AddNode, Tabled, Precedes;
    if id in g.order {
      ForestByParts(g, g');
    } else {
      ForestMore(g, g.order + [id]);
      ForestByParts(g.(order := g.order + [id]), g');
    }
  }

  lemma NotATarget(g: Graph, id: NodeId)
    requires Forest(g) && id !in g.order
    ensures forall i :: 0 <= i < |g.edges| ==> g.edges[i].target != id
  {
  }

  lemma EdgeKeeps(g: Graph, parent: NodeId, id: NodeId, kind: EdgeKind)
    requires Sound(g) && Precedes(g.order, parent, id) && parent != id
    requires forall i :: 0 <= i < |g.edges| ==> g.edges[i].target != id
    ensures var g' := AddEdge(g, parent, id, kind);
            Sound(g') && g'.order == g.order && g'.edges == g.edges + [Edge(parent, id, kind)]
  {
  }

  /** A new node hung below one already there. */
  lemma HangKeeps(g: Graph, checkpoints: seq<Checkpoint>, parent: NodeId, id: NodeId, node: Node, kind: EdgeKind)
    requires Sound(g) && Fits(id, node) && parent in g.order && id !in g.order
    ensures var g' := AddEdge(AddNode(g, checkpoints, id, node), parent, id, kind);
            && Sound(g') && g'.order == g.order + [id]
            && g'.edges == g.edges + [Edge(parent, id, kind)]
  {
    NodeKeeps(g, checkpoints, id, node);
    NotATarget(g, id);
    PrecedesLast(g.order, parent, id);
    hide *;
    EdgeKeeps(AddNode(g, checkpoints, id, node), parent, id, kind);
  }

  // ---------------------------------------------------------------- paths

  ghost predicate Linked(edges: seq<Edge>, a: NodeId, b: NodeId) {
    exists kind :: Edge(a, b, kind) in edges
  }

  ghost predicate IsPath(edges: seq<Edge>, a: NodeId, path: seq<NodeId>, b: NodeId) {
    && path != [] && path[0] == a && path[|path| - 1] == b
    && forall i, j :: 0 <= i && j == i + 1 && j < |path| ==> Linked(edges, path[i], path[j])
  }

  ghost predicate Reaches(edges: seq<Edge>, a: NodeId, b: NodeId) {
    exists path :: IsPath(edges, a, path, b)
  }

  lemma ReachesSelf(edges: seq<Edge>, a: NodeId)
    ensures Reaches(edges, a, a)
  {
    assert IsPath(edges, a, [a], a);
  }

  lemma LinkedMore(edges: seq<Edge>, more: seq<Edge>, a: NodeId, b: NodeId)
    requires Linked(edges, a, b) && edges <= more
    ensures Linked(more, a, b)
  {
  }

  lemma ReachesMore(edges: seq<Edge>, more: seq<Edge>, a: NodeId, b: NodeId)
    requires Reaches(edges, a, b) && edges <= more
    ensures Reaches(more, a, b)
  {
    var path :| IsPath(edges, a, path, b);
    forall i, j | 0 <= i && j == i + 1 && j < |path| ensures Linked(more, path[i], path[j]) {
      LinkedMore(edges, more, path[i], path[j]);
    }
    assert IsPath(more, a, path, b);
  }

  lemma ReachesNext(edges: seq<Edge>, a: NodeId, b: NodeId, e: Edge)
    requires Reaches(edges, a, b) && e in edges && e.source == b
    ensures Reaches(edges, a, e.target)
  {
    var path :| IsPath(edges, a, path, b);
    var longer := path + [e.target];
    assert Edge(b, e.target, e.kind) in edges;
    assert Linked(edges, b, e.target);
    forall i, j | 0 <= i && j == i + 1 && j < |longer| ensures Linked(edges, longer[i], longer[j]) {
      if j < |path| { assert Linked(edges, path[i], path[j]); }
    }
    assert IsPath(edges, a, longer, e.target);
  }

  /** Paths of a forest run forward in its node list, so it has no cycle. */
  lemma {:induction false} PathsRunForward(g: Graph, a: NodeId, path: seq<NodeId>, b: NodeId)
    requires Forest(g) && IsPath(g.edges, a, path, b) && |path| > 1
    ensures Precedes(g.order, a, b) && a != b
  {
    var n := |path| - 1;
    assert Linked(g.edges, path[n - 1], path[n]);
    LinkedPrecedes(g, path[n - 1], b);
    NotBeforeItself(g.order, a);
    hide Precedes, Linked, NoRepeats;
    if n > 1 {
      var shorter := path[..n];
      assert forall i, j :: 0 <= i && j == i + 1 && j < n ==> shorter[i] == path[i] && shorter[j] == path[j];
      assert IsPath(g.edges, a, shorter, path[n - 1]);
      PathsRunForward(g, a, shorter, path[n - 1]);
      PrecedesThrough(g.order, a, path[n - 1], b);
    }
  }

  lemma LinkedPrecedes(g: Graph, a: NodeId, b: NodeId)
    requires Forest(g) && Linked(g.edges, a, b)
    ensures Precedes(g.order, a, b)
  {
  }

  lemma PrecedesThrough(order: seq<NodeId>, a: NodeId, b: NodeId, c: NodeId)
    requires NoRepeats(order) && Precedes(order, a, b) && Precedes(order, b, c)
    ensures Precedes(order, a, c)
  {
  }

  lemma NotBeforeItself(order: seq<NodeId>, a: NodeId)
    requires NoRepeats(order)
    ensures !Precedes(order, a, a)
  {
  }

  // ---------------------------------------------------------------- one run

  predicate Makes(run: string, e: EventRecord, id: NodeId) {
    match e.payload
    case ContextCompiled => id == Context(run, e.eventSeq)
    case ToolCall(call) => call.Some? && id == Tool(run, call.value)
    case RunEnd => id == Terminal(run, e.eventSeq)
    case _ => false
  }

  /** The nodes a run should have: its start, and one for each compiled context, tool call and end. */
  ghost predicate Expected(run: string, events: seq<EventRecord>, id: NodeId) {
    id == Start(run) || exists i :: 0 <= i < |events| && Makes(run, events[i], id)
  }

  ghost predicate DistinctSeqs(events: seq<EventRecord>) {
    forall i, j :: 0 <= i < j < |events| ==> events[i].eventSeq != events[j].eventSeq
  }

  lemma ExpectedMore(run: string, before: seq<EventRecord>, e: EventRecord, id: NodeId)
    ensures Expected(run, before + [e], id) <==> Expected(run, before, id) || Makes(run, e, id)
  {
    var events := before + [e];
    if Expected(run, before, id) && id != Start(run) {
      var i :| 0 <= i < |before| && Makes(run, before[i], id);
      assert Makes(run, events[i], id);
    }
    if Makes(run, e, id) { assert Makes(run, events[|before|], id); }
  }

  /** A context or end node of the last event is not there before. */
  lemma FreshByNumber(run: string, before: seq<EventRecord>, e: EventRecord, id: NodeId)
    requires DistinctSeqs(before + [e]) && Makes(run, e, id) && !id.Tool?
    ensures !Expected(run, before, id)
  {
    var events := before + [e];
    forall i | 0 <= i < |before| ensures before[i].eventSeq != e.eventSeq {
      assert events[i].eventSeq != events[|before|].eventSeq;
    }
  }

  /** Where the graph stands within a run: all the run's nodes hang below its start. */
  ghost predicate InRun(g0: Graph, g: Graph, run: string, events: seq<EventRecord>, at: Cursor) {
    && Grown(g0, g, run)
    && Counted(g.order, at.tools, run, events)
    && at.last in g.order && RunOf(at.last) == Some(run)
    && (at.active.Some? ==> at.active.value in g.order && RunOf(at.active.value) == Some(run))
  }

  /** The run's nodes in the list, and the tool calls noted, are those its events make. */
  ghost predicate Counted(order: seq<NodeId>, tools: set<string>, run: string, events: seq<EventRecord>) {
    && (forall id :: RunOf(id) == Some(run) ==> (id in order <==> Expected(run, events, id)))
    && (forall c :: c in tools <==> Expected(run, events, Tool(run, c)))
  }

  lemma CountedMore(order: seq<NodeId>, tools: set<string>, run: string, before: seq<EventRecord>, e: EventRecord,
                    id: NodeId)
    requires Counted(order, tools, run, before) && RunOf(id) == Some(run)
    requires forall x :: Makes(run, e, x) <==> x == id
    ensures Counted(order + [id], if id.Tool? then tools + {id.call} else tools, run, before + [e])
  {
    forall x ensures Expected(run, before + [e], x) <==> Expected(run, before, x) || x == id {
      ExpectedMore(run, before, e, x);
    }
    hide Expected, Makes;
  }

  lemma CountedSame(order: seq<NodeId>, tools: set<string>, run: string, before: seq<EventRecord>, e: EventRecord)
    requires Counted(order, tools, run, before)
    requires forall x :: Makes(run, e, x) ==> Expected(run, before, x)
    ensures Counted(order, tools, run, before + [e])
  {
    forall x ensures Expected(run, before + [e], x) <==> Expected(run, before, x) {
      ExpectedMore(run, before, e, x);
    }
    hide Expected, Makes;
  }

  ghost predicate Grown(g0: Graph, g: Graph, run: string) {
    && Sound(g) && Extends(g0, g)
    && (forall id :: id in g.order && id !in g0.order ==> RunOf(id) == Some(run))
    && (forall id :: id in g.order && RunOf(id) == Some(run) ==> Reaches(g.edges, Start(run), id))
  }

  lemma HangInRun(g0: Graph, g: Graph, checkpoints: seq<Checkpoint>, run: string, parent: NodeId, id: NodeId, node: Node)
    requires Grown(g0, g, run) && RunOf(id) == Some(run) && id !in g.order
    requires parent in g.order && RunOf(parent) == Some(run)
    ensures var g' := AddEdge(AddNode(g, checkpoints, id, node), parent, id, Emits);
            Grown(g0, g', run) && g'.order == g.order + [id]
  {
    HangKeeps(g, checkpoints, parent, id, node, Emits);
    var g' := AddEdge(AddNode(g, checkpoints, id, node), parent, id, Emits);
    hide AddEdge, AddNode, Sound, Reaches;
    assert Edge(parent, id, Emits) in g'.edges;
    forall x | x in g'.order && RunOf(x) == Some(run) ensures Reaches(g'.edges, Start(run), x) {
      if x == id {
        ReachesMore(g.edges, g'.edges, Start(run), parent);
        ReachesNext(g'.edges, Start(run), parent, Edge(parent, id, Emits));
      } else {
        ReachesMore(g.edges, g'.edges, Start(run), x);
      }
    }
  }

  lemma TouchInRun(g0: Graph, g: Graph, checkpoints: seq<Checkpoint>, run: string, id: NodeId, node: Node)
    requires Grown(g0, g, run) && RunOf(id) == Some(run) && id in g.order
    ensures Grown(g0, AddNode(g, checkpoints, id, node), run) && AddNode(g, checkpoints, id, node).order == g.order
  {
  }

  /** The event made `id`, a new node. */
  lemma MadeNew(g0: Graph, g: Graph, g': Graph, run: string, at: Cursor, at': Cursor,
                before: seq<EventRecord>, e: EventRecord, id: NodeId)
    requires InRun(g0, g, run, before, at) && Grown(g0, g', run)
    requires g'.order == g.order + [id] && RunOf(id) == Some(run)
    requires forall x :: Makes(run, e, x) <==> x == id
    requires at'.last == id && (at'.active == at.active || at'.active == Some(id))
    requires at'.tools == if id.Tool? then at.tools + {id.call} else at.tools
    ensures InRun(g0, g', run, before + [e], at')
  {
    CountedMore(g.order, at.tools, run, before, e, id);
    hide Grown, Counted;
  }

  /** The event made no new node. */
  lemma MadeNothing(g0: Graph, g: Graph, g': Graph, run: string, at: Cursor, at': Cursor,
                    before: seq<EventRecord>, e: EventRecord)
    requires InRun(g0, g, run, before, at) && Grown(g0, g', run)
    requires g'.order == g.order && at'.active == at.active && at'.tools == at.tools
    requires at'.last in g.order && RunOf(at'.last) == Some(run)
    requires forall x :: Makes(run, e, x) ==> Expected(run, before, x)
    ensures InRun(g0, g', run, before + [e], at')
  {
    CountedSame(g.order, at.tools, run, before, e);
    hide Grown, Counted;
  }

  lemma EventKeeps(g0: Graph, g: Graph, checkpoints: seq<Checkpoint>, run: string, at: Cursor,
                   before: seq<EventRecord>, e: EventRecord)
    requires DistinctSeqs(before + [e]) && InRun(g0, g, run, before, at)
    ensures var (g', at') := TakeEvent(g, checkpoints, run, at, e);
            InRun(g0, g', run, before + [e], at')
  {
    var (g', at') := TakeEvent(g, checkpoints, run, at, e);
    hide Grown, AddNode, AddEdge, Expected;
    match e.payload {
      case ContextCompiled =>
        var id := Context(run, e.eventSeq);
        FreshByNumber(run, before, e, id);
        HangInRun(g0, g, checkpoints, run, at.last, id, Node(Some(run), Some(e.eventSeq), None, None));
        MadeNew(g0, g, g', run, at, at', before, e, id);
      case ContextDetail(present) =>
        if at.active.Some? && present {
          TouchInRun(g0, g, checkpoints, run, at.active.value, Node(Some(run), None, None, None));
        }
        MadeNothing(g0, g, g', run, at, at', before, e);
      case ToolCall(call) =>
        if call.None? {
          MadeNothing(g0, g, g', run, at, at', before, e);
        } else {
          ToolEventKeeps(g0, g, checkpoints, run, at, before, e, call.value);
        }
      case RunEnd =>
        var id := Terminal(run, e.eventSeq);
        FreshByNumber(run, before, e, id);
        HangInRun(g0, g, checkpoints, run, at.last, id, Node(Some(run), Some(e.eventSeq), None, None));
        MadeNew(g0, g, g', run, at, at', before, e, id);
      case OtherEvent =>
        MadeNothing(g0, g, g', run, at, at', before, e);
    }
  }

  lemma ToolEventKeeps(g0: Graph, g: Graph, checkpoints: seq<Checkpoint>, run: string, at: Cursor,
                       before: seq<EventRecord>, e: EventRecord, call: string)
    requires e.payload == ToolCall(Some(call)) && InRun(g0, g, run, before, at)
    ensures var (g', at') := TakeEvent(g, checkpoints, run, at, e);
            InRun(g0, g', run, before + [e], at')
  {
    var (g', at') := TakeEvent(g, checkpoints, run, at, e);
    var id, node := Tool(run, call), Node(Some(run), Some(e.eventSeq), Some(call), None);
    hide Grown, AddNode, AddEdge, Expected;
    if call in at.tools {
      TouchInRun(g0, g, checkpoints, run, id, node);
      assert at'.tools == at.tools;
      MadeNothing(g0, g, g', run, at, at', before, e);
    } else {
      HangInRun(g0, g, checkpoints, run, at.last, id, node);
      MadeNew(g0, g, g', run, at, at', before, e, id);
    }
  }

  /** A run begins with its start node alone. */
  lemma OnlyTheStart(g: Graph, g': Graph, run: string)
    requires Sound(g') && Extends(g, g') && g'.order == g.order + [Start(run)]
    requires forall id :: id in g.order ==> RunOf(id) != Some(run)
    ensures InRun(g, g', run, [], Cursor(Start(run), None, {}))
  {
    ReachesSelf(g'.edges, Start(run));
    hide Sound, Reaches;
  }

  lemma StartKeeps(g: Graph, checkpoints: seq<Checkpoint>, run: string, user: Option<NodeId>)
    requires Sound(g) && (forall id :: id in g.order ==> RunOf(id) != Some(run)) && (user.Some? ==> user.value in g.order)
    ensures InRun(g, StartRun(g, checkpoints, run, user), run, [], Cursor(Start(run), None, {}))
  {
    var node := Node(Some(run), None, None, None);
    hide AddNode, AddEdge, Sound, InRun;
    assert Start(run) !in g.order;
    if user.Some? {
      HangKeeps(g, checkpoints, user.value, Start(run), node, StartsRun);
    } else {
      NodeKeeps(g, checkpoints, Start(run), node);
    }
    OnlyTheStart(g, StartRun(g, checkpoints, run, user), run);
  }

  lemma {:induction false} EventsKeep(g: Graph, checkpoints: seq<Checkpoint>, run: string, user: Option<NodeId>,
                                      events: seq<EventRecord>)
    requires Sound(g) && (forall id :: id in g.order ==> RunOf(id) != Some(run)) && (user.Some? ==> user.value in g.order)
    requires DistinctSeqs(events)
    ensures var (g', at) := TakeEvents(g, checkpoints, run, user, events);
            InRun(g, g', run, events, at)
  {
    if events == [] {
      StartKeeps(g, checkpoints, run, user);
    } else {
      var before, e := events[..|events| - 1], events[|events| - 1];
      assert before + [e] == events;
      EventsKeep(g, checkpoints, run, user, before);
      var (g', at) := TakeEvents(g, checkpoints, run, user, before);
      EventKeeps(g, g', checkpoints, run, at, before, e);
    }
  }

  // ---------------------------------------------------------------- all runs

  /** The rows the builder reads have ids of their own, and a run's events have numbers of their own. */
  ghost predicate Distinct(input: Input) {
    && NoRepeats(seq(|input.messages|, i requires 0 <= i < |input.messages| => input.messages[i].id))
    && (forall run :: DistinctSeqs(EventsOf(input, run)))
    && NoRepeats(ArtifactIds(input, VisibleRunIds(input)))
    && NoRepeats(seq(|input.branches|, i requires 0 <= i < |input.branches| => input.branches[i].id))
  }

  ghost function ArtifactIds(input: Input, runs: seq<string>): seq<string> {
    if runs == [] then [] else ArtifactIds(input, runs[..|runs| - 1]) + ArtifactsOf(input, runs[|runs| - 1])
  }

  lemma {:induction false} TurnsKeep(checkpoints: seq<Checkpoint>, messages: seq<MessageRow>)
    requires forall i, j :: 0 <= i < j < |messages| ==> messages[i].id != messages[j].id
    ensures var (g, first) := UserTurns(checkpoints, messages, ByNode);
            && Sound(g) && g.edges == []
            && (forall id :: id in g.order ==> id.Message? && exists m :: m in messages && m.id == id.id)
            && (forall run :: run in first ==> first[run] in g.order)
  {
    if messages != [] {
      var before, m := messages[..|messages| - 1], messages[|messages| - 1];
      TurnsKeep(checkpoints, before);
      var (g, first) := UserTurns(checkpoints, before, ByNode);
      NodeKeeps(g, checkpoints, Message(m.id), Node(Some(m.run), None, None, None));
      hide AddNode, Sound;
    } else {
      EmptyIsSound();
    }
  }

  lemma EmptyIsSound()
    ensures Sound(Empty(ByNode))
  {
  }

  lemma {:induction false} UniqueStringsAreUnique(values: seq<string>)
    ensures NoRepeats(UniqueStrings(values))
    ensures forall v :: v in UniqueStrings(values) <==> v in values && v != ""
  {
    if values != [] {
      UniqueStringsAreUnique(values[..|values| - 1]);
      assert values == values[..|values| - 1] + [values[|values| - 1]];
    }
  }

  /** The graph after some runs: it extends the one of the user turns, and each run's nodes, exactly the expected
    * ones, hang below its start. */
  ghost predicate AfterRuns(input: Input, runs: seq<string>, turns: Graph, g: Graph, lasts: map<string, NodeId>) {
    && Sound(g) && Extends(turns, g)
    && (forall id :: id in g.order ==> id.Message? || (RunOf(id).Some? && RunOf(id).value in runs))
    && (forall run :: run in runs ==> RunDone(input, g, run))
    && (forall run :: run in runs ==> run in lasts && lasts[run] in g.order && RunOf(lasts[run]) == Some(run))
  }

  /** The node of the first message the user sent in a run. */
  function UserTurnOf(input: Input, run: string): Option<NodeId> {
    Lookup(UserTurns(input.checkpoints, input.messages, ByNode).1, run)
  }

  /** The run's nodes are the expected ones, each reachable from its start, which hangs below its user turn. */
  ghost predicate RunDone(input: Input, g: Graph, run: string) {
    && HangsBelow(g, UserTurnOf(input, run), run)
    && forall id :: RunOf(id) == Some(run) ==>
         && (id in g.order <==> Expected(run, EventsOf(input, run), id))
         && (id in g.order ==> Reaches(g.edges, Start(run), id))
  }

  predicate HangsBelow(g: Graph, user: Option<NodeId>, run: string) {
    user.Some? ==> Edge(user.value, Start(run), StartsRun) in g.edges
  }

  lemma {:induction false} StartHangs(g: Graph, checkpoints: seq<Checkpoint>, run: string, user: Option<NodeId>,
                                      events: seq<EventRecord>)
    requires g.keying.ByNode? && (user.Some? ==> !user.value.Start?)
    ensures var g' := TakeEvents(g, checkpoints, run, user, events).0;
            g'.keying.ByNode? && HangsBelow(g', user, run)
  {
    hide ResolveCheckpoint, Merged;
    if events != [] { StartHangs(g, checkpoints, run, user, events[..|events| - 1]); }
  }

  lemma RunStaysDone(input: Input, g: Graph, g': Graph, run: string)
    requires RunDone(input, g, run) && Extends(g, g')
    requires forall id :: id in g'.order && id !in g.order ==> RunOf(id) != Some(run)
    ensures RunDone(input, g', run)
  {
    hide Reaches, Expected, UserTurnOf;
    forall id | RunOf(id) == Some(run) && id in g'.order ensures Reaches(g'.edges, Start(run), id) {
      assert id in g.order;
      ReachesMore(g.edges, g'.edges, Start(run), id);
    }
  }

  lemma {:induction false} RunsKeep(input: Input, runs: seq<string>)
    requires Distinct(input) && NoRepeats(runs)
    ensures var (g, lasts) := TakeRuns(input, runs, ByNode);
            AfterRuns(input, runs, UserTurns(input.checkpoints, input.messages, ByNode).0, g, lasts)
  {
    var (turns, users) := UserTurns(input.checkpoints, input.messages, ByNode);
    TurnsOf(input);
    if runs != [] {
      var before, run := runs[..|runs| - 1], runs[|runs| - 1];
      assert runs == before + [run] && run !in before;
      RunsKeep(input, before);
      var (g, lasts) := TakeRuns(input, before, ByNode);
      var (g', at) := TakeEvents(g, input.checkpoints, run, Lookup(users, run), EventsOf(input, run));
      assert TakeRuns(input, runs, ByNode) == (g', lasts[run := at.last]) && Lookup(users, run) == UserTurnOf(input, run);
      hide *;
      OneRunKeeps(input, before, run, turns, g, lasts);
    } else {
      hide Sound, UserTurns;
    }
  }

  lemma OneRunKeeps(input: Input, before: seq<string>, run: string, turns: Graph, g: Graph, lasts: map<string, NodeId>)
    requires Distinct(input) && AfterRuns(input, before, turns, g, lasts) && run !in before
    requires turns == UserTurns(input.checkpoints, input.messages, ByNode).0
    ensures var (g', at) := TakeEvents(g, input.checkpoints, run, UserTurnOf(input, run), EventsOf(input, run));
            AfterRuns(input, before + [run], turns, g', lasts[run := at.last])
  {
    var (g', at) := TakeEvents(g, input.checkpoints, run, UserTurnOf(input, run), EventsOf(input, run));
    TurnsOf(input);
    hide TakeEvents, Sound, RunDone, DistinctSeqs, NoRepeats, UserTurns;
    assert DistinctSeqs(EventsOf(input, run));
    EventsKeep(g, input.checkpoints, run, UserTurnOf(input, run), EventsOf(input, run));
    StartHangs(g, input.checkpoints, run, UserTurnOf(input, run), EventsOf(input, run));
    hide *;
    RunAdded(input, before, run, turns, g, lasts, g', at);
  }

  lemma TurnsOf(input: Input)
    requires Distinct(input)
    ensures var (turns, users) := UserTurns(input.checkpoints, input.messages, ByNode);
            && Sound(turns) && (forall id :: id in turns.order ==> id.Message?)
            && (forall run :: run in users ==> users[run] in turns.order)
  {
    var ids := seq(|input.messages|, i requires 0 <= i < |input.messages| => input.messages[i].id);
    forall i, j | 0 <= i < j < |input.messages| ensures input.messages[i].id != input.messages[j].id {
      assert ids[i] != ids[j];
    }
    TurnsKeep(input.checkpoints, input.messages);
  }

  lemma RunAdded(input: Input, before: seq<string>, run: string, turns: Graph, g: Graph, lasts: map<string, NodeId>,
                 g': Graph, at: Cursor)
    requires AfterRuns(input, before, turns, g, lasts) && run !in before
    requires InRun(g, g', run, EventsOf(input, run), at) && HangsBelow(g', UserTurnOf(input, run), run)
    ensures AfterRuns(input, before + [run], turns, g', lasts[run := at.last])
  {
    hide Sound, Reaches, Expected, Distinct, UserTurnOf, HangsBelow;
    forall r | r in before ensures RunDone(input, g', r) {
      RunStaysDone(input, g, g', r);
    }
    assert RunDone(input, g', run);
    hide RunDone;
  }

  // ---------------------------------------------------------------- artifacts and branches

  /** All runs stand in the graph, which now grows below them only. */
  ghost predicate Settled(input: Input, runs: seq<string>, g: Graph) {
    && Sound(g)
    && (forall id :: id in g.order && RunOf(id).Some? ==> RunOf(id).value in runs)
    && (forall run :: run in runs ==> RunDone(input, g, run))
  }

  /** One more node below a node of a run, itself not a node of a run. */
  lemma HangBelowRun(input: Input, runs: seq<string>, g: Graph, run: string, parent: NodeId, id: NodeId, node: Node,
                     kind: EdgeKind)
    requires Settled(input, runs, g) && parent in g.order && RunOf(parent) == Some(run)
    requires id !in g.order && RunOf(id).None? && Fits(id, node)
    ensures var g' := AddEdge(AddNode(g, input.checkpoints, id, node), parent, id, kind);
            && Settled(input, runs, g') && Extends(g, g') && g'.order == g.order + [id]
            && Edge(parent, id, kind) in g'.edges && run in runs && Reaches(g'.edges, Start(run), id)
  {
    HangKeeps(g, input.checkpoints, parent, id, node, kind);
    var g' := AddEdge(AddNode(g, input.checkpoints, id, node), parent, id, kind);
    hide AddEdge, AddNode, Sound;
    assert RunDone(input, g, run);
    assert Reaches(g.edges, Start(run), parent);
    ReachesMore(g.edges, g'.edges, Start(run), parent);
    assert Edge(parent, id, kind) in g'.edges;
    ReachesNext(g'.edges, Start(run), parent, Edge(parent, id, kind));
    hide Reaches, RunDone;
    forall r | r in runs ensures RunDone(input, g', r) {
      RunStaysDone(input, g, g', r);
    }
  }

  ghost predicate ArtifactDone(g: Graph, run: string, id: string) {
    Artifact(id) in g.order && Reaches(g.edges, Start(run), Artifact(id))
  }

  lemma ArtifactStays(g: Graph, g': Graph, run: string, id: string)
    requires ArtifactDone(g, run, id) && Extends(g, g')
    ensures ArtifactDone(g', run, id)
  {
    ReachesMore(g.edges, g'.edges, Start(run), Artifact(id));
  }

  /** The artifacts of a run are added, and nothing else, each reachable from the run's start. */
  ghost predicate ArtifactsAdded(input: Input, runs: seq<string>, g: Graph, g': Graph, run: string, ids: seq<string>) {
    && Settled(input, runs, g') && Extends(g, g')
    && (forall id :: id in g'.order && id !in g.order ==> id.Artifact? && id.id in ids)
    && (forall a :: a in ids ==> ArtifactDone(g', run, a))
  }

  lemma OneMoreArtifact(input: Input, runs: seq<string>, g: Graph, mid: Graph, g': Graph, run: string,
                        before: seq<string>, a: string)
    requires ArtifactsAdded(input, runs, g, mid, run, before)
    requires Settled(input, runs, g') && Extends(mid, g') && g'.order == mid.order + [Artifact(a)]
    requires Reaches(g'.edges, Start(run), Artifact(a))
    ensures ArtifactsAdded(input, runs, g, g', run, before + [a])
  {
    hide Settled, Reaches;
    forall b | b in before + [a] ensures ArtifactDone(g', run, b) {
      if b in before { ArtifactStays(mid, g', run, b); }
    }
    hide ArtifactDone;
  }

  lemma {:induction false} ArtifactsKeep(input: Input, runs: seq<string>, g: Graph, run: string, parent: NodeId,
                                         ids: seq<string>)
    requires Settled(input, runs, g) && parent in g.order && RunOf(parent) == Some(run)
    requires NoRepeats(ids) && forall a :: a in ids ==> Artifact(a) !in g.order
    ensures ArtifactsAdded(input, runs, g, TakeArtifacts(g, input.checkpoints, run, Some(parent), ids), run, ids)
  {
    if ids != [] {
      var before, a := ids[..|ids| - 1], ids[|ids| - 1];
      assert ids == before + [a] && a !in before;
      assert NoRepeats(before);
      hide Settled, ArtifactDone, AddNode, AddEdge, NoRepeats, Reaches;
      ArtifactsKeep(input, runs, g, run, parent, before);
      var mid := TakeArtifacts(g, input.checkpoints, run, Some(parent), before);
      assert parent in mid.order && Artifact(a) !in mid.order;
      HangBelowRun(input, runs, mid, run, parent, Artifact(a), Node(Some(run), None, None, None), ProducesArtifact);
      OneMoreArtifact(input, runs, g, mid, TakeArtifacts(g, input.checkpoints, run, Some(parent), ids), run, before, a);
    }
  }

  ghost predicate AllAdded(input: Input, runs: seq<string>, g: Graph, g': Graph, part: seq<string>) {
    && Settled(input, runs, g') && Extends(g, g')
    && (forall id :: id in g'.order && id !in g.order ==> id.Artifact? && id.id in ArtifactIds(input, part))
    && (forall run, a :: run in part && a in ArtifactsOf(input, run) ==> ArtifactDone(g', run, a))
  }

  lemma OneMoreRun(input: Input, runs: seq<string>, g: Graph, mid: Graph, g': Graph, before: seq<string>, run: string)
    requires AllAdded(input, runs, g, mid, before)
    requires ArtifactsAdded(input, runs, mid, g', run, ArtifactsOf(input, run))
    ensures AllAdded(input, runs, g, g', before + [run])
  {
    var part := before + [run];
    assert part[..|part| - 1] == before;
    hide Settled;
    forall r, a | r in part && a in ArtifactsOf(input, r) ensures ArtifactDone(g', r, a) {
      if r in before { ArtifactStays(mid, g', r, a); }
    }
    hide ArtifactDone;
  }

  lemma {:induction false} AllArtifactsKeep(input: Input, runs: seq<string>, g: Graph, lasts: map<string, NodeId>,
                                            part: seq<string>)
    requires Settled(input, runs, g) && NoRepeats(ArtifactIds(input, part))
    requires forall id :: id in g.order ==> !id.Artifact?
    requires forall run :: run in part ==> run in lasts && lasts[run] in g.order && RunOf(lasts[run]) == Some(run)
    ensures AllAdded(input, runs, g, TakeAllArtifacts(input, g, lasts, part), part)
  {
    if part != [] {
      var before, run := part[..|part| - 1], part[|part| - 1];
      var ids := ArtifactsOf(input, run);
      assert part == before + [run];
      NoRepeatsSplit(ArtifactIds(input, before), ids);
      hide NoRepeats, Settled, ArtifactDone, TakeArtifacts;
      AllArtifactsKeep(input, runs, g, lasts, before);
      var mid := TakeAllArtifacts(input, g, lasts, before);
      var g' := TakeAllArtifacts(input, g, lasts, part);
      assert g' == TakeArtifacts(mid, input.checkpoints, run, Some(lasts[run]), ids);
      hide TakeAllArtifacts;
      ArtifactsKeep(input, runs, mid, run, lasts[run], ids);
      hide *;
      OneMoreRun(input, runs, g, mid, g', before, run);
    }
  }

  lemma NoRepeatsSplit<T>(a: seq<T>, b: seq<T>)
    requires NoRepeats(a + b)
    ensures NoRepeats(a) && NoRepeats(b) && forall x :: x in b ==> x !in a
  {
    var ab := a + b;
    forall i, j | 0 <= i < j < |a| ensures a[i] != a[j] { assert ab[i] != ab[j]; }
    forall i, j | 0 <= i < j < |b| ensures b[i] != b[j] { assert ab[|a| + i] != ab[|a| + j]; }
    forall i, j | 0 <= i < |a| && 0 <= j < |b| ensures a[i] != b[j] { assert ab[i] != ab[|a| + j]; }
  }

  // ---------------------------------------------------------------- branches

  /** A branch is shown when its fork checkpoint sits on a node. */
  predicate IsShown(g: Graph, b: BranchRow) {
    b.forkCheckpoint.Some? && b.forkCheckpoint.value != "" && b.forkCheckpoint.value in g.checkpointNode
  }

  /** Exactly the shown branches are added, each below the node of its fork checkpoint. */
  ghost predicate BranchesAdded(input: Input, runs: seq<string>, g: Graph, g': Graph, branches: seq<BranchRow>) {
    && Settled(input, runs, g') && Extends(g, g') && g'.checkpointNode == g.checkpointNode
    && (forall id :: id in g'.order && id !in g.order ==> id.Branch? && IsBranchId(branches, id.id))
    && (forall b :: b in branches ==> (Branch(b.id) in g'.order <==> IsShown(g, b)))
    && (forall b :: b in branches && IsShown(g, b) ==> BranchDone(g', runs, b))
  }

  ghost predicate IsBranchId(branches: seq<BranchRow>, id: string) {
    exists b :: b in branches && b.id == id
  }

  ghost predicate BranchDone(g: Graph, runs: seq<string>, b: BranchRow) {
    && IsShown(g, b)
    && var parent := g.checkpointNode[b.forkCheckpoint.value];
       && Edge(parent, Branch(b.id), BranchesFrom) in g.edges
       && RunOf(parent).Some? && RunOf(parent).value in runs
       && Reaches(g.edges, Start(RunOf(parent).value), Branch(b.id))
  }

  lemma BranchStays(g: Graph, g': Graph, runs: seq<string>, b: BranchRow)
    requires BranchDone(g, runs, b) && Extends(g, g') && g'.checkpointNode == g.checkpointNode
    ensures BranchDone(g', runs, b)
  {
    var parent := g.checkpointNode[b.forkCheckpoint.value];
    ReachesMore(g.edges, g'.edges, Start(RunOf(parent).value), Branch(b.id));
  }

  lemma BranchNodeHasNoCheckpoint(g: Graph, checkpoints: seq<Checkpoint>, b: BranchRow)
    requires g.keying.ByNode? && Branch(b.id) !in g.info
    ensures AddNode(g, checkpoints, Branch(b.id), Node(Some(b.forkRun), None, None, None)).checkpointNode == g.checkpointNode
  {
  }

  lemma OneMoreBranch(input: Input, runs: seq<string>, g: Graph, mid: Graph, g': Graph, before: seq<BranchRow>, b: BranchRow)
    requires BranchesAdded(input, runs, g, mid, before) && !IsBranchId(before, b.id) && Branch(b.id) !in g.order
    requires Settled(input, runs, g') && Extends(mid, g') && g'.checkpointNode == mid.checkpointNode
    requires g'.order == if IsShown(g, b) then mid.order + [Branch(b.id)] else mid.order
    requires IsShown(g, b) ==> BranchDone(g', runs, b)
    ensures BranchesAdded(input, runs, g, g', before + [b])
  {
    var branches := before + [b];
    hide Settled, BranchDone, IsShown;
    forall c | c in before && IsShown(g, c) ensures BranchDone(g', runs, c) { BranchStays(mid, g', runs, c); }
    forall c | c in before ensures c.id != b.id { assert !IsBranchId(before, b.id); }
    forall id: string | IsBranchId(before, id) || id == b.id ensures IsBranchId(branches, id) {
      if IsBranchId(before, id) {
        var c :| c in before && c.id == id;
        assert c in branches;
      } else {
        assert b in branches;
      }
    }
    hide IsBranchId;
  }

  lemma {:induction false} BranchesKeep(input: Input, runs: seq<string>, g: Graph, branches: seq<BranchRow>)
    requires Settled(input, runs, g)
    requires forall i, j :: 0 <= i < j < |branches| ==> branches[i].id != branches[j].id
    requires forall b :: b in branches ==> Branch(b.id) !in g.order
    ensures BranchesAdded(input, runs, g, TakeBranches(g, input.checkpoints, branches), branches)
  {
    if branches != [] {
      var before, b := branches[..|branches| - 1], branches[|branches| - 1];
      assert branches == before + [b] && !IsBranchId(before, b.id);
      BranchesKeep(input, runs, g, before);
      var mid := TakeBranches(g, input.checkpoints, before);
      hide TakeBranches, Reaches, RunDone;
      var g' := TakeBranch(mid, input.checkpoints, b);
      BranchKeeps(input, runs, g, mid, before, b);
      hide *;
      OneMoreBranch(input, runs, g, mid, g', before, b);
    }
  }

  lemma BranchKeeps(input: Input, runs: seq<string>, g: Graph, mid: Graph, before: seq<BranchRow>, b: BranchRow)
    requires BranchesAdded(input, runs, g, mid, before) && !IsBranchId(before, b.id) && Branch(b.id) !in g.order
    ensures var g' := TakeBranch(mid, input.checkpoints, b);
            && Settled(input, runs, g') && Extends(mid, g') && g'.checkpointNode == mid.checkpointNode
            && (g'.order == if IsShown(g, b) then mid.order + [Branch(b.id)] else mid.order)
            && (IsShown(g, b) ==> BranchDone(g', runs, b))
  {
    if IsShown(g, b) {
      assert Branch(b.id) !in mid.order;
      assert Tabled(mid);
      var parent := mid.checkpointNode[b.forkCheckpoint.value];
      BranchNodeHasNoCheckpoint(mid, input.checkpoints, b);
      hide Sound, RunDone, Reaches, AddNode;
      HangBelowRun(input, runs, mid, RunOf(parent).value, parent, Branch(b.id), Node(Some(b.forkRun), None, None, None),
                   BranchesFrom);
    }
  }

  // ---------------------------------------------------------------- the whole graph

  lemma RunsAreSettled(input: Input)
    requires Distinct(input)
    ensures var runs := VisibleRunIds(input);
            var (g, lasts) := TakeRuns(input, runs, ByNode);
            && Settled(input, runs, g)
            && (forall id :: id in g.order ==> id.Message? || RunOf(id).Some?)
            && (forall run :: run in runs ==> run in lasts && lasts[run] in g.order && RunOf(lasts[run]) == Some(run))
  {
    var runs := VisibleRunIds(input);
    UniqueStringsAreUnique(RunsOf(input.messages)
                           + (if input.own.Some? && input.own.value.forkCheckpoint.Some?
                                 && input.own.value.forkCheckpoint.value != "" then [input.own.value.forkRun] else []));
    RunsKeep(input, runs);
    hide Distinct, TakeRuns, UserTurns, VisibleRunIds, Sound, RunDone;
  }

  lemma BranchIdsDiffer(input: Input)
    requires Distinct(input)
    ensures forall i, j :: 0 <= i < j < |input.branches| ==> input.branches[i].id != input.branches[j].id
  {
    var ids := seq(|input.branches|, i requires 0 <= i < |input.branches| => input.branches[i].id);
    forall i, j | 0 <= i < j < |input.branches| ensures input.branches[i].id != input.branches[j].id {
      assert ids[i] != ids[j];
    }
  }

  /** Whatever the order of events and however tool calls interleave, the trace graph is a forest listed in
    * topological order. Each run has exactly one node per compiled context, tool call and end, all reachable from
    * its start, as are its artifacts; a branch hangs below the node of its fork checkpoint when there is one. */
  lemma NodesFormAForest(input: Input)
    requires Distinct(input)
    ensures var g, runs := Build(input, ByNode), VisibleRunIds(input);
            && Forest(g) && (forall id :: id in g.order <==> id in g.info)
            && (forall run :: run in runs ==> RunDone(input, g, run))
            && (forall run, a :: run in runs && a in ArtifactsOf(input, run) ==> ArtifactDone(g, run, a))
            && (forall b :: b in input.branches ==> (Branch(b.id) in g.order <==> IsShown(g, b)))
            && (forall b :: b in input.branches && IsShown(g, b) ==> BranchDone(g, runs, b))
  {
    var runs := VisibleRunIds(input);
    var (g0, lasts) := TakeRuns(input, runs, ByNode);
    var g1 := TakeAllArtifacts(input, g0, lasts, runs);
    var g := Build(input, ByNode);
    assert g == TakeBranches(g1, input.checkpoints, input.branches);
    assert NoRepeats(ArtifactIds(input, runs));
    RunsAreSettled(input);
    BranchIdsDiffer(input);
    hide *;
    NothingYet(input, g0);
    AllArtifactsKeep(input, runs, g0, lasts, runs);
    OnlyArtifacts(input, runs, g0, g1);
    BranchesKeep(input, runs, g1, input.branches);
    Conclude(input, runs, g0, g1, g);
  }

  lemma NothingYet(input: Input, g: Graph)
    requires forall id :: id in g.order ==> id.Message? || RunOf(id).Some?
    ensures forall id :: id in g.order ==> !id.Artifact? && !id.Branch?
  {
  }

  lemma OnlyArtifacts(input: Input, runs: seq<string>, g0: Graph, g1: Graph)
    requires AllAdded(input, runs, g0, g1, runs) && forall id :: id in g0.order ==> !id.Branch?
    ensures Settled(input, runs, g1) && forall b :: b in input.branches ==> Branch(b.id) !in g1.order
  {
  }

  lemma Conclude(input: Input, runs: seq<string>, g0: Graph, g1: Graph, g: Graph)
    requires AllAdded(input, runs, g0, g1, runs) && BranchesAdded(input, runs, g1, g, input.branches)
    ensures Forest(g) && forall id :: id in g.order <==> id in g.info
    ensures forall run :: run in runs ==> RunDone(input, g, run)
    ensures forall run, a :: run in runs && a in ArtifactsOf(input, run) ==> ArtifactDone(g, run, a)
    ensures forall b :: b in input.branches ==> (Branch(b.id) in g.order <==> IsShown(g, b))
    ensures forall b :: b in input.branches && IsShown(g, b) ==> BranchDone(g, runs, b)
  {
    hide Forest, RunDone, BranchDone;
    forall run, a | run in runs && a in ArtifactsOf(input, run) ensures ArtifactDone(g, run, a) {
      ArtifactStays(g1, g, run, a);
    }
    hide ArtifactDone;
    assert g.checkpointNode == g1.checkpointNode;
  }

  // ---------------------------------------------------------------- checkpoints on their nodes

  /** A node of a run carries the number of an event of the run that makes it; other nodes carry none. */
  ghost predicate Numbered(input: Input, id: NodeId, node: Node) {
    match RunOf(id)
    case None => node.eventSeq.None? && node.toolCall.None?
    case Some(run) =>
      && node.run == Some(run)
      && (node.eventSeq.Some? ==> MadeAt(EventsOf(input, run), run, node.eventSeq.value, id))
      && (id.Context? ==> node.toolCall.None?)
  }

  ghost predicate MadeAt(events: seq<EventRecord>, run: string, eventSeq: nat, id: NodeId) {
    exists e :: e in events && e.eventSeq == eventSeq && Makes(run, e, id)
  }

  /** A checkpoint taken when a context was compiled: the first of its kind at that event, of no tool call. */
  ghost predicate OfContext(input: Input, run: string, eventSeq: nat, c: Checkpoint) {
    && run != "" && DistinctSeqs(EventsOf(input, run))
    && EventRecord(eventSeq, ContextCompiled) in EventsOf(input, run)
    && FirstOfKind(AtEvent(input.checkpoints, run, eventSeq), ContextCompiledPoint) == Some(c)
    && (c.toolCall.None? || c.toolCall == Some(""))
    && forall d :: d in input.checkpoints && d.id == c.id ==> d == c
  }

  /** All nodes are numbered by their events, and the checkpoint sits on its context's node. */
  ghost predicate Anchored(input: Input, g: Graph, run: string, eventSeq: nat, c: Checkpoint) {
    && g.keying.ByNode?
    && (forall id :: id in g.info ==> Numbered(input, id, g.info[id]) && (id.Context? ==> g.info[id].eventSeq.Some?))
    && (Context(run, eventSeq) in g.info ==> c.id in g.checkpointNode && g.checkpointNode[c.id] == Context(run, eventSeq))
  }

  lemma {:induction false} AtEventHolds(checkpoints: seq<Checkpoint>, run: string, eventSeq: nat)
    ensures forall c :: c in AtEvent(checkpoints, run, eventSeq) ==> c in checkpoints && c.run == run && c.eventSeq == eventSeq
  {
    if checkpoints != [] { AtEventHolds(checkpoints[..|checkpoints| - 1], run, eventSeq); }
  }

  lemma {:induction false} AtToolHolds(checkpoints: seq<Checkpoint>, key: string)
    ensures var c := AtTool(checkpoints, key);
            c.Some? ==> c.value in checkpoints && c.value.toolCall.Some? && c.value.toolCall != Some("")
  {
    if checkpoints != [] { AtToolHolds(checkpoints[..|checkpoints| - 1], key); }
  }

  lemma {:induction false} FirstOfKindHolds(checkpoints: seq<Checkpoint>, kind: CheckpointKind)
    ensures var c := FirstOfKind(checkpoints, kind); c.Some? ==> c.value in checkpoints && checkpoints != []
  {
    if checkpoints != [] { FirstOfKindHolds(checkpoints[1..], kind); }
  }

  /** The checkpoint is found for its context's node and for no other. */
  lemma FoundOnlyThere(input: Input, run: string, eventSeq: nat, c: Checkpoint, id: NodeId, node: Node)
    requires OfContext(input, run, eventSeq, c) && Numbered(input, id, node) && (id.Context? ==> node.eventSeq.Some?)
    ensures var found := ResolveCheckpoint(input.checkpoints, id, node);
            && (id == Context(run, eventSeq) ==> found == Some(c))
            && (found.Some? && found.value.id == c.id ==> id == Context(run, eventSeq))
  {
    AtEventHolds(input.checkpoints, run, eventSeq);
    FirstOfKindHolds(AtEvent(input.checkpoints, run, eventSeq), ContextCompiledPoint);
    if node.run.Some? && HasCall(node) { AtToolHolds(input.checkpoints, ToolKey(node.run.value, node.toolCall.value)); }
    if node.run.Some? && node.eventSeq.Some? {
      AtEventHolds(input.checkpoints, node.run.value, node.eventSeq.value);
      FirstOfKindHolds(AtEvent(input.checkpoints, node.run.value, node.eventSeq.value), ContextCompiledPoint);
      FirstOfKindHolds(AtEvent(input.checkpoints, node.run.value, node.eventSeq.value), RunTerminalPoint);
      if RunOf(id).Some? { OneEventAt(input, run, eventSeq, id, node); }
    }
    hide AtEvent, AtTool, FirstOfKind, MadeAt, EventsOf;
  }

  /** Only the context's node is made by the event of that number. */
  lemma OneEventAt(input: Input, run: string, eventSeq: nat, id: NodeId, node: Node)
    requires DistinctSeqs(EventsOf(input, run)) && EventRecord(eventSeq, ContextCompiled) in EventsOf(input, run)
    requires Numbered(input, id, node) && RunOf(id).Some? && node.eventSeq.Some?
    ensures node.run == Some(run) && node.eventSeq == Some(eventSeq) ==> id == Context(run, eventSeq)
    ensures id.Context? ==> node.eventSeq == Some(id.eventSeq)
  {
    var events := EventsOf(input, RunOf(id).value);
    var e :| e in events && e.eventSeq == node.eventSeq.value && Makes(RunOf(id).value, e, id);
    if node.run == Some(run) && node.eventSeq == Some(eventSeq) {
      var i :| 0 <= i < |events| && events[i] == e;
      var j :| 0 <= j < |events| && events[j] == EventRecord(eventSeq, ContextCompiled);
      assert i == j;
    }
  }

  /** Adding or merging a numbered node. */
  lemma NodeAnchors(input: Input, g: Graph, run: string, eventSeq: nat, c: Checkpoint, id: NodeId, node: Node)
    requires OfContext(input, run, eventSeq, c) && Anchored(input, g, run, eventSeq, c)
    requires Numbered(input, id, node) && (id.Context? && id !in g.info ==> node.eventSeq.Some?)
    ensures Anchored(input, AddNode(g, input.checkpoints, id, node), run, eventSeq, c)
  {
    var next := if id in g.info then Merged(g.info[id], node) else node;
    NumberedMerges(input, g, id, node);
    hide OfContext, Numbered, MadeAt, ResolveCheckpoint, Continues, Merged;
    FoundOnlyThere(input, run, eventSeq, c, id, next);
    AnchoredPut(input, g, run, eventSeq, c, id, next, ResolveCheckpoint(input.checkpoints, id, next));
  }

  lemma AnchoredPut(input: Input, g: Graph, run: string, eventSeq: nat, c: Checkpoint, id: NodeId, next: Node,
                    found: Option<Checkpoint>)
    requires Anchored(input, g, run, eventSeq, c) && Numbered(input, id, next) && (id.Context? ==> next.eventSeq.Some?)
    requires id == Context(run, eventSeq) ==> found == Some(c)
    requires found.Some? && found.value.id == c.id ==> id == Context(run, eventSeq)
    ensures Anchored(input, g.(order := if id in g.info then g.order else g.order + [id],
                               info := g.info[id := next.(checkpoint := if found.Some? then Some(found.value.id) else next.checkpoint)],
                               checkpointNode := if found.Some? then g.checkpointNode[found.value.id := id] else g.checkpointNode),
                     run, eventSeq, c)
  {
    NumberedAnyway(input, id, next);
    hide Numbered;
  }

  lemma NumberedMerges(input: Input, g: Graph, id: NodeId, node: Node)
    requires forall x :: x in g.info ==> Numbered(input, x, g.info[x]) && (x.Context? ==> g.info[x].eventSeq.Some?)
    requires Numbered(input, id, node) && (id.Context? && id !in g.info ==> node.eventSeq.Some?)
    ensures var next := if id in g.info then Merged(g.info[id], node) else node;
            Numbered(input, id, next) && (id.Context? ==> next.eventSeq.Some?)
  {
    hide MadeAt;
  }

  /** A node's checkpoint does not bear on its numbering. */
  lemma NumberedAnyway(input: Input, id: NodeId, node: Node)
    requires Numbered(input, id, node)
    ensures forall c :: Numbered(input, id, node.(checkpoint := c))
  {
    hide MadeAt;
  }

  lemma EventAnchors(input: Input, g: Graph, run: string, eventSeq: nat, c: Checkpoint, r: string, at: Cursor, e: EventRecord)
    requires OfContext(input, run, eventSeq, c) && Anchored(input, g, run, eventSeq, c) && e in EventsOf(input, r)
    requires at.active.Some? ==> at.active.value in g.info && at.active.value.Context? && at.active.value.run == r
    ensures var (g', at') := TakeEvent(g, input.checkpoints, r, at, e);
            && Anchored(input, g', run, eventSeq, c)
            && (at'.active.Some? ==> at'.active.value in g'.info && at'.active.value.Context? && at'.active.value.run == r)
  {
    hide OfContext, Anchored, ResolveCheckpoint;
    match e.payload
    case ContextCompiled =>
      assert MadeAt(EventsOf(input, r), r, e.eventSeq, Context(r, e.eventSeq));
      NodeAnchors(input, g, run, eventSeq, c, Context(r, e.eventSeq), Node(Some(r), Some(e.eventSeq), None, None));
      EdgeAnchors(input, AddNode(g, input.checkpoints, Context(r, e.eventSeq), Node(Some(r), Some(e.eventSeq), None, None)),
                  run, eventSeq, c, at.last, Context(r, e.eventSeq), Emits);
    case ContextDetail(present) =>
      if at.active.Some? && present {
        NodeAnchors(input, g, run, eventSeq, c, at.active.value, Node(Some(r), None, None, None));
      }
    case ToolCall(call) =>
      if call.Some? {
        var node := Node(Some(r), Some(e.eventSeq), call, None);
        assert MadeAt(EventsOf(input, r), r, e.eventSeq, Tool(r, call.value));
        NodeAnchors(input, g, run, eventSeq, c, Tool(r, call.value), node);
        EdgeAnchors(input, AddNode(g, input.checkpoints, Tool(r, call.value), node), run, eventSeq, c,
                    at.last, Tool(r, call.value), Emits);
      }
    case RunEnd =>
      assert MadeAt(EventsOf(input, r), r, e.eventSeq, Terminal(r, e.eventSeq));
      NodeAnchors(input, g, run, eventSeq, c, Terminal(r, e.eventSeq), Node(Some(r), Some(e.eventSeq), None, None));
      EdgeAnchors(input, AddNode(g, input.checkpoints, Terminal(r, e.eventSeq), Node(Some(r), Some(e.eventSeq), None, None)),
                  run, eventSeq, c, at.last, Terminal(r, e.eventSeq), Emits);
    case OtherEvent =>
  }

  lemma EdgeAnchors(input: Input, g: Graph, run: string, eventSeq: nat, c: Checkpoint, a: NodeId, b: NodeId, kind: EdgeKind)
    requires Anchored(input, g, run, eventSeq, c)
    ensures Anchored(input, AddEdge(g, a, b, kind), run, eventSeq, c) && AddEdge(g, a, b, kind).info == g.info
  {
  }

  lemma {:induction false} EventsAnchor(input: Input, g: Graph, run: string, eventSeq: nat, c: Checkpoint, r: string,
                                        user: Option<NodeId>, events: seq<EventRecord>)
    requires OfContext(input, run, eventSeq, c) && Anchored(input, g, run, eventSeq, c) && events <= EventsOf(input, r)
    ensures var (g', at) := TakeEvents(g, input.checkpoints, r, user, events);
            && Anchored(input, g', run, eventSeq, c)
            && (at.active.Some? ==> at.active.value in g'.info && at.active.value.Context? && at.active.value.run == r)
  {
    if events == [] {
      var node := Node(Some(r), None, None, None);
      NodeAnchors(input, g, run, eventSeq, c, Start(r), node);
      if user.Some? {
        EdgeAnchors(input, AddNode(g, input.checkpoints, Start(r), node), run, eventSeq, c, user.value, Start(r), StartsRun);
      }
      hide OfContext, Anchored, AddNode, AddEdge;
    } else {
      var before, e := events[..|events| - 1], events[|events| - 1];
      EventsAnchor(input, g, run, eventSeq, c, r, user, before);
      assert e in EventsOf(input, r) by { assert EventsOf(input, r)[|events| - 1] == e; }
      var (mid, at) := TakeEvents(g, input.checkpoints, r, user, before);
      hide OfContext, Anchored, TakeEvent;
      EventAnchors(input, mid, run, eventSeq, c, r, at, e);
    }
  }

  lemma {:induction false} TurnsAnchor(input: Input, run: string, eventSeq: nat, c: Checkpoint, messages: seq<MessageRow>)
    requires OfContext(input, run, eventSeq, c)
    ensures Anchored(input, UserTurns(input.checkpoints, messages, ByNode).0, run, eventSeq, c)
  {
    hide OfContext, AddNode;
    if messages != [] {
      var before, m := messages[..|messages| - 1], messages[|messages| - 1];
      TurnsAnchor(input, run, eventSeq, c, before);
      NodeAnchors(input, UserTurns(input.checkpoints, before, ByNode).0, run, eventSeq, c, Message(m.id),
                  Node(Some(m.run), None, None, None));
      hide Anchored;
    }
  }

  lemma {:induction false} RunsAnchor(input: Input, run: string, eventSeq: nat, c: Checkpoint, runs: seq<string>)
    requires OfContext(input, run, eventSeq, c)
    ensures Anchored(input, TakeRuns(input, runs, ByNode).0, run, eventSeq, c)
  {
    hide OfContext, Anchored, TakeEvents, UserTurns;
    TurnsAnchor(input, run, eventSeq, c, input.messages);
    if runs != [] {
      var before, r := runs[..|runs| - 1], runs[|runs| - 1];
      RunsAnchor(input, run, eventSeq, c, before);
      EventsAnchor(input, TakeRuns(input, before, ByNode).0, run, eventSeq, c, r, UserTurnOf(input, r), EventsOf(input, r));
    }
  }

  lemma {:induction false} ArtifactsAnchor(input: Input, g: Graph, run: string, eventSeq: nat, c: Checkpoint, r: string,
                                           parent: Option<NodeId>, ids: seq<string>)
    requires OfContext(input, run, eventSeq, c) && Anchored(input, g, run, eventSeq, c)
    ensures Anchored(input, TakeArtifacts(g, input.checkpoints, r, parent, ids), run, eventSeq, c)
  {
    hide OfContext, Anchored, AddNode, AddEdge;
    if ids != [] {
      var before, id := ids[..|ids| - 1], Artifact(ids[|ids| - 1]);
      var node := Node(Some(r), None, None, None);
      ArtifactsAnchor(input, g, run, eventSeq, c, r, parent, before);
      var mid := TakeArtifacts(g, input.checkpoints, r, parent, before);
      NodeAnchors(input, mid, run, eventSeq, c, id, node);
      if parent.Some? {
        EdgeAnchors(input, AddNode(mid, input.checkpoints, id, node), run, eventSeq, c, parent.value, id, ProducesArtifact);
      }
    }
  }

  lemma {:induction false} AllArtifactsAnchor(input: Input, g: Graph, run: string, eventSeq: nat, c: Checkpoint,
                                              lasts: map<string, NodeId>, runs: seq<string>)
    requires OfContext(input, run, eventSeq, c) && Anchored(input, g, run, eventSeq, c)
    ensures Anchored(input, TakeAllArtifacts(input, g, lasts, runs), run, eventSeq, c)
  {
    hide OfContext, Anchored, TakeArtifacts;
    if runs != [] {
      var before, r := runs[..|runs| - 1], runs[|runs| - 1];
      AllArtifactsAnchor(input, g, run, eventSeq, c, lasts, before);
      ArtifactsAnchor(input, TakeAllArtifacts(input, g, lasts, before), run, eventSeq, c, r, Lookup(lasts, r), ArtifactsOf(input, r));
    }
  }

  lemma {:induction false} BranchesAnchor(input: Input, g: Graph, run: string, eventSeq: nat, c: Checkpoint, branches: seq<BranchRow>)
    requires OfContext(input, run, eventSeq, c) && Anchored(input, g, run, eventSeq, c)
    ensures Anchored(input, TakeBranches(g, input.checkpoints, branches), run, eventSeq, c)
  {
    hide OfContext, Anchored, AddNode, AddEdge;
    if branches != [] {
      var before, b := branches[..|branches| - 1], branches[|branches| - 1];
      BranchesAnchor(input, g, run, eventSeq, c, before);
      var mid := TakeBranches(g, input.checkpoints, before);
      if IsShown(mid, b) {
        var node := Node(Some(b.forkRun), None, None, None);
        NodeAnchors(input, mid, run, eventSeq, c, Branch(b.id), node);
        EdgeAnchors(input, AddNode(mid, input.checkpoints, Branch(b.id), node), run, eventSeq, c,
                    mid.checkpointNode[b.forkCheckpoint.value], Branch(b.id), BranchesFrom);
      }
    }
  }

  /** A branch forked from the checkpoint of a compiled context hangs below that context's node, whatever else the
    * run did. */
  lemma BranchHangsBelowItsContext(input: Input, run: string, eventSeq: nat, c: Checkpoint, b: BranchRow)
    requires Distinct(input) && run in VisibleRunIds(input) && OfContext(input, run, eventSeq, c)
    requires b in input.branches && b.forkCheckpoint == Some(c.id) && c.id != ""
    ensures var g := Build(input, ByNode);
            && c.id in g.checkpointNode && g.checkpointNode[c.id] == Context(run, eventSeq)
            && Edge(Context(run, eventSeq), Branch(b.id), BranchesFrom) in g.edges
  {
    var runs := VisibleRunIds(input);
    var (g0, lasts) := TakeRuns(input, runs, ByNode);
    var g1 := TakeAllArtifacts(input, g0, lasts, runs);
    var g := Build(input, ByNode);
    assert g == TakeBranches(g1, input.checkpoints, input.branches);
    ContextExpected(input, run, eventSeq);
    NodesFormAForest(input);
    hide OfContext, Distinct, TakeRuns, TakeAllArtifacts, TakeBranches, VisibleRunIds, Build, Forest, EventsOf;
    RunsAnchor(input, run, eventSeq, c, runs);
    AllArtifactsAnchor(input, g0, run, eventSeq, c, lasts, runs);
    BranchesAnchor(input, g1, run, eventSeq, c, input.branches);
    assert RunDone(input, g, run);
    assert Context(run, eventSeq) in g.info;
    assert BranchDone(g, runs, b);
  }

  lemma ContextExpected(input: Input, run: string, eventSeq: nat)
    requires EventRecord(eventSeq, ContextCompiled) in EventsOf(input, run)
    ensures Expected(run, EventsOf(input, run), Context(run, eventSeq))
  {
    var events := EventsOf(input, run);
    var i :| 0 <= i < |events| && events[i] == EventRecord(eventSeq, ContextCompiled);
    assert Makes(run, events[i], Context(run, eventSeq));
  }

  // ---------------------------------------------------------------- every edge

  /** The node an event leads to: a new one, or for a known tool call the one there is. */
  function NodeMade(run: string, e: EventRecord): Option<NodeId> {
    match e.payload
    case ContextCompiled => Some(Context(run, e.eventSeq))
    case ToolCall(Some(call)) => Some(Tool(run, call))
    case RunEnd => Some(Terminal(run, e.eventSeq))
    case _ => None
  }

  /** The nodes a run comes by, in order, its start first. */
  function Visits(run: string, events: seq<EventRecord>): (r: seq<NodeId>)
    ensures r != []
  {
    if events == [] then [Start(run)]
    else
      match NodeMade(run, events[|events| - 1])
      case Some(id) => Visits(run, events[..|events| - 1]) + [id]
      case None => Visits(run, events[..|events| - 1])
  }

  function LastVisit(run: string, events: seq<EventRecord>): NodeId { Visits(run, events)[|Visits(run, events)| - 1] }

  /** An edge to a node the run comes by for the first time, from the one it came by before. */
  ghost predicate ChainEdge(visits: seq<NodeId>, e: Edge) {
    exists k :: 0 < k < |visits| && visits[k] !in visits[..k] && e == Edge(visits[k - 1], visits[k], Emits)
  }

  ghost predicate RunEdge(run: string, user: Option<NodeId>, events: seq<EventRecord>, e: Edge) {
    (user.Some? && e == Edge(user.value, Start(run), StartsRun)) || ChainEdge(Visits(run, events), e)
  }

  lemma EdgesOfNode(g: Graph, checkpoints: seq<Checkpoint>, id: NodeId, node: Node)
    ensures AddNode(g, checkpoints, id, node).edges == g.edges && AddNode(g, checkpoints, id, node).keying == g.keying
  {
  }

  lemma EdgesOfEdge(g: Graph, source: NodeId, target: NodeId, kind: EdgeKind)
    requires g.keying.ByNode?
    ensures AddEdge(g, source, target, kind).keying == g.keying
    ensures forall e ::
              e in AddEdge(g, source, target, kind).edges <==>
              e in g.edges || (source != target && e == Edge(source, target, kind))
  {
  }

  lemma ChainMore(visits: seq<NodeId>, id: NodeId, e: Edge)
    requires visits != []
    ensures ChainEdge(visits + [id], e) <==>
            ChainEdge(visits, e) || (id !in visits && e == Edge(visits[|visits| - 1], id, Emits))
  {
    var more := visits + [id];
    assert more[..|visits|] == visits;
    assert forall k :: 0 <= k < |visits| ==> more[..k] == visits[..k];
    if k :| 0 < k < |visits| && visits[k] !in visits[..k] && e == Edge(visits[k - 1], visits[k], Emits) {
      assert more[k] !in more[..k] && e == Edge(more[k - 1], more[k], Emits);
    }
    if id !in visits && e == Edge(visits[|visits| - 1], id, Emits) {
      assert more[|visits|] !in more[..|visits|] && e == Edge(more[|visits| - 1], more[|visits|], Emits);
    }
  }

  lemma {:induction false} VisitsAre(run: string, events: seq<EventRecord>, id: NodeId)
    ensures id in Visits(run, events) <==> Expected(run, events, id)
  {
    if events != [] {
      var before, e := events[..|events| - 1], events[|events| - 1];
      VisitsAre(run, before, id);
      ExpectedMore(run, before, e, id);
      assert events == before + [e];
      assert Makes(run, e, id) <==> NodeMade(run, e) == Some(id);
      hide Expected, Makes, NodeMade;
    }
  }

  /** What one event adds, when its node is new unless it is a known tool call. */
  lemma EventEdges(g: Graph, checkpoints: seq<Checkpoint>, run: string, at: Cursor, e: EventRecord)
    requires g.keying.ByNode?
    ensures var (g', at') := TakeEvent(g, checkpoints, run, at, e);
            && g'.keying.ByNode?
            && match NodeMade(run, e)
               case None => g'.edges == g.edges && at'.last == at.last && at'.tools == at.tools
               case Some(id) =>
                 && at'.last == id && at'.tools == at.tools + (if id.Tool? then {id.call} else {})
                 && forall x :: x in g'.edges <==>
                      x in g.edges || (!(id.Tool? && id.call in at.tools) && at.last != id && x == Edge(at.last, id, Emits))
  {
    hide AddNode, AddEdge;
    match e.payload
    case ContextCompiled =>
      EdgesOfNode(g, checkpoints, Context(run, e.eventSeq), Node(Some(run), Some(e.eventSeq), None, None));
      EdgesOfEdge(AddNode(g, checkpoints, Context(run, e.eventSeq), Node(Some(run), Some(e.eventSeq), None, None)),
                  at.last, Context(run, e.eventSeq), Emits);
    case ContextDetail(present) =>
      if at.active.Some? { EdgesOfNode(g, checkpoints, at.active.value, Node(Some(run), None, None, None)); }
    case ToolCall(call) =>
      if call.Some? {
        var node := Node(Some(run), Some(e.eventSeq), call, None);
        EdgesOfNode(g, checkpoints, Tool(run, call.value), node);
        EdgesOfEdge(AddNode(g, checkpoints, Tool(run, call.value), node), at.last, Tool(run, call.value), Emits);
      }
    case RunEnd =>
      EdgesOfNode(g, checkpoints, Terminal(run, e.eventSeq), Node(Some(run), Some(e.eventSeq), None, None));
      EdgesOfEdge(AddNode(g, checkpoints, Terminal(run, e.eventSeq), Node(Some(run), Some(e.eventSeq), None, None)),
                  at.last, Terminal(run, e.eventSeq), Emits);
    case OtherEvent =>
  }

  /** The edges and the cursor of a run. */
  ghost predicate RunTraced(g: Graph, run: string, user: Option<NodeId>, events: seq<EventRecord>, g': Graph, at: Cursor) {
    && g'.keying.ByNode? && at.last == LastVisit(run, events)
    && (forall c :: c in at.tools <==> Tool(run, c) in Visits(run, events))
    && (forall e :: e in g'.edges <==> e in g.edges || RunEdge(run, user, events, e))
  }

  lemma StartEdges(g: Graph, checkpoints: seq<Checkpoint>, run: string, user: Option<NodeId>)
    requires g.keying.ByNode? && user != Some(Start(run))
    ensures RunTraced(g, run, user, [], StartRun(g, checkpoints, run, user), Cursor(Start(run), None, {}))
  {
    var node := Node(Some(run), None, None, None);
    EdgesOfNode(g, checkpoints, Start(run), node);
    if user.Some? { EdgesOfEdge(AddNode(g, checkpoints, Start(run), node), user.value, Start(run), StartsRun); }
    hide AddNode, AddEdge;
  }

  lemma OneMoreTraced(g: Graph, run: string, user: Option<NodeId>, before: seq<EventRecord>, e: EventRecord,
                      mid: Graph, at: Cursor, g': Graph, at': Cursor)
    requires RunTraced(g, run, user, before, mid, at) && DistinctSeqs(before + [e]) && g'.keying.ByNode?
    requires match NodeMade(run, e)
             case None => g'.edges == mid.edges && at'.last == at.last && at'.tools == at.tools
             case Some(id) =>
               && at'.last == id && at'.tools == at.tools + (if id.Tool? then {id.call} else {})
               && forall x :: x in g'.edges <==>
                    x in mid.edges || (!(id.Tool? && id.call in at.tools) && at.last != id && x == Edge(at.last, id, Emits))
    ensures RunTraced(g, run, user, before + [e], g', at')
  {
    var events, visits := before + [e], Visits(run, before);
    assert events[..|before|] == before && events[|before|] == e;
    match NodeMade(run, e) {
      case None => assert Visits(run, events) == visits;
      case Some(id) =>
        assert Visits(run, events) == visits + [id];
        VisitsAre(run, before, id);
        if !id.Tool? { FreshByNumber(run, before, e, id); }
        assert id.Tool? ==> id.run == run;
        hide Visits, Expected, NodeMade, DistinctSeqs;
        forall x ensures ChainEdge(visits + [id], x) <==>
                         ChainEdge(visits, x) || (id !in visits && x == Edge(visits[|visits| - 1], id, Emits))
        {
          ChainMore(visits, id, x);
        }
        hide ChainEdge;
        assert at.last in visits;
        assert id !in visits <==> !(id.Tool? && id.call in at.tools);
    }
  }

  lemma {:induction false} RunEdges(g: Graph, checkpoints: seq<Checkpoint>, run: string, user: Option<NodeId>,
                                    events: seq<EventRecord>)
    requires g.keying.ByNode? && user != Some(Start(run)) && DistinctSeqs(events)
    ensures var (g', at) := TakeEvents(g, checkpoints, run, user, events);
            RunTraced(g, run, user, events, g', at)
  {
    hide RunTraced, TakeEvent, StartRun;
    if events == [] {
      StartEdges(g, checkpoints, run, user);
    } else {
      var before, e := events[..|events| - 1], events[|events| - 1];
      RunEdges(g, checkpoints, run, user, before);
      var (mid, at) := TakeEvents(g, checkpoints, run, user, before);
      assert mid.keying.ByNode? by { TracedByNode(g, run, user, before, mid, at); }
      EventEdges(mid, checkpoints, run, at, e);
      assert before + [e] == events;
      var (g', at') := TakeEvent(mid, checkpoints, run, at, e);
      OneMoreTraced(g, run, user, before, e, mid, at, g', at');
    }
  }

  lemma TracedByNode(g: Graph, run: string, user: Option<NodeId>, events: seq<EventRecord>, g': Graph, at: Cursor)
    requires RunTraced(g, run, user, events, g', at)
    ensures g'.keying.ByNode? && at.last == LastVisit(run, events)
  {
    hide LastVisit, Visits, RunEdge;
  }

  /** The first message the user sent in a run. */
  ghost predicate IsFirstTurn(messages: seq<MessageRow>, run: string, m: MessageRow) {
    && m.run == run && m.fromUser
    && exists i :: 0 <= i < |messages| && messages[i] == m
                   && forall j :: 0 <= j < i ==> !(messages[j].run == run && messages[j].fromUser)
  }

  lemma FirstTurnMore(messages: seq<MessageRow>, last: MessageRow, run: string, m: MessageRow)
    ensures IsFirstTurn(messages + [last], run, m) <==>
            IsFirstTurn(messages, run, m) || (m == last && m.run == run && m.fromUser && forall o :: !IsFirstTurn(messages, run, o))
  {
    var more := messages + [last];
    assert forall i :: 0 <= i < |messages| ==> more[i] == messages[i];
    if m == last && m.run == run && m.fromUser && forall o :: !IsFirstTurn(messages, run, o) {
      forall j | 0 <= j < |messages| ensures !(more[j].run == run && more[j].fromUser) {
        if messages[j].run == run && messages[j].fromUser {
          var _ := SomeFirstTurn(messages, run, j);
        }
      }
      assert more[|messages|] == m;
    }
  }

  lemma {:induction false} SomeFirstTurn(messages: seq<MessageRow>, run: string, j: nat) returns (m: MessageRow)
    requires j < |messages| && messages[j].run == run && messages[j].fromUser
    ensures IsFirstTurn(messages, run, m)
    decreases j
  {
    if k :| 0 <= k < j && messages[k].run == run && messages[k].fromUser {
      m := SomeFirstTurn(messages, run, k);
    } else {
      m := messages[j];
    }
  }

  ghost predicate TurnsTraced(messages: seq<MessageRow>, g: Graph, first: map<string, NodeId>) {
    && g.keying.ByNode? && g.edges == []
    && (forall run :: run in first ==> exists m :: IsFirstTurn(messages, run, m) && first[run] == Message(m.id))
    && (forall run, m :: IsFirstTurn(messages, run, m) ==> run in first && first[run] == Message(m.id))
  }

  lemma OneMoreTurn(messages: seq<MessageRow>, last: MessageRow, g: Graph, g': Graph,
                    first: map<string, NodeId>, first': map<string, NodeId>)
    requires TurnsTraced(messages, g, first) && g'.keying.ByNode? && g'.edges == g.edges
    requires first' == if last.fromUser && last.run !in first then first[last.run := Message(last.id)] else first
    ensures TurnsTraced(messages + [last], g', first')
  {
    forall run, m ensures IsFirstTurn(messages + [last], run, m) <==>
                          IsFirstTurn(messages, run, m)
                          || (m == last && m.run == run && m.fromUser && forall o :: !IsFirstTurn(messages, run, o))
    {
      FirstTurnMore(messages, last, run, m);
    }
    hide IsFirstTurn;
    forall run, m | IsFirstTurn(messages + [last], run, m) ensures run in first' && first'[run] == Message(m.id) {}
    forall run | run in first' ensures exists m :: IsFirstTurn(messages + [last], run, m) && first'[run] == Message(m.id) {
      if run in first {
        var m :| IsFirstTurn(messages, run, m) && first[run] == Message(m.id);
        assert IsFirstTurn(messages + [last], run, m);
      } else {
        assert IsFirstTurn(messages + [last], run, last);
      }
    }
  }

  lemma {:induction false} TurnEdges(checkpoints: seq<Checkpoint>, messages: seq<MessageRow>)
    ensures var (g, first) := UserTurns(checkpoints, messages, ByNode);
            TurnsTraced(messages, g, first)
  {
    hide AddNode, TurnsTraced;
    if messages == [] {
      NoTurns();
    } else {
      var before, m := messages[..|messages| - 1], messages[|messages| - 1];
      TurnEdges(checkpoints, before);
      var (g, first) := UserTurns(checkpoints, before, ByNode);
      var (g', first') := UserTurns(checkpoints, messages, ByNode);
      EdgesOfNode(g, checkpoints, Message(m.id), Node(Some(m.run), None, None, None));
      assert before + [m] == messages;
      OneMoreTurn(before, m, g, g', first, first');
    }
  }

  lemma NoTurns()
    ensures TurnsTraced([], Empty(ByNode), map[])
  {
  }

  /** The edges of some runs, and their last nodes. */
  ghost predicate RunsTraced(input: Input, runs: seq<string>, g: Graph, lasts: map<string, NodeId>) {
    && g.keying.ByNode?
    && (forall run :: run in lasts <==> run in runs)
    && (forall run :: run in runs ==> lasts[run] == LastVisit(run, EventsOf(input, run)))
    && forall e :: e in g.edges <==>
         exists run :: run in runs && RunEdge(run, UserTurnOf(input, run), EventsOf(input, run), e)
  }

  lemma OneMoreRunTraced(input: Input, before: seq<string>, run: string, g: Graph, lasts: map<string, NodeId>,
                         g': Graph, at: Cursor)
    requires RunsTraced(input, before, g, lasts)
    requires RunTraced(g, run, UserTurnOf(input, run), EventsOf(input, run), g', at)
    ensures RunsTraced(input, before + [run], g', lasts[run := at.last])
  {
    hide RunEdge, UserTurnOf, LastVisit, Visits;
    var runs := before + [run];
    assert run in runs && forall r :: r in runs <==> r in before || r == run;
  }

  lemma {:induction false} RunsEdges(input: Input, runs: seq<string>)
    requires forall run :: DistinctSeqs(EventsOf(input, run))
    ensures var (g, lasts) := TakeRuns(input, runs, ByNode);
            RunsTraced(input, runs, g, lasts)
  {
    TurnEdges(input.checkpoints, input.messages);
    if runs == [] {
    } else {
      var before, run := runs[..|runs| - 1], runs[|runs| - 1];
      var users := UserTurns(input.checkpoints, input.messages, ByNode).1;
      RunsEdges(input, before);
      var (g, lasts) := TakeRuns(input, before, ByNode);
      var (g', at) := TakeEvents(g, input.checkpoints, run, Lookup(users, run), EventsOf(input, run));
      assert UserTurnOf(input, run) == Lookup(users, run);
      assert UserTurnOf(input, run) != Some(Start(run));
      assert g.keying.ByNode? && before + [run] == runs;
      assert TakeRuns(input, runs, ByNode) == (g', lasts[run := at.last]);
      hide RunsTraced, RunTraced, TakeRuns, UserTurns, TakeEvents, UserTurnOf, Lookup, DistinctSeqs;
      assert DistinctSeqs(EventsOf(input, run));
      RunEdges(g, input.checkpoints, run, UserTurnOf(input, run), EventsOf(input, run));
      OneMoreRunTraced(input, before, run, g, lasts, g', at);
    }
  }

  ghost predicate ArtifactEdge(run: string, parent: NodeId, ids: seq<string>, e: Edge) {
    exists id :: id in ids && e == Edge(parent, Artifact(id), ProducesArtifact)
  }

  lemma {:induction false} ArtifactEdges(g: Graph, checkpoints: seq<Checkpoint>, run: string, parent: NodeId, ids: seq<string>)
    requires g.keying.ByNode? && !parent.Artifact?
    ensures var g' := TakeArtifacts(g, checkpoints, run, Some(parent), ids);
            && g'.keying.ByNode?
            && forall e :: e in g'.edges <==> e in g.edges || ArtifactEdge(run, parent, ids, e)
  {
    if ids != [] {
      var before, id := ids[..|ids| - 1], ids[|ids| - 1];
      ArtifactEdges(g, checkpoints, run, parent, before);
      var mid := TakeArtifacts(g, checkpoints, run, Some(parent), before);
      EdgesOfNode(mid, checkpoints, Artifact(id), Node(Some(run), None, None, None));
      EdgesOfEdge(AddNode(mid, checkpoints, Artifact(id), Node(Some(run), None, None, None)), parent, Artifact(id),
                  ProducesArtifact);
      hide AddNode, AddEdge;
      assert forall x :: x in ids <==> x in before || x == id;
    }
  }

  ghost predicate ArtifactEdgeOf(input: Input, runs: seq<string>, e: Edge) {
    exists run :: run in runs && ArtifactEdge(run, LastVisit(run, EventsOf(input, run)), ArtifactsOf(input, run), e)
  }

  lemma VisitsAreNodes(run: string, events: seq<EventRecord>, id: NodeId)
    requires id in Visits(run, events)
    ensures RunOf(id) == Some(run)
  {
    VisitsAre(run, events, id);
  }

  lemma {:induction false} AllArtifactEdges(input: Input, g: Graph, lasts: map<string, NodeId>, runs: seq<string>)
    requires g.keying.ByNode?
    requires forall run :: run in runs ==> run in lasts && lasts[run] == LastVisit(run, EventsOf(input, run))
    ensures var g' := TakeAllArtifacts(input, g, lasts, runs);
            && g'.keying.ByNode?
            && forall e :: e in g'.edges <==> e in g.edges || ArtifactEdgeOf(input, runs, e)
  {
    if runs != [] {
      var before, run := runs[..|runs| - 1], runs[|runs| - 1];
      assert runs == before + [run];
      AllArtifactEdges(input, g, lasts, before);
      var mid := TakeAllArtifacts(input, g, lasts, before);
      VisitsAreNodes(run, EventsOf(input, run), LastVisit(run, EventsOf(input, run)));
      hide Visits, LastVisit;
      ArtifactEdges(mid, input.checkpoints, run, lasts[run], ArtifactsOf(input, run));
      hide TakeArtifacts, ArtifactEdge;
      assert forall r :: r in runs <==> r in before || r == run;
    }
  }

  ghost predicate BranchEdge(g: Graph, branches: seq<BranchRow>, e: Edge) {
    exists b :: b in branches && IsShown(g, b)
                && e == Edge(g.checkpointNode[b.forkCheckpoint.value], Branch(b.id), BranchesFrom)
  }

  /** Checkpoints sit on nodes of runs. */
  ghost predicate Placed(g: Graph) {
    g.keying.ByNode? && forall c :: c in g.checkpointNode ==> !g.checkpointNode[c].Branch?
  }

  lemma OneBranchEdge(g: Graph, mid: Graph, checkpoints: seq<Checkpoint>, b: BranchRow)
    requires Placed(g) && mid.keying.ByNode? && mid.checkpointNode == g.checkpointNode && Branch(b.id) !in mid.info
    ensures var g' := TakeBranch(mid, checkpoints, b);
            && g'.keying.ByNode? && g'.checkpointNode == g.checkpointNode
            && (forall id :: id in g'.info ==> id in mid.info || id == Branch(b.id))
            && forall e :: e in g'.edges <==>
                 e in mid.edges
                 || (IsShown(g, b) && e == Edge(g.checkpointNode[b.forkCheckpoint.value], Branch(b.id), BranchesFrom))
  {
    if IsShown(g, b) {
      var node := Node(Some(b.forkRun), None, None, None);
      BranchNodeHasNoCheckpoint(mid, checkpoints, b);
      EdgesOfNode(mid, checkpoints, Branch(b.id), node);
      EdgesOfEdge(AddNode(mid, checkpoints, Branch(b.id), node), g.checkpointNode[b.forkCheckpoint.value], Branch(b.id),
                  BranchesFrom);
      InfoOfNode(mid, checkpoints, Branch(b.id), node);
      hide AddNode;
    }
  }

  lemma InfoOfNode(g: Graph, checkpoints: seq<Checkpoint>, id: NodeId, node: Node)
    requires g.keying.ByNode?
    ensures AddNode(g, checkpoints, id, node).info.Keys == g.info.Keys + {id}
  {
  }

  lemma {:induction false} BranchEdges(g: Graph, checkpoints: seq<Checkpoint>, branches: seq<BranchRow>)
    requires Placed(g) && forall b :: b in branches ==> Branch(b.id) !in g.info
    requires forall i, j :: 0 <= i < j < |branches| ==> branches[i].id != branches[j].id
    ensures var g' := TakeBranches(g, checkpoints, branches);
            && g'.keying.ByNode? && g'.checkpointNode == g.checkpointNode
            && (forall id :: id in g'.info ==> id in g.info || (id.Branch? && IsBranchId(branches, id.id)))
            && forall e :: e in g'.edges <==> e in g.edges || BranchEdge(g, branches, e)
  {
    if branches != [] {
      var before, b := branches[..|branches| - 1], branches[|branches| - 1];
      assert branches == before + [b] && !IsBranchId(before, b.id);
      BranchEdges(g, checkpoints, before);
      var mid := TakeBranches(g, checkpoints, before);
      assert Branch(b.id) !in mid.info;
      OneBranchEdge(g, mid, checkpoints, b);
      assert forall c :: c in branches <==> c in before || c == b;
      assert forall id :: IsBranchId(branches, id) <==> IsBranchId(before, id) || id == b.id by {
        assert b in branches;
        forall id | IsBranchId(before, id) ensures IsBranchId(branches, id) {
          var c :| c in before && c.id == id;
          assert c in branches;
        }
      }
      hide TakeBranch, IsShown, IsBranchId;
    }
  }

  /** The graph before its branches. */
  lemma BeforeBranches(input: Input) returns (g: Graph)
    requires Distinct(input)
    ensures var runs := VisibleRunIds(input);
            && g.keying.ByNode? && Placed(g) && (forall b :: b in input.branches ==> Branch(b.id) !in g.info)
            && Build(input, ByNode) == TakeBranches(g, input.checkpoints, input.branches)
            && forall e :: e in g.edges <==>
                 (exists run :: run in runs && RunEdge(run, UserTurnOf(input, run), EventsOf(input, run), e))
                 || ArtifactEdgeOf(input, runs, e)
  {
    var runs := VisibleRunIds(input);
    var (g0, lasts) := TakeRuns(input, runs, ByNode);
    g := TakeAllArtifacts(input, g0, lasts, runs);
    RunsEdges(input, runs);
    AllArtifactEdges(input, g0, lasts, runs);
    assert Build(input, ByNode) == TakeBranches(g, input.checkpoints, input.branches);
    assert NoRepeats(ArtifactIds(input, runs));
    RunsAreSettled(input);
    hide VisibleRunIds, TakeRuns, TakeAllArtifacts, TakeBranches, RunEdge, ArtifactEdgeOf, UserTurnOf, LastVisit, Distinct;
    NothingYet(input, g0);
    AllArtifactsKeep(input, runs, g0, lasts, runs);
    OnlyArtifacts(input, runs, g0, g);
    assert Tabled(g);
  }

  /** Every edge of the graph of nodes and no other. A run's start hangs below the first message its user sent; each of
    * its other nodes below the one the run came by just before it first came by that node; an artifact below the last
    * node its run came by; a shown branch below the node that carries its fork checkpoint. */
  lemma EveryEdge(input: Input, e: Edge)
    requires Distinct(input)
    ensures var g, runs := Build(input, ByNode), VisibleRunIds(input);
            e in g.edges <==>
            || (exists run, m :: run in runs && IsFirstTurn(input.messages, run, m)
                                 && e == Edge(Message(m.id), Start(run), StartsRun))
            || (exists run :: run in runs && ChainEdge(Visits(run, EventsOf(input, run)), e))
            || (exists run, a :: run in runs && a in ArtifactsOf(input, run)
                                 && e == Edge(LastVisit(run, EventsOf(input, run)), Artifact(a), ProducesArtifact))
            || (exists b :: b in input.branches && IsShown(g, b)
                            && e == Edge(g.checkpointNode[b.forkCheckpoint.value], Branch(b.id), BranchesFrom))
  {
    var g1 := BeforeBranches(input);
    BranchIdsDiffer(input);
    BranchEdges(g1, input.checkpoints, input.branches);
    hide RunEdge, IsFirstTurn, ChainEdge, Visits, UserTurnOf, LastVisit, Build, VisibleRunIds, TakeBranches, Distinct, EventsOf;
    forall run { RunEdgeIs(input, run, e); }
  }

  lemma RunEdgeIs(input: Input, run: string, e: Edge)
    ensures RunEdge(run, UserTurnOf(input, run), EventsOf(input, run), e) <==>
            (exists m :: IsFirstTurn(input.messages, run, m) && e == Edge(Message(m.id), Start(run), StartsRun))
            || ChainEdge(Visits(run, EventsOf(input, run)), e)
  {
    UserEdge(input, run);
    hide IsFirstTurn, ChainEdge, Visits, UserTurnOf;
  }

  lemma UserEdge(input: Input, run: string)
    ensures forall m :: IsFirstTurn(input.messages, run, m) ==> UserTurnOf(input, run) == Some(Message(m.id))
    ensures UserTurnOf(input, run).Some? ==>
              exists m :: IsFirstTurn(input.messages, run, m) && UserTurnOf(input, run).value == Message(m.id)
  {
    TurnEdges(input.checkpoints, input.messages);
    hide IsFirstTurn, UserTurns;
  }

  // ---------------------------------------------------------------- which runs and which checkpoints

  /** Each text comes where it first appears. */
  lemma {:induction false} UniqueInOrder(values: seq<string>, i: nat, j: nat)
    requires i < j < |UniqueStrings(values)|
    ensures exists k :: 0 <= k < |values| && values[k] == UniqueStrings(values)[i]
                        && UniqueStrings(values)[j] !in values[..k + 1]
  {
    var before, last := values[..|values| - 1], values[|values| - 1];
    UniqueStringsAreUnique(before);
    if j < |UniqueStrings(before)| {
      UniqueInOrder(before, i, j);
      var k :| 0 <= k < |before| && before[k] == UniqueStrings(before)[i] && UniqueStrings(before)[j] !in before[..k + 1];
      assert values[..k + 1] == before[..k + 1] && values[k] == before[k];
    } else {
      assert UniqueStrings(before)[i] in before;
      var k :| 0 <= k < |before| && before[k] == UniqueStrings(before)[i];
      assert values[k] == before[k] && values[..k + 1] == before[..k + 1] && last !in before;
    }
  }

  lemma {:induction false} RunsOfAre(messages: seq<MessageRow>, run: string)
    ensures run in RunsOf(messages) <==> exists m :: m in messages && m.run == run
  {
    if messages != [] {
      var before, m := messages[..|messages| - 1], messages[|messages| - 1];
      RunsOfAre(before, run);
      assert messages == before + [m];
      assert m in messages && forall o :: o in before ==> o in messages;
    }
  }

  /** The runs of the graph are those of visible messages and, in a branch, the run it was forked from, each once. */
  lemma VisibleRunsAre(input: Input, run: string)
    ensures NoRepeats(VisibleRunIds(input))
    ensures run in VisibleRunIds(input) <==>
            && run != ""
            && ((exists m :: m in input.messages && m.run == run)
                || (input.own.Some? && input.own.value.forkCheckpoint.Some? && input.own.value.forkCheckpoint.value != ""
                    && run == input.own.value.forkRun))
  {
    var fork := if input.own.Some? && input.own.value.forkCheckpoint.Some? && input.own.value.forkCheckpoint.value != ""
                then [input.own.value.forkRun] else [];
    UniqueStringsAreUnique(RunsOf(input.messages) + fork);
    RunsOfAre(input.messages, run);
    hide UniqueStrings, RunsOf;
  }

  /** The first checkpoint of an event, of the kind asked for if any. */
  ghost predicate FirstAtEvent(checkpoints: seq<Checkpoint>, run: string, eventSeq: nat, kind: Option<CheckpointKind>,
                               c: Checkpoint) {
    exists i :: 0 <= i < |checkpoints| && checkpoints[i] == c && OfEvent(c, run, eventSeq, kind)
                && forall j :: 0 <= j < i ==> !OfEvent(checkpoints[j], run, eventSeq, kind)
  }

  predicate OfEvent(c: Checkpoint, run: string, eventSeq: nat, kind: Option<CheckpointKind>) {
    c.run == run && c.eventSeq == eventSeq && (kind.None? || c.kind == kind.value)
  }

  /** The last checkpoint of a tool call. */
  ghost predicate LastOfTool(checkpoints: seq<Checkpoint>, key: string, c: Checkpoint) {
    exists i :: 0 <= i < |checkpoints| && checkpoints[i] == c && OfTool(c, key)
                && forall j :: i < j < |checkpoints| ==> !OfTool(checkpoints[j], key)
  }

  predicate OfTool(c: Checkpoint, key: string) {
    c.toolCall.Some? && c.toolCall.value != "" && c.run + ":" + c.toolCall.value == key
  }

  function FirstOf(checkpoints: seq<Checkpoint>, kind: Option<CheckpointKind>): Option<Checkpoint> {
    if checkpoints == [] then None
    else if kind.None? || checkpoints[0].kind == kind.value then Some(checkpoints[0]) else FirstOf(checkpoints[1..], kind)
  }

  lemma {:induction false} FirstOfAppend(a: seq<Checkpoint>, last: Checkpoint, kind: Option<CheckpointKind>)
    ensures FirstOf(a + [last], kind)
            == if FirstOf(a, kind).Some? then FirstOf(a, kind)
               else if kind.None? || last.kind == kind.value then Some(last) else None
  {
    if a != [] {
      assert (a + [last])[1..] == a[1..] + [last];
      FirstOfAppend(a[1..], last, kind);
    }
  }

  lemma {:induction false} FirstAtEventIs(checkpoints: seq<Checkpoint>, run: string, eventSeq: nat,
                                          kind: Option<CheckpointKind>)
    ensures match FirstOf(AtEvent(checkpoints, run, eventSeq), kind)
            case Some(c) => FirstAtEvent(checkpoints, run, eventSeq, kind, c)
            case None => forall i :: 0 <= i < |checkpoints| ==> !OfEvent(checkpoints[i], run, eventSeq, kind)
  {
    if checkpoints != [] {
      var before, last := checkpoints[..|checkpoints| - 1], checkpoints[|checkpoints| - 1];
      FirstAtEventIs(before, run, eventSeq, kind);
      FirstOfAppend(AtEvent(before, run, eventSeq), last, kind);
      assert AtEvent(before, run, eventSeq) + [] == AtEvent(before, run, eventSeq);
      hide FirstOf;
      if FirstOf(AtEvent(before, run, eventSeq), kind).Some? {
        FirstStays(before, last, run, eventSeq, kind, FirstOf(AtEvent(before, run, eventSeq), kind).value);
      } else if OfEvent(last, run, eventSeq, kind) {
        assert checkpoints[|before|] == last;
      }
      hide FirstAtEvent;
      assert before + [last] == checkpoints;
    }
  }

  lemma FirstStays(before: seq<Checkpoint>, last: Checkpoint, run: string, eventSeq: nat, kind: Option<CheckpointKind>,
                   c: Checkpoint)
    requires FirstAtEvent(before, run, eventSeq, kind, c)
    ensures FirstAtEvent(before + [last], run, eventSeq, kind, c)
  {
    var i :| 0 <= i < |before| && before[i] == c && OfEvent(c, run, eventSeq, kind)
             && forall j :: 0 <= j < i ==> !OfEvent(before[j], run, eventSeq, kind);
    assert (before + [last])[i] == c;
  }

  lemma {:induction false} KindsAgree(checkpoints: seq<Checkpoint>, kind: CheckpointKind)
    ensures FirstOfKind(checkpoints, kind) == FirstOf(checkpoints, Some(kind))
    ensures FirstOf(checkpoints, None) == if checkpoints == [] then None else Some(checkpoints[0])
  {
    if checkpoints != [] { KindsAgree(checkpoints[1..], kind); }
  }

  lemma {:induction false} LastOfToolIs(checkpoints: seq<Checkpoint>, key: string)
    ensures match AtTool(checkpoints, key)
            case Some(c) => LastOfTool(checkpoints, key, c)
            case None => forall i :: 0 <= i < |checkpoints| ==> !OfTool(checkpoints[i], key)
  {
    if checkpoints != [] {
      var before, last := checkpoints[..|checkpoints| - 1], checkpoints[|checkpoints| - 1];
      LastOfToolIs(before, key);
      if !OfTool(last, key) && AtTool(before, key).Some? {
        var c := AtTool(before, key).value;
        var i :| 0 <= i < |before| && before[i] == c && OfTool(c, key)
                 && forall j :: i < j < |before| ==> !OfTool(before[j], key);
        assert checkpoints[i] == c;
      }
    }
  }

  /** The checkpoint a node gets: the last one of its tool call; else, of its event, the first of the kind that goes
    * with a compiled context or a run's end; else the first of the event; else none. */
  lemma WhichCheckpoint(checkpoints: seq<Checkpoint>, id: NodeId, node: Node)
    ensures var found := ResolveCheckpoint(checkpoints, id, node);
            if node.run.None? || node.run == Some("") then found == None
            else
              var run := node.run.value;
              var hasTool := node.toolCall.Some? && node.toolCall.value != ""
                             && exists i :: 0 <= i < |checkpoints| && OfTool(checkpoints[i], run + ":" + node.toolCall.value);
              var kind := if id.Context? then Some(ContextCompiledPoint)
                          else if id.Terminal? then Some(RunTerminalPoint) else None;
              if hasTool then found.Some? && LastOfTool(checkpoints, run + ":" + node.toolCall.value, found.value)
              else if node.eventSeq.None? then found == None
              else if found.None? then forall i :: 0 <= i < |checkpoints| ==>
                     !OfEvent(checkpoints[i], run, node.eventSeq.value, None)
              else FirstAtEvent(checkpoints, run, node.eventSeq.value, kind, found.value)
                   || ((forall i :: 0 <= i < |checkpoints| ==> !OfEvent(checkpoints[i], run, node.eventSeq.value, kind))
                       && FirstAtEvent(checkpoints, run, node.eventSeq.value, None, found.value))
  {
    if node.run.Some? && node.run.value != "" {
      var run := node.run.value;
      if node.toolCall.Some? { LastOfToolIs(checkpoints, run + ":" + node.toolCall.value); }
      if node.eventSeq.Some? {
        var at := AtEvent(checkpoints, run, node.eventSeq.value);
        KindsAgree(at, ContextCompiledPoint);
        KindsAgree(at, RunTerminalPoint);
        FirstAtEventIs(checkpoints, run, node.eventSeq.value, None);
        FirstAtEventIs(checkpoints, run, node.eventSeq.value, Some(ContextCompiledPoint));
        FirstAtEventIs(checkpoints, run, node.eventSeq.value, Some(RunTerminalPoint));
      }
      hide AtEvent, AtTool, FirstOf, FirstAtEvent;
    }
  }

  // ---------------------------------------------------------------- every node

  /** The events of each run that have been taken. */
  type Seen = map<string, seq<EventRecord>>

  /** The number of a run's last event of a tool call. */
  function LastCall(events: seq<EventRecord>, call: string): Option<nat> {
    if events == [] then None
    else if events[|events| - 1].payload == ToolCall(Some(call)) then Some(events[|events| - 1].eventSeq)
    else LastCall(events[..|events| - 1], call)
  }

  predicate IsNode(node: Node, run: string, eventSeq: Option<nat>, toolCall: Option<string>) {
    node.run == Some(run) && node.eventSeq == eventSeq && node.toolCall == toolCall
  }

  /** What a node says, `seen` being the events of each run so far. */
  ghost predicate Says(input: Input, seen: Seen, id: NodeId, node: Node) {
    match id
    case Start(run) => IsNode(node, run, None, None)
    case Context(run, n) => IsNode(node, run, Some(n), None)
    case Terminal(run, n) => IsNode(node, run, Some(n), None)
    case Tool(run, call) =>
      run in seen && LastCall(seen[run], call).Some? && IsNode(node, run, LastCall(seen[run], call), Some(call))
    case Message(id) =>
      exists m :: m in input.messages && m.id == id && m.fromUser && IsNode(node, m.run, None, None)
    case Artifact(id) =>
      exists run :: run in VisibleRunIds(input) && id in ArtifactsOf(input, run) && IsNode(node, run, None, None)
    case Branch(id) => exists b :: b in input.branches && b.id == id && IsNode(node, b.forkRun, None, None)
    case Named(_) => false
  }

  /** The node shows the checkpoint that goes with what it says; a tool call without one of its own may show one of an
    * earlier event of the call. */
  ghost predicate Marked(input: Input, id: NodeId, node: Node) {
    (id.Tool? && (id.call == "" || AtTool(input.checkpoints, ToolKey(id.run, id.call)).None?)) ||
    node.checkpoint == match ResolveCheckpoint(input.checkpoints, id, node)
                       case Some(c) => Some(c.id)
                       case None => None
  }

  ghost predicate AllSay(input: Input, seen: Seen, g: Graph) {
    g.keying.ByNode? && forall id :: id in g.info ==> Says(input, seen, id, g.info[id]) && Marked(input, id, g.info[id])
  }

  /** What a node is resolved by does not change when it is put again, unless it finds a checkpoint. */
  lemma MarkedAgain(input: Input, sofar: Seen, seen: Seen, id: NodeId,
                    was: Node, next: Node)
    requires Says(input, sofar, id, was) && Marked(input, id, was) && Says(input, seen, id, next)
    requires next.checkpoint == was.checkpoint && ResolveCheckpoint(input.checkpoints, id, next).None?
    ensures Marked(input, id, next)
  {
    hide AtTool, AtEvent, Preferred, LastCall, VisibleRunIds, ToolKey;
  }

  lemma PutSays(input: Input, sofar: Seen, seen: Seen, g: Graph,
                id: NodeId, node: Node)
    requires AllSay(input, sofar, g) && node.checkpoint.None?
    requires forall x :: x in g.info && x != id ==> Says(input, seen, x, g.info[x])
    requires Says(input, seen, id, if id in g.info then Merged(g.info[id], node) else node)
    ensures AllSay(input, seen, AddNode(g, input.checkpoints, id, node))
    ensures id in AddNode(g, input.checkpoints, id, node).info
    ensures forall x :: x in g.info ==> x in AddNode(g, input.checkpoints, id, node).info
  {
    var next := if id in g.info then Merged(g.info[id], node) else node;
    var found := ResolveCheckpoint(input.checkpoints, id, next);
    MarkIsNotSaid(input, seen, id, next, if found.Some? then Some(found.value.id) else next.checkpoint);
    if id in g.info && found.None? { MarkedAgain(input, sofar, seen, id, g.info[id], next); }
    hide Says, ResolveCheckpoint, AtTool;
  }

  lemma MarkIsNotSaid(input: Input, seen: Seen, id: NodeId, node: Node, mark: Option<string>)
    ensures Says(input, seen, id, node.(checkpoint := mark)) <==> Says(input, seen, id, node)
    ensures ResolveCheckpoint(input.checkpoints, id, node.(checkpoint := mark))
            == ResolveCheckpoint(input.checkpoints, id, node)
  {
    hide LastCall, VisibleRunIds, AtTool, AtEvent, Preferred;
    assert forall run, n, c :: IsNode(node.(checkpoint := mark), run, n, c) <==> IsNode(node, run, n, c);
    hide IsNode;
  }

  lemma EdgeSays(input: Input, seen: Seen, g: Graph, source: NodeId, target: NodeId, kind: EdgeKind)
    requires AllSay(input, seen, g)
    ensures AllSay(input, seen, AddEdge(g, source, target, kind)) && AddEdge(g, source, target, kind).info == g.info
  {
  }

  /** One more event of a run changes what is said of the tool call it is of, and of nothing else. */
  lemma SeenMore(input: Input, seen: Seen, run: string, before: seq<EventRecord>, e: EventRecord,
                 id: NodeId, node: Node)
    requires Says(input, seen[run := before], id, node)
    requires id.Tool? && id.run == run ==> e.payload != ToolCall(Some(id.call))
    ensures Says(input, seen[run := before + [e]], id, node)
  {
    assert (before + [e])[..|before|] == before;
    hide VisibleRunIds;
  }

  ghost predicate ActiveIn(g: Graph, run: string, at: Cursor) {
    at.active.Some? ==> at.active.value.Context? && at.active.value.run == run && at.active.value in g.info
  }

  lemma EventSays(input: Input, seen: Seen, g: Graph, run: string, at: Cursor,
                  before: seq<EventRecord>, e: EventRecord)
    requires AllSay(input, seen[run := before], g) && ActiveIn(g, run, at)
    ensures var (g', at') := TakeEvent(g, input.checkpoints, run, at, e);
            AllSay(input, seen[run := before + [e]], g') && ActiveIn(g', run, at')
  {
    var sofar, now := seen[run := before], seen[run := before + [e]];
    assert (before + [e])[..|before|] == before;
    forall x | x in g.info && !(x.Tool? && x.run == run && e.payload == ToolCall(Some(x.call)))
      ensures Says(input, now, x, g.info[x])
    {
      SeenMore(input, seen, run, before, e, x, g.info[x]);
    }
    hide AddNode, AddEdge, Marked, VisibleRunIds;
    match NodeMade(run, e)
    case Some(id) => MadeSays(input, sofar, now, g, run, at, e, id);
    case None =>
      if e.payload.ContextDetail? && at.active.Some? {
        var id := at.active.value;
        assert Says(input, now, id, g.info[id]);
        PutSays(input, sofar, now, g, id, Node(Some(run), None, None, None));
      }
      hide Says;
  }

  lemma MadeSays(input: Input, sofar: Seen, now: Seen, g: Graph,
                 run: string, at: Cursor, e: EventRecord, id: NodeId)
    requires AllSay(input, sofar, g) && ActiveIn(g, run, at) && NodeMade(run, e) == Some(id)
    requires forall x :: x in g.info && x != id ==> Says(input, now, x, g.info[x])
    requires id.Tool? ==> run in now && LastCall(now[run], id.call) == Some(e.eventSeq)
    ensures var (g', at') := TakeEvent(g, input.checkpoints, run, at, e);
            AllSay(input, now, g') && ActiveIn(g', run, at')
  {
    var node := Node(Some(run), Some(e.eventSeq), if id.Tool? then Some(id.call) else None, None);
    if id in g.info { assert Says(input, sofar, id, g.info[id]); }
    assert Says(input, now, id, if id in g.info then Merged(g.info[id], node) else node);
    hide Says, AddNode, AddEdge, VisibleRunIds, LastCall, Merged;
    PutSays(input, sofar, now, g, id, node);
    EdgeSays(input, now, AddNode(g, input.checkpoints, id, node), at.last, id, Emits);
    hide AllSay;
  }

  function SeenAll(input: Input, runs: seq<string>): Seen { map run | run in runs :: EventsOf(input, run) }

  lemma {:induction false} EventsSay(input: Input, seen: Seen, g: Graph, run: string, user: Option<NodeId>,
                                     events: seq<EventRecord>)
    requires AllSay(input, seen[run := []], g)
    ensures var (g', at) := TakeEvents(g, input.checkpoints, run, user, events);
            AllSay(input, seen[run := events], g') && ActiveIn(g', run, at)
  {
    hide AllSay, ActiveIn, TakeEvent;
    if events == [] {
      StartSays(input, seen[run := []], g, run, user);
    } else {
      var before, e := events[..|events| - 1], events[|events| - 1];
      EventsSay(input, seen, g, run, user, before);
      var (mid, at) := TakeEvents(g, input.checkpoints, run, user, before);
      assert before + [e] == events;
      EventSays(input, seen, mid, run, at, before, e);
    }
  }

  /** A node without an event may be put when it may say that it is of this run. */
  lemma PlainPut(input: Input, seen: Seen, g: Graph, id: NodeId, run: string)
    requires AllSay(input, seen, g) && (id.Start? || id.Message? || id.Artifact? || id.Branch?)
    requires forall node :: IsNode(node, run, None, None) ==> Says(input, seen, id, node)
    ensures AllSay(input, seen, AddNode(g, input.checkpoints, id, Node(Some(run), None, None, None)))
  {
    var node := Node(Some(run), None, None, None);
    var next := if id in g.info then Merged(g.info[id], node) else node;
    if id in g.info {
      assert Says(input, seen, id, g.info[id]);
      PlainSays(input, seen, id, g.info[id]);
    }
    assert IsNode(next, run, None, None);
    hide Says, Marked, AddNode, IsNode, Merged;
    PutSays(input, seen, seen, g, id, node);
  }

  lemma PlainSays(input: Input, seen: Seen, id: NodeId, node: Node)
    requires Says(input, seen, id, node) && (id.Start? || id.Message? || id.Artifact? || id.Branch?)
    ensures node.eventSeq.None? && node.toolCall.None?
  {
    hide VisibleRunIds, LastCall;
  }

  lemma StartSays(input: Input, seen: Seen, g: Graph, run: string, user: Option<NodeId>)
    requires AllSay(input, seen, g)
    ensures AllSay(input, seen, StartRun(g, input.checkpoints, run, user))
    ensures ActiveIn(StartRun(g, input.checkpoints, run, user), run, Cursor(Start(run), None, {}))
  {
    hide AddNode, AddEdge, AllSay;
    PlainPut(input, seen, g, Start(run), run);
    if user.Some? {
      EdgeSays(input, seen, AddNode(g, input.checkpoints, Start(run), Node(Some(run), None, None, None)), user.value,
               Start(run), StartsRun);
    }
  }

  lemma {:induction false} TurnsSay(input: Input, messages: seq<MessageRow>)
    requires forall m :: m in messages ==> m in input.messages
    ensures AllSay(input, map[], UserTurns(input.checkpoints, messages, ByNode).0)
  {
    if messages != [] {
      var before, m := messages[..|messages| - 1], messages[|messages| - 1];
      TurnsSay(input, before);
      assert m in input.messages;
      var g := UserTurns(input.checkpoints, before, ByNode).0;
      hide AddNode, AllSay;
      if m.fromUser { PlainPut(input, map[], g, Message(m.id), m.run); }
    }
  }

  lemma {:induction false} RunsSay(input: Input, runs: seq<string>)
    requires NoRepeats(runs)
    ensures AllSay(input, SeenAll(input, runs), TakeRuns(input, runs, ByNode).0)
  {
    if runs == [] {
      TurnsSay(input, input.messages);
      assert SeenAll(input, runs) == map[];
    } else {
      var before, run := runs[..|runs| - 1], runs[|runs| - 1];
      RunsSay(input, before);
      var g, seen := TakeRuns(input, before, ByNode).0, SeenAll(input, before);
      TakeRunsStep(input, runs);
      SeenAllStep(input, before, run);
      assert runs == before + [run] && run !in before;
      hide *;
      RunBegins(input, seen, g, run);
      EventsSay(input, seen, g, run, UserTurnOf(input, run), EventsOf(input, run));
    }
  }

  lemma TakeRunsStep(input: Input, runs: seq<string>)
    requires runs != []
    ensures var run, g := runs[|runs| - 1], TakeRuns(input, runs[..|runs| - 1], ByNode).0;
            TakeRuns(input, runs, ByNode).0
            == TakeEvents(g, input.checkpoints, run, UserTurnOf(input, run), EventsOf(input, run)).0
  {
    hide TakeEvents, UserTurns, EventsOf;
  }

  lemma SeenAllStep(input: Input, before: seq<string>, run: string)
    ensures SeenAll(input, before + [run]) == SeenAll(input, before)[run := EventsOf(input, run)]
    ensures run in SeenAll(input, before) <==> run in before
  {
  }

  lemma RunBegins(input: Input, seen: Seen, g: Graph, run: string)
    requires AllSay(input, seen, g) && run !in seen
    ensures AllSay(input, seen[run := []], g)
  {
    hide VisibleRunIds, Marked;
  }

  lemma {:induction false} ArtifactsSay(input: Input, seen: Seen, g: Graph, run: string, parent: Option<NodeId>,
                                        ids: seq<string>)
    requires AllSay(input, seen, g) && run in VisibleRunIds(input) && forall a :: a in ids ==> a in ArtifactsOf(input, run)
    ensures AllSay(input, seen, TakeArtifacts(g, input.checkpoints, run, parent, ids))
  {
    if ids != [] {
      var before, a := ids[..|ids| - 1], ids[|ids| - 1];
      ArtifactsSay(input, seen, g, run, parent, before);
      var mid := TakeArtifacts(g, input.checkpoints, run, parent, before);
      var id, node := Artifact(a), Node(Some(run), None, None, None);
      assert a in ArtifactsOf(input, run);
      hide AddNode, AddEdge, AllSay, VisibleRunIds, ArtifactsOf;
      PlainPut(input, seen, mid, id, run);
      if parent.Some? { EdgeSays(input, seen, AddNode(mid, input.checkpoints, id, node), parent.value, id, ProducesArtifact); }
    }
  }

  lemma {:induction false} AllArtifactsSay(input: Input, seen: Seen, g: Graph, lasts: map<string, NodeId>, runs: seq<string>)
    requires AllSay(input, seen, g) && forall run :: run in runs ==> run in VisibleRunIds(input)
    ensures AllSay(input, seen, TakeAllArtifacts(input, g, lasts, runs))
  {
    if runs != [] {
      var before, run := runs[..|runs| - 1], runs[|runs| - 1];
      assert run in VisibleRunIds(input);
      hide AllSay, VisibleRunIds, TakeArtifacts;
      AllArtifactsSay(input, seen, g, lasts, before);
      ArtifactsSay(input, seen, TakeAllArtifacts(input, g, lasts, before), run, Lookup(lasts, run), ArtifactsOf(input, run));
    }
  }

  lemma {:induction false} BranchesSay(input: Input, seen: Seen, g: Graph, branches: seq<BranchRow>)
    requires AllSay(input, seen, g) && forall b :: b in branches ==> b in input.branches
    ensures AllSay(input, seen, TakeBranches(g, input.checkpoints, branches))
  {
    if branches != [] {
      var before, b := branches[..|branches| - 1], branches[|branches| - 1];
      assert b in input.branches;
      BranchesSay(input, seen, g, before);
      var mid := TakeBranches(g, input.checkpoints, before);
      var id, node := Branch(b.id), Node(Some(b.forkRun), None, None, None);
      hide AddNode, AddEdge, AllSay;
      if b.forkCheckpoint.Some? && b.forkCheckpoint.value != "" && b.forkCheckpoint.value in mid.checkpointNode {
        PlainPut(input, seen, mid, id, b.forkRun);
        EdgeSays(input, seen, AddNode(mid, input.checkpoints, id, node), mid.checkpointNode[b.forkCheckpoint.value], id,
                 BranchesFrom);
      }
    }
  }

  /** What every node of the graph of nodes says: its run, its event, a tool call's number being that of its last event,
    * and the checkpoint that goes with them. */
  lemma EveryNode(input: Input, id: NodeId)
    requires id in Build(input, ByNode).info
    ensures Says(input, SeenAll(input, VisibleRunIds(input)), id, Build(input, ByNode).info[id])
    ensures Marked(input, id, Build(input, ByNode).info[id])
  {
    var runs := VisibleRunIds(input);
    var (g0, lasts) := TakeRuns(input, runs, ByNode);
    var seen := SeenAll(input, runs);
    VisibleRunsAre(input, "");
    RunsSay(input, runs);
    var g1 := TakeAllArtifacts(input, g0, lasts, runs);
    assert Build(input, ByNode) == TakeBranches(g1, input.checkpoints, input.branches);
    hide TakeRuns, TakeAllArtifacts, TakeBranches, VisibleRunIds, Build, SeenAll, Says, Marked;
    AllArtifactsSay(input, seen, g0, lasts, runs);
    BranchesSay(input, seen, g1, input.branches);
  }
}
