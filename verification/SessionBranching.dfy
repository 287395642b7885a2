/** Conversation branching: a session may be forked from a run or a checkpoint of another, and shows its
  * ancestors' messages up to the fork, then its own.
  *
  * The store is one user's rows.  `rank` and `clock` are history: the order in which sessions were
  * created, which no function of the program reads. */
module SessionBranching {
  import opened Options

  type SessionId = string
  type RunId = string

  datatype Result<+T> = Ok(value: T) | Err(error: Error)

  datatype Error =
    | BranchCycle(session: SessionId) | SessionNotFound(session: SessionId) | ParentNotVisible(session: SessionId)
    | TargetAmbiguous | TargetRequired | RunNotFound(run: RunId) | CheckpointNotFound(id: string)
    | CheckpointNotBranchable(id: string) | CheckpointNotVisible(id: string)
    | RunNotVisible(run: RunId) | RunNotBranchable(run: RunId)

  datatype Role = UserRole | AssistantRole | OtherRole
  datatype Message = Message(session: SessionId, run: RunId, role: Role, position: nat)

  datatype RunStatus = Queued | Running | Suspended | Completed | Failed | Canceled
  datatype Run = Run(session: SessionId, status: RunStatus)

  datatype CheckpointStatus = Stable | Terminal | CheckpointFailed
  datatype Checkpoint = Checkpoint(
    session: SessionId, run: RunId, status: CheckpointStatus, messagePosition: Option<nat>)

  datatype Branch = Branch(parent: SessionId, root: SessionId, forkRun: RunId, forkEnd: nat)

  datatype Store = Store(
    sessions: set<SessionId>,
    branches: map<SessionId, Branch>,
    messages: map<SessionId, seq<Message>>,
    runs: map<RunId, Run>,
    checkpoints: map<string, Checkpoint>,
    rank: map<SessionId, nat>,
    clock: nat)

  const EMPTY_STORE := Store({}, map[], map[], map[], map[], map[], 0)

  datatype Segment = Segment(session: SessionId, maxPosition: Option<nat>)

  // ---------------------------------------------------------------- lineage

  function IndexOf(segments: seq<Segment>, session: SessionId): (i: nat)
    ensures i <= |segments|
  {
    if segments == [] || segments[0].session == session then 0 else 1 + IndexOf(segments[1..], session)
  }

  /** Everything up to and including the session's segment, that segment cut at `maxPosition`. */
  function Clamp(segments: seq<Segment>, session: SessionId, maxPosition: nat): Result<seq<Segment>> {
    var index := IndexOf(segments, session);
    if index == |segments| then Err(ParentNotVisible(session))
    else
      var cut := match segments[index].maxPosition
        case None => maxPosition
        case Some(max) => if max < maxPosition then max else maxPosition;
      Ok(segments[..index] + [Segment(session, Some(cut))])
  }

  /** Follow the branch rows up to the root; `seen` holds the sessions already on the way. */
  function Resolve(s: Store, session: SessionId, seen: set<SessionId>): Result<seq<Segment>>
    decreases |s.sessions - seen|
  {
    if session in seen then Err(BranchCycle(session))
    else if session !in s.sessions then Err(SessionNotFound(session))
    else if session !in s.branches then Ok([Segment(session, None)])
    else
      var branch := s.branches[session];
      assert s.sessions - seen == (s.sessions - (seen + {session})) + {session};
      match Resolve(s, branch.parent, seen + {session})
      case Err(error) => Err(error)
      case Ok(parentSegments) =>
        match Clamp(parentSegments, branch.parent, branch.forkEnd)
        case Err(error) => Err(error)
        case Ok(clamped) => Ok(clamped + [Segment(session, None)])
  }

  function Lineage(s: Store, session: SessionId): Result<seq<Segment>> {
    Resolve(s, session, {})
  }

  // ---------------------------------------------------------------- visible messages

  function MessagesOf(s: Store, session: SessionId): seq<Message> {
    if session in s.messages then s.messages[session] else []
  }

  /** The session's rows up to a position, in order, without those of an excluded run. */
  function UpTo(messages: seq<Message>, max: Option<nat>, exclude: Option<RunId>): seq<Message> {
    if messages == [] then []
    else
      var m := messages[0];
      var rest := UpTo(messages[1..], max, exclude);
      if (max.Some? && m.position > max.value) || (exclude.Some? && m.run == exclude.value) then rest else [m] + rest
  }

  function Collect(s: Store, segments: seq<Segment>, exclude: Option<RunId>): seq<Message> {
    if segments == [] then []
    else UpTo(MessagesOf(s, segments[0].session), segments[0].maxPosition, exclude)
         + Collect(s, segments[1..], exclude)
  }

  /** The last `limit` visible messages. */
  function ListVisible(s: Store, segments: seq<Segment>, exclude: Option<RunId>, limit: int): seq<Message> {
    var records := Collect(s, segments, exclude);
    var kept := if limit < 0 then 0 else limit;
    records[if |records| < kept then 0 else |records| - kept..]
  }

  // ---------------------------------------------------------------- creating a branch

  predicate Given(id: Option<string>) { id.Some? && id.value != "" }

  predicate InSegments(segments: seq<Segment>, session: SessionId) {
    exists i :: 0 <= i < |segments| && segments[i].session == session
  }

  function OfRun(messages: seq<Message>, run: RunId): seq<Message> {
    if messages == [] then []
    else if messages[0].run == run then [messages[0]] + OfRun(messages[1..], run) else OfRun(messages[1..], run)
  }

  function UserMessages(messages: seq<Message>): seq<Message> {
    if messages == [] then []
    else if messages[0].role == UserRole then [messages[0]] + UserMessages(messages[1..]) else UserMessages(messages[1..])
  }

  function MinPosition(messages: seq<Message>): nat
    requires messages != []
  {
    if |messages| == 1 then messages[0].position
    else
      var rest := MinPosition(messages[1..]);
      if messages[0].position < rest then messages[0].position else rest
  }

  /** Just before the run's first message; position 0 (nothing) when it has none. */
  function RunForkEnd(runMessages: seq<Message>): int {
    if runMessages == [] then 0 else MinPosition(runMessages) - 1
  }

  function CheckpointForkEnd(checkpoint: Checkpoint, runMessages: seq<Message>): int {
    if checkpoint.messagePosition.Some? then checkpoint.messagePosition.value
    else if UserMessages(runMessages) != [] then MinPosition(UserMessages(runMessages))
    else RunForkEnd(runMessages)
  }

  /** The run to fork, and the checkpoint if one was named. */
  function BranchTarget(s: Store, segments: seq<Segment>, runId: Option<RunId>, checkpointId: Option<string>)
    : Result<(RunId, Option<Checkpoint>)>
  {
    if Given(runId) && Given(checkpointId) then Err(TargetAmbiguous)
    else if !Given(runId) && !Given(checkpointId) then Err(TargetRequired)
    else if !Given(checkpointId) then
      if runId.value in s.runs then Ok((runId.value, None)) else Err(RunNotFound(runId.value))
    else
      var id := checkpointId.value;
      if id !in s.checkpoints then Err(CheckpointNotFound(id))
      else
        var checkpoint := s.checkpoints[id];
        if checkpoint.status != Stable && checkpoint.status != Terminal then Err(CheckpointNotBranchable(id))
        else if checkpoint.run !in s.runs then Err(RunNotFound(checkpoint.run))
        else if !InSegments(segments, checkpoint.session) then Err(CheckpointNotVisible(id))
        else Ok((checkpoint.run, Some(checkpoint)))
  }

  /** The branch row a request leads to. */
  function PlanBranch(s: Store, active: SessionId, runId: Option<RunId>, checkpointId: Option<string>): Result<Branch> {
    match Lineage(s, active)
    case Err(error) => Err(error)
    case Ok(segments) =>
      match BranchTarget(s, segments, runId, checkpointId)
      case Err(error) => Err(error)
      case Ok((run, checkpoint)) =>
        var parent := s.runs[run].session;
        if !InSegments(segments, parent) then Err(RunNotVisible(run))
        else if s.runs[run].status !in {Completed, Failed, Canceled} then Err(RunNotBranchable(run))
        else
          var runMessages := OfRun(MessagesOf(s, parent), run);
          var end := if checkpoint.Some? then CheckpointForkEnd(checkpoint.value, runMessages) else RunForkEnd(runMessages);
          match Lineage(s, parent)
          case Err(error) => Err(error)
          case Ok(_) =>
            var root := if parent in s.branches then s.branches[parent].root else parent;
            Ok(Branch(parent, root, run, if end < 0 then 0 else end))
  }

  /** A session row; an existing one is only updated. */
  function AddSession(s: Store, session: SessionId): Store {
    if session in s.sessions then s
    else s.(sessions := s.sessions + {session}, rank := s.rank[session := s.clock], clock := s.clock + 1)
  }

  function CreateBranch(s: Store, active: SessionId, runId: Option<RunId>, checkpointId: Option<string>, child: SessionId)
    : (Store, Result<Branch>)
  {
    var plan := PlanBranch(s, active, runId, checkpointId);
    if plan.Err? then (s, plan)
    else
      var s1 := AddSession(s, child);
      (s1.(branches := s1.branches[child := plan.value]), plan)
  }

  // ---------------------------------------------------------------- the rest of the store's life

  function LastPosition(messages: seq<Message>): nat {
    if messages == [] then 0 else messages[|messages| - 1].position
  }

  datatype Step =
    | OpenSession(session: SessionId)
    | AppendMessage(session: SessionId, run: RunId, role: Role)
    | ClaimRun(run: RunId, session: SessionId, status: RunStatus)
    | SetStatus(run: RunId, status: RunStatus)
    | RecordCheckpoint(id: string, checkpoint: Checkpoint)
    | Fork(active: SessionId, runId: Option<RunId>, checkpointId: Option<string>, child: SessionId)
    | DeleteSessions(gone: set<SessionId>)

  /** What the tables' keys and the callers guarantee: rows refer to existing rows, a run's messages go to its session,
    * a new branch gets a fresh session, a recorded position exists, and a session is deleted with all its descendants. */
  ghost predicate Allowed(s: Store, step: Step) {
    match step
    case OpenSession(_) => true
    case AppendMessage(session, run, _) => session in s.sessions && run in s.runs && s.runs[run].session == session
    case ClaimRun(run, session, _) => run !in s.runs && session in s.sessions
    case SetStatus(run, _) => run in s.runs
    case RecordCheckpoint(_, c) =>
      && c.run in s.runs
      && (c.messagePosition.Some? ==>
            c.messagePosition.value <= LastPosition(MessagesOf(s, s.runs[c.run].session)))
    case Fork(_, _, _, child) => child !in s.sessions
    case DeleteSessions(gone) => forall c :: c in s.branches && s.branches[c].parent in gone ==> c in gone
  }

  function Take(s: Store, step: Step): Store {
    match step
    case OpenSession(session) => AddSession(s, session)
    case AppendMessage(session, run, role) =>
      var messages := MessagesOf(s, session);
      s.(messages := s.messages[session := messages + [Message(session, run, role, LastPosition(messages) + 1)]])
    case ClaimRun(run, session, status) => s.(runs := s.runs[run := Run(session, status)])
    case SetStatus(run, status) => if run in s.runs then s.(runs := s.runs[run := s.runs[run].(status := status)]) else s
    case RecordCheckpoint(id, c) => if id in s.checkpoints then s else s.(checkpoints := s.checkpoints[id := c])
    case Fork(active, runId, checkpointId, child) => CreateBranch(s, active, runId, checkpointId, child).0
    case DeleteSessions(gone) =>
      var runsGone := set r | r in s.runs && s.runs[r].session in gone;
      var checkpointsGone := set c | c in s.checkpoints
                                     && (s.checkpoints[c].session in gone || s.checkpoints[c].run in runsGone);
      s.(sessions := s.sessions - gone, branches := s.branches - gone, messages := s.messages - gone,
         runs := s.runs - runsGone, checkpoints := s.checkpoints - checkpointsGone, rank := s.rank - gone)
  }

  // ---------------------------------------------------------------- what every store keeps

  ghost predicate Ordered(messages: seq<Message>, session: SessionId) {
    && (forall i :: 0 <= i < |messages| ==> messages[i].session == session && 1 <= messages[i].position)
    && (forall i, j :: 0 <= i < j < |messages| ==> messages[i].position < messages[j].position)
  }

  /** The root a branch of this parent belongs to. */
  function RootOf(s: Store, parent: SessionId): SessionId {
    if parent in s.branches then s.branches[parent].root else parent
  }

  ghost predicate BranchOk(s: Store, child: SessionId, b: Branch) {
    && child in s.rank && b.parent in s.rank && s.rank[b.parent] < s.rank[child]
    && b.root == RootOf(s, b.parent)
    && b.forkEnd <= LastPosition(MessagesOf(s, b.parent))
  }

  ghost predicate CheckpointOk(s: Store, c: Checkpoint) {
    && c.run in s.runs
    && (c.messagePosition.Some? ==>
          c.messagePosition.value <= LastPosition(MessagesOf(s, s.runs[c.run].session)))
  }

  /** A session's messages are of runs of that session. */
  ghost predicate OfOwnRuns(runs: map<RunId, Run>, messages: seq<Message>, session: SessionId) {
    forall m :: m in messages ==> m.run in runs && runs[m.run].session == session
  }

  ghost predicate Inv(s: Store) {
    && s.rank.Keys == s.sessions
    && (forall x :: x in s.rank ==> s.rank[x] < s.clock)
    && (forall c :: c in s.branches ==> BranchOk(s, c, s.branches[c]))
    && (forall x :: x in s.messages ==>
          x in s.sessions && Ordered(s.messages[x], x) && OfOwnRuns(s.runs, s.messages[x], x))
    && (forall r :: r in s.runs ==> s.runs[r].session in s.sessions)
    && (forall c :: c in s.checkpoints ==> CheckpointOk(s, s.checkpoints[c]))
  }

  // ---------------------------------------------------------------- lineage of a kept store

  /** What resolution should return: the ancestors from the root down, each cut where the next one forked. */
  ghost function Path(s: Store, session: SessionId): seq<Segment>
    requires Inv(s) && session in s.sessions
    ensures Path(s, session) != []
    decreases s.rank[session]
  {
    if session !in s.branches then [Segment(session, None)]
    else
      var b := s.branches[session];
      var above := Path(s, b.parent);
      above[..|above| - 1] + [Segment(b.parent, Some(b.forkEnd)), Segment(session, None)]
  }

  /** Segments are distinct sessions in order of creation, only the last is uncut, every cut exists. */
  ghost predicate Chain(s: Store, path: seq<Segment>) {
    && (forall i :: 0 <= i < |path| ==> path[i].session in s.rank)
    && (forall i, j :: 0 <= i < j < |path| ==>
          path[i].session in s.rank && path[j].session in s.rank && s.rank[path[i].session] < s.rank[path[j].session])
    && (forall i :: 0 <= i < |path| ==> (path[i].maxPosition.None? <==> i == |path| - 1))
    && (forall i :: 0 <= i < |path| - 1 ==>
          path[i].maxPosition.Some?
          && path[i].maxPosition.value <= LastPosition(MessagesOf(s, path[i].session)))
  }

  lemma BranchRow(s: Store, session: SessionId)
    requires Inv(s) && session in s.branches
    ensures BranchOk(s, session, s.branches[session])
    ensures session in s.sessions && s.branches[session].parent in s.sessions
  {
  }

  /** A chain whose last segment is cut where a younger session forked from it, extended by that session. */
  lemma ChainExtends(s: Store, above: seq<Segment>, child: SessionId, b: Branch)
    requires above != [] && Chain(s, above) && above[|above| - 1] == Segment(b.parent, None)
    requires BranchOk(s, child, b)
    ensures Chain(s, above[..|above| - 1] + [Segment(b.parent, Some(b.forkEnd)), Segment(child, None)])
  {
  }

  lemma {:induction false} PathShape(s: Store, session: SessionId)
    requires Inv(s) && session in s.sessions
    ensures var path := Path(s, session);
            && path[|path| - 1] == Segment(session, None)
            && Chain(s, path)
            && path[0].session == RootOf(s, session)
    decreases s.rank[session]
  {
    if session in s.branches {
      BranchRow(s, session);
      hide Inv, LastPosition, MessagesOf;
      var b := s.branches[session];
      PathShape(s, b.parent);
      ChainExtends(s, Path(s, b.parent), session, b);
      hide Chain;
    } else {
      assert session in s.rank;
    }
  }

  lemma {:induction false} IndexOfLast(segments: seq<Segment>, i: nat)
    requires i < |segments|
    requires forall j :: 0 <= j < i ==> segments[j].session != segments[i].session
    ensures IndexOf(segments, segments[i].session) == i
  {
    if i > 0 { IndexOfLast(segments[1..], i - 1); }
  }

  /** On a kept store resolution never reports a cycle or a lost parent: it returns the path. */
  lemma {:induction false} ResolveFollowsPath(s: Store, session: SessionId, seen: set<SessionId>)
    requires Inv(s) && session in s.sessions
    requires forall x :: x in seen && x in s.sessions ==> s.rank[session] < s.rank[x]
    ensures Resolve(s, session, seen) == Ok(Path(s, session))
    decreases s.rank[session]
  {
    if session in s.branches {
      BranchRow(s, session);
      var b := s.branches[session];
      PathShape(s, b.parent);
      ResolveStep(s, session, seen);
      hide Inv, LastPosition, MessagesOf, Chain, Clamp;
      ResolveFollowsPath(s, b.parent, seen + {session});
    }
  }

  /** Clamping the parent's path at its last segment gives the child's path. */
  lemma ResolveStep(s: Store, session: SessionId, seen: set<SessionId>)
    requires Inv(s) && session in s.branches && session in s.sessions && s.branches[session].parent in s.sessions
    ensures var b, above := s.branches[session], Path(s, s.branches[session].parent);
            && Clamp(above, b.parent, b.forkEnd) == Ok(above[..|above| - 1] + [Segment(b.parent, Some(b.forkEnd))])
            && above[..|above| - 1] + [Segment(b.parent, Some(b.forkEnd))] + [Segment(session, None)] == Path(s, session)
  {
    var b, above := s.branches[session], Path(s, s.branches[session].parent);
    PathEnds(s, b.parent);
    hide Inv, LastPosition, MessagesOf, IndexOf, BranchOk, Chain;
    IndexOfLast(above, |above| - 1);
    ClampLast(above, b.parent, b.forkEnd);
    PathStep(s, session);
  }

  lemma ClampLast(above: seq<Segment>, session: SessionId, forkEnd: nat)
    requires above != [] && above[|above| - 1] == Segment(session, None)
    requires IndexOf(above, session) == |above| - 1
    ensures Clamp(above, session, forkEnd) == Ok(above[..|above| - 1] + [Segment(session, Some(forkEnd))])
  {
  }

  lemma PathStep(s: Store, session: SessionId)
    requires Inv(s) && session in s.branches && session in s.sessions
    ensures var b, above := s.branches[session], Path(s, s.branches[session].parent);
            Path(s, session) == above[..|above| - 1] + [Segment(b.parent, Some(b.forkEnd))] + [Segment(session, None)]
  {
  }

  /** A path ends with its own session, which does not appear before. */
  lemma PathEnds(s: Store, session: SessionId)
    requires Inv(s) && session in s.sessions
    ensures var path := Path(s, session);
            && path[|path| - 1] == Segment(session, None)
            && forall i :: 0 <= i < |path| - 1 ==> path[i].session != session
  {
    PathShape(s, session);
    hide Inv, LastPosition, MessagesOf, BranchOk, Path;
  }

  lemma LineageIsPath(s: Store, session: SessionId)
    requires Inv(s)
    ensures session in s.sessions ==> Lineage(s, session) == Ok(Path(s, session))
    ensures session !in s.sessions ==> Lineage(s, session) == Err(SessionNotFound(session))
  {
    if session in s.sessions { ResolveFollowsPath(s, session, {}); }
  }

  // ---------------------------------------------------------------- filters

  lemma {:induction false} UpToAppend(a: seq<Message>, b: seq<Message>, max: Option<nat>, exclude: Option<RunId>)
    ensures UpTo(a + b, max, exclude) == UpTo(a, max, exclude) + UpTo(b, max, exclude)
  {
    if a == [] {
      assert a + b == b;
    } else {
      assert (a + b)[1..] == a[1..] + b;
      UpToAppend(a[1..], b, max, exclude);
    }
  }

  lemma {:induction false} UpToKeeps(messages: seq<Message>, max: Option<nat>, exclude: Option<RunId>, m: Message)
    ensures m in UpTo(messages, max, exclude) <==>
            m in messages && !(max.Some? && m.position > max.value) && !(exclude.Some? && m.run == exclude.value)
  {
    if messages != [] { UpToKeeps(messages[1..], max, exclude, m); }
  }

  lemma {:induction false} CollectAppend(s: Store, a: seq<Segment>, b: seq<Segment>, exclude: Option<RunId>)
    ensures Collect(s, a + b, exclude) == Collect(s, a, exclude) + Collect(s, b, exclude)
  {
    if a == [] {
      assert a + b == b;
    } else {
      assert (a + b)[1..] == a[1..] + b;
      CollectAppend(s, a[1..], b, exclude);
    }
  }

  /** Segments whose rows up to their cut are the same collect the same messages. */
  lemma {:induction false} CollectSame(s: Store, s': Store, segments: seq<Segment>, exclude: Option<RunId>)
    requires forall i :: 0 <= i < |segments| ==>
               UpTo(MessagesOf(s', segments[i].session), segments[i].maxPosition, exclude)
               == UpTo(MessagesOf(s, segments[i].session), segments[i].maxPosition, exclude)
    ensures Collect(s', segments, exclude) == Collect(s, segments, exclude)
  {
    if segments != [] { CollectSame(s, s', segments[1..], exclude); }
  }

  // ---------------------------------------------------------------- the invariant is kept

  lemma OrderedAppend(messages: seq<Message>, session: SessionId, run: RunId, role: Role)
    requires Ordered(messages, session)
    ensures Ordered(messages + [Message(session, run, role, LastPosition(messages) + 1)], session)
  {
  }

  lemma {:induction false} MinPositionIn(messages: seq<Message>)
    requires messages != []
    ensures exists m :: m in messages && m.position == MinPosition(messages)
    ensures forall m :: m in messages ==> MinPosition(messages) <= m.position
  {
    if |messages| > 1 {
      MinPositionIn(messages[1..]);
      assert messages[0] in messages;
    } else {
      assert messages[0] in messages;
    }
  }

  lemma {:induction false} OfRunIn(messages: seq<Message>, run: RunId, m: Message)
    ensures m in OfRun(messages, run) <==> m in messages && m.run == run
  {
    if messages != [] { OfRunIn(messages[1..], run, m); }
  }

  lemma {:induction false} UserMessagesIn(messages: seq<Message>, m: Message)
    ensures m in UserMessages(messages) <==> m in messages && m.role == UserRole
  {
    if messages != [] { UserMessagesIn(messages[1..], m); }
  }

  lemma LastIsGreatest(messages: seq<Message>, session: SessionId, m: Message)
    requires Ordered(messages, session) && m in messages
    ensures 1 <= m.position <= LastPosition(messages)
  {
  }

  /** The position a fork is cut at exists in the parent. */
  lemma ForkEndExists(s: Store, parent: SessionId, run: RunId, checkpoint: Option<Checkpoint>)
    requires Inv(s) && run in s.runs && s.runs[run].session == parent
    requires checkpoint.Some? ==> CheckpointOk(s, checkpoint.value) && checkpoint.value.run == run
    ensures var runMessages := OfRun(MessagesOf(s, parent), run);
            var end := if checkpoint.Some? then CheckpointForkEnd(checkpoint.value, runMessages) else RunForkEnd(runMessages);
            0 <= end <= LastPosition(MessagesOf(s, parent))
  {
    var messages := MessagesOf(s, parent);
    var runMessages := OfRun(messages, run);
    forall m | m in runMessages ensures 1 <= m.position <= LastPosition(messages) {
      OfRunIn(messages, run, m);
      LastIsGreatest(messages, parent, m);
    }
    forall m | m in UserMessages(runMessages) ensures m in runMessages { UserMessagesIn(runMessages, m); }
    if runMessages != [] { MinPositionIn(runMessages); }
    if UserMessages(runMessages) != [] { MinPositionIn(UserMessages(runMessages)); }
  }

  lemma PlanIsOk(s: Store, active: SessionId, runId: Option<RunId>, checkpointId: Option<string>)
    requires Inv(s) && PlanBranch(s, active, runId, checkpointId).Ok?
    ensures var b := PlanBranch(s, active, runId, checkpointId).value;
            && active in s.sessions && b.forkRun in s.runs && b.parent == s.runs[b.forkRun].session && b.parent in s.sessions
            && b.root == RootOf(s, b.parent)
            && b.forkEnd <= LastPosition(MessagesOf(s, b.parent))
            && (!Given(checkpointId) ==>
                  b.forkRun == runId.value
                  && b.forkEnd == RunForkEnd(OfRun(MessagesOf(s, b.parent), b.forkRun)))
  {
    LineageIsPath(s, active);
    var segments := Lineage(s, active).value;
    var (run, checkpoint) := BranchTarget(s, segments, runId, checkpointId).value;
    ForkEndExists(s, s.runs[run].session, run, checkpoint);
  }

  lemma ForkKeeps(s: Store, step: Step)
    requires Inv(s) && step.Fork? && Allowed(s, step)
    ensures Inv(Take(s, step))
  {
    if PlanBranch(s, step.active, step.runId, step.checkpointId).Ok? {
      PlanIsOk(s, step.active, step.runId, step.checkpointId);
      SessionKeeps(s, step.child);
      var b := PlanBranch(s, step.active, step.runId, step.checkpointId).value;
      var added := AddSession(s, step.child);
      assert Take(s, step) == added.(branches := added.branches[step.child := b]);
      hide PlanBranch, Take, Allowed;
      NewBranchKeeps(s, step.child, b);
    }
  }

  /** A branch row for a session just opened, from an older one. */
  lemma NewBranchKeeps(s: Store, child: SessionId, b: Branch)
    requires Inv(s) && child !in s.sessions && Inv(AddSession(s, child)) && b.parent in s.sessions
    requires b.root == RootOf(s, b.parent) && b.forkEnd <= LastPosition(MessagesOf(s, b.parent))
    ensures var added := AddSession(s, child); Inv(added.(branches := added.branches[child := b]))
  {
    var added := AddSession(s, child);
    var s' := added.(branches := added.branches[child := b]);
    hide Ordered, OfOwnRuns, LastPosition;
    forall c | c in s.branches ensures BranchOk(s', c, s.branches[c]) { assert BranchOk(s, c, s.branches[c]); }
    assert BranchOk(s', child, b);
    forall c | c in s'.checkpoints ensures CheckpointOk(s', s'.checkpoints[c]) {
      assert CheckpointOk(s, s.checkpoints[c]);
    }
    hide BranchOk, CheckpointOk;
  }

  lemma DeleteKeeps(s: Store, step: Step)
    requires Inv(s) && step.DeleteSessions? && Allowed(s, step)
    ensures Inv(Take(s, step))
  {
    var s' := Take(s, step);
    hide Ordered, LastPosition;
    forall c | c in s'.branches ensures BranchOk(s', c, s'.branches[c]) {
      assert BranchOk(s, c, s.branches[c]);
    }
    forall c | c in s'.checkpoints ensures CheckpointOk(s', s'.checkpoints[c]) {
      assert CheckpointOk(s, s.checkpoints[c]);
    }
  }

  lemma AppendedRows(s: Store, step: Step)
    requires Inv(s) && step.AppendMessage? && Allowed(s, step)
    ensures var s' := Take(s, step);
            && s' == s.(messages := s'.messages)
            && (forall x :: LastPosition(MessagesOf(s, x)) <= LastPosition(MessagesOf(s', x)))
            && (forall x :: x in s'.messages ==>
                  x in s'.sessions && Ordered(s'.messages[x], x) && OfOwnRuns(s.runs, s'.messages[x], x))
  {
    var messages := MessagesOf(s, step.session);
    OrderedAppend(messages, step.session, step.run, step.role);
    StoredRows(s, step.session);
    AppendGrows(s, step);
    hide BranchOk, CheckpointOk, Ordered, LastPosition;
    OwnRunAppend(s.runs, messages, Message(step.session, step.run, step.role, LastPosition(messages) + 1));
    hide OfOwnRuns;
  }

  lemma AppendGrows(s: Store, step: Step)
    requires step.AppendMessage?
    ensures forall x :: LastPosition(MessagesOf(s, x)) <= LastPosition(MessagesOf(Take(s, step), x))
  {
    hide CreateBranch;
  }

  lemma StoredRows(s: Store, session: SessionId)
    requires Inv(s)
    ensures Ordered(MessagesOf(s, session), session) && OfOwnRuns(s.runs, MessagesOf(s, session), session)
  {
  }

  lemma OwnRunAppend(runs: map<RunId, Run>, messages: seq<Message>, m: Message)
    requires OfOwnRuns(runs, messages, m.session) && m.run in runs && runs[m.run].session == m.session
    ensures OfOwnRuns(runs, messages + [m], m.session)
  {
  }

  /** More rows: sessions, branches, runs and checkpoints stay. */
  lemma MessagesKeep(s: Store, s': Store)
    requires Inv(s) && s' == s.(messages := s'.messages)
    requires forall x :: LastPosition(MessagesOf(s, x)) <= LastPosition(MessagesOf(s', x))
    requires forall x :: x in s'.messages ==>
               x in s'.sessions && Ordered(s'.messages[x], x) && OfOwnRuns(s.runs, s'.messages[x], x)
    ensures Inv(s')
  {
  }

  lemma AppendKeeps(s: Store, step: Step)
    requires Inv(s) && step.AppendMessage? && Allowed(s, step)
    ensures Inv(Take(s, step))
  {
    AppendedRows(s, step);
    hide Inv, Take, Allowed, Ordered, OfOwnRuns, MessagesOf, LastPosition;
    MessagesKeep(s, Take(s, step));
  }

  lemma SessionKeeps(s: Store, session: SessionId)
    requires Inv(s)
    ensures Inv(AddSession(s, session))
  {
    var s' := AddSession(s, session);
    hide Ordered, LastPosition;
    forall c | c in s.branches ensures BranchOk(s', c, s.branches[c]) {
      assert BranchOk(s, c, s.branches[c]);
    }
    forall c | c in s.checkpoints ensures CheckpointOk(s', s.checkpoints[c]) {
      assert CheckpointOk(s, s.checkpoints[c]);
    }
  }

  /** Run and checkpoint rows: sessions, branches and messages stay. */
  lemma RowsKeep(s: Store, s': Store)
    requires Inv(s) && s' == s.(runs := s'.runs, checkpoints := s'.checkpoints)
    requires forall r :: r in s.runs ==> r in s'.runs && s'.runs[r].session == s.runs[r].session
    requires forall r :: r in s'.runs ==> s'.runs[r].session in s.sessions
    requires forall c :: c in s'.checkpoints ==> CheckpointOk(s, s'.checkpoints[c])
    ensures Inv(s')
  {
    hide Ordered, LastPosition;
    forall c | c in s.branches ensures BranchOk(s', c, s.branches[c]) {
      assert BranchOk(s, c, s.branches[c]);
    }
    forall c | c in s'.checkpoints ensures CheckpointOk(s', s'.checkpoints[c]) {
      assert CheckpointOk(s, s'.checkpoints[c]);
    }
  }

  lemma RowKeeps(s: Store, step: Step)
    requires Inv(s) && Allowed(s, step)
    requires step.OpenSession? || step.ClaimRun? || step.SetStatus? || step.RecordCheckpoint?
    ensures Inv(Take(s, step))
  {
    if step.OpenSession? {
      hide Inv;
      SessionKeeps(s, step.session);
    } else {
      hide Ordered, CreateBranch;
      RowsKeep(s, Take(s, step));
    }
  }

  /** Every operation keeps the branch rows acyclic, their roots right and their cuts existing. */
  lemma StepKeeps(s: Store, step: Step)
    requires Inv(s) && Allowed(s, step)
    ensures Inv(Take(s, step))
  {
    hide Inv, Allowed, Take;
    match step
    case Fork(_, _, _, _) => ForkKeeps(s, step);
    case DeleteSessions(_) => DeleteKeeps(s, step);
    case AppendMessage(_, _, _) => AppendKeeps(s, step);
    case _ => RowKeeps(s, step);
  }

  // ---------------------------------------------------------------- isolation

  /** The messages a branch shows from its ancestors. */
  ghost function Inherited(s: Store, session: SessionId): seq<Message>
    requires Inv(s) && session in s.sessions
  {
    var path := Path(s, session);
    Collect(s, path[..|path| - 1], None)
  }

  lemma BranchStays(s: Store, step: Step, session: SessionId)
    requires Inv(s) && Allowed(s, step)
    requires session in s.sessions && session in Take(s, step).sessions
    ensures session in Take(s, step).branches <==> session in s.branches
    ensures session in s.branches ==>
              && Take(s, step).branches[session] == s.branches[session]
              && s.branches[session].parent in s.rank && s.rank[s.branches[session].parent] < s.rank[session]
              && s.branches[session].parent in s.sessions
    ensures session in s.branches ==> s.branches[session].parent in Take(s, step).sessions
  {
    hide Ordered, PlanBranch;
    if session in s.branches { assert BranchOk(s, session, s.branches[session]); }
  }

  lemma {:induction false} PathStays(s: Store, step: Step, session: SessionId)
    requires Inv(s) && Allowed(s, step) && Inv(Take(s, step))
    requires session in s.sessions && session in Take(s, step).sessions
    ensures Path(Take(s, step), session) == Path(s, session)
    decreases s.rank[session]
  {
    BranchStays(s, step, session);
    hide Take, Inv, Allowed;
    if session in s.branches {
      PathStays(s, step, s.branches[session].parent);
    }
  }

  /** No step changes a surviving session's rows up to a position it already had. */
  lemma RowsStay(s: Store, step: Step, session: SessionId, max: nat)
    requires Inv(s) && Allowed(s, step) && session in s.sessions && session in Take(s, step).sessions
    requires max <= LastPosition(MessagesOf(s, session))
    ensures UpTo(MessagesOf(Take(s, step), session), Some(max), None) == UpTo(MessagesOf(s, session), Some(max), None)
  {
    if step.AppendMessage? && step.session == session {
      var messages := MessagesOf(s, session);
      var m := Message(session, step.run, step.role, LastPosition(messages) + 1);
      hide Inv, PlanBranch, Allowed;
      UpToAppend(messages, [m], Some(max), None);
      assert UpTo([m], Some(max), None) == [];
    } else {
      hide *;
      RowsUntouched(s, step, session);
    }
  }

  lemma RowsUntouched(s: Store, step: Step, session: SessionId)
    requires session in Take(s, step).sessions && !(step.AppendMessage? && step.session == session)
    ensures MessagesOf(Take(s, step), session) == MessagesOf(s, session)
  {
    hide PlanBranch;
  }

  /** One step leaves the inherited part of every surviving session alone. */
  lemma InheritedStays(s: Store, step: Step, session: SessionId)
    requires Inv(s) && Allowed(s, step) && Inv(Take(s, step))
    requires session in s.sessions && session in Take(s, step).sessions
    ensures Inherited(Take(s, step), session) == Inherited(s, session)
  {
    var s' := Take(s, step);
    PathStays(s, step, session);
    PathShape(s, session);
    PathShape(s', session);
    var path := Path(s, session);
    hide Take, Inv, Path;
    forall i | 0 <= i < |path| - 1
      ensures UpTo(MessagesOf(s', path[i].session), path[i].maxPosition, None)
              == UpTo(MessagesOf(s, path[i].session), path[i].maxPosition, None)
    {
      InBoth(s, s', path, i);
      RowsStay(s, step, path[i].session, path[i].maxPosition.value);
    }
    CollectSame(s, s', path[..|path| - 1], None);
  }

  lemma InBoth(s: Store, s': Store, path: seq<Segment>, i: nat)
    requires Inv(s) && Inv(s') && Chain(s, path) && Chain(s', path) && i < |path|
    ensures path[i].session in s.sessions && path[i].session in s'.sessions
  {
  }

  /** A run of steps from `s` to `final`, each allowed, during which `session` is not deleted. */
  ghost predicate Leads(s: Store, trace: seq<Step>, final: Store, session: SessionId)
    decreases trace
  {
    if trace == [] then final == s && session in s.sessions
    else session in s.sessions && Allowed(s, trace[0]) && Leads(Take(s, trace[0]), trace[1..], final, session)
  }

  lemma {:induction false} LeadsInside(s: Store, trace: seq<Step>, final: Store, session: SessionId)
    requires Leads(s, trace, final, session)
    ensures session in s.sessions && session in final.sessions
    decreases trace
  {
    if trace != [] { LeadsInside(Take(s, trace[0]), trace[1..], final, session); }
  }

  /** Snapshot isolation: whatever is appended, forked, claimed or deleted elsewhere, a branch inherits
    * for ever what it inherited at first, however deep the forks. */
  lemma {:induction false} InheritedForever(s: Store, trace: seq<Step>, final: Store, session: SessionId)
    requires Inv(s) && Leads(s, trace, final, session)
    ensures Inv(final) && session in s.sessions && session in final.sessions
    ensures Inherited(final, session) == Inherited(s, session)
    ensures Path(final, session) == Path(s, session)
    decreases trace
  {
    hide Inv, Take;
    LeadsInside(s, trace, final, session);
    if trace != [] {
      StepKeeps(s, trace[0]);
      LeadsInside(Take(s, trace[0]), trace[1..], final, session);
      InheritedStays(s, trace[0], session);
      PathStays(s, trace[0], session);
      InheritedForever(Take(s, trace[0]), trace[1..], final, session);
    }
  }

  /** Every store reached from the empty one resolves every session: no cycle and no lost parent is ever
    * reported, segments are distinct sessions, only the last is uncut, and the first is the stored root. */
  lemma ReachableResolves(trace: seq<Step>, final: Store, session: SessionId)
    requires session in final.sessions && Reaches(EMPTY_STORE, trace, final)
    ensures Lineage(final, session).Ok?
    ensures var segments := Lineage(final, session).value;
            && segments != []
            && (forall i, j :: 0 <= i < j < |segments| ==> segments[i].session != segments[j].session)
            && (forall i :: 0 <= i < |segments| ==> (segments[i].maxPosition.None? <==> i == |segments| - 1))
            && segments[|segments| - 1].session == session
            && segments[0].session == RootOf(final, session)
  {
    ReachesKeeps(EMPTY_STORE, trace, final);
    LineageIsPath(final, session);
    PathShape(final, session);
  }

  ghost predicate Reaches(s: Store, trace: seq<Step>, final: Store)
    decreases trace
  {
    if trace == [] then final == s
    else Allowed(s, trace[0]) && Reaches(Take(s, trace[0]), trace[1..], final)
  }

  lemma {:induction false} ReachesKeeps(s: Store, trace: seq<Step>, final: Store)
    requires Inv(s) && Reaches(s, trace, final)
    ensures Inv(final)
    decreases trace
  {
    hide Inv, Take;
    if trace != [] {
      StepKeeps(s, trace[0]);
      ReachesKeeps(Take(s, trace[0]), trace[1..], final);
    }
  }

  // ---------------------------------------------------------------- what a new branch shows

  /** All visible messages of a session. */
  ghost function Visible(s: Store, session: SessionId): seq<Message>
    requires Inv(s) && session in s.sessions
  {
    Collect(s, Path(s, session), None)
  }

  /** A history cut in one session. */
  function Cut(messages: seq<Message>, session: SessionId, end: nat): seq<Message> {
    if messages == [] then []
    else
      var rest := Cut(messages[1..], session, end);
      if messages[0].session == session && messages[0].position > end then rest else [messages[0]] + rest
  }

  lemma {:induction false} CutAppend(a: seq<Message>, b: seq<Message>, session: SessionId, end: nat)
    ensures Cut(a + b, session, end) == Cut(a, session, end) + Cut(b, session, end)
  {
    if a == [] {
      assert a + b == b;
    } else {
      assert (a + b)[1..] == a[1..] + b;
      CutAppend(a[1..], b, session, end);
    }
  }

  lemma {:induction false} CutElsewhere(messages: seq<Message>, session: SessionId, end: nat)
    requires forall m :: m in messages ==> m.session != session
    ensures Cut(messages, session, end) == messages
  {
    if messages != [] {
      assert messages[0] in messages;
      CutElsewhere(messages[1..], session, end);
    }
  }

  lemma {:induction false} CutHere(messages: seq<Message>, session: SessionId, end: nat)
    requires forall m :: m in messages ==> m.session == session
    ensures Cut(UpTo(messages, None, None), session, end) == UpTo(messages, Some(end), None)
  {
    if messages != [] {
      assert messages[0] in messages;
      CutHere(messages[1..], session, end);
    }
  }

  lemma {:induction false} CutKeeps(messages: seq<Message>, session: SessionId, end: nat, m: Message)
    ensures m in Cut(messages, session, end) <==> m in messages && !(m.session == session && m.position > end)
  {
    if messages != [] { CutKeeps(messages[1..], session, end, m); }
  }

  lemma {:induction false} CollectSessions(s: Store, segments: seq<Segment>, m: Message)
    requires Inv(s) && m in Collect(s, segments, None)
    ensures exists i :: 0 <= i < |segments| && segments[i].session == m.session
  {
    var head := UpTo(MessagesOf(s, segments[0].session), segments[0].maxPosition, None);
    if m in head {
      UpToKeeps(MessagesOf(s, segments[0].session), segments[0].maxPosition, None, m);
      assert segments[0].session == m.session;
    } else {
      CollectSessions(s, segments[1..], m);
      var i :| 0 <= i < |segments[1..]| && segments[1..][i].session == m.session;
      assert segments[i + 1].session == m.session;
    }
  }

  lemma CollectOne(s: Store, segment: Segment, exclude: Option<RunId>)
    ensures Collect(s, [segment], exclude) == UpTo(MessagesOf(s, segment.session), segment.maxPosition, exclude)
  {
  }

  lemma InheritedElsewhere(s: Store, session: SessionId, m: Message)
    requires Inv(s) && session in s.sessions && m in Inherited(s, session)
    ensures m.session != session
  {
    PathShape(s, session);
    var path := Path(s, session);
    CollectSessions(s, path[..|path| - 1], m);
    hide Inv, Path, Collect;
    var i :| 0 <= i < |path[..|path| - 1]| && path[..|path| - 1][i].session == m.session;
    assert path[i].session == m.session;
  }

  /** A session shows what it inherits, then its own messages. */
  lemma VisibleSplits(s: Store, session: SessionId)
    requires Inv(s) && session in s.sessions
    ensures Visible(s, session) == Inherited(s, session) + UpTo(MessagesOf(s, session), None, None)
    ensures forall m :: m in Inherited(s, session) ==> m.session != session
  {
    PathShape(s, session);
    hide Inv, UpTo, MessagesOf, Path, Collect;
    var path := Path(s, session);
    assert path == path[..|path| - 1] + [Segment(session, None)];
    CollectAppend(s, path[..|path| - 1], [Segment(session, None)], None);
    CollectOne(s, Segment(session, None), None);
    forall m | m in Inherited(s, session) ensures m.session != session { InheritedElsewhere(s, session, m); }
  }

  function Without(messages: seq<Message>, exclude: Option<RunId>): seq<Message> {
    if messages == [] then []
    else (if exclude == Some(messages[0].run) then [] else [messages[0]]) + Without(messages[1..], exclude)
  }

  lemma {:induction false} UpToWithout(messages: seq<Message>, max: Option<nat>, exclude: Option<RunId>)
    ensures UpTo(messages, max, exclude) == Without(UpTo(messages, max, None), exclude)
  {
    if messages != [] {
      UpToWithout(messages[1..], max, exclude);
      var rest := UpTo(messages[1..], max, None);
      assert ([messages[0]] + rest)[1..] == rest;
      assert [] + UpTo(messages[1..], max, exclude) == UpTo(messages[1..], max, exclude);
    }
  }

  lemma {:induction false} WithoutAppend(a: seq<Message>, b: seq<Message>, exclude: Option<RunId>)
    ensures Without(a + b, exclude) == Without(a, exclude) + Without(b, exclude)
  {
    if a == [] {
      assert a + b == b;
    } else {
      assert (a + b)[1..] == a[1..] + b;
      WithoutAppend(a[1..], b, exclude);
    }
  }

  lemma {:induction false} CollectWithout(s: Store, segments: seq<Segment>, exclude: Option<RunId>)
    ensures Collect(s, segments, exclude) == Without(Collect(s, segments, None), exclude)
  {
    if segments != [] {
      var first, rest := segments[0], segments[1..];
      UpToWithout(MessagesOf(s, first.session), first.maxPosition, exclude);
      CollectWithout(s, rest, exclude);
      WithoutAppend(UpTo(MessagesOf(s, first.session), first.maxPosition, None), Collect(s, rest, None), exclude);
      hide UpTo, Without, MessagesOf;
    }
  }

  /** Listing a session gives the newest of its visible messages, without those of the excluded run. */
  lemma ListingShowsNewest(s: Store, session: SessionId, exclude: Option<RunId>, limit: int)
    requires Inv(s) && session in s.sessions
    ensures Lineage(s, session).Ok?
    ensures var all := Without(Visible(s, session), exclude);
            var kept := if limit < 0 then 0 else if limit > |all| then |all| else limit;
            ListVisible(s, Lineage(s, session).value, exclude, limit) == all[|all| - kept..]
  {
    hide Inv, Path, Collect, Without, Lineage;
    LineageIsPath(s, session);
    CollectWithout(s, Path(s, session), exclude);
  }

  /** A freshly forked branch shows its parent's visible history cut at the fork position. */
  lemma ForkShowsParentCut(s: Store, step: Step)
    requires Inv(s) && step.Fork? && Allowed(s, step)
    requires PlanBranch(s, step.active, step.runId, step.checkpointId).Ok?
    ensures var b := PlanBranch(s, step.active, step.runId, step.checkpointId).value;
            var s' := Take(s, step);
            && Inv(s') && step.child in s'.sessions && b.parent in s.sessions
            && Inherited(s', step.child) == Cut(Visible(s, b.parent), b.parent, b.forkEnd)
            && Visible(s', step.child) == Inherited(s', step.child)
  {
    var b := PlanBranch(s, step.active, step.runId, step.checkpointId).value;
    var s' := Take(s, step);
    PlanIsOk(s, step.active, step.runId, step.checkpointId);
    StepKeeps(s, step);
    ForkPath(s, step, b);
    VisibleSplits(s, b.parent);
    VisibleSplits(s', step.child);
    InheritedCut(s, s', b.parent, b.forkEnd);
    hide Take, Inv, Allowed, PlanBranch, Path, Cut;
  }

  lemma CutSplit(inherited: seq<Message>, own: seq<Message>, session: SessionId, end: nat)
    requires forall m :: m in inherited ==> m.session != session
    requires forall m :: m in own ==> m.session == session
    ensures Cut(inherited + UpTo(own, None, None), session, end) == inherited + UpTo(own, Some(end), None)
  {
    CutAppend(inherited, UpTo(own, None, None), session, end);
    CutElsewhere(inherited, session, end);
    CutHere(own, session, end);
  }

  /** Cutting the parent's history is collecting its path with the last segment cut. */
  lemma InheritedCut(s: Store, s': Store, parent: SessionId, end: nat)
    requires Inv(s) && parent in s.sessions && s'.messages == s.messages
    ensures var above := Path(s, parent);
            Collect(s', above[..|above| - 1] + [Segment(parent, Some(end))], None)
            == Cut(Visible(s, parent), parent, end)
  {
    VisibleSplits(s, parent);
    OwnRows(s, parent);
    var path := Path(s, parent);
    var above := path[..|path| - 1];
    CutSplit(Collect(s, above, None), MessagesOf(s, parent), parent, end);
    CollectCut(s, s', above, parent, end);
    hide Inv, Path, UpTo, Collect, MessagesOf, Cut;
  }

  lemma CollectCut(s: Store, s': Store, above: seq<Segment>, parent: SessionId, end: nat)
    requires s'.messages == s.messages
    ensures Collect(s', above + [Segment(parent, Some(end))], None)
            == Collect(s, above, None) + UpTo(MessagesOf(s, parent), Some(end), None)
  {
    SameRows(s, s');
    hide UpTo, Collect, MessagesOf;
    CollectAppend(s', above, [Segment(parent, Some(end))], None);
    CollectOne(s', Segment(parent, Some(end)), None);
    CollectSame(s, s', above, None);
  }

  lemma OwnRows(s: Store, session: SessionId)
    requires Inv(s) && session in s.sessions
    ensures forall m :: m in MessagesOf(s, session) ==> m.session == session
  {
  }

  lemma SameRows(s: Store, s': Store)
    requires s'.messages == s.messages
    ensures forall x :: MessagesOf(s', x) == MessagesOf(s, x)
  {
  }

  lemma ForkPath(s: Store, step: Step, b: Branch)
    requires Inv(s) && step.Fork? && Allowed(s, step) && Inv(Take(s, step))
    requires PlanBranch(s, step.active, step.runId, step.checkpointId) == Ok(b) && b.parent in s.sessions
    ensures var s' := Take(s, step);
            && step.child in s'.sessions && s'.messages == s.messages && step.child !in s'.messages
            && var above := Path(s, b.parent);
               Path(s', step.child)[..|Path(s', step.child)| - 1]
               == above[..|above| - 1] + [Segment(b.parent, Some(b.forkEnd))]
  {
    var s' := Take(s, step);
    ForkedRow(s, step, b);
    hide *;
    PathStays(s, step, b.parent);
    PathStep(s', step.child);
    var above := Path(s, b.parent);
    var cut := above[..|above| - 1] + [Segment(b.parent, Some(b.forkEnd))];
    assert (cut + [Segment(step.child, None)])[..|cut|] == cut;
  }

  lemma ForkedRow(s: Store, step: Step, b: Branch)
    requires Inv(s) && step.Fork? && Allowed(s, step)
    requires PlanBranch(s, step.active, step.runId, step.checkpointId) == Ok(b) && b.parent in s.sessions
    ensures var s' := Take(s, step);
            && step.child in s'.sessions && b.parent in s'.sessions && s'.messages == s.messages
            && step.child !in s'.messages && step.child in s'.branches && s'.branches[step.child] == b
  {
    hide PlanBranch, Path, Ordered, OfOwnRuns, BranchOk, CheckpointOk;
  }

  /** For as long as the branch exists it inherits its parent's visible history as it was at the fork, cut
    * at the fork position. */
  lemma ForkIsSnapshot(s: Store, step: Step, trace: seq<Step>, final: Store)
    requires Inv(s) && step.Fork? && Allowed(s, step)
    requires PlanBranch(s, step.active, step.runId, step.checkpointId).Ok?
    requires Leads(Take(s, step), trace, final, step.child)
    ensures var b := PlanBranch(s, step.active, step.runId, step.checkpointId).value;
            && Inv(final) && step.child in final.sessions && b.parent in s.sessions
            && Inherited(final, step.child) == Cut(Visible(s, b.parent), b.parent, b.forkEnd)
  {
    ForkShowsParentCut(s, step);
    hide Inv, Take, Allowed, PlanBranch, Leads, Path, Cut, Collect;
    InheritedForever(Take(s, step), trace, final, step.child);
  }

  lemma {:induction false} CollectedIsStored(s: Store, segments: seq<Segment>, m: Message)
    requires Inv(s) && m in Collect(s, segments, None)
    ensures m.run in s.runs && s.runs[m.run].session == m.session
  {
    var messages := MessagesOf(s, segments[0].session);
    if m in UpTo(messages, segments[0].maxPosition, None) {
      UpToKeeps(messages, segments[0].maxPosition, None, m);
      assert Ordered(messages, segments[0].session) && OfOwnRuns(s.runs, messages, segments[0].session);
    } else {
      hide Inv;
      CollectedIsStored(s, segments[1..], m);
    }
  }

  /** Forking from a run hides every message of the run and keeps all earlier ones of its session; from a run without
    * messages nothing of its session is kept. */
  lemma RunForkHidesRun(s: Store, step: Step)
    requires Inv(s) && step.Fork? && Allowed(s, step) && !Given(step.checkpointId)
    requires PlanBranch(s, step.active, step.runId, step.checkpointId).Ok?
    ensures var parent := s.runs[step.runId.value].session;
            var s' := Take(s, step);
            && parent in s.sessions && Inv(s') && step.child in s'.sessions
            && (forall m :: m in Visible(s', step.child) ==> m.run != step.runId.value)
            && (forall m :: m in Visible(s, parent) ==>
                  (m in Visible(s', step.child) <==>
                    m.session != parent
                    || exists first :: first in MessagesOf(s, parent) && first.run == step.runId.value
                         && (forall other :: other in MessagesOf(s, parent) && other.run == step.runId.value
                               ==> first.position <= other.position)
                         && m.position < first.position))
  {
    var run := step.runId.value;
    var b := PlanBranch(s, step.active, step.runId, step.checkpointId).value;
    PlanIsOk(s, step.active, step.runId, step.checkpointId);
    ForkShowsParentCut(s, step);
    var parent, s' := b.parent, Take(s, step);
    var messages := MessagesOf(s, parent);
    var runMessages := OfRun(messages, run);
    VisibleSplits(s, parent);
    forall m | m in messages && m.run == run ensures m in runMessages && b.forkEnd < m.position {
      OfRunIn(messages, run, m);
      MinPositionIn(runMessages);
      LastIsGreatest(messages, parent, m);
    }
    hide Take, PlanBranch;
    forall m ensures m in Visible(s', step.child) <==> m in Visible(s, parent) && !(m.session == parent && m.position > b.forkEnd) {
      CutKeeps(Visible(s, parent), parent, b.forkEnd, m);
    }
    forall m | m in Visible(s, parent) && m.session == parent ensures m in messages && 1 <= m.position {
      UpToKeeps(messages, None, None, m);
      LastIsGreatest(messages, parent, m);
    }
    forall m | m in Visible(s', step.child) ensures m.run != run {
      CollectedIsStored(s, Path(s, parent), m);
    }
    if runMessages != [] {
      MinPositionIn(runMessages);
      var first :| first in runMessages && first.position == MinPosition(runMessages);
      OfRunIn(messages, run, first);
      assert first in messages && first.run == run && b.forkEnd == first.position - 1;
    }
  }

  /** The run's earliest message, or its earliest from the user. */
  ghost predicate IsFirst(messages: seq<Message>, run: RunId, fromUser: bool, first: Message) {
    && first in messages && first.run == run && (fromUser ==> first.role == UserRole)
    && forall other :: other in messages && other.run == run && (fromUser ==> other.role == UserRole) ==>
         first.position <= other.position
  }

  /** How far a fork from the checkpoint shows its session: up to the checkpoint's message when one is recorded, else up
    * to the user message the run answers, else up to before the run's first message. */
  ghost predicate ShownByCheckpoint(c: Checkpoint, messages: seq<Message>, m: Message) {
    match c.messagePosition
    case Some(position) => m.position <= position
    case None =>
      if exists first :: IsFirst(messages, c.run, true, first)
      then exists first :: IsFirst(messages, c.run, true, first) && m.position <= first.position
      else exists first :: IsFirst(messages, c.run, false, first) && m.position < first.position
  }

  /** The earliest of some of the run's messages has the least position. */
  lemma FirstIsMin(messages: seq<Message>, run: RunId, fromUser: bool)
    ensures var own := if fromUser then UserMessages(OfRun(messages, run)) else OfRun(messages, run);
            && (own != [] <==> exists first :: IsFirst(messages, run, fromUser, first))
            && forall first :: IsFirst(messages, run, fromUser, first) ==> own != [] && first.position == MinPosition(own)
  {
    var own := if fromUser then UserMessages(OfRun(messages, run)) else OfRun(messages, run);
    forall m ensures m in own <==> m in messages && m.run == run && (fromUser ==> m.role == UserRole) {
      OfRunIn(messages, run, m);
      UserMessagesIn(OfRun(messages, run), m);
    }
    if own != [] {
      MinPositionIn(own);
      var first :| first in own && first.position == MinPosition(own);
      assert IsFirst(messages, run, fromUser, first);
    }
    forall first | IsFirst(messages, run, fromUser, first) ensures own != [] && first.position == MinPosition(own) {
      assert first in own;
    }
  }

  /** Of its session's messages a fork shows those up to the cut, which is where the checkpoint says. */
  lemma CutAsCheckpointSays(s: Store, c: Checkpoint, parent: SessionId, m: Message)
    requires Inv(s) && c.run in s.runs && s.runs[c.run].session == parent && CheckpointOk(s, c) && m in MessagesOf(s, parent)
    ensures var end := CheckpointForkEnd(c, OfRun(MessagesOf(s, parent), c.run));
            m.position <= end <==> ShownByCheckpoint(c, MessagesOf(s, parent), m)
  {
    var messages := MessagesOf(s, parent);
    LastIsGreatest(messages, parent, m);
    FirstIsMin(messages, c.run, true);
    FirstIsMin(messages, c.run, false);
    hide Inv, IsFirst, MinPosition, MessagesOf;
  }

  /** Forking from a checkpoint shows the parent's visible history and, of the session of the checkpoint's run, what the
    * checkpoint shows of it. */
  lemma CheckpointForkShows(s: Store, step: Step)
    requires Inv(s) && step.Fork? && Allowed(s, step) && Given(step.checkpointId)
    requires PlanBranch(s, step.active, step.runId, step.checkpointId).Ok?
    ensures step.checkpointId.value in s.checkpoints && s.checkpoints[step.checkpointId.value].run in s.runs
    ensures var c := s.checkpoints[step.checkpointId.value];
            var (parent, s') := (s.runs[c.run].session, Take(s, step));
            && parent in s.sessions && Inv(s') && step.child in s'.sessions
            && (forall m :: m in Visible(s', step.child) ==> m in Visible(s, parent))
            && (forall m :: m in Visible(s, parent) ==>
                  (m in Visible(s', step.child) <==>
                    m.session != parent || ShownByCheckpoint(c, MessagesOf(s, parent), m)))
  {
    CheckpointPlan(s, step);
    var c := s.checkpoints[step.checkpointId.value];
    var (parent, s') := (s.runs[c.run].session, Take(s, step));
    var b := PlanBranch(s, step.active, step.runId, step.checkpointId).value;
    ForkShowsParentCut(s, step);
    VisibleSplits(s, parent);
    hide Take, PlanBranch, ShownByCheckpoint, CheckpointForkEnd;
    forall m ensures m in Visible(s', step.child) <==> m in Visible(s, parent) && !(m.session == parent && m.position > b.forkEnd) {
      CutKeeps(Visible(s, parent), parent, b.forkEnd, m);
    }
    forall m | m in Visible(s, parent) && m.session == parent
      ensures m.position <= b.forkEnd <==> ShownByCheckpoint(c, MessagesOf(s, parent), m)
    {
      UpToKeeps(MessagesOf(s, parent), None, None, m);
      CutAsCheckpointSays(s, c, parent, m);
    }
    hide Inv, Visible, MessagesOf;
  }

  lemma CheckpointPlan(s: Store, step: Step)
    requires Inv(s) && step.Fork? && Given(step.checkpointId)
    requires PlanBranch(s, step.active, step.runId, step.checkpointId).Ok?
    ensures step.checkpointId.value in s.checkpoints
    ensures var (b, c) := (PlanBranch(s, step.active, step.runId, step.checkpointId).value, s.checkpoints[step.checkpointId.value]);
            && c.run in s.runs && CheckpointOk(s, c) && b.parent == s.runs[c.run].session && b.forkRun == c.run
            && b.forkEnd == CheckpointForkEnd(c, OfRun(MessagesOf(s, b.parent), c.run))
  {
    LineageIsPath(s, step.active);
    var segments := Lineage(s, step.active).value;
    var (run, checkpoint) := BranchTarget(s, segments, step.runId, step.checkpointId).value;
    ForkEndExists(s, s.runs[run].session, run, checkpoint);
  }

  /** The sessions whose messages a session may show: itself and its ancestors. */
  ghost predicate OnPath(s: Store, active: SessionId, session: SessionId)
    requires Inv(s) && active in s.sessions
  {
    exists i :: 0 <= i < |Path(s, active)| && Path(s, active)[i].session == session
  }

  /** The run a request names, or the run of the checkpoint it names, when exactly one is named and may be forked from. */
  ghost predicate MayFork(s: Store, active: SessionId, runId: Option<RunId>, checkpointId: Option<string>, run: RunId)
    requires Inv(s)
  {
    var byRun := runId.Some? && runId.value != "";
    var byCheckpoint := checkpointId.Some? && checkpointId.value != "";
    && active in s.sessions && run in s.runs && byRun != byCheckpoint
    && (byRun ==> run == runId.value)
    && (byCheckpoint ==>
          && checkpointId.value in s.checkpoints && run == s.checkpoints[checkpointId.value].run
          && (s.checkpoints[checkpointId.value].status == Stable || s.checkpoints[checkpointId.value].status == Terminal)
          && OnPath(s, active, s.checkpoints[checkpointId.value].session))
    && (s.runs[run].status == Completed || s.runs[run].status == Failed || s.runs[run].status == Canceled)
    && OnPath(s, active, s.runs[run].session)
  }

  /** Exactly when a fork goes through, and the row it then writes: it hangs below the session of the run. */
  lemma ForkAllowedIff(s: Store, active: SessionId, runId: Option<RunId>, checkpointId: Option<string>)
    requires Inv(s)
    ensures var plan := PlanBranch(s, active, runId, checkpointId);
            && (plan.Ok? <==> exists run :: MayFork(s, active, runId, checkpointId, run))
            && (plan.Ok? ==> && MayFork(s, active, runId, checkpointId, plan.value.forkRun)
                             && plan.value.parent == s.runs[plan.value.forkRun].session
                             && plan.value.root == RootOf(s, plan.value.parent))
  {
    PlanMayFork(s, active, runId, checkpointId);
    hide *;
    forall run | MayFork(s, active, runId, checkpointId, run) ensures PlanBranch(s, active, runId, checkpointId).Ok? {
      MayForkPlans(s, active, runId, checkpointId, run);
    }
  }

  /** Which error a fork that is refused reports: the first check that fails, in this order. */
  lemma ForkErrors(s: Store, active: SessionId, runId: Option<RunId>, checkpointId: Option<string>)
    requires Inv(s) && PlanBranch(s, active, runId, checkpointId).Err?
    ensures var byRun, byCheckpoint := runId.Some? && runId.value != "", checkpointId.Some? && checkpointId.value != "";
            match PlanBranch(s, active, runId, checkpointId).error
            case SessionNotFound(x) => x == active && active !in s.sessions
            case TargetAmbiguous => active in s.sessions && byRun && byCheckpoint
            case TargetRequired => active in s.sessions && !byRun && !byCheckpoint
            case RunNotFound(run) => active in s.sessions && byRun && !byCheckpoint && run == runId.value && run !in s.runs
            case CheckpointNotFound(id) =>
              active in s.sessions && byCheckpoint && !byRun && id == checkpointId.value && id !in s.checkpoints
            case CheckpointNotBranchable(id) =>
              && active in s.sessions && byCheckpoint && !byRun && id == checkpointId.value && id in s.checkpoints
              && s.checkpoints[id].status != Stable && s.checkpoints[id].status != Terminal
            case CheckpointNotVisible(id) =>
              && active in s.sessions && byCheckpoint && !byRun && id == checkpointId.value && id in s.checkpoints
              && (s.checkpoints[id].status == Stable || s.checkpoints[id].status == Terminal)
              && !OnPath(s, active, s.checkpoints[id].session)
            case RunNotVisible(run) =>
              active in s.sessions && byRun != byCheckpoint && run in s.runs && !OnPath(s, active, s.runs[run].session)
            case RunNotBranchable(run) =>
              && active in s.sessions && byRun != byCheckpoint && run in s.runs && OnPath(s, active, s.runs[run].session)
              && s.runs[run].status != Completed && s.runs[run].status != Failed && s.runs[run].status != Canceled
            case _ => false
  {
    LineageIsPath(s, active);
    if active in s.sessions {
      SegmentsOnPath(s, active);
      forall run | run in s.runs ensures Lineage(s, s.runs[run].session).Ok? { RunSessionResolves(s, run); }
      assert forall id :: id in s.checkpoints ==> s.checkpoints[id].run in s.runs;
    }
    hide Inv, Lineage, OnPath, InSegments, Path, RunForkEnd, CheckpointForkEnd, OfRun, MessagesOf;
  }

  lemma SegmentsOnPath(s: Store, active: SessionId)
    requires Inv(s) && active in s.sessions
    ensures Lineage(s, active).Ok? && forall x :: InSegments(Lineage(s, active).value, x) <==> OnPath(s, active, x)
  {
    LineageIsPath(s, active);
    hide Inv, Lineage, Path;
  }

  lemma RunSessionResolves(s: Store, run: RunId)
    requires Inv(s) && run in s.runs
    ensures Lineage(s, s.runs[run].session).Ok?
  {
    LineageIsPath(s, s.runs[run].session);
    hide Lineage, Path;
  }

  lemma MayForkPlans(s: Store, active: SessionId, runId: Option<RunId>, checkpointId: Option<string>, run: RunId)
    requires Inv(s) && MayFork(s, active, runId, checkpointId, run)
    ensures PlanBranch(s, active, runId, checkpointId).Ok?
  {
    SegmentsOnPath(s, active);
    RunSessionResolves(s, run);
    hide Inv, Lineage, OnPath, InSegments, RunForkEnd, CheckpointForkEnd, OfRun, MessagesOf;
  }

  lemma PlanMayFork(s: Store, active: SessionId, runId: Option<RunId>, checkpointId: Option<string>)
    requires Inv(s)
    ensures var plan := PlanBranch(s, active, runId, checkpointId);
            plan.Ok? ==> && MayFork(s, active, runId, checkpointId, plan.value.forkRun)
                         && plan.value.parent == s.runs[plan.value.forkRun].session
                         && plan.value.root == RootOf(s, plan.value.parent)
  {
    LineageIsPath(s, active);
    if active in s.sessions { SegmentsOnPath(s, active); }
    hide Inv, Lineage, OnPath, InSegments, Path, RunForkEnd, CheckpointForkEnd, OfRun, MessagesOf;
  }

  // ---------------------------------------------------------------- the function over the store

  class MetadataStore {
    var rows: Store

    constructor ()
      ensures rows == EMPTY_STORE
    {
      rows := EMPTY_STORE;
    }

    /** Checks the request in order, works out the fork position, and inserts the session and its branch row. */
    method CreateSessionBranch(active: SessionId, runId: Option<RunId>, checkpointId: Option<string>, childId: SessionId)
      returns (result: Result<Branch>)
      requires childId !in rows.sessions
      modifies this
      ensures (rows, result) == CreateBranch(old(rows), active, runId, checkpointId, childId)
    {
      var activeLineage := Lineage(rows, active);
      if activeLineage.Err? {
        return Err(activeLineage.error);
      }
      var target := BranchTarget(rows, activeLineage.value, runId, checkpointId);
      if target.Err? {
        return Err(target.error);
      }
      var (run, checkpoint) := target.value;
      var parent := rows.runs[run].session;
      if !InSegments(activeLineage.value, parent) {
        return Err(RunNotVisible(run));
      }
      if rows.runs[run].status !in {Completed, Failed, Canceled} {
        return Err(RunNotBranchable(run));
      }
      var runMessages := OfRun(MessagesOf(rows, parent), run);
      var forkEnd := RunForkEnd(runMessages);
      if checkpoint.Some? {
        forkEnd := CheckpointForkEnd(checkpoint.value, runMessages);
      }
      var parentLineage := Lineage(rows, parent);
      if parentLineage.Err? {
        return Err(parentLineage.error);
      }
      var root := parent;
      if parent in rows.branches {
        root := rows.branches[parent].root;
      }
      var branch := Branch(parent, root, run, if forkEnd < 0 then 0 else forkEnd);
      rows := AddSession(rows, childId);
      rows := rows.(branches := rows.branches[childId := branch]);
      result := Ok(branch);
    }
  }

  // ---------------------------------------------------------------- the other operations

  /** A message is added after the session's others, under the next position, and no other table changes. */
  lemma AppendAdds(s: Store, session: SessionId, run: RunId, role: Role)
    ensures var s' := Take(s, AppendMessage(session, run, role));
            var rows := MessagesOf(s, session);
            && s' == s.(messages := s'.messages)
            && MessagesOf(s', session)
               == rows + [Message(session, run, role, if rows == [] then 1 else rows[|rows| - 1].position + 1)]
            && forall x :: x != session ==> MessagesOf(s', x) == MessagesOf(s, x)
  {
  }

  /** Deleted sessions take their messages, branch rows, runs and checkpoints along, and nothing else goes. */
  lemma DeletionTakes(s: Store, gone: set<SessionId>)
    ensures var s' := Take(s, DeleteSessions(gone));
            && (forall x :: x in s'.sessions <==> x in s.sessions && x !in gone)
            && (forall x :: MessagesOf(s', x) == if x in gone then [] else MessagesOf(s, x))
            && (forall c :: c in s'.branches <==> c in s.branches && c !in gone)
            && (forall c :: c in s'.branches ==> s'.branches[c] == s.branches[c])
            && (forall r :: r in s'.runs <==> r in s.runs && s.runs[r].session !in gone)
            && (forall r :: r in s'.runs ==> s'.runs[r] == s.runs[r])
            && (forall c :: c in s'.checkpoints ==> s'.checkpoints[c] == s.checkpoints[c])
            && (forall c :: c in s'.checkpoints <==>
                  && c in s.checkpoints && s.checkpoints[c].session !in gone
                  && !(s.checkpoints[c].run in s.runs && s.runs[s.checkpoints[c].run].session in gone))
  {
  }
}
