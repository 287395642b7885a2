/** The MCP tool loop around an agent: run the agent, answer the MCP calls it left open, run it again.
  *
  * The agent, the tools and the moments of cancellation are parameters, so the statements hold for any. */
module McpLoop {
  import opened Options

  datatype ToolCall = ToolCall(id: string, name: string)

  datatype Message = Assistant(calls: seq<ToolCall>) | ToolAnswer(toolCallId: string) | OtherMessage

  datatype Event = RunStarted | RunFinished(payload: string) | RunError
                 | Result(toolCallId: string, content: string) | OtherEvent(payload: string)

  /** One run of the agent: its events, each with the messages as they then were, and whether it broke off. */
  datatype Turn = Turn(emitted: seq<(Event, seq<Message>)>, broken: bool)

  /** `agent(n, messages)` is the n-th run; `cancelled(n, late)` says whether the subscriber had gone when
    * the n-th run completed, or (late) when its tools had answered. */
  datatype World = World(
    maxIterations: nat,
    mcpTools: set<string>,
    agent: (nat, seq<Message>) -> Turn,
    execute: (nat, ToolCall) -> string,
    cancelled: (nat, bool) -> bool)

  datatype End = Completed | Cancelled | Broken

  /** How a run of the agent ended, as the loop saw it. */
  datatype TurnLog = TurnLog(
    input: seq<Message>, messages: seq<Message>, failed: bool, broken: bool, early: bool, late: bool)

  datatype Log = Log(out: seq<Event>, turns: seq<TurnLog>, end: End)

  const LIMIT: string := "MCP_ITERATION_LIMIT"

  // ---------------------------------------------------------------- open calls

  function Calls(messages: seq<Message>): seq<ToolCall> {
    if messages == [] then []
    else (if messages[0].Assistant? then messages[0].calls else []) + Calls(messages[1..])
  }

  function Answered(messages: seq<Message>): set<string> {
    set i | 0 <= i < |messages| && messages[i].ToolAnswer? :: messages[i].toolCallId
  }

  function Unanswered(calls: seq<ToolCall>, answered: set<string>): seq<ToolCall> {
    if calls == [] then []
    else (if calls[0].id in answered then [] else [calls[0]]) + Unanswered(calls[1..], answered)
  }

  function OpenToolCalls(messages: seq<Message>): seq<ToolCall> {
    Unanswered(Calls(messages), Answered(messages))
  }

  function OnlyMcp(calls: seq<ToolCall>, tools: set<string>): seq<ToolCall> {
    if calls == [] then []
    else (if calls[0].name in tools then [calls[0]] else []) + OnlyMcp(calls[1..], tools)
  }

  // ---------------------------------------------------------------- one run of the agent

  predicate Passes(e: Event, suppressStarted: bool) {
    !e.RunFinished? && (e.RunStarted? ==> !suppressStarted)
  }

  function Forwarded(emitted: seq<(Event, seq<Message>)>, suppressStarted: bool): seq<Event> {
    if emitted == [] then []
    else (if Passes(emitted[0].0, suppressStarted) then [emitted[0].0] else []) + Forwarded(emitted[1..], suppressStarted)
  }

  predicate Failed(emitted: seq<(Event, seq<Message>)>) {
    exists i :: 0 <= i < |emitted| && emitted[i].0.RunError?
  }

  /** The last withheld RUN_FINISHED, as the events to send for it. */
  function Withheld(emitted: seq<(Event, seq<Message>)>): seq<Event> {
    if emitted == [] then []
    else if emitted[|emitted| - 1].0.RunFinished? then [emitted[|emitted| - 1].0]
    else Withheld(emitted[..|emitted| - 1])
  }

  function MessagesAfter(messages: seq<Message>, emitted: seq<(Event, seq<Message>)>): seq<Message> {
    if emitted == [] then messages else emitted[|emitted| - 1].1
  }

  function Results(calls: seq<ToolCall>, content: ToolCall -> string): seq<Event> {
    if calls == [] then [] else [Result(calls[0].id, content(calls[0]))] + Results(calls[1..], content)
  }

  function Answers(calls: seq<ToolCall>): seq<Message> {
    if calls == [] then [] else [ToolAnswer(calls[0].id)] + Answers(calls[1..])
  }

  // ---------------------------------------------------------------- the loop

  /** What follows a completed run of the agent: the stream ends, or the agent runs again. */
  datatype Decision = Stop(sent: seq<Event>, end: End) | Again(sent: seq<Event>, messages: seq<Message>)

  function Decide(w: World, iteration: nat, current: seq<Message>, failed: bool, withheld: seq<Event>): Decision {
    var open := OnlyMcp(OpenToolCalls(current), w.mcpTools);
    if w.cancelled(iteration, false) then Stop([], Cancelled)
    else if failed then Stop([], Completed)
    else if open == [] then Stop(withheld, Completed)
    else if iteration >= w.maxIterations then Stop(Results(open, c => LIMIT) + withheld, Completed)
    else if w.cancelled(iteration, true) then Stop([], Cancelled)
    else
      var results := Results(open, c => w.execute(iteration, c));
      var next := current + Answers(open);
      if OpenToolCalls(next) != [] then Stop(results + withheld, Completed) else Again(results, next)
  }

  function LogOf(w: World, iteration: nat, messages: seq<Message>): TurnLog {
    var turn := w.agent(iteration, messages);
    TurnLog(messages, MessagesAfter(messages, turn.emitted), Failed(turn.emitted), turn.broken,
            w.cancelled(iteration, false), w.cancelled(iteration, true))
  }

  function Loop(w: World, iteration: nat, messages: seq<Message>): Log
    requires iteration <= w.maxIterations
    decreases w.maxIterations - iteration
  {
    var turn := w.agent(iteration, messages);
    var sent := Forwarded(turn.emitted, iteration > 0);
    var log := [LogOf(w, iteration, messages)];
    if turn.broken then Log(sent, log, Broken)
    else
      match Decide(w, iteration, MessagesAfter(messages, turn.emitted), Failed(turn.emitted), Withheld(turn.emitted))
      case Stop(more, end) => Log(sent + more, log, end)
      case Again(more, next) =>
        if iteration < w.maxIterations then
          var rest := Loop(w, iteration + 1, next);
          Log(sent + more + rest.out, log + rest.turns, rest.end)
        else assert false; Log(sent + more, log, Completed)
  }

  // ---------------------------------------------------------------- the methods

  /** Subscribe to one run of the agent: pass its events on, withhold its RUN_FINISHED. */
  method RunAgent(emitted: seq<(Event, seq<Message>)>, messages: seq<Message>, suppressRunStarted: bool)
    returns (sent: seq<Event>, currentMessages: seq<Message>, failed: bool, pendingFinished: seq<Event>)
    ensures sent == Forwarded(emitted, suppressRunStarted)
    ensures currentMessages == MessagesAfter(messages, emitted)
    ensures failed == Failed(emitted) && pendingFinished == Withheld(emitted)
  {
    sent, currentMessages, failed, pendingFinished := [], messages, false, [];
    NothingSeen(messages, emitted, suppressRunStarted);
    hide Failed, Passes, Forwarded, Withheld, MessagesAfter;
    for i := 0 to |emitted|
      invariant currentMessages == MessagesAfter(messages, emitted[..i])
      invariant failed == Failed(emitted[..i])
      invariant pendingFinished == Withheld(emitted[..i])
      invariant sent + Forwarded(emitted[i..], suppressRunStarted) == Forwarded(emitted, suppressRunStarted)
    {
      var (event, now) := emitted[i];
      SeenMore(messages, emitted, i);
      ForwardedStep(emitted, i, sent, suppressRunStarted);
      currentMessages := now;
      if event.RunError? {
        failed := true;
        sent := sent + [event];
      } else if event.RunFinished? {
        pendingFinished := [event];
      } else if !event.RunStarted? || !suppressRunStarted {
        sent := sent + [event];
      }
    }
    assert emitted[..|emitted|] == emitted;
  }

  lemma NothingSeen(messages: seq<Message>, emitted: seq<(Event, seq<Message>)>, suppressStarted: bool)
    ensures MessagesAfter(messages, emitted[..0]) == messages
    ensures !Failed(emitted[..0]) && Withheld(emitted[..0]) == []
    ensures emitted[0..] == emitted && [] + Forwarded(emitted, suppressStarted) == Forwarded(emitted, suppressStarted)
    ensures forall sent: seq<Event> :: sent + Forwarded(emitted[|emitted|..], suppressStarted) == sent
  {
  }

  lemma ForwardedStep(emitted: seq<(Event, seq<Message>)>, i: nat, sent: seq<Event>, suppressStarted: bool)
    requires i < |emitted|
    ensures var e := emitted[i].0;
            var now := if !e.RunFinished? && (!e.RunStarted? || !suppressStarted) then sent + [e] else sent;
            now + Forwarded(emitted[i + 1..], suppressStarted) == sent + Forwarded(emitted[i..], suppressStarted)
  {
  }

  lemma CallsStep(messages: seq<Message>)
    requires messages != []
    ensures Calls(messages) == (if messages[0].Assistant? then messages[0].calls else []) + Calls(messages[1..])
  {
  }

  lemma AnsweredNext(messages: seq<Message>, i: nat)
    requires i < |messages|
    ensures Answered(messages[..i + 1])
            == Answered(messages[..i]) + (if messages[i].ToolAnswer? then {messages[i].toolCallId} else {})
  {
  }

  method CollectOpenToolCalls(messages: seq<Message>) returns (open: seq<ToolCall>)
    ensures open == OpenToolCalls(messages)
  {
    var toolCalls: seq<ToolCall>, completed: set<string> := [], {};
    for i := 0 to |messages|
      invariant toolCalls + Calls(messages[i..]) == Calls(messages)
      invariant completed == Answered(messages[..i])
    {
      var message := messages[i];
      assert messages[i..][1..] == messages[i + 1..] && messages[i..][0] == message;
      AnsweredNext(messages, i);
      CallsStep(messages[i..]);
      hide Calls, Answered;
      if message.Assistant? {
        toolCalls := toolCalls + message.calls;
      }
      if message.ToolAnswer? {
        completed := completed + {message.toolCallId};
      }
    }
    assert messages[..|messages|] == messages && messages[|messages|..] == [];
    assert toolCalls + [] == toolCalls;
    hide Answered, Unanswered;
    open := Unanswered(toolCalls, completed);
  }

  method HandleIterationComplete(w: World, iteration: nat, current: seq<Message>, failed: bool, pendingFinished: seq<Event>)
    returns (decision: Decision)
    ensures decision == Decide(w, iteration, current, failed, pendingFinished)
  {
    if w.cancelled(iteration, false) {
      return Stop([], Cancelled);
    }
    if failed {
      return Stop([], Completed);
    }
    var unanswered := CollectOpenToolCalls(current);
    var open := OnlyMcp(unanswered, w.mcpTools);
    if open == [] {
      return Stop(pendingFinished, Completed);
    }
    if iteration >= w.maxIterations {
      return Stop(Results(open, c => LIMIT) + pendingFinished, Completed);
    }
    if w.cancelled(iteration, true) {
      return Stop([], Cancelled);
    }
    var results := Results(open, c => w.execute(iteration, c));
    var next := current + Answers(open);
    var stillOpen := CollectOpenToolCalls(next);
    if stillOpen != [] {
      return Stop(results + pendingFinished, Completed);
    }
    decision := Again(results, next);
  }

  /** A log with what came before it. */
  function After(out: seq<Event>, turns: seq<TurnLog>, rest: Log): Log {
    Log(out + rest.out, turns + rest.turns, rest.end)
  }

  lemma AfterTwice(a: seq<Event>, b: seq<TurnLog>, c: seq<Event>, d: seq<TurnLog>, rest: Log)
    ensures After(a, b, After(c, d, rest)) == After(a + c, b + d, rest)
  {
  }

  function DecisionAt(w: World, iteration: nat, messages: seq<Message>): Decision {
    var turn := w.agent(iteration, messages);
    Decide(w, iteration, MessagesAfter(messages, turn.emitted), Failed(turn.emitted), Withheld(turn.emitted))
  }

  lemma LoopStep(w: World, iteration: nat, messages: seq<Message>)
    requires iteration <= w.maxIterations
    ensures var turn := w.agent(iteration, messages);
            var sent := Forwarded(turn.emitted, iteration > 0);
            var log := [LogOf(w, iteration, messages)];
            var decision := DecisionAt(w, iteration, messages);
            && (turn.broken ==> Loop(w, iteration, messages) == Log(sent, log, Broken))
            && (!turn.broken && decision.Stop? ==> Loop(w, iteration, messages) == Log(sent + decision.sent, log, decision.end))
            && (decision.Again? ==> iteration < w.maxIterations)
            && (!turn.broken && decision.Again? ==>
                  Loop(w, iteration, messages)
                  == After(sent + decision.sent, log, Loop(w, iteration + 1, decision.messages)))
  {
  }

  method RunLoop(w: World, input: seq<Message>) returns (out: seq<Event>, end: End)
    ensures out == Loop(w, 0, input).out && end == Loop(w, 0, input).end
  {
    out := [];
    ghost var turns: seq<TurnLog> := [];
    var iterations, messages := 0, input;
    hide Forwarded, Withheld, Failed, MessagesAfter, Loop, Decide, LogOf;
    while true
      invariant iterations <= w.maxIterations
      invariant Loop(w, 0, input) == After(out, turns, Loop(w, iterations, messages))
      decreases w.maxIterations - iterations
    {
      LoopStep(w, iterations, messages);
      ghost var log := [LogOf(w, iterations, messages)];
      var turn := w.agent(iterations, messages);
      var sent, current, failed, pendingFinished := RunAgent(turn.emitted, messages, iterations > 0);
      if turn.broken {
        return out + sent, Broken;
      }
      var decision := HandleIterationComplete(w, iterations, current, failed, pendingFinished);
      if decision.Stop? {
        return out + (sent + decision.sent), decision.end;
      }
      AfterTwice(out, turns, sent + decision.sent, log, Loop(w, iterations + 1, decision.messages));
      out := out + (sent + decision.sent);
      turns := turns + log;
      messages := decision.messages;
      iterations := iterations + 1;
    }
  }

  /** What the subscription remembers after one more event. */
  lemma SeenMore(messages: seq<Message>, emitted: seq<(Event, seq<Message>)>, i: nat)
    requires i < |emitted|
    ensures MessagesAfter(messages, emitted[..i + 1]) == emitted[i].1
    ensures Failed(emitted[..i + 1]) <==> Failed(emitted[..i]) || emitted[i].0.RunError?
    ensures Withheld(emitted[..i + 1]) == if emitted[i].0.RunFinished? then [emitted[i].0] else Withheld(emitted[..i])
  {
    FailedMore(emitted, i);
    var seen := emitted[..i + 1];
    assert seen[..i] == emitted[..i] && seen[i] == emitted[i];
    hide Failed;
  }

  lemma FailedMore(emitted: seq<(Event, seq<Message>)>, i: nat)
    requires i < |emitted|
    ensures Failed(emitted[..i + 1]) <==> Failed(emitted[..i]) || emitted[i].0.RunError?
  {
  }

  // ---------------------------------------------------------------- rounds, starts and finishes

  /** The agent runs at most once more than the iteration limit: there are at most that many tool rounds. */
  lemma {:induction false} RoundsAreBounded(w: World, iteration: nat, messages: seq<Message>)
    requires iteration <= w.maxIterations
    ensures 1 <= |Loop(w, iteration, messages).turns| <= w.maxIterations - iteration + 1
    decreases w.maxIterations - iteration
  {
    hide Decide, Forwarded, LogOf, MessagesAfter, Failed, Withheld;
    LoopStep(w, iteration, messages);
    hide Loop;
    var decision := DecisionAt(w, iteration, messages);
    if decision.Again? { RoundsAreBounded(w, iteration + 1, decision.messages); }
  }

  predicate NoStart(out: seq<Event>) { forall i :: 0 <= i < |out| ==> !out[i].RunStarted? }

  predicate NoFinish(out: seq<Event>) { forall i :: 0 <= i < |out| ==> !out[i].RunFinished? }

  lemma {:induction false} ResultsOnly(calls: seq<ToolCall>, content: ToolCall -> string)
    ensures forall i :: 0 <= i < |Results(calls, content)| ==> Results(calls, content)[i].Result?
  {
    if calls != [] { ResultsOnly(calls[1..], content); }
  }

  lemma {:induction false} WithheldOne(emitted: seq<(Event, seq<Message>)>)
    ensures |Withheld(emitted)| <= 1
    ensures forall i :: 0 <= i < |Withheld(emitted)| ==> Withheld(emitted)[i].RunFinished?
  {
    if emitted != [] { WithheldOne(emitted[..|emitted| - 1]); }
  }

  lemma {:induction false} ForwardedShape(emitted: seq<(Event, seq<Message>)>, suppressStarted: bool)
    ensures NoFinish(Forwarded(emitted, suppressStarted))
    ensures suppressStarted ==> NoStart(Forwarded(emitted, suppressStarted))
  {
    if emitted != [] { ForwardedShape(emitted[1..], suppressStarted); }
  }

  /** A RUN_FINISHED can only be the last event. */
  ghost predicate FinishesLast(out: seq<Event>) {
    forall i :: 0 <= i < |out| - 1 ==> !out[i].RunFinished?
  }

  lemma DecisionShape(w: World, iteration: nat, messages: seq<Message>)
    ensures var d := DecisionAt(w, iteration, messages);
            NoStart(d.sent) && FinishesLast(d.sent) && (d.Again? ==> NoFinish(d.sent))
  {
    var turn := w.agent(iteration, messages);
    var current := MessagesAfter(messages, turn.emitted);
    var open := OnlyMcp(OpenToolCalls(current), w.mcpTools);
    WithheldOne(turn.emitted);
    ResultsOnly(open, c => LIMIT);
    ResultsOnly(open, c => w.execute(iteration, c));
    hide Withheld, Results, OnlyMcp, OpenToolCalls, MessagesAfter, Failed, Answers;
  }

  /** The stream starts with what passed from the agent's first run, no later RUN_STARTED follows, and a
    * RUN_FINISHED can only come last. */
  ghost predicate WellFramed(out: seq<Event>, first: seq<Event>, started: bool) {
    && FinishesLast(out)
    && first <= out && NoStart(out[|first|..])
    && (started ==> NoStart(out))
  }

  lemma Framed(first: seq<Event>, more: seq<Event>, started: bool)
    requires NoFinish(first) && NoStart(more) && FinishesLast(more) && (started ==> NoStart(first))
    ensures WellFramed(first, first, started) && WellFramed(first + more, first, started)
  {
  }

  lemma FramedRound(first: seq<Event>, more: seq<Event>, rest: seq<Event>, started: bool)
    requires NoFinish(first) && NoStart(more) && NoFinish(more) && (started ==> NoStart(first))
    requires NoStart(rest) && FinishesLast(rest)
    ensures WellFramed(first + more + rest, first, started)
  {
  }

  /** RUN_STARTED passes only from the agent's first run, and RUN_FINISHED is sent at most once and last,
    * however many rounds there are. */
  lemma {:induction false} StartsOnceFinishesLast(w: World, iteration: nat, messages: seq<Message>)
    requires iteration <= w.maxIterations
    ensures WellFramed(Loop(w, iteration, messages).out, Forwarded(w.agent(iteration, messages).emitted, iteration > 0),
                       iteration > 0)
    decreases w.maxIterations - iteration
  {
    hide Loop, Forwarded, DecisionAt, LogOf, NoStart, NoFinish, FinishesLast;
    LoopStep(w, iteration, messages);
    DecisionShape(w, iteration, messages);
    var turn, d := w.agent(iteration, messages), DecisionAt(w, iteration, messages);
    var sent := Forwarded(turn.emitted, iteration > 0);
    ForwardedShape(turn.emitted, iteration > 0);
    NothingSent();
    Framed(sent, if d.Stop? then d.sent else [], iteration > 0);
    if !turn.broken && d.Again? {
      StartsOnceFinishesLast(w, iteration + 1, d.messages);
      FramedRound(sent, d.sent, Loop(w, iteration + 1, d.messages).out, iteration > 0);
    }
  }

  lemma NothingSent()
    ensures NoStart([]) && FinishesLast([])
  {
  }

  // ---------------------------------------------------------------- one result for each open call

  function CountResults(out: seq<Event>, id: string): nat {
    if out == [] then 0 else (if out[0].Result? && out[0].toolCallId == id then 1 else 0) + CountResults(out[1..], id)
  }

  ghost predicate DistinctIds(calls: seq<ToolCall>) {
    forall i, j :: 0 <= i < j < |calls| ==> calls[i].id != calls[j].id
  }

  ghost predicate HasId(calls: seq<ToolCall>, id: string) {
    exists i :: 0 <= i < |calls| && calls[i].id == id
  }

  /** The agent adds to the messages it was given, never uses a call id twice, and emits a result only for a
    * call it answers itself in this run. */
  ghost predicate Honest(w: World) {
    forall n: nat, messages ::
      var turn := w.agent(n, messages);
      var current := MessagesAfter(messages, turn.emitted);
      && messages <= current
      && (DistinctIds(Calls(messages)) ==> DistinctIds(Calls(current)))
      && forall i :: 0 <= i < |turn.emitted| && turn.emitted[i].0.Result? ==>
           turn.emitted[i].0.toolCallId in Answered(current) && turn.emitted[i].0.toolCallId !in Answered(messages)
  }

  lemma {:induction false} CountAppend(a: seq<Event>, b: seq<Event>, id: string)
    ensures CountResults(a + b, id) == CountResults(a, id) + CountResults(b, id)
  {
    if a == [] {
      assert a + b == b;
    } else {
      assert (a + b)[1..] == a[1..] + b;
      CountAppend(a[1..], b, id);
    }
  }

  lemma HasIdStep(calls: seq<ToolCall>, id: string)
    requires calls != []
    ensures HasId(calls, id) <==> calls[0].id == id || HasId(calls[1..], id)
  {
  }

  lemma {:induction false} CountOfResults(calls: seq<ToolCall>, content: ToolCall -> string, id: string)
    requires DistinctIds(calls)
    ensures CountResults(Results(calls, content), id) == if HasId(calls, id) then 1 else 0
  {
    if calls != [] {
      var rest := Results(calls[1..], content);
      assert ([Result(calls[0].id, content(calls[0]))] + rest)[1..] == rest;
      CountOfResults(calls[1..], content, id);
      HasIdStep(calls, id);
      if HasId(calls[1..], id) {
        var i :| 0 <= i < |calls[1..]| && calls[1..][i].id == id;
        assert calls[i + 1].id == id;
      }
    }
  }

  lemma {:induction false} CountOfForwarded(emitted: seq<(Event, seq<Message>)>, suppressStarted: bool, id: string)
    requires forall i :: 0 <= i < |emitted| && emitted[i].0.Result? ==> emitted[i].0.toolCallId != id
    ensures CountResults(Forwarded(emitted, suppressStarted), id) == 0
  {
    if emitted != [] {
      var rest := Forwarded(emitted[1..], suppressStarted);
      assert ([emitted[0].0] + rest)[1..] == rest;
      assert [] + rest == rest;
      CountOfForwarded(emitted[1..], suppressStarted, id);
    }
  }

  lemma CountOfWithheld(emitted: seq<(Event, seq<Message>)>, id: string)
    ensures CountResults(Withheld(emitted), id) == 0
  {
  }

  lemma OpenStep(calls: seq<ToolCall>, answered: set<string>, tools: set<string>)
    requires calls != []
    ensures OnlyMcp(Unanswered(calls, answered), tools)
            == (if calls[0].id !in answered && calls[0].name in tools then [calls[0]] else [])
               + OnlyMcp(Unanswered(calls[1..], answered), tools)
  {
    var rest := Unanswered(calls[1..], answered);
    if calls[0].id in answered {
      assert [] + rest == rest;
      assert [] + OnlyMcp(rest, tools) == OnlyMcp(rest, tools);
    } else {
      assert ([calls[0]] + rest)[1..] == rest;
    }
  }

  lemma {:induction false} OpenFacts(calls: seq<ToolCall>, answered: set<string>, tools: set<string>)
    requires DistinctIds(calls)
    ensures var open := OnlyMcp(Unanswered(calls, answered), tools);
            && DistinctIds(open)
            && (forall c :: c in open ==> c in calls && c.id !in answered && c.name in tools)
    decreases calls
  {
    if calls != [] {
      OpenFacts(calls[1..], answered, tools);
      var rest := OnlyMcp(Unanswered(calls[1..], answered), tools);
      var open := OnlyMcp(Unanswered(calls, answered), tools);
      OpenStep(calls, answered, tools);
      forall c | c in rest ensures c.id != calls[0].id {
        var i :| 0 <= i < |calls[1..]| && calls[1..][i] == c;
        assert calls[i + 1] == c;
      }
      hide OnlyMcp, Unanswered;
      if open != rest {
        forall i, j | 0 <= i < j < |open| ensures open[i].id != open[j].id {
          assert open[j] in rest;
        }
      }
    }
  }

  lemma {:induction false} CallsAppend(a: seq<Message>, b: seq<Message>)
    ensures Calls(a + b) == Calls(a) + Calls(b)
  {
    if a == [] {
      assert a + b == b;
    } else {
      assert (a + b)[1..] == a[1..] + b;
      CallsAppend(a[1..], b);
    }
  }

  lemma {:induction false} AnswersFacts(calls: seq<ToolCall>)
    ensures Calls(Answers(calls)) == []
    ensures forall id :: id in Answered(Answers(calls)) <==> HasId(calls, id)
  {
    if calls != [] {
      AnswersFacts(calls[1..]);
      var rest := Answers(calls[1..]);
      var all := [ToolAnswer(calls[0].id)] + rest;
      assert all[1..] == rest;
      AnsweredAppend([ToolAnswer(calls[0].id)], rest);
      assert [ToolAnswer(calls[0].id)][0].ToolAnswer?;
      forall id ensures HasId(calls, id) <==> id == calls[0].id || HasId(calls[1..], id) {
        HasIdStep(calls, id);
      }
    }
  }

  lemma AnsweredAppend(a: seq<Message>, b: seq<Message>)
    ensures Answered(a + b) == Answered(a) + Answered(b)
  {
    var ab := a + b;
    forall i | 0 <= i < |b| && b[i].ToolAnswer? ensures b[i].toolCallId in Answered(ab) {
      assert ab[|a| + i] == b[i];
    }
    forall i | 0 <= i < |a| && a[i].ToolAnswer? ensures a[i].toolCallId in Answered(ab) {
      assert ab[i] == a[i];
    }
  }

  /** What one round sends for a call, and what the messages hold afterwards. */
  lemma RoundFacts(w: World, iteration: nat, messages: seq<Message>, id: string)
    requires Honest(w) && DistinctIds(Calls(messages))
    ensures var turn := w.agent(iteration, messages);
            var current := MessagesAfter(messages, turn.emitted);
            var open := OnlyMcp(OpenToolCalls(current), w.mcpTools);
            var sent := Forwarded(turn.emitted, iteration > 0);
            var d := DecisionAt(w, iteration, messages);
            && Answered(messages) <= Answered(current)
            && (id in Answered(messages) ==> CountResults(sent, id) == 0 && !HasId(open, id))
            && (HasId(open, id) ==> id !in Answered(current) && CountResults(sent, id) == 0)
            && (id !in Answered(current) ==> CountResults(sent, id) == 0)
            && (d.Again? || (d.end == Completed && !Failed(turn.emitted)) ==>
                  CountResults(d.sent, id) == if HasId(open, id) then 1 else 0)
            && (d.Stop? && (d.end != Completed || Failed(turn.emitted)) ==> CountResults(d.sent, id) == 0)
            && (d.Again? ==>
                  && DistinctIds(Calls(d.messages))
                  && Answered(current) <= Answered(d.messages)
                  && (HasId(open, id) ==> id in Answered(d.messages)))
  {
    var turn := w.agent(iteration, messages);
    var current := MessagesAfter(messages, turn.emitted);
    var open := OnlyMcp(OpenToolCalls(current), w.mcpTools);
    AnsweredAppend(messages, current[|messages|..]);
    assert current == messages + current[|messages|..];
    OpenFacts(Calls(current), Answered(current), w.mcpTools);
    if id in Answered(messages) || id !in Answered(current) { CountOfForwarded(turn.emitted, iteration > 0, id); }
    hide Honest, MessagesAfter, Forwarded, OnlyMcp, OpenToolCalls, Calls, Answered;
    DecisionCounts(w, iteration, current, Failed(turn.emitted), turn.emitted, open, id);
    AnswersFacts(open);
    CallsAppend(current, Answers(open));
    AnsweredAppend(current, Answers(open));
    assert Calls(current) + [] == Calls(current);
    hide Decide, Failed, Withheld, CountResults;
  }

  lemma DecisionCounts(w: World, iteration: nat, current: seq<Message>, failed: bool,
                       emitted: seq<(Event, seq<Message>)>, open: seq<ToolCall>, id: string)
    requires DistinctIds(open) && open == OnlyMcp(OpenToolCalls(current), w.mcpTools)
    ensures var d := Decide(w, iteration, current, failed, Withheld(emitted));
            && (d.Again? || (d.end == Completed && !failed) ==> CountResults(d.sent, id) == if HasId(open, id) then 1 else 0)
            && (d.Stop? && (d.end != Completed || failed) ==> CountResults(d.sent, id) == 0)
            && (d.Again? ==> d.messages == current + Answers(open))
  {
    CountOfResults(open, c => LIMIT, id);
    CountOfResults(open, c => w.execute(iteration, c), id);
    CountOfWithheld(emitted, id);
    hide Results, Withheld, OnlyMcp, OpenToolCalls, Answers;
    CountAppend(Results(open, c => LIMIT), Withheld(emitted), id);
    CountAppend(Results(open, c => w.execute(iteration, c)), Withheld(emitted), id);
  }

  /** The run of the agent was seen through: it did not break off or fail, and nobody cancelled (a late
    * cancellation does not matter at the iteration limit, where no tool is awaited). */
  predicate SeenThrough(w: World, t: TurnLog, iteration: nat) {
    !t.broken && !t.failed && !t.early && (!t.late || iteration >= w.maxIterations)
  }

  /** The run of the agent left this call open. */
  ghost predicate LeftOpen(w: World, t: TurnLog, id: string) {
    HasId(OnlyMcp(OpenToolCalls(t.messages), w.mcpTools), id)
  }

  /** The results one round sends for a call. */
  lemma RoundCounts(w: World, iteration: nat, messages: seq<Message>, id: string)
    requires Honest(w) && DistinctIds(Calls(messages))
    ensures var turn, t := w.agent(iteration, messages), LogOf(w, iteration, messages);
            var sent, d := Forwarded(turn.emitted, iteration > 0), DecisionAt(w, iteration, messages);
            && Answered(messages) <= Answered(t.messages)
            && (id in Answered(messages) ==> CountResults(sent, id) == 0 && CountResults(sent + d.sent, id) == 0)
            && (SeenThrough(w, t, iteration) && LeftOpen(w, t, id) ==> CountResults(sent + d.sent, id) == 1)
            && (d.Again? ==>
                  && DistinctIds(Calls(d.messages))
                  && Answered(t.messages) <= Answered(d.messages)
                  && (LeftOpen(w, t, id) ==> id in Answered(d.messages))
                  && (id !in Answered(d.messages) ==> CountResults(sent + d.sent, id) == 0))
  {
    RoundFacts(w, iteration, messages, id);
    EndOf(w, iteration, messages);
    var sent := Forwarded(w.agent(iteration, messages).emitted, iteration > 0);
    hide Forwarded, Decide, Honest, OnlyMcp, OpenToolCalls, Answered, Calls, Failed, Withheld, MessagesAfter, HasId,
         DistinctIds, CountResults;
    CountAppend(sent, DecisionAt(w, iteration, messages).sent, id);
  }

  /** From any iteration on, a call already answered gets no further result, and a call left open by a run
    * that was seen through gets exactly one. */
  ghost predicate AnsweredOnce(w: World, log: Log, iteration: nat, answered: set<string>, id: string) {
    && (id in answered ==> CountResults(log.out, id) == 0)
    && forall i :: 0 <= i < |log.turns| ==>
         && answered <= Answered(log.turns[i].messages)
         && (SeenThrough(w, log.turns[i], iteration + i) && LeftOpen(w, log.turns[i], id)
             ==> CountResults(log.out, id) == 1)
  }

  lemma OneTurn(w: World, out: seq<Event>, t: TurnLog, end: End, iteration: nat, answered: set<string>, id: string)
    requires id in answered ==> CountResults(out, id) == 0
    requires answered <= Answered(t.messages)
    requires SeenThrough(w, t, iteration) && LeftOpen(w, t, id) ==> CountResults(out, id) == 1
    ensures AnsweredOnce(w, Log(out, [t], end), iteration, answered, id)
  {
  }

  lemma TurnThenRest(w: World, out: seq<Event>, t: TurnLog, rest: Log, iteration: nat,
                     answered: set<string>, next: set<string>, id: string)
    requires id in answered ==> CountResults(out, id) == 0
    requires answered <= Answered(t.messages) <= next
    requires SeenThrough(w, t, iteration) && LeftOpen(w, t, id) ==> CountResults(out, id) == 1 && id in next
    requires id !in next ==> CountResults(out, id) == 0
    requires AnsweredOnce(w, rest, iteration + 1, next, id)
    ensures AnsweredOnce(w, After(out, [t], rest), iteration, answered, id)
  {
    var log := After(out, [t], rest);
    CountAppend(out, rest.out, id);
    forall i | 0 <= i < |log.turns|
      ensures answered <= Answered(log.turns[i].messages)
      ensures SeenThrough(w, log.turns[i], iteration + i) && LeftOpen(w, log.turns[i], id)
              ==> CountResults(log.out, id) == 1
    {
      if i > 0 {
        var k := i - 1;
        LaterTurn(w, rest, k, iteration, next, id);
        hide *;
        assert log.turns[i] == rest.turns[k] && iteration + i == iteration + 1 + k;
      }
    }
    hide SeenThrough, LeftOpen, Answered, CountResults;
  }

  lemma LaterTurn(w: World, rest: Log, k: nat, iteration: nat, next: set<string>, id: string)
    requires AnsweredOnce(w, rest, iteration + 1, next, id) && k < |rest.turns|
    ensures next <= Answered(rest.turns[k].messages)
    ensures SeenThrough(w, rest.turns[k], iteration + 1 + k) && LeftOpen(w, rest.turns[k], id)
            ==> id !in next && CountResults(rest.out, id) == 1
  {
    if LeftOpen(w, rest.turns[k], id) { StillOpen(w, rest.turns[k], id); }
    hide SeenThrough, LeftOpen, Answered, CountResults;
  }

  lemma {:induction false} ResultsFrom(w: World, iteration: nat, messages: seq<Message>, id: string)
    requires Honest(w) && DistinctIds(Calls(messages)) && iteration <= w.maxIterations
    ensures AnsweredOnce(w, Loop(w, iteration, messages), iteration, Answered(messages), id)
    decreases w.maxIterations - iteration
  {
    hide DecisionAt, LogOf, Forwarded, Honest, Answered, Calls, DistinctIds, CountResults, LeftOpen, AnsweredOnce, Loop;
    LoopStep(w, iteration, messages);
    RoundCounts(w, iteration, messages, id);
    var turn, t, d := w.agent(iteration, messages), LogOf(w, iteration, messages), DecisionAt(w, iteration, messages);
    var sent := Forwarded(turn.emitted, iteration > 0);
    if turn.broken {
      BrokenIsNotSeenThrough(w, iteration, messages);
      OneTurn(w, sent, t, Broken, iteration, Answered(messages), id);
    } else if d.Stop? {
      OneTurn(w, sent + d.sent, t, d.end, iteration, Answered(messages), id);
    } else {
      ResultsFrom(w, iteration + 1, d.messages, id);
      TurnThenRest(w, sent + d.sent, t, Loop(w, iteration + 1, d.messages), iteration,
                   Answered(messages), Answered(d.messages), id);
    }
  }

  lemma BrokenIsNotSeenThrough(w: World, iteration: nat, messages: seq<Message>)
    requires w.agent(iteration, messages).broken
    ensures !SeenThrough(w, LogOf(w, iteration, messages), iteration)
  {
  }

  /** A call left open was not answered before. */
  lemma StillOpen(w: World, t: TurnLog, id: string)
    requires LeftOpen(w, t, id)
    ensures id !in Answered(t.messages)
  {
    OpenIsUnanswered(Calls(t.messages), Answered(t.messages), w.mcpTools, id);
  }

  lemma {:induction false} OpenIsUnanswered(calls: seq<ToolCall>, answered: set<string>, tools: set<string>, id: string)
    requires HasId(OnlyMcp(Unanswered(calls, answered), tools), id)
    ensures id !in answered
  {
    if calls != [] {
      var rest := OnlyMcp(Unanswered(calls[1..], answered), tools);
      var open := OnlyMcp(Unanswered(calls, answered), tools);
      OpenStep(calls, answered, tools);
      hide OnlyMcp, Unanswered;
      var i :| 0 <= i < |open| && open[i].id == id;
      if open[i] in rest {
        var j :| 0 <= j < |rest| && rest[j] == open[i];
        OpenIsUnanswered(calls[1..], answered, tools, id);
      }
    }
  }

  /** How a round ends, read off its log entry. */
  lemma EndOf(w: World, iteration: nat, messages: seq<Message>)
    ensures var t, d := LogOf(w, iteration, messages), DecisionAt(w, iteration, messages);
            && (SeenThrough(w, t, iteration) ==> d.Again? || d.end == Completed)
            && t.failed == Failed(w.agent(iteration, messages).emitted)
            && (d.Again? ==> !t.failed && !t.early && !t.late)
  {
  }

  /** Over the whole stream, every MCP call left open at the end of a run of the agent that was seen through
    * gets exactly one result. */
  lemma EveryOpenCallAnsweredOnce(w: World, input: seq<Message>)
    requires Honest(w) && DistinctIds(Calls(input))
    ensures var log := Loop(w, 0, input);
            forall i, c :: 0 <= i < |log.turns| && SeenThrough(w, log.turns[i], i)
                           && c in OnlyMcp(OpenToolCalls(log.turns[i].messages), w.mcpTools)
              ==> CountResults(log.out, c.id) == 1
  {
    var log := Loop(w, 0, input);
    forall i, c | 0 <= i < |log.turns| && SeenThrough(w, log.turns[i], i)
                  && c in OnlyMcp(OpenToolCalls(log.turns[i].messages), w.mcpTools)
      ensures CountResults(log.out, c.id) == 1
    {
      ResultsFrom(w, 0, input, c.id);
      hide Loop, Honest, OnlyMcp, OpenToolCalls, Calls, Answered, CountResults, SeenThrough;
      var open := OnlyMcp(OpenToolCalls(log.turns[i].messages), w.mcpTools);
      var j :| 0 <= j < |open| && open[j] == c;
      assert HasId(open, c.id);
    }
  }

  // ---------------------------------------------------------------- the whole stream

  /** The elements with a property, in order. */
  function Filter<T>(all: seq<T>, keep: T -> bool): seq<T> {
    if all == [] then [] else (if keep(all[0]) then [all[0]] else []) + Filter(all[1..], keep)
  }

  function Events(emitted: seq<(Event, seq<Message>)>): (r: seq<Event>)
    ensures |r| == |emitted| && forall i :: 0 <= i < |r| ==> r[i] == emitted[i].0
  {
    seq(|emitted|, i requires 0 <= i < |emitted| => emitted[i].0)
  }

  /** A run passes on all it emits but RUN_FINISHED and, from the second run on, RUN_STARTED. */
  lemma {:induction false} ForwardedSelected(emitted: seq<(Event, seq<Message>)>, later: bool)
    ensures Forwarded(emitted, later) == Filter(Events(emitted), (e: Event) => !e.RunFinished? && !(later && e.RunStarted?))
  {
    if emitted != [] {
      ForwardedSelected(emitted[1..], later);
      assert Events(emitted)[1..] == Events(emitted[1..]);
    }
  }

  /** A call the messages hold no tool message for. */
  ghost predicate NoAnswer(messages: seq<Message>, c: ToolCall) {
    forall i :: 0 <= i < |messages| ==> messages[i] != ToolAnswer(c.id)
  }

  ghost predicate AllAnswered(messages: seq<Message>) {
    forall i, c :: 0 <= i < |messages| && messages[i].Assistant? && c in messages[i].calls ==> !NoAnswer(messages, c)
  }

  ghost predicate IsOpen(messages: seq<Message>, tools: set<string>, c: ToolCall) {
    c.name in tools && NoAnswer(messages, c)
  }

  /** The calls of the assistant's messages, in order, to an MCP tool and without a tool message. */
  ghost function OpenCalls(messages: seq<Message>, tools: set<string>): seq<ToolCall> {
    Filter(Calls(messages), c => IsOpen(messages, tools, c))
  }

  lemma AnsweredIff(messages: seq<Message>, c: ToolCall)
    ensures c.id !in Answered(messages) <==> NoAnswer(messages, c)
  {
    if i :| 0 <= i < |messages| && messages[i] == ToolAnswer(c.id) { assert messages[i].toolCallId == c.id; }
  }

  lemma {:induction false} OpenSelected(messages: seq<Message>, tools: set<string>, calls: seq<ToolCall>)
    ensures OnlyMcp(Unanswered(calls, Answered(messages)), tools) == Filter(calls, c => IsOpen(messages, tools, c))
  {
    hide Answered, IsOpen;
    if calls != [] {
      OpenSelected(messages, tools, calls[1..]);
      OpenStep(calls, Answered(messages), tools);
      OpenIff(messages, tools, calls[0]);
    }
  }

  lemma OpenIff(messages: seq<Message>, tools: set<string>, c: ToolCall)
    ensures IsOpen(messages, tools, c) <==> c.id !in Answered(messages) && c.name in tools
  {
    AnsweredIff(messages, c);
  }

  /** No call is left when each call of the assistant's has a tool message. */
  lemma {:induction false} NoneOpen(messages: seq<Message>)
    ensures OpenToolCalls(messages) == [] <==> AllAnswered(messages)
  {
    UnansweredNone(Calls(messages), Answered(messages));
    forall c ensures c in Calls(messages) <==> exists i :: 0 <= i < |messages| && messages[i].Assistant? && c in messages[i].calls {
      CallIn(messages, c);
    }
    forall c: ToolCall ensures c.id !in Answered(messages) <==> NoAnswer(messages, c) { AnsweredIff(messages, c); }
    hide Calls, Answered, NoAnswer;
    assert AllAnswered(messages) <==> forall c :: c in Calls(messages) ==> !NoAnswer(messages, c);
  }

  lemma {:induction false} UnansweredNone(calls: seq<ToolCall>, answered: set<string>)
    ensures Unanswered(calls, answered) == [] <==> forall c :: c in calls ==> c.id in answered
  {
    if calls != [] {
      UnansweredNone(calls[1..], answered);
      assert forall c :: c in calls <==> c == calls[0] || c in calls[1..];
    }
  }

  lemma {:induction false} CallIn(messages: seq<Message>, c: ToolCall)
    ensures c in Calls(messages) <==> exists i :: 0 <= i < |messages| && messages[i].Assistant? && c in messages[i].calls
  {
    if messages != [] {
      CallIn(messages[1..], c);
      if i :| 0 <= i < |messages[1..]| && messages[1..][i].Assistant? && c in messages[1..][i].calls {
        assert messages[i + 1].Assistant? && c in messages[i + 1].calls;
      }
    }
  }

  /** The entry is of the n-th run of the agent. */
  ghost predicate IsRun(w: World, n: nat, t: TurnLog) {
    var emitted := w.agent(n, t.input).emitted;
    && t.messages == (if emitted == [] then t.input else emitted[|emitted| - 1].1)
    && (t.failed <==> RunError in Events(emitted))
    && t.broken == w.agent(n, t.input).broken
    && t.early == w.cancelled(n, false) && t.late == w.cancelled(n, true)
  }

  /** Everything the run emitted, in order, but its RUN_FINISHED and a RUN_STARTED that is not the first run's. */
  ghost predicate PassesOn(w: World, n: nat, t: TurnLog, passed: seq<Event>) {
    passed == Filter(Events(w.agent(n, t.input).emitted),
                     (e: Event) => !e.RunFinished? && !(n > 0 && e.RunStarted?))
  }

  /** One result for each call, in their order. */
  ghost predicate Sends(out: seq<Event>, calls: seq<ToolCall>, content: ToolCall -> string) {
    && |out| == |calls|
    && forall i :: 0 <= i < |calls| ==> out[i] == Result(calls[i].id, content(calls[i]))
  }

  function LastOf<T>(all: seq<T>): seq<T> { if all == [] then [] else [all[|all| - 1]] }

  /** The last RUN_FINISHED of a run, if it emitted one. */
  function LastFinish(events: seq<Event>): seq<Event> { LastOf(Filter(events, (e: Event) => e.RunFinished?)) }

  /** The messages with a tool message for each call. */
  function WithAnswers(messages: seq<Message>, calls: seq<ToolCall>): seq<Message> {
    messages + seq(|calls|, i requires 0 <= i < |calls| => ToolAnswer(calls[i].id))
  }

  /** The run left MCP calls open and nothing stopped the loop; the executed results are sent, and with them no
    * call is open for the next run. */
  ghost predicate GoesOn(w: World, n: nat, t: TurnLog, sent: seq<Event>, next: seq<Message>) {
    var open := OpenCalls(t.messages, w.mcpTools);
    && !t.broken && !t.failed && !t.early && !t.late && n < w.maxIterations
    && open != [] && Sends(sent, open, c => w.execute(n, c))
    && next == WithAnswers(t.messages, open) && AllAnswered(next)
  }

  /** The last run: why the loop ends, and what is sent then. */
  ghost predicate EndsHere(w: World, n: nat, t: TurnLog, sent: seq<Event>, end: End) {
    var open := OpenCalls(t.messages, w.mcpTools);
    && (end == Broken <==> t.broken)
    && (end == Cancelled <==>
          !t.broken && (t.early || (t.late && !t.failed && open != [] && n < w.maxIterations)))
    && (end != Completed || t.failed ==> sent == [])
    && (end == Completed && !t.failed ==>
          && (open == [] || n >= w.maxIterations || !AllAnswered(WithAnswers(t.messages, open)))
          && |open| <= |sent|
          && Sends(sent[..|open|], open, c => if n < w.maxIterations then w.execute(n, c) else LIMIT)
          && sent[|open|..] == LastFinish(Events(w.agent(n, t.input).emitted)))
  }

  lemma {:induction false} ResultsSend(calls: seq<ToolCall>, content: ToolCall -> string)
    ensures Sends(Results(calls, content), calls, content)
  {
    if calls != [] { ResultsSend(calls[1..], content); }
  }

  lemma {:induction false} AnswersAre(calls: seq<ToolCall>)
    ensures Answers(calls) == seq(|calls|, i requires 0 <= i < |calls| => ToolAnswer(calls[i].id))
  {
    if calls != [] { AnswersAre(calls[1..]); }
  }

  lemma {:induction false} FilterAppend<T>(a: seq<T>, b: seq<T>, keep: T -> bool)
    ensures Filter(a + b, keep) == Filter(a, keep) + Filter(b, keep)
  {
    if a == [] {
      assert a + b == b;
    } else {
      hide *;
      FilterAppend(a[1..], b, keep);
      FilterStep(a, keep);
      TailOfSum(a, b);
      FilterStep(a + b, keep);
      Associative(if keep(a[0]) then [a[0]] else [], Filter(a[1..], keep), Filter(b, keep));
    }
  }

  lemma TailOfSum<T>(a: seq<T>, b: seq<T>)
    requires a != []
    ensures (a + b)[0] == a[0] && (a + b)[1..] == a[1..] + b
  {
  }

  lemma Associative<T>(a: seq<T>, b: seq<T>, c: seq<T>)
    ensures a + b + c == a + (b + c)
  {
  }

  lemma FilterStep<T>(all: seq<T>, keep: T -> bool)
    requires all != []
    ensures Filter(all, keep) == (if keep(all[0]) then [all[0]] else []) + Filter(all[1..], keep)
  {
  }

  lemma {:induction false} WithheldIsLast(emitted: seq<(Event, seq<Message>)>)
    ensures Withheld(emitted) == LastFinish(Events(emitted))
  {
    if emitted != [] {
      var before, last := emitted[..|emitted| - 1], emitted[|emitted| - 1].0;
      WithheldIsLast(before);
      FilterAppend(Events(before), [last], (e: Event) => e.RunFinished?);
      assert Events(emitted) == Events(before) + [last];
      assert [last][1..] == [];
    }
  }

  /** What the loop logs and decides for one run, in these terms. */
  lemma OneRound(w: World, n: nat, messages: seq<Message>)
    ensures var t, d := LogOf(w, n, messages), DecisionAt(w, n, messages);
            && t.input == messages && IsRun(w, n, t)
            && PassesOn(w, n, t, Forwarded(w.agent(n, messages).emitted, n > 0))
            && (!t.broken && d.Again? ==> GoesOn(w, n, t, d.sent, d.messages))
            && (!t.broken && d.Stop? ==> EndsHere(w, n, t, d.sent, d.end))
            && (t.broken ==> EndsHere(w, n, t, [], Broken))
  {
    var emitted := w.agent(n, messages).emitted;
    ForwardedSelected(emitted, n > 0);
    FailedIff(emitted);
    OneDecision(w, n, messages);
    hide Forwarded, GoesOn, Filter;
  }

  lemma FailedIff(emitted: seq<(Event, seq<Message>)>)
    ensures Failed(emitted) <==> RunError in Events(emitted)
  {
    if Failed(emitted) {
      var i :| 0 <= i < |emitted| && emitted[i].0.RunError?;
      assert Events(emitted)[i] == RunError;
    }
  }

  lemma OneDecision(w: World, n: nat, messages: seq<Message>)
    ensures var t, d := LogOf(w, n, messages), DecisionAt(w, n, messages);
            && (!t.broken && d.Again? ==> GoesOn(w, n, t, d.sent, d.messages))
            && (!t.broken && d.Stop? ==> EndsHere(w, n, t, d.sent, d.end))
  {
    var t := LogOf(w, n, messages);
    var emitted := w.agent(n, messages).emitted;
    var open := OpenCalls(t.messages, w.mcpTools);
    OpenSelected(t.messages, w.mcpTools, Calls(t.messages));
    AnswersAre(open);
    NoneOpen(t.messages + Answers(open));
    WithheldIsLast(emitted);
    ResultsSend(open, c => w.execute(n, c));
    ResultsSend(open, c => LIMIT);
    hide Withheld, LastFinish, Results, AllAnswered, Answers, Failed, MessagesAfter, Filter, OnlyMcp, Calls, Events;
    if !t.broken && DecisionAt(w, n, messages).Again? {
      assert GoesOn(w, n, t, DecisionAt(w, n, messages).sent, DecisionAt(w, n, messages).messages);
    } else if !t.broken {
      assert EndsHere(w, n, t, DecisionAt(w, n, messages).sent, DecisionAt(w, n, messages).end);
    }
  }

  /** What each run passed on followed by what the loop sent after it, run after run. */
  function Interleaved(passed: seq<seq<Event>>, sent: seq<seq<Event>>): seq<Event>
    requires |passed| == |sent|
  {
    if passed == [] then [] else passed[0] + sent[0] + Interleaved(passed[1..], sent[1..])
  }

  /** The stream and the log of a loop whose first run of the agent is the n-th and is given `input`: what each
    * run passes on and what is sent after it, the input of the next run, and the end. */
  ghost predicate StreamOf(w: World, n: nat, input: seq<Message>, log: Log,
                           passed: seq<seq<Event>>, sent: seq<seq<Event>>) {
    && |passed| == |sent| == |log.turns| > 0
    && log.out == Interleaved(passed, sent)
    && log.turns[0].input == input
    && (forall k :: 0 <= k < |log.turns| ==>
          IsRun(w, n + k, log.turns[k]) && PassesOn(w, n + k, log.turns[k], passed[k]))
    && (forall k :: 0 <= k < |log.turns| - 1 ==>
          GoesOn(w, n + k, log.turns[k], sent[k], log.turns[k + 1].input))
    && EndsHere(w, n + |log.turns| - 1, log.turns[|log.turns| - 1], sent[|log.turns| - 1], log.end)
  }

  ghost predicate HasStream(w: World, n: nat, input: seq<Message>, log: Log) {
    exists passed, sent :: StreamOf(w, n, input, log, passed, sent)
  }

  lemma LastStream(w: World, n: nat, t: TurnLog, end: End, passed: seq<Event>, sent: seq<Event>)
    requires IsRun(w, n, t) && PassesOn(w, n, t, passed) && EndsHere(w, n, t, sent, end)
    ensures HasStream(w, n, t.input, Log(passed + sent, [t], end))
  {
    hide IsRun, PassesOn, EndsHere;
    assert [passed][1..] == [] && [sent][1..] == [] && Interleaved([], []) == [];
    assert Interleaved([passed], [sent]) == passed + sent + [] == passed + sent;
    assert StreamOf(w, n, t.input, Log(passed + sent, [t], end), [passed], [sent]);
  }

  lemma StreamCons(w: World, n: nat, t: TurnLog, next: seq<Message>, rest: Log, passed: seq<Event>, sent: seq<Event>)
    requires IsRun(w, n, t) && PassesOn(w, n, t, passed) && GoesOn(w, n, t, sent, next)
    requires HasStream(w, n + 1, next, rest)
    ensures HasStream(w, n, t.input, After(passed + sent, [t], rest))
  {
    hide IsRun, PassesOn, EndsHere, GoesOn;
    var passedRest, sentRest :| StreamOf(w, n + 1, next, rest, passedRest, sentRest);
    var log := After(passed + sent, [t], rest);
    var ps, ss := [passed] + passedRest, [sent] + sentRest;
    assert ps[1..] == passedRest && ss[1..] == sentRest;
    forall k | 0 <= k < |log.turns|
      ensures IsRun(w, n + k, log.turns[k]) && PassesOn(w, n + k, log.turns[k], ps[k])
    {
      if k > 0 {
        assert log.turns[k] == rest.turns[k - 1] && ps[k] == passedRest[k - 1] && n + k == n + 1 + (k - 1);
      }
    }
    forall k | 0 <= k < |log.turns| - 1 ensures GoesOn(w, n + k, log.turns[k], ss[k], log.turns[k + 1].input) {
      if k > 0 {
        assert log.turns[k] == rest.turns[k - 1] && ss[k] == sentRest[k - 1] && n + k == n + 1 + (k - 1);
      }
    }
    assert n + |log.turns| - 1 == n + 1 + |rest.turns| - 1;
    assert StreamOf(w, n, t.input, log, ps, ss);
  }

  /** The last run of the agent. */
  lemma StreamStops(w: World, n: nat, messages: seq<Message>)
    requires n <= w.maxIterations && (w.agent(n, messages).broken || DecisionAt(w, n, messages).Stop?)
    ensures HasStream(w, n, messages, Loop(w, n, messages))
  {
    LoopStep(w, n, messages);
    OneRound(w, n, messages);
    var t, d := LogOf(w, n, messages), DecisionAt(w, n, messages);
    var first := Forwarded(w.agent(n, messages).emitted, n > 0);
    var broken := w.agent(n, messages).broken;
    assert t.broken == broken;
    hide *;
    if broken {
      assert first + [] == first;
      LastStream(w, n, t, Broken, first, []);
    } else {
      LastStream(w, n, t, d.end, first, d.sent);
    }
  }

  /** A run of the agent that is not the last. */
  lemma StreamGoesOn(w: World, n: nat, messages: seq<Message>, rest: Log)
    requires n < w.maxIterations && !w.agent(n, messages).broken && DecisionAt(w, n, messages).Again?
    requires rest == Loop(w, n + 1, DecisionAt(w, n, messages).messages)
    requires HasStream(w, n + 1, DecisionAt(w, n, messages).messages, rest)
    ensures HasStream(w, n, messages, Loop(w, n, messages))
  {
    LoopStep(w, n, messages);
    OneRound(w, n, messages);
    var t, d := LogOf(w, n, messages), DecisionAt(w, n, messages);
    assert t.broken == w.agent(n, messages).broken;
    hide *;
    StreamCons(w, n, t, d.messages, rest, Forwarded(w.agent(n, messages).emitted, n > 0), d.sent);
  }

  lemma AgainIsBelowLimit(w: World, n: nat, messages: seq<Message>)
    requires DecisionAt(w, n, messages).Again?
    ensures n < w.maxIterations
  {
  }

  lemma {:induction false} StreamFrom(w: World, n: nat, messages: seq<Message>)
    requires n <= w.maxIterations
    ensures HasStream(w, n, messages, Loop(w, n, messages))
    decreases w.maxIterations - n
  {
    hide *;
    if w.agent(n, messages).broken || DecisionAt(w, n, messages).Stop? {
      StreamStops(w, n, messages);
    } else {
      AgainIsBelowLimit(w, n, messages);
      var next := DecisionAt(w, n, messages).messages;
      StreamFrom(w, n + 1, next);
      StreamGoesOn(w, n, messages, Loop(w, n + 1, next));
    }
  }

  /** The whole stream of a request, taken apart run by run: nothing is lost, repeated or moved. */
  lemma WholeStream(w: World, input: seq<Message>) returns (passed: seq<seq<Event>>, sent: seq<seq<Event>>)
    ensures StreamOf(w, 0, input, Loop(w, 0, input), passed, sent)
  {
    StreamFrom(w, 0, input);
    passed, sent :| StreamOf(w, 0, input, Loop(w, 0, input), passed, sent);
  }

  lemma {:induction false} EndsWithLast(passed: seq<seq<Event>>, sent: seq<seq<Event>>)
    requires |passed| == |sent| > 0
    ensures var out, last := Interleaved(passed, sent), sent[|sent| - 1];
            |last| <= |out| && out[|out| - |last|..] == last
  {
    if |passed| > 1 {
      EndsWithLast(passed[1..], sent[1..]);
    }
  }

  /** If the loop completes after a run that did not fail, the stream ends with the last RUN_FINISHED that run
    * emitted, whenever it emitted one. */
  lemma CompletedRunFinishes(w: World, input: seq<Message>)
    requires Loop(w, 0, input).end == Completed
    ensures var log := Loop(w, 0, input);
            var n := |log.turns| - 1;
            && n >= 0 && IsRun(w, n, log.turns[n])
            && var finishes := Filter(Events(w.agent(n, log.turns[n].input).emitted), (e: Event) => e.RunFinished?);
               !log.turns[n].failed && finishes != [] ==>
                 log.out != [] && log.out[|log.out| - 1] == finishes[|finishes| - 1]
  {
    var passed, sent := WholeStream(w, input);
    hide Loop, IsRun, PassesOn, GoesOn, OpenCalls;
    EndsWithLast(passed, sent);
  }
}
