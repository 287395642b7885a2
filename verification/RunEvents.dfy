/** The run's event pipeline and its tool-result safety net: every event is written to the log and handed
  * to the client in one order, repeated tool results are dropped, and no finished tool call lacks a result when
  * the run ends.
  *
  * A suspended run goes on, when it is resumed, in a new pipeline with a new safety net over the same log: each of
  * these parts of a run is a segment. */
module RunEvents {
  import opened Options

  /** An absent identifier is the empty text.  Only custom events may carry a protocol event id. */
  datatype Event =
    | ToolCallEnd(toolCallId: string, toolName: string)
    | ToolCallResult(toolCallId: string, toolName: string, content: string)
    | RunFinished(payload: string)
    | RunError(payload: string)
    | Custom(eventId: string, payload: string)
    | Other(payload: string)

  datatype PendingToolCall = PendingToolCall(toolCallId: string, toolName: string, hasResult: bool)

  const NOT_DELIVERED: string := "TOOL_RESULT_NOT_DELIVERED"

  predicate IsTerminal(e: Event) { e.RunFinished? || e.RunError? }

  /** A result that names its call. */
  predicate IsResultOf(e: Event, id: string) { e.ToolCallResult? && e.toolCallId == id != "" }

  // ---------------------------------------------------------------- the safety net

  function MarkFirst(pending: seq<PendingToolCall>, id: string): seq<PendingToolCall> {
    if pending == [] then []
    else if pending[0].toolCallId == id then [pending[0].(hasResult := true)] + pending[1..]
    else [pending[0]] + MarkFirst(pending[1..], id)
  }

  function Noted(pending: seq<PendingToolCall>, e: Event): seq<PendingToolCall> {
    if e.ToolCallEnd? && e.toolCallId != "" then
      pending + [PendingToolCall(e.toolCallId, if e.toolName != "" then e.toolName else "unknown", false)]
    else if e.ToolCallResult? && e.toolCallId != "" then MarkFirst(pending, e.toolCallId)
    else pending
  }

  function MarkAll(pending: seq<PendingToolCall>): seq<PendingToolCall> {
    if pending == [] then [] else [pending[0].(hasResult := true)] + MarkAll(pending[1..])
  }

  /** One marker for each entry still without a result. */
  function Markers(pending: seq<PendingToolCall>): seq<Event> {
    if pending == [] then []
    else (if pending[0].hasResult then []
          else [ToolCallResult(pending[0].toolCallId, pending[0].toolName, NOT_DELIVERED)]) + Markers(pending[1..])
  }

  // ---------------------------------------------------------------- the pipeline

  datatype Pipeline = Pipeline(
    pending: seq<PendingToolCall>, delivered: set<string>, log: seq<Event>, stream: seq<Event>)

  /** A new pipeline on what the run's log holds already. */
  function Begun(log: seq<Event>): Pipeline { Pipeline([], {}, log, []) }

  /** The writer returns the stored row, without a new one, for a protocol event it already has. */
  function Persist(log: seq<Event>, e: Event): seq<Event> {
    if e.Custom? && e.eventId != "" && exists k :: 0 <= k < |log| && log[k].Custom? && log[k].eventId == e.eventId
    then log else log + [e]
  }

  function Deliver(p: Pipeline, e: Event): Pipeline {
    var named := e.ToolCallResult? && e.toolCallId != "";
    if named && e.toolCallId in p.delivered then p
    else p.(delivered := if named then p.delivered + {e.toolCallId} else p.delivered,
            log := Persist(p.log, e),
            stream := p.stream + [e])
  }

  function DeliverAll(p: Pipeline, events: seq<Event>): Pipeline
    decreases |events|
  {
    if events == [] then p else DeliverAll(Deliver(p, events[0]), events[1..])
  }

  function Flush(p: Pipeline): Pipeline {
    DeliverAll(p.(pending := MarkAll(p.pending)), Markers(p.pending))
  }

  function Observed(p: Pipeline, e: Event): Pipeline {
    var flushed := if IsTerminal(e) then Flush(p) else p;
    var sent := Deliver(flushed, e);
    sent.(pending := Noted(sent.pending, e))
  }

  function ObservedAll(p: Pipeline, events: seq<Event>): Pipeline
    decreases |events|
  {
    if events == [] then p else ObservedAll(Observed(p, events[0]), events[1..])
  }

  /** An emitted event, then the events the task-plan projector derived from it. */
  function Emit(p: Pipeline, e: Event, projected: seq<Event>): Pipeline {
    ObservedAll(Observed(p, e), projected)
  }

  /** A segment: the emitted events, each with what the projector made of it. */
  function Run(p: Pipeline, emissions: seq<(Event, seq<Event>)>): Pipeline
    decreases |emissions|
  {
    if emissions == [] then p else Run(Emit(p, emissions[0].0, emissions[0].1), emissions[1..])
  }

  lemma MarkAllStep(done: seq<PendingToolCall>, rest: seq<PendingToolCall>)
    requires rest != []
    ensures done + MarkAll(rest) == (done + [rest[0].(hasResult := true)]) + MarkAll(rest[1..])
  {
  }

  // ---------------------------------------------------------------- the classes

  class ToolCallResultBridge {
    var pending: seq<PendingToolCall>

    constructor ()
      ensures pending == []
    {
      pending := [];
    }

    /** Watches an event; it never answers with events of its own. */
    method Observe(event: Event)
      modifies this
      ensures pending == Noted(old(pending), event)
    {
      if event.ToolCallEnd? && event.toolCallId != "" {
        pending := pending + [PendingToolCall(event.toolCallId, if event.toolName != "" then event.toolName else "unknown", false)];
      }
      if event.ToolCallResult? && event.toolCallId != "" {
        var i := 0;
        while i < |pending| && pending[i].toolCallId != event.toolCallId
          invariant 0 <= i <= |pending| && pending == old(pending)
          invariant MarkFirst(pending, event.toolCallId) == pending[..i] + MarkFirst(pending[i..], event.toolCallId)
        {
          assert pending[i..][1..] == pending[i + 1..];
          i := i + 1;
        }
        if i < |pending| {
          assert pending[i..][1..] == pending[i + 1..];
          pending := pending[i := pending[i].(hasResult := true)];
        }
      }
    }

    /** A marker for every entry without a result; all entries count as answered afterwards. */
    method FlushPendingResults() returns (extras: seq<Event>)
      modifies this
      ensures pending == MarkAll(old(pending)) && extras == Markers(old(pending))
    {
      extras := [];
      var i := 0;
      ghost var was := pending;
      while i < |pending|
        invariant 0 <= i <= |pending| == |was| && pending[i..] == was[i..]
        invariant pending[..i] + MarkAll(was[i..]) == MarkAll(was)
        invariant extras + Markers(was[i..]) == Markers(was)
      {
        assert was[i] == pending[i..][0] && was[i..][1..] == was[i + 1..];
        if !pending[i].hasResult {
          extras := extras + [ToolCallResult(pending[i].toolCallId, pending[i].toolName, NOT_DELIVERED)];
          pending := pending[i := pending[i].(hasResult := true)];
        }
        assert pending[..i + 1] == pending[..i] + [was[i].(hasResult := true)];
        MarkAllStep(pending[..i], was[i..]);
        i := i + 1;
      }
    }
  }

  class RunEventPipeline {
    const bridge: ToolCallResultBridge
    var deliveredToolResults: set<string>
    var projecting: bool
    var log: seq<Event>
    var stream: seq<Event>

    constructor (log: seq<Event>)
      ensures fresh(bridge) && View() == Begun(log) && !projecting
    {
      bridge := new ToolCallResultBridge();
      deliveredToolResults, projecting, this.log, stream := {}, false, log, [];
    }

    ghost function View(): Pipeline
      reads this, bridge
    {
      Pipeline(bridge.pending, deliveredToolResults, log, stream)
    }

    /** Persist, remember and hand on one event, unless its tool call already has a result. */
    method DeliverOne(event: Event)
      modifies this
      ensures View() == Deliver(old(View()), event) && projecting == old(projecting)
    {
      if event.ToolCallResult? && event.toolCallId != "" {
        if event.toolCallId in deliveredToolResults {
          return;
        }
        deliveredToolResults := deliveredToolResults + {event.toolCallId};
      }
      log := Persist(log, event);
      stream := stream + [event];
    }

    method ObserveOne(event: Event)
      modifies this, bridge
      ensures View() == Observed(old(View()), event) && projecting == old(projecting)
    {
      hide MarkAll, Markers, Persist, Deliver;
      if IsTerminal(event) {
        var extras := bridge.FlushPendingResults();
        var i := 0;
        while i < |extras|
          invariant 0 <= i <= |extras| && projecting == old(projecting)
          invariant DeliverAll(View(), extras[i..]) == Flush(old(View()))
        {
          assert extras[i..][1..] == extras[i + 1..];
          DeliverOne(extras[i]);
          i := i + 1;
        }
      }
      DeliverOne(event);
      bridge.Observe(event);
    }

    /** `projected` is what the task-plan projector answers for this event; nothing is projected from it. */
    method EmitEvent(event: Event, projected: seq<Event>)
      requires !projecting
      modifies this, bridge
      ensures View() == Emit(old(View()), event, projected) && !projecting
    {
      ObserveOne(event);
      if |projected| == 0 {
        return;
      }
      projecting := true;
      var i := 0;
      while i < |projected|
        invariant 0 <= i <= |projected|
        invariant ObservedAll(View(), projected[i..]) == Emit(old(View()), event, projected)
      {
        assert projected[i..][1..] == projected[i + 1..];
        ObserveOne(projected[i]);
        i := i + 1;
      }
      projecting := false;
    }
  }

  // ---------------------------------------------------------------- what every stream keeps

  predicate Names(e: Event) { e.ToolCallResult? && e.toolCallId != "" }

  /** At most one result for each named tool call. */
  ghost predicate OneResultEach(stream: seq<Event>) {
    forall i, j :: 0 <= i < j < |stream| && Names(stream[i]) && Names(stream[j])
      ==> stream[i].toolCallId != stream[j].toolCallId
  }

  ghost predicate HasResult(stream: seq<Event>, before: nat, id: string) {
    exists r :: 0 <= r < before && r < |stream| && IsResultOf(stream[r], id)
  }

  /** Before every run-ending event, each tool call that finished earlier has its result. */
  ghost predicate EndsAnswered(stream: seq<Event>) {
    forall e, t :: 0 <= e < t < |stream| && IsTerminal(stream[t]) && stream[e].ToolCallEnd? && stream[e].toolCallId != ""
      ==> HasResult(stream, t, stream[e].toolCallId)
  }

  /** The log after writing a stream to it: the events whose protocol id did not occur earlier are added. */
  function WrittenTo(log: seq<Event>, stream: seq<Event>): seq<Event> {
    if stream == [] then log else Persist(WrittenTo(log, stream[..|stream| - 1]), stream[|stream| - 1])
  }

  ghost predicate HasPending(pending: seq<PendingToolCall>, id: string) {
    exists k :: 0 <= k < |pending| && pending[k].toolCallId == id
  }

  ghost predicate Inv(start: seq<Event>, p: Pipeline) {
    && OneResultEach(p.stream)
    && (forall id :: id in p.delivered <==> HasResult(p.stream, |p.stream|, id))
    && (forall k :: 0 <= k < |p.pending| ==> p.pending[k].toolCallId != "")
    && (forall k :: 0 <= k < |p.pending| && p.pending[k].hasResult ==> p.pending[k].toolCallId in p.delivered)
    && (forall e :: 0 <= e < |p.stream| && p.stream[e].ToolCallEnd? && p.stream[e].toolCallId != ""
          ==> HasPending(p.pending, p.stream[e].toolCallId))
    && EndsAnswered(p.stream)
    && p.log == WrittenTo(start, p.stream)
  }

  /** Every waiting call has been answered: what must hold when a run-ending event is delivered. */
  ghost predicate AllAnswered(p: Pipeline) {
    forall k :: 0 <= k < |p.pending| ==> p.pending[k].toolCallId in p.delivered
  }

  /** Everything but the link between the delivered END events and the waiting calls. */
  lemma DeliverKeeps(start: seq<Event>, p: Pipeline, e: Event)
    requires Inv(start, p) && (IsTerminal(e) ==> AllAnswered(p))
    requires e.ToolCallEnd? && e.toolCallId != "" ==> HasPending(p.pending, e.toolCallId)
    ensures Inv(start, Deliver(p, e))
    ensures p.delivered <= Deliver(p, e).delivered && Deliver(p, e).pending == p.pending
    ensures e.ToolCallResult? && e.toolCallId != "" ==> e.toolCallId in Deliver(p, e).delivered
  {
    var p' := Deliver(p, e);
    if p' != p {
      hide WrittenTo, Persist;
      StreamGrows(start, p, e);
      LogGrows(start, p, e);
    }
  }

  lemma LogGrows(start: seq<Event>, p: Pipeline, e: Event)
    requires p.log == WrittenTo(start, p.stream)
    ensures Persist(p.log, e) == WrittenTo(start, p.stream + [e])
  {
  }

  lemma StreamGrows(start: seq<Event>, p: Pipeline, e: Event)
    requires Inv(start, p) && (IsTerminal(e) ==> AllAnswered(p))
    requires e.ToolCallResult? && e.toolCallId != "" ==> e.toolCallId !in p.delivered
    ensures OneResultEach(p.stream + [e]) && EndsAnswered(p.stream + [e])
    ensures forall id :: HasResult(p.stream + [e], |p.stream| + 1, id)
                         <==> HasResult(p.stream, |p.stream|, id) || IsResultOf(e, id)
  {
    hide WrittenTo;
    var stream := p.stream + [e];
    forall id ensures HasResult(stream, |stream|, id) <==> HasResult(p.stream, |p.stream|, id) || IsResultOf(e, id) {
      HasResultGrows(p.stream, e, id);
    }
    forall i, j | 0 <= i < j < |stream| && Names(stream[i]) && Names(stream[j])
      ensures stream[i].toolCallId != stream[j].toolCallId
    {
      if j == |p.stream| { assert IsResultOf(p.stream[i], p.stream[i].toolCallId); }
    }
    forall i, t | 0 <= i < t < |stream| && IsTerminal(stream[t]) && stream[i].ToolCallEnd? && stream[i].toolCallId != ""
      ensures HasResult(stream, t, stream[i].toolCallId)
    {
      var id := stream[i].toolCallId;
      assert HasResult(p.stream, t, id) by {
        if t == |p.stream| { assert HasPending(p.pending, id); }
      }
      var r :| 0 <= r < t && r < |p.stream| && IsResultOf(p.stream[r], id);
      assert IsResultOf(stream[r], id);
    }
  }

  lemma HasResultGrows(stream: seq<Event>, e: Event, id: string)
    ensures HasResult(stream + [e], |stream| + 1, id) <==> HasResult(stream, |stream|, id) || IsResultOf(e, id)
  {
    if HasResult(stream, |stream|, id) {
      var r :| 0 <= r < |stream| && IsResultOf(stream[r], id);
      assert IsResultOf((stream + [e])[r], id);
    }
    if IsResultOf(e, id) { assert IsResultOf((stream + [e])[|stream|], id); }
  }

  lemma {:induction false} MarkAllAt(pending: seq<PendingToolCall>)
    ensures |MarkAll(pending)| == |pending|
    ensures forall k :: 0 <= k < |pending| ==> MarkAll(pending)[k] == pending[k].(hasResult := true)
  {
    if pending != [] { MarkAllAt(pending[1..]); }
  }

  /** Delivering markers: every named call among them ends up answered. */
  lemma {:induction false} DeliverAllKeeps(start: seq<Event>, p: Pipeline, events: seq<Event>)
    requires Inv(start, p) && forall k :: 0 <= k < |events| ==> events[k].ToolCallResult?
    ensures Inv(start, DeliverAll(p, events))
    ensures p.delivered <= DeliverAll(p, events).delivered && DeliverAll(p, events).pending == p.pending
    ensures forall k :: 0 <= k < |events| && events[k].toolCallId != ""
              ==> events[k].toolCallId in DeliverAll(p, events).delivered
    decreases |events|
  {
    if events != [] {
      hide Inv, Deliver;
      DeliverKeeps(start, p, events[0]);
      DeliverAllKeeps(start, Deliver(p, events[0]), events[1..]);
    }
  }

  lemma {:induction false} MarkersCover(pending: seq<PendingToolCall>)
    ensures forall m :: m in Markers(pending) ==>
              m.ToolCallResult? && m.content == NOT_DELIVERED && HasPending(pending, m.toolCallId)
    ensures forall k :: 0 <= k < |pending| && !pending[k].hasResult ==>
              exists m :: m in Markers(pending) && m.toolCallId == pending[k].toolCallId
  {
    if pending != [] {
      MarkersCover(pending[1..]);
      forall m | m in Markers(pending)
        ensures m.ToolCallResult? && m.content == NOT_DELIVERED && HasPending(pending, m.toolCallId)
      {
        if m in Markers(pending[1..]) {
          var k :| 0 <= k < |pending[1..]| && pending[1..][k].toolCallId == m.toolCallId;
          assert pending[k + 1].toolCallId == m.toolCallId;
        } else {
          assert pending[0].toolCallId == m.toolCallId;
        }
      }
      forall k | 0 <= k < |pending| && !pending[k].hasResult
        ensures exists m :: m in Markers(pending) && m.toolCallId == pending[k].toolCallId
      {
        if k == 0 {
          assert ToolCallResult(pending[0].toolCallId, pending[0].toolName, NOT_DELIVERED) in Markers(pending);
        } else {
          assert pending[1..][k - 1] == pending[k];
          var m :| m in Markers(pending[1..]) && m.toolCallId == pending[1..][k - 1].toolCallId;
          assert m in Markers(pending);
        }
      }
    }
  }

  lemma {:induction false} DeliverAllPending(p: Pipeline, pending: seq<PendingToolCall>, events: seq<Event>)
    ensures DeliverAll(p.(pending := pending), events) == DeliverAll(p, events).(pending := pending)
    decreases |events|
  {
    if events != [] {
      assert Deliver(p.(pending := pending), events[0]) == Deliver(p, events[0]).(pending := pending);
      hide Deliver;
      DeliverAllPending(Deliver(p, events[0]), pending, events[1..]);
    }
  }

  /** After the flush every waiting call is answered. */
  lemma FlushKeeps(start: seq<Event>, p: Pipeline)
    requires Inv(start, p)
    ensures Inv(start, Flush(p)) && AllAnswered(Flush(p))
  {
    MarkersCover(p.pending);
    MarkAllAt(p.pending);
    DeliverAllPending(p, MarkAll(p.pending), Markers(p.pending));
    DeliverAllKeeps(start, p, Markers(p.pending));
    var sent, flushed := DeliverAll(p, Markers(p.pending)), Flush(p);
    hide DeliverAll, Markers, MarkAll, OneResultEach, EndsAnswered, WrittenTo;
    forall k | 0 <= k < |p.pending| ensures p.pending[k].toolCallId in sent.delivered {
      if !p.pending[k].hasResult {
        var m :| m in Markers(p.pending) && m.toolCallId == p.pending[k].toolCallId;
        var j :| 0 <= j < |Markers(p.pending)| && Markers(p.pending)[j] == m;
      }
    }
    PendingReplaced(start, sent, MarkAll(p.pending));
  }

  /** The waiting list may be replaced by one with the same calls, if its answered entries are answered. */
  lemma PendingReplaced(start: seq<Event>, p: Pipeline, pending: seq<PendingToolCall>)
    requires Inv(start, p) && |p.pending| <= |pending|
    requires forall k :: 0 <= k < |p.pending| ==> pending[k].toolCallId == p.pending[k].toolCallId
    requires forall k :: 0 <= k < |pending| ==> pending[k].toolCallId != ""
    requires forall k :: 0 <= k < |pending| && pending[k].hasResult ==> pending[k].toolCallId in p.delivered
    ensures Inv(start, p.(pending := pending))
  {
  }

  lemma {:induction false} MarkFirstAt(pending: seq<PendingToolCall>, id: string)
    ensures |MarkFirst(pending, id)| == |pending|
    ensures forall k :: 0 <= k < |pending| ==>
              MarkFirst(pending, id)[k] == pending[k]
              || (pending[k].toolCallId == id && MarkFirst(pending, id)[k] == pending[k].(hasResult := true))
  {
    if pending != [] && pending[0].toolCallId != id { MarkFirstAt(pending[1..], id); }
  }

  /** One observed event keeps the invariant: results, ENDs, run ends and all others, in any order. */
  lemma ObservedKeeps(start: seq<Event>, p: Pipeline, e: Event)
    requires Inv(start, p)
    ensures Inv(start, Observed(p, e))
  {
    var flushed := if IsTerminal(e) then Flush(p) else p;
    if IsTerminal(e) { FlushKeeps(start, p); }
    hide Flush, OneResultEach, EndsAnswered, WrittenTo, Persist, HasResult;
    if e.ToolCallEnd? && e.toolCallId != "" {
      var noted := Noted(p.pending, e);
      PendingReplaced(start, p, noted);
      assert noted[|p.pending|].toolCallId == e.toolCallId;
      DeliverKeeps(start, p.(pending := noted), e);
    } else {
      DeliverKeeps(start, flushed, e);
      var sent := Deliver(flushed, e);
      if e.ToolCallResult? && e.toolCallId != "" {
        MarkFirstAt(sent.pending, e.toolCallId);
        hide Deliver, Inv;
        MarkedStays(start, sent, e.toolCallId);
      }
    }
  }

  lemma MarkedStays(start: seq<Event>, p: Pipeline, id: string)
    requires Inv(start, p) && id in p.delivered
    ensures Inv(start, p.(pending := MarkFirst(p.pending, id)))
  {
    MarkFirstAt(p.pending, id);
    hide OneResultEach, EndsAnswered, WrittenTo, HasResult, MarkFirst;
    PendingReplaced(start, p, MarkFirst(p.pending, id));
  }

  lemma {:induction false} ObservedAllKeeps(start: seq<Event>, p: Pipeline, events: seq<Event>)
    requires Inv(start, p)
    ensures Inv(start, ObservedAll(p, events))
    decreases |events|
  {
    hide Inv, Observed;
    if events != [] {
      ObservedKeeps(start, p, events[0]);
      ObservedAllKeeps(start, Observed(p, events[0]), events[1..]);
    }
  }

  lemma {:induction false} RunKeeps(start: seq<Event>, p: Pipeline, emissions: seq<(Event, seq<Event>)>)
    requires Inv(start, p)
    ensures Inv(start, Run(p, emissions))
    decreases |emissions|
  {
    hide Inv, Observed, ObservedAll;
    if emissions != [] {
      ObservedKeeps(start, p, emissions[0].0);
      ObservedAllKeeps(start, Observed(p, emissions[0].0), emissions[0].1);
      RunKeeps(start, Emit(p, emissions[0].0, emissions[0].1), emissions[1..]);
    }
  }

  /** The tool-result contract over any segment, whatever the log held before: repeated ENDs, early and repeated
    * results and any projected events included, each named call has at most one result in the stream, and each call
    * whose END comes before a run-ending event has exactly one result before that event. */
  lemma ToolResultContract(log: seq<Event>, emissions: seq<(Event, seq<Event>)>)
    ensures var stream := Run(Begun(log), emissions).stream;
            && (forall i, j :: 0 <= i < j < |stream| && Names(stream[i]) && Names(stream[j])
                  ==> stream[i].toolCallId != stream[j].toolCallId)
            && (forall e, t :: 0 <= e < t < |stream| && IsTerminal(stream[t])
                               && stream[e].ToolCallEnd? && stream[e].toolCallId != ""
                  ==> exists r :: 0 <= r < t && IsResultOf(stream[r], stream[e].toolCallId))
  {
    RunKeeps(log, Begun(log), emissions);
    var stream := Run(Begun(log), emissions).stream;
    hide Run, WrittenTo;
    forall e, t | 0 <= e < t < |stream| && IsTerminal(stream[t]) && stream[e].ToolCallEnd? && stream[e].toolCallId != ""
      ensures exists r :: 0 <= r < t && IsResultOf(stream[r], stream[e].toolCallId)
    {
      assert HasResult(stream, t, stream[e].toolCallId);
      var r :| 0 <= r < t && r < |stream| && IsResultOf(stream[r], stream[e].toolCallId);
    }
  }

  // ---------------------------------------------------------------- the log and the stream

  /** No protocol event is delivered twice. */
  ghost predicate FreshProtocolIds(stream: seq<Event>) {
    forall i, j :: 0 <= i < j < |stream| && stream[i].Custom? && stream[j].Custom? && stream[i].eventId != ""
      ==> stream[i].eventId != stream[j].eventId
  }

  predicate IsProtocol(e: Event) { e.Custom? && e.eventId != "" }

  /** No protocol event of the stream is in the log already. */
  ghost predicate NewTo(log: seq<Event>, stream: seq<Event>) {
    forall e, w :: e in stream && IsProtocol(e) && w in log && w.Custom? ==> w.eventId != e.eventId
  }

  lemma {:induction false} WrittenBounds(log: seq<Event>, stream: seq<Event>)
    ensures |WrittenTo(log, stream)| <= |log| + |stream|
    ensures |WrittenTo(log, stream)| == |log| + |stream| ==> WrittenTo(log, stream) == log + stream
  {
    if stream != [] { WrittenBounds(log, stream[..|stream| - 1]); }
  }

  /** Nothing is dropped exactly when all protocol ids of the stream are new, to the log and to each other. */
  lemma {:induction false} WrittenSame(log: seq<Event>, stream: seq<Event>)
    ensures WrittenTo(log, stream) == log + stream <==> FreshProtocolIds(stream) && NewTo(log, stream)
  {
    if stream == [] {
      assert log + stream == log;
    } else {
      var front, last := stream[..|stream| - 1], stream[|stream| - 1];
      assert stream == front + [last] && log + stream == (log + front) + [last];
      WrittenSame(log, front);
      WrittenBounds(log, front);
      FreshMore(log, front, last);
    }
  }

  lemma FreshMore(log: seq<Event>, front: seq<Event>, last: Event)
    ensures FreshProtocolIds(front + [last]) && NewTo(log, front + [last])
            <==> FreshProtocolIds(front) && NewTo(log, front) && Persist(log + front, last) == log + front + [last]
  {
    var known, all := log + front, front + [last];
    assert forall i :: 0 <= i < |front| ==> all[i] == front[i] && known[|log| + i] == front[i];
    assert forall i :: 0 <= i < |log| ==> known[i] == log[i];
    if FreshProtocolIds(all) && NewTo(log, all) {
      assert all[|front|] == last && last in all;
      forall k | 0 <= k < |known| && known[k].Custom? && IsProtocol(last) ensures known[k].eventId != last.eventId {
        if k >= |log| { assert known[k] == all[k - |log|]; }
      }
      assert forall e :: e in front ==> e in all;
    }
    if FreshProtocolIds(front) && NewTo(log, front) && Persist(known, last) == known + [last] {
      assert |Persist(known, last)| > |known|;
      forall i | 0 <= i < |front| && front[i].Custom? && IsProtocol(last) ensures front[i].eventId != last.eventId {
        assert known[|log| + i].Custom?;
      }
      forall w | w in log && w.Custom? && IsProtocol(last) ensures w.eventId != last.eventId {
        var k :| 0 <= k < |log| && log[k] == w;
        assert known[k].Custom?;
      }
    }
  }

  /** The events emitted and projected over a run, in order. */
  function Flat(emissions: seq<(Event, seq<Event>)>): seq<Event>
    decreases |emissions|
  {
    if emissions == [] then [] else [emissions[0].0] + emissions[0].1 + Flat(emissions[1..])
  }

  function Protocol(events: seq<Event>): seq<Event> {
    if events == [] then [] else (if IsProtocol(events[0]) then [events[0]] else []) + Protocol(events[1..])
  }

  lemma ProtocolStep(first: Event, rest: seq<Event>)
    ensures Protocol([first] + rest) == if IsProtocol(first) then [first] + Protocol(rest) else Protocol(rest)
  {
    assert ([first] + rest)[1..] == rest;
  }

  lemma {:induction false} ProtocolAppend(a: seq<Event>, b: seq<Event>)
    ensures Protocol(a + b) == Protocol(a) + Protocol(b)
  {
    hide *;
    if a == [] {
      NoProtocol();
      assert a + b == b && [] + Protocol(b) == Protocol(b);
    } else {
      var first, rest := a[0], a[1..];
      assert a == [first] + rest && a + b == [first] + (rest + b);
      ProtocolAppend(rest, b);
      ProtocolStep(first, rest);
      ProtocolStep(first, rest + b);
      assert [first] + (Protocol(rest) + Protocol(b)) == [first] + Protocol(rest) + Protocol(b);
    }
  }

  lemma {:induction false} ProtocolMembers(events: seq<Event>, e: Event)
    ensures e in Protocol(events) <==> e in events && IsProtocol(e)
  {
    if events != [] { ProtocolMembers(events[1..], e); }
  }

  lemma FreshStep(first: Event, rest: seq<Event>)
    ensures FreshProtocolIds([first] + rest) <==>
            (IsProtocol(first) ==> forall e :: e in rest && IsProtocol(e) ==> e.eventId != first.eventId) && FreshProtocolIds(rest)
  {
    var all := [first] + rest;
    if FreshProtocolIds(all) {
      forall i, j | 0 <= i < j < |rest| && rest[i].Custom? && rest[j].Custom? && rest[i].eventId != ""
        ensures rest[i].eventId != rest[j].eventId
      {
        assert all[i + 1] == rest[i] && all[j + 1] == rest[j];
      }
      forall e | e in rest && IsProtocol(e) && IsProtocol(first) ensures e.eventId != first.eventId {
        var j :| 0 <= j < |rest| && rest[j] == e;
        assert all[0] == first && all[j + 1] == e;
      }
    }
    if (IsProtocol(first) ==> forall e :: e in rest && IsProtocol(e) ==> e.eventId != first.eventId) && FreshProtocolIds(rest) {
      forall i, j | 0 <= i < j < |all| && all[i].Custom? && all[j].Custom? && all[i].eventId != ""
        ensures all[i].eventId != all[j].eventId
      {
        assert all[j] == rest[j - 1] && rest[j - 1] in rest;
        if i > 0 { assert all[i] == rest[i - 1]; }
      }
    }
  }

  /** Whether protocol ids repeat only depends on the protocol events. */
  lemma {:induction false} FreshOfProtocol(events: seq<Event>)
    ensures FreshProtocolIds(events) <==> FreshProtocolIds(Protocol(events))
  {
    if events != [] {
      var first, rest := events[0], events[1..];
      assert events == [first] + rest;
      hide *;
      FreshOfProtocol(rest);
      FreshStep(first, rest);
      FreshStep(first, Protocol(rest));
      ProtocolStep(first, rest);
      forall e ensures e in Protocol(rest) <==> e in rest && IsProtocol(e) { ProtocolMembers(rest, e); }
    }
  }

  lemma DeliverProtocol(p: Pipeline, e: Event)
    ensures Protocol(Deliver(p, e).stream) == Protocol(p.stream) + Protocol([e])
  {
    ProtocolAppend(p.stream, [e]);
    assert Protocol(p.stream) + [] == Protocol(p.stream);
    assert [e][1..] == [];
    hide Persist;
  }

  lemma {:induction false} ResultsAddNoProtocol(p: Pipeline, events: seq<Event>)
    requires forall e :: e in events ==> e.ToolCallResult?
    ensures Protocol(DeliverAll(p, events).stream) == Protocol(p.stream)
    decreases |events|
  {
    if events != [] {
      assert events[0] in events && [events[0]][1..] == [];
      DeliverProtocol(p, events[0]);
      ResultsAddNoProtocol(Deliver(p, events[0]), events[1..]);
      assert Protocol(p.stream) + [] == Protocol(p.stream);
      hide Deliver;
    }
  }

  lemma ObservedProtocol(p: Pipeline, e: Event)
    ensures Protocol(Observed(p, e).stream) == Protocol(p.stream) + Protocol([e])
  {
    MarkersCover(p.pending);
    ResultsAddNoProtocol(p.(pending := MarkAll(p.pending)), Markers(p.pending));
    var flushed := if IsTerminal(e) then Flush(p) else p;
    DeliverProtocol(flushed, e);
    hide Deliver, DeliverAll, MarkAll, Markers, Protocol, Noted;
  }

  lemma {:induction false} ObservedAllProtocol(p: Pipeline, events: seq<Event>)
    ensures Protocol(ObservedAll(p, events).stream) == Protocol(p.stream) + Protocol(events)
    decreases |events|
  {
    hide Observed, Protocol;
    if events == [] {
      NoProtocol();
      assert Protocol(p.stream) + [] == Protocol(p.stream);
    } else {
      ObservedProtocol(p, events[0]);
      ObservedAllProtocol(Observed(p, events[0]), events[1..]);
      assert events == [events[0]] + events[1..];
      ProtocolAppend([events[0]], events[1..]);
    }
  }

  lemma NoProtocol()
    ensures Protocol([]) == []
  {
  }

  /** The protocol events of the stream are those emitted and projected, in their order. */
  lemma {:induction false} RunProtocol(p: Pipeline, emissions: seq<(Event, seq<Event>)>)
    ensures Protocol(Run(p, emissions).stream) == Protocol(p.stream) + Protocol(Flat(emissions))
    decreases |emissions|
  {
    hide Protocol, Emit;
    if emissions == [] {
      NoProtocol();
      assert Protocol(p.stream) + [] == Protocol(p.stream);
    } else {
      var (e, projected) := emissions[0];
      var rest := emissions[1..];
      assert Flat(emissions) == [e] + projected + Flat(rest);
      assert Run(p, emissions) == Run(Emit(p, e, projected), rest);
      EmitProtocol(p, e, projected);
      hide *;
      RunProtocol(Emit(p, e, projected), rest);
      ProtocolAppend([e] + projected, Flat(rest));
    }
  }

  lemma EmitProtocol(p: Pipeline, e: Event, projected: seq<Event>)
    ensures Protocol(Emit(p, e, projected).stream) == Protocol(p.stream) + Protocol([e] + projected)
  {
    hide Observed, ObservedAll, Protocol;
    ObservedProtocol(p, e);
    ObservedAllProtocol(Observed(p, e), projected);
    ProtocolAppend([e], projected);
  }

  lemma NewOfProtocol(log: seq<Event>, events: seq<Event>)
    ensures NewTo(log, events) <==> NewTo(log, Protocol(events))
  {
    forall e ensures e in Protocol(events) <==> e in events && IsProtocol(e) { ProtocolMembers(events, e); }
    hide Protocol;
  }

  lemma RunFrom(log: seq<Event>, emissions: seq<(Event, seq<Event>)>)
    ensures var p := Run(Begun(log), emissions);
            p.log == WrittenTo(log, p.stream) && Protocol(p.stream) == Protocol(Flat(emissions))
  {
    RunKeeps(log, Begun(log), emissions);
    RunProtocol(Begun(log), emissions);
    assert Protocol(Begun(log).stream) == [];
    hide Run, WrittenTo, Protocol, Flat;
    assert [] + Protocol(Flat(emissions)) == Protocol(Flat(emissions));
  }

  /** A segment adds its delivered stream to the log without the protocol events whose id came before, so nothing is
    * missing exactly when the emitted and projected events repeat no protocol id, nor one the log holds already. */
  lemma LogIsStream(log: seq<Event>, emissions: seq<(Event, seq<Event>)>)
    ensures var p := Run(Begun(log), emissions);
            && p.log == WrittenTo(log, p.stream)
            && (p.log == log + p.stream <==> FreshProtocolIds(Flat(emissions)) && NewTo(log, Flat(emissions)))
  {
    hide *;
    RunFrom(log, emissions);
    var stream := Run(Begun(log), emissions).stream;
    WrittenSame(log, stream);
    FreshOfProtocol(stream);
    FreshOfProtocol(Flat(emissions));
    NewOfProtocol(log, stream);
    NewOfProtocol(log, Flat(emissions));
  }

  lemma EmitCustom(p: Pipeline, e: Event)
    requires e.Custom?
    ensures Emit(p, e, []) == p.(log := Persist(p.log, e), stream := p.stream + [e])
  {
  }

  /** Delivering the same protocol event twice: the client sees it twice, the log has it once. */
  lemma RepeatedProtocolEvent(e: Event)
    requires e.Custom? && e.eventId != ""
    ensures var p := Emit(Emit(Begun([]), e, []), e, []);
            p.stream == [e, e] && p.log == [e]
  {
    EmitCustom(Begun([]), e);
    EmitCustom(Emit(Begun([]), e, []), e);
    hide Emit;
    assert [e][0] == e;
    assert Persist([], e) == [e] && Persist([e], e) == [e];
  }

  // ---------------------------------------------------------------- what one emission adds

  /** An event that is not a repeated result is always delivered, at the end; before a run-ending event
    * exactly the calls that finished without a result get a marker, one each. */
  lemma ObservedDelivers(start: seq<Event>, p: Pipeline, e: Event)
    requires Inv(start, p)
    ensures var p' := Observed(p, e);
            && (Names(e) && e.toolCallId in p.delivered ==> p'.stream == p.stream)
            && (!(Names(e) && e.toolCallId in p.delivered) && !IsTerminal(e) ==> p'.stream == p.stream + [e])
            && (IsTerminal(e) ==> exists markers :: p'.stream == p.stream + markers + [e] && Marks(p, markers))
  {
    if IsTerminal(e) {
      var markers := FlushMarks(start, p);
      hide Marks, Flush;
      assert Observed(p, e).stream == p.stream + markers + [e];
    }
  }

  /** The markers are of waiting calls without a result, and there is one for each of them. */
  ghost predicate Marks(p: Pipeline, markers: seq<Event>) {
    && (forall m :: m in markers ==> m.ToolCallResult? && m.content == NOT_DELIVERED
                                     && m.toolCallId !in p.delivered && HasPending(p.pending, m.toolCallId))
    && (forall k :: 0 <= k < |p.pending| && p.pending[k].toolCallId !in p.delivered
          ==> exists m :: m in markers && m.toolCallId == p.pending[k].toolCallId)
  }

  lemma FlushMarks(start: seq<Event>, p: Pipeline) returns (markers: seq<Event>)
    requires Inv(start, p)
    ensures Flush(p).stream == p.stream + markers && Marks(p, markers)
  {
    MarkersCover(p.pending);
    DeliverAllPending(p, MarkAll(p.pending), Markers(p.pending));
    MarkersNamed(start, p);
    DeliverAllAdds(p, Markers(p.pending));
    FlushAnswers(start, p);
    hide Markers, MarkAll, DeliverAll, Inv;
    var sent := DeliverAll(p, Markers(p.pending));
    markers := sent.stream[|p.stream|..];
    forall k | 0 <= k < |p.pending| && p.pending[k].toolCallId !in p.delivered
      ensures exists m :: m in markers && m.toolCallId == p.pending[k].toolCallId
    {
      assert p.pending[k].toolCallId in sent.delivered;
    }
  }

  lemma FlushAnswers(start: seq<Event>, p: Pipeline)
    requires Inv(start, p)
    ensures forall k :: 0 <= k < |p.pending| ==> p.pending[k].toolCallId in DeliverAll(p, Markers(p.pending)).delivered
  {
    FlushKeeps(start, p);
    MarkersCover(p.pending);
    DeliverAllPending(p, MarkAll(p.pending), Markers(p.pending));
    MarkAllAt(p.pending);
    assert forall k :: 0 <= k < |Markers(p.pending)| ==> Markers(p.pending)[k] in Markers(p.pending);
    DeliverAllKeeps(start, p, Markers(p.pending));
    hide DeliverAll, Inv, Markers;
    var flushed := Flush(p);
    forall k | 0 <= k < |p.pending| ensures p.pending[k].toolCallId in flushed.delivered {
      assert flushed.pending[k].toolCallId == p.pending[k].toolCallId;
    }
  }

  /** Delivering results adds those whose call had none, and answers only those. */
  lemma {:induction false} DeliverAllAdds(p: Pipeline, events: seq<Event>)
    requires forall m :: m in events ==> Names(m)
    ensures var p' := DeliverAll(p, events);
            && |p.stream| <= |p'.stream| && p'.stream[..|p.stream|] == p.stream
            && (forall m :: m in p'.stream[|p.stream|..] ==> m in events && Names(m) && m.toolCallId !in p.delivered)
            && (forall id :: id in p'.delivered && id !in p.delivered ==>
                  exists m :: m in p'.stream[|p.stream|..] && Names(m) && m.toolCallId == id)
    decreases |events|
  {
    if events != [] {
      var p1 := Deliver(p, events[0]);
      var p' := DeliverAll(p1, events[1..]);
      DeliverAllAdds(p1, events[1..]);
      assert events[0] in events;
      hide DeliverAll;
      if p1 != p {
        assert p'.stream[|p.stream|..] == [events[0]] + p'.stream[|p1.stream|..];
      }
    }
  }

  // ---------------------------------------------------------------- a run of several segments

  predicate IsEndOf(e: Event, id: string) { e.ToolCallEnd? && e.toolCallId == id != "" }

  ghost predicate Ended(events: seq<Event>, id: string) { exists e :: e in events && IsEndOf(e, id) }

  ghost predicate Resulted(events: seq<Event>, id: string) { exists e :: e in events && IsResultOf(e, id) }

  /** The call ends, and later a run-ending event follows. */
  ghost predicate EndsBeforeStop(events: seq<Event>, id: string) {
    exists e, t :: 0 <= e < t < |events| && IsEndOf(events[e], id) && IsTerminal(events[t])
  }

  /** A segment that emits these events writes a result of the call. */
  ghost predicate Answers(events: seq<Event>, id: string) { Resulted(events, id) || EndsBeforeStop(events, id) }

  ghost predicate Touches(events: seq<Event>, id: string) { Ended(events, id) || Resulted(events, id) }

  /** Before each of its run-ending events the segment has an END or a result of every call that the log leaves open. */
  ghost predicate ClosesOpen(log: seq<Event>, events: seq<Event>) {
    forall t, id :: 0 <= t < |events| && IsTerminal(events[t]) && Ended(log, id) && !Resulted(log, id) ==>
                      Touches(events[..t], id)
  }

  ghost predicate Settled(log: seq<Event>) { forall id :: Ended(log, id) ==> Resulted(log, id) }

  // ---- one event more

  lemma MoreEnds(log: seq<Event>, e: Event, id: string)
    ensures Ended(log + [e], id) <==> Ended(log, id) || IsEndOf(e, id)
    ensures Resulted(log + [e], id) <==> Resulted(log, id) || IsResultOf(e, id)
  {
    assert e in log + [e];
    forall x | x in log ensures x in log + [e] {}
  }

  lemma MoreStops(events: seq<Event>, e: Event, id: string)
    ensures EndsBeforeStop(events + [e], id) <==> EndsBeforeStop(events, id) || (IsTerminal(e) && Ended(events, id))
  {
    var more := events + [e];
    if EndsBeforeStop(events, id) {
      var i, t :| 0 <= i < t < |events| && IsEndOf(events[i], id) && IsTerminal(events[t]);
      assert IsEndOf(more[i], id) && IsTerminal(more[t]);
    }
    if IsTerminal(e) && Ended(events, id) {
      var i :| 0 <= i < |events| && IsEndOf(events[i], id);
      assert IsEndOf(more[i], id) && IsTerminal(more[|events|]);
    }
  }

  lemma MoreAnswers(events: seq<Event>, e: Event, id: string)
    ensures Answers(events + [e], id) <==> Answers(events, id) || IsResultOf(e, id) || (IsTerminal(e) && Ended(events, id))
  {
    MoreEnds(events, e, id);
    MoreStops(events, e, id);
  }

  lemma MoreCloses(log: seq<Event>, events: seq<Event>, e: Event)
    ensures ClosesOpen(log, events + [e]) <==>
            ClosesOpen(log, events)
            && (IsTerminal(e) ==> forall id :: Ended(log, id) && !Resulted(log, id) ==> Touches(events, id))
  {
    var more := events + [e];
    hide Ended, Resulted, Touches;
    assert forall t :: 0 <= t <= |events| ==> more[..t] == events[..t];
    assert more[..|events|] == events && more[|events|] == e;
  }

  lemma MoreEndsAnswered(log: seq<Event>, e: Event)
    ensures EndsAnswered(log + [e]) <==> EndsAnswered(log) && (IsTerminal(e) ==> Settled(log))
  {
    var more := log + [e];
    forall t: nat, id | t <= |log| ensures HasResult(more, t, id) <==> HasResult(log, t, id) { ResultBefore(log, e, t, id); }
    forall id ensures HasResult(log, |log|, id) <==> Resulted(log, id) { ResultAnywhere(log, id); }
    hide HasResult, Resulted;
    if EndsAnswered(more) {
      forall i, t | 0 <= i < t < |log| && IsTerminal(log[t]) && log[i].ToolCallEnd? && log[i].toolCallId != ""
        ensures HasResult(log, t, log[i].toolCallId)
      {
        assert more[i] == log[i] && more[t] == log[t];
      }
      if IsTerminal(e) {
        forall id | Ended(log, id) ensures Resulted(log, id) {
          var i :| 0 <= i < |log| && IsEndOf(log[i], id);
          assert more[i] == log[i] && more[|log|] == e;
        }
      }
    }
    if EndsAnswered(log) && (IsTerminal(e) ==> Settled(log)) {
      forall i, t | 0 <= i < t < |more| && IsTerminal(more[t]) && more[i].ToolCallEnd? && more[i].toolCallId != ""
        ensures HasResult(more, t, more[i].toolCallId)
      {
        assert more[i] == log[i];
        if t == |log| { assert IsEndOf(log[i], log[i].toolCallId) && Ended(log, log[i].toolCallId); }
      }
    }
  }

  lemma ResultBefore(log: seq<Event>, e: Event, t: nat, id: string)
    requires t <= |log|
    ensures HasResult(log + [e], t, id) <==> HasResult(log, t, id)
  {
    var more := log + [e];
    if HasResult(log, t, id) {
      var r :| 0 <= r < t && IsResultOf(log[r], id);
      assert IsResultOf(more[r], id);
    }
    if HasResult(more, t, id) {
      var r :| 0 <= r < t && IsResultOf(more[r], id);
      assert IsResultOf(log[r], id);
    }
  }

  lemma ResultAnywhere(log: seq<Event>, id: string)
    ensures HasResult(log, |log|, id) <==> Resulted(log, id)
  {
  }

  lemma MoreResults(log: seq<Event>, e: Event)
    ensures OneResultEach(log + [e]) <==> OneResultEach(log) && forall id :: IsResultOf(e, id) ==> !Resulted(log, id)
  {
    var more := log + [e];
    assert forall i :: 0 <= i < |log| ==> more[i] == log[i];
    if OneResultEach(more) {
      forall id | IsResultOf(e, id) ensures !Resulted(log, id) {
        if Resulted(log, id) {
          var i :| 0 <= i < |log| && IsResultOf(log[i], id);
          assert Names(more[i]) && Names(more[|log|]);
        }
      }
    }
    if OneResultEach(log) && forall id :: IsResultOf(e, id) ==> !Resulted(log, id) {
      forall i, j | 0 <= i < j < |more| && Names(more[i]) && Names(more[j]) ensures more[i].toolCallId != more[j].toolCallId {
        if j == |log| { assert IsResultOf(e, e.toolCallId) && !IsResultOf(log[i], e.toolCallId); }
      }
    }
  }

  // ---- what delivering does to the log

  /** Of all delivered events only the newly answered calls bear on the results in the log. */
  ghost predicate AddsResults(p: Pipeline, p': Pipeline) {
    && p.delivered <= p'.delivered
    && (forall id :: Resulted(p'.log, id) <==> Resulted(p.log, id) || (id in p'.delivered && id !in p.delivered))
    && (OneResultEach(p'.log) <==>
          OneResultEach(p.log) && forall id :: id in p'.delivered && id !in p.delivered ==> !Resulted(p.log, id))
  }

  lemma DeliverAddsResults(p: Pipeline, e: Event)
    ensures AddsResults(p, Deliver(p, e))
  {
    forall id ensures Resulted(p.log + [e], id) <==> Resulted(p.log, id) || IsResultOf(e, id) { MoreEnds(p.log, e, id); }
    MoreResults(p.log, e);
    hide Resulted, OneResultEach;
  }

  lemma AddsResultsThrough(p: Pipeline, q: Pipeline, r: Pipeline)
    requires AddsResults(p, q) && AddsResults(q, r)
    ensures AddsResults(p, r)
  {
    hide Resulted, OneResultEach;
  }

  lemma {:induction false} DeliverAllAddsResults(p: Pipeline, events: seq<Event>)
    ensures AddsResults(p, DeliverAll(p, events))
    decreases |events|
  {
    if events != [] {
      DeliverAddsResults(p, events[0]);
      DeliverAllAddsResults(Deliver(p, events[0]), events[1..]);
      hide AddsResults;
      AddsResultsThrough(p, Deliver(p, events[0]), DeliverAll(p, events));
    }
  }

  lemma ObservedAddsResults(p: Pipeline, e: Event)
    ensures AddsResults(p, Observed(p, e))
  {
    DeliverAllAddsResults(p.(pending := MarkAll(p.pending)), Markers(p.pending));
    var flushed := if IsTerminal(e) then Flush(p) else p;
    DeliverAddsResults(flushed, e);
    hide Deliver, DeliverAll, Markers, MarkAll, Noted, Resulted, OneResultEach;
    assert AddsResults(p, flushed);
    AddsResultsThrough(p, flushed, Deliver(flushed, e));
  }

  lemma {:induction false} ObservedAllAddsResults(p: Pipeline, events: seq<Event>)
    ensures AddsResults(p, ObservedAll(p, events))
    decreases |events|
  {
    hide Observed, Resulted, OneResultEach;
    if events != [] {
      ObservedAddsResults(p, events[0]);
      ObservedAllAddsResults(Observed(p, events[0]), events[1..]);
      AddsResultsThrough(p, Observed(p, events[0]), ObservedAll(p, events));
    }
  }

  lemma DeliverEnds(p: Pipeline, e: Event)
    ensures forall id :: Ended(Deliver(p, e).log, id) <==> Ended(p.log, id) || IsEndOf(e, id)
    ensures EndsAnswered(Deliver(p, e).log) <==> EndsAnswered(p.log) && (IsTerminal(e) ==> Settled(p.log))
  {
    forall id ensures Ended(p.log + [e], id) <==> Ended(p.log, id) || IsEndOf(e, id) { MoreEnds(p.log, e, id); }
    MoreEndsAnswered(p.log, e);
    hide Ended, EndsAnswered, Settled;
  }

  lemma {:induction false} ResultsLeaveEnds(p: Pipeline, events: seq<Event>)
    requires forall e :: e in events ==> e.ToolCallResult?
    ensures forall id :: Ended(DeliverAll(p, events).log, id) <==> Ended(p.log, id)
    ensures EndsAnswered(DeliverAll(p, events).log) <==> EndsAnswered(p.log)
    decreases |events|
  {
    if events != [] {
      assert events[0] in events;
      DeliverEnds(p, events[0]);
      hide Deliver, Ended, EndsAnswered, Settled;
      ResultsLeaveEnds(Deliver(p, events[0]), events[1..]);
    }
  }

  lemma FlushLeavesEnds(p: Pipeline)
    ensures forall id :: Ended(Flush(p).log, id) <==> Ended(p.log, id)
    ensures EndsAnswered(Flush(p).log) <==> EndsAnswered(p.log)
  {
    MarkersCover(p.pending);
    ResultsLeaveEnds(p.(pending := MarkAll(p.pending)), Markers(p.pending));
  }

  lemma ObservedEnds(p: Pipeline, e: Event)
    ensures forall id :: Ended(Observed(p, e).log, id) <==> Ended(p.log, id) || IsEndOf(e, id)
    ensures EndsAnswered(Observed(p, e).log) <==> EndsAnswered(p.log) && (IsTerminal(e) ==> Settled(Flush(p).log))
  {
    FlushLeavesEnds(p);
    DeliverEnds(if IsTerminal(e) then Flush(p) else p, e);
    hide Deliver, Flush, Ended, EndsAnswered, Settled, Noted;
  }

  // ---- what the safety net knows

  /** A flush answers the waiting calls and no other. */
  lemma FlushAnswersWaiting(start: seq<Event>, p: Pipeline)
    requires Inv(start, p)
    ensures forall id :: id in Flush(p).delivered <==> id in p.delivered || HasPending(p.pending, id)
  {
    FlushKeeps(start, p);
    FlushAnswers(start, p);
    DeliverAllPending(p, MarkAll(p.pending), Markers(p.pending));
    MarkersNamed(start, p);
    DeliverAllAdds(p, Markers(p.pending));
    MarkersCover(p.pending);
    var sent := DeliverAll(p, Markers(p.pending));
    hide Inv, DeliverAll, Markers, MarkAll;
    assert Flush(p).delivered == sent.delivered;
    DeliverAllGrows(p, Markers(p.pending));
  }

  lemma MarkersNamed(start: seq<Event>, p: Pipeline)
    requires Inv(start, p)
    ensures forall m :: m in Markers(p.pending) ==> Names(m)
  {
    MarkersCover(p.pending);
  }

  lemma {:induction false} DeliverAllGrows(p: Pipeline, events: seq<Event>)
    ensures p.delivered <= DeliverAll(p, events).delivered
    decreases |events|
  {
    if events != [] { DeliverAllGrows(Deliver(p, events[0]), events[1..]); }
  }

  lemma ObservedNotes(start: seq<Event>, p: Pipeline, e: Event, id: string)
    requires Inv(start, p)
    ensures id in Observed(p, e).delivered <==>
            id in p.delivered || IsResultOf(e, id) || (IsTerminal(e) && HasPending(p.pending, id))
    ensures HasPending(Observed(p, e).pending, id) <==> HasPending(p.pending, id) || (IsEndOf(e, id))
  {
    FlushAnswersWaiting(start, p);
    NotedWaits(p.pending, e, id);
    MarkAllAt(p.pending);
    WaitsMarked(p.pending, id);
    DeliverAllPending(p, MarkAll(p.pending), Markers(p.pending));
    assert Flush(p).pending == MarkAll(p.pending);
    hide Inv, Flush, MarkAll, HasPending, Persist;
  }

  lemma WaitsMarked(pending: seq<PendingToolCall>, id: string)
    ensures HasPending(MarkAll(pending), id) <==> HasPending(pending, id)
  {
    MarkAllAt(pending);
    var marked := MarkAll(pending);
    if HasPending(pending, id) {
      var k :| 0 <= k < |pending| && pending[k].toolCallId == id;
      assert marked[k].toolCallId == id;
    }
  }

  lemma NotedWaits(pending: seq<PendingToolCall>, e: Event, id: string)
    ensures HasPending(Noted(pending, e), id) <==> HasPending(pending, id) || IsEndOf(e, id)
  {
    var noted := Noted(pending, e);
    if e.ToolCallResult? && e.toolCallId != "" { MarkFirstAt(pending, e.toolCallId); }
    if HasPending(pending, id) {
      var k :| 0 <= k < |pending| && pending[k].toolCallId == id;
      assert noted[k].toolCallId == id;
    }
    if IsEndOf(e, id) { assert noted[|pending|].toolCallId == id; }
  }

  // ---- one segment

  lemma {:induction false} ObservedAllAppend(p: Pipeline, a: seq<Event>, b: seq<Event>)
    ensures ObservedAll(p, a + b) == ObservedAll(ObservedAll(p, a), b)
    decreases |a|
  {
    if a == [] {
      assert a + b == b;
    } else {
      assert (a + b)[1..] == a[1..] + b;
      hide Observed;
      ObservedAllAppend(Observed(p, a[0]), a[1..], b);
    }
  }

  lemma {:induction false} RunIsFlat(p: Pipeline, emissions: seq<(Event, seq<Event>)>)
    ensures Run(p, emissions) == ObservedAll(p, Flat(emissions))
    decreases |emissions|
  {
    if emissions != [] {
      var (e, projected, rest) := (emissions[0].0, emissions[0].1, emissions[1..]);
      hide Observed, ObservedAll;
      RunIsFlat(Emit(p, e, projected), rest);
      EmitIsFlat(p, e, projected);
      assert Flat(emissions) == ([e] + projected) + Flat(rest) && Run(p, emissions) == Run(Emit(p, e, projected), rest);
      hide *;
      ObservedAllAppend(p, [e] + projected, Flat(rest));
    }
  }

  lemma EmitIsFlat(p: Pipeline, e: Event, projected: seq<Event>)
    ensures Emit(p, e, projected) == ObservedAll(p, [e] + projected)
  {
    hide Observed;
    assert ([e] + projected)[1..] == projected;
  }

  /** What a segment has noted and written of one call after these events. */
  ghost predicate TracksCall(log: seq<Event>, events: seq<Event>, p: Pipeline, id: string) {
    && (id in p.delivered <==> Answers(events, id))
    && (HasPending(p.pending, id) <==> Ended(events, id))
    && (Ended(p.log, id) <==> Ended(log, id) || Ended(events, id))
    && (Resulted(p.log, id) <==> Resulted(log, id) || Answers(events, id))
  }

  ghost predicate Tracks(log: seq<Event>, events: seq<Event>, p: Pipeline) {
    && Inv(log, p)
    && (forall id :: TracksCall(log, events, p, id))
    && (EndsAnswered(p.log) <==> EndsAnswered(log) && ClosesOpen(log, events))
  }

  lemma NothingTracked(log: seq<Event>)
    ensures Tracks(log, [], Begun(log))
  {
  }

  /** What a run-ending event finds in the log once the flush is done. */
  lemma SettledAfterFlush(log: seq<Event>, events: seq<Event>, p: Pipeline)
    requires Tracks(log, events, p)
    ensures Settled(Flush(p).log) <==> forall id :: Ended(log, id) && !Resulted(log, id) ==> Touches(events, id)
  {
    FlushAnswersWaiting(log, p);
    FlushLeavesEnds(p);
    DeliverAllAddsResults(p.(pending := MarkAll(p.pending)), Markers(p.pending));
    hide Inv, EndsAnswered, ClosesOpen, MarkAll, Markers, DeliverAll, OneResultEach, Ended, Resulted, HasPending;
    forall id
      ensures Resulted(Flush(p).log, id) <==> Resulted(log, id) || Answers(events, id) || Ended(events, id)
      ensures Ended(p.log, id) <==> Ended(log, id) || Ended(events, id)
    {
      assert TracksCall(log, events, p, id);
    }
    forall id | EndsBeforeStop(events, id) ensures Ended(events, id) { StoppedEnded(events, id); }
  }

  lemma StoppedEnded(events: seq<Event>, id: string)
    requires EndsBeforeStop(events, id)
    ensures Ended(events, id)
  {
    var e, t :| 0 <= e < t < |events| && IsEndOf(events[e], id) && IsTerminal(events[t]);
    assert events[e] in events;
  }

  lemma CallTracked(log: seq<Event>, events: seq<Event>, p: Pipeline, e: Event, id: string)
    requires Inv(log, p) && TracksCall(log, events, p, id)
    ensures TracksCall(log, events + [e], Observed(p, e), id)
  {
    ObservedEnds(p, e);
    ObservedAddsResults(p, e);
    ObservedNotes(log, p, e, id);
    MoreAnswers(events, e, id);
    MoreEnds(events, e, id);
    hide Observed, Inv, HasPending, Answers, Ended, Resulted, EndsAnswered, OneResultEach, Settled;
  }

  lemma EndsTracked(log: seq<Event>, events: seq<Event>, p: Pipeline, e: Event)
    requires Tracks(log, events, p)
    ensures EndsAnswered(Observed(p, e).log) <==> EndsAnswered(log) && ClosesOpen(log, events + [e])
  {
    SettledAfterFlush(log, events, p);
    ObservedEnds(p, e);
    MoreCloses(log, events, e);
    hide Observed, Inv, TracksCall, Ended, Resulted, EndsAnswered, ClosesOpen, Settled, Touches;
  }

  lemma OneMoreTracked(log: seq<Event>, events: seq<Event>, p: Pipeline, e: Event)
    requires Tracks(log, events, p)
    ensures Tracks(log, events + [e], Observed(p, e))
  {
    ObservedKeeps(log, p, e);
    EndsTracked(log, events, p, e);
    hide Observed, Inv, TracksCall, EndsAnswered, ClosesOpen;
    forall id ensures TracksCall(log, events + [e], Observed(p, e), id) { CallTracked(log, events, p, e, id); }
  }

  lemma {:induction false} SegmentTracked(log: seq<Event>, events: seq<Event>)
    ensures Tracks(log, events, ObservedAll(Begun(log), events))
  {
    hide Tracks, Observed;
    if events == [] {
      NothingTracked(log);
    } else {
      var before, e := events[..|events| - 1], events[|events| - 1];
      SegmentTracked(log, before);
      OneMoreTracked(log, before, ObservedAll(Begun(log), before), e);
      ObservedAllAppend(Begun(log), before, [e]);
      assert events == before + [e] && [e][1..] == [];
      ObserveOnly(ObservedAll(Begun(log), before), e);
    }
  }

  lemma ObserveOnly(p: Pipeline, e: Event)
    ensures ObservedAll(p, [e]) == Observed(p, e)
  {
    hide Observed;
    assert ObservedAll(Observed(p, e), []) == Observed(p, e);
  }

  ghost predicate Extends(log: seq<Event>, events: seq<Event>, log': seq<Event>) {
    && (EndsAnswered(log') <==> EndsAnswered(log) && ClosesOpen(log, events))
    && (OneResultEach(log') <==> OneResultEach(log) && forall id :: Answers(events, id) ==> !Resulted(log, id))
    && (forall id :: Ended(log', id) <==> Ended(log, id) || Ended(events, id))
    && (forall id :: Resulted(log', id) <==> Resulted(log, id) || Answers(events, id))
  }

  lemma TrackedExtends(log: seq<Event>, events: seq<Event>, p: Pipeline)
    requires Tracks(log, events, p) && AddsResults(Begun(log), p)
    ensures Extends(log, events, p.log)
  {
    hide Inv, HasPending, Answers, Ended, Resulted, EndsAnswered, ClosesOpen, OneResultEach;
    forall id
      ensures id in p.delivered <==> Answers(events, id)
      ensures Ended(p.log, id) <==> Ended(log, id) || Ended(events, id)
      ensures Resulted(p.log, id) <==> Resulted(log, id) || Answers(events, id)
    {
      assert TracksCall(log, events, p, id);
    }
    hide Tracks, TracksCall;
  }

  /** What a segment makes of the log it goes on with: when every ended call is still answered before a run-ending
    * event, and when each call still has one result. */
  lemma SegmentContract(log: seq<Event>, emissions: seq<(Event, seq<Event>)>)
    ensures Extends(log, Flat(emissions), Run(Begun(log), emissions).log)
  {
    hide *;
    RunIsFlat(Begun(log), emissions);
    SegmentTracked(log, Flat(emissions));
    ObservedAllAddsResults(Begun(log), Flat(emissions));
    TrackedExtends(log, Flat(emissions), Run(Begun(log), emissions));
  }

  // ---- all segments

  type Segment = seq<(Event, seq<Event>)>

  /** The log of a run: each segment goes on with the log as the one before left it. */
  function RunLog(segments: seq<Segment>): seq<Event> {
    if segments == [] then []
    else Run(Begun(RunLog(segments[..|segments| - 1])), segments[|segments| - 1]).log
  }

  ghost predicate EndedBefore(segments: seq<Segment>, n: nat, id: string)
    requires n <= |segments|
  {
    exists i :: 0 <= i < n && Ended(Flat(segments[i]), id)
  }

  ghost predicate AnsweredBefore(segments: seq<Segment>, n: nat, id: string)
    requires n <= |segments|
  {
    exists i :: 0 <= i < n && Answers(Flat(segments[i]), id)
  }

  /** Before each of its run-ending events the segment has an END or a result of every call that ended in an earlier
    * segment and got no result in any. */
  ghost predicate ClosesAt(segments: seq<Segment>, n: nat)
    requires n < |segments|
  {
    var events := Flat(segments[n]);
    forall t, id :: 0 <= t < |events| && IsTerminal(events[t]) && LeftOpen(segments, n, id) ==> Touches(events[..t], id)
  }

  /** The call ended in one of the first `n` segments and got no result in any of them. */
  ghost predicate LeftOpen(segments: seq<Segment>, n: nat, id: string)
    requires n <= |segments|
  {
    EndedBefore(segments, n, id) && !AnsweredBefore(segments, n, id)
  }

  ghost predicate Closes(segments: seq<Segment>) { forall n :: 0 <= n < |segments| ==> ClosesAt(segments, n) }

  /** No call gets a result in two segments. */
  ghost predicate AnsweredOnce(segments: seq<Segment>) {
    forall i, j, id :: 0 <= i < j < |segments| && Answers(Flat(segments[i]), id) ==> !Answers(Flat(segments[j]), id)
  }

  lemma MoreSegments(before: seq<Segment>, last: Segment, n: nat, id: string)
    requires n <= |before|
    ensures EndedBefore(before + [last], n, id) <==> EndedBefore(before, n, id)
    ensures AnsweredBefore(before + [last], n, id) <==> AnsweredBefore(before, n, id)
  {
    hide Ended, Answers, Flat;
    var all := before + [last];
    assert forall i :: 0 <= i < n ==> all[i] == before[i];
    if EndedBefore(before, n, id) {
      var i :| 0 <= i < n && Ended(Flat(before[i]), id);
      assert Ended(Flat(all[i]), id);
    }
    if EndedBefore(all, n, id) {
      var i :| 0 <= i < n && Ended(Flat(all[i]), id);
      assert Ended(Flat(before[i]), id);
    }
    if AnsweredBefore(before, n, id) {
      var i :| 0 <= i < n && Answers(Flat(before[i]), id);
      assert Answers(Flat(all[i]), id);
    }
    if AnsweredBefore(all, n, id) {
      var i :| 0 <= i < n && Answers(Flat(all[i]), id);
      assert Answers(Flat(before[i]), id);
    }
  }

  lemma OneMoreSegment(before: seq<Segment>, last: Segment, id: string)
    ensures EndedBefore(before + [last], |before| + 1, id) <==>
            EndedBefore(before, |before|, id) || Ended(Flat(last), id)
    ensures AnsweredBefore(before + [last], |before| + 1, id) <==>
            AnsweredBefore(before, |before|, id) || Answers(Flat(last), id)
  {
    hide Ended, Answers, Flat;
    var all := before + [last];
    MoreSegments(before, last, |before|, id);
    assert all[|before|] == last;
    if EndedBefore(before, |before|, id) {
      var i :| 0 <= i < |before| && Ended(Flat(all[i]), id);
      assert Ended(Flat(all[i]), id);
    }
    if AnsweredBefore(before, |before|, id) {
      var i :| 0 <= i < |before| && Answers(Flat(all[i]), id);
      assert Answers(Flat(all[i]), id);
    }
    if Ended(Flat(last), id) { assert Ended(Flat(all[|before|]), id); }
    if Answers(Flat(last), id) { assert Answers(Flat(all[|before|]), id); }
  }

  lemma MoreClosesAt(before: seq<Segment>, last: Segment, n: nat)
    requires n < |before|
    ensures ClosesAt(before + [last], n) <==> ClosesAt(before, n)
  {
    forall id ensures LeftOpen(before + [last], n, id) <==> LeftOpen(before, n, id) { MoreSegments(before, last, n, id); }
    hide LeftOpen, Touches, Flat;
    assert (before + [last])[n] == before[n];
  }

  lemma MoreClosed(before: seq<Segment>, last: Segment)
    ensures Closes(before + [last]) <==> Closes(before) && ClosesAt(before + [last], |before|)
  {
    forall n | 0 <= n < |before| ensures ClosesAt(before + [last], n) <==> ClosesAt(before, n) {
      MoreClosesAt(before, last, n);
    }
    hide ClosesAt;
  }

  lemma MoreAnsweredOnce(before: seq<Segment>, last: Segment)
    ensures AnsweredOnce(before + [last]) <==>
            AnsweredOnce(before) && forall id :: Answers(Flat(last), id) ==> !AnsweredBefore(before, |before|, id)
  {
    hide Answers, Flat;
    var all := before + [last];
    assert all[|before|] == last && forall i :: 0 <= i < |before| ==> all[i] == before[i];
    if AnsweredOnce(all) {
      forall i, j, id | 0 <= i < j < |before| && Answers(Flat(before[i]), id) ensures !Answers(Flat(before[j]), id) {
        assert Answers(Flat(all[i]), id) ==> !Answers(Flat(all[j]), id);
      }
      forall i, id | 0 <= i < |before| && Answers(Flat(before[i]), id) ensures !Answers(Flat(last), id) {
        assert Answers(Flat(all[i]), id) ==> !Answers(Flat(all[|before|]), id);
      }
    }
    if AnsweredOnce(before) && forall id :: Answers(Flat(last), id) ==> !AnsweredBefore(before, |before|, id) {
      forall i, j, id | 0 <= i < j < |all| && Answers(Flat(all[i]), id) ensures !Answers(Flat(all[j]), id) {
        assert Answers(Flat(before[i]), id);
        if j == |before| { assert AnsweredBefore(before, |before|, id); }
      }
    }
  }

  /** The log holds an END or a result of a call exactly when some segment has one. */
  ghost predicate LogTracks(segments: seq<Segment>) {
    var log := RunLog(segments);
    && (forall id :: Ended(log, id) <==> EndedBefore(segments, |segments|, id))
    && (forall id :: Resulted(log, id) <==> AnsweredBefore(segments, |segments|, id))
  }

  lemma {:induction false} LogIsTracked(segments: seq<Segment>)
    ensures LogTracks(segments)
  {
    if segments != [] {
      var before, last := segments[..|segments| - 1], segments[|segments| - 1];
      assert segments == before + [last];
      LogIsTracked(before);
      SegmentContract(RunLog(before), last);
      forall id
        ensures EndedBefore(segments, |segments|, id) <==> EndedBefore(before, |before|, id) || Ended(Flat(last), id)
        ensures AnsweredBefore(segments, |segments|, id) <==> AnsweredBefore(before, |before|, id) || Answers(Flat(last), id)
      {
        OneMoreSegment(before, last, id);
      }
      hide Ended, Resulted, Answers, Flat, EndedBefore, AnsweredBefore, EndsAnswered, OneResultEach, ClosesOpen, Run;
    }
  }

  /** What the last segment must close is what the log leaves open. */
  lemma ClosesLast(before: seq<Segment>, last: Segment)
    requires LogTracks(before)
    ensures ClosesAt(before + [last], |before|) <==> ClosesOpen(RunLog(before), Flat(last))
  {
    var all, log := before + [last], RunLog(before);
    forall id ensures LeftOpen(all, |before|, id) <==> Ended(log, id) && !Resulted(log, id) {
      MoreSegments(before, last, |before|, id);
    }
    assert all[|before|] == last;
    hide LeftOpen, LogTracks, Ended, Resulted, Touches, Flat, RunLog;
  }

  /** The tool-result contract over a whole run, its log written by one segment after another. Every ended call has a
    * result before any later run-ending event exactly when each segment with such an event has first an END or a
    * result of every call that earlier segments left without one; a segment answers its own calls. No call has two
    * results exactly when none gets one in two segments. */
  lemma {:induction false} WholeRunContract(segments: seq<Segment>)
    ensures EndsAnswered(RunLog(segments)) <==> Closes(segments)
    ensures OneResultEach(RunLog(segments)) <==> AnsweredOnce(segments)
  {
    if segments != [] {
      var before, last := segments[..|segments| - 1], segments[|segments| - 1];
      assert segments == before + [last];
      WholeRunContract(before);
      SegmentContract(RunLog(before), last);
      LogIsTracked(before);
      ClosesLast(before, last);
      MoreClosed(before, last);
      MoreAnsweredOnce(before, last);
      hide Ended, Resulted, Answers, Flat, AnsweredBefore, EndedBefore, EndsAnswered, OneResultEach, ClosesOpen, ClosesAt,
           Closes, AnsweredOnce, Run;
    }
  }

  /** A run that is never suspended is one segment and keeps the contract. */
  lemma UnsuspendedRunKeepsContract(emissions: Segment)
    ensures EndsAnswered(RunLog([emissions])) && OneResultEach(RunLog([emissions]))
  {
    WholeRunContract([emissions]);
    hide Flat, Touches, Answers, RunLog;
    assert forall id :: !EndedBefore([emissions], 0, id);
  }

  /** Everything the clients of a run's segments were sent, and everything emitted and projected in them. */
  function RunStream(segments: seq<Segment>): seq<Event> {
    if segments == [] then []
    else
      var before, last := segments[..|segments| - 1], segments[|segments| - 1];
      RunStream(before) + Run(Begun(RunLog(before)), last).stream
  }

  function RunFlat(segments: seq<Segment>): seq<Event> {
    if segments == [] then [] else RunFlat(segments[..|segments| - 1]) + Flat(segments[|segments| - 1])
  }

  lemma {:induction false} WrittenThrough(log: seq<Event>, a: seq<Event>, b: seq<Event>)
    ensures WrittenTo(log, a + b) == WrittenTo(WrittenTo(log, a), b)
  {
    if b == [] {
      assert a + b == a;
    } else {
      var front := b[..|b| - 1];
      assert (a + b)[..|a + b| - 1] == a + front && (a + b)[|a + b| - 1] == b[|b| - 1];
      hide Persist;
      WrittenThrough(log, a, front);
    }
  }

  lemma {:induction false} RunLogWritten(segments: seq<Segment>)
    ensures RunLog(segments) == WrittenTo([], RunStream(segments))
    ensures Protocol(RunStream(segments)) == Protocol(RunFlat(segments))
  {
    if segments != [] {
      var before, last := segments[..|segments| - 1], segments[|segments| - 1];
      var log := RunLog(before);
      var stream := Run(Begun(log), last).stream;
      RunLogWritten(before);
      RunFrom(log, last);
      hide WrittenTo, Protocol, Flat, Run;
      WrittenThrough([], RunStream(before), stream);
      ProtocolAppend(RunStream(before), stream);
      ProtocolAppend(RunFlat(before), Flat(last));
    }
  }

  /** The log of a whole run is what its clients were sent exactly when no protocol id is emitted twice, be it in two
    * segments. */
  lemma WholeLogIsStream(segments: seq<Segment>)
    ensures RunLog(segments) == RunStream(segments) <==> FreshProtocolIds(RunFlat(segments))
  {
    RunLogWritten(segments);
    hide *;
    WrittenSame([], RunStream(segments));
    NothingOld(RunStream(segments));
    FreshOfProtocol(RunStream(segments));
    FreshOfProtocol(RunFlat(segments));
  }

  lemma NothingOld(stream: seq<Event>)
    ensures NewTo([], stream) && [] + stream == stream
  {
  }

  /** A segment of one event, from which nothing is projected. */
  function Alone(e: Event): Segment { [(e, [])] }

  lemma RunAlone(p: Pipeline, e: Event)
    ensures Run(p, Alone(e)) == Observed(p, e)
  {
    hide Observed;
    assert ObservedAll(Observed(p, e), []) == Observed(p, e);
    assert Run(Emit(p, e, []), []) == Emit(p, e, []);
  }

  lemma TwoSegments(first: Segment, last: Segment)
    ensures RunLog([first, last]) == Run(Begun(Run(Begun([]), first).log), last).log
  {
    hide Run;
    assert [first, last][..1] == [first] && [first][..0] == [] && RunLog([]) == [];
    assert RunLog([first]) == Run(Begun([]), first).log;
  }

  /** A run is suspended once a call has ended, and its resume is declined: the run ends with the call unanswered. */
  lemma DeclinedResumeLeavesCallOpen(id: string, name: string, x: string)
    requires id != ""
    ensures var log := RunLog([Alone(ToolCallEnd(id, name)), Alone(RunFinished(x))]);
            log == [ToolCallEnd(id, name), RunFinished(x)] && !EndsAnswered(log)
  {
    var call, end := ToolCallEnd(id, name), RunFinished(x);
    RunAlone(Begun([]), call);
    RunAlone(Begun([call]), end);
    TwoSegments(Alone(call), Alone(end));
    hide Run, RunLog, Alone;
    assert Observed(Begun([]), call).log == [] + [call] == [call];
    assert Observed(Begun([call]), end).log == [call] + [end];
    var log := [call, end];
    assert log[0] == call && log[1] == end && !HasResult(log, 1, id);
  }

  /** A result emitted in two segments is in the log twice. */
  lemma ResultInTwoSegments(e: Event)
    requires Names(e)
    ensures RunLog([Alone(e), Alone(e)]) == [e, e]
  {
    RunAlone(Begun([]), e);
    RunAlone(Begun([e]), e);
    TwoSegments(Alone(e), Alone(e));
    hide Run, RunLog, Alone;
    assert Observed(Begun([]), e).log == [] + [e] == [e];
    assert Observed(Begun([e]), e).log == [e] + [e];
  }

  // ---------------------------------------------------------------- the stream, without the safety net's tables

  /** The calls that ended, with the name a marker gives them. */
  function EndedCalls(events: seq<Event>): seq<(string, string)> {
    if events == [] then []
    else
      var e := events[|events| - 1];
      EndedCalls(events[..|events| - 1])
      + if e.ToolCallEnd? && e.toolCallId != ""
        then [(e.toolCallId, if e.toolName == "" then "unknown" else e.toolName)] else []
  }

  /** The calls a stream has a result of. */
  function ResultIds(stream: seq<Event>): set<string> {
    set i | 0 <= i < |stream| && stream[i].ToolCallResult? && stream[i].toolCallId != "" :: stream[i].toolCallId
  }

  /** A marker for each call without a result, under the name it ended with first. */
  function Missing(calls: seq<(string, string)>, answered: set<string>): seq<Event> {
    if calls == [] then []
    else if calls[0].0 in answered then Missing(calls[1..], answered)
    else [ToolCallResult(calls[0].0, calls[0].1, NOT_DELIVERED)] + Missing(calls[1..], answered + {calls[0].0})
  }

  /** What must reach the client for a segment's events: all of them in order, without the results of a call that has
    * one already, and before a run-ending event the markers of the calls that ended and have none. */
  function Expected(events: seq<Event>): seq<Event> {
    if events == [] then []
    else
      var before, e := events[..|events| - 1], events[|events| - 1];
      var stream := Expected(before);
      if e.RunFinished? || e.RunError? then stream + Missing(EndedCalls(before), ResultIds(stream)) + [e]
      else if e.ToolCallResult? && e.toolCallId != "" && e.toolCallId in ResultIds(stream) then stream
      else stream + [e]
  }

  function CallsOf(pending: seq<PendingToolCall>): seq<(string, string)> {
    if pending == [] then [] else [(pending[0].toolCallId, pending[0].toolName)] + CallsOf(pending[1..])
  }

  /** The tables hold what the events and the stream say. */
  ghost predicate Mirrors(events: seq<Event>, p: Pipeline) {
    && p.stream == Expected(events) && p.delivered == ResultIds(p.stream)
    && CallsOf(p.pending) == EndedCalls(events)
    && (forall k :: 0 <= k < |p.pending| ==> p.pending[k].toolCallId != "")
    && (forall k :: 0 <= k < |p.pending| && p.pending[k].hasResult ==> p.pending[k].toolCallId in p.delivered)
  }

  lemma ResultIdsAppend(stream: seq<Event>, e: Event)
    ensures ResultIds(stream + [e])
            == ResultIds(stream) + if e.ToolCallResult? && e.toolCallId != "" then {e.toolCallId} else {}
  {
    var more := stream + [e];
    forall i | 0 <= i < |stream| && stream[i].ToolCallResult? && stream[i].toolCallId != ""
      ensures stream[i].toolCallId in ResultIds(more)
    {
      assert more[i] == stream[i];
    }
    if e.ToolCallResult? && e.toolCallId != "" { assert more[|stream|] == e && e.toolCallId in ResultIds(more); }
  }

  lemma DeliverMirrors(p: Pipeline, e: Event)
    requires p.delivered == ResultIds(p.stream)
    ensures var p' := Deliver(p, e);
            && p'.delivered == ResultIds(p'.stream) && p'.pending == p.pending
            && p'.stream == (if e.ToolCallResult? && e.toolCallId != "" && e.toolCallId in ResultIds(p.stream)
                             then p.stream else p.stream + [e])
  {
    ResultIdsAppend(p.stream, e);
  }

  /** Delivering the markers of the waiting calls delivers those of the calls without a result, once each. */
  lemma {:induction false} MarkersDelivered(p: Pipeline, pending: seq<PendingToolCall>)
    requires p.delivered == ResultIds(p.stream)
    requires forall k :: 0 <= k < |pending| ==> pending[k].toolCallId != ""
    requires forall k :: 0 <= k < |pending| && pending[k].hasResult ==> pending[k].toolCallId in p.delivered
    ensures var p' := DeliverAll(p, Markers(pending));
            && p'.stream == p.stream + Missing(CallsOf(pending), ResultIds(p.stream))
            && p'.delivered == ResultIds(p'.stream) && p'.pending == p.pending
            && p.delivered <= p'.delivered
            && forall k :: 0 <= k < |pending| ==> pending[k].toolCallId in p'.delivered
    decreases |pending|
  {
    if pending == [] {
      assert p.stream + [] == p.stream;
    } else if pending[0].hasResult {
      assert [] + Markers(pending[1..]) == Markers(pending[1..]);
      MarkersDelivered(p, pending[1..]);
    } else {
      var marker := ToolCallResult(pending[0].toolCallId, pending[0].toolName, NOT_DELIVERED);
      var p1 := Deliver(p, marker);
      MarkersStep(p, pending);
      DeliverMirrors(p, marker);
      ResultIdsAppend(p.stream, marker);
      hide Markers, DeliverAll, Deliver, ResultIds;
      assert p.delivered <= p1.delivered && pending[0].toolCallId in p1.delivered;
      MarkersDelivered(p1, pending[1..]);
      if pending[0].toolCallId !in p.delivered {
        AfterMarker(p.stream, marker, Missing(CallsOf(pending[1..]), p1.delivered));
      }
    }
  }

  lemma AfterMarker(stream: seq<Event>, marker: Event, rest: seq<Event>)
    ensures stream + [marker] + rest == stream + ([marker] + rest)
  {
  }

  lemma MarkersStep(p: Pipeline, pending: seq<PendingToolCall>)
    requires pending != [] && !pending[0].hasResult
    ensures var marker := ToolCallResult(pending[0].toolCallId, pending[0].toolName, NOT_DELIVERED);
            DeliverAll(p, Markers(pending)) == DeliverAll(Deliver(p, marker), Markers(pending[1..]))
  {
    hide Deliver;
    var marker := ToolCallResult(pending[0].toolCallId, pending[0].toolName, NOT_DELIVERED);
    assert ([marker] + Markers(pending[1..]))[1..] == Markers(pending[1..]);
  }

  lemma {:induction false} CallsOfAt(pending: seq<PendingToolCall>)
    ensures |CallsOf(pending)| == |pending|
    ensures forall k :: 0 <= k < |pending| ==> CallsOf(pending)[k] == (pending[k].toolCallId, pending[k].toolName)
  {
    if pending != [] { CallsOfAt(pending[1..]); }
  }

  lemma SameCalls(pending: seq<PendingToolCall>, other: seq<PendingToolCall>)
    requires |other| == |pending|
    requires forall k :: 0 <= k < |pending| ==>
               other[k].toolCallId == pending[k].toolCallId && other[k].toolName == pending[k].toolName
    ensures CallsOf(other) == CallsOf(pending)
  {
    CallsOfAt(pending);
    CallsOfAt(other);
  }

  lemma FlushMirrors(events: seq<Event>, p: Pipeline)
    requires Mirrors(events, p)
    ensures var p' := Flush(p);
            && p'.stream == p.stream + Missing(EndedCalls(events), ResultIds(p.stream))
            && p'.delivered == ResultIds(p'.stream) && CallsOf(p'.pending) == CallsOf(p.pending)
            && (forall k :: 0 <= k < |p'.pending| ==> p'.pending[k].toolCallId != "")
            && (forall k :: 0 <= k < |p'.pending| && p'.pending[k].hasResult ==> p'.pending[k].toolCallId in p'.delivered)
  {
    MarkAllAt(p.pending);
    MarkersDelivered(p, p.pending);
    DeliverAllPending(p, MarkAll(p.pending), Markers(p.pending));
    hide Expected, Missing, ResultIds, DeliverAll, Markers, MarkAll;
    SameCalls(p.pending, MarkAll(p.pending));
  }

  lemma NotedMirrors(events: seq<Event>, p: Pipeline, e: Event)
    requires CallsOf(p.pending) == EndedCalls(events)
    requires forall k :: 0 <= k < |p.pending| ==> p.pending[k].toolCallId != ""
    requires forall k :: 0 <= k < |p.pending| && p.pending[k].hasResult ==> p.pending[k].toolCallId in p.delivered
    requires e.ToolCallResult? && e.toolCallId != "" ==> e.toolCallId in p.delivered
    ensures var noted := Noted(p.pending, e);
            && CallsOf(noted) == EndedCalls(events + [e])
            && (forall k :: 0 <= k < |noted| ==> noted[k].toolCallId != "")
            && (forall k :: 0 <= k < |noted| && noted[k].hasResult ==> noted[k].toolCallId in p.delivered)
  {
    var noted := Noted(p.pending, e);
    assert (events + [e])[..|events|] == events;
    if e.ToolCallResult? && e.toolCallId != "" {
      MarkFirstAt(p.pending, e.toolCallId);
      hide MarkFirst, CallsOf;
      SameCalls(p.pending, noted);
    } else if e.ToolCallEnd? && e.toolCallId != "" {
      CallsOfAppend(p.pending, noted[|p.pending|]);
      hide CallsOf, MarkFirst;
    }
  }

  lemma CallsOfAppend(pending: seq<PendingToolCall>, last: PendingToolCall)
    ensures CallsOf(pending + [last]) == CallsOf(pending) + [(last.toolCallId, last.toolName)]
  {
    CallsOfAt(pending);
    CallsOfAt(pending + [last]);
    hide CallsOf;
  }

  lemma ExpectedMore(events: seq<Event>, e: Event)
    ensures var stream := Expected(events);
            Expected(events + [e])
            == if e.RunFinished? || e.RunError? then stream + Missing(EndedCalls(events), ResultIds(stream)) + [e]
               else if e.ToolCallResult? && e.toolCallId != "" && e.toolCallId in ResultIds(stream) then stream
               else stream + [e]
  {
    assert (events + [e])[..|events|] == events;
    hide Missing, EndedCalls, ResultIds;
  }

  lemma ObservedMirrors(events: seq<Event>, p: Pipeline, e: Event)
    requires Mirrors(events, p)
    ensures Mirrors(events + [e], Observed(p, e))
  {
    var flushed := if IsTerminal(e) then Flush(p) else p;
    var sent := Deliver(flushed, e);
    ExpectedMore(events, e);
    FlushMirrors(events, p);
    DeliverMirrors(flushed, e);
    ResultIdsAppend(flushed.stream, e);
    hide Flush, Expected, Missing, CallsOf, Noted, EndedCalls, ResultIds;
    assert flushed.delivered <= sent.delivered by { DeliveredGrows(flushed, e); }
    assert e.ToolCallResult? && e.toolCallId != "" ==> e.toolCallId in sent.delivered;
    hide Deliver;
    NotedMirrors(events, sent, e);
  }

  lemma DeliveredGrows(p: Pipeline, e: Event)
    ensures p.delivered <= Deliver(p, e).delivered
  {
  }

  lemma {:induction false} ObservedAllMirrors(before: seq<Event>, p: Pipeline, events: seq<Event>)
    requires Mirrors(before, p)
    ensures Mirrors(before + events, ObservedAll(p, events))
    decreases |events|
  {
    hide Mirrors, Observed;
    if events == [] {
      assert before + events == before;
    } else {
      ObservedMirrors(before, p, events[0]);
      ObservedAllMirrors(before + [events[0]], Observed(p, events[0]), events[1..]);
      assert before + [events[0]] + events[1..] == before + events;
    }
  }

  /** The stream of any segment, event by event, from the emitted and projected events alone. */
  lemma StreamIsExpected(log: seq<Event>, emissions: seq<(Event, seq<Event>)>)
    ensures Run(Begun(log), emissions).stream == Expected(Flat(emissions))
  {
    RunIsFlat(Begun(log), emissions);
    assert Mirrors([], Begun(log));
    ObservedAllMirrors([], Begun(log), Flat(emissions));
    hide Run, ObservedAll, Expected, Flat;
    assert [] + Flat(emissions) == Flat(emissions);
  }
}
