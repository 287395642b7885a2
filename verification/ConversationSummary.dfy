/** Automatic conversation summaries: each completed run may fold the older messages of its session into one. */
module ConversationSummary {
  import opened Options

  datatype Message = Message(position: nat, run: string, text: string)

  /** A stored summary: its id names its sources, `first` to `to`; its range is `from` to `to`. */
  datatype Summary = Summary(first: nat, from: nat, to: nat, text: string)

  /** The limits of the memory policy that matter here, any whole numbers. */
  datatype Policy = Policy(loadLimit: int, trigger: int, keep: int)

  datatype Store = Store(messages: seq<Message>, summaries: seq<Summary>)

  /** What a summary will be made from, fixed before the text is generated. */
  datatype Plan = Plan(previous: Option<Summary>, sources: seq<Message>)

  function NextPosition(messages: seq<Message>): nat {
    if messages == [] then 1
    else
      var rest, last := NextPosition(messages[..|messages| - 1]), messages[|messages| - 1].position + 1;
      if last > rest then last else rest
  }

  function Append(s: Store, run: string, text: string): Store {
    s.(messages := s.messages + [Message(NextPosition(s.messages), run, text)])
  }

  function ListRecent(messages: seq<Message>, limit: int): seq<Message> {
    if limit <= 0 then [] else if limit >= |messages| then messages else messages[|messages| - limit..]
  }

  /** The summary reaching furthest, the newest of equals. */
  function Latest(summaries: seq<Summary>): Option<Summary> {
    if summaries == [] then None
    else
      var best, last := Latest(summaries[..|summaries| - 1]), summaries[|summaries| - 1];
      if best.Some? && best.value.to > last.to then best else Some(last)
  }

  function After(messages: seq<Message>, position: nat): seq<Message> {
    if messages == [] then []
    else (if messages[0].position > position then [messages[0]] else []) + After(messages[1..], position)
  }

  function Unsummarized(s: Store, policy: Policy): seq<Message> {
    var history := ListRecent(s.messages, policy.loadLimit);
    match Latest(s.summaries)
    case None => history
    case Some(latest) => After(history, latest.to)
  }

  /** The part before the text is generated: None when there is too little to summarise. */
  function Planned(s: Store, policy: Policy): Option<Plan> {
    var unsummarized := Unsummarized(s, policy);
    var count := |unsummarized| - policy.keep;
    if |unsummarized| < policy.trigger || count <= 0 then None
    else
      var sources := if count >= |unsummarized| then unsummarized else unsummarized[..count];
      if sources == [] then None else Some(Plan(Latest(s.summaries), sources))
  }

  function SummaryOf(plan: Plan, text: string): Summary
    requires plan.sources != []
  {
    var first, last := plan.sources[0].position, plan.sources[|plan.sources| - 1].position;
    Summary(first, if plan.previous.Some? then plan.previous.value.from else first, last, text)
  }

  /** Two rows may share neither id nor range; the first one stays. */
  predicate Conflicts(a: Summary, b: Summary) {
    a.to == b.to && (a.first == b.first || a.from == b.from)
  }

  function Created(s: Store, summary: Summary): Store {
    if exists x :: x in s.summaries && Conflicts(x, summary) then s
    else s.(summaries := s.summaries + [summary])
  }

  /** The next position exceeds every stored one, by as little as it can. */
  lemma {:induction false} NextIsLeastAbove(messages: seq<Message>)
    ensures var next := NextPosition(messages);
            && (forall m :: m in messages ==> m.position < next)
            && (next == 1 || exists m :: m in messages && m.position + 1 == next)
  {
    if messages != [] {
      var rest, last := messages[..|messages| - 1], messages[|messages| - 1];
      NextIsLeastAbove(rest);
      assert messages == rest + [last] && last in messages;
    }
  }

  class ConversationMemory {
    var store: Store

    constructor ()
      ensures store == Store([], [])
    {
      store := Store([], []);
    }

    method AppendMessage(run: string, text: string) returns (position: nat)
      modifies this
      ensures store.summaries == old(store.summaries)
      ensures store.messages == old(store.messages) + [Message(position, run, text)]
      ensures forall m :: m in old(store.messages) ==> m.position < position
      ensures position == 1 || exists m :: m in old(store.messages) && m.position + 1 == position
      ensures Numbered(old(store.messages)) ==> Numbered(store.messages)
      ensures store == Append(old(store), run, text)
    {
      position := NextPosition(store.messages);
      NextIsLeastAbove(store.messages);
      if Numbered(store.messages) { NextIsLength(store.messages); }
      store := store.(messages := store.messages + [Message(position, run, text)]);
    }

    method PlanSummary(policy: Policy) returns (plan: Option<Plan>)
      ensures plan == Planned(store, policy)
      ensures plan.Some? ==> plan.value.sources != []
    {
      var latest := Latest(store.summaries);
      var history := ListRecent(store.messages, policy.loadLimit);
      var unsummarized := if latest.Some? then After(history, latest.value.to) else history;
      if |unsummarized| < policy.trigger {
        return None;
      }
      var count := |unsummarized| - policy.keep;
      if count <= 0 {
        return None;
      }
      var sources := if count >= |unsummarized| then unsummarized else unsummarized[..count];
      if sources == [] {
        return None;
      }
      plan := Some(Plan(latest, sources));
    }

    method CreateSummary(plan: Plan, text: string)
      requires plan.sources != []
      modifies this
      ensures store == Created(old(store), SummaryOf(plan, text))
    {
      var summary := SummaryOf(plan, text);
      if !exists x :: x in store.summaries && Conflicts(x, summary) {
        store := store.(summaries := store.summaries + [summary]);
      }
    }
  }

  // ---------------------------------------------------------------- runs of the protocol

  /** The store, and the plan whose text is being generated. */
  datatype State = State(store: Store, pending: Option<Plan>)

  const START := State(Store([], []), None)

  /** Messages may arrive while a text is generated; the generator may return anything, fail or be aborted. */
  datatype Step = AppendStep(run: string, text: string) | Begin(policy: Policy) | Finish(text: string) | Abort

  function LatestEnd(s: Store): nat {
    match Latest(s.summaries) case None => 0 case Some(latest) => latest.to
  }

  /** One summary is made at a time, of a session with no more unsummarised messages than one load returns. */
  predicate Allowed(s: State, step: Step) {
    match step
    case Begin(policy) => s.pending.None? && |s.store.messages| - LatestEnd(s.store) <= policy.loadLimit
    case Finish(_) => s.pending.Some? && s.pending.value.sources != []
    case _ => true
  }

  function Take(s: State, step: Step): State
    requires Allowed(s, step)
  {
    match step
    case AppendStep(run, text) => s.(store := Append(s.store, run, text))
    case Begin(policy) => s.(pending := Planned(s.store, policy))
    case Finish(text) => State(Created(s.store, SummaryOf(s.pending.value, text)), None)
    case Abort => s.(pending := None)
  }

  /** Positions count up from 1. */
  ghost predicate Numbered(messages: seq<Message>) {
    forall i :: 0 <= i < |messages| ==> messages[i].position == i + 1
  }

  /** Each summary starts where the one before ends, the first at 1, and its range reaches back to 1. */
  ghost predicate Tiled(summaries: seq<Summary>) {
    && (forall i :: 0 <= i < |summaries| ==> summaries[i].from == 1 && summaries[i].first <= summaries[i].to)
    && (summaries != [] ==> summaries[0].first == 1)
    && (forall i, j :: 0 <= i && j == i + 1 && j < |summaries| ==> summaries[j].first == summaries[i].to + 1)
  }

  /** The plan's sources are the stored messages right after the latest summary, in order. */
  ghost predicate Follows(s: Store, plan: Plan) {
    && plan.previous == Latest(s.summaries)
    && 0 < |plan.sources| <= |s.messages| - LatestEnd(s)
    && forall i :: 0 <= i < |plan.sources| ==> plan.sources[i] == s.messages[LatestEnd(s) + i]
  }

  ghost predicate Inv(s: State) {
    && Numbered(s.store.messages) && Tiled(s.store.summaries)
    && LatestEnd(s.store) <= |s.store.messages|
    && (s.pending.Some? ==> Follows(s.store, s.pending.value))
  }

  lemma {:induction false} NextIsLength(messages: seq<Message>)
    requires Numbered(messages)
    ensures NextPosition(messages) == |messages| + 1
  {
    if messages != [] { NextIsLength(messages[..|messages| - 1]); }
  }

  /** Of tiled summaries the latest is the last, and every other one ends before it. */
  lemma {:induction false} LatestIsLast(summaries: seq<Summary>)
    requires Tiled(summaries) && summaries != []
    ensures Latest(summaries) == Some(summaries[|summaries| - 1])
    ensures forall i :: 0 <= i < |summaries| - 1 ==> summaries[i].to < summaries[|summaries| - 1].first
  {
    var n := |summaries| - 1;
    if n > 0 {
      var before := summaries[..n];
      assert forall i :: 0 <= i < n ==> before[i] == summaries[i];
      LatestIsLast(before);
    }
  }

  lemma {:induction false} AfterIsSuffix(messages: seq<Message>, start: nat, position: nat)
    requires forall i :: 0 <= i < |messages| ==> messages[i].position == start + i + 1
    ensures After(messages, position)
            == if position <= start then messages
               else if position - start >= |messages| then [] else messages[position - start..]
  {
    if messages != [] { AfterIsSuffix(messages[1..], start + 1, position); }
  }

  /** The unsummarised messages loaded are the last ones: all after the latest summary, unless there are more of
    * them than one load returns. */
  lemma UnsummarizedAreLast(s: Store, policy: Policy)
    requires Numbered(s.messages) && LatestEnd(s) <= |s.messages|
    ensures var open := |s.messages| - LatestEnd(s);
            var loaded := if policy.loadLimit <= 0 then 0 else if policy.loadLimit < open then policy.loadLimit else open;
            Unsummarized(s, policy) == s.messages[|s.messages| - loaded..]
  {
    var n, history := |s.messages|, ListRecent(s.messages, policy.loadLimit);
    var start, end := n - |history|, LatestEnd(s);
    assert history == s.messages[start..];
    AfterIsSuffix(history, start, end);
    hide ListRecent, After, Latest, Numbered;
    if start < end { assert s.messages[start..][end - start..] == s.messages[end..]; }
  }

  /** A summary follows on from the one before it exactly when no more messages were open than one load returns;
    * otherwise the oldest open messages enter no summary. */
  lemma NoGapIff(s: Store, policy: Policy)
    requires Numbered(s.messages) && LatestEnd(s) <= |s.messages| && Planned(s, policy).Some?
    ensures var plan := Planned(s, policy).value;
            (plan.sources[0].position == LatestEnd(s) + 1) <==> |s.messages| - LatestEnd(s) <= policy.loadLimit
    ensures |s.messages| - LatestEnd(s) <= policy.loadLimit ==> Follows(s, Planned(s, policy).value)
  {
    UnsummarizedAreLast(s, policy);
  }

  lemma CreatedExtends(s: Store, plan: Plan, text: string)
    requires Tiled(s.summaries) && Numbered(s.messages) && Follows(s, plan) && LatestEnd(s) <= |s.messages|
    ensures var summary := SummaryOf(plan, text);
            && Created(s, summary) == s.(summaries := s.summaries + [summary])
            && summary.first == LatestEnd(s) + 1 && summary.from == 1 && summary.to == LatestEnd(s) + |plan.sources|
            && Tiled(s.summaries + [summary])
  {
    var summary := SummaryOf(plan, text);
    if s.summaries != [] {
      LatestIsLast(s.summaries);
      forall x | x in s.summaries ensures x.to < summary.to && x.from == 1 {
        var i :| 0 <= i < |s.summaries| && s.summaries[i] == x;
      }
    }
  }

  lemma AppendKeeps(s: State, run: string, text: string)
    requires Inv(s)
    ensures Inv(s.(store := Append(s.store, run, text)))
  {
    NextIsLength(s.store.messages);
    hide Tiled, NextPosition, Latest;
  }

  lemma FinishKeeps(s: State, text: string)
    requires Inv(s) && s.pending.Some?
    ensures var s' := State(Created(s.store, SummaryOf(s.pending.value, text)), None);
            Inv(s') && LatestEnd(s.store) <= LatestEnd(s'.store)
  {
    var plan := s.pending.value;
    CreatedExtends(s.store, plan, text);
    LatestIsLast(s.store.summaries + [SummaryOf(plan, text)]);
    hide Tiled, Created, SummaryOf, Numbered, Latest;
  }

  lemma StepKeeps(s: State, step: Step)
    requires Inv(s) && Allowed(s, step)
    ensures Inv(Take(s, step))
    ensures LatestEnd(s.store) <= LatestEnd(Take(s, step).store)
  {
    hide Tiled, Numbered, Follows, Planned, Latest, Created, SummaryOf;
    match step
    case AppendStep(run, text) => AppendKeeps(s, run, text);
    case Begin(policy) => if Planned(s.store, policy).Some? { NoGapIff(s.store, policy); }
    case Finish(text) => FinishKeeps(s, text);
    case Abort =>
  }

  // ---------------------------------------------------------------- the partition

  /** The summary whose sources hold a position. */
  ghost predicate SourceOf(summary: Summary, position: nat) { summary.first <= position <= summary.to }

  /** The sources of the summaries and the messages after the latest one split all positions: each position up to
    * the latest end went into exactly one summary, and the messages after it are exactly the unsummarised ones. */
  lemma PositionsArePartitioned(s: State, policy: Policy, position: nat)
    requires Inv(s) && 1 <= position <= |s.store.messages|
    requires |s.store.messages| - LatestEnd(s.store) <= policy.loadLimit
    ensures position <= LatestEnd(s.store) <==> exists i :: 0 <= i < |s.store.summaries| && SourceOf(s.store.summaries[i], position)
    ensures forall i, j :: 0 <= i < j < |s.store.summaries| ==>
              !(SourceOf(s.store.summaries[i], position) && SourceOf(s.store.summaries[j], position))
    ensures position > LatestEnd(s.store) <==> s.store.messages[position - 1] in Unsummarized(s.store, policy)
  {
    var summaries, end := s.store.summaries, LatestEnd(s.store);
    UnsummarizedAreLast(s.store, policy);
    OpenMembers(s.store, position);
    forall i, j | 0 <= i < j < |summaries| ensures summaries[i].to < summaries[j].first { Apart(summaries, i, j); }
    if summaries != [] {
      LatestIsLast(summaries);
      if position <= end { SomeSource(summaries, position); }
    }
  }

  lemma OpenMembers(s: Store, position: nat)
    requires Numbered(s.messages) && 1 <= position <= |s.messages| && LatestEnd(s) <= |s.messages|
    ensures position > LatestEnd(s) <==> s.messages[position - 1] in s.messages[LatestEnd(s)..]
  {
  }

  lemma {:induction false} Apart(summaries: seq<Summary>, i: nat, j: nat)
    requires Tiled(summaries) && i < j < |summaries|
    ensures summaries[i].to < summaries[j].first
    decreases j
  {
    var k := j - 1;
    assert summaries[j].first == summaries[k].to + 1;
    if i < k { Apart(summaries, i, k); }
  }

  lemma {:induction false} SomeSource(summaries: seq<Summary>, position: nat)
    requires Tiled(summaries) && summaries != [] && 1 <= position <= summaries[|summaries| - 1].to
    ensures exists i :: 0 <= i < |summaries| && SourceOf(summaries[i], position)
  {
    var n := |summaries| - 1;
    if summaries[n].first <= position {
      assert SourceOf(summaries[n], position);
    } else {
      var k := n - 1;
      assert summaries[n].first == summaries[k].to + 1;
      var before := summaries[..n];
      assert forall i :: 0 <= i < n ==> before[i] == summaries[i];
      SomeSource(before, position);
      var i :| 0 <= i < |before| && SourceOf(before[i], position);
      assert SourceOf(summaries[i], position);
    }
  }

  predicate Moves(s: State, step: Step, s': State) { Allowed(s, step) && s' == Take(s, step) }

  /** In every history, whatever texts are generated and whichever generations fail, the partition stands and the
    * summarised range only grows. */
  lemma {:induction false} HistoryKeeps(states: seq<State>, steps: seq<Step>)
    requires |states| == |steps| + 1 && states[0] == START
    requires forall i, j :: 0 <= i < |steps| && j == i + 1 ==> Moves(states[i], steps[i], states[j])
    ensures forall i :: 0 <= i < |states| ==> Inv(states[i])
    ensures forall i, j :: 0 <= i <= j < |states| ==> LatestEnd(states[i].store) <= LatestEnd(states[j].store)
  {
    hide Take, Allowed, Inv, LatestEnd;
    StartIsFine();
    for n := 0 to |steps|
      invariant forall i :: 0 <= i <= n ==> Inv(states[i])
      invariant forall i, j :: 0 <= i <= j <= n ==> LatestEnd(states[i].store) <= LatestEnd(states[j].store)
    {
      var m := n + 1;
      assert Moves(states[n], steps[n], states[m]);
      StepKeeps(states[n], steps[n]);
    }
  }

  lemma StartIsFine()
    ensures Inv(START)
  {
  }

  // ---------------------------------------------------------------- what a flush leaves

  /** A completed run makes no summary exactly when fewer messages are open than the trigger or no more than are
    * to be kept; otherwise, however many messages arrive meanwhile, all but the kept ones are summarised, in one new
    * row that starts after the latest one and holds the generated text. */
  lemma FlushLeaves(s: State, policy: Policy, text: string, arrived: seq<Message>)
    requires Inv(s) && s.pending.None? && Allowed(s, Begin(policy))
    ensures var open := |s.store.messages| - LatestEnd(s.store);
            var plan := Planned(s.store, policy);
            && (plan.None? <==> open < policy.trigger || open <= policy.keep || open == 0)
            && (plan.Some? ==>
                  var later := Created(s.store.(messages := s.store.messages + arrived), SummaryOf(plan.value, text));
                  var kept := if policy.keep > 0 then policy.keep else 0;
                  && plan.value.previous == Latest(s.store.summaries)
                  && plan.value.sources == s.store.messages[LatestEnd(s.store)..|s.store.messages| - kept]
                  && later.summaries
                     == s.store.summaries + [Summary(LatestEnd(s.store) + 1, 1, |s.store.messages| - kept, text)]
                  && |later.messages| - LatestEnd(later) == kept + |arrived|)
  {
    PlannedAre(s.store, policy);
    var plan := Planned(s.store, policy);
    if plan.Some? {
      NoGapIff(s.store, policy);
      assert Tiled(s.store.summaries) && Numbered(s.store.messages) && LatestEnd(s.store) <= |s.store.messages|;
      hide *;
      FlushCreates(s.store, plan.value, text, arrived);
    }
  }

  /** What a plan holds, when it is made. */
  lemma PlannedAre(s: Store, policy: Policy)
    requires Numbered(s.messages) && LatestEnd(s) <= |s.messages| && |s.messages| - LatestEnd(s) <= policy.loadLimit
    ensures var open, kept := |s.messages| - LatestEnd(s), if policy.keep > 0 then policy.keep else 0;
            && (Planned(s, policy).None? <==> open < policy.trigger || open <= policy.keep || open == 0)
            && (Planned(s, policy).Some? ==>
                  Planned(s, policy) == Some(Plan(Latest(s.summaries), s.messages[LatestEnd(s)..|s.messages| - kept])))
  {
    UnsummarizedAreLast(s, policy);
    var end, kept := LatestEnd(s), if policy.keep > 0 then policy.keep else 0;
    assert Unsummarized(s, policy) == s.messages[end..];
    hide Unsummarized, Latest, Numbered;
    if |s.messages| - end > kept { CutBoth(s.messages, end, kept); }
  }

  lemma CutBoth(messages: seq<Message>, start: nat, kept: nat)
    requires start + kept <= |messages|
    ensures messages[start..][..|messages| - start - kept] == messages[start..|messages| - kept]
    ensures messages[start..|messages|] == messages[start..]
  {
  }

  lemma FlushCreates(s: Store, plan: Plan, text: string, arrived: seq<Message>)
    requires Tiled(s.summaries) && Numbered(s.messages) && Follows(s, plan) && LatestEnd(s) <= |s.messages|
    ensures var later := Created(s.(messages := s.messages + arrived), SummaryOf(plan, text));
            var summary := Summary(LatestEnd(s) + 1, 1, LatestEnd(s) + |plan.sources|, text);
            && later.messages == s.messages + arrived && later.summaries == s.summaries + [summary]
            && LatestEnd(later) == summary.to
  {
    CreatedExtends(s, plan, text);
    LatestIsLast(s.summaries + [SummaryOf(plan, text)]);
    CreatedAnyway(s, s.messages + arrived, SummaryOf(plan, text));
    hide Numbered, Tiled, Created, Latest;
  }

  lemma CreatedAnyway(s: Store, messages: seq<Message>, summary: Summary)
    ensures Created(s.(messages := messages), summary) == Created(s, summary).(messages := messages)
  {
  }

  // ---------------------------------------------------------------- the rows

  /** No row reaches further, and no later one as far. */
  ghost predicate Furthest(summaries: seq<Summary>, i: nat) {
    && i < |summaries|
    && (forall j :: 0 <= j < |summaries| ==> summaries[j].to <= summaries[i].to)
    && (forall j :: i < j < |summaries| ==> summaries[j].to < summaries[i].to)
  }

  /** The latest summary reaches furthest, and no later row reaches as far. */
  lemma {:induction false} LatestIsFurthest(summaries: seq<Summary>) returns (i: nat)
    requires summaries != []
    ensures Furthest(summaries, i) && Latest(summaries) == Some(summaries[i])
  {
    var n := |summaries| - 1;
    var before := summaries[..n];
    LatestStep(summaries);
    i := n;
    if n > 0 {
      var k := LatestIsFurthest(before);
      hide Latest;
      assert before[k] == summaries[k];
      if summaries[k].to > summaries[n].to {
        i := k;
      } else {
        forall j | 0 <= j < n ensures summaries[j].to <= summaries[n].to { assert before[j] == summaries[j]; }
      }
    }
  }

  lemma LatestStep(summaries: seq<Summary>)
    requires summaries != []
    ensures var before, last := Latest(summaries[..|summaries| - 1]), summaries[|summaries| - 1];
            Latest(summaries) == if before.Some? && before.value.to > last.to then before else Some(last)
    ensures Latest([]) == None
  {
  }

  /** A row is inserted exactly when no stored one has its id or its range; messages stay as they are. */
  lemma CreatedIff(s: Store, summary: Summary)
    ensures var s' := Created(s, summary);
            && s'.messages == s.messages
            && (s'.summaries == s.summaries + [summary] || s'.summaries == s.summaries)
            && (s'.summaries == s.summaries <==>
                  exists x :: x in s.summaries && x.to == summary.to && (x.first == summary.first || x.from == summary.from))
  {
    if x :| x in s.summaries && x.to == summary.to && (x.first == summary.first || x.from == summary.from) {
      assert Conflicts(x, summary);
    }
    assert |s.summaries + [summary]| != |s.summaries|;
  }
}
