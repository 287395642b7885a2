/** The per-run scheduler that cuts a run's event log into summarised trace sections.
  *
  * One run is a record of everything the coordinator and its store hold for it, and every
  * atomic piece of the coordinator (the code between two suspension points) is one step on
  * that record.  The summariser's answer is an argument, so every statement below holds for
  * any answer.  Class `TraceSectionCoordinator` keeps the maps and sets of the program and
  * is proved to perform exactly these steps on the run it is called for. */
module TraceSections {
  import opened Options

  type RunId = string

  const CONTEXT_STEPS_PER_SECTION_CHECK: nat := 3
  const MAX_CONTEXT_STEPS_PER_SUMMARY_CHUNK: nat := 3
  const MAX_CONTEXT_STEPS_PER_SECTION: nat := 16

  datatype Event = ContextCompiled(checkpointed: bool) | RunEnded | OtherEvent

  datatype PendingSummary = PendingSummary(endEventSeq: nat, forceCompletion: bool)

  datatype Summary = Summary(phaseKey: string, title: string, text: string)

  datatype SectionStatus = InProgress | Completed

  /** A stored section; `id` is the event number its identifier was minted from. */
  datatype Section = Section(id: nat, start: nat, end: nat, status: SectionStatus, summary: Summary)

  /** What `summarizeRange` holds in local variables while the summariser is answering. */
  datatype Snapshot = Snapshot(
    start: nat, end: nat, latest: Option<Section>, contexts: seq<nat>, checkpoints: seq<nat>)

  /** Where a run's worker is suspended: inside the summariser call, or on the result of `summarizeRange`. */
  datatype Worker =
    | Awaiting(request: PendingSummary, snapshot: Snapshot)
    | Returned(request: PendingSummary, consumed: nat)

  /** Everything held for one run.  `scheduled` and `lastEnded` are history: the greatest end ever
    * scheduled and the number of the last run-ending event. */
  datatype Run = Run(
    events: nat,
    checkpoints: seq<nat>,
    sections: seq<Section>,
    pending: Option<PendingSummary>,
    processing: bool,
    worker: Option<Worker>,
    microtasks: nat,
    scheduled: nat,
    lastEnded: nat)

  const EMPTY_RUN := Run(0, [], [], None, false, None, 0, 0, 0)

  function Max(a: nat, b: nat): nat { if a < b then b else a }

  /** The checkpoints whose event lies between `lo` and `hi`, in order. */
  function Within(cs: seq<nat>, lo: nat, hi: nat): seq<nat> {
    if cs == [] then []
    else
      var rest := Within(cs[..|cs| - 1], lo, hi);
      if lo <= cs[|cs| - 1] <= hi then rest + [cs[|cs| - 1]] else rest
  }

  function LastEnd(sections: seq<Section>): nat {
    if sections == [] then 0 else sections[|sections| - 1].end
  }

  function Latest(sections: seq<Section>): Option<Section> {
    if sections == [] then None else Some(sections[|sections| - 1])
  }

  // ---------------------------------------------------------------- the section table

  /** Where a new row is listed: rows come back ordered by their first event. */
  function InsertByStart(sections: seq<Section>, row: Section): seq<Section> {
    if sections == [] then [row]
    else if row.start < sections[|sections| - 1].start then
      InsertByStart(sections[..|sections| - 1], row) + [sections[|sections| - 1]]
    else sections + [row]
  }

  /** An upsert: a row with a known identifier keeps its identifier and first event. */
  function Upsert(sections: seq<Section>, row: Section): seq<Section> {
    if exists i :: 0 <= i < |sections| && sections[i].id == row.id
    then seq(|sections|, i requires 0 <= i < |sections| =>
               if sections[i].id == row.id then row.(id := sections[i].id, start := sections[i].start)
               else sections[i])
    else InsertByStart(sections, row)
  }

  // ---------------------------------------------------------------- the steps

  function Schedule(r: Run, seqNo: nat, force: bool): Run {
    var merged := match r.pending
      case None => PendingSummary(seqNo, force)
      case Some(p) => PendingSummary(Max(p.endEventSeq, seqNo), p.forceCompletion || force);
    r.(pending := Some(merged),
       microtasks := if r.processing then r.microtasks else r.microtasks + 1,
       scheduled := Max(r.scheduled, seqNo),
       lastEnded := if force then seqNo else r.lastEnded)
  }

  /** The event is in the log and its checkpoint recorded, before the coordinator looks at it. */
  function Logged(r: Run, e: Event): Run {
    r.(events := r.events + 1,
       checkpoints := if e == ContextCompiled(true) then r.checkpoints + [r.events + 1] else r.checkpoints)
  }

  /** The coordinator sees the event just logged. */
  function Noticed(r: Run, e: Event): Run {
    match e
    case ContextCompiled(_) =>
      if |r.checkpoints| >= CONTEXT_STEPS_PER_SECTION_CHECK
         && |r.checkpoints| % CONTEXT_STEPS_PER_SECTION_CHECK == 0
      then Schedule(r, r.events, false) else r
    case RunEnded => Schedule(r, r.events, true)
    case OtherEvent => r
  }

  function Observe(r: Run, e: Event): Run { Noticed(Logged(r, e), e) }

  /** The part of `summarizeRange` before the summariser is asked. */
  function BeginSummary(r: Run, p: PendingSummary): Run {
    var latest := Latest(r.sections);
    var start := LastEnd(r.sections) + 1;
    if p.endEventSeq < start then r.(worker := Some(Returned(p, p.endEventSeq)))
    else
      var contexts := Within(r.checkpoints, start, p.endEventSeq);
      var chunked := |contexts| > MAX_CONTEXT_STEPS_PER_SUMMARY_CHUNK;
      if !chunked && !p.forceCompletion then r.(worker := Some(Returned(p, p.endEventSeq)))
      else
        var end := if chunked then Before(contexts[MAX_CONTEXT_STEPS_PER_SUMMARY_CHUNK]) else p.endEventSeq;
        if |contexts| == 0 && p.forceCompletion && latest.Some? then
          r.(sections := Upsert(r.sections, latest.value.(end := p.endEventSeq, status := Completed)),
             worker := Some(Returned(p, p.endEventSeq)))
        else if end < start || r.events < start then r.(worker := Some(Returned(p, end)))
        else r.(worker := Some(Awaiting(p, Snapshot(start, end, latest, contexts, r.checkpoints))))
  }

  function Before(seqNo: nat): nat { if seqNo == 0 then 0 else seqNo - 1 }

  /** Whether the summary continues the latest section, as decided from the snapshot. */
  predicate Merges(s: Snapshot, summary: Summary) {
    && s.latest.Some?
    && s.latest.value.summary.phaseKey == summary.phaseKey
    && |Within(s.checkpoints, s.latest.value.start, s.latest.value.end)| + |Within(s.contexts, 0, s.end)|
       <= MAX_CONTEXT_STEPS_PER_SECTION
  }

  /** The part of `summarizeRange` after the summariser answered. */
  function FinishSummary(r: Run, summary: Summary): Run
    requires r.worker.Some? && r.worker.value.Awaiting?
  {
    var s := r.worker.value.snapshot;
    var p := r.worker.value.request;
    var merges := Merges(s, summary);
    var closed := if s.latest.Some? && s.latest.value.status == InProgress && !merges
                  then Upsert(r.sections, s.latest.value.(status := Completed)) else r.sections;
    var row := Section(
      if merges then s.latest.value.id else s.start,
      if merges then s.latest.value.start else s.start,
      s.end,
      if p.forceCompletion && s.end == p.endEventSeq then Completed else InProgress,
      summary);
    r.(sections := Upsert(closed, row), worker := Some(Returned(p, s.end)))
  }

  /** One turn of the drain loop: take the queued request, or leave and release the run. */
  function TakePending(r: Run): Run {
    match r.pending
    case None => r.(processing := false, worker := None)
    case Some(p) => BeginSummary(r.(pending := None), p)
  }

  /** A queued microtask starts `processRun`. */
  function StartMicrotask(r: Run): Run
    requires r.microtasks > 0
  {
    var started := r.(microtasks := r.microtasks - 1);
    if r.processing then started else TakePending(started.(processing := true))
  }

  /** The worker picks up the result of `summarizeRange` and goes round its loop. */
  function Resume(r: Run): Run
    requires r.worker.Some? && r.worker.value.Returned?
  {
    var p := r.worker.value.request;
    if r.worker.value.consumed < p.endEventSeq then
      var queuedEnd := if r.pending.Some? then r.pending.value.endEventSeq else 0;
      var queuedForce := r.pending.Some? && r.pending.value.forceCompletion;
      TakePending(r.(pending := Some(PendingSummary(Max(p.endEventSeq, queuedEnd),
                                                    p.forceCompletion || queuedForce))))
    else TakePending(r)
  }

  datatype Step = SeeEvent(event: Event) | RunMicrotask | SummaryArrives(summary: Summary) | WorkerResumes

  predicate Enabled(r: Run, step: Step) {
    && (step.RunMicrotask? ==> r.microtasks > 0)
    && (step.SummaryArrives? ==> r.worker.Some? && r.worker.value.Awaiting?)
    && (step.WorkerResumes? ==> r.worker.Some? && r.worker.value.Returned?)
  }

  function Apply(r: Run, step: Step): Run
    requires Enabled(r, step)
  {
    match step
    case SeeEvent(e) => Observe(r, e)
    case RunMicrotask => StartMicrotask(r)
    case SummaryArrives(summary) => FinishSummary(r, summary)
    case WorkerResumes => Resume(r)
  }

  /** `trace` can be taken from `r`, one enabled step after the other, and ends in `final`. */
  ghost predicate Leads(r: Run, trace: seq<Step>, final: Run)
    decreases trace
  {
    if trace == [] then final == r
    else Enabled(r, trace[0]) && Leads(Apply(r, trace[0]), trace[1..], final)
  }

  ghost predicate Idle(r: Run) {
    r.pending.None? && r.worker.None? && r.microtasks == 0
  }

  // ---------------------------------------------------------------- the invariant

  ghost predicate Increasing(cs: seq<nat>, limit: nat) {
    && (forall i :: 0 <= i < |cs| ==> 1 <= cs[i] <= limit)
    && (forall i, j :: 0 <= i < j < |cs| ==> cs[i] < cs[j])
  }

  /** The sections cover 1..LastEnd end to end, in order, each with at most sixteen context
    * checkpoints, and only the last may still be in progress. */
  ghost predicate Tiles(sections: seq<Section>, cs: seq<nat>) {
    && (forall i :: 0 <= i < |sections| ==> sections[i].id == sections[i].start <= sections[i].end)
    && (sections != [] ==> sections[0].start == 1)
    && (forall i, j :: 0 <= i && j == i + 1 < |sections| ==> sections[j].start == sections[i].end + 1)
    && (forall i :: 0 <= i < |sections| - 1 ==> sections[i].status == Completed)
    && (forall i :: 0 <= i < |sections| ==>
          |Within(cs, sections[i].start, sections[i].end)| <= MAX_CONTEXT_STEPS_PER_SECTION)
  }

  ghost predicate SnapshotOk(r: Run, p: PendingSummary, s: Snapshot) {
    && s.start == LastEnd(r.sections) + 1 <= s.end <= p.endEventSeq
    && s.latest == Latest(r.sections)
    && s.checkpoints <= r.checkpoints
    && (forall i :: |s.checkpoints| <= i < |r.checkpoints| ==> p.endEventSeq < r.checkpoints[i])
    && s.contexts == Within(s.checkpoints, s.start, p.endEventSeq)
    && |Within(s.checkpoints, s.start, s.end)| <= MAX_CONTEXT_STEPS_PER_SUMMARY_CHUNK
    && (s.end == p.endEventSeq ==> p.forceCompletion)
  }

  ghost predicate WorkerOk(r: Run) {
    r.worker.Some? ==>
      var w := r.worker.value;
      && 1 <= w.request.endEventSeq <= r.scheduled
      && (r.pending.Some? ==> w.request.endEventSeq < r.pending.value.endEventSeq)
      && (w.Awaiting? ==> SnapshotOk(r, w.request, w.snapshot))
      && (w.Returned? ==> w.consumed <= w.request.endEventSeq)
      && (w.Returned? && w.consumed < w.request.endEventSeq ==> w.consumed == LastEnd(r.sections))
  }

  /** The worker still owes work for its request. */
  ghost predicate Busy(r: Run) {
    r.worker.Some? && (r.worker.value.Awaiting? || r.worker.value.consumed < r.worker.value.request.endEventSeq)
  }

  /** Few enough unsummarised checkpoints that no chunk is due up to `end`. */
  ghost predicate Drained(r: Run, end: nat) {
    |Within(r.checkpoints, LastEnd(r.sections) + 1, end)| <= MAX_CONTEXT_STEPS_PER_SUMMARY_CHUNK
  }

  /** Every scheduled end is drained or still held by the queue or the worker. */
  ghost predicate NothingLost(r: Run) {
    || (r.pending.Some? && r.pending.value.endEventSeq == r.scheduled)
    || (Busy(r) && r.worker.value.request.endEventSeq == r.scheduled)
    || Drained(r, r.scheduled)
  }

  /** The sections reach event `end` and, when they stop there, are all completed. */
  ghost predicate Settled(r: Run, end: nat) {
    end == 0 || (&& end <= LastEnd(r.sections)
                 && (end == LastEnd(r.sections) ==> r.sections[|r.sections| - 1].status == Completed))
  }

  /** The last run-ending event is settled or its force flag is still held. */
  ghost predicate ForceKept(r: Run) {
    || (r.pending.Some? && r.pending.value.forceCompletion && r.lastEnded <= r.pending.value.endEventSeq)
    || (Busy(r) && r.worker.value.request.forceCompletion && r.lastEnded <= r.worker.value.request.endEventSeq)
    || Settled(r, r.lastEnded)
  }

  ghost predicate Core(r: Run) {
    && Increasing(r.checkpoints, r.events)
    && Tiles(r.sections, r.checkpoints)
    && LastEnd(r.sections) <= r.scheduled <= r.events
    && r.lastEnded <= r.scheduled
    && |Within(r.checkpoints, r.scheduled + 1, r.events)| <= |r.checkpoints| % CONTEXT_STEPS_PER_SECTION_CHECK
  }

  /** What the worker owes when it takes request `p` off the queue. */
  ghost predicate Owed(r: Run, p: PendingSummary) {
    && LastEnd(r.sections) < p.endEventSeq <= r.scheduled
    && (p.endEventSeq == r.scheduled || Drained(r, r.scheduled))
    && ((p.forceCompletion && r.lastEnded <= p.endEventSeq) || Settled(r, r.lastEnded))
  }

  ghost predicate Inv(r: Run) {
    && Core(r)
    && (r.processing <==> r.worker.Some?)
    && (r.pending.Some? && !r.processing ==> r.microtasks > 0)
    && (r.pending.Some? ==> LastEnd(r.sections) < r.pending.value.endEventSeq <= r.scheduled)
    && WorkerOk(r)
    && NothingLost(r)
    && ForceKept(r)
  }

  // ---------------------------------------------------------------- counting checkpoints

  lemma WithinAppend(cs: seq<nat>, c: nat, lo: nat, hi: nat)
    ensures Within(cs + [c], lo, hi) == Within(cs, lo, hi) + (if lo <= c <= hi then [c] else [])
  {
  }

  lemma {:induction false} WithinEmpty(cs: seq<nat>, lo: nat, hi: nat)
    requires hi < lo
    ensures Within(cs, lo, hi) == []
  {
    if cs != [] { WithinEmpty(cs[..|cs| - 1], lo, hi); }
  }

  lemma {:induction false} WithinSplit(cs: seq<nat>, lo: nat, mid: nat, hi: nat)
    requires lo <= mid + 1 && mid <= hi
    ensures |Within(cs, lo, hi)| == |Within(cs, lo, mid)| + |Within(cs, mid + 1, hi)|
  {
    if cs != [] { WithinSplit(cs[..|cs| - 1], lo, mid, hi); }
  }

  /** Later checkpoints beyond `hi` do not change what lies up to `hi`. */
  lemma {:induction false} WithinPrefixOf(cs: seq<nat>, more: seq<nat>, lo: nat, hi: nat)
    requires cs <= more
    requires forall i :: |cs| <= i < |more| ==> hi < more[i]
    ensures Within(more, lo, hi) == Within(cs, lo, hi)
    decreases |more|
  {
    if |cs| < |more| {
      WithinPrefixOf(cs, more[..|more| - 1], lo, hi);
    } else {
      assert cs == more;
    }
  }

  /** Cutting at the k-th element: exactly the k before it remain. */
  lemma {:induction false} WithinCut(cs: seq<nat>, limit: nat, lo: nat, hi: nat, k: nat)
    requires Increasing(cs, limit) && k < |Within(cs, lo, hi)|
    ensures lo <= Within(cs, lo, hi)[k] <= hi && Within(cs, lo, hi)[k] in cs
    ensures k > 0 ==> lo < Within(cs, lo, hi)[k]
    ensures 1 <= Within(cs, lo, hi)[k]
    ensures Within(cs, lo, Within(cs, lo, hi)[k] - 1) == Within(cs, lo, hi)[..k]
  {
    var front, c := cs[..|cs| - 1], cs[|cs| - 1];
    var rest := Within(front, lo, hi);
    if k < |rest| {
      WithinCut(front, limit, lo, hi, k);
    } else {
      WithinAgree(front, lo, hi, c - 1);
      if k > 0 { WithinCut(front, limit, lo, hi, k - 1); }
    }
  }

  lemma {:induction false} WithinAgree(cs: seq<nat>, lo: nat, hi: nat, hi': nat)
    requires forall i :: 0 <= i < |cs| ==> cs[i] <= hi && cs[i] <= hi'
    ensures Within(cs, lo, hi) == Within(cs, lo, hi')
  {
    if cs != [] { WithinAgree(cs[..|cs| - 1], lo, hi, hi'); }
  }

  /** Filtering the filtered list again, as `summarizeRange` does, counts the same checkpoints. */
  lemma {:induction false} WithinTwice(cs: seq<nat>, lo: nat, hi: nat, end: nat)
    requires end <= hi
    ensures Within(Within(cs, lo, hi), 0, end) == Within(cs, lo, end)
  {
    if cs != [] {
      WithinTwice(cs[..|cs| - 1], lo, hi, end);
      WithinAppend(Within(cs[..|cs| - 1], lo, hi), cs[|cs| - 1], 0, end);
    }
  }

  // ---------------------------------------------------------------- writing sections

  lemma {:induction false} SectionsOrdered(sections: seq<Section>, cs: seq<nat>, i: nat, j: nat)
    requires Tiles(sections, cs) && i < j < |sections|
    ensures sections[i].end < sections[j].start
    decreases j
  {
    if i < j - 1 { SectionsOrdered(sections, cs, i, j - 1); }
  }

  lemma UpsertLast(sections: seq<Section>, cs: seq<nat>, row: Section)
    requires Tiles(sections, cs) && sections != []
    requires row.id == row.start == sections[|sections| - 1].id
    ensures Upsert(sections, row) == sections[..|sections| - 1] + [row]
  {
    forall i | 0 <= i < |sections| - 1 ensures sections[i].id < row.id {
      SectionsOrdered(sections, cs, i, |sections| - 1);
    }
    assert sections[|sections| - 1].id == row.id;
  }

  lemma UpsertNew(sections: seq<Section>, cs: seq<nat>, row: Section)
    requires Tiles(sections, cs)
    requires row.id == row.start == LastEnd(sections) + 1
    ensures Upsert(sections, row) == sections + [row]
  {
    forall i | 0 <= i < |sections| ensures sections[i].id < row.id {
      if i < |sections| - 1 { SectionsOrdered(sections, cs, i, |sections| - 1); }
    }
  }

  /** Ending the sections at a later event keeps what was drained and settles more. */
  lemma Advances(r: Run, r': Run, end: nat)
    requires LastEnd(r.sections) < LastEnd(r'.sections) == end <= r.scheduled == r'.scheduled
    requires r.checkpoints == r'.checkpoints && r.lastEnded == r'.lastEnded
    ensures Drained(r, r.scheduled) || end == r.scheduled ==> Drained(r', r.scheduled)
    ensures Settled(r, r.lastEnded) ==> Settled(r', r.lastEnded)
  {
    WithinSplit(r.checkpoints, LastEnd(r.sections) + 1, end, r.scheduled);
    if end == r.scheduled { WithinEmpty(r.checkpoints, end + 1, end); }
  }

  // ---------------------------------------------------------------- every step keeps the invariant

  lemma TilesUnder(sections: seq<Section>, cs: seq<nat>, more: seq<nat>)
    requires Tiles(sections, cs) && cs <= more
    requires forall i :: |cs| <= i < |more| ==> LastEnd(sections) < more[i]
    ensures Tiles(sections, more)
  {
    forall i | 0 <= i < |sections|
      ensures |Within(more, sections[i].start, sections[i].end)| <= MAX_CONTEXT_STEPS_PER_SECTION
    {
      if i < |sections| - 1 { SectionsOrdered(sections, cs, i, |sections| - 1); }
      WithinPrefixOf(cs, more, sections[i].start, sections[i].end);
    }
  }

  lemma LastTile(sections: seq<Section>, cs: seq<nat>)
    requires Tiles(sections, cs) && sections != []
    ensures var last := sections[|sections| - 1];
            && last.id == last.start <= last.end
            && |Within(cs, last.start, last.end)| <= MAX_CONTEXT_STEPS_PER_SECTION
  {
  }

  /** Replacing the last section by one that reaches further. */
  lemma TilesExtended(sections: seq<Section>, cs: seq<nat>, row: Section)
    requires Tiles(sections, cs) && sections != []
    requires row.id == row.start == sections[|sections| - 1].start
    requires row.start <= row.end && |Within(cs, row.start, row.end)| <= MAX_CONTEXT_STEPS_PER_SECTION
    ensures Tiles(sections[..|sections| - 1] + [row], cs)
  {
  }

  lemma TilesAdded(sections: seq<Section>, cs: seq<nat>, row: Section)
    requires Tiles(sections, cs) && (sections != [] ==> sections[|sections| - 1].status == Completed)
    requires row.id == row.start == LastEnd(sections) + 1 <= row.end
    requires |Within(cs, row.start, row.end)| <= MAX_CONTEXT_STEPS_PER_SECTION
    ensures Tiles(sections + [row], cs)
  {
  }

  lemma LoggedKeeps(r: Run, e: Event)
    requires Inv(r)
    ensures var l := Logged(r, e);
            Increasing(l.checkpoints, l.events) && Tiles(l.sections, l.checkpoints) && WorkerOk(l)
            && NothingLost(l) && ForceKept(l)
  {
    hide Within;
    var l := Logged(r, e);
    TilesUnder(r.sections, r.checkpoints, l.checkpoints);
    if Drained(r, r.scheduled) {
      WithinPrefixOf(r.checkpoints, l.checkpoints, LastEnd(r.sections) + 1, r.scheduled);
    }
  }

  lemma BeyondScheduled(r: Run, e: Event)
    requires Inv(r)
    ensures var l := Logged(r, e);
            |Within(l.checkpoints, r.scheduled + 1, l.events)|
            == |Within(r.checkpoints, r.scheduled + 1, r.events)| + |l.checkpoints| - |r.checkpoints|
  {
    WithinAppend(r.checkpoints, r.events + 1, r.scheduled + 1, r.events + 1);
    WithinAgree(r.checkpoints, r.scheduled + 1, r.events, r.events + 1);
  }

  lemma ScheduleKeeps(l: Run, force: bool)
    requires Increasing(l.checkpoints, l.events) && Tiles(l.sections, l.checkpoints) && WorkerOk(l)
    requires l.scheduled < l.events && LastEnd(l.sections) <= l.scheduled && l.lastEnded <= l.scheduled
    requires l.processing <==> l.worker.Some?
    requires l.pending.Some? ==> LastEnd(l.sections) < l.pending.value.endEventSeq <= l.scheduled
    requires ForceKept(l)
    ensures Inv(Schedule(l, l.events, force))
  {
    WithinEmpty(l.checkpoints, l.events + 1, l.events);
    var r := Schedule(l, l.events, force);
    assert WorkerOk(r);
    assert r.pending.value.endEventSeq == r.scheduled;
    assert ForceKept(r);
  }

  lemma ObserveKeeps(r: Run, e: Event)
    requires Inv(r)
    ensures Inv(Observe(r, e))
  {
    hide Within, Tiles, WorkerOk, NothingLost, Increasing;
    LoggedKeeps(r, e);
    BeyondScheduled(r, e);
    var l := Logged(r, e);
    if Observe(r, e) != l {
      ScheduleKeeps(l, e.RunEnded?);
      assert Observe(r, e) == Schedule(l, l.events, e.RunEnded?);
    } else {
      assert Core(l);
    }
  }

  /** Leaving the sections alone: nothing was due, or the request forced nothing. */
  lemma NothingDueKeeps(r: Run, p: PendingSummary)
    requires Core(r) && r.processing && r.pending.None? && Owed(r, p) && !p.forceCompletion
    requires Drained(r, p.endEventSeq)
    ensures Inv(r.(worker := Some(Returned(p, p.endEventSeq))))
  {
  }

  /** A forced request without new checkpoints completes the latest section up to its end. */
  lemma ExtendLatestKeeps(r: Run, p: PendingSummary)
    requires Core(r) && r.processing && r.pending.None? && Owed(r, p) && p.forceCompletion && r.sections != []
    requires Within(r.checkpoints, LastEnd(r.sections) + 1, p.endEventSeq) == []
    ensures var row := r.sections[|r.sections| - 1].(end := p.endEventSeq, status := Completed);
            Inv(r.(sections := Upsert(r.sections, row), worker := Some(Returned(p, p.endEventSeq))))
  {
    var latest := r.sections[|r.sections| - 1];
    var row := latest.(end := p.endEventSeq, status := Completed);
    UpsertLast(r.sections, r.checkpoints, row);
    WithinSplit(r.checkpoints, latest.start, latest.end, p.endEventSeq);
    TilesExtended(r.sections, r.checkpoints, row);
    var r' := r.(sections := Upsert(r.sections, row), worker := Some(Returned(p, p.endEventSeq)));
    Advances(r, r', p.endEventSeq);
  }

  /** Asking the summariser about a well-chosen range. */
  lemma AskKeeps(r: Run, p: PendingSummary, end: nat)
    requires Core(r) && r.processing && r.pending.None? && Owed(r, p)
    requires LastEnd(r.sections) < end <= p.endEventSeq
    requires end == p.endEventSeq ==> p.forceCompletion
    requires |Within(r.checkpoints, LastEnd(r.sections) + 1, end)| <= MAX_CONTEXT_STEPS_PER_SUMMARY_CHUNK
    ensures Inv(r.(worker := Some(Awaiting(p, Snapshot(
              LastEnd(r.sections) + 1, end, Latest(r.sections),
              Within(r.checkpoints, LastEnd(r.sections) + 1, p.endEventSeq), r.checkpoints)))))
  {
  }

  lemma BeginSummaryKeeps(r: Run, p: PendingSummary)
    requires Core(r) && r.processing && r.pending.None? && Owed(r, p)
    ensures Inv(BeginSummary(r, p))
    ensures BeginSummary(r, p).worker.Some? && BeginSummary(r, p).worker.value.request == p
    ensures var w := BeginSummary(r, p).worker.value; w.Returned? ==> w.consumed == p.endEventSeq
  {
    hide Within, Upsert, Tiles, WorkerOk, NothingLost, ForceKept;
    var start := LastEnd(r.sections) + 1;
    var contexts := Within(r.checkpoints, start, p.endEventSeq);
    if |contexts| > MAX_CONTEXT_STEPS_PER_SUMMARY_CHUNK {
      WithinCut(r.checkpoints, r.events, start, p.endEventSeq, MAX_CONTEXT_STEPS_PER_SUMMARY_CHUNK);
      AskKeeps(r, p, Before(contexts[MAX_CONTEXT_STEPS_PER_SUMMARY_CHUNK]));
    } else if !p.forceCompletion {
      NothingDueKeeps(r, p);
    } else if contexts == [] && r.sections != [] {
      ExtendLatestKeeps(r, p);
    } else {
      AskKeeps(r, p, p.endEventSeq);
    }
  }

  lemma TakePendingKeeps(r: Run)
    requires Core(r) && r.processing
    requires r.pending.Some? ==> Owed(r, r.pending.value)
    requires r.pending.None? ==> Drained(r, r.scheduled) && Settled(r, r.lastEnded)
    ensures Inv(TakePending(r))
  {
    if r.pending.Some? {
      BeginSummaryKeeps(r.(pending := None), r.pending.value);
    }
  }

  /** The section list keeps every finished row and the identity of the one that was last. */
  ghost predicate Continues(before: seq<Section>, after: seq<Section>) {
    && |before| <= |after| <= |before| + 1
    && (forall i :: 0 <= i < |before| - 1 ==> after[i] == before[i])
    && (before != [] ==> after[|before| - 1].start == before[|before| - 1].start
                         && after[|before| - 1].id == before[|before| - 1].id)
  }

  lemma MergedTiles(sections: seq<Section>, cs: seq<nat>, row: Section)
    requires Tiles(sections, cs) && sections != []
    requires row.id == sections[|sections| - 1].id && row.start == sections[|sections| - 1].start
    requires LastEnd(sections) <= row.end
    requires |Within(cs, row.start, LastEnd(sections))| + |Within(cs, LastEnd(sections) + 1, row.end)|
             <= MAX_CONTEXT_STEPS_PER_SECTION
    ensures Upsert(sections, row) == sections[..|sections| - 1] + [row]
    ensures Tiles(Upsert(sections, row), cs) && Continues(sections, Upsert(sections, row))
  {
    hide Within, Upsert;
    LastTile(sections, cs);
    WithinSplit(cs, row.start, LastEnd(sections), row.end);
    UpsertLast(sections, cs, row);
    TilesExtended(sections, cs, row);
  }

  lemma AppendedTiles(sections: seq<Section>, cs: seq<nat>, row: Section)
    requires Tiles(sections, cs) && (sections != [] ==> sections[|sections| - 1].status == Completed)
    requires row.id == row.start == LastEnd(sections) + 1 <= row.end
    requires |Within(cs, row.start, row.end)| <= MAX_CONTEXT_STEPS_PER_SECTION
    ensures Upsert(sections, row) == sections + [row]
    ensures Tiles(Upsert(sections, row), cs)
  {
    hide Within, Upsert;
    UpsertNew(sections, cs, row);
    TilesAdded(sections, cs, row);
  }

  lemma ClosedTiles(sections: seq<Section>, cs: seq<nat>)
    requires Tiles(sections, cs) && sections != []
    ensures var closed := Upsert(sections, sections[|sections| - 1].(status := Completed));
            Tiles(closed, cs) && LastEnd(closed) == LastEnd(sections) && closed != []
            && closed[|closed| - 1].status == Completed && Continues(sections, closed) && |closed| == |sections|
  {
    hide Within, Upsert;
    LastTile(sections, cs);
    UpsertLast(sections, cs, sections[|sections| - 1].(status := Completed));
    TilesExtended(sections, cs, sections[|sections| - 1].(status := Completed));
  }

  /** What the counts in the snapshot say about the checkpoints stored now. */
  lemma SnapshotCounts(r: Run)
    requires Core(r) && WorkerOk(r) && r.worker.Some? && r.worker.value.Awaiting?
    ensures var s := r.worker.value.snapshot;
            && Within(s.contexts, 0, s.end) == Within(r.checkpoints, s.start, s.end)
            && |Within(r.checkpoints, s.start, s.end)| <= MAX_CONTEXT_STEPS_PER_SUMMARY_CHUNK
            && (r.sections != [] ==>
                 var last := r.sections[|r.sections| - 1];
                 Within(s.checkpoints, last.start, last.end) == Within(r.checkpoints, last.start, last.end))
  {
    hide Within, Tiles;
    var p, s := r.worker.value.request, r.worker.value.snapshot;
    WithinPrefixOf(s.checkpoints, r.checkpoints, s.start, s.end);
    WithinTwice(s.checkpoints, s.start, p.endEventSeq, s.end);
    if r.sections != [] {
      var last := r.sections[|r.sections| - 1];
      WithinPrefixOf(s.checkpoints, r.checkpoints, last.start, last.end);
    }
  }

  /** The rows written once the summariser answered: the range is appended or merged. */
  lemma FinishSummaryTiles(r: Run, summary: Summary)
    requires Core(r) && WorkerOk(r) && r.worker.Some? && r.worker.value.Awaiting?
    ensures var s, r' := r.worker.value.snapshot, FinishSummary(r, summary);
            && Tiles(r'.sections, r.checkpoints)
            && r'.sections != [] && LastEnd(r'.sections) == s.end
            && (s.end == r.worker.value.request.endEventSeq ==> r'.sections[|r'.sections| - 1].status == Completed)
            && Continues(r.sections, r'.sections)
  {
    hide Within, Upsert, Tiles;
    var p, s := r.worker.value.request, r.worker.value.snapshot;
    var status := if p.forceCompletion && s.end == p.endEventSeq then Completed else InProgress;
    SnapshotCounts(r);
    if r.sections != [] { LastTile(r.sections, r.checkpoints); }
    if Merges(s, summary) {
      MergedTiles(r.sections, r.checkpoints, Section(s.latest.value.id, s.latest.value.start, s.end, status, summary));
    } else {
      var row := Section(s.start, s.start, s.end, status, summary);
      if s.latest.Some? && s.latest.value.status == InProgress {
        ClosedTiles(r.sections, r.checkpoints);
        AppendedTiles(Upsert(r.sections, s.latest.value.(status := Completed)), r.checkpoints, row);
      } else {
        AppendedTiles(r.sections, r.checkpoints, row);
      }
    }
  }

  lemma FinishSummaryKeeps(r: Run, summary: Summary)
    requires Inv(r) && r.worker.Some? && r.worker.value.Awaiting?
    ensures Inv(FinishSummary(r, summary))
    ensures LastEnd(FinishSummary(r, summary).sections) == r.worker.value.snapshot.end
  {
    FinishSummaryTiles(r, summary);
    FinishOnly(r, summary);
    var r', end := FinishSummary(r, summary), r.worker.value.snapshot.end;
    assert Finished(r, r', end) by { hide FinishSummary, Tiles, Within, Continues, NothingLost, ForceKept; }
    hide *;
    FinishedCore(r, r', end);
    FinishedOwes(r, r', end);
    FinishedInv(r, r', end);
  }

  /** The rows now end at `end`, and the worker holds that result. */
  ghost predicate Finished(r: Run, r': Run, end: nat) {
    && r.worker.Some? && r.worker.value.Awaiting?
    && r' == r.(sections := r'.sections, worker := Some(Returned(r.worker.value.request, end)))
    && Tiles(r'.sections, r.checkpoints) && r'.sections != [] && LastEnd(r'.sections) == end
    && LastEnd(r.sections) < end <= r.worker.value.request.endEventSeq <= r.scheduled
    && (end == r.worker.value.request.endEventSeq ==> r'.sections[|r'.sections| - 1].status == Completed)
  }

  lemma FinishedCore(r: Run, r': Run, end: nat)
    requires Inv(r) && Finished(r, r', end)
    ensures Core(r') && WorkerOk(r')
  {
    hide Within, Tiles, NothingLost, ForceKept, Increasing;
  }

  lemma FinishedOwes(r: Run, r': Run, end: nat)
    requires Inv(r) && Finished(r, r', end)
    ensures NothingLost(r') && ForceKept(r')
  {
    hide Within, Tiles, Core, WorkerOk;
    Advances(r, r', end);
  }

  lemma FinishedInv(r: Run, r': Run, end: nat)
    requires Inv(r) && Finished(r, r', end)
    requires Core(r') && WorkerOk(r') && NothingLost(r') && ForceKept(r')
    ensures Inv(r') && LastEnd(r'.sections) == end
  {
    hide Within, Tiles, Core, NothingLost, ForceKept;
  }

  lemma FinishOnly(r: Run, summary: Summary)
    requires r.worker.Some? && r.worker.value.Awaiting?
    ensures var (w, r') := (r.worker.value, FinishSummary(r, summary));
            r' == r.(sections := r'.sections, worker := Some(Returned(w.request, w.snapshot.end)))
  {
    hide Upsert, Merges;
  }

  lemma ResumeKeeps(r: Run)
    requires Inv(r) && r.worker.Some? && r.worker.value.Returned?
    ensures Inv(Resume(r))
  {
    var w := r.worker.value;
    if w.consumed < w.request.endEventSeq {
      var queuedEnd := if r.pending.Some? then r.pending.value.endEventSeq else 0;
      var queuedForce := r.pending.Some? && r.pending.value.forceCompletion;
      var merged := PendingSummary(Max(w.request.endEventSeq, queuedEnd), w.request.forceCompletion || queuedForce);
      TakePendingKeeps(r.(pending := Some(merged)));
    } else {
      TakePendingKeeps(r);
    }
  }

  lemma StartKeeps(r: Run)
    requires Inv(r) && r.microtasks > 0
    ensures Inv(StartMicrotask(r))
  {
    hide Within, Tiles;
    if !r.processing { TakePendingKeeps(r.(microtasks := r.microtasks - 1, processing := true)); }
  }

  /** Any step from a state that keeps the invariant leads to one that keeps it. */
  lemma StepKeeps(r: Run, step: Step)
    requires Inv(r) && Enabled(r, step)
    ensures Inv(Apply(r, step))
  {
    hide Inv;
    match step
    case SeeEvent(e) => ObserveKeeps(r, e);
    case RunMicrotask => StartKeeps(r);
    case SummaryArrives(summary) => FinishSummaryKeeps(r, summary);
    case WorkerResumes => ResumeKeeps(r);
  }

  // ---------------------------------------------------------------- what holds on every run

  /** Whatever events arrive, however they interleave with the worker, and whatever the summariser
    * answers, the invariant holds. */
  lemma {:induction false} TraceKeeps(r: Run, trace: seq<Step>, final: Run)
    requires Inv(r) && Leads(r, trace, final)
    ensures Inv(final)
    decreases trace
  {
    hide Inv;
    if trace != [] {
      StepKeeps(r, trace[0]);
      TraceKeeps(Apply(r, trace[0]), trace[1..], final);
    }
  }

  ghost predicate Reachable(r: Run) {
    exists trace :: Leads(EMPTY_RUN, trace, r)
  }

  lemma ReachableKeeps(r: Run)
    requires Reachable(r)
    ensures Inv(r)
  {
    assert Inv(EMPTY_RUN);
    hide Inv;
    var trace :| Leads(EMPTY_RUN, trace, r);
    TraceKeeps(EMPTY_RUN, trace, r);
  }

  ghost predicate Covered(sections: seq<Section>, e: nat) {
    exists i :: 0 <= i < |sections| && sections[i].start <= e <= sections[i].end
  }

  /** The section of a tiling that holds event `e`. */
  lemma SectionOf(sections: seq<Section>, cs: seq<nat>, e: nat) returns (i: nat)
    requires Tiles(sections, cs) && 1 <= e <= LastEnd(sections)
    ensures i < |sections| && sections[i].start <= e <= sections[i].end
  {
    i := |sections| - 1;
    while e < sections[i].start
      invariant 0 <= i < |sections| && e <= sections[i].end
    {
      i := i - 1;
    }
  }

  /** The sections of a reachable run split events 1..LastEnd: each event lies in exactly one section,
    * only the last section may be in progress, and none holds more than sixteen context checkpoints. */
  lemma SectionsPartitionTheLog(r: Run)
    requires Reachable(r)
    ensures LastEnd(r.sections) <= r.events
    ensures forall e :: 1 <= e <= LastEnd(r.sections) ==> Covered(r.sections, e)
    ensures forall i, j :: 0 <= i < j < |r.sections| ==> r.sections[i].end < r.sections[j].start
    ensures forall i :: 0 <= i < |r.sections| ==> 1 <= r.sections[i].start <= r.sections[i].end <= LastEnd(r.sections)
    ensures forall i :: 0 <= i < |r.sections| - 1 ==> r.sections[i].status == Completed
    ensures forall i :: 0 <= i < |r.sections| ==>
              |Within(r.checkpoints, r.sections[i].start, r.sections[i].end)| <= 16
  {
    hide Within;
    ReachableKeeps(r);
    forall i, j | 0 <= i < j < |r.sections| ensures r.sections[i].end < r.sections[j].start {
      SectionsOrdered(r.sections, r.checkpoints, i, j);
    }
    forall e | 1 <= e <= LastEnd(r.sections)
      ensures Covered(r.sections, e)
    {
      var i := SectionOf(r.sections, r.checkpoints, e);
    }
  }

  /** One worker per run, and a queued request always has a worker or a microtask that will take it. */
  lemma RequestsAreOwned(r: Run)
    requires Reachable(r)
    ensures r.processing <==> r.worker.Some?
    ensures r.pending.Some? ==> r.worker.Some? || r.microtasks > 0
    ensures r.processing ==> r.microtasks > 0 ==> StartMicrotask(r) == r.(microtasks := r.microtasks - 1)
    ensures r.worker.Some? ==>
              forall step :: Enabled(r, step) && (step.SeeEvent? || step.RunMicrotask?) ==>
                               Apply(r, step).worker == r.worker && Apply(r, step).sections == r.sections
  {
    hide Within, Tiles;
    ReachableKeeps(r);
  }

  /** No scheduled end and no force flag is lost: once nothing is queued, suspended or pending, at most
    * three checkpoints up to the greatest scheduled end (and five in the whole log) are unsummarised, the
    * sections reach the last run-ending event, and if nothing was scheduled after it they stop exactly
    * there, all of them completed. */
  lemma IdleRunIsSummarised(r: Run)
    requires Reachable(r) && Idle(r)
    ensures |Within(r.checkpoints, LastEnd(r.sections) + 1, r.scheduled)| <= 3
    ensures |Within(r.checkpoints, LastEnd(r.sections) + 1, r.events)| <= 5
    ensures r.lastEnded <= LastEnd(r.sections)
    ensures 0 < r.lastEnded == r.scheduled ==>
              LastEnd(r.sections) == r.lastEnded
              && forall i :: 0 <= i < |r.sections| ==> r.sections[i].status == Completed
  {
    hide Within;
    ReachableKeeps(r);
    WithinSplit(r.checkpoints, LastEnd(r.sections) + 1, r.scheduled, r.events);
  }

  // ---------------------------------------------------------------- the drain loop ends

  function WorkerCost(w: Option<Worker>): nat {
    match w
    case None => 0
    case Some(Awaiting(_, _)) => 2
    case Some(Returned(p, consumed)) => if consumed < p.endEventSeq then 3 else 1
  }

  function Target(r: Run): nat {
    var queued := if r.pending.Some? then r.pending.value.endEventSeq else 0;
    var held := if r.worker.Some? then r.worker.value.request.endEventSeq else 0;
    Max(LastEnd(r.sections), Max(queued, held))
  }

  /** How many more steps the worker can take: mostly three for each event it is still behind. */
  function Cost(r: Run): nat {
    r.microtasks + (if r.pending.Some? then 3 else 0) + WorkerCost(r.worker)
    + 3 * (Target(r) - LastEnd(r.sections))
  }

  /** Taking a request costs less than leaving it queued. */
  lemma TakePendingShrinks(r: Run)
    requires Core(r) && r.processing && (r.pending.Some? ==> Owed(r, r.pending.value))
    ensures Cost(TakePending(r)) <= r.microtasks
              + (if r.pending.Some? then 2 + 3 * (Max(r.pending.value.endEventSeq, LastEnd(r.sections)) - LastEnd(r.sections)) else 0)
    ensures Continues(r.sections, TakePending(r).sections)
  {
    hide Within, Upsert, Tiles;
    if r.pending.Some? {
      var p := r.pending.value;
      BeginSummaryKeeps(r.(pending := None), p);
      var contexts := Within(r.checkpoints, LastEnd(r.sections) + 1, p.endEventSeq);
      if |contexts| == 0 && p.forceCompletion && r.sections != [] {
        LastTile(r.sections, r.checkpoints);
        UpsertLast(r.sections, r.checkpoints, r.sections[|r.sections| - 1].(end := p.endEventSeq, status := Completed));
      }
    }
  }

  /** The target end minus the last section end falls whenever the worker requeues; with the microtasks it
    * gives a number every step of the worker lowers, whatever the summariser answers. */
  lemma WorkerStepShrinks(r: Run, step: Step)
    requires Inv(r) && Enabled(r, step) && !step.SeeEvent?
    ensures Cost(Apply(r, step)) < Cost(r)
    ensures Continues(r.sections, Apply(r, step).sections)
  {
    hide Within, Upsert, Tiles, NothingLost, ForceKept;
    match step
    case RunMicrotask => StartShrinks(r);
    case SummaryArrives(summary) => FinishSummaryTiles(r, summary);
    case WorkerResumes => ResumeShrinks(r);
  }

  lemma StartShrinks(r: Run)
    requires Inv(r) && r.microtasks > 0
    ensures Cost(StartMicrotask(r)) < Cost(r)
    ensures Continues(r.sections, StartMicrotask(r).sections)
  {
    hide Within, Upsert, Tiles;
    if !r.processing { TakePendingShrinks(r.(microtasks := r.microtasks - 1, processing := true)); }
  }

  lemma ResumeShrinks(r: Run)
    requires Inv(r) && r.worker.Some? && r.worker.value.Returned?
    ensures Cost(Resume(r)) < Cost(r)
    ensures Continues(r.sections, Resume(r).sections)
  {
    hide Within, Upsert, Tiles;
    var w := r.worker.value;
    if w.consumed < w.request.endEventSeq {
      var queuedEnd := if r.pending.Some? then r.pending.value.endEventSeq else 0;
      var queuedForce := r.pending.Some? && r.pending.value.forceCompletion;
      TakePendingShrinks(r.(pending := Some(PendingSummary(
        Max(w.request.endEventSeq, queuedEnd), w.request.forceCompletion || queuedForce))));
    } else {
      TakePendingShrinks(r);
    }
  }

  /** With no new events the worker stops: it can take at most `Cost` steps, and it is stuck only when idle. */
  lemma {:induction false} DrainEnds(r: Run, trace: seq<Step>, final: Run)
    requires Reachable(r) && Leads(r, trace, final)
    requires forall i :: 0 <= i < |trace| ==> !trace[i].SeeEvent?
    ensures |trace| <= Cost(r)
    ensures !Idle(final) ==> exists step: Step :: !step.SeeEvent? && Enabled(final, step)
  {
    ReachableKeeps(r);
    DrainEndsFrom(r, trace, final);
  }

  lemma {:induction false} DrainEndsFrom(r: Run, trace: seq<Step>, final: Run)
    requires Inv(r) && Leads(r, trace, final)
    requires forall i :: 0 <= i < |trace| ==> !trace[i].SeeEvent?
    ensures |trace| <= Cost(r)
    ensures !Idle(final) ==> exists step: Step :: !step.SeeEvent? && Enabled(final, step)
    decreases trace
  {
    if trace == [] {
      StuckOnlyWhenIdle(r);
    } else {
      hide Inv, Cost, Apply;
      StepKeeps(r, trace[0]);
      WorkerStepShrinks(r, trace[0]);
      DrainEndsFrom(Apply(r, trace[0]), trace[1..], final);
    }
  }

  lemma StuckOnlyWhenIdle(r: Run)
    requires Inv(r)
    ensures !Idle(r) ==> exists step: Step :: !step.SeeEvent? && Enabled(r, step)
  {
    hide Within, Tiles;
    if r.microtasks > 0 {
      assert Enabled(r, RunMicrotask);
    } else if r.worker.Some? && r.worker.value.Awaiting? {
      assert Enabled(r, SummaryArrives(Summary("", "", "")));
    } else if r.worker.Some? {
      assert Enabled(r, WorkerResumes);
    }
  }

  /** Rows that were finished are never rewritten and the last keeps its first event, at every step. */
  lemma FinishedSectionsStay(r: Run, step: Step)
    requires Reachable(r) && Enabled(r, step)
    ensures Continues(r.sections, Apply(r, step).sections)
  {
    ReachableKeeps(r);
    hide Inv, Cost;
    if !step.SeeEvent? { WorkerStepShrinks(r, step); }
  }

  // ---------------------------------------------------------------- two coordinators

  /** A resumed run gets a new coordinator, which has nothing queued and no worker. */
  function HandedOver(r: Run): Run { r.(pending := None, processing := false, worker := None, microtasks := 0) }

  /** If the old coordinator is idle by then, the new one goes on as the old one would have: everything above holds of
    * a run that any number of coordinators look after, one after the other. */
  lemma HandoverWhenIdle(r: Run)
    requires Reachable(r) && Idle(r)
    ensures HandedOver(r) == r && r.pending == None && !r.processing && r.worker == None && r.microtasks == 0
  {
    ReachableKeeps(r);
    hide Core, WorkerOk, NothingLost, ForceKept;
  }

  /** The rows after an answer to a question asked as `s` for request `p`. */
  function Answered(r: Run, p: PendingSummary, s: Snapshot, summary: Summary): seq<Section> {
    FinishSummary(r.(worker := Some(Awaiting(p, s))), summary).sections
  }

  /** A question asked on these rows, by whichever coordinator. */
  ghost predicate Asked(r: Run, p: PendingSummary, s: Snapshot) {
    Core(r) && 1 <= p.endEventSeq <= r.scheduled && SnapshotOk(r, p, s)
  }

  function Status(p: PendingSummary, s: Snapshot): SectionStatus {
    if p.forceCompletion && s.end == p.endEventSeq then Completed else InProgress
  }

  /** The row an answer writes when it continues the latest section, and when it does not. */
  function MergedRow(latest: Section, p: PendingSummary, s: Snapshot, summary: Summary): Section {
    Section(latest.id, latest.start, s.end, Status(p, s), summary)
  }

  function NewRow(p: PendingSummary, s: Snapshot, summary: Summary): Section {
    Section(s.start, s.start, s.end, Status(p, s), summary)
  }

  /** The rows an answer writes on the sections its question was asked on. */
  function Written(r: Run, p: PendingSummary, s: Snapshot, summary: Summary): seq<Section> {
    if r.sections == [] then [NewRow(p, s, summary)]
    else
      var front, last := r.sections[..|r.sections| - 1], r.sections[|r.sections| - 1];
      if Merges(s, summary) then front + [MergedRow(last, p, s, summary)]
      else front + [last.(status := Completed)] + [NewRow(p, s, summary)]
  }

  /** Few enough checkpoints lie in the row an answer writes. */
  lemma RowCounts(r: Run, p: PendingSummary, s: Snapshot, summary: Summary)
    requires Asked(r, p, s)
    ensures |Within(r.checkpoints, s.start, s.end)| <= MAX_CONTEXT_STEPS_PER_SECTION
    ensures Merges(s, summary) ==>
              r.sections != []
              && |Within(r.checkpoints, r.sections[|r.sections| - 1].start, s.end)| <= MAX_CONTEXT_STEPS_PER_SECTION
  {
    hide Within, Tiles;
    SnapshotCounts(r.(worker := Some(Awaiting(p, s)), pending := None));
    if Merges(s, summary) {
      var last := r.sections[|r.sections| - 1];
      LastTile(r.sections, r.checkpoints);
      WithinSplit(r.checkpoints, last.start, last.end, s.end);
    }
  }

  lemma NewIsWritten(r: Run, p: PendingSummary, s: Snapshot, summary: Summary)
    requires Asked(r, p, s) && !Merges(s, summary)
    ensures Answered(r, p, s, summary) == Written(r, p, s, summary)
  {
    hide Within, Upsert, Tiles, Merges;
    if r.sections == [] {
      UpsertNew(r.sections, r.checkpoints, NewRow(p, s, summary));
    } else {
      var front, last := r.sections[..|r.sections| - 1], r.sections[|r.sections| - 1];
      var closed := front + [last.(status := Completed)];
      LastTile(r.sections, r.checkpoints);
      ClosedTiles(r.sections, r.checkpoints);
      UpsertLast(r.sections, r.checkpoints, last.(status := Completed));
      assert r.sections == front + [last];
      UpsertNew(closed, r.checkpoints, NewRow(p, s, summary));
    }
  }

  lemma MergedIsWritten(r: Run, p: PendingSummary, s: Snapshot, summary: Summary)
    requires Asked(r, p, s) && Merges(s, summary)
    ensures Answered(r, p, s, summary) == Written(r, p, s, summary)
  {
    hide Within, Upsert, Tiles;
    LastTile(r.sections, r.checkpoints);
    UpsertLast(r.sections, r.checkpoints, MergedRow(r.sections[|r.sections| - 1], p, s, summary));
  }

  lemma WrittenTiles(r: Run, p: PendingSummary, s: Snapshot, summary: Summary)
    requires Asked(r, p, s)
    ensures Answered(r, p, s, summary) == Written(r, p, s, summary)
    ensures Tiles(Written(r, p, s, summary), r.checkpoints)
  {
    FinishSummaryTiles(r.(worker := Some(Awaiting(p, s)), pending := None), summary);
    hide Within, Tiles, Merges, Written, Upsert;
    if Merges(s, summary) { MergedIsWritten(r, p, s, summary); } else { NewIsWritten(r, p, s, summary); }
  }

  /** The rows written for an answer, whatever it says. An answer of the latest section's phase continues that section
    * if no more than sixteen context checkpoints then lie in it; any other answer closes the latest section as it is
    * and begins a new one. The row is completed when the request forces completion and its end is reached. */
  lemma AnswerWrites(r: Run, summary: Summary)
    requires Inv(r) && r.worker.Some? && r.worker.value.Awaiting?
    ensures var (p, s) := (r.worker.value.request, r.worker.value.snapshot);
            var status := if p.forceCompletion && s.end == p.endEventSeq then Completed else InProgress;
            var n := |r.sections|;
            && s.start == LastEnd(r.sections) + 1 <= s.end
            && FinishSummary(r, summary).sections
               == if n == 0 then [Section(1, 1, s.end, status, summary)]
                  else if && r.sections[n - 1].summary.phaseKey == summary.phaseKey
                          && |Within(r.checkpoints, r.sections[n - 1].start, s.end)| <= 16
                  then r.sections[..n - 1] + [Section(r.sections[n - 1].id, r.sections[n - 1].start, s.end, status, summary)]
                  else r.sections[..n - 1] + [r.sections[n - 1].(status := Completed)]
                       + [Section(s.start, s.start, s.end, status, summary)]
  {
    var (p, s) := (r.worker.value.request, r.worker.value.snapshot);
    assert r.(worker := Some(Awaiting(p, s))) == r;
    WrittenTiles(r, p, s, summary);
    MergesIff(r, p, s, summary);
    hide Within, Tiles, Merges, FinishSummary;
  }

  lemma MergesIff(r: Run, p: PendingSummary, s: Snapshot, summary: Summary)
    requires Asked(r, p, s)
    ensures Merges(s, summary) <==>
            && r.sections != [] && r.sections[|r.sections| - 1].summary.phaseKey == summary.phaseKey
            && |Within(r.checkpoints, r.sections[|r.sections| - 1].start, s.end)| <= MAX_CONTEXT_STEPS_PER_SECTION
  {
    hide Within, Tiles;
    SnapshotCounts(r.(worker := Some(Awaiting(p, s)), pending := None));
    if r.sections != [] {
      var last := r.sections[|r.sections| - 1];
      LastTile(r.sections, r.checkpoints);
      WithinSplit(r.checkpoints, last.start, last.end, s.end);
    }
  }

  /** What is asked for a request: the first three checkpoints after the last section, up to the event before the next
    * one, if there are more than three; otherwise nothing, unless completion is forced. Then the whole range is asked
    * for, or, when it holds no checkpoint, added to the last section. Nothing is asked when the last section reaches as
    * far, or when no event follows it. */
  lemma QuestionAsked(r: Run, p: PendingSummary)
    requires Core(r)
    ensures var (r', start, n) := (BeginSummary(r, p), LastEnd(r.sections) + 1, |r.sections|);
            var due := |Within(r.checkpoints, start, p.endEventSeq)|;
            && r'.worker.Some? && r'.worker.value.request == p
            && (p.endEventSeq < start ==> r'.sections == r.sections && r'.worker.value == Returned(p, p.endEventSeq))
            && (p.endEventSeq >= start > r.events && p.forceCompletion && n == 0 ==>
                  r'.sections == r.sections && r'.worker.value == Returned(p, p.endEventSeq))
            && (p.endEventSeq >= start && start <= r.events && (due > 3 || (p.forceCompletion && (due > 0 || n == 0))) ==>
                  && r'.sections == r.sections && r'.worker.value.Awaiting?
                  && var s := r'.worker.value.snapshot;
                     && s.start == start
                     && (due <= 3 ==> s.end == p.endEventSeq)
                     && (due > 3 ==> s.end < p.endEventSeq && s.end + 1 in r.checkpoints
                                     && |Within(r.checkpoints, start, s.end)| == 3))
            && (p.endEventSeq >= start && due == 0 && p.forceCompletion && n > 0 ==>
                  && r'.sections == r.sections[..n - 1] + [r.sections[n - 1].(end := p.endEventSeq, status := Completed)]
                  && r'.worker.value == Returned(p, p.endEventSeq))
            && (p.endEventSeq >= start && due <= 3 && !p.forceCompletion ==> r'.sections == r.sections && r'.worker.value == Returned(p, p.endEventSeq))
  {
    var start := LastEnd(r.sections) + 1;
    var contexts := Within(r.checkpoints, start, p.endEventSeq);
    if p.endEventSeq < start {
    } else if |contexts| > 3 {
      WithinCut(r.checkpoints, r.events, start, p.endEventSeq, 3);
    } else if contexts == [] && p.forceCompletion && r.sections != [] {
      LastTile(r.sections, r.checkpoints);
      UpsertLast(r.sections, r.checkpoints, r.sections[|r.sections| - 1].(end := p.endEventSeq, status := Completed));
    }
    hide Within, Tiles, Upsert;
  }

  /** What an event schedules: its own number, at every third recorded context checkpoint, and with force at the end of
    * the run. */
  lemma EventSchedules(r: Run, e: Event)
    requires Inv(r)
    ensures var (r', seqNo) := (Observe(r, e), r.events + 1);
            var recorded := if e == ContextCompiled(true) then r.checkpoints + [seqNo] else r.checkpoints;
            && r'.events == seqNo && r'.checkpoints == recorded && r'.sections == r.sections && r'.worker == r.worker
            && (e.RunEnded? || (e.ContextCompiled? && |recorded| > 0 && |recorded| % 3 == 0) ==>
                  && r'.pending == Some(PendingSummary(seqNo, e.RunEnded? || (r.pending.Some? && r.pending.value.forceCompletion)))
                  && r'.microtasks == if r.worker.Some? then r.microtasks else r.microtasks + 1)
            && (!e.RunEnded? && !(e.ContextCompiled? && |recorded| > 0 && |recorded| % 3 == 0) ==>
                  r'.pending == r.pending && r'.microtasks == r.microtasks)
  {
    hide Within, Tiles, WorkerOk, NothingLost, ForceKept;
  }

  /** Writing a row that is there already changes nothing. */
  lemma {:induction false} UpsertSame(sections: seq<Section>, cs: seq<nat>, i: nat)
    requires Tiles(sections, cs) && i < |sections|
    ensures Upsert(sections, sections[i]) == sections
  {
    forall j | 0 <= j < |sections| && j != i ensures sections[j].id != sections[i].id {
      if j < i { SectionsOrdered(sections, cs, j, i); } else { SectionsOrdered(sections, cs, i, j); }
    }
  }

  /** The second answer continues the row the first one wrote last, or replaces it. */
  lemma SecondReplacesLast(one: seq<Section>, cs: seq<nat>, row: Section)
    requires Tiles(one, cs) && one != [] && row.id == row.start == one[|one| - 1].id && row.start <= row.end
    requires |Within(cs, row.start, row.end)| <= MAX_CONTEXT_STEPS_PER_SECTION
    ensures Tiles(Upsert(one, row), cs)
  {
    hide Within;
    LastTile(one, cs);
    UpsertLast(one, cs, row);
    hide Upsert;
    TilesExtended(one, cs, row);
  }

  lemma BothMerge(r: Run, p: PendingSummary, s: Snapshot, first: Summary, q: PendingSummary, t: Snapshot, second: Summary)
    requires Asked(r, p, s) && Asked(r, q, t) && Merges(s, first) && Merges(t, second)
    ensures Tiles(Answered(r.(sections := Answered(r, p, s, first)), q, t, second), r.checkpoints)
  {
    WrittenTiles(r, p, s, first);
    RowCounts(r, q, t, second);
    LastTile(r.sections, r.checkpoints);
    hide Within, Upsert, Tiles, Merges;
    var one := Written(r, p, s, first);
    assert one[|one| - 1].id == r.sections[|r.sections| - 1].id;
    SecondReplacesLast(one, r.checkpoints, MergedRow(r.sections[|r.sections| - 1], q, t, second));
  }

  lemma NeitherMerges(r: Run, p: PendingSummary, s: Snapshot, first: Summary, q: PendingSummary, t: Snapshot, second: Summary)
    requires Asked(r, p, s) && Asked(r, q, t) && !Merges(s, first) && !Merges(t, second)
    ensures Tiles(Answered(r.(sections := Answered(r, p, s, first)), q, t, second), r.checkpoints)
  {
    WrittenTiles(r, p, s, first);
    RowCounts(r, q, t, second);
    var one := Written(r, p, s, first);
    if r.sections != [] {
      var n := |r.sections| - 1;
      assert one[n] == r.sections[n].(status := Completed);
      UpsertSame(one, r.checkpoints, n);
    }
    hide Within, Upsert, Tiles, Merges;
    SecondReplacesLast(one, r.checkpoints, NewRow(q, t, second));
  }

  /** The second answer stretches the old last section over the row the first one added. */
  lemma OnlySecondMerges(r: Run, p: PendingSummary, s: Snapshot, first: Summary, q: PendingSummary, t: Snapshot,
                         second: Summary)
    requires Asked(r, p, s) && Asked(r, q, t) && !Merges(s, first) && Merges(t, second)
    ensures !Tiles(Answered(r.(sections := Answered(r, p, s, first)), q, t, second), r.checkpoints)
  {
    WrittenTiles(r, p, s, first);
    LastTile(r.sections, r.checkpoints);
    var one, n := Written(r, p, s, first), |r.sections| - 1;
    var last := r.sections[n];
    var row := MergedRow(last, q, t, second);
    hide Within, Merges, Tiles;
    assert one[n].id == row.id && one[n + 1] == NewRow(p, s, first) && one[n + 1].id != row.id;
    var two := Upsert(one, row);
    assert two[n].end == t.end && two[n + 1].start == s.start;
    hide Upsert;
    NotTiled(two, r.checkpoints, n);
  }

  lemma NotTiled(sections: seq<Section>, cs: seq<nat>, n: nat)
    requires n + 1 < |sections| && sections[n + 1].start != sections[n].end + 1
    ensures !Tiles(sections, cs)
  {
    var m := n + 1;
    assert sections[m].start != sections[n].end + 1;
  }

  /** The second answer cuts the old last section back and adds its row after it, if that section was in progress;
    * otherwise its row overlaps the one the first answer stretched. */
  lemma OnlyFirstMerges(r: Run, p: PendingSummary, s: Snapshot, first: Summary, q: PendingSummary, t: Snapshot,
                        second: Summary)
    requires Asked(r, p, s) && Asked(r, q, t) && Merges(s, first) && !Merges(t, second)
    ensures r.sections != []
    ensures Tiles(Answered(r.(sections := Answered(r, p, s, first)), q, t, second), r.checkpoints)
            <==> r.sections[|r.sections| - 1].status == InProgress
  {
    WrittenTiles(r, p, s, first);
    RowCounts(r, q, t, second);
    LastTile(r.sections, r.checkpoints);
    var front, last := r.sections[..|r.sections| - 1], r.sections[|r.sections| - 1];
    var one, row := Written(r, p, s, first), NewRow(q, t, second);
    hide Within, Merges, Tiles;
    if last.status == InProgress {
      var cut := last.(status := Completed);
      UpsertLast(one, r.checkpoints, cut);
      TilesExtended(one, r.checkpoints, cut);
      assert one[..|one| - 1] == front;
      UpsertNew(front + [cut], r.checkpoints, row);
      TilesAdded(front + [cut], r.checkpoints, row);
      hide Upsert;
    } else {
      RowAppended(r, one, MergedRow(last, p, s, first), row);
      NotTiled(one + [row], r.checkpoints, |front|);
    }
  }

  lemma RowAppended(r: Run, one: seq<Section>, merged: Section, row: Section)
    requires Tiles(r.sections, r.checkpoints) && r.sections != []
    requires one == r.sections[..|r.sections| - 1] + [merged]
    requires merged.id == merged.start == r.sections[|r.sections| - 1].start
    requires row.id == row.start == LastEnd(r.sections) + 1
    ensures Upsert(one, row) == one + [row]
  {
    hide Within;
    var n := |r.sections| - 1;
    assert r.sections[n].start <= r.sections[n].end;
    forall i | 0 <= i < |one| ensures one[i].id != row.id {
      if i < n { SectionsOrdered(r.sections, r.checkpoints, i, n); }
    }
  }

  /** Two coordinators may each have asked about the same sections, before either got its answer. Once both answers
    * are written, the sections still tile the log exactly when both continue the latest section, neither does, or
    * only the first does and that section was in progress. */
  lemma TwoAnswersTile(r: Run, p: PendingSummary, s: Snapshot, first: Summary, q: PendingSummary, t: Snapshot, second: Summary)
    requires Asked(r, p, s) && Asked(r, q, t)
    ensures var one := Answered(r, p, s, first);
            Tiles(Answered(r.(sections := one), q, t, second), r.checkpoints)
            <==> (Merges(s, first) == Merges(t, second)
                  || (Merges(s, first) && s.latest.Some? && s.latest.value.status == InProgress))
  {
    hide Core, Within, Upsert, Tiles, Merges;
    if Merges(s, first) && Merges(t, second) {
      BothMerge(r, p, s, first, q, t, second);
    } else if Merges(s, first) {
      OnlyFirstMerges(r, p, s, first, q, t, second);
    } else if Merges(t, second) {
      OnlySecondMerges(r, p, s, first, q, t, second);
    } else {
      NeitherMerges(r, p, s, first, q, t, second);
    }
  }

  // ---------------------------------------------------------------- the coordinator

  function Get<T>(m: map<RunId, T>, runId: RunId, default: T): T {
    if runId in m then m[runId] else default
  }

  /** The coordinator's maps, the rows it reads and writes, and what the runtime keeps for it: the
    * microtasks it queued and the continuations of its suspended workers. */
  class TraceSectionCoordinator {
    var pendingByRun: map<RunId, PendingSummary>
    var processingRuns: set<RunId>
    var microtasks: map<RunId, nat>
    var suspended: map<RunId, Worker>
    var eventCounts: map<RunId, nat>
    var contextCheckpoints: map<RunId, seq<nat>>
    var traceSections: map<RunId, seq<Section>>
    ghost var scheduledEnds: map<RunId, nat>
    ghost var lastEndedRuns: map<RunId, nat>

    constructor ()
      ensures forall runId :: View(runId) == EMPTY_RUN == Run(0, [], [], None, false, None, 0, 0, 0)
      ensures Valid()
    {
      pendingByRun, processingRuns, microtasks, suspended := map[], {}, map[], map[];
      eventCounts, contextCheckpoints, traceSections := map[], map[], map[];
      scheduledEnds, lastEndedRuns := map[], map[];
      new;
      assert forall runId :: View(runId) == EMPTY_RUN;
      assert Inv(EMPTY_RUN);
    }

    ghost function View(runId: RunId): Run
      reads this
    {
      Run(Get(eventCounts, runId, 0), Get(contextCheckpoints, runId, []), Get(traceSections, runId, []),
          if runId in pendingByRun then Some(pendingByRun[runId]) else None,
          runId in processingRuns,
          if runId in suspended then Some(suspended[runId]) else None,
          Get(microtasks, runId, 0), Get(scheduledEnds, runId, 0), Get(lastEndedRuns, runId, 0))
    }

    ghost predicate Valid()
      reads this
    {
      forall runId :: Inv(View(runId))
    }

    /** Only `runId` was touched, by a step of its own. */
    twostate predicate Steps(runId: RunId, step: Step)
      reads this
    {
      && Enabled(old(View(runId)), step)
      && View(runId) == Apply(old(View(runId)), step)
      && forall other :: other != runId ==> View(other) == old(View(other))
    }

    /** Every method below is a step of one run, so it keeps the invariant of all of them. */
    twostate lemma StepsKeepValid(runId: RunId, step: Step)
      requires old(Valid()) && Steps(runId, step)
      ensures Valid()
    {
      hide Inv, Apply;
      StepKeeps(old(View(runId)), step);
      forall other ensures Inv(View(other)) {
        if other != runId { assert Inv(old(View(other))); }
      }
    }

    /** The event is written to the log and its checkpoint projected before the coordinator sees it. */
    method WriteEvent(runId: RunId, event: Event)
      modifies `eventCounts, `contextCheckpoints
      ensures View(runId) == Logged(old(View(runId)), event)
      ensures forall other :: other != runId ==> View(other) == old(View(other))
    {
      var seqNo := Get(eventCounts, runId, 0) + 1;
      eventCounts := eventCounts[runId := seqNo];
      if event == ContextCompiled(true) {
        contextCheckpoints := contextCheckpoints[runId := Get(contextCheckpoints, runId, []) + [seqNo]];
      }
    }

    /** The coordinator's `observe`, on an event already in the log. */
    method ObserveEvent(runId: RunId, seqNo: nat, event: Event)
      requires seqNo == View(runId).events
      modifies `pendingByRun, `microtasks, `scheduledEnds, `lastEndedRuns
      ensures View(runId) == Noticed(old(View(runId)), event)
      ensures forall other :: other != runId ==> View(other) == old(View(other))
    {
      if event.ContextCompiled? {
        var contextStepCount := |Get(contextCheckpoints, runId, [])|;
        if contextStepCount >= CONTEXT_STEPS_PER_SECTION_CHECK
           && contextStepCount % CONTEXT_STEPS_PER_SECTION_CHECK == 0 {
          ScheduleEnd(runId, seqNo, false);
        }
      } else if event.RunEnded? {
        ScheduleEnd(runId, seqNo, true);
      }
    }

    /** The pipeline's delivery of one event, as far as the coordinator is concerned. */
    method DeliverEvent(runId: RunId, event: Event)
      modifies `eventCounts, `contextCheckpoints, `pendingByRun, `microtasks, `scheduledEnds, `lastEndedRuns
      ensures Steps(runId, SeeEvent(event))
    {
      WriteEvent(runId, event);
      ObserveEvent(runId, Get(eventCounts, runId, 0), event);
    }

    method ScheduleEnd(runId: RunId, seqNo: nat, forceCompletion: bool)
      modifies `pendingByRun, `microtasks, `scheduledEnds, `lastEndedRuns
      ensures View(runId) == Schedule(old(View(runId)), seqNo, forceCompletion)
      ensures forall other :: other != runId ==> View(other) == old(View(other))
    {
      var queuedEnd := if runId in pendingByRun then pendingByRun[runId].endEventSeq else 0;
      var queuedForce := runId in pendingByRun && pendingByRun[runId].forceCompletion;
      pendingByRun := pendingByRun[runId := PendingSummary(Max(queuedEnd, seqNo), queuedForce || forceCompletion)];
      if runId !in processingRuns {
        microtasks := microtasks[runId := Get(microtasks, runId, 0) + 1];
      }
      Remember(runId, seqNo, forceCompletion);
    }

    /** History only. */
    ghost method Remember(runId: RunId, seqNo: nat, forceCompletion: bool)
      modifies `scheduledEnds, `lastEndedRuns
      ensures var was := old(View(runId));
              View(runId) == was.(scheduled := Max(was.scheduled, seqNo),
                                  lastEnded := if forceCompletion then seqNo else was.lastEnded)
      ensures forall other :: other != runId ==> View(other) == old(View(other))
    {
      scheduledEnds := scheduledEnds[runId := Max(Get(scheduledEnds, runId, 0), seqNo)];
      lastEndedRuns := lastEndedRuns[runId := if forceCompletion then seqNo else Get(lastEndedRuns, runId, 0)];
    }

    /** A queued microtask runs `processRun` up to its first suspension. */
    method ProcessRun(runId: RunId)
      requires Get(microtasks, runId, 0) > 0
      modifies `pendingByRun, `processingRuns, `microtasks, `suspended, `traceSections
      ensures Steps(runId, RunMicrotask)
    {
      hide Within, Upsert, BeginSummary;
      microtasks := microtasks[runId := Get(microtasks, runId, 0) - 1];
      if runId !in processingRuns {
        processingRuns := processingRuns + {runId};
        assert View(runId) == old(View(runId)).(microtasks := old(View(runId)).microtasks - 1, processing := true);
        TakeNext(runId);
      }
    }

    /** The worker continues after `summarizeRange` has returned. */
    method ContinueRun(runId: RunId)
      requires runId in suspended && suspended[runId].Returned?
      modifies `pendingByRun, `processingRuns, `suspended, `traceSections
      ensures Steps(runId, WorkerResumes)
    {
      hide Within, Upsert, BeginSummary;
      var request, consumed := suspended[runId].request, suspended[runId].consumed;
      if consumed < request.endEventSeq {
        var queuedEnd := if runId in pendingByRun then pendingByRun[runId].endEventSeq else 0;
        var queuedForce := runId in pendingByRun && pendingByRun[runId].forceCompletion;
        pendingByRun := pendingByRun[runId := PendingSummary(
          Max(request.endEventSeq, queuedEnd), request.forceCompletion || queuedForce)];
      }
      TakeNext(runId);
    }

    /** One turn of the drain loop; leaving it releases the run. */
    method TakeNext(runId: RunId)
      modifies `pendingByRun, `processingRuns, `suspended, `traceSections
      ensures View(runId) == TakePending(old(View(runId)))
      ensures forall other :: other != runId ==> View(other) == old(View(other))
    {
      if runId in pendingByRun {
        var pending := pendingByRun[runId];
        pendingByRun := pendingByRun - {runId};
        SummarizeRange(runId, pending);
      } else {
        processingRuns := processingRuns - {runId};
        suspended := suspended - {runId};
      }
    }

    /** `summarizeRange` up to its call of the summariser, or to its early return. */
    method SummarizeRange(runId: RunId, request: PendingSummary)
      modifies `suspended, `traceSections
      ensures View(runId) == BeginSummary(old(View(runId)), request)
      ensures forall other :: other != runId ==> View(other) == old(View(other))
    {
      hide Within, Upsert;
      var existing := Get(traceSections, runId, []);
      var start := LastEnd(existing) + 1;
      if request.endEventSeq < start {
        suspended := suspended[runId := Returned(request, request.endEventSeq)];
        return;
      }
      var runCheckpoints := Get(contextCheckpoints, runId, []);
      var contexts := Within(runCheckpoints, start, request.endEventSeq);
      if |contexts| <= MAX_CONTEXT_STEPS_PER_SUMMARY_CHUNK && !request.forceCompletion {
        suspended := suspended[runId := Returned(request, request.endEventSeq)];
        return;
      }
      var end := request.endEventSeq;
      if |contexts| > MAX_CONTEXT_STEPS_PER_SUMMARY_CHUNK {
        end := Before(contexts[MAX_CONTEXT_STEPS_PER_SUMMARY_CHUNK]);
      }
      if |contexts| == 0 && request.forceCompletion && existing != [] {
        var latest := existing[|existing| - 1];
        traceSections := traceSections[runId :=
          Upsert(existing, latest.(end := request.endEventSeq, status := Completed))];
        suspended := suspended[runId := Returned(request, request.endEventSeq)];
        return;
      }
      if end < start || Get(eventCounts, runId, 0) < start {
        suspended := suspended[runId := Returned(request, end)];
        return;
      }
      suspended := suspended[runId :=
        Awaiting(request, Snapshot(start, end, Latest(existing), contexts, runCheckpoints))];
    }

    /** The summariser answered (or failed and its fallback is used): `summarizeRange` writes its rows. */
    method ReceiveSummary(runId: RunId, summary: Summary)
      requires runId in suspended && suspended[runId].Awaiting?
      modifies `suspended, `traceSections
      ensures Steps(runId, SummaryArrives(summary))
    {
      hide Within, Upsert;
      var request, s := suspended[runId].request, suspended[runId].snapshot;
      var merges := Merges(s, summary);
      if s.latest.Some? && s.latest.value.status == InProgress && !merges {
        traceSections := traceSections[runId :=
          Upsert(Get(traceSections, runId, []), s.latest.value.(status := Completed))];
      }
      var reachedTerminalRange := request.forceCompletion && s.end == request.endEventSeq;
      var row := Section(
        if merges then s.latest.value.id else s.start,
        if merges then s.latest.value.start else s.start,
        s.end, if reachedTerminalRange then Completed else InProgress, summary);
      traceSections := traceSections[runId := Upsert(Get(traceSections, runId, []), row)];
      suspended := suspended[runId := Returned(request, s.end)];
    }
  }
}
