/** Claiming, resuming and replaying runs: at most one run of a session is queued, running or suspended. */
module RunIdentity {
  import opened Options
  import opened Text

  datatype RunKey = RunKey(user: string, id: string)

  datatype Status = Queued | Running | Suspended | Completed | Failed | Canceled

  datatype Run = Run(session: string, fingerprint: Option<string>, datasource: Option<string>, status: Status,
                     error: Option<string>, started: nat)

  type Runs = map<RunKey, Run>

  datatype InteractionStatus = Pending | Resolved | Dismissed

  datatype Interaction = Interaction(session: string, toolName: string, status: InteractionStatus,
                                     resumeFingerprint: Option<string>)

  /** The rows that matter here; `sessions` holds each session's selected datasource. */
  datatype Store = Store(runs: Runs, sessions: map<RunKey, Option<string>>,
                         interactions: map<(RunKey, string), Interaction>, events: map<RunKey, seq<string>>,
                         datasources: set<RunKey>)

  datatype Resume = Resume(toolCall: string, toolName: string, fingerprint: string)

  /** One request; `lineageShows` says whether the session's lineage shows a run of another session. */
  datatype Request = Request(key: RunKey, session: string, fingerprint: string, parent: Option<string>,
                             datasource: Option<string>, resume: Option<Resume>, lineageShows: RunKey -> bool)

  datatype Error = SessionMismatch | FingerprintUnavailable | RequestMismatch | AlreadyActive(id: string)
                 | ReplayUnavailable | InteractionNotFound | NotResumable | InteractionMismatch
                 | ParentNotFound | ParentMismatch | DatasourceNotFound | ClaimConflict

  datatype Resolution = Replay(events: seq<string>) | Active(isResume: bool, datasource: Option<string>)

  datatype Result<+T> = Ok(value: T) | Err(error: Error)

  const STALE: string := "STALE_ACTIVE_RUN_RECLAIMED"

  const LIST_LIMIT: nat := 500

  predicate IsActive(run: Run) { run.status.Queued? || run.status.Running? || run.status.Suspended? }

  predicate IsClaimed(run: Run) { run.status.Queued? || run.status.Running? }

  function NonEmpty(text: Option<string>): Option<string> { if text == Some("") then None else text }

  // ---------------------------------------------------------------- live cancel handles

  /** Handles are kept under one text per user and run. */
  function HandleKey(k: RunKey): string { k.user + ":" + k.id }

  predicate IsLive(handles: set<string>, k: RunKey) { HandleKey(k) in handles }

  /** While user ids hold no colon no two runs share a handle's key. */
  lemma HandleKeysDiffer(a: RunKey, b: RunKey)
    requires ':' !in a.user && ':' !in b.user
    ensures HandleKey(a) == HandleKey(b) <==> a == b
  {
    if HandleKey(a) == HandleKey(b) { SplitAtFirst(':', a.user, a.id, b.user, b.id); }
  }

  predicate IsOrphan(runs: Runs, handles: set<string>, k: RunKey) {
    k in runs && IsClaimed(runs[k]) && !IsLive(handles, k)
  }

  // ---------------------------------------------------------------- reclaiming

  function Reclaim(run: Run): Run { run.(status := Canceled, error := Some(STALE)) }

  function Reclaimed(runs: Runs, gone: set<RunKey>): Runs {
    map k | k in runs :: if k in gone then Reclaim(runs[k]) else runs[k]
  }

  /** The session's active runs other than the requested one. */
  predicate InTheWay(runs: Runs, user: string, session: string, exclude: string, k: RunKey) {
    && k in runs && k.user == user && runs[k].session == session && IsActive(runs[k])
    && !(exclude != "" && k.id == exclude)
  }

  function Blockers(runs: Runs, user: string, session: string, exclude: string): set<RunKey> {
    set k | k in runs && InTheWay(runs, user, session, exclude, k)
  }

  /** What reclaiming may do: cancel orphans of the session, newest first, down to the newest run that is
    * suspended or live; `gone` are those canceled, `found` is that run. */
  ghost predicate Reclaims(runs: Runs, handles: set<string>, user: string, session: string, exclude: string,
                           gone: set<RunKey>, found: Option<RunKey>) {
    var blockers := Blockers(runs, user, session, exclude);
    && gone <= blockers
    && (forall k :: k in gone ==> IsOrphan(runs, handles, k))
    && match found
       case None => gone == blockers
       case Some(f) =>
         && f in blockers && !IsOrphan(runs, handles, f)
         && (forall k :: k in gone ==> runs[f].started <= runs[k].started)
         && (forall k :: k in blockers && k !in gone ==> runs[k].started <= runs[f].started)
  }

  /** A session is blocked exactly when one of its other active runs is suspended or has a live handle. */
  lemma BlockedIffLive(runs: Runs, handles: set<string>, user: string, session: string, exclude: string,
                       gone: set<RunKey>, found: Option<RunKey>)
    requires Reclaims(runs, handles, user, session, exclude, gone, found)
    ensures found.Some? <==>
            exists k :: InTheWay(runs, user, session, exclude, k) && (runs[k].status.Suspended? || IsLive(handles, k))
  {
    match found
    case None =>
      forall k | InTheWay(runs, user, session, exclude, k)
        ensures !runs[k].status.Suspended? && !IsLive(handles, k)
      {
        assert k in Blockers(runs, user, session, exclude);
      }
    case Some(f) => assert InTheWay(runs, user, session, exclude, f);
  }

  /** While no two of them started at the same time, what is canceled and what blocks is determined. */
  lemma ReclaimIsDetermined(runs: Runs, handles: set<string>, user: string, session: string, exclude: string,
                            gone: set<RunKey>, found: Option<RunKey>, gone': set<RunKey>, found': Option<RunKey>)
    requires forall a, b ::
               a in Blockers(runs, user, session, exclude) && b in Blockers(runs, user, session, exclude) && a != b ==>
                 runs[a].started != runs[b].started
    requires Reclaims(runs, handles, user, session, exclude, gone, found)
    requires Reclaims(runs, handles, user, session, exclude, gone', found')
    ensures gone == gone' && found == found'
  {
  }

  // ---------------------------------------------------------------- replaying and admitting

  function ReplayOf(s: Store, request: Request): Result<Resolution>
    requires request.key in s.runs
  {
    var run := s.runs[request.key];
    var interaction := if request.resume.Some? then (request.key, request.resume.value.toolCall) else (request.key, "");
    if request.resume.Some? && interaction !in s.interactions then Err(InteractionNotFound)
    else if request.resume.Some? && !(s.interactions[interaction].status.Resolved?
                                      && s.interactions[interaction].resumeFingerprint == Some(request.resume.value.fingerprint))
    then Err(NotResumable)
    else
      var fingerprint := if request.resume.Some? then (if run.fingerprint.Some? then run.fingerprint.value else "")
                         else request.fingerprint;
      if run.session != request.session then Err(SessionMismatch)
      else if NonEmpty(run.fingerprint) == None then Err(FingerprintUnavailable)
      else if run.fingerprint != Some(fingerprint) then Err(RequestMismatch)
      else if IsClaimed(run) then Err(AlreadyActive(request.key.id))
      else if request.key !in s.events || s.events[request.key] == [] then Err(ReplayUnavailable)
      else Ok(Replay(s.events[request.key]))
  }

  predicate IsResume(s: Store, request: Request) {
    request.resume.Some? && request.key in s.runs && s.runs[request.key].status.Suspended?
  }

  function SelectedDatasource(s: Store, request: Request): Option<string> {
    if request.resume.Some? && request.key in s.runs && NonEmpty(s.runs[request.key].datasource).Some?
    then s.runs[request.key].datasource
    else NonEmpty(request.datasource)
  }

  function ParentError(s: Store, request: Request): Option<Error> {
    match NonEmpty(request.parent)
    case None => None
    case Some(parent) =>
      var k := RunKey(request.key.user, parent);
      if k !in s.runs then Some(ParentNotFound)
      else if s.runs[k].session == request.session || request.lineageShows(k) then None
      else Some(ParentMismatch)
  }

  function ResumeError(s: Store, request: Request): Option<Error>
    requires IsResume(s, request)
  {
    var resume := request.resume.value;
    if s.runs[request.key].session != request.session then Some(SessionMismatch)
    else if (request.key, resume.toolCall) !in s.interactions then Some(InteractionNotFound)
    else
      var interaction := s.interactions[(request.key, resume.toolCall)];
      if interaction.session != request.session || interaction.toolName != resume.toolName || !interaction.status.Pending?
      then Some(InteractionMismatch)
      else None
  }

  function ClaimError(s: Store, request: Request): Option<Error> {
    var datasource := SelectedDatasource(s, request);
    if ParentError(s, request).Some? then ParentError(s, request)
    else if datasource.Some? && RunKey(request.key.user, datasource.value) !in s.datasources then Some(DatasourceNotFound)
    else if request.key in s.runs then Some(ClaimConflict)
    else None
  }

  function Resumed(run: Run): Run { run.(status := Running, error := None) }

  function Claimed(s: Store, request: Request, now: nat): Run {
    Run(request.session, Some(request.fingerprint), SelectedDatasource(s, request), Running, None, now)
  }

  function SessionRow(s: Store, request: Request): Option<string> {
    var key, datasource := RunKey(request.key.user, request.session), SelectedDatasource(s, request);
    if datasource.None? && key in s.sessions then s.sessions[key] else datasource
  }

  /** The session is free: resume the run or claim it. */
  function Admitted(s: Store, request: Request, now: nat): (Store, Result<Resolution>) {
    var datasource := SelectedDatasource(s, request);
    if IsResume(s, request) then
      match ResumeError(s, request)
      case Some(error) => (s, Err(error))
      case None =>
        (s.(runs := s.runs[request.key := Resumed(s.runs[request.key])]), Ok(Active(true, datasource)))
    else
      match ClaimError(s, request)
      case Some(error) => (s, Err(error))
      case None =>
        (s.(runs := s.runs[request.key := Claimed(s, request, now)],
            sessions := s.sessions[RunKey(request.key.user, request.session) := SessionRow(s, request)]),
         Ok(Active(false, datasource)))
  }

  ghost predicate Settles(s: Store, request: Request, now: nat, handles: set<string>,
                          gone: set<RunKey>, found: Option<RunKey>, s': Store, r: Result<Resolution>) {
    var mid := s.(runs := Reclaimed(s.runs, gone));
    && Reclaims(s.runs, handles, request.key.user, request.session, request.key.id, gone, found)
    && (s', r) == if found.Some? then (mid, Err(AlreadyActive(found.value.id))) else Admitted(mid, request, now)
  }

  /** One whole call: replay a run that exists, else free the session and admit the run. */
  ghost predicate Resolves(s: Store, request: Request, now: nat, handles: set<string>, s': Store, r: Result<Resolution>) {
    if request.key in s.runs && !IsResume(s, request) then s' == s && r == ReplayOf(s, request)
    else exists gone, found :: Settles(s, request, now, handles, gone, found, s', r)
  }

  // ---------------------------------------------------------------- the methods

  lemma {:induction false} NewestExists(runs: Runs, keys: set<RunKey>)
    requires keys != {} && keys <= runs.Keys
    ensures exists k :: k in keys && forall j :: j in keys ==> runs[j].started <= runs[k].started
  {
    var k :| k in keys;
    var rest := keys - {k};
    if rest != {} {
      NewestExists(runs, rest);
      var newest :| newest in rest && forall j :: j in rest ==> runs[j].started <= runs[newest].started;
      var top := if runs[newest].started <= runs[k].started then k else newest;
      assert forall j :: j in keys ==> j == k || j in rest;
      assert top in keys && forall j :: j in keys ==> runs[j].started <= runs[top].started;
    } else {
      assert keys == {k};
    }
  }

  /** No row but the run's changes, and in it no more than its status and error. */
  ghost predicate OnlyStatusOf(s: Store, s': Store, key: RunKey) {
    && s'.runs.Keys == s.runs.Keys && (forall k :: k in s.runs && k != key ==> s'.runs[k] == s.runs[k])
    && (key in s.runs ==> SameOrigin(s.runs[key], s'.runs[key]))
    && s'.sessions == s.sessions && s'.interactions == s.interactions && s'.events == s.events
    && s'.datasources == s.datasources
  }

  predicate SameOrigin(run: Run, run': Run) {
    && run'.session == run.session && run'.fingerprint == run.fingerprint && run'.datasource == run.datasource
    && run'.started == run.started
  }

  predicate Ends(status: Status) { status.Completed? || status.Failed? || status.Canceled? }

  class MetadataStore {
    var store: Store

    constructor (initial: Store)
      ensures store == initial
    {
      store := initial;
    }

    /** The newest of the session's active runs other than the excluded one; any of them on a tie. */
    method FindActiveBySession(user: string, session: string, exclude: string) returns (found: Option<RunKey>)
      ensures found.None? <==> Blockers(store.runs, user, session, exclude) == {}
      ensures found.Some? ==>
                && found.value in Blockers(store.runs, user, session, exclude)
                && forall k :: k in Blockers(store.runs, user, session, exclude) ==>
                     store.runs[k].started <= store.runs[found.value].started
    {
      var blockers := Blockers(store.runs, user, session, exclude);
      if blockers == {} {
        return None;
      }
      NewestExists(store.runs, blockers);
      var newest :| newest in blockers && forall k :: k in blockers ==> store.runs[k].started <= store.runs[newest].started;
      found := Some(newest);
    }

    method UpdateStatus(key: RunKey, status: Status, error: Option<string>) returns (run: Run)
      requires key in store.runs
      modifies this
      ensures OnlyStatusOf(old(store), store, key)
      ensures store.runs[key] == run && run.status == status && run.error == error
      ensures Ends(status) ==>
                forall user, session, exclude ::
                  Blockers(store.runs, user, session, exclude) == Blockers(old(store.runs), user, session, exclude) - {key}
    {
      run := store.runs[key].(status := status, error := error);
      store := store.(runs := store.runs[key := run]);
    }

    method ResolveLiveSessionActiveRun(user: string, session: string, exclude: string, handles: set<string>)
      returns (found: Option<RunKey>, ghost gone: set<RunKey>)
      modifies this
      ensures store == old(store).(runs := Reclaimed(old(store.runs), gone))
      ensures Reclaims(old(store.runs), handles, user, session, exclude, gone, found)
    {
      ghost var runs := store.runs;
      gone := {};
      ReclaimNone(runs);
      while true
        invariant store == old(store).(runs := Reclaimed(runs, gone))
        invariant gone <= Blockers(runs, user, session, exclude)
        invariant forall k :: k in gone ==> IsOrphan(runs, handles, k)
        invariant forall k, j :: k in gone && j in Blockers(runs, user, session, exclude) && j !in gone ==>
                    runs[j].started <= runs[k].started
        decreases Blockers(runs, user, session, exclude) - gone
      {
        StillBlocking(runs, gone, user, session, exclude);
        found := FindActiveBySession(user, session, exclude);
        if found == None {
          return;
        }
        var active := found.value;
        if store.runs[active].status.Suspended? || IsLive(handles, active) {
          return;
        }
        ghost var before := store;
        var _ := UpdateStatus(active, Canceled, Some(STALE));
        ReclaimOneMore(before, store, runs, gone, active);
        gone := gone + {active};
      }
    }

    /** The newest queued and running rows of all users, 500 at most. */
    method ListClaimed() returns (candidates: seq<RunKey>)
      ensures Newest(store.runs, candidates)
    {
      candidates := [];
      var left := ClaimedKeys(store.runs);
      while left != {} && |candidates| < LIST_LIMIT
        invariant |candidates| <= LIST_LIMIT
        invariant left <= ClaimedKeys(store.runs)
        invariant forall k :: k in ClaimedKeys(store.runs) ==> (k in left <==> k !in candidates)
        invariant forall i :: 0 <= i < |candidates| ==> candidates[i] in ClaimedKeys(store.runs)
        invariant forall i, j :: 0 <= i < j < |candidates| ==> candidates[i] != candidates[j]
        invariant forall i, k :: 0 <= i < |candidates| && k in left ==>
                    store.runs[k].started <= store.runs[candidates[i]].started
        decreases left
      {
        NewestExists(store.runs, left);
        var newest :| newest in left && forall k :: k in left ==> store.runs[k].started <= store.runs[newest].started;
        candidates := candidates + [newest];
        left := left - {newest};
      }
    }

    method ReclaimOrphanedQueuedAndRunningRuns(handles: set<string>) returns (reclaimed: nat, ghost candidates: seq<RunKey>)
      modifies this
      ensures Newest(old(store.runs), candidates)
      ensures var gone := OrphansOf(old(store.runs), handles, candidates);
              store == old(store).(runs := Reclaimed(old(store.runs), gone)) && reclaimed == |gone|
    {
      ghost var runs := store.runs;
      ReclaimNone(runs);
      var keys := ListClaimed();
      candidates := keys;
      reclaimed := 0;
      ghost var gone: set<RunKey> := {};
      assert keys[..0] == [] && keys[..|keys|] == keys;
      NoOrphansOfNone(runs, handles);
      hide *;
      for i := 0 to |keys|
        invariant gone == OrphansOf(runs, handles, keys[..i]) && reclaimed == |gone|
        invariant store == old(store).(runs := Reclaimed(runs, gone))
      {
        OneMoreOrphan(runs, handles, keys, i);
        if !IsLive(handles, keys[i]) {
          ghost var before := store;
          var _ := UpdateStatus(keys[i], Canceled, Some(STALE));
          ReclaimOneMore(before, store, runs, gone, keys[i]);
          reclaimed := reclaimed + 1;
          gone := gone + {keys[i]};
        }
      }
    }

    method ResolveRunIdentity(request: Request, now: nat, handles: set<string>) returns (r: Result<Resolution>)
      modifies this
      ensures Resolves(old(store), request, now, handles, store, r)
    {
      if request.key in store.runs && !IsResume(store, request) {
        return ReplayOf(store, request);
      }
      var found, gone := ResolveLiveSessionActiveRun(request.key.user, request.session, request.key.id, handles);
      ghost var mid := store;
      if found.Some? {
        r := Err(AlreadyActive(found.value.id));
        assert Settles(old(store), request, now, handles, gone, found, store, r);
        return;
      }
      var (next, result) := Admitted(store, request, now);
      store := next;
      r := result;
      assert Settles(old(store), request, now, handles, gone, found, store, r);
    }
  }

  function ClaimedKeys(runs: Runs): set<RunKey> { set k | k in runs && IsClaimed(runs[k]) }

  function OrphansOf(runs: Runs, handles: set<string>, candidates: seq<RunKey>): set<RunKey> {
    set k | k in candidates && IsOrphan(runs, handles, k)
  }

  /** The newest queued and running rows, without repetition, all of them unless there are more than the limit. */
  ghost predicate Newest(runs: Runs, candidates: seq<RunKey>) {
    && |candidates| <= LIST_LIMIT
    && (forall k :: k in candidates ==> k in ClaimedKeys(runs))
    && (forall i, j :: 0 <= i < j < |candidates| ==> candidates[i] != candidates[j])
    && (|candidates| < LIST_LIMIT ==> forall k :: k in ClaimedKeys(runs) ==> k in candidates)
    && (forall k, j :: k in candidates && j in ClaimedKeys(runs) && j !in candidates ==> runs[j].started <= runs[k].started)
  }

  lemma NoOrphansOfNone(runs: Runs, handles: set<string>)
    ensures OrphansOf(runs, handles, []) == {}
  {
  }

  lemma OneMoreOrphan(runs: Runs, handles: set<string>, keys: seq<RunKey>, i: nat)
    requires Newest(runs, keys) && i < |keys|
    ensures keys[i] in runs && keys[i] !in OrphansOf(runs, handles, keys[..i])
    ensures OrphansOf(runs, handles, keys[..i + 1])
            == OrphansOf(runs, handles, keys[..i]) + (if IsLive(handles, keys[i]) then {} else {keys[i]})
    ensures keys[i] in Reclaimed(runs, OrphansOf(runs, handles, keys[..i]))
  {
    assert keys[i] in ClaimedKeys(runs);
    assert keys[..i + 1] == keys[..i] + [keys[i]];
    forall k | k in keys[..i] ensures k != keys[i] {
      var j :| 0 <= j < i && keys[j] == k;
    }
  }

  lemma ReclaimNone(runs: Runs)
    ensures Reclaimed(runs, {}) == runs
  {
  }

  lemma ReclaimOneMore(s: Store, s': Store, runs: Runs, gone: set<RunKey>, k: RunKey)
    requires k in runs && k !in gone && s.runs == Reclaimed(runs, gone)
    requires OnlyStatusOf(s, s', k) && s'.runs[k].status == Canceled && s'.runs[k].error == Some(STALE)
    ensures s' == s.(runs := Reclaimed(runs, gone + {k}))
  {
  }

  lemma StillBlocking(runs: Runs, gone: set<RunKey>, user: string, session: string, exclude: string)
    ensures Blockers(Reclaimed(runs, gone), user, session, exclude) == Blockers(runs, user, session, exclude) - gone
  {
  }

  // ---------------------------------------------------------------- one call

  lemma ReclaimedRuns(s: Store, request: Request, handles: set<string>, gone: set<RunKey>, k: RunKey)
    requires Reclaims(s.runs, handles, request.key.user, request.session, request.key.id, gone, None)
    requires k in s.runs && k.user == request.key.user && s.runs[k].session == request.session && k != request.key
    ensures !IsActive(Reclaimed(s.runs, gone)[k])
  {
  }

  /** A call that starts or resumes a run leaves it the only queued, running or suspended run of its session. */
  lemma ActiveIsAlone(s: Store, request: Request, now: nat, handles: set<string>, s': Store, r: Result<Resolution>)
    requires Resolves(s, request, now, handles, s', r) && r.Ok? && r.value.Active?
    ensures request.key in s'.runs && s'.runs[request.key].status.Running? && s'.runs[request.key].session == request.session
    ensures forall k ::
              k in s'.runs && k.user == request.key.user && s'.runs[k].session == request.session && k != request.key ==>
                !IsActive(s'.runs[k])
  {
    var gone, found :| Settles(s, request, now, handles, gone, found, s', r);
    forall k | k in s'.runs && k.user == request.key.user && s'.runs[k].session == request.session && k != request.key
      ensures !IsActive(s'.runs[k])
    {
      ReclaimedRuns(s, request, handles, gone, k);
    }
  }

  /** What a call may have done to a run's row. */
  predicate RowAfter(s: Store, request: Request, handles: set<string>, s': Store, r: Result<Resolution>, k: RunKey)
    requires k in s.runs && k in s'.runs
  {
    var was, now := s.runs[k], s'.runs[k];
    || now == was
    || (IsOrphan(s.runs, handles, k) && k.user == request.key.user && was.session == request.session && now == Reclaim(was))
    || (k == request.key && was.status.Suspended? && now == Resumed(was) && r.Ok? && r.value.Active? && r.value.isResume)
  }

  lemma AdmittedRows(s: Store, request: Request, now: nat)
    ensures var (s', r) := Admitted(s, request, now);
            && s' == s.(runs := s'.runs, sessions := s'.sessions)
            && !(r.Ok? && r.value.Replay?)
            && (!(r.Ok? && r.value.Active? && !r.value.isResume) ==> s'.sessions == s.sessions && s'.runs.Keys == s.runs.Keys)
            && (forall k :: k in s.runs && k != request.key ==> k in s'.runs && s'.runs[k] == s.runs[k])
            && (forall k :: k in s'.runs && k != request.key ==> k in s.runs)
            && (request.key in s.runs ==>
                  && request.key in s'.runs
                  && (s'.runs[request.key] == s.runs[request.key]
                      || (IsResume(s, request) && s'.runs[request.key] == Resumed(s.runs[request.key])
                          && r.Ok? && r.value.Active? && r.value.isResume)))
            && (r.Ok? && r.value.Active? && !r.value.isResume ==> request.key !in s.runs)
  {
  }

  lemma SettledRows(s: Store, request: Request, now: nat, handles: set<string>, gone: set<RunKey>, found: Option<RunKey>,
                    s': Store, r: Result<Resolution>)
    requires Settles(s, request, now, handles, gone, found, s', r)
    ensures forall k :: k in s.runs ==> k in s'.runs && RowAfter(s, request, handles, s', r, k)
    ensures forall k :: k in s'.runs && k !in s.runs ==> k == request.key && r.Ok? && r.value.Active? && !r.value.isResume
    ensures s' == s.(runs := s'.runs, sessions := s'.sessions) && !(r.Ok? && r.value.Replay?)
    ensures !(r.Ok? && r.value.Active? && !r.value.isResume) ==> s'.sessions == s.sessions
  {
    var mid := s.(runs := Reclaimed(s.runs, gone));
    AdmittedRows(mid, request, now);
    hide Admitted;
    forall k | k in gone
      ensures IsOrphan(s.runs, handles, k) && k.user == request.key.user && s.runs[k].session == request.session
    {
      assert k in Blockers(s.runs, request.key.user, request.session, request.key.id);
    }
  }

  /** Whatever the outcome, also on every error, a call only cancels orphans of its own session, resumes its own
    * suspended run or adds its own row. */
  lemma OnlyOrphansCanceled(s: Store, request: Request, now: nat, handles: set<string>, s': Store, r: Result<Resolution>)
    requires Resolves(s, request, now, handles, s', r)
    ensures forall k :: k in s.runs ==> k in s'.runs && RowAfter(s, request, handles, s', r, k)
    ensures forall k :: k in s'.runs && k !in s.runs ==> k == request.key && r.Ok? && r.value.Active? && !r.value.isResume
    ensures s' == s.(runs := s'.runs, sessions := s'.sessions)
    ensures !(r.Ok? && r.value.Active? && !r.value.isResume) ==> s'.sessions == s.sessions
  {
    if !(request.key in s.runs && !IsResume(s, request)) {
      var gone, found :| Settles(s, request, now, handles, gone, found, s', r);
      SettledRows(s, request, now, handles, gone, found, s', r);
    }
  }

  /** A replay returns the run's persisted events, of the session asked for, and changes nothing. */
  lemma ReplayChangesNothing(s: Store, request: Request, now: nat, handles: set<string>, s': Store, r: Result<Resolution>)
    requires Resolves(s, request, now, handles, s', r) && r.Ok? && r.value.Replay?
    ensures s' == s && request.key in s.runs && request.key in s.events
    ensures r.value.events == s.events[request.key] != []
    ensures s.runs[request.key].session == request.session && !IsClaimed(s.runs[request.key])
    ensures request.resume.None? ==> s.runs[request.key].fingerprint == Some(request.fingerprint)
  {
  }

  /** Within one call the claim cannot lose: the run was looked up before. */
  lemma ClaimNeverConflicts(s: Store, request: Request, now: nat, handles: set<string>, s': Store, r: Result<Resolution>)
    requires Resolves(s, request, now, handles, s', r)
    ensures r != Err(ClaimConflict)
  {
    if !(request.key in s.runs && !IsResume(s, request)) {
      var gone, found :| Settles(s, request, now, handles, gone, found, s', r);
      var mid := s.(runs := Reclaimed(s.runs, gone));
      assert IsResume(mid, request) || request.key !in mid.runs by {
        if IsResume(s, request) { ResumeSurvives(s, request, handles, gone, found); }
      }
    }
  }

  /** A suspended run is never reclaimed. */
  lemma ResumeSurvives(s: Store, request: Request, handles: set<string>, gone: set<RunKey>, found: Option<RunKey>)
    requires IsResume(s, request)
    requires Reclaims(s.runs, handles, request.key.user, request.session, request.key.id, gone, found)
    ensures IsResume(s.(runs := Reclaimed(s.runs, gone)), request)
  {
  }

  /** Another active run of the session that no reclaiming clears away. */
  ghost predicate Blocked(s: Store, request: Request, handles: set<string>) {
    exists k ::
      && k in s.runs && k.user == request.key.user && s.runs[k].session == request.session
      && (k.id != request.key.id || request.key.id == "")
      && (s.runs[k].status == Suspended
          || ((s.runs[k].status == Queued || s.runs[k].status == Running) && k.user + ":" + k.id in handles))
  }

  lemma BlockedIff(s: Store, request: Request, handles: set<string>, gone: set<RunKey>, found: Option<RunKey>)
    requires Reclaims(s.runs, handles, request.key.user, request.session, request.key.id, gone, found)
    ensures found.Some? <==> Blocked(s, request, handles)
  {
    BlockedIffLive(s.runs, handles, request.key.user, request.session, request.key.id, gone, found);
    hide Reclaims;
    forall k ensures InTheWay(s.runs, request.key.user, request.session, request.key.id, k)
                     && (s.runs[k].status.Suspended? || IsLive(handles, k)) <==>
                     && k in s.runs && k.user == request.key.user && s.runs[k].session == request.session
                     && (k.id != request.key.id || request.key.id == "")
                     && (s.runs[k].status == Suspended
                         || ((s.runs[k].status == Queued || s.runs[k].status == Running) && k.user + ":" + k.id in handles))
    {
    }
  }

  /** The parent run, if the request names one, is the user's and of the session, or the session's lineage shows it. */
  ghost predicate ParentShown(s: Store, request: Request) {
    request.parent == None || request.parent == Some("") ||
    (var k := RunKey(request.key.user, request.parent.value);
     k in s.runs && (s.runs[k].session == request.session || request.lineageShows(k)))
  }

  /** A new run starts exactly when no other run of its session is suspended or live, its parent run, if named, is
    * one the session shows, and its datasource, if any, exists. It then has exactly what the request says, and the
    * session selects its datasource, or keeps its own when the request names none. */
  lemma NewRunStartsIff(s: Store, request: Request, now: nat, handles: set<string>, s': Store, r: Result<Resolution>)
    requires Resolves(s, request, now, handles, s', r) && request.key !in s.runs
    ensures var named := request.datasource.Some? && request.datasource != Some("");
            var datasource := if named then request.datasource else None;
            var session := RunKey(request.key.user, request.session);
            && (r.Ok? <==>
                  && !Blocked(s, request, handles) && ParentShown(s, request)
                  && (named ==> RunKey(request.key.user, request.datasource.value) in s.datasources))
            && (r.Ok? ==>
                  && r.value == Active(false, datasource)
                  && request.key in s'.runs
                  && s'.runs[request.key] == Run(request.session, Some(request.fingerprint), datasource, Running, None, now)
                  && s'.sessions == s.sessions[session :=
                       if named then request.datasource else if session in s.sessions then s.sessions[session] else None])
  {
    var gone, found :| Settles(s, request, now, handles, gone, found, s', r);
    BlockedIff(s, request, handles, gone, found);
    var mid := s.(runs := Reclaimed(s.runs, gone));
    assert ParentError(mid, request) == ParentError(s, request);
    assert ParentError(s, request) == None <==> ParentShown(s, request);
    hide Reclaims, Blockers, ParentError, ParentShown, Blocked;
  }

  /** A suspended run is resumed exactly when nothing else blocks its session, it is of that session, and the call it
    * waits for is of that session and tool and still pending. The run then runs again without its error, with its own
    * datasource, and apart from canceled orphans nothing else changes. */
  lemma ResumeStartsIff(s: Store, request: Request, now: nat, handles: set<string>, s': Store, r: Result<Resolution>)
    requires Resolves(s, request, now, handles, s', r)
    requires request.resume.Some? && request.key in s.runs && s.runs[request.key].status == Suspended
    ensures var run := s.runs[request.key];
            var call := (request.key, request.resume.value.toolCall);
            && (r.Ok? <==>
                  && !Blocked(s, request, handles) && run.session == request.session && call in s.interactions
                  && s.interactions[call].session == request.session
                  && s.interactions[call].toolName == request.resume.value.toolName
                  && s.interactions[call].status == Pending)
            && (r.Ok? ==>
                  && r.value == Active(true, if run.datasource.Some? && run.datasource != Some("") then run.datasource
                                             else if request.datasource == Some("") then None else request.datasource)
                  && request.key in s'.runs
                  && s'.runs[request.key] == Run(run.session, run.fingerprint, run.datasource, Running, None, run.started)
                  && s'.sessions == s.sessions && s'.interactions == s.interactions)
  {
    var gone, found :| Settles(s, request, now, handles, gone, found, s', r);
    BlockedIff(s, request, handles, gone, found);
    ResumeSurvives(s, request, handles, gone, found);
    hide Reclaims, Blockers, Blocked;
  }

  /** A run that exists and is not resumed is replayed exactly when it is of the session, has a fingerprint, that of the
    * request unless a resume names its resolved call, has stopped, and has events. The replay changes nothing. */
  lemma ReplayedIff(s: Store, request: Request, now: nat, handles: set<string>, s': Store, r: Result<Resolution>)
    requires Resolves(s, request, now, handles, s', r)
    requires request.key in s.runs && (request.resume.None? || s.runs[request.key].status != Suspended)
    ensures var run := s.runs[request.key];
            && s' == s
            && (r.Ok? <==>
                  && (request.resume.Some? ==>
                        var call := (request.key, request.resume.value.toolCall);
                        && call in s.interactions && s.interactions[call].status == InteractionStatus.Resolved
                        && s.interactions[call].resumeFingerprint == Some(request.resume.value.fingerprint))
                  && run.session == request.session
                  && run.fingerprint.Some? && run.fingerprint != Some("")
                  && (request.resume.None? ==> run.fingerprint == Some(request.fingerprint))
                  && run.status != Queued && run.status != Running
                  && request.key in s.events && s.events[request.key] != [])
            && (r.Ok? ==> r.value == Replay(s.events[request.key]))
  {
  }

  /** Which error a replay that fails reports: the first check that fails, in this order. */
  lemma ReplayErrors(s: Store, request: Request, now: nat, handles: set<string>, s': Store, r: Result<Resolution>)
    requires Resolves(s, request, now, handles, s', r) && r.Err?
    requires request.key in s.runs && (request.resume.None? || s.runs[request.key].status != Suspended)
    ensures var run := s.runs[request.key];
            match r.error
            case InteractionNotFound =>
              request.resume.Some? && (request.key, request.resume.value.toolCall) !in s.interactions
            case NotResumable =>
              && request.resume.Some? && (request.key, request.resume.value.toolCall) in s.interactions
              && var interaction := s.interactions[(request.key, request.resume.value.toolCall)];
                 interaction.status != InteractionStatus.Resolved
                 || interaction.resumeFingerprint != Some(request.resume.value.fingerprint)
            case SessionMismatch => run.session != request.session
            case FingerprintUnavailable =>
              run.session == request.session && (run.fingerprint == None || run.fingerprint == Some(""))
            case RequestMismatch =>
              && run.session == request.session && run.fingerprint.Some? && run.fingerprint.value != ""
              && request.resume.None? && run.fingerprint.value != request.fingerprint
            case AlreadyActive(id) =>
              && id == request.key.id && run.session == request.session
              && (run.status == Queued || run.status == Running)
              && (request.resume.None? ==> run.fingerprint == Some(request.fingerprint))
            case ReplayUnavailable =>
              && run.session == request.session && run.status != Queued && run.status != Running
              && (request.resume.None? ==> run.fingerprint == Some(request.fingerprint))
              && (request.key !in s.events || s.events[request.key] == [])
            case _ => false
    ensures request.resume.Some? && r.error !in [InteractionNotFound, NotResumable] ==>
              (request.key, request.resume.value.toolCall) in s.interactions
              && s.interactions[(request.key, request.resume.value.toolCall)].status == InteractionStatus.Resolved
  {
  }

  /** Which error a call that would start or resume a run reports. A blocked session comes first, under the id of
    * one of its runs. */
  lemma AdmissionErrors(s: Store, request: Request, now: nat, handles: set<string>, s': Store, r: Result<Resolution>)
    requires Resolves(s, request, now, handles, s', r) && r.Err?
    requires request.key !in s.runs || (request.resume.Some? && s.runs[request.key].status == Suspended)
    ensures match r.error
            case AlreadyActive(id) =>
              Blocked(s, request, handles) && exists k :: k in s.runs && k.id == id && k.user == request.key.user
                                                          && s.runs[k].session == request.session
            case SessionMismatch => request.key in s.runs && s.runs[request.key].session != request.session
            case InteractionNotFound =>
              && request.key in s.runs && s.runs[request.key].session == request.session
              && (request.key, request.resume.value.toolCall) !in s.interactions
            case InteractionMismatch =>
              && request.key in s.runs && s.runs[request.key].session == request.session
              && (request.key, request.resume.value.toolCall) in s.interactions
            case ParentNotFound =>
              request.key !in s.runs && request.parent.Some? && RunKey(request.key.user, request.parent.value) !in s.runs
            case ParentMismatch =>
              request.key !in s.runs && request.parent.Some? && RunKey(request.key.user, request.parent.value) in s.runs
            case DatasourceNotFound => request.key !in s.runs && ParentShown(s, request)
            case _ => false
    ensures r.error.AlreadyActive? <==> Blocked(s, request, handles)
  {
    var gone, found :| Settles(s, request, now, handles, gone, found, s', r);
    BlockedIff(s, request, handles, gone, found);
    var mid := s.(runs := Reclaimed(s.runs, gone));
    if request.key in s.runs { ResumeSurvives(s, request, handles, gone, found); }
    assert ParentError(mid, request) == ParentError(s, request);
    if found.Some? { assert found.value in Blockers(s.runs, request.key.user, request.session, request.key.id); }
    hide Reclaims, Blocked;
  }

  /** Sending a claimed request again while it runs is refused; once its run has ended or is suspended and has
    * events, it is answered with exactly those events, and nothing is claimed twice. */
  lemma RetryIsIdempotent(s: Store, request: Request, now: nat, handles: set<string>, s': Store, r: Result<Resolution>,
                          later: Store, now': nat, handles': set<string>, last: Store, again: Result<Resolution>)
    requires Resolves(s, request, now, handles, s', r) && request.resume.None? && request.fingerprint != ""
    requires r.Ok? && r.value.Active?
    requires request.key in later.runs
             && later.runs[request.key] == s'.runs[request.key].(status := later.runs[request.key].status,
                                                                 error := later.runs[request.key].error)
    requires Resolves(later, request, now', handles', last, again)
    ensures last == later
    ensures again == if IsClaimed(later.runs[request.key]) then Err(AlreadyActive(request.key.id))
                     else if request.key !in later.events || later.events[request.key] == [] then Err(ReplayUnavailable)
                     else Ok(Replay(later.events[request.key]))
  {
  }

  // ---------------------------------------------------------------- whole histories

  /** No session has two queued, running or suspended runs. */
  ghost predicate Exclusive(runs: Runs) {
    forall a, b ::
      a in runs && b in runs && a.user == b.user && runs[a].session == runs[b].session && a != b ==>
        !IsActive(runs[a]) || !IsActive(runs[b])
  }

  /** What happens to the store: a request is resolved, a run's worker ends or suspends it, a request fails before
    * it is resolved, the server starts up, a session is deleted with its runs, and rows that are not runs change. */
  datatype Step = Resolve(request: Request, now: nat, handles: set<string>, r: Result<Resolution>)
                | SetStatus(key: RunKey, status: Status, error: Option<string>)
                | FailEarly(key: RunKey, session: string, now: nat, message: string)
                | StartUp(handles: set<string>, candidates: seq<RunKey>)
                | DeleteRuns(keys: set<RunKey>)
                | OtherRows

  function FailedEarly(runs: Runs, key: RunKey, session: string, now: nat, error: string): Runs {
    var run := if key in runs then runs[key] else Run(session, None, None, Running, None, now);
    runs[key := run.(status := Failed, error := Some(error))]
  }

  /** A worker suspends its run only while the run's row says running. */
  ghost predicate Steps(s: Store, step: Step, s': Store) {
    match step
    case Resolve(request, now, handles, r) => Resolves(s, request, now, handles, s', r)
    case SetStatus(key, status, error) =>
      && key in s.runs && !status.Queued? && !status.Running? && (status.Suspended? ==> s.runs[key].status.Running?)
      && s' == s.(runs := s.runs[key := s.runs[key].(status := status, error := error)])
    case FailEarly(key, session, now, error) => s'.runs == FailedEarly(s.runs, key, session, now, error)
    case StartUp(handles, candidates) => s' == s.(runs := Reclaimed(s.runs, OrphansOf(s.runs, handles, candidates)))
    case DeleteRuns(keys) => s'.runs == s.runs - keys
    case OtherRows => s'.runs == s.runs
  }

  lemma ResolveKeeps(s: Store, request: Request, now: nat, handles: set<string>, s': Store, r: Result<Resolution>)
    requires Exclusive(s.runs) && Resolves(s, request, now, handles, s', r)
    ensures Exclusive(s'.runs)
  {
    OnlyOrphansCanceled(s, request, now, handles, s', r);
    if r.Ok? && r.value.Active? { ActiveIsAlone(s, request, now, handles, s', r); }
    hide Resolves;
    forall a, b | a in s'.runs && b in s'.runs && a.user == b.user && s'.runs[a].session == s'.runs[b].session
                  && IsActive(s'.runs[a]) && IsActive(s'.runs[b])
      ensures a == b
    {
      if a != request.key && b != request.key {
        assert RowAfter(s, request, handles, s', r, a) && RowAfter(s, request, handles, s', r, b);
      }
    }
  }

  lemma StepKeeps(s: Store, step: Step, s': Store)
    requires Exclusive(s.runs) && Steps(s, step, s')
    ensures Exclusive(s'.runs)
  {
    hide Resolves;
    if step.Resolve? { ResolveKeeps(s, step.request, step.now, step.handles, s', step.r); }
  }

  /** In every history from an empty store at most one run of each session is queued, running or suspended. */
  lemma {:induction false} AlwaysExclusive(stores: seq<Store>, steps: seq<Step>)
    requires |stores| == |steps| + 1 && stores[0].runs == map[]
    requires forall i, j :: 0 <= i < |steps| && j == i + 1 ==> Steps(stores[i], steps[i], stores[j])
    ensures forall i :: 0 <= i < |stores| ==> Exclusive(stores[i].runs)
  {
    hide Steps, Exclusive;
    assert Exclusive(stores[0].runs) by { NoRunsAreExclusive(); }
    for n := 0 to |steps|
      invariant forall i :: 0 <= i <= n ==> Exclusive(stores[i].runs)
    {
      StepKeeps(stores[n], steps[n], stores[n + 1]);
    }
  }

  lemma NoRunsAreExclusive()
    ensures Exclusive(map[])
  {
  }

  // ---------------------------------------------------------------- start-up

  lemma {:induction false} DistinctCount(keys: seq<RunKey>)
    requires forall i, j :: 0 <= i < j < |keys| ==> keys[i] != keys[j]
    ensures |set k | k in keys| == |keys|
  {
    if keys == [] {
      assert (set k | k in keys) == {};
    } else {
      var rest := keys[..|keys| - 1];
      DistinctCount(rest);
      assert (set k | k in keys) == (set k | k in rest) + {keys[|keys| - 1]};
    }
  }

  lemma {:induction false} SubsetCount(a: set<RunKey>, b: set<RunKey>)
    requires a <= b
    ensures |a| <= |b| && (|a| == |b| <==> a == b)
  {
    if a != {} {
      var k :| k in a;
      SubsetCount(a - {k}, b - {k});
      assert a == (a - {k}) + {k} && b == (b - {k}) + {k};
    }
  }

  /** The start-up pass, which finds no live handles, cancels every queued and running row exactly when there are
    * no more of them than one listing returns; suspended rows stay. */
  lemma StartUpReclaimsAll(runs: Runs, candidates: seq<RunKey>)
    requires Newest(runs, candidates)
    ensures var after := Reclaimed(runs, OrphansOf(runs, {}, candidates));
            && (ClaimedKeys(after) == {} <==> |ClaimedKeys(runs)| <= LIST_LIMIT)
            && forall k :: k in runs && !IsClaimed(runs[k]) ==> after[k] == runs[k]
  {
    var after := Reclaimed(runs, OrphansOf(runs, {}, candidates));
    var listed := set k | k in candidates;
    DistinctCount(candidates);
    SubsetCount(listed, ClaimedKeys(runs));
    assert ClaimedKeys(after) == ClaimedKeys(runs) - listed;
    if ClaimedKeys(after) == {} {
      forall k | k in ClaimedKeys(runs) ensures k in listed { assert k !in ClaimedKeys(runs) - listed; }
      assert listed == ClaimedKeys(runs);
    }
    if |candidates| < LIST_LIMIT { assert listed == ClaimedKeys(runs); }
  }
}
