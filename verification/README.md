# Verified models of the workbench's protocols, codecs and rewrites

Each Dafny module models one stateful protocol, codec or rewriting of the workbench and proves what it keeps,
over every run or every input.

- `TraceSections`: the per-run scheduler that cuts an event log into summarised sections. Every piece of code
  between two suspension points is one step, the summariser's answers are arguments, and events may arrive while
  an answer is pending. A class with the coordinator's maps performs exactly these steps.
- `FileStore`: the content-addressed file store, refined to a map in which each reference owns its bytes.
- `SessionBranching`: branches of branches of conversations, their lineage, and what a branch shows.
- `Csv`: both CSV printers and the parser (section 2 of RFC 4180).
- `SqlScanners`: the SQL comment stripper and the statement counter.
- `RunEvents`, `McpLoop`, `RunIdentity`: the event pipeline with its tool-result safety net, over runs that are
  suspended and resumed in a new pipeline; the MCP tool loop; the claiming and replaying of runs.
- `TraceDag` and `TraceDagIds`: the trace graph built from the log, first over nodes, then as the program keeps it,
  under the texts of their ids.
- `TerminalRedraw`: the rewriting of erase sequences on a terminal that obeys CUU, CUD, CHA and EL (sections
  8.3.22, 8.3.19, 8.3.9 and 8.3.41 of ECMA-48).
- `CanonicalJson`, `ModelFallback`, `ConversationSummary`, `HistoryWindow`: request canonicalisation, the graph of
  model fallbacks, automatic summaries, and the history given to a run.
- `Options` and `Text` hold what these share.

Where the program changes state in place, a class or a loop does so here and is proved equal to a function of the
old state; what the program promises is then proved about that function. Repositories are maps and sequences that
behave as their statements do. A method that breaks a tie the database leaves open may break it any way.

## Premises

- A run's events are numbered without gaps from 1, and the events the section scheduler acts on carry no protocol id.
- SHA-256 has no collisions (`CollisionFree`), row identifiers and child session identifiers are fresh, positions of
  recorded checkpoints exist, a run's messages go to the run's session, and a session is deleted together with all
  sessions branched from it.
- Key comparison in canonical JSON orders keys up to ties (`Orders`), as `localeCompare` does, and no object holds a key
  twice.
- An agent run by the MCP loop extends the messages it is given, uses no call id twice, and emits a result only for
  a call it answers itself (`Honest`).
- Message, artifact and branch rows have ids of their own, and a run's events have numbers of their own (`Distinct`).
- A worker suspends its run only while the run's row says running.
- A run's segments, from its start or a resume to its suspension or end, write to its log one after another.
- The payload of a model profile changes only when it is saved or deleted as modelled.
- A summary is made for a session one at a time, with no more open messages than one load returns (`Allowed`).

## Where the code falls short of the property

Each of these is proved, with the exact condition under which the property does hold.

- Foreign keys are enforced, but deleted reference rows stay: collecting an asset that only such a row names unlinks
  its file and then fails. Collection succeeds exactly when no deleted row names an orphan (`GcOutcome`,
  `StaysIntact`). The store, blocked collections included, still stands for one in which each reference owns its bytes
  exactly until bytes are stored whose record has lost its file (`StoreRefinesNaive`, `BlockedCollectionLosesBytes`).
- What is written to a log is the delivered stream exactly when the emitted and projected events repeat no protocol event
  id, nor one of the log (`LogIsStream`, `RepeatedProtocolEvent`).
- A resumed run goes on with a new safety net, which knows nothing of earlier calls: when the resume of a suspended call
  is declined the run ends with that call unanswered, and a result emitted before and after the resume is in the log
  twice (`DeclinedResumeLeavesCallOpen`, `ResultInTwoSegments`). Over a whole run every ended call is answered before a
  run-ending event exactly when each segment with such an event has before it an END or a result of every call left
  open by earlier ones, and no call has two results exactly when none gets one in two segments (`WholeRunContract`).
- A resumed run also gets a new coordinator of its trace sections, while the old one may await an answer. When both have
  asked about the same sections, these tile the log afterwards exactly when both answers continue the latest section,
  neither does, or only the one written first does and that section was in progress (`TwoAnswersTile`).
- A fallback id is trimmed when it is validated and not when it is followed: a padded id passes validation and stops
  every run (`PaddedFallbackStopsTheRun`). A run takes the whole validated chain exactly when no id on it is padded
  (`RunTakesTheChain`).
- The erase rewriting keeps the screen exactly when there is room above the cursor or the further lines are blank
  (`RewriteIsHarmless`, `NearTheTopItErasesMore`), and a terminal never differs while an output arrives exactly when
  that is so at each match (`HarmlessIffNeverDiffers`).
- Keys the comparison ties keep their input order. A request has one canonical form, however it is written, exactly
  when none of its objects has two tied keys (`OneFormIffNoTies`, `TiedKeysKeepInputOrder`).
- A printed table whose rows end in line feeds and carriage returns in any mixture parses to itself exactly when no empty
  row's line feed follows a carriage return, which makes them one line end, and no empty row ends the text without a line
  end (`AnyLineEnds`).
- A history limit of zero takes the whole history (`WindowBound`).
- Bounded texts are longer than their bound, so bounding one again changes it, unless it is as long as the original
  (`BoundTwice`).
- With more open messages than one load returns, the oldest enter no summary (`NoGapIff`).
- Strict alternation of roles, which a comment promises for the history, fails when a user message is followed by
  hidden assistant rows only, or when two assistant rows meet (`AlternatesIffRegular`).
- The start-up pass cancels all stale runs exactly when no more than 500 are listed (`StartUpReclaimsAll`).
- A colon in a run's id can give two nodes of a trace graph one id, and the program then makes them one node, which may
  get two incoming edges (`ClashGivesTwoParents`). The graph is the graph of its nodes, which is a forest, exactly when no
  visible run's id goes on where a tool call of another one begins (`TraceGraphIsAForest`, `PrintedIdsDiffer`). The exact
  condition is for that graph: nodes made one may still leave a forest.

## Model

| member | source | states |
|---|---|---|
| TraceSections.StepKeeps | apps/api/src/trace-section-coordinator.ts:57-226 | every step of observing, draining and summarising keeps the scheduler's invariant, whatever the summariser answers |
| TraceSections.TraceKeeps | apps/api/src/trace-section-coordinator.ts:57-226 | so does every interleaving of events, microtasks and answers |
| TraceSections.SectionsPartitionTheLog | apps/api/src/trace-section-coordinator.ts:122-226 | in every reachable state the sections tile events 1 to the last end, only the last is in progress, none holds more than 16 context checkpoints |
| TraceSections.RequestsAreOwned | apps/api/src/trace-section-coordinator.ts:77-120 | the latch is set exactly while a worker is suspended, events and microtasks leave that worker alone, and a queued request always has a worker or a microtask |
| TraceSections.IdleRunIsSummarised | apps/api/src/trace-section-coordinator.ts:77-120 | no scheduled end or force flag is lost: an idle run has at most three unsummarised checkpoints up to the last scheduled end, and after a terminal event all sections are completed and end there |
| TraceSections.WorkerStepShrinks | apps/api/src/trace-section-coordinator.ts:97-111 | every worker step lowers a measure led by the distance from the last section end to the target end |
| TraceSections.DrainEnds | apps/api/src/trace-section-coordinator.ts:97-119 | without new events the drain loop ends within that many steps and stops only when idle |
| TraceSections.FinishedSectionsStay | apps/api/src/trace-section-coordinator.ts:145-226 | completed rows are never rewritten and the last row keeps its first event |
| TraceSections.HandoverWhenIdle | apps/api/src/server.ts:613-617 | a new coordinator goes on as an idle old one would |
| TraceSections.TwoAnswersTile | apps/api/src/trace-section-coordinator.ts:179-226 | exactly when two answers to questions asked on the same sections, by two coordinators, leave sections that tile the log |
| TraceSections.AnswerWrites | apps/api/src/trace-section-coordinator.ts:179-226 | the rows an answer writes: of the latest section's phase and within 16 context checkpoints it widens that section, otherwise it completes it as it stands and adds its own; the row written is completed exactly when completion is forced and the scheduled end reached |
| TraceSections.QuestionAsked | apps/api/src/trace-section-coordinator.ts:122-178 | when the summariser is asked, about which events, and what happens when it is not |
| TraceSections.EventSchedules | apps/api/src/trace-section-coordinator.ts:57-89 | which events schedule which end, and with which force flag |
| TraceSections.TraceSectionCoordinator.constructor | apps/api/src/trace-section-coordinator.ts:33-55 | every run starts empty and valid |
| TraceSections.TraceSectionCoordinator.WriteEvent | packages/metadata/src/index.ts:1979-2015 | the log gains the event under the next number, and its checkpoint is recorded |
| TraceSections.TraceSectionCoordinator.ObserveEvent | apps/api/src/trace-section-coordinator.ts:57-75 | observing schedules the end the rules call for, in that run alone |
| TraceSections.TraceSectionCoordinator.DeliverEvent | apps/api/src/run-event-pipeline.ts:73-80 | one delivery is one event step of its run |
| TraceSections.TraceSectionCoordinator.ScheduleEnd | apps/api/src/trace-section-coordinator.ts:77-89 | requests coalesce to the greater end and keep the force flag |
| TraceSections.TraceSectionCoordinator.ProcessRun | apps/api/src/trace-section-coordinator.ts:91-103 | a microtask is one step: it takes the latch and the queued request, or does nothing |
| TraceSections.TraceSectionCoordinator.ContinueRun | apps/api/src/trace-section-coordinator.ts:103-119 | an unfinished request is merged back with what was queued meanwhile |
| TraceSections.TraceSectionCoordinator.TakeNext | apps/api/src/trace-section-coordinator.ts:97-103 | one turn of the drain loop, releasing the latch when nothing is queued |
| TraceSections.TraceSectionCoordinator.SummarizeRange | apps/api/src/trace-section-coordinator.ts:122-168 | the range to summarise, the early returns and the forced completion of the last row |
| TraceSections.TraceSectionCoordinator.ReceiveSummary | apps/api/src/trace-section-coordinator.ts:179-226 | the rows written for an answer: merged, or closed and appended |
| TraceSections.TraceSectionCoordinator.StepsKeepValid | apps/api/src/trace-section-coordinator.ts:57-226 | any of these method steps keeps all runs valid |
| FileStore.EnsureAssetStores | packages/files/src/index.ts:115-146 | storing bytes yields one asset for their digest, leaves what references read alone, and keeps the bytes unless a record was there without its file |
| FileStore.PointAtWrites | packages/files/src/index.ts:225-275 | pointing a reference at an asset changes what that reference reads and nothing else |
| FileStore.GcOutcome | packages/files/src/index.ts:277-291 | collection leaves exactly the assets with a live reference when no deleted row names an orphan, and fails otherwise, for good; live references read what they did |
| FileStore.PerformRefines | packages/files/src/index.ts:115-348 | every operation, a blocked collection included, is the operation on the naive map of references to their own bytes, if and only if it does not store bytes whose record is there without its file |
| FileStore.StaysIntact | packages/files/src/index.ts:115-348 | every record keeps its file if and only if no collection is blocked, and until then no operation loses bytes |
| FileStore.StoreRefinesNaive | packages/files/src/index.ts:115-348 | live references can be read throughout any sequence of operations if and only if none stores such bytes, and the store then stands for the naive one |
| FileStore.WritesOneReference | packages/files/src/index.ts:206-348 | a sync or promotion changes at most the one live reference of that name and scope, or adds one |
| FileStore.SyncEffect | packages/files/src/index.ts:206-275 | a sync for a session writes a reference of exactly that session and leaves what all references of other sessions, or of none, read; without a session it writes one of no session |
| FileStore.CreateEffect | packages/files/src/index.ts:115-146 | a created reference has exactly the given origin, session and sanitised name, and no live reference changes |
| FileStore.PromoteEffect | packages/files/src/index.ts:293-348 | a promotion reads the promoted bytes from a workspace reference without a session, the only kind it overwrites |
| FileStore.RetireEffect | packages/files/src/index.ts:154-157 | a deletion retires exactly one visible reference of the user and workspace, or none |
| FileStore.CreatedReadsBack | packages/files/src/index.ts:115-204 | a created reference reads its bytes exactly when no record for them is there without its file |
| FileStore.BlockedCollectionLosesBytes | packages/files/src/index.ts:277-291 | store, delete, collect, store again: the new reference reads nothing |
| FileStore.LocalFileAssetService.FindBySha256 | packages/metadata/src/index.ts:3206-3220 | finds the one asset with a digest, if any |
| FileStore.LocalFileAssetService.FindActiveByFilename | packages/metadata/src/index.ts:3314-3343 | finds a newest live reference of that name, origin and scope, if any |
| FileStore.LocalFileAssetService.StoreBytes | packages/files/src/index.ts:115-130 | bytes are stored once per digest |
| FileStore.LocalFileAssetService.CreateRef | packages/files/src/index.ts:115-146 | creates the reference under its sanitised name |
| FileStore.LocalFileAssetService.SyncWorkspaceFile | packages/files/src/index.ts:206-275 | overwrites the matching workspace reference or adds one |
| FileStore.LocalFileAssetService.PromoteFileToWorkspace | packages/files/src/index.ts:293-348 | copies a reference to workspace scope, overwriting one of that name |
| FileStore.LocalFileAssetService.DeleteRef | packages/files/src/index.ts:154-157 | marks a visible reference deleted, or reports it missing |
| FileStore.LocalFileAssetService.ReadRef | packages/files/src/index.ts:158-204 | reads the bytes of a live, visible reference |
| FileStore.LocalFileAssetService.ListOrphans | packages/metadata/src/index.ts:3222-3233 | lists the assets no live reference names, each once |
| FileStore.LocalFileAssetService.GcOrphanAssets | packages/files/src/index.ts:277-291 | removes files and rows of the listed orphans until a row resists |
| SessionBranching.PathShape | apps/api/src/session-branching.ts:305-358 | a session's path runs from its stored root through distinct sessions, each but the last cut at an existing position |
| SessionBranching.ResolveFollowsPath | apps/api/src/session-branching.ts:305-336 | on a kept store resolution returns that path and raises neither error |
| SessionBranching.LineageIsPath | apps/api/src/session-branching.ts:42-48 | resolving a session gives its path, or reports that there is no such session |
| SessionBranching.StepKeeps | apps/api/src/session-branching.ts:83-164 | every operation keeps branch rows acyclic, roots right and cuts existing |
| SessionBranching.ReachableResolves | apps/api/src/session-branching.ts:305-358 | every session of every reachable store resolves: distinct segments, only the last uncut, the first the stored root |
| SessionBranching.InheritedStays | apps/api/src/session-branching.ts:50-66 | one step anywhere leaves the inherited part of a surviving session alone |
| SessionBranching.InheritedForever | apps/api/src/session-branching.ts:50-66 | so does every sequence of appends, forks and deletions, at any depth |
| SessionBranching.VisibleSplits | apps/api/src/session-branching.ts:50-66 | a session shows what it inherits, then its own messages |
| SessionBranching.ListingShowsNewest | apps/api/src/session-branching.ts:50-66 | listing a session gives its newest visible messages up to the limit, without the excluded run's |
| SessionBranching.ForkShowsParentCut | apps/api/src/session-branching.ts:119-164 | a fresh branch shows its parent's visible history cut at the fork position |
| SessionBranching.ForkIsSnapshot | apps/api/src/session-branching.ts:119-164 | for as long as it exists it inherits exactly that |
| SessionBranching.RunForkHidesRun | apps/api/src/session-branching.ts:197-216 | forking from a run hides every message of the run, wherever it stands, and keeps exactly the earlier ones of its session |
| SessionBranching.CheckpointForkShows | apps/api/src/session-branching.ts:197-216 | forking from a checkpoint shows the parent's messages up to the checkpoint's position, else up to the run's first user message, else those before the run's first message |
| SessionBranching.ForkAllowedIff | apps/api/src/session-branching.ts:83-164 | exactly when a fork is allowed, spelled out over sessions, runs, checkpoints and messages |
| SessionBranching.ForkErrors | apps/api/src/session-branching.ts:83-164 | which error a refused fork reports, in the order of the checks |
| SessionBranching.AppendAdds | packages/metadata/src/index.ts:2063-2078 | an appended message gets the position after the session's last and changes nothing else |
| SessionBranching.DeletionTakes | packages/metadata/src/index.ts:1335-1470 | what goes with deleted sessions, and what stays |
| SessionBranching.MetadataStore.CreateSessionBranch | apps/api/src/session-branching.ts:83-195 | the checks in order, their errors, and the session and branch row inserted |
| Csv.ParsePrint | apps/api/src/config-api.ts:3134-3212 | parsing any printed table gives its rows, an empty row as one empty cell |
| Csv.RoundTrip | apps/api/src/config-api.ts:3271-3309 | parsing the printed table gives exactly that table if and only if it has a row and no empty row |
| Csv.ResultRoundTrip | packages/data-gateway/src/index.ts:539-553 | an exported query result parses to its columns and rows |
| Csv.PrintAfterParse | apps/api/src/config-api.ts:3271-3309 | printing after parsing is idempotent on any text |
| Csv.PreviewReadsBack | apps/api/src/config-api.ts:3178-3199 | a downloaded preview reads back as its text columns and its rows, without the skipped ones |
| Csv.AnyText | apps/api/src/config-api.ts:3271-3309 | what any text parses to: it is lines of cells written plainly, in quotes or in turns of both, with any line ends, and gives the contents of these cells |
| Csv.AnyLineEnds | apps/api/src/config-api.ts:3271-3309 | a table printed with line feeds, carriage returns or both, in any mixture, last one or none, parses to itself if and only if no empty row's line feed follows a carriage return and no empty row ends the text without a line end |
| Csv.ParseWritten | apps/api/src/config-api.ts:3271-3309 | the same for cells written in any way the language allows |
| Csv.PrintIsRows | apps/api/src/config-api.ts:3196-3199 | the printer ends every row with a line feed |
| Csv.PrintedAsItIs | apps/api/src/config-api.ts:3211-3212 | a cell is put in quotes exactly when it has a quote, a comma or a line end |
| Csv.PreviewRows | apps/api/src/config-api.ts:3178-3199 | the rows of a preview are printed one by one, in order |
| Csv.PreviewCells | apps/api/src/config-api.ts:3178-3199 | cell by cell what a listed or recorded preview row prints |
| Csv.TextColumnsAppend | apps/api/src/config-api.ts:3178-3199 | the columns of a preview are its names that are text, in order |
| Csv.CsvToSheetData | apps/api/src/config-api.ts:3271-3309 | the character loop computes the specified table, before cells are coerced |
| Csv.PreviewCsv | apps/api/src/config-api.ts:3178-3199 | the pushed lines are the printed table, none without text columns |
| SqlScanners.StripSqlComments | packages/data-gateway/src/readonly-guard.ts:38-111 | the index loop writes quoted text verbatim and one space per comment |
| SqlScanners.HasMultipleStatements | packages/data-gateway/src/readonly-guard.ts:141-175 | true exactly when an unquoted semicolon is followed by text that is not blank |
| SqlScanners.LineCommentEnds | packages/data-gateway/src/readonly-guard.ts:85-92 | a line comment ends before the first line end, or with the text |
| SqlScanners.BlockCommentEnds | packages/data-gateway/src/readonly-guard.ts:94-105 | a block comment ends after its first closer, or with the text |
| SqlScanners.PiecesRead | packages/data-gateway/src/readonly-guard.ts:38-111 | copied characters and comments together are the input, in order |
| SqlScanners.StripShortens | packages/data-gateway/src/readonly-guard.ts:38-111 | stripping never lengthens the text |
| SqlScanners.StripIsIdempotent | packages/data-gateway/src/readonly-guard.ts:38-111 | stripping twice is stripping once |
| SqlScanners.ScannersAgree | packages/data-gateway/src/readonly-guard.ts:38-175 | on stripped text the counter has the stripper's quote state at every character, and no comment opener is left outside quotes |
| SqlScanners.SecondStatementSeen | packages/data-gateway/src/readonly-guard.ts:141-175 | on stripped text it answers true exactly when the original has a semicolon outside quotes and comments with uncommented non-blank text after it |
| SqlScanners.EveryText | packages/data-gateway/src/readonly-guard.ts:38-111 | every text is a sequence of characters outside quotes, literals with their marks, and comments, the last of which may be left open |
| SqlScanners.StripTokens | packages/data-gateway/src/readonly-guard.ts:38-111 | of any text the stripper keeps literals and characters outside as they are and makes each comment one space |
| SqlScanners.GuardSeesTokens | packages/data-gateway/src/readonly-guard.ts:38-175 | after stripping, a second statement is reported if and only if a semicolon outside literals and comments is followed by a literal or a non-blank character outside comments |
| TerminalRedraw.EraseGoingUp | apps/tui/src/terminal-redraw-optimizer.ts:7-12 | what the original sequence erases and where it leaves the cursor, from any parser state |
| TerminalRedraw.ShowBounded | apps/tui/src/terminal-redraw-optimizer.ts:39-49 | what the bounded form erases and where it leaves the cursor |
| TerminalRedraw.RewriteIsHarmless | apps/tui/src/terminal-redraw-optimizer.ts:30-51 | both leave the same screen if and only if there is room to go up or the further lines are blank |
| TerminalRedraw.OptimizeKeepsScreen | apps/tui/src/terminal-redraw-optimizer.ts:30-51 | a whole output, whatever else it holds, leaves the same screen, cursor and parser state when each match is harmless |
| TerminalRedraw.HarmlessIffNeverDiffers | apps/tui/src/terminal-redraw-optimizer.ts:30-51 | each match is harmless if and only if every prefix of the output that ends between matches shows the same rewritten and not |
| TerminalRedraw.MatchIsUnique | apps/tui/src/terminal-redraw-optimizer.ts:7-12 | the pattern matches in one way only |
| TerminalRedraw.OccurrencesInSequence | apps/tui/src/terminal-redraw-optimizer.ts:31-33 | the erases counted in a match are one more than its moves up |
| TerminalRedraw.NearTheTopItErasesMore | apps/tui/src/terminal-redraw-optimizer.ts:56-58 | a screen on which the rewriting erases a line the original keeps |
| TerminalRedraw.CountOccurrences | apps/tui/src/terminal-redraw-optimizer.ts:18-28 | the loop counts the non-overlapping occurrences |
| TerminalRedraw.RewriteSequence | apps/tui/src/terminal-redraw-optimizer.ts:31-50 | the loop builds the bounded form, or keeps a single move |
| RunEvents.ToolResultContract | apps/api/src/run-event-pipeline.ts:34-83 | over any segment of a run, whatever its log holds, each call id has at most one result, and each call that ended has exactly one before the run-ending event |
| RunEvents.SegmentContract | apps/api/src/run-event-pipeline.ts:34-83 | what a segment makes of any log: ended calls stay answered if and only if it closes those the log leaves open before it ends the run; calls keep one result if and only if it answers none that the log answers |
| RunEvents.WholeRunContract | apps/api/src/server.ts:611-680 | the same over all segments of a suspended and resumed run, as conditions on what each emits |
| RunEvents.UnsuspendedRunKeepsContract | apps/api/src/run-event-pipeline.ts:34-83 | a run of one segment keeps both |
| RunEvents.DeclinedResumeLeavesCallOpen | apps/api/src/server.ts:830-874 | a call ends, the run is suspended, the resume is declined: the run ends with the call unanswered |
| RunEvents.ResultInTwoSegments | apps/api/src/run-event-pipeline.ts:30-32 | a result emitted in two segments is in the log twice |
| RunEvents.LogIsStream | apps/api/src/run-event-pipeline.ts:63-83 | from any log, what a segment adds is its stream without repeated protocol events, so nothing is missing if and only if the emitted and projected events repeat no protocol id nor one of the log |
| RunEvents.WholeLogIsStream | apps/api/src/server.ts:666-681 | over all segments the log is what clients were sent if and only if no protocol id is emitted twice |
| RunEvents.RepeatedProtocolEvent | packages/metadata/src/index.ts:1979-2015 | the same protocol event twice: twice in the stream, once in the log |
| RunEvents.ObservedDelivers | apps/api/src/run-event-pipeline.ts:38-46 | an event is delivered unless it repeats a result; a run-ending event is preceded by one marker for each unanswered call and no other |
| RunEvents.StreamIsExpected | apps/api/src/run-event-pipeline.ts:34-83 | the client's stream of any segment is a function of the emitted and projected events alone: all of them in order without repeated results, and before a run-ending event one marker for each call that ended without a result, under the name it ended with |
| RunEvents.RunKeeps | apps/api/src/run-event-pipeline.ts:34-83 | every emission keeps the invariant behind these |
| RunEvents.ToolCallResultBridge.Observe | apps/api/src/tool-call-result-bridge.ts:23-38 | an END is noted, a result marks the first call of its id |
| RunEvents.ToolCallResultBridge.FlushPendingResults | apps/api/src/tool-call-result-bridge.ts:41-59 | one marker per unanswered call, all marked answered |
| RunEvents.RunEventPipeline.DeliverOne | apps/api/src/run-event-pipeline.ts:63-83 | repeated results are dropped, everything else is persisted and handed on |
| RunEvents.RunEventPipeline.ObserveOne | apps/api/src/run-event-pipeline.ts:38-46 | markers before a run-ending event, then the event |
| RunEvents.RunEventPipeline.EmitEvent | apps/api/src/run-event-pipeline.ts:34-61 | projected events follow, and nothing is projected from them |
| CanonicalJson.CanonicalMembers | apps/api/src/run-identity.ts:116-121 | a canonical object holds exactly the defined members, each canonical |
| CanonicalJson.CanonicalOrdered | apps/api/src/run-identity.ts:116-121 | without tied keys its members are in the one order of keys |
| CanonicalJson.CanonicalDecidesSame | apps/api/src/run-identity.ts:86-122 | a request without tied keys has the form of another if and only if the two are equal up to member order and undefined members, at any depth |
| CanonicalJson.CanonicalTwice | apps/api/src/run-identity.ts:108-122 | canonicalising twice changes nothing, with or without tied keys |
| CanonicalJson.TiedKeysKeepInputOrder | apps/api/src/run-identity.ts:119 | any object with two tied keys, written with these two members exchanged, has another form |
| CanonicalJson.OneFormIffNoTies | apps/api/src/run-identity.ts:86-122 | all requests equal to a given one have its form if and only if no object in it has two tied keys |
| McpLoop.RunAgent | apps/api/src/policy-mcp-middleware.ts:94-113 | one run of the agent: what is passed on, what is withheld, whether it failed |
| McpLoop.CollectOpenToolCalls | apps/api/src/policy-mcp-middleware.ts:348-360 | the loop finds the calls no tool message answers |
| McpLoop.HandleIterationComplete | apps/api/src/policy-mcp-middleware.ts:150-233 | how a round ends: stop, limit, or results and another round |
| McpLoop.RunLoop | apps/api/src/policy-mcp-middleware.ts:80-148 | the whole loop sends and ends as specified |
| McpLoop.RoundsAreBounded | apps/api/src/policy-mcp-middleware.ts:178-203 | for any agent the loop ends after at most the configured number of tool rounds |
| McpLoop.StartsOnceFinishesLast | apps/api/src/policy-mcp-middleware.ts:100-111 | RUN_STARTED passes only from the first run, RUN_FINISHED at most once and last |
| McpLoop.EveryOpenCallAnsweredOnce | apps/api/src/policy-mcp-middleware.ts:169-222 | every MCP call left open by a run that was seen through gets exactly one result in the whole stream |
| McpLoop.WholeStream | apps/api/src/policy-mcp-middleware.ts:80-233 | the whole stream taken apart run by run: all a run emits passes in order but RUN_FINISHED and a later RUN_STARTED; then one result for each open MCP call, executed below the limit and the limit's marker at it; what the next run is given; when and why the loop ends |
| McpLoop.CompletedRunFinishes | apps/api/src/policy-mcp-middleware.ts:149-176 | when the loop completes after a run that did not fail, the stream ends with the last RUN_FINISHED that run emitted |
| ModelFallback.ConfigResources.ValidateModelFallback | apps/api/src/config-api.ts:1716-1736 | the visited-set loop ends and reports the first repeated or missing profile |
| ModelFallback.ConfigResources.Save | apps/api/src/config-api.ts:1638-1714 | a refused save changes nothing, another one its row alone |
| ModelFallback.ConfigResources.Delete | packages/metadata/src/config-store.ts:200-209 | removes the row or reports it missing |
| ModelFallback.ConfigResources.ResolveRunModelProvider | apps/api/src/run-config-resolver.ts:240-284 | the server's own provider when none is chosen; otherwise the run's loop ends and takes the profiles in order |
| ModelFallback.CheckDecides | apps/api/src/config-api.ts:1716-1736 | validation passes if and only if the chain ends, exists and avoids the profile saved |
| ModelFallback.SaveOutcome | apps/api/src/config-api.ts:1638-1714 | exactly when a save goes through, and what it then changes |
| ModelFallback.DeleteOutcome | packages/metadata/src/config-store.ts:200-209 | a deletion removes the named profile alone |
| ModelFallback.HistoryKeeps | apps/api/src/config-api.ts:1638-1736 | every sequence of saves and deletes keeps all fallback chains finite |
| ModelFallback.InvIsAcyclic | apps/api/src/config-api.ts:1716-1736 | then no chain comes back to where it started |
| ModelFallback.NoRunMeetsACycle | apps/api/src/run-config-resolver.ts:240-284 | no run is ever refused for a cycle, whatever profile or default it starts from |
| ModelFallback.RunTakesTheChain | apps/api/src/run-config-resolver.ts:253-284 | the run takes the whole validated chain in order if and only if its profiles exist, can be used and name their fallbacks without blanks |
| ModelFallback.ProvidersOfRun | apps/api/src/run-config-resolver.ts:240-284 | after any history, what every choice of a profile gives a run, or which error |
| ModelFallback.PaddedFallbackStopsTheRun | apps/api/src/run-config-resolver.ts:714-717 | a padded fallback passes validation and stops the run |
| RunIdentity.HandleKeysDiffer | apps/api/src/run-cancel-registry.ts:49-51 | while user ids hold no colon, handles of different runs have different keys |
| RunIdentity.BlockedIffLive | apps/api/src/stale-active-runs.ts:12-47 | a session is blocked if and only if another of its active runs is suspended or live |
| RunIdentity.ReclaimIsDetermined | apps/api/src/stale-active-runs.ts:12-47 | with distinct start times, what is canceled and what blocks is determined |
| RunIdentity.ActiveIsAlone | apps/api/src/run-identity-orchestrator.ts:74-149 | a call that returns active leaves its run the only queued, running or suspended one of its session |
| RunIdentity.OnlyOrphansCanceled | apps/api/src/run-identity-orchestrator.ts:38-149 | on every outcome only orphans of that session are canceled, and nothing else changes but the run's own row |
| RunIdentity.ReplayChangesNothing | apps/api/src/run-identity.ts:16-45 | a replay returns exactly the persisted events and changes nothing |
| RunIdentity.ClaimNeverConflicts | apps/api/src/run-identity-orchestrator.ts:128-141 | the claim of one call cannot lose |
| RunIdentity.NewRunStartsIff | apps/api/src/run-identity-orchestrator.ts:74-142 | exactly when a new run starts, and what its row and its session's then are |
| RunIdentity.ResumeStartsIff | apps/api/src/run-identity-orchestrator.ts:88-110 | exactly when a suspended run is resumed, and what its row is then |
| RunIdentity.ReplayedIff | apps/api/src/run-identity-orchestrator.ts:52-72 | exactly when a run is replayed |
| RunIdentity.ReplayErrors | apps/api/src/run-identity.ts:16-45 | which error a replay that fails reports |
| RunIdentity.AdmissionErrors | apps/api/src/run-identity-orchestrator.ts:74-142 | which error a start or a resume that fails reports, a blocked session first |
| RunIdentity.RetryIsIdempotent | apps/api/src/run-identity-orchestrator.ts:52-72 | the same request again is refused while its run is active, then answered with the persisted events, and never claimed twice |
| RunIdentity.AlwaysExclusive | apps/api/src/run-identity-orchestrator.ts:38-149 | in every history no session has two queued, running or suspended runs |
| RunIdentity.StartUpReclaimsAll | apps/api/src/stale-active-runs.ts:50-71 | the start-up pass leaves no queued or running row if and only if there were at most 500 |
| RunIdentity.MetadataStore.FindActiveBySession | packages/metadata/src/index.ts:1903-1920 | a newest active run of the session other than the excluded one |
| RunIdentity.MetadataStore.UpdateStatus | packages/metadata/src/index.ts:1954-1973 | no other row, table or field changes; an ended run blocks its session no more, and whatever else blocked it still does |
| RunIdentity.MetadataStore.ResolveLiveSessionActiveRun | apps/api/src/stale-active-runs.ts:12-47 | the loop ends, having canceled the orphans newer than the run it returns |
| RunIdentity.MetadataStore.ListClaimed | packages/metadata/src/index.ts:1922-1942 | the newest queued and running rows, 500 at most |
| RunIdentity.MetadataStore.ReclaimOrphanedQueuedAndRunningRuns | apps/api/src/stale-active-runs.ts:50-71 | cancels exactly the listed orphans and counts them |
| RunIdentity.MetadataStore.ResolveRunIdentity | apps/api/src/run-identity-orchestrator.ts:38-149 | one call: replay, refuse, resume or claim |
| TraceDagIds.PrintedIdsDiffer | apps/api/src/trace-dag.ts:189-199 | two nodes carry one id if and only if they are the same node or one run's id goes on where a tool call of the other begins |
| TraceDagIds.PrintedForms | apps/api/src/trace-dag.ts:189-613 | the texts of the ids |
| TraceDagIds.ColonsMakeIdsClash | apps/api/src/trace-dag.ts:541 | a family of such run ids and tool calls |
| TraceDagIds.ColonFreeRunsNeverClash | apps/api/src/trace-dag.ts:189-199 | without colons in visible run ids no two nodes share an id |
| TraceDagIds.TraceGraphIsAForest | apps/api/src/trace-dag.ts:183-302 | the program's graph is the graph of nodes, each under its id, if and only if no nodes of visible runs clash; it is then a forest with the same paths |
| TraceDagIds.ClashGivesTwoParents | apps/api/src/trace-dag.ts:189-206 | a run with a user turn that starts under another run's tool call gives a node two incoming edges |
| TraceDagIds.BranchShownBelowItsContext | apps/api/src/trace-dag.ts:316-340 | without clashes the program shows a branch below the context whose checkpoint it forked |
| TraceDagIds.EdgeIdsDiffer | apps/api/src/trace-dag.ts:287-302 | while the ids edges start from hold no arrow, two edges share an id if and only if their nodes' ids and kinds are the same |
| TraceDag.EventKeysDiffer | apps/api/src/trace-dag.ts:711-713 | whatever colons run ids hold, checkpoints of different events have different keys |
| TraceDag.NodesFormAForest | apps/api/src/trace-dag.ts:183-236 | the node list is a topological order, in-degrees are at most one, each run has exactly the nodes its events make, all reachable from its start, as are artifacts; branches hang below their checkpoint's node |
| TraceDag.EveryEdge | apps/api/src/trace-dag.ts:183-236 | every edge and no other: a run's start hangs below the first message its user sent, each other node of it below the one the run came by just before, artifacts below the last node it came by, shown branches below the node of their checkpoint |
| TraceDag.EveryNode | apps/api/src/trace-dag.ts:276-343 | what every node says: its run, its event, a tool call's number being that of its last event, and the checkpoint that goes with them |
| TraceDag.VisibleRunsAre | apps/api/src/trace-dag.ts:635-640 | the runs shown are those of visible messages and the run a branch was forked from, each once |
| TraceDag.UniqueInOrder | apps/api/src/trace-dag.ts:881-883 | in the order in which they first appear |
| TraceDag.WhichCheckpoint | apps/api/src/trace-dag.ts:325-340 | the checkpoint a node gets: its tool call's last, else its event's first of the kind that goes with it, else its event's first |
| TraceDag.BranchHangsBelowItsContext | apps/api/src/trace-dag.ts:316-340 | a branch forked from a compiled context's checkpoint hangs below that context's own node, whatever else the runs did |
| TraceDag.FoundOnlyThere | apps/api/src/trace-dag.ts:325-340 | that checkpoint is found for its context's node and for no other |
| TraceDag.PathsRunForward | apps/api/src/trace-dag.ts:287-302 | paths run forward in the node list, so there is no cycle |
| TraceDag.EventKeeps | apps/api/src/trace-dag.ts:427-566 | one event hangs at most one new node below the last and keeps the run's nodes exact |
| TraceDag.HangKeeps | apps/api/src/trace-dag.ts:276-302 | a new node below an old one keeps the forest |
| TraceDag.TraceDagBuilder.constructor | apps/api/src/trace-dag.ts:261-274 | the two tables index the checkpoints |
| TraceDag.TraceDagBuilder.PutNode | apps/api/src/trace-dag.ts:276-285 | adds or merges a node and attaches its checkpoint |
| TraceDag.TraceDagBuilder.PutEdge | apps/api/src/trace-dag.ts:287-302 | adds an edge once, never a loop |
| TraceDag.TraceDagBuilder.AddUserTurnNodes | apps/api/src/trace-dag.ts:398-425 | user turns, and the first of each run |
| TraceDag.TraceDagBuilder.AddEventNode | apps/api/src/trace-dag.ts:427-566 | what each kind of event adds |
| TraceDag.TraceDagBuilder.AddRun | apps/api/src/trace-dag.ts:187-223 | one run below its user turn |
| TraceDag.TraceDagBuilder.AddArtifactNodes | apps/api/src/trace-dag.ts:568-595 | a run's artifacts below its last node |
| TraceDag.TraceDagBuilder.AddCheckpointBranchNodes | apps/api/src/trace-dag.ts:597-625 | branches below their fork checkpoint's node |
| TraceDag.BuildSessionTraceDag | apps/api/src/trace-dag.ts:183-238 | the whole graph |
| ConversationSummary.NoGapIff | apps/api/src/conversation-memory.ts:519-534 | a summary follows on from the one before if and only if one load holds all open messages |
| ConversationSummary.StepKeeps | apps/api/src/conversation-memory.ts:503-571 | every step keeps the tiling of positions, and the summarised range only grows |
| ConversationSummary.PositionsArePartitioned | apps/api/src/conversation-memory.ts:503-571 | each position up to the latest end went into exactly one summary, and the rest are exactly the open messages |
| ConversationSummary.HistoryKeeps | apps/api/src/conversation-memory.ts:503-571 | both over every history, with messages arriving while a text is generated |
| ConversationSummary.FlushLeaves | apps/api/src/conversation-memory.ts:527-558 | no summary if and only if too little is open; else one new row from after the latest to before the kept messages, which with the new ones stay open |
| ConversationSummary.LatestIsFurthest | packages/metadata/src/index.ts:2322-2340 | the latest summary reaches furthest, and no later row reaches as far |
| ConversationSummary.CreatedIff | packages/metadata/src/index.ts:2278-2320 | a summary is inserted if and only if no row has its id or its range |
| ConversationSummary.ConversationMemory.AppendMessage | packages/metadata/src/index.ts:2063-2078 | the new row comes last, its position the least above every stored one; earlier rows and summaries stay |
| ConversationSummary.ConversationMemory.PlanSummary | apps/api/src/conversation-memory.ts:514-539 | chooses the messages to summarise, or none |
| ConversationSummary.ConversationMemory.CreateSummary | packages/metadata/src/index.ts:2278-2320 | inserts the summary unless its id or range exists |
| HistoryWindow.BoundTwice | apps/api/src/conversation-memory.ts:796-801 | a bounded text keeps its first characters; bounding it again changes nothing if and only if it was short or is as long as the original, for any bound |
| HistoryWindow.BoundedForm | apps/api/src/conversation-memory.ts:796-801 | a text over the bound is its first characters and a note of its length |
| HistoryWindow.SelectBudgetedHistory | apps/api/src/conversation-memory.ts:700-756 | the selection with its totals and the summary's inclusion |
| HistoryWindow.ChooseRecent | apps/api/src/conversation-memory.ts:728-738 | the loop takes each row that still fits, newest first |
| HistoryWindow.BudgetedHistory | apps/api/src/conversation-memory.ts:700-756 | an order-preserving selection of the newest messages, greedy from the newest, totals equal to the sums, within both limits if and only if the current message is, and no dropped message of the window would still fit |
| HistoryWindow.WholeWindow | apps/api/src/conversation-memory.ts:728-740 | when the whole window fits it is all selected |
| HistoryWindow.WindowIsNewest | apps/api/src/conversation-memory.ts:713 | the window is the newest messages, as many as a positive limit says |
| HistoryWindow.CountedTexts | apps/api/src/conversation-memory.ts:700-756 | the summary is included exactly when it fits with the current message, and the totals are those of the texts given to the run, four tokens more for each |
| HistoryWindow.WindowBound | apps/api/src/conversation-memory.ts:713 | the window is bounded by its limit if and only if the limit is positive or the history short |
| HistoryWindow.NormalizeHistoryMessagePairs | apps/api/src/conversation-memory.ts:628-655 | the loop shows the rows and answers orphaned user messages |
| HistoryWindow.AlternatesIffRegular | apps/api/src/conversation-memory.ts:608-655 | roles strictly alternate, the assistant last, if and only if the rows are regular |
| HistoryWindow.PairingKeepsRows | apps/api/src/conversation-memory.ts:628-655 | apart from placeholders the messages are the shown rows, each once, in order |
| HistoryWindow.EveryMessage | apps/api/src/conversation-memory.ts:628-655 | each message is of a shown row, with its visible text, or the placeholder right after a user message that another one or nothing follows; no such message is without one |

## Left out

- Exceptions thrown by the stores inside the section worker, its retry after one, wall-clock timers and retry delays.
- Two coordinators at work on one run at a time, beyond two answers to questions asked on the same sections (`TwoAnswersTile`).
- The run-ending event that a suspended segment sends to its client alone and does not write to the log.
- Hard links and crashes between writing a temporary file and renaming it.
- `normalizeSql`, the keyword list and the removal of quoted text: regular expressions over text, which also rewrite literals.
- Turning parsed CSV cells into numbers and booleans, which is lossy by design; spreadsheets; the text of values that are not text.
- The hash itself and the choice of the request's fields; canonical forms are compared instead of digests.
- The asynchronous gap between claiming a run and registering its cancel handle: resolving a run is one atomic step.
- `RunIdentity`: when a run finished, its model and its user input; parent visibility is a parameter, which `SessionBranching` covers.
- `TraceDag`: labels, summaries, details, timestamps and sections of nodes.
- The limits of 200 visible messages and 500 checkpoints per session in the trace graph: its inputs are what the queries return.
- Appends that repeat a message id or text of the same run, which the store ignores; drafts of assistant messages; mirrored summaries.
- `HistoryWindow`: text lengths count Dafny characters, not UTF-16 units; the token counter and the printed summary are parameters.
- MCP transports, tool listing, allowlists and timeouts; tool answers and moments of cancellation are parameters.
- Provider construction, secrets and credentials; whether a profile can be used is a parameter.
- The JSON around the limit and not-delivered markers, message ids and timestamps of events: a constant stands for each marker.
- LLM calls, HTTP routing, authentication, DTO mapping and terminal rendering.
- TraceSections.TraceSectionCoordinator.WriteEvent: the lookup that returns an already stored protocol event, which `RunEvents` covers.
- FileStore.LocalFileAssetService.ReadRef: the mime type, and which of the ways to fail it was.
- SessionBranching.MetadataStore.CreateSessionBranch: title, data source selection and intent of the new rows.
- McpLoop.RunLoop: the tool listing before the first run, which is taken as given.
- ModelFallback.ConfigResources.Save: credentials, status and default flag of the row.
- TraceDag.TraceDagBuilder.PutNode: how labels, summaries, details and status of a node merge.
- TraceDagIds.TraceGraphIsAForest: does not say when a graph in which nodes were made one is still a forest; an edge is known by source, target and kind, not by the text they are joined to; `EdgeIdsDiffer` shows when that is the same.
- TerminalRedraw.OptimizeKeepsScreen: one direction only for the final screen, since a later part of the output can erase the difference again; `HarmlessIffNeverDiffers` is exact for the output as it arrives.
