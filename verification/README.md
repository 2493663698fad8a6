# DataMax turn recovery and host-agent proofs

A Dafny model of five parts of the DataMax platform, with proofs about all their runs and inputs.

* **Chat-turn crash recovery** (`crates/chat-session-worker`). A worker claims a task, asks a language
  model for an answer and commits it through a dozen separate durable writes. Any write may be refused,
  may take effect and still report an error, or may be the last one before the process dies; a retry
  searches four places for what an earlier attempt left behind and resumes, recreates or regenerates.
  `Attempt.dfy` is one attempt as a function of the durable state and of how every operation turns out;
  `TurnWorker.dfy` is the same attempt as code that updates durable fields step by step, proved equal to
  it; `Safety.dfy`, `Outcomes.dfy`, `CommitTrail.dfy` (how an attempt ends, write by write), `Engine.dfy`
  (the workflow engine), `ReplyRows.dfy` (table rows, turn indexes and what replies say), `Retries.dfy` (runs
  of several attempts) and `ReplyOrder.dfy` (time order) hold the results about attempts and runs. `TurnStore.dfy` has the durable state, the finders and the
  workflow engine; `TurnManifest.dfy` the per-turn manifests and their events, `ManifestStory.dfy` what
  they say field by field; `RecoveryCodec.dfy` the JSON
  in which recovery copies really are stored, and `JsonRecovery.dfy` the whole search over that JSON.
* **Codex host agent** (`crates/codex-host-agent`): the bounded artifact copy (`TreeCopy.dfy`), the search
  for a task result in process output (`StdoutScan.dfy`), the TOML escaper (`TomlString.dfy`) and the
  launch policy (`HostPolicy.dfy`).
* **Stale-response guards of the web client** (`apps/web/app/HomePageClient.js`): `LoadGuard.dfy`.
* **Document-id collector** and the memory manifest it reads: `DocumentIds.dfy`.
* **Scope planner** (`crates/assistant-runtime`): `ScopePlanner.dfy`.

`dafny verify dfyconfig.toml` checks the whole project.

## How a run of the recovery protocol is modelled

A run is a sequence of steps: an attempt on the newest task row with an arbitrary outcome for each of its
operations, any workflow signal, a requeue of the row, or a write of another turn (messages under the
table's unique turn index, also in the middle of an attempt, or a session manifest). Every intermediate
state of an attempt is the final state of an attempt that crashes there. Assumptions, all taken from the
source:

* attempts of one execution are serialised, and only its newest task row is claimed
  (`crates/storage/src/lib.rs:9820-9862`: only queued rows are claimed, and a retry inserts a fresh row);
* the turn id is fixed per execution, and nobody else writes replies to the turn or edits messages;
* the event log is append-only;
* answers are taken as they read back from storage (`NormalAnswer`). A provider's tool call may carry the
  argument `null` (`crates/llm-gateway/src/lib.rs:2861-2865`), which reads back as no argument; `StoredAlike`
  shows that the two are stored as the same JSON. Free-form finish reasons are never spelled like known
  ones, because all of them come from the wire parser.

Results about time assume a clock that does not run backwards (`Ticking`). The result that a reply is above
every row present at its insertion assumes that no row other writers get in during an attempt leaves a gap
above the largest index (`NoLeaps`). `EarlierReadNeverLeaps` shows this of every writer that uses one more than
the largest index it has read at any earlier time; besides the worker, `crates/platform-api/src/lib.rs:4859-4863`
does so.

## Where the code falls short of a natural claim

* *No errored answer is ever committed* is false: the generate path refuses `finish_reason = error`, the
  failure path stores that very answer as a session recovery copy, and recovery does not look at the
  finish reason again. `ErroredCommitExactly` gives the exact condition, `ErroredRetryCommits` a family
  of runs, and `StrictNeverErrored` shows that re-checking on recovery repairs it.
* *A completed session stays completed* is false: `SessionRegress` says exactly when a later attempt puts
  a failed manifest over it, `RegressRun` is a run that does.
* *A reply's events are in time order* is false for recreated replies: `ReplyOrderExactly` and
  `RecreatedOrder` give the exact condition over whole runs, `ReorderRun` a family of runs.
* *A reply's index is above every row present when it is inserted* is false if other writers may choose any
  free index: `CreateIndexExactly`, `GapLeavesReplyBelow`. `ReplyOnTop` proves it over every run in which
  nobody leaves a gap during an attempt.
* *An attempt in which no operation fails commits the turn* is false: a post that arrives meanwhile takes the
  index computed at the start. `ConvergesExactly` gives the exact condition, `PostMeanwhileRun` a family of
  runs, in which the ordinary retry then commits the answer without asking a provider again.
* *A durable answer is never lost* is false before the event checkpoint: `AnswerLostExactly` and
  `AnswerSurvivesExactly` say exactly when, and in `ForgottenRun` the provider is asked again for a turn whose
  good answer had been stored.
* *An approved launch stays outside the product repository* is false: the test compares spellings, does not
  collapse empty and `.` segments, and does not resolve relative roots. `LaunchPlace` gives the exact condition
  for every working directory, `DoubledSlashGetsIn` and `RelativeRootGetsIn` writable launches inside, and
  `CollapsedTestExact` the comparison that would decide it.
* *The message and report spinners are off at rest* is false: `MessageSpinnerAtRest` and
  `MessageSpinnerSticks`. Clearing the selection does not hold back a message response in flight either:
  `MessageClearLeaks`.
* *A quoted string is TOML* is false for values with control characters other than tab and newline:
  `QuoteRoundTrip`, `CarriageReturnIsLost`.
* *A stored answer reads back unchanged* holds exactly for canonical answers: `NormalIffCanonical`,
  `NullArgumentIsLost`.
* *Failed manifests agree with their event list* is false on three fields: `FailedTimestampsDiverge`, and
  attempts that leave such manifests: `UntracedFailureDiverges`, `StreamedFailureDiverges`,
  `UnreachedFailureDiverges`.

## Model

| member | source | states |
|---|---|---|
| Safety.CopiesAgree | crates/chat-session-worker/src/main.rs:614-990 | over every run, all copies of the turn's answer in message, session, task row and event log agree on content, runtime and tool calls; each is an answer a provider gave and passes the finders' check; at most one reply; unique turn indexes; a finalised reply has its closing events exactly once and says it is completed and committed |
| Safety.NoSecondGeneration | crates/chat-session-worker/src/main.rs:619-645 | once the event checkpoint or the reply is stored, no continuation of the run asks a provider again |
| Safety.FinalizedForever | crates/chat-session-worker/src/main.rs:1618-1650 | text, index, runtime and trace of every message survive any continuation; a finalised message does not change at all |
| Safety.NewReplyIndex | crates/chat-session-worker/src/main.rs:1340-1346 | with arbitrary other writers, a reply inserted later has a turn index above every row present at any earlier step boundary |
| ReplyRows.ReplyOnTop | crates/chat-session-worker/src/main.rs:483-486 | over every run in which no foreign row leaves a gap during an attempt, the reply is above every row present when it was inserted; writes between attempts are arbitrary |
| ReplyRows.EarlierReadNeverLeaps | crates/chat-session-worker/src/main.rs:1340-1346 | one more than the largest index read at any earlier time leaves no gap |
| ReplyRows.CreateIndexExactly | crates/chat-session-worker/src/main.rs:704-726 | with arbitrary writers: the inserted reply is on top exactly if no row that got in since the table was read is above the computed index |
| ReplyRows.GapLeavesReplyBelow | crates/chat-session-worker/src/main.rs:704-726 | a foreign row with a larger index ends up above the reply |
| ReplyRows.OthersAppended | crates/chat-session-worker/src/main.rs:1340-1346 | writers that read, then insert, collide under the unique index, so rows that get in are numbered consecutively |
| ReplyRows.ProcessRows | crates/chat-session-worker/src/main.rs:431-1129 | an attempt changes the table only by finalising the reply it resumes, or by appending the one its search calls for |
| ReplyRows.FinalReplySays | crates/chat-session-worker/src/lib.rs:610-671 | over every run, each finalised reply says in every status, timestamp, id and event that its own answer was committed as that row; readiness keeps its time; both closing events carry the request id, the finish reason and the trace count |
| ReplyRows.RunRendered | crates/chat-session-worker/src/lib.rs:75-111 | induction over runs: every reply is rendered from its own answer, open or finalised at its own row |
| Safety.RunGood | crates/chat-session-worker/src/main.rs:431-1129 | induction over whole runs: invariant kept, rows only finalised, logs only extended |
| Safety.ProcessGood | crates/chat-session-worker/src/main.rs:431-1129 | the same for one attempt with arbitrary outcomes of all its operations |
| Safety.AsksExactly | crates/chat-session-worker/src/main.rs:646-755 | an attempt asks a provider exactly if the execution is unfinished, resolver, event listing and in-flight write succeed, no copy is held and there is a profile; the log grows by exactly those requests |
| Safety.OtherStepGood | crates/workflow-definitions/src/lib.rs:86-268 | signals, requeues and writes of other turns keep the invariant and ask no provider |
| Safety.RecoverMeaning | crates/chat-session-worker/src/main.rs:619-645 | on reachable stores the search resumes exactly if there is a reply, only ever finds the one answer, never rejects a copy, and regenerates only if nothing is left to recover |
| Safety.CommitSafe | crates/chat-session-worker/src/main.rs:769-890 | checkpoint, event, manifest and reply writes add no answer but the generated one, wherever they stop |
| Safety.CreateSafe | crates/chat-session-worker/src/main.rs:704-749 | inserting and finalising a reply keeps all invariants, also when other turns insert rows meanwhile |
| Safety.FailSafe | crates/chat-session-worker/src/main.rs:993-1096 | the error tail stores at most a copy of the same answer |
| Safety.FailedSessionCopy | crates/chat-session-worker/src/lib.rs:566-568 | a failed manifest carries a recovery copy exactly when content and runtime are both known |
| Outcomes.Converges | crates/chat-session-worker/src/main.rs:444-455 | from every reachable unfinished store one attempt undisturbed up to session completion, resuming or getting its insert in, leaves a finalised reply, its records and a completed session, whatever follows; undisturbed to the end with a running execution also a succeeded task, a succeeded execution, a cleared checkpoint, and every further attempt is a no-op; in any other status the row is marked failed |
| Retries.ConvergesExactly | crates/chat-session-worker/src/main.rs:614-990 | an attempt whose operations all succeed leaves a committed turn, and any reply at all, exactly if there was a reply to resume or its index was still free |
| Retries.PostMeanwhileRun | crates/chat-session-worker/src/main.rs:704-726 | a post during an attempt without failures makes it fail with the answer durable; the retry commits that answer without a provider request |
| Retries.ForgottenRun | crates/chat-session-worker/src/main.rs:769-1064 | a good answer kept in the failed manifest only is overwritten by a resolver failure, and the next attempt asks the provider again |
| Outcomes.RecordConverges | crates/chat-session-worker/src/main.rs:898-990 | records, session completion and signal of an undisturbed attempt, by execution status |
| Outcomes.ReplyImpliesCheckpoint | crates/chat-session-worker/src/main.rs:793-817 | a generating attempt stores no reply before the event checkpoint is durable |
| Outcomes.AnswerLostExactly | crates/chat-session-worker/src/main.rs:769-817 | a fresh answer is lost exactly when neither checkpoint nor the failed manifest takes effect |
| Outcomes.AnswerSurvivesExactly | crates/chat-session-worker/src/main.rs:993-1064 | a held answer survives a step of the run exactly unless, without event and reply, the step overwrites the session copy or drops the task copy while the other is missing; an attempt does so exactly by failing in the resolver |
| Outcomes.RecoverExactly | crates/chat-session-worker/src/main.rs:619-645 | the search on any store: the first of last reply, session copy, task copy and newest event decides, and a copy that fails its check stops the attempt |
| Outcomes.EventLogIsLastResort | crates/chat-session-worker/src/main.rs:622-645 | reply, session copy, task copy, event: the first in this order is used, and the event log is not needed while another copy exists |
| Outcomes.ErroredCommitExactly | crates/chat-session-worker/src/main.rs:689-726 | an attempt commits an errored answer exactly when the session holds an errored copy, the resolver works and the insert takes effect |
| Outcomes.ErroredRetryCommits | crates/chat-session-worker/src/main.rs:759-768 | one errored generation followed by an ordinary retry always commits the errored answer |
| Outcomes.StrictNeverErrored | crates/chat-session-worker/src/main.rs:759-768 | if recovery re-checked the finish reason, no run would commit an errored answer |
| Outcomes.ProduceNotErrored | crates/chat-session-worker/src/main.rs:755-768 | the provider path itself never leaves an errored reply |
| Outcomes.CompletedSurvivesSignal | crates/chat-session-worker/src/main.rs:968-987 | a completed session survives whatever the completion signal does in the same attempt |
| CommitTrail.GeneratingTrail | crates/chat-session-worker/src/main.rs:646-1118 | how an attempt that finds nothing ends, in session manifest, execution, task row and checkpoint: the first write of the commit chain that does not simply succeed decides, and a reported failure is named after it |
| CommitTrail.RecreatingTrail | crates/chat-session-worker/src/main.rs:689-749 | the same for an attempt that recreates a reply |
| CommitTrail.ResumingTrail | crates/chat-session-worker/src/main.rs:1618-1650 | the same for an attempt that resumes a reply; failing to finalise it keeps no copy |
| CommitTrail.StoppedTrail | crates/chat-session-worker/src/main.rs:614-645 | a failing resolver or search leaves a failed manifest without a copy; a death there changes nothing |
| CommitTrail.FirstErrorNamed | crates/chat-session-worker/src/main.rs:993-1064 | the first write that reports an error is the commit failure source of the failed manifest, which keeps the answer |
| CommitTrail.SucceedsExactly | crates/chat-session-worker/src/main.rs:968-990 | the execution succeeds exactly if every write of the chain succeeds, it is running and the signal takes effect |
| CommitTrail.EventExactly | crates/chat-session-worker/src/main.rs:793-816 | the event checkpoint of the answer as of its ready time exactly if its write is reached and takes effect, and no other |
| CommitTrail.RecordsExactly | crates/chat-session-worker/src/main.rs:898-935 | each record exactly if its write takes effect, tool records only after the invocation |
| CommitTrail.ReadyCopyStays | crates/chat-session-worker/src/lib.rs:382-387 | once the ready manifest is in place, an attempt that stops before the insert leaves the answer as of its ready time in the session, and any later search without a reply recreates exactly that copy |
| CommitTrail.ExhaustedNamesLast | crates/chat-session-worker/src/main.rs:285-300 | after all profiles failed the session names the last one's request id and finish reason and counts the host's calls |
| Engine.EngineMoves | crates/workflow-definitions/src/lib.rs:86-268 | every move of an execution and its effect on the retries |
| Engine.DeliverExactly | crates/storage/src/lib.rs:9619-9680 | a signal is one transaction; only a start touches the task row |
| Engine.StartsAreBounded | crates/workflow-definitions/src/lib.rs:199-236 | over every run, starts plus the starts still possible never exceed the initial retries (plus one while pending) |
| Engine.SucceededOnlyCloses | crates/chat-session-worker/src/main.rs:444-455 | an attempt on a succeeded turn only closes its row |
| Outcomes.SessionRegress | crates/chat-session-worker/src/main.rs:993-1064 | a completed session regresses exactly when a later attempt fails before completing it again and its failed manifest takes effect |
| Outcomes.RegressRun | crates/chat-session-worker/src/main.rs:968-1064 | a run from a fresh store: committed and completed, completion signal refused, ordinary retry fails in the resolver, session manifest failed |
| Outcomes.UntracedFailureDiverges | crates/chat-session-worker/src/main.rs:1287-1300 | settled host calls without any runtime leave a failed manifest with a settled tool loop and no event for it |
| Outcomes.StreamedFailureDiverges | crates/chat-session-worker/src/lib.rs:404-574 | a commit that fails after a streamed response leaves a first-token event without its timestamp |
| Outcomes.UnreachedFailureDiverges | crates/chat-session-worker/src/lib.rs:404-574 | a streaming turn that reached no provider leaves a completed stream without an event |
| ReplyOrder.ReplyOrderExactly | crates/chat-session-worker/src/lib.rs:610-671 | over every run with a clock that does not run backwards, each finalised reply lists every kind once from start to completion, in time order exactly if there is no request id or the request is not younger than the response |
| ReplyOrder.FirstRunInOrder | crates/chat-session-worker/src/main.rs:755-890 | a reply stored by the attempt that generated it is in time order, whenever and by whichever attempt it is finalised |
| ReplyOrder.RecreatedOrder | crates/chat-session-worker/src/main.rs:696-703 | a recreated reply, whenever it is finalised, is in time order exactly if there is no request id or the fresh request time does not exceed the copy's capture time |
| ReplyOrder.ReorderRun | crates/chat-session-worker/src/main.rs:612-703 | every run with a crash after the event checkpoint, a requeue and a later undisturbed attempt ends with a finalised reply out of order |
| ReplyOrder.RunTimed | crates/chat-session-worker/src/main.rs:431-1129 | induction over runs: copies and replies stay stamped between the turn's start and now, each reply rendered from its own answer |
| ReplyOrder.InsertedStamp | crates/chat-session-worker/src/main.rs:689-726 | a reply that appears during an attempt carries the recovered or generated answer, the attempt's request time, and the copy's capture time or the provider's completion time |
| Attempt.RunProfiles | crates/chat-session-worker/src/main.rs:163-200 | the fallback loop returns the answer of the first profile that has one and asks none after it; if none has, the last profile's error, and nothing without profiles |
| Attempt.MakeAnswer | crates/chat-session-worker/src/lib.rs:815-819 | a generated answer is the reply's text and runtime with the host's calls first, and its trace count equals the number of its tool calls |
| Attempt.FirstAnswer | crates/chat-session-worker/src/main.rs:170-197 | position of the first profile that answers |
| TurnStore.LastReply | crates/chat-session-worker/src/main.rs:1429-1440 | the last reply of the turn, or there is none |
| TurnStore.LastEvent | crates/chat-session-worker/src/main.rs:1571-1580 | the newest recovery event of the turn, or there is none |
| TurnStore.FindMessage | crates/chat-session-worker/src/main.rs:1425-1458 | nothing exactly if there is no reply; what is found is the last reply, readable and with a right trace count |
| TurnStore.LastReplyDecides | crates/chat-session-worker/src/main.rs:1425-1458 | the last reply alone decides between success and error |
| TurnStore.NextTurnIndex | crates/chat-session-worker/src/main.rs:1340-1346 | one above the largest index in use, 0 for an empty table |
| TurnStore.InsertOthers | crates/storage/migrations/0001_initial_schema.sql:458-468 | foreign inserts keep existing rows and unique indexes and add no reply to this turn |
| TurnWorker.Worker.ProcessTask | crates/chat-session-worker/src/main.rs:431-1129 | the whole attempt, field by field, is `Attempt.Process`, and keeps the run invariant |
| TurnManifest.ToolStatusSummary | crates/chat-session-worker/src/lib.rs:673-695 | the three counts, which sum to the number of calls |
| ManifestStory.CountIsCardinality | crates/chat-session-worker/src/lib.rs:673-695 | each count is the number of positions with that status |
| TurnManifest.ToolLoop | crates/chat-session-worker/src/lib.rs:697-719 | pending if any call is open, else failed if any failed, else completed |
| TurnManifest.CountsPartition | crates/chat-session-worker/src/lib.rs:673-719 | the counts partition the list and alone determine the tool-loop status |
| TurnManifest.RenderMessageEvents | crates/chat-session-worker/src/lib.rs:869-958 | the pushes produce exactly the rows of the message table that are on, in table order |
| TurnManifest.RenderReadyEvents | crates/chat-session-worker/src/lib.rs:253-345 | likewise for response-ready manifests |
| TurnManifest.RenderFailedEvents | crates/chat-session-worker/src/lib.rs:404-527 | likewise for failed manifests |
| TurnManifest.ReadyTimestampsMatchEvents | crates/chat-session-worker/src/lib.rs:347-393 | each optional timestamp is set exactly when the matching event is listed |
| ManifestStory.ReadyFields | crates/chat-session-worker/src/lib.rs:347-393 | every field of a response-ready manifest in terms of the answer, with the recovery copy as of its ready time |
| ManifestStory.ReadyStory | crates/chat-session-worker/src/lib.rs:253-345 | which events it lists, in what order, and what each repeats of the manifest |
| ManifestStory.MessageFields | crates/chat-session-worker/src/lib.rs:75-111 | every field of a fresh reply's turn in terms of the answer |
| ManifestStory.MessageStory | crates/chat-session-worker/src/lib.rs:869-958 | which events it lists, in what order, and what each repeats of the manifest |
| ManifestStory.InFlightStory | crates/chat-session-worker/src/lib.rs:185-243 | every field and both events of an in-flight manifest |
| ManifestStory.FailedFields | crates/chat-session-worker/src/lib.rs:528-574 | every field of a failed manifest, for every failure |
| ManifestStory.FailedStory | crates/chat-session-worker/src/lib.rs:404-527 | which events it lists, in what order, and what each repeats of the manifest |
| ManifestStory.FinalStory | crates/chat-session-worker/src/lib.rs:610-671 | every field and event of a finalised turn |
| TurnManifest.FailedTimestampsDiverge | crates/chat-session-worker/src/lib.rs:528-574 | for every failure, failed manifests agree with their events on three fields and diverge on `first_token_at`, stream completion and the settled tool loop exactly in the stated cases |
| TurnManifest.FinalizedEvents | crates/chat-session-worker/src/lib.rs:653-668 | finalised list: kinds distinct, from `turn_started` to `turn_completed`, chronological exactly under the stated condition |
| TurnManifest.FinalizeCounts | crates/chat-session-worker/src/lib.rs:653-668 | finalising adds one of each closing event and no other |
| TurnManifest.FinalizeNotIdempotent | crates/chat-session-worker/src/lib.rs:610-671 | finalising twice differs from finalising once |
| RecoveryCodec.RuntimeRoundTrip | crates/chat-session-worker/src/main.rs:1660-1743 | a rendered runtime parses to itself, up to the spelling of its finish reason |
| RecoveryCodec.ReasonRoundTrip | crates/llm-gateway/src/lib.rs:116-141 | a finish reason survives exactly if it is not a free-form spelling of a known one; `error` is recovered from two reasons |
| RecoveryCodec.CallsRoundTrip | crates/chat-session-worker/src/main.rs:1779-1782 | tool traces read back, with or without tool snapshots, up to null arguments and results |
| RecoveryCodec.RuntimeAccepted | crates/chat-session-worker/src/main.rs:1660-1765 | exactly which runtime objects are accepted, and what stands in for missing fields |
| RecoveryCodec.CallAccepted | crates/chat-session-worker/src/main.rs:1779-1782 | exactly which tool calls are accepted |
| RecoveryCodec.CopyAccepted | crates/chat-session-worker/src/main.rs:1479-1513 | exactly which recovery payloads are accepted and what they are read as; a missing capture time is now, a malformed one an error |
| RecoveryCodec.NormalIffCanonical | crates/chat-session-worker/src/main.rs:1660-1782 | a round trip changes nothing exactly on canonical answers |
| RecoveryCodec.NullArgumentIsLost | crates/chat-session-worker/src/main.rs:1779-1782 | an answer whose tool call has a null argument reads back without it |
| RecoveryCodec.SessionReadsBack | crates/chat-session-worker/src/main.rs:1460-1513 | the JSON session finder is the record finder on every stored manifest with a canonical answer |
| RecoveryCodec.PayloadReadsBack | crates/chat-session-worker/src/main.rs:1515-1565 | the same for task payloads, whatever else the payload holds |
| RecoveryCodec.EventReadsBack | crates/chat-session-worker/src/main.rs:1583-1616 | the same for the payload of one workflow event |
| JsonRecovery.EventsReadBack | crates/chat-session-worker/src/main.rs:1567-1616 | the backwards search through a whole event log |
| JsonRecovery.SearchDecidesAlike | crates/chat-session-worker/src/main.rs:619-645 | on every stored form of every store the JSON search takes the record-level decision, its copy read back normalised |
| JsonRecovery.SearchOnRuns | crates/chat-session-worker/src/main.rs:619-645 | over every run with canonical answers the JSON search and the record-level search agree exactly |
| JsonRecovery.ResumeReadsAnswer | crates/chat-session-worker/src/main.rs:1425-1458 | a resumed reply is read as its answer |
| JsonRecovery.StoredAlike | crates/chat-session-worker/src/main.rs:1409-1423 | an answer and what it reads back as are stored as the same JSON in session manifest, task payload, event and message |
| JsonRecovery.RowReadsBack | crates/chat-session-worker/src/main.rs:1425-1458 | a stored reply is parsed to its answer, normalised, under the trace-count check |
| RecoveryCodec.ClearingRestores | crates/chat-session-worker/src/main.rs:1379-1407 | a cleared payload offers nothing; clearing undoes writing exactly on object payloads without the key |
| TreeCopy.CopyTree | crates/codex-host-agent/src/lib.rs:1786-1856 | limits hold at every point; succeeds exactly if the tree is readable and fits; then the target is exact; a stopped copy leaves everything before the first entry it could not take in; the totals are always those of the target |
| TreeCopy.CopyArtifact | crates/codex-host-agent/src/lib.rs:1780-1856 | the same for a whole copy from zero, with the limits of 500 files and 100 MiB |
| TreeCopy.StopsOnce | crates/codex-host-agent/src/lib.rs:1798-1853 | where a copy stops and what it leaves behind is determined by the listing |
| TreeCopy.StoppedFits | crates/codex-host-agent/src/lib.rs:1838-1852 | what a stopped copy leaves behind is within both limits |
| TreeCopy.SaturationIsHarmless | crates/codex-host-agent/src/lib.rs:1838-1852 | the saturating comparison equals exact addition |
| TreeCopy.OrderIrrelevant | crates/codex-host-agent/src/lib.rs:1798-1803 | listing order at any level changes neither verdict nor totals |
| TreeCopy.CopiesRelisted | crates/codex-host-agent/src/lib.rs:1798-1853 | copies of two listings of one tree are two listings of one tree |
| StdoutScan.Scan | crates/codex-host-agent/src/lib.rs:1247-1268 | the result names the template and comes from the rightmost position that leads to an output; none exactly if no position does |
| StdoutScan.ExtractIsFirst | crates/codex-host-agent/src/lib.rs:1270-1289 | the nested search is sound, complete and first in field-priority preorder |
| StdoutScan.ExtractIffRoute | crates/codex-host-agent/src/lib.rs:1270-1289 | something is found exactly if some route through wrapper fields leads to an output, and it names the template |
| StdoutScan.WrapperOrder | crates/codex-host-agent/src/lib.rs:1270-1289 | a value that names the template is its own result; otherwise the six wrapper fields are tried in their order |
| TomlString.ThreePassesAreOne | crates/codex-host-agent/src/lib.rs:2036-2042 | three whole-string replacements equal one character-wise pass |
| TomlString.QuoteRoundTrip | crates/codex-host-agent/src/lib.rs:2036-2042 | unescaping gives back every value and no inner quote ends the string; a strict reader of section "String" of TOML v1.0.0 accepts exactly the values without other raw controls |
| TomlString.QuoteInjective | crates/codex-host-agent/src/lib.rs:2036-2042 | different values are quoted differently |
| TomlString.CarriageReturnIsLost | crates/codex-host-agent/src/lib.rs:2036-2042 | a value whose quoted form a strict reader rejects |
| HostPolicy.LabelIsClean | crates/codex-host-agent/src/lib.rs:1906-1932 | whatever the ids are, the label is 1 to 96 characters of the safe alphabet |
| HostPolicy.LabelExactly | crates/codex-host-agent/src/lib.rs:1906-1932 | the label is the memory-space id or the prefixed run id between its outermost usable characters, other unusable ones as dashes, cut at 96; the fallback only if nothing is usable |
| HostPolicy.JoinAddsOne | crates/codex-host-agent/src/lib.rs:1112-1113 | joining the label adds exactly one path component |
| HostPolicy.BuilderStaysInside | crates/codex-host-agent/src/lib.rs:724-746 | the containment test never rejects a plan the builder made |
| HostPolicy.PrepareExactly | crates/codex-host-agent/src/lib.rs:552-585 | for every mode, exactly which requests are accepted, guard by guard: allow-list, blocked capability, fixed task, host, task text, base URL, key name, effort, switch, profile kind, root and paths |
| HostPolicy.PreparedPlan | crates/codex-host-agent/src/lib.rs:1072-1138 | an accepted request keeps its mode, gets a plan exactly in the planning modes, with the label, the workspace below the root if there is one, and a writable sandbox exactly for the four capabilities and fixed tasks |
| HostPolicy.UnderRepoExactly | crates/codex-host-agent/src/lib.rs:752-762 | the repository test, character by character, for either kind of slash |
| HostPolicy.HasParentExactly | crates/codex-host-agent/src/lib.rs:747-750 | a parent component is a `..` between slashes or ends |
| HostPolicy.ApprovedWorkspace | crates/codex-host-agent/src/lib.rs:659-694 | workspace is the root plus one clean component without parent components; writable only for the four capabilities or a matching fixed task |
| HostPolicy.LaunchPlace | crates/codex-host-agent/src/lib.rs:724-762 | for every working directory: the place of an approved launch is inside the product repository exactly if the names of working directory (for a relative root), root and label start with the repository's; never below a plainly written absolute root, always for a relative root of an agent running inside |
| HostPolicy.CollapsedTestExact | crates/codex-host-agent/src/lib.rs:752-762 | on resolved paths, comparing the collapsed spelling decides whether the components lie in the repository |
| HostPolicy.DoubledSlashGetsIn | crates/codex-host-agent/src/lib.rs:752-762 | a doubled slash in an absolute root lets a writable launch into the repository |
| HostPolicy.RelativeRootGetsIn | crates/codex-host-agent/src/lib.rs:544-548 | a plain relative root lets a writable launch into the repository when the agent runs there |
| HostPolicy.ResolveNames | crates/codex-host-agent/src/main.rs:7110-7139 | resolving against the working directory appends the names of a relative path |
| HostPolicy.TrimDashesExactly | crates/codex-host-agent/src/lib.rs:1923-1924 | trimming removes dashes at the ends and nothing else |
| LoadGuard.WorkspaceSpinner | apps/web/app/HomePageClient.js:2001-2052 | under every interleaving the spinner is on exactly while the last visible request is neither settled nor cleared away, so off at rest |
| LoadGuard.ShownExactly | apps/web/app/HomePageClient.js:2017-2039 | under every interleaving, in both variants, the data on screen stems from the last request that settled successfully while it was the newest, unless cleared since |
| LoadGuard.PendingMeans | apps/web/app/HomePageClient.js:2001-2125 | the load-id ref counts requests (and workspace clearings), and outstanding are those issued and not settled |
| LoadGuard.MessageSpinner | apps/web/app/HomePageClient.js:2054-2125 | the message and report spinners are on exactly while the last visible load is unsettled or once a silent poll has overtaken it |
| LoadGuard.MessageSpinnerAtRest | apps/web/app/HomePageClient.js:2054-2082 | at rest the spinner is on exactly if the actions hold a silent request issued after the last visible one and before that one settles |
| LoadGuard.MessageSpinnerSticks | apps/web/app/HomePageClient.js:4254-4264 | a run that ends at rest with the spinner on |
| LoadGuard.OnlyNewestWrites | apps/web/app/HomePageClient.js:2017-2039 | a response is shown only if its request is the newest issued |
| LoadGuard.StaleNeverShown | apps/web/app/HomePageClient.js:2084-2125 | no continuation ever shows a response that has been superseded |
| LoadGuard.WorkspaceClearSticks | apps/web/app/HomePageClient.js:4163-4181 | from every reachable state: after the clearing effect, no settling of requests in flight shows anything |
| LoadGuard.MessageClearLeaks | apps/web/app/HomePageClient.js:4209-4215 | after clearing, exactly the newest message response in flight is still shown |
| LoadGuard.RunKeeps | apps/web/app/HomePageClient.js:2001-2125 | the guards' invariants over every interleaving |
| LoadGuard.Loader.constructor | apps/web/app/HomePageClient.js:432-435 | initial refs |
| LoadGuard.Loader.Begin | apps/web/app/HomePageClient.js:2001-2009 | the synchronous part of a refresh, as updates of shared refs |
| LoadGuard.Loader.End | apps/web/app/HomePageClient.js:2017-2051 | guarded write and finally block |
| LoadGuard.Loader.Clear | apps/web/app/HomePageClient.js:4167-4181 | the effect on an empty selection |
| DocumentIds.Collect | crates/chat-session-worker/src/main.rs:1170-1206 | the list grows by exactly the valid ids at any depth, each once, own ids first, in whatever order fields are visited |
| DocumentIds.CollectFromJob | crates/memory-worker/src/lib.rs:34-84 | on an indexer manifest: the job's ids, once each, in first-occurrence order |
| DocumentIds.FirstOccurrencesInOrder | crates/memory-worker/src/lib.rs:34-84 | that order: some occurrence of an earlier id precedes every occurrence of a later one |
| DocumentIds.RefreshTotals | crates/memory-worker/src/lib.rs:34-66 | node and chunk totals are those of the manifest's children and the directory |
| DocumentIds.ManifestMentions | crates/memory-worker/src/lib.rs:67-83 | a manifest mentions the job's ids and nothing else |
| DocumentIds.PushSources | crates/chat-session-worker/src/main.rs:1181-1194 | the loop over source ids |
| DocumentIds.Push | crates/chat-session-worker/src/main.rs:1208-1212 | adds one id without repetition |
| ScopePlanner.PlanCandidates | crates/assistant-runtime/src/lib.rs:1768-1840 | the pushes, loop and truncation compute the specified candidate list |
| ScopePlanner.DedupeLoop | crates/assistant-runtime/src/lib.rs:2179-2185 | the seen-set loop keeps the first candidate of every key |
| ScopePlanner.CandidatesAreSound | crates/assistant-runtime/src/lib.rs:1768-1840 | at most four, distinct, each the visible selection, a visible dataset that fits (high confidence exactly if it fits by name) or hinted memory |
| ScopePlanner.CandidatesInOrder | crates/assistant-runtime/src/lib.rs:1789-1840 | selection, then proposals in the order of the visible datasets, then memory |
| ScopePlanner.SelectionFirst | crates/assistant-runtime/src/lib.rs:1774-1787 | a visible selection heads the list |
| ScopePlanner.MemorySurvives | crates/assistant-runtime/src/lib.rs:1812-1840 | memory is offered exactly if available, hinted and fewer than four distinct datasets are selected or fit |
| ScopePlanner.GatheredIsOffered | crates/assistant-runtime/src/lib.rs:1789-1840 | unless the list is full, every visible dataset that is selected or fits is on it |
| ScopePlanner.PolicyMeaning | crates/assistant-runtime/src/lib.rs:2345-2414 | retrieval, preference for detail, budget and history, and for each action exactly when it is recommended and in what order; the ordinary answer exactly when nothing else is |
| ScopePlanner.PlanMeaning | crates/assistant-runtime/src/lib.rs:1891-1942 | the scope is the dataset of the first candidate, by the user's selection exactly if that is visible; memory and policy follow |

## Left out

- PostgreSQL, NATS, the language-model providers and the resolver: each operation is an arbitrary outcome, the provider an arbitrary list of replies.
- Lookups before the attempt's own error handling (`crates/chat-session-worker/src/main.rs:439-583`): valid context is taken for granted.
- Execution-scoped invocation and tool records of the error tail: best effort, read by no part of the protocol.
- Session writes of other turns in the middle of an attempt: they are modelled between attempts only; the worker overwrites the manifest blindly.
- TurnStore.NextTurnIndex: does not model the 32-bit overflow of a turn index.
- HostPolicy.LaunchPlace: compares path components; links in the file system are not modelled, and the working directory is taken as the system reports it, absolute and without parent components.
- TreeCopy.CopyTree: does not model what the operation that fails with an I/O error leaves of its own entry, such as an empty directory or a part of one file.
- TurnStore.LastReply: messages are kept in insertion order instead of turn-index order, which cannot matter because at most one of them is a reply of the turn.
- RecoveryCodec.CallsRoundTrip: does not model the positional array form that the derived deserialiser would also accept for a tool call; no writer produces it.
- JSON text, UUID syntax, UTF-8 decoding and real clocks: JSON is a tree, parsers are arbitrary functions, instants are numbers.
- Prompt texts, keyword tables, labels and hint texts: only their verdicts enter.
- HostPolicy.PrepareExactly: the flat field checks of fixed-task packages (`crates/codex-host-agent/src/lib.rs:764-1052`) are one verdict, and trimming of the task text and key name is assumed done.
- The argument vector and prompt of a Codex command plan beyond the sandbox, workspace and label.
- The customer Codex polling loop of the web client, rendering, uploads and account handling.
- The remaining crates: thin wrappers, HTTP calls or single-function decisions that would only add easy members.
