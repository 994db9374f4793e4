# Verified models of the agent runtime's stateful cores

This project models the parts of the agent runtime in which many small steps have to keep one hard invariant, and
proves what every run of them keeps. Files, remote clients, threads and clocks become maps, oracles, open choices and
parameters; the objects that the source updates in place are classes whose methods are proved equal to a function of
their old state, and the theorems are lemmas about those functions over whole histories.

| part | files |
|---|---|
| append-only session store: prefix validation, suffix appends, crash cuts, interleaved writers | `SessionStore.dfy`, `SessionRace.dfy` |
| Feishu reply-card delivery: send, card id, stream, patch, approval, retry, ledger | `FeishuCards.dfy`, `FeishuHost.dfy`, `FeishuFlush.dfy`, `FeishuNumbers.dfy` |
| tool executor and tool policy | `ToolExecutor.dfy`, `ToolStream.dfy`, `ToolGate.dfy`, `ToolPolicy.dfy` |
| task registry on two storages, notifications, eviction | `TaskStorage.dfy`, `TaskRegistry.dfy`, `TaskRuntime.dfy`, `TaskHistory.dfy`, `TaskParents.dfy` |
| durable-memory recall | `Recall.dfy` |
| dreaming: report files, short-term entries, scores, sweeps | `DreamPhases.dfy`, `DreamMarkdown.dfy`, `DreamState.dfy`, `DreamSweep.dfy` |
| MCP cursor paging, scope challenges, scope upgrades | `McpPaging.dfy`, `McpScopes.dfy`, `McpSession.dfy` |
| gateway binding files, and replay checkpoints on top of the session store | `BindingStore.dfy`, `GatewayReplay.dfy` |
| shared text, order, decimal and option helpers | `Text.dfy`, `Order.dfy`, `Decimal.dfy`, `Wrappers.dfy` |

`dafny verify dfyconfig.toml` checks the whole project.

What the proofs brought out about the code, each with the exact condition in the member named:

- A rejected save normally writes nothing to the logs, but it can leave transcript lines behind on a store whose event
  log is shorter than its state file claims and equals the given events; no run of the store's own operations reaches
  such a store (`RejectedSaveLeaksIff`, `RejectedSaveCanLeak`, `CountsNeverExceedVisible`).
- Two saves of one session that both pass validation before either appends are both carried out: each entry that both
  bring is stored twice, and neither writer can save its record again unless the other added nothing (`RacingSaves`,
  `RaceDoubles`).
- A scope that is empty or holds a comma or a blank, or loses a quote at the outer end of the list, does not survive the
  challenge that asks for it, and its call is refused after the retry (`SurvivesIff`, `ChallengeRoundTrip`,
  `CommaScopeIsLost`, `RetryInHistory`). A comma is legal in a scope-token of section 3.3 of RFC 6749.
- Initializing a second time on a handle makes the next upgrade grant only what its challenge asks for. Scope-tokens
  without commas that the handle held are dropped, and a call that needs one is refused after the retry
  (`ReinitializeForgets`, `RetryAnywhere`, `RefusedAfterReinitialize`).
- Cursor paging never ends for a negative page size (`PagingEndsIff`).
- Recall with a negative `max_results` shows nothing, so repeating it never reaches the matching records
  (`PagesPartitionOrder`).
- The blocking form of the tool executor returns results in call order only within the immediate and within the pooled
  calls; they come in call order if and only if no deferred call stands before an immediate one (`ResultOrder`,
  `ResultsInCallOrderIff`, `ResultsSwapped`).
- `append_output` stores the item before it fails for an unknown task (`WithOutput` in `TaskRegistry.dfy`).
- Events that land between the observation and the checkpoint of one resume are never replayed (`NothingLostIff`,
  `LateEventIsLost`). A bind of a chat to the session it has skips whatever it had not read (`ResumesPartition`).
- A card's record and the remote side can differ about its stream in two ways. The remote stream stays on although the
  record calls it inactive when switching it on was carried out but not answered, or when the host fell back to message
  patches; such a card can end delivered, stable and still streaming. And it is off although the record calls it active
  when switching it off was carried out but not answered. In every other case they agree (`AgreementIff`,
  `StreamingConsistent`, `FallbackStrandsStream`, `LostDisableMisleads`).
- A diary narrative that already stands anywhere in the file, even inside a managed block, is not entered, and is gone
  once that block is rewritten (`DiaryWrittenIff`, `SkippedDiaryLeavesNoTrace`, `NarrativeInBlockIsLost`).
- After a restart a chat has the binding whose file lies one level below the root, under a name that the chat's file
  name matches as a wildcard pattern, before every other such file (`RestartReturnsIff`). So a session id with a slash
  loses its binding although nothing else was bound (`SlashBindingIsLost`), a conversation with brackets in its name
  may miss its own file (`BracketBindingIsLost`), one named `*` gets the binding of any other conversation of its
  channel (`StarGetsAnother`), and conversations whose names differ only in `/` and `_` share a file (`TwinsExist`,
  `RestartMixesTwins`).
- Only memory keeps a chat with its session: after a restart a bind to a second session succeeds, and the next restart
  returns whichever session's directory comes first (`SecondBindReturns`).
- When transcript lines or events that a state file counts are lost, the session can never be saved again, whatever is
  given (`LossRefused`).
- A dreaming sweep scores with its own listings already counted. Sweeping again never takes an entry below a threshold,
  but it can promote another entry instead when the window is smaller than the list (`PromotedIff`, `SweepAgain`,
  `SweepDisplaces`).

## Model

| member | source | states |
|---|---|---|
| `SessionStore.SaveAcceptedIffPrefix` | src/openagent/session/store.py:253-287 | on a sound store a save is accepted if and only if the stored transcript view and event log are both prefixes of the given lists; a refused save writes at most the transcript reference |
| `SessionStore.PlanResumes` | src/openagent/session/store.py:81-108 | after the first write of an accepted save, the same save is still accepted and plans exactly the remaining writes |
| `SessionStore.CutSaveThenResave` | src/openagent/session/store.py:81-108 | cut after any number of writes: both histories lie between stored and intended, no other session notices, re-saving is accepted and ends on the same disk as the uncut save |
| `SessionStore.SavePreserves` | src/openagent/session/store.py:81-108 | every save, accepted or not, keeps the store sound, grows histories at the end only and leaves other sessions' views alone |
| `SessionStore.LoadAfterSave` | src/openagent/session/store.py:70-108 | loading after an accepted save gives back the saved record; the state counts are its lengths and its reference is bound |
| `SessionStore.LossRefused` | src/openagent/session/store.py:253-287 | when lines or events that a save counted are lost afterwards, no save of the session is accepted any more, with the exact condition for naming the missing backing |
| `SessionStore.SaveErrorIs` | src/openagent/session/store.py:253-287 | on a sound store, which reason a refused save gives |
| `SessionStore.HeaderReadsBack` | src/openagent/session/store.py:110-119 | a state-only save is read back as its header over the old histories, with the old counts |
| `SessionStore.MarkerReadsBack` | src/openagent/session/store.py:137-146 | a restore mark is read back as the cursor's event or else the log's last one, and nothing else changes |
| `SessionStore.RejectedSaveKeepsLogs` | src/openagent/session/store.py:253-287 | a rejected save on a sound store changes no transcript, event log or state file |
| `SessionStore.RejectedSaveLeaksIff` | src/openagent/session/store.py:307-342 | on any store at all, the exact condition under which a rejected save does leave transcript lines |
| `SessionStore.RejectedSaveCanLeak` | src/openagent/session/store.py:307-342 | a concrete store on which a rejected save leaves a transcript line |
| `SessionStore.StepPreserves` | src/openagent/session/store.py:44-146 | each operation keeps soundness, grows histories at the end and changes nothing another session can see |
| `SessionStore.StepReads` | src/openagent/session/store.py:44-146 | what a session reads after each of its own operations, cut saves included |
| `SessionStore.HistoryPreserves` | src/openagent/session/store.py:44-146 | the same over every interleaving of saves, cut saves, state-only saves, appends and restore marks; references never move |
| `SessionStore.CountsNeverExceedVisible` | src/openagent/session/store.py:247-287 | in every reachable store persisted counts are at most what is visible, so the `count > visible` branches are dead |
| `SessionStore.InterleavedSaves` | src/openagent/session/store.py:81-108 | two accepted saves of different sessions whose single writes interleave in any way, even on one transcript, store both records as if one had followed the other, and nobody else notices |
| `SessionRace.RacingSaves` | src/openagent/session/store.py:81-108 | two saves of one session, both validated on the same store, their writes interleaved in any way: the store stays sound, nobody else notices, both histories gain both writers' entries merged in their orders, and a writer's record is accepted again if and only if the other added nothing |
| `SessionRace.RaceDoubles` | src/openagent/session/store.py:307-342 | two such saves of the same record store every new entry twice |
| `SessionRace.MergesAll` | src/openagent/session/store.py:307-342 | a merge loses and invents nothing, and with nothing to merge it is the sequence itself |
| `SessionStore.AppendEventsAccepted` | src/openagent/session/store.py:44-51 | appending events never fails on a sound store and appends exactly those events |
| `SessionStore.StaleWriter` | src/openagent/session/store.py:253-287 | a writer whose record lacks entries written meanwhile is rejected and drops nothing |
| `SessionStore.ResaveAfterForeignTraffic` | src/openagent/session/store.py:81-108 | a cut save is completed by re-saving even after any operations of other sessions on the shared transcript |
| `SessionStore.FileSessionStore.ReadTranscript` | src/openagent/session/store.py:222-245 | the session's own lines of the shared transcript, in order |
| `SessionStore.FileSessionStore.ReadEvents` | src/openagent/session/store.py:53-68 | the event log from an offset on |
| `SessionStore.FileSessionStore.LoadSession` | src/openagent/session/store.py:70-79 | the record made of state header, visible messages and events |
| `SessionStore.FileSessionStore.EnsureTranscriptRef` | src/openagent/session/store.py:397-415 | an existing reference is used, a missing one is written once |
| `SessionStore.FileSessionStore.ValidateTranscript` | src/openagent/session/store.py:253-269 | the number of messages already stored, or the reason for refusal |
| `SessionStore.FileSessionStore.ValidateEvents` | src/openagent/session/store.py:271-287 | the same for events |
| `SessionStore.FileSessionStore.AppendTranscriptSuffix` | src/openagent/session/store.py:307-324 | appends exactly the missing messages, one line each |
| `SessionStore.FileSessionStore.AppendEventSuffix` | src/openagent/session/store.py:326-342 | appends exactly the missing events, one line each |
| `SessionStore.FileSessionStore.SaveSession` | src/openagent/session/store.py:81-108 | the step-by-step save ends where the planned writes end, on every exit, with the planned error |
| `SessionStore.FileSessionStore.SaveSessionStateOnly` | src/openagent/session/store.py:110-119 | writes the header, keeps the counts, preserves every view |
| `SessionStore.FileSessionStore.GetCheckpoint` | src/openagent/session/store.py:121-135 | offset and last event id of the stored log |
| `SessionStore.FileSessionStore.AppendEvents` | src/openagent/session/store.py:47-51 | on a sound store no error and the events are appended; the checkpoint returned is that of the store afterwards |
| `SessionStore.FileSessionStore.MarkRestoredAt` | src/openagent/session/store.py:137-146 | sets the restore marker from the cursor or the log's last event |
| `FeishuCards.SyncKeeps` | src/openagent/gateway/channels/feishu/host.py:455-642 | one sync against any mix of done, refused and lost calls: a settled record stays settled, delivered if and only if neither pending nor dirty, and other cards are untouched; a delivered stable card's record has streaming off, and its remote stream is on if and only if it was on before without the record knowing |
| `FeishuCards.AttemptKeeps` | src/openagent/gateway/channels/feishu/host.py:455-602 | the guarded body of a sync keeps record, remote side and call log coherent wherever an exception ends it |
| `FeishuCards.StreamKeeps` | src/openagent/gateway/channels/feishu/host.py:527-594 | each stream call burns its number, whatever the answer, and keeps the log orderly |
| `FeishuCards.ApprovalKeeps` | src/openagent/gateway/channels/feishu/host.py:620-642 | the approval path makes stream calls only and never patches |
| `FeishuHost.HostStepValid` | src/openagent/gateway/channels/feishu/host.py:283-360 | starting a turn, folding an event, pressing a button and retrying keep every card of the ledger settled |
| `FeishuHost.HostRunValid` | src/openagent/gateway/channels/feishu/host.py:283-360 | the same over every history and every pattern of failing calls |
| `FeishuHost.CleanCardIsShown` | src/openagent/gateway/channels/feishu/host.py:455-618 | after every history a record that is not dirty has its latest card as the remote content |
| `FeishuFlush.HeldBackIff` | src/openagent/gateway/channels/feishu/host.py:644-651 | an event is held back if and only if it is a piece of text for a sent card that waits for no retry, within the interval of its last flush; after any other event the card is shown or waits for its retry |
| `FeishuFlush.NoCallIff` | src/openagent/gateway/channels/feishu/host.py:644-651 | an event makes no call if and only if it is held back or its card awaits an approval that cannot be shown without CardKit |
| `FeishuFlush.OnlyTextIsHeldBack` | src/openagent/gateway/channels/feishu/host.py:644-651 | over every history a card neither shown nor waiting for a retry is behind only by text that came within the interval, and nothing has happened to it since |
| `FeishuFlush.RetryIff` | src/openagent/gateway/channels/feishu/host.py:666-695 | when a retry does something, and what it leaves |
| `FeishuFlush.SyncTimes` | src/openagent/gateway/channels/feishu/cards.py:101-125 | a sync ends delivered with nothing to retry, or counts one more try and sets its time; what the card shows is not touched |
| `FeishuFlush.PiecesAddUp` | src/openagent/gateway/channels/feishu/cards.py:252-310 | without a whole message in between, a reply is what it was and every piece of text since |
| `FeishuFlush.MessageReplaces` | src/openagent/gateway/channels/feishu/cards.py:252-310 | a whole message replaces the text, and later pieces are added to it |
| `FeishuFlush.StatusIs` | src/openagent/gateway/channels/feishu/cards.py:252-310 | over every sequence of events a card has the status of the last event that set another one; the end of a turn completes a running card only |
| `FeishuFlush.StartedCard` | src/openagent/gateway/channels/feishu/cards.py:225-250 | a started turn is a running card with its prompt and no reply, shown or waiting for its first retry |
| `FeishuFlush.PressedCard` | src/openagent/gateway/channels/feishu/cards.py:312-321 | a press takes the approval off and sets the card running, a press that fails fails it, and the card is shown or waits for its retry |
| `FeishuFlush.LineAfter` | src/openagent/gateway/channels/feishu/cards.py:252-310 | the line a card says after each event |
| `FeishuFlush.ApprovalNamed` | src/openagent/gateway/channels/feishu/cards.py:252-310 | an approval names its tool until the turn fails or a button is pressed |
| `FeishuFlush.ResolveRefused` | src/openagent/gateway/channels/feishu/host.py:478-510 | when CardKit's answer is no: which errors fail, which give CardKit up, and that the fallback delivers if and only if its patch is answered; an approval never falls back |
| `FeishuFlush.UpdateRefused` | src/openagent/gateway/channels/feishu/host.py:527-570 | the same for an update of a running card |
| `FeishuFlush.ApprovalRefused` | src/openagent/gateway/channels/feishu/host.py:620-642 | an approval whose update is not answered well fails, with CardKit as it was |
| `FeishuHost.SequencesIncrease` | src/openagent/gateway/channels/feishu/cards.py:132-146 | all stream calls of a request carry one uuid and strictly increasing numbers; lost and refused calls never give a number back |
| `FeishuNumbers.NumberedWithoutGaps` | src/openagent/gateway/channels/feishu/cards.py:139-147 | over every history and pattern of answers the n-th stream call of a request carries the number n, and the record's next number is one more than the calls made |
| `FeishuHost.ApprovalNeverPatched` | src/openagent/gateway/channels/feishu/host.py:620-671 | no history ever delivers a card awaiting approval by message patch |
| `FeishuHost.StreamingConsistent` | src/openagent/gateway/channels/feishu/host.py:471-602 | after every history: streaming active needs a card id, CardKit unsupported means streaming off, a card id needs its message id; the remote stream is on if and only if the card's last switch that was not refused switched it on; record and remote agree if and only if the stream is neither stranded nor switched off unheard |
| `FeishuHost.AgreementIff` | src/openagent/gateway/channels/feishu/host.py:527-594 | for every call log and every pattern of answers: the host is right about a card's stream if and only if neither the last carried-out switch was an enable that went unanswered or was given up since, nor an unanswered disable of a stream taken for on |
| `FeishuHost.FallbackStrandsStream` | src/openagent/gateway/channels/feishu/host.py:547-572 | a turn with one refused update: its card ends delivered, stable and not streaming by its record, with the remote stream on |
| `FeishuHost.LostDisableMisleads` | src/openagent/gateway/channels/feishu/host.py:583-594 | a turn whose last call is carried out but not answered: the record says streaming, the remote side does not |
| `FeishuHost.FeishuReplyCardRecord.Apply` | src/openagent/gateway/channels/feishu/cards.py:252-310 | folding a runtime event into a card, field by field, and redrawing it |
| `FeishuHost.FeishuReplyCardRecord.MarkActionRunning` | src/openagent/gateway/channels/feishu/cards.py:312-321 | a pressed button turns the card to running and dirty |
| `FeishuHost.FeishuReplyCardRecord.MarkDeliverySuccess` | src/openagent/gateway/channels/feishu/cards.py:110-125 | the whole record after a delivery |
| `FeishuHost.FeishuReplyCardRecord.MarkDeliveryFailure` | src/openagent/gateway/channels/feishu/cards.py:101-108 | the whole record after a failure |
| `FeishuHost.FeishuReplyCardRecord.NextStreamSequence` | src/openagent/gateway/channels/feishu/cards.py:139-146 | hands out each number once |
| `FeishuHost.FeishuLongConnectionHost.TryDeliver` | src/openagent/gateway/channels/feishu/host.py:455-602 | record, remote side and error after the guarded body equal the specified attempt |
| `FeishuHost.FeishuLongConnectionHost.SyncCardDelivery` | src/openagent/gateway/channels/feishu/host.py:455-618 | never raises; true exactly when it leaves the record neither pending nor dirty |
| `FeishuHost.FeishuLongConnectionHost.SyncApprovalCard` | src/openagent/gateway/channels/feishu/host.py:620-642 | the approval path against the failing client |
| `FeishuHost.FeishuLongConnectionHost.EnsureTurnCard` | src/openagent/gateway/channels/feishu/host.py:327-360 | one card per request, delivered and stored |
| `FeishuHost.FeishuLongConnectionHost.DispatchEgress` | src/openagent/gateway/channels/feishu/host.py:283-325 | folding a list of events, each at its own time, is that many steps of the host |
| `FeishuHost.FeishuLongConnectionHost.FindByReply` | src/openagent/gateway/channels/feishu/cards.py:172-181 | a card behind a message, or none exists |
| `FeishuHost.FeishuLongConnectionHost.HandleCardAction` | src/openagent/gateway/channels/feishu/host.py:206-253 | a button press on a known card is one step on it; on an unknown one nothing happens |
| `FeishuHost.FeishuLongConnectionHost.RetryPendingCards` | src/openagent/gateway/channels/feishu/host.py:673-695 | retries every due pending card, or every one of a conversation, exactly once, in any listing order |
| `ToolPolicy.RuleBasedToolPolicyEngine.Evaluate` | src/openagent/tools/policy.py:61-95 | outcome and counters of one evaluation |
| `ToolPolicy.RuleBasedToolPolicyEngine.Track` | src/openagent/tools/policy.py:97-124 | the counter update and the denial fallback |
| `ToolPolicy.CountersExact` | src/openagent/tools/policy.py:97-124 | for every history a session's consecutive count is its raw denials since its last raw allow and its total all its raw denials |
| `ToolPolicy.DenialsSinceAllowUnique` | src/openagent/tools/policy.py:97-124 | that count is determined by the decisions |
| `ToolPolicy.DenialBecomesAskIff` | src/openagent/tools/policy.py:97-124 | a denial becomes an ask if and only if the count has reached the threshold; no other answer changes |
| `ToolPolicy.MatchesIff` | src/openagent/tools/policy.py:30-51 | a rule matches if and only if no coordinate it names differs |
| `ToolPolicy.FirstRuleDecides` | src/openagent/tools/policy.py:67-79 | the first rule that matches and does not pass through decides, with its reason, source and name |
| `ToolPolicy.NoRuleDecides` | src/openagent/tools/policy.py:81-95 | when none does, the tool answers, or without a tool policy the user is asked |
| `ToolPolicy.AnswerTells` | src/openagent/tools/policy.py:97-124 | source, reason and audit of the last answer of every history: a fallback says so, keeps a given reason, and counters are those after it |
| `ToolPolicy.PassthroughRulesInert` | src/openagent/tools/policy.py:61-95 | deleting every pass-through rule changes no outcome and no counter of any history |
| `ToolExecutor.ToolExecutionSummary.Record` | src/openagent/tools/executor.py:396-418 | events, results and errors of the summary stay in step |
| `ToolExecutor.SummaryOfOne` | src/openagent/tools/executor.py:396-418 | an answer is a result, a failure or a cancellation an error, a start or progress neither |
| `ToolExecutor.SequentialPass` | src/openagent/tools/executor.py:96-159 | gate, start, interruption, immediate run and deferral in one pass; the summary holds exactly what was yielded, up to and including the call that ends the pass |
| `ToolExecutor.RunPool` | src/openagent/tools/executor.py:161-173 | whichever thread moves next, each future ends with its call's events, and the summary gains exactly those, in some order |
| `ToolExecutor.YieldFutures` | src/openagent/tools/executor.py:174-176 | pooled events come in call order, up to the first call that asks for an action |
| `ToolExecutor.ExecuteStream` | src/openagent/tools/executor.py:78-176 | the yielded stream is one value for every thread schedule; on a normal end the summary's events are a permutation of it |
| `ToolExecutor.ExecuteToolCall` | src/openagent/tools/executor.py:218-311 | each event of a call is recorded as it is yielded |
| `ToolStream.CallStory` | src/openagent/tools/executor.py:96-176 | when a stream ends normally, a call shows its start and then exactly what it emitted, or its interruption |
| `ToolGate.RefusedShowsNothing` | src/openagent/tools/executor.py:97-133 | a call that is not valid, denied, or asks without an approval shows no event |
| `ToolGate.StartsIff` | src/openagent/tools/executor.py:97-159 | a call starts if and only if neither it nor a call before it is refused and none before it asked for an action at once |
| `ToolGate.EndsNormallyIff` | src/openagent/tools/executor.py:96-176 | a batch ends normally if and only if every call is valid, not denied, approved if it asks, and asks for no action if it runs |
| `ToolGate.GateEndsIff` | src/openagent/tools/executor.py:97-133 | the gate ends a batch if and only if a call is refused before any asked at once; the first such call decides on which ground |
| `ToolStream.ExactlyOnce` | src/openagent/tools/executor.py:96-176 | for non-streaming tools: exactly one start and then exactly one terminal event per call |
| `ToolStream.AbortedBeforePool` | src/openagent/tools/executor.py:107-133 | when the gate or an unsafe tool ends a batch, no deferred call has run |
| `ToolStream.NothingAfterStop` | src/openagent/tools/executor.py:107-133 | calls after the one that ends the batch show nothing |
| `ToolStream.StartsInOrder` | src/openagent/tools/executor.py:135-176 | the stream splits at one place: before it the starts in call order, once per call, after it the pooled events, call by call, and no start |
| `ToolStream.UnsafeEndsAtOnce` | src/openagent/tools/executor.py:135-159 | however a batch ends, the terminal event of an unsafe non-streaming call directly follows its start |
| `ToolStream.VerdictIs` | src/openagent/tools/executor.py:181-202 | the blocking form succeeds if and only if nothing failed, was cancelled or aborted, and then returns every answer |
| `ToolStream.Execute` | src/openagent/tools/executor.py:181-202 | results, or the first error in stream order, or the abort that follows the stream |
| `ToolStream.ResultsInCallOrderIff` | src/openagent/tools/executor.py:181-202 | when answers differ, results come in call order if and only if no deferred call stands before an immediate one |
| `ToolStream.ResultsSwapped` | src/openagent/tools/executor.py:181-202 | a concrete batch whose two results come back swapped |
| `ToolStream.ResultOrder` | src/openagent/tools/executor.py:181-202 | one result per call: immediate calls in call order, then pooled calls in call order |
| `TaskStorage.FileTaskStorage.Remove` | src/openagent/harness/task/storage.py:122-127 | unlinking removes the task's entries and nothing else, outputs only when asked |
| `TaskStorage.FileTaskStorage.NextTaskId` | src/openagent/harness/task/storage.py:43-49 | the file counter counts like the in-memory one |
| `TaskRegistry.TaskRegistry.Update` | src/openagent/harness/task/registry.py:122-157 | the patched record, end time set once on the first terminal status |
| `TaskParents.MetadataMerged` | src/openagent/harness/task/registry.py:142-145 | every operation keeps each metadata key it does not name and sets those it names; a failure names its reason |
| `TaskParents.RecordChanges` | src/openagent/harness/task/registry.py:122-157 | field by field, what each operation of a history changes in a task's record |
| `TaskParents.UpdateSets` | src/openagent/harness/task/registry.py:122-157 | an update sets what it names, merges metadata, and gives an end time at the first end unless it names one |
| `TaskParents.UnknownTask` | src/openagent/harness/task/registry.py:122-180 | ending a task that is not there changes nothing; its output is stored all the same |
| `TaskParents.LogsChange` | src/openagent/harness/task/registry.py:159-210 | what each operation adds to a task's events and outputs, and to its observers or takes from them |
| `TaskParents.EvictionTakes` | src/openagent/harness/task/registry.py:212-248 | what an eviction pass takes from an evicted task, and nothing from another |
| `TaskParents.AnswersTell` | src/openagent/harness/task/registry.py:122-248 | what spawning, ending, adding output, evicting and looking up answer, told by what the store holds before and after |
| `TaskParents.SpawnMakes` | src/openagent/harness/task/manager.py:49-82 | a spawned task is running, unreported, and everything it was spawned with |
| `TaskRegistry.TaskRegistry.AppendOutput` | src/openagent/harness/task/registry.py:175-180 | cursor and stored outputs agree; an unknown task is an error after the item is stored |
| `TaskRegistry.TaskRegistry.ReadEventSlice` | src/openagent/harness/task/registry.py:165-173 | everything from the cursor on and the cursor to come back with |
| `TaskRegistry.TaskRegistry.EvictExpired` | src/openagent/harness/task/registry.py:212-248 | one pass removes exactly the evictable tasks, judged on the state before the pass, and lists them in order |
| `TaskRuntime.TaskManager.Spawn` | src/openagent/harness/task/manager.py:49-82 | a fresh id, a running record and its first event |
| `TaskRuntime.TaskManager.Finish` | src/openagent/harness/task/manager.py:119-141 | one status change and one closing event, nothing for an unknown task |
| `TaskRuntime.TaskNotificationRouter.Read` | src/openagent/harness/multi_agent/routing.py:32-35 | reading drains the recipient's queue only |
| `TaskRuntime.LocalMultiAgentRuntime.SyncTaskNotifications` | src/openagent/harness/multi_agent/runtime.py:97-121 | the notes of exactly the unreported ended tasks of the recipient, all of them marked |
| `TaskHistory.NewNotesExact` | src/openagent/harness/multi_agent/runtime.py:97-121 | the notes of one sync are distinct, one for each reportable task, with its status |
| `TaskHistory.SysRunValid` | src/openagent/harness/task/manager.py:41-276 | over every history a task is marked notified exactly when a note of it was handed out |
| `TaskHistory.ReportedAtMostOnce` | src/openagent/harness/multi_agent/runtime.py:97-121 | over every interleaving no two notes, to anybody, are about one task |
| `TaskHistory.SyncReportsAll` | src/openagent/harness/multi_agent/runtime.py:97-121 | a sync hands out a note if and only if the task has ended, is the recipient's and was never reported |
| `TaskParents.ParentIsTold` | src/openagent/harness/multi_agent/runtime.py:97-121 | over every history: a task spawned for a parent is handed to that parent by its first sync after the task ended, with description and status, as long as no ending names the parent anew |
| `TaskHistory.EvictedIff` | src/openagent/harness/task/registry.py:212-235 | after every history, a pass evicts a task if and only if it ended, was reported, is unobserved and is past its grace period |
| `TaskHistory.GoneForGood` | src/openagent/harness/task/registry.py:237-248 | an evicted task never comes back under any operation |
| `TaskHistory.IdsNeverReused` | src/openagent/harness/task/storage.py:23-49 | no spawn of any history gets an id ever issued before |
| `TaskHistory.LogsGrow` | src/openagent/harness/task/registry.py:159-194 | while a task lives its events and outputs only grow at the end |
| `TaskHistory.ReaderExactlyOnce` | src/openagent/harness/task/registry.py:165-194 | a reader feeding cursors back has, at every moment of every interleaving, exactly the log up to its cursor |
| `TaskParents.ReadersOnlyRead` | src/openagent/harness/task/registry.py:165-194 | reads, at whatever turns, change nothing |
| `TaskParents.LastReadIsWhole` | src/openagent/harness/task/registry.py:165-194 | one more read, after whatever interleaving, gives the reader the whole log |
| `TaskHistory.Replay` | src/openagent/harness/task/registry.py:79-288 | a fresh task system answers every operation sequence as one abstract store does |
| `TaskHistory.StoragesAgree` | src/openagent/harness/task/storage.py:13-127 | in-memory and file storage give the same answers to every operation sequence |
| `Recall.SelectRecallCandidates` | src/openagent/durable_memory/operations.py:40-81 | the page is the longest prefix of the ordered candidates within both caps |
| `Recall.StableDescendingCorrect` | src/openagent/durable_memory/operations.py:62-70 | the order is descending by score, stable, and a permutation |
| `Recall.RecalledIff` | src/openagent/durable_memory/operations.py:51-69 | a record can be recalled if and only if it was not surfaced, lies in a selected scope, is not another agent's or another session's own, and shares a word, the agent or the session with a request that has words |
| `Recall.RankedByHits` | src/openagent/durable_memory/operations.py:62-70 | records stand in the order of the words they hold, the request's agent counting for two and its session for one |
| `Recall.DefaultCaps` | src/openagent/durable_memory/operations.py:49-50 | five records and 16000 bytes unless the request says otherwise |
| `Recall.Utf8Counts` | src/openagent/durable_memory/models.py:296-299 | sizes are in bytes: one for each character, and one more for each that reaches U+0080, U+0800 and U+10000 |
| `Recall.PageEndMaximal` | src/openagent/durable_memory/operations.py:71-81 | the greedy cut obeys the caps and one more record would not |
| `Recall.OrderedAfter` | src/openagent/durable_memory/operations.py:51-70 | after surfacing a page, what is left to order is the old order without the page |
| `Recall.PagesObeyCaps` | src/openagent/durable_memory/operations.py:71-81 | every page of a repeated recall obeys the result cap, and the byte cap unless it is one record |
| `Recall.PageEmptyIff` | src/openagent/durable_memory/operations.py:71-81 | a page is empty if and only if the cap is not positive or nothing matches |
| `Recall.PagesPartitionOrder` | src/openagent/durable_memory/operations.py:40-81 | repeated recall ends, and its pages are the whole ordered list, each record once, exactly when the cap is positive or nothing matches |
| `Recall.OrderedDistinct` | src/openagent/durable_memory/operations.py:51-70 | no record appears twice in the order |
| `DreamMarkdown.WriteBlockRefines` | src/openagent/durable_memory/dreaming/markdown.py:64-77 | slicing the text at the first markers is replacing or appending a block of the document the text stands for |
| `DreamMarkdown.WriteBlockUpdates` | src/openagent/durable_memory/dreaming/markdown.py:64-77 | writing a phase sets its body and keeps every other phase's |
| `DreamMarkdown.WriteBlockKeepsProse` | src/openagent/durable_memory/dreaming/markdown.py:64-77 | the plain text between blocks survives a write, but for blanks before an appended block |
| `DreamMarkdown.AppendDiaryRefines` | src/openagent/durable_memory/dreaming/markdown.py:30-42 | a diary append on the text is an append to the document's last plain stretch |
| `DreamMarkdown.WriteDiaryKeepsBodies` | src/openagent/durable_memory/dreaming/markdown.py:30-42 | a diary append changes no phase's body |
| `DreamMarkdown.WriteDiaryExtendsProse` | src/openagent/durable_memory/dreaming/markdown.py:30-42 | it extends the last plain stretch and leaves the others as they are |
| `DreamMarkdown.HistoryKeepsProse` | src/openagent/durable_memory/dreaming/markdown.py:20-77 | over every history of reports and entries each stretch of plain text only grows at its end, trailing blanks aside |
| `DreamMarkdown.DiaryStays` | src/openagent/durable_memory/dreaming/markdown.py:30-42 | an entry that was written stands in the file after every further history of reports and entries |
| `DreamMarkdown.DiaryWrittenIff` | src/openagent/durable_memory/dreaming/markdown.py:35-42 | an entry is written if and only if its narrative stands nowhere in the headed file |
| `DreamMarkdown.SkippedDiaryLeavesNoTrace` | src/openagent/durable_memory/dreaming/markdown.py:35-42 | an entry that is not written changes no later state of the file |
| `DreamMarkdown.NarrativeInBlockIsLost` | src/openagent/durable_memory/dreaming/markdown.py:35-42 | a concrete history whose narrative stood in a block, was not entered, and is nowhere in the file at the end |
| `DreamMarkdown.HistoryDoc` | src/openagent/durable_memory/dreaming/markdown.py:20-42 | every reachable report file is a document whose bodies are the last ones written |
| `DreamMarkdown.ReportReadsBack` | src/openagent/durable_memory/dreaming/markdown.py:20-77 | after every history, the text between a phase's markers is its last body, and absent if never written |
| `DreamMarkdown.RewriteIsNoOp` | src/openagent/durable_memory/dreaming/markdown.py:64-77 | writing the body a phase already has leaves the text as it is |
| `DreamMarkdown.MarkersOnce` | src/openagent/durable_memory/dreaming/markdown.py:64-77 | each marker stands at most once in a reachable file, and only for a phase that was written |
| `DreamMarkdown.MarkerIs` | src/openagent/durable_memory/dreaming/markdown.py:67-68 | the markers as they stand in a file |
| `DreamMarkdown.EntryIs` | src/openagent/durable_memory/dreaming/markdown.py:35-42 | a diary entry as it stands in a file |
| `DreamMarkdown.PathsAre` | src/openagent/durable_memory/dreaming/markdown.py:20-28 | each phase has its own file for a day |
| `DreamMarkdown.FilesFollow` | src/openagent/durable_memory/dreaming/markdown.py:20-42 | over every history of the writer the shared file is the history of all reports and entries, and a daily file that of the reports of its phase and day |
| `DreamMarkdown.DreamingMarkdownWriter.ReplaceManagedBlock` | src/openagent/durable_memory/dreaming/markdown.py:64-77 | the file becomes the specified text, other files stay |
| `DreamMarkdown.DreamingMarkdownWriter.WritePhaseReport` | src/openagent/durable_memory/dreaming/markdown.py:20-28 | the daily report and the shared diary file are both updated |
| `DreamMarkdown.DreamingMarkdownWriter.AppendDreamDiary` | src/openagent/durable_memory/dreaming/markdown.py:30-42 | the shared diary file gains the entry unless the narrative is there |
| `DreamState.UpsertConserves` | src/openagent/durable_memory/dreaming/state.py:49-64 | per key, every counter, hash set, day set and tag set is what was stored plus what the batch brings |
| `DreamState.UpsertKeys` | src/openagent/durable_memory/dreaming/state.py:49-64 | keys are those stored and those of the batch, each entry under its own |
| `DreamState.UpsertSplits` | src/openagent/durable_memory/dreaming/state.py:49-64 | one batch or two in a row give the same entries |
| `DreamState.UpsertReorders` | src/openagent/durable_memory/dreaming/state.py:49-64 | reordering a batch changes no counter and no set of any key |
| `DreamState.UpsertReordersKeys` | src/openagent/durable_memory/dreaming/state.py:49-64 | reordering a batch changes no key |
| `DreamState.DreamingStateStore.UpsertShortTermEntries` | src/openagent/durable_memory/dreaming/state.py:43-64 | the stored list has one entry per key, in key order, and holds the upserted dictionary |
| `DreamState.ListReadsBack` | src/openagent/durable_memory/dreaming/state.py:43-64 | a written list is read back as the dictionary it was written from |
| `DreamState.DreamingStateStore.RecordPhaseSignals` | src/openagent/durable_memory/dreaming/state.py:74-90 | each key's count for the phase grows by its number of listings, and a listed key was last seen on that day; nothing else changes |
| `DreamState.ScoreBounded` | src/openagent/durable_memory/dreaming/phases.py:159-191 | with non-negative weights a score lies between 0 and the weight total plus 0.10 |
| `DreamState.WeightedLinear` | src/openagent/durable_memory/dreaming/phases.py:183-191 | a score is linear in the weights |
| `DreamState.WeighsAlone` | src/openagent/durable_memory/dreaming/phases.py:183-191 | each weight weighs its own component |
| `DreamState.ComponentsAre` | src/openagent/durable_memory/dreaming/phases.py:174-182 | what makes each component full, and the part of it below that |
| `DreamState.BoostOfListings` | src/openagent/durable_memory/dreaming/phases.py:165-172 | three hundredths for each listing, a tenth from the fourth on |
| `DreamState.MergeRaises` | src/openagent/durable_memory/dreaming/phases.py:174-182 | merging one more ingested line lowers no component, on any scoring day |
| `DreamState.ReingestKeepsEligible` | src/openagent/durable_memory/dreaming/phases.py:159-210 | re-ingesting never lowers the score and never revokes threshold eligibility, on any scoring day |
| `DreamState.IngestKeepsEligible` | src/openagent/durable_memory/dreaming/state.py:49-64 | ingesting whole batches of lines lowers no stored key's score and revokes no key's eligibility |
| `DreamState.IngestedFromText` | src/openagent/durable_memory/dreaming/models.py:116-141 | a line as ingestion makes it has one recall worth 1 and distinct tags, which is what the batch lemmas ask for |
| `DreamState.UpsertIngested` | src/openagent/durable_memory/dreaming/models.py:116-141 | every entry made by ingesting and upserting lines meets what the score lemmas ask for |
| `DreamSweep.RankingAtRank` | src/openagent/durable_memory/dreaming/phases.py:129-130 | in the stable descending sort every entry stands exactly at the number of entries ahead of it |
| `DreamSweep.TopIff` | src/openagent/durable_memory/dreaming/phases.py:107-109 | an entry is in a window if and only if its rank is below the window's size, for negative sizes too |
| `DreamSweep.WindowTakes` | src/openagent/durable_memory/dreaming/phases.py:91 | a window takes the places below its size, and with a negative size all but the last so many |
| `DreamSweep.SweptScore` | src/openagent/durable_memory/dreaming/phases.py:70-71 | what the deep phase scores with is the stored listings and this sweep's own, one for each window the entry is in |
| `DreamSweep.PromotedIff` | src/openagent/durable_memory/dreaming/phases.py:117-148 | an entry is promoted if and only if its rank by that score is below the window's size, it passes the thresholds, it is grounded and no record holds it |
| `DreamSweep.SweepAgain` | src/openagent/durable_memory/dreaming/phases.py:53-84 | sweeping the same entries again lowers no score and revokes no threshold, and repeats every promotion when the window holds all entries |
| `DreamSweep.SweepDisplaces` | src/openagent/durable_memory/dreaming/phases.py:53-84 | two entries that two sweeps of one day promote one after the other, the second in place of the first |
| `DreamSweep.DreamingEngine.RunLight` | src/openagent/durable_memory/dreaming/phases.py:86-99 | the first entries are listed once each for the light phase |
| `DreamSweep.DreamingEngine.RunRem` | src/openagent/durable_memory/dreaming/phases.py:101-115 | the entries of highest average relevance are listed once each for the REM phase |
| `DreamSweep.DreamingEngine.RunDeep` | src/openagent/durable_memory/dreaming/phases.py:117-157 | scores every entry with the signals as they are and picks from the best |
| `DreamSweep.DreamingEngine.RunSweep` | src/openagent/durable_memory/dreaming/phases.py:53-84 | ingested lines are merged first, both windows are listed, and the promoted entries are those of the specification on the signals before the sweep |
| `McpPaging.CollectAll` | src/openagent/tools/mcp/protocol.py:275-286 | following cursors returns exactly the server's items, in order, for every page size of at least 0 |
| `McpPaging.PagingEndsIff` | src/openagent/tools/mcp/transport.py:281-292 | paging ends if and only if the page size is at least 0, and then returns the whole list |
| `McpPaging.CollectedFromGrowingList` | src/openagent/tools/mcp/protocol.py:275-286 | when items are appended between page requests, a walk that ends returns the list as its last request saw it |
| `McpPaging.PageFrom` | src/openagent/tools/mcp/transport.py:251-292 | one page from a reached position and the cursor after it, through the decimal round trip |
| `McpPaging.SliceIs` | src/openagent/tools/mcp/transport.py:281-292 | a page is the stretch from its start up to its end, counted from the end of the list where they are negative |
| `McpPaging.EmptyCursor` | src/openagent/tools/mcp/protocol.py:275-286 | an empty cursor asks for the first page, as none does |
| `Decimal.ReadShow` | src/openagent/tools/mcp/transport.py:288-290 | the decimal cursor survives printing and parsing |
| `McpScopes.ParseWwwAuthenticate` | src/openagent/tools/mcp/auth.py:15-26 | the parsed parameters of a challenge |
| `McpScopes.BlanksAroundChunk` | src/openagent/tools/mcp/auth.py:20-25 | blanks around a parameter do not matter |
| `McpScopes.NamelessChunk` | src/openagent/tools/mcp/auth.py:20-25 | a parameter without a name is ignored |
| `McpScopes.ParseChunksConcat` | src/openagent/tools/mcp/auth.py:20-25 | parameters are read one after the other |
| `McpScopes.ChallengeRoundTrip` | src/openagent/tools/mcp/auth.py:120-130 | a challenge for missing scope-tokens reads back as those tokens if and only if none holds a comma |
| `McpScopes.SurvivesIff` | src/openagent/tools/mcp/transport.py:133-139 | over all texts: a challenge asks for every missing scope if and only if each is a word without commas that the stripping of outer quotes leaves |
| `McpScopes.CommaScopeIsLost` | src/openagent/tools/mcp/auth.py:20-25 | a concrete scope-token that does not read back |
| `McpScopes.RequestedHasNoComma` | src/openagent/tools/mcp/auth.py:15-26 | whatever the challenge, no requested scope holds a comma |
| `McpSession.AcquireTokenFor` | src/openagent/tools/mcp/auth.py:63-80 | the offline token: fixed, else that of the last scope that has one, else an error |
| `McpSession.NoTokenIff` | src/openagent/tools/mcp/auth.py:63-80 | there is no token if and only if none is fixed and no scope has one |
| `McpSession.CallAnswers` | src/openagent/tools/mcp/transport.py:126-139 | a call is challenged if and only if it lacks a required scope; else an unknown tool is an error of its own |
| `McpSession.RequestTool` | src/openagent/tools/mcp/protocol.py:288-321 | session state, handle scopes and handle token after a call, its upgrade and its single retry |
| `McpSession.UpgradeGrants` | src/openagent/tools/mcp/auth.py:120-135 | an upgrade keeps the session's scopes and adds exactly the requested ones |
| `McpSession.UpgradeToken` | src/openagent/tools/mcp/auth.py:63-80 | the token of an upgrade: the session's while no scope is new, else the fixed one, else that of the last scope that has one |
| `McpSession.RunAgrees` | src/openagent/tools/mcp/protocol.py:288-321 | with one initialize per handle, over every history of calls, session and handle scopes agree and only grow at the end |
| `McpSession.GrantStays` | src/openagent/tools/mcp/transport.py:126-139 | a tool that needs no challenge never needs one again in a history |
| `McpSession.RanOnceStays` | src/openagent/tools/mcp/protocol.py:288-321 | a tool that ran once in a history needs no challenge after it |
| `McpSession.RetryRefusedIff` | src/openagent/tools/mcp/protocol.py:288-321 | over all scope texts: the retry is refused if and only if a missing scope does not survive the challenge or the session has forgotten a required scope of the handle that the challenge does not ask for |
| `McpSession.RetryInHistory` | src/openagent/tools/mcp/protocol.py:288-321 | with one initialize per handle: refused if and only if a missing scope does not survive the challenge, among scope-tokens one with a comma |
| `McpSession.HeldStays` | src/openagent/tools/mcp/protocol.py:128-140 | over every history of calls and initializes the session holds nothing the handle does not |
| `McpSession.RetryAnywhere` | src/openagent/tools/mcp/protocol.py:288-321 | on every link such a history reaches: the retry is refused if and only if a missing scope does not survive the challenge or the session has forgotten a required scope of the handle that the challenge does not ask for |
| `McpSession.ReinitializeForgets` | src/openagent/tools/mcp/protocol.py:128-140 | over all scope texts: after a second initialize the next upgrade grants exactly what its challenge asks for, and the exact condition for a refused retry; for scope-tokens without commas nothing the handle had is granted, and the retry is refused if and only if it needs any of that |
| `McpSession.RefusedAfterReinitialize` | src/openagent/tools/mcp/protocol.py:288-321 | a concrete server and history whose retry is refused although each scope was granted on request |
| `GatewayReplay.Gateway.ResumeBoundSession` | src/openagent/gateway/core.py:148-159 | what is replayed, and the binding moved to the session's end in memory and in the store; an unknown chat changes nothing |
| `GatewayReplay.Gateway.GetBinding` | src/openagent/gateway/core.py:267-277 | memory first, then the binding file found first, which is then remembered |
| `BindingStore.FileSessionBindingStore.LoadBinding` | src/openagent/gateway/binding_store.py:29-43 | the binding in the first file, by directory and then by name, that lies one level below the root under a name the chat's file name matches, or none |
| `BindingStore.FileSessionBindingStore.SaveBinding` | src/openagent/gateway/binding_store.py:18-27 | the file of the binding's session and chat holds it, other files stay |
| `BindingStore.LoadReturnsIff` | src/openagent/gateway/binding_store.py:35-43 | a lookup returns a binding if and only if its own file holds it, is found, and comes before every other file found |
| `BindingStore.LoadFindsIff` | src/openagent/gateway/binding_store.py:35-43 | a lookup fails if and only if no file is found |
| `BindingStore.MatchLiteral` | src/openagent/gateway/binding_store.py:41 | a name without wildcards finds itself and no other name |
| `BindingStore.NameFindsItself` | src/openagent/gateway/binding_store.py:41 | only a bracket can keep a name from finding itself |
| `BindingStore.WildcardsMatch` | src/openagent/gateway/binding_store.py:41 | a question mark stands for one character, a star for any number of them |
| `BindingStore.ClassMatches` | src/openagent/gateway/binding_store.py:41 | a closed bracket stands for one character, a member or none of the members |
| `BindingStore.OpenBracket` | src/openagent/gateway/binding_store.py:41 | a bracket that is never closed stands for itself |
| `BindingStore.ListedMembers` | src/openagent/gateway/binding_store.py:41 | members without a hyphen are themselves |
| `BindingStore.RangeMembers` | src/openagent/gateway/binding_store.py:41 | a hyphen between two members makes them a range |
| `BindingStore.BracketMissesItself` | src/openagent/gateway/binding_store.py:41 | the file of a conversation `c[1]` is not found under its own name |
| `BindingStore.StarFindsChannel` | src/openagent/gateway/binding_store.py:41 | a conversation `*` finds the file of every conversation of its channel |
| `BindingStore.PlainPlace` | src/openagent/gateway/binding_store.py:45-47 | a session id without a slash is found if and only if it is not empty, `.` or `..` |
| `BindingStore.SlashPlace` | src/openagent/gateway/binding_store.py:45-47 | a session id with a slash is found if and only if nothing but empty parts and dots follows its first part |
| `BindingStore.TwinsExist` | src/openagent/gateway/binding_store.py:49-51 | two conversations of every channel that share a file name |
| `GatewayReplay.Gateway.ProjectMany` | src/openagent/gateway/core.py:279-301 | the wanted events in order, and the checkpoint as it is when projecting |
| `GatewayReplay.Gateway.BindSession` | src/openagent/gateway/core.py:77-115 | refused if and only if memory holds another session for the chat; else a new binding, at the session's end |
| `GatewayReplay.RestartReturnsIff` | src/openagent/gateway/core.py:267-277 | for every gateway whose files lie where their bindings say: after a restart a chat has a binding if and only if its file holds it, is findable, and comes before every other file found |
| `GatewayReplay.StepBoundIff` | src/openagent/gateway/core.py:77-159 | a step leaves a bound chat bound, in memory and past a restart, if and only if it is none of: a bind to another session while memory lacks the chat, another chat's bind whose file hides its own, another chat's resume that changes its file |
| `GatewayReplay.ResumesPartition` | src/openagent/gateway/core.py:77-159 | over every history of session operations, resumes from the checkpoint or a named offset, restarts and binds of any chat that leaves the chat bound: what was replayed and what came late is the stretch the checkpoint moved over, with what named offsets repeat and without what they and the chat's own binds skip |
| `GatewayReplay.NothingLostIff` | src/openagent/gateway/core.py:279-307 | when resumes start at their checkpoints, and binds find theirs at the end, the stretch is replayed whole if and only if nothing landed between an observation and its checkpoint |
| `GatewayReplay.LateEventIsLost` | src/openagent/gateway/core.py:279-307 | an event that lands there is in the log and in neither that resume nor the next |
| `GatewayReplay.ResumeReads` | src/openagent/gateway/core.py:148-159 | a resume reads the log from its offset on, and nothing from beyond the end |
| `GatewayReplay.AppendedIsReplayed` | src/openagent/gateway/core.py:148-159 | what is appended to the session of a caught-up chat is what its next resume reads |
| `GatewayReplay.CheckpointAfter` | src/openagent/gateway/core.py:279-307 | a resume or a bind leaves the checkpoint at the end of the session, with the last event's id and the restore marker, in memory and on file |
| `GatewayReplay.DeliveredIsProjected` | src/openagent/gateway/core.py:279-301 | over every history what is delivered is the replay short of exactly the events whose types the binding does not name, as long as binds name the same types |
| `GatewayReplay.ProjectSelects` | src/openagent/gateway/projector.py:16-17 | of any events, exactly those are delivered whose type the binding names, or all if it names none, in order and as often as they come |
| `GatewayReplay.ApartUndisturbed` | src/openagent/gateway/core.py:77-159 | a history leaves a chat bound that binds it to its own session only and names other chats by other file names without wildcards |
| `GatewayReplay.SecondBindReturns` | src/openagent/gateway/core.py:86-89 | after a restart every bind succeeds, and the restart after it returns the new session if its file hides the old one's and else the old session |
| `GatewayReplay.BindRefusedIff` | src/openagent/gateway/core.py:86-89 | a bind is refused if and only if memory holds another session for the chat |
| `GatewayReplay.RestartAllowsBind` | src/openagent/gateway/core.py:86-89 | over a restart a chat can be bound to any session |
| `GatewayReplay.SlashBindingIsLost` | src/openagent/gateway/binding_store.py:41 | a chat whose conversation is `a/b` and whose session is named after it is bound until a restart and not after it, with nothing else ever bound |
| `GatewayReplay.BracketBindingIsLost` | src/openagent/gateway/binding_store.py:41 | the same for a conversation `c[1]`, whatever its session |
| `GatewayReplay.StarGetsAnother` | src/openagent/gateway/binding_store.py:41 | after a restart a conversation `*` gets another conversation's binding |
| `GatewayReplay.RestartMixesTwins` | src/openagent/gateway/binding_store.py:45-51 | after a restart a chat gets the binding that another chat of its file name would get |
| `GatewayReplay.BindStarts` | src/openagent/gateway/core.py:95-105 | a fresh binding starts where the log ends, and survives a restart if and only if its file is found before every other file found |

## Left out

- JSON encoding, file permissions, partial lines and disk errors: one line and one state write are atomic here.
- Timestamps, uuids and hashing: the times, uuids and hashes an operation uses are parameters.
- `SessionStore`: leases, the data projection in transcript lines (turn ids, timestamps), a blank reference file and
  the resume snapshot; the default transcript path is a function of the record given as a parameter.
- `FeishuCards`, `FeishuHost`: card markup (a card's drawing is a value that determines it), reactions on messages,
  the run lock, management responses and the retry thread; a retry pass and a dispatch never hold one card at a time
  in two copies, because with two copies sequence numbers are not unique in the source either.
- FeishuHost.FeishuLongConnectionHost.RetryPendingCards: the ledger lists cards in some order that is left open, not in insertion order.
- FeishuHost.FeishuLongConnectionHost.HandleCardAction: the control message to the gateway, its failure (a step of its own, `OnActionError`) and the egress that follows (`DispatchEgress`) are outside the method.
- FeishuHost.FeishuLongConnectionHost.DispatchEgress: events that do not go to a card are sent by the channel adapter, which is not part of this model.
- `ToolExecutor`: argument validation, policy, interruption and safety are given per call; events carry the place of
  the call instead of its id, which may be missing; observability spans and context modifiers.
- ToolStream.Execute: the source stops reading the stream at the first failed or cancelled event, so calls after it never run; only what is returned or raised is stated, not the summary of the abandoned stream.
- `SimpleStreamingToolExecutor`, a queue in front of the executor.
- TaskRegistry.TaskRegistry.Update: does not model the `terminal_state` field, a copy of the terminal status.
- TaskRuntime.TaskManager.Finish: does not model the kill hook a task implementation may register.
- `TaskRegistry`, `TaskRuntime`: selectors of the listing, checkpoints, background and verifier tasks, direct views;
  `mark_notified` and `update` called from outside can mark a task that was never reported.
- `TaskStorage`: the in-memory storage hands out its records themselves, and a caller who changes one changes the
  store; records are values here.
- `Recall`: lower-casing and splitting of the query text into tokens; `build_entrypoint_index` and the manifest are
  simple folds.
- `DreamMarkdown`: `append_memory_promotions` and the layout of a report's body; bodies and narratives hold no marker;
  reading turns a carriage return into a line feed, so a body that holds one reads back with a line feed in its place.
- `DreamState`: the lock file and checkpoints; a batch with one key twice changes the caller's first entry in the
  source. Phase counts are not negative, floats are reals.
- `DreamSweep`: whether a source file still holds an entry's text and whether a record repeats it are predicates given
  to the sweep; which lines are ingested, themes, reports and the fields of a promoted record.
- McpPaging.CollectAll: takes page sizes of at least 0 because the source's loop never ends for the others, as PagingEndsIff states.
- `McpPaging`: cursors the paginator never prints but `int` accepts (signs, blanks, underscores).
- `McpScopes`: key letters outside ASCII are not case-folded, which no key looked up depends on.
- McpSession.AcquireTokenFor: the network branch of token acquisition is an error here, because the token endpoint of a challenge is never known.
- `McpSession`: HTTP and stdio transports, closing and reconnecting servers,
  and the tools' own answers.
- GatewayReplay.Gateway.GetBinding: does not spawn the session; what spawning writes is one of the session operations of a history.
- GatewayReplay.Gateway.BindSession: the same holds for the session it binds.
- SessionStore.HistoryPreserves: session ids are names here and path parts in the source, so two ids that resolve to one directory, as `y` and `x/../y`, are one session there; ids are taken to be plain names.
- TaskHistory.StoragesAgree: task ids are names here too; an id with a slash works in memory and fails on files in the source.
- `SessionRace`: both writers find the transcript reference in place; two processes that append to one file at the same
  instant write whole lines here.
- BindingStore.SlashPlace: a session id with `..` in it is not resolved, and an absolute one is never found.
- `BindingStore`: a binding file or directory directly under the root with a binding's name, which the store never
  writes; names with `**`, which Python before 3.13 refuses; a bracket whose first range is reversed and followed by
  `!`, which Python reads as a negation; a gateway on a file system that ignores case.
- `GatewayReplay`: the envelope a delivered event comes in; a gateway without a binding store; replay from a negative offset; user messages and control
  messages, which move the checkpoint past events the chat never read.
