# aglink: scheduler, sessions, summaries and the protocols around them

aglink lets one person talk to coding CLIs (claude, codex, opencode) over Telegram, a
web chat and a desktop app. This project models the parts of it whose correctness
depends on whole runs rather than on single functions, and proves what they promise.

Each component is modelled twice where the program updates state in place: once as
functions on values, over which the theorems range (all states, all runs, all
interleavings), and once as classes and loops with the program's own fields, whose
methods are proved to take exactly the steps of the functions. A blocking function is
cut into the stretches that run under its mutex; every order of those stretches is a run.

| file | program file | subject |
|---|---|---|
| `QueueMerge.dfy` | `host/queuemerge.go` | folding a backlog into one turn |
| `LaneModel.dfy`, `LaneTheorems.dfy`, `LaneRules.dfy`, `LaneBot.dfy` | `host/bot.go` | lanes, slots, the ready list, steering, who shares a turn |
| `History.dfy`, `Utf8.dfy` | `host/manager.go` | stored turns, the slice a prompt gets and the bytes it is measured in |
| `Session.dfy`, `ResetRule.dfy`, `Worker.dfy` | `host/manager.go` | one worker turn, and any sequence of them, against the CLI's session store |
| `Summary.dfy`, `SummaryRules.dfy`, `SummaryManager.dfy` | `host/convsummary.go` | the rolling summary under racing refreshes |
| `TurnContext.dfy` | `host/manager.go` | what each run's prompt tells its session, and what sessions know over any sequence of turns |
| `Playbook.dfy`, `PlaybookRules.dfy` | `host/playbook.go` | the routine tree |
| `Approval.dfy` | `host/approval.go` | asking, answering, timing out |
| `Narration.dfy`, `NarrationLines.dfy`, `NarrationGate.dfy` | `host/narration.go` | what is relayed mid-turn, and when |
| `WavTape.dfy`, `WavFormat.dfy` | `desktop/tape.go`, `desktop/play_windows.go` | the recording file and the WAV reader |
| `Playback.dfy` | `desktop/play_windows.go` | barge-in |
| `ShellQuote.dfy` | `host/claudesession.go` | commands quoted for two shells |
| `TurnCost.dfy`, `UsageMeaning.dfy` | `host/convstats.go` | turn costs and the window of turn records |
| `SessionCost.dfy` | `host/convstats.go`, `host/manager.go` | turn costs over the sessions that worker turns really run in |
| `GoText.dfy` | | the string functions of Go's library these use |

`dafny verify dfyconfig.toml` checks everything.

## What the proofs turned up

Places where the code does less, or more, than its comments suggest. Each is stated as
the exact condition under which the promise holds, and shown at an input where it does not.

- After a turn that ran into no other trouble the stored session id is the one that
  answered if and only if that id could be known (`Session.IdKnown`): claude always; codex
  and opencode when a live session is resumed, or the run that makes one reports it
  (`Session.SelfHealing`, `Session.UnreportedSessionLost`).
- A reset whose turn then fails is not counted in `ResetCount`, although the old session is
  gone (`Session.ResetCountExact`, `Session.FailedResetUncounted`).
- The answer a successful turn stores is an answer, and not the text of an error, if and only
  if its last run did not end in an error body with no name of its own, and the context did not
  overflow, or there is a continuation and its run neither fails to authenticate nor overflows
  again (`Session.AnswerGenuineIff`, `Session.ErrorAnswered`, `Session.OverflowAnswered`).
- The session an answer came from is there afterwards if and only if no continuation's run failed
  to authenticate, which the check after the first run is there to prevent, and no new session
  ended in an error body before it was made; otherwise the record is started on a session that
  does not exist (`Session.AnsweredFromLiveIff`, `Session.DeadSessionPinned`,
  `Session.ErrorBeforeSession`).
- A turn that begins on a fresh session, or recovers into one, gives it every turn, folded or
  verbatim, if and only if the summary is reused as it is; or it is current or brought up to date,
  and the text of the last five turns fits the 24000-byte budget; or there is none to be had, and
  the whole history fits 40 turns and that budget (`Summary.FreshTurnSeesAll`,
  `Summary.LongTurnHidesOthers`, `Summary.FailedSummaryLosesTurns`). The session of a continuation
  is given no turns at all: it knows the conversation if and only if nothing is stored yet
  (`TurnContext.SeenIff`, `TurnContext.ContinuationForgets`).
- A session that is resumed has been told all that its record stores if and only if every turn so
  far left the record naming either no session the conversation ever had, or the very session that
  took the turn; the latter resumed, or told enough when it was made, or a continuation's whose
  record stores nothing else (`TurnContext.InformedThroughout`, `TurnContext.AnswersInformed`).
  Three ways for it to know less: an overflow continued in place
  (`TurnContext.ContinuationForgets`), a codex reset whose run does not report its thread, after
  which the session given up is resumed again (`TurnContext.ResetForgotten`), and a resume that
  fails before the session has the prompt (`TurnContext.FailedPromptUntold`).
- Summaries cover what they say if and only if the turns of a conversation never go while something
  made of them stays: `!compact` drops the turns and keeps the summary, and the id of a deleted
  topic is given out again with the old summary still in the cache (`Summary.CoverageIff`,
  `Summary.CompactedKeepsSummary`, `Summary.RemadeTakesOldSummary`).
- The user reads the confirmed narration whole if and only if no message had more than 300
  characters to say (`NarrationGate.NarrationReachesUser`, `NarrationGate.LongNarrationIsCut`).
- `createsGroupCycle` answers true not only when the move would close a cycle but also on every
  walk that runs into a cycle already there (`Playbook.PlaybookStore.CreatesGroupCycle`,
  `Playbook.OldCycleRefused`).
- A request is approved if and only if the first answer it accepted was ok, it was asked on some
  channel, and its select was not left by a due timer (`Approval.ApprovedIff`). So an `!ok` that
  was accepted may still be followed by a refusal, but only once the time is up
  (`Approval.InTimeHonoured`, `Approval.AcceptedMayTimeOut`).
- The WAV reader measures a finished recording of n bytes correctly if and only if
  0 < n < 2^32 (`WavTape.ReaderAgrees`, `WavTape.EmptyTapeUnreadable`). The RIFF size field, which wraps 36 bytes earlier, plays no part.
  Of other files it takes bytes 8 to 12 after a format chunk's length for the byte rate, which are
  the chunk's own if and only if it has twelve bytes (`WavFormat.ReadsAnyWav`, `WavFormat.RateIsOwn`,
  `WavFormat.ShortFormatMisread`).
- A claude turn is charged less than it cost if and only if it plainly resumes a session that was
  lost and made anew, under the same id, by a turn that reported no cost (a failed one, say), and
  the new running total has caught up with the old one; it is never charged more (`SessionCost.NoticedIff`,
  `SessionCost.NeverOvercharged`, `SessionCost.RemadeSessionUndercharged`).

## Model

| member | source | states |
|---|---|---|
| QueueMerge.HeadRun | host/queuemerge.go:64-75 | the run taken is the longest one at the head that is compatible with it |
| QueueMerge.MergeQueuedHead | host/queuemerge.go:64-89 | the scanning and building loops compute the queue with its head run folded |
| QueueMerge.MergeKeepsContent | host/queuemerge.go:23-36 | merging neither loses, repeats nor reorders: paragraphs and Telegram ids stay the same sequences |
| QueueMerge.JoinStaysOrdinary | host/queuemerge.go:17-20 | joined ordinary messages never read as a "!" command |
| QueueMerge.FoldCompatible | host/queuemerge.go:46-59 | a folded entry joins exactly what its first message could join |
| QueueMerge.MergeIdempotent | host/queuemerge.go:61-89 | merging twice is merging once |
| QueueMerge.MergedCountExact | host/queuemerge.go:83-85 | the merged count equals the messages carried iff nothing joined was merged before |
| LaneRules.OwnLanes | host/bot.go:205-210 | two messages without a lane key of their own share a lane iff they are for the same web topic or neither is for one |
| LaneRules.CompatibleIff | host/queuemerge.go:46-59 | of one lane, two messages may share a turn iff both are ordinary, from the same chat and origin, and addressed alike |
| LaneRules.FoldedAsHead | host/queuemerge.go:82-85 | a folded entry is its head's in everything but text, Telegram ids and count |
| LaneModel.DispatchInv | host/bot.go:578-642 | every dispatch keeps the scheduler's invariant, from any state that has it |
| LaneModel.FinishInv | host/bot.go:711-753 | so does every end of a turn in flight, merging and handing over included |
| LaneModel.AfterInv | host/bot.go:578-753 | so does every run |
| LaneTheorems.SlotInvariant | host/bot.go:600-641 | slots held equal running lanes and stay within the cap; the ready list is exactly the idle lanes, once each, with work; a lane waits only when all slots are taken |
| LaneTheorems.FreedSlotHandedOver | host/bot.go:674-688 | a freed slot goes to the lane that waited longest, which starts its queue head |
| LaneTheorems.StaleSkipNeverTaken | host/bot.go:672-682 | the stale-entry skip is dead code in every reachable state |
| LaneTheorems.NormalLaneSerial | host/bot.go:737-746 | a running normal lane has one turn in flight, its queue's head |
| LaneTheorems.InteractiveLaneCounts | host/bot.go:590-598 | inFlight is the number of turns in flight; at most one is queue-born and it is the head |
| LaneTheorems.InteractiveArrival | host/bot.go:590-598 | a message arriving at a running interactive lane leaves its queue alone |
| LaneTheorems.InteractiveEnd | host/bot.go:719-736 | only a queue-born turn's end pops the queue, and the lane goes only with nothing queued and nothing in flight |
| LaneTheorems.TurnEndOutcome | host/bot.go:711-753 | in every reachable state: a turn that leaves others of its lane in flight starts nothing; the last one of a lane with nothing waiting takes the lane with it; otherwise one new turn takes the front of what waits, one message on an interactive lane, the longest compatible run on a normal one |
| LaneTheorems.QueueFifo | host/bot.go:600-629 | per key, what was started followed by what waits is what was dispatched, in order, across merging and lanes deleted and made again |
| LaneTheorems.ExactlyOnce | host/bot.go:702-753 | every dispatched message is finished, in flight or waiting, exactly as often as it was dispatched |
| LaneTheorems.MergedCountHonest | host/queuemerge.go:82-85 | over all runs no entry is merged twice, so each turn's count is the number of its messages |
| LaneTheorems.FinishProgress | host/bot.go:711-753 | each turn's end takes exactly its messages off the work left |
| LaneTheorems.DrainBound | host/bot.go:711-753 | with no new messages no sequence of turn ends is longer than the work left |
| LaneTheorems.Drains | host/bot.go:711-753 | from every reachable state some sequence of turn ends empties the bot |
| LaneTheorems.DrainedIsEmpty | host/bot.go:747-751 | with nothing in flight no lane, ready entry or slot is left and all messages are finished |
| LaneRules.ArrivalOutcome | host/bot.go:578-642 | in every reachable state a message is steered in iff turns of its lane are in flight and the message that made the lane was of an interactive conversation; starts a turn iff its lane is quiet and a slot is free; waits otherwise |
| LaneRules.MadeAfter | host/bot.go:586-589 | over any run a lane is of the kind the message said that found its key quiet |
| LaneRules.NeverTwoAtOnce | host/bot.go:567-577 | over any run, turns of a conversation that is never interactive do not overlap and nothing is steered into it |
| LaneRules.AlwaysSteered | host/bot.go:590-598 | a message of an always interactive conversation at work is one more turn in flight |
| LaneRules.TurnsSpeakAsOne | host/queuemerge.go:17-30 | over any run, messages share a turn only from one chat, origin and addressee, none of them a task, a command, or to be kept apart |
| LaneRules.NextStandsApart | host/queuemerge.go:64-75 | the first message a chained turn leaves waiting could not have joined it |
| LaneBot.Bot.LaneQueuedLocked | host/bot.go:663-670 | the loop answers whether key is in the ready list |
| LaneBot.Bot.Dispatch | host/bot.go:578-642 | the lane objects, ready list and counter move exactly as the model's step; what it starts is what the model starts |
| LaneBot.Bot.ScheduleLocked | host/bot.go:674-688 | the promotion loop on the program's fields is the model's, and each goroutine it starts gets the key and queue head of one new turn, in order |
| LaneBot.Bot.FinishTurn | host/bot.go:711-753 | the program's fields move as the model's step; the message returned, or the heads handed to promoted lanes, are exactly the new turns |
| History.TailTurns | host/manager.go:2274-2292 | the loop takes the suffix Tail names |
| History.TailIsLongest | host/manager.go:2270-2273 | that suffix is within the limits, no longer one is, and the newest turn is always in it |
| History.TailIsAllIff | host/manager.go:2270-2292 | it is the whole history iff the whole history is within the limits |
| History.HistoryForContext | host/manager.go:2224-2229 | nothing on a resume, the tail of at most 40 turns and 24000 bytes otherwise |
| Utf8.EncodeInjective | host/manager.go:2274-2292 | the bytes that lengths are counted in determine the text |
| Utf8.CharsAreBytes | host/manager.go:2274-2292 | what the budget adds up is the size in UTF-8 of all prompts and responses |
| Session.DecideFacts | host/manager.go:1445-1484 | after the decision the id is not blank, a resumed one is the stored one, and a reset record is not started |
| Session.AttemptHeals | host/manager.go:1560-1653 | first run and retry: at most two, on one id, ending in a live session |
| Session.SelfHealing | host/manager.go:1436-1448 | from any record and any CLI store an untroubled turn succeeds within two runs, names no blank id, resumes iff started, and ends started on a live session whose id is stored iff it can be known |
| Session.UnreportedSessionLost | host/manager.go:1771-1777 | a codex run that does not report the session it makes leaves a started record naming another id |
| Session.HealedOnce | host/manager.go:1624-1632 | after that the next turn just resumes that session, for every backend whose id is known |
| Session.AnswerGenuineIff | host/manager.go:1673-1740 | what a successful turn stores is what its last run said, and that is an answer iff that run did not end in an error body and there was no overflow without a continuation that answers |
| Session.ErrorAnswered | host/manager.go:1679-1690 | an error body that is neither an authentication failure nor an overflow is stored as the answer |
| Session.AnsweredFromLiveIff | host/manager.go:1673-1678 | the session answered from is live afterwards iff no continuation's run failed to authenticate and no run on a new session ended in an error body before making it; a claude record names it either way |
| Session.ErrorBeforeSession | host/manager.go:1742-1744 | such an error body on the first turn leaves the record started on a session never made |
| Session.DeadSessionPinned | host/manager.go:1690-1744 | overflow, then a continuation that does not authenticate: the error is the answer and the record is started on a session never made |
| Session.OverflowAnswered | host/manager.go:1737-1746 | overflow and no continuation: the error is the answer |
| Session.TurnOutline | host/manager.go:2231-2246 | a turn resets only a started record, and a failed reset turn leaves it unstarted |
| Session.ResetsApart | host/manager.go:2231-2246 | between two resets there is a successful turn, whatever fails or crashes in between and whichever backend each turn is on |
| Session.ResetCountExact | host/convstats.go:18-24 | the reset counter is the number of resets, since the record in use was made, whose own turn succeeded, for all sinks and a backend that may change from turn to turn |
| Session.FailedResetUncounted | host/manager.go:1460-1473 | a reset whose run fails gives up the session and is not counted |
| Session.PromptStoredOnce | host/manager.go:1551-1558 | a failed turn adds the prompt alone, a successful one the completed turn (last 200 kept), one that moved to a new record both, each in its place |
| Session.FillsPending | host/manager.go:1228-1241 | the pending slot is filled in place, or the turn appended where there is none |
| Session.AnswerPlaced | host/manager.go:1228-1241 | storing an answer fills the unanswered slot of its own prompt or comes last, and touches no other turn |
| Session.NewestKept | host/manager.go:1749-1770 | of more than 200 turns the newest 200 are kept |
| ResetRule.GivenUpIff | host/manager.go:1449-1484 | after any turns a started conversation's next turn gives up its session iff the last claude report is of 100000 tokens, or of 50000 with the last answer an hour old, or the last codex report is of 200000; and which id it then runs on |
| ResetRule.SizeKnown | host/manager.go:1772-1783 | over any turns on any backends the record's counters and clock are what the last successful turns reported, since a session was last given up |
| ResetRule.FirstRun | host/manager.go:1445-1484 | the first run of a turn, resume or not and on which id, from the stored record and the limits in numbers |
| ResetRule.TurnCountExact | host/convstats.go:18-24 | the turn counter is the number of successful turns since the record in use was made |
| ResetRule.ContinuationLeft | host/manager.go:1698-1744 | after an overflow: started on the session that answered where it was named; after a failed continuation, its session still to be made; after a crash or in another record, as before |
| Worker.Conversation.MarkSessionReset | host/manager.go:2263-2268 | the counters are cleared and the record unmarked, nothing else |
| Worker.Conversation.DecideSession | host/manager.go:1445-1484 | the branch-by-branch decision equals Decide, and the flags tell exactly whether it reset |
| Worker.Conversation.RecordProgress | host/manager.go:1742-1783 | the progress fields after a successful turn |
| Worker.RunWithRecovery | host/manager.go:1560-1653 | both recoveries, as runs made against the CLI and the reply they end with |
| Worker.MakeContinuation | host/manager.go:718-819 | the sinks: the stored record itself with a new id, or a new record stored beside it, or an error |
| Worker.Store.Save | host/store.go:254-263 | the store holds the very record it is given, and the disk everything as it then is |
| Worker.RunWorker | host/manager.go:1436-1783 | the whole turn on mutable record, store and CLI, for any record, stored or not and active or not, does what WorkerTurn says: runs made, sessions left, what the next turn finds, in memory or, after a crash, on disk, and which record is active |
| Worker.StoredWhatTurned | host/manager.go:1690-1698 | the user's conversation ends as the turn's record, a record moved on from keeps the lone prompt, others are untouched |
| TurnContext.PromptPerRun | host/manager.go:1486-1505 | each run has one prompt: a resume and a continuation are told no turns, a new session what Prompted makes of the history with the summary of that moment |
| TurnContext.PromptCovers | host/convsummary.go:191-227 | a new session's prompt ends with the stored turns, or the newest of them, iff nothing is missing from it |
| TurnContext.SeenIff | host/manager.go:1690-1720 | the session that answers has been told everything stored before the turn iff: it is a continuation's and nothing is stored; or it is resumed and knew; or it is new and its prompt leaves nothing out |
| TurnContext.AnswerTold | host/manager.go:1750-1758 | what it is told is what it then holds, followed by the turn as the record stores it |
| TurnContext.InformedIff | host/manager.go:1765-1777 | a turn leaves its record informed iff the session that took it is named and was told enough, or no session of the conversation is named |
| TurnContext.InformedThroughout | host/manager.go:1436-1783 | over any turns, backends, losses, failures and crashes: the session the record names knows all the record stores, all the time, iff every turn keeps to that |
| TurnContext.AnswersInformed | host/manager.go:1436-1783 | after such turns an answer comes from a session that knows all stored before it, except in a continuation with something stored or on a new session whose prompt leaves something out |
| TurnContext.ContinuationForgets | host/manager.go:1705-1705 | an overflow continued in place: the answer comes from a session never told of the turn on record, and the record goes on with that session |
| TurnContext.ResetForgotten | host/manager.go:1451-1458 | a codex reset without a reported thread: the record names the session given up, which lacks the turn |
| TurnContext.FailedPromptUntold | host/manager.go:1551-1558 | a resume that fails before the prompt is taken: it is stored, and the session is never told |
| Summary.TurnsToSummarizeLoop | host/convsummary.go:120-135 | the scanning loop finds the turns between the summary's reach and the tail |
| Summary.PendingExact | host/convsummary.go:118-135 | those are exactly the turns not folded yet that are not in the tail |
| Summary.BestExact | host/convsummary.go:86-104 | the summary read and the one adopted are one of the two, and go as far as either |
| Summary.SummaryGapReusable | host/convsummary.go:234-246 | the early-exit loop decides the limits of six turns or 12000 bytes |
| Summary.StepInv | host/convsummary.go:86-308 | every critical section of turn, synchronous call, background job, save and restart keeps all summaries exact, and so does dropping the turns when nothing made of them stays |
| Summary.CoverageUnderRaces | host/convsummary.go:191-308 | in every run in which turns are only dropped when nothing made of them stays, jobs ending between a read of the cache and the start of the next one included, every summary folds exactly the turns up to its upTo, once and in order, and at most one background job runs |
| Summary.CoverageIff | host/convsummary.go:86-104 | after any such run and one more step the summaries go on covering what they say, whatever follows, iff that step leaves no summary and no working job over |
| Summary.CompactedKeepsSummary | host/manager.go:576-581 | a reachable state in which !compact leaves a saved summary of turns that are gone |
| Summary.RemadeTakesOldSummary | host/store.go:231-239 | a reachable state in which a topic is deleted and the new one under its id saves the old summary as its own |
| Summary.SummariesNeverRegress | host/convsummary.go:97-116 | in such runs the saved summary only ever grows until the conversation is deleted, and the cached one between restarts |
| Summary.ReuseTakesTheNewer | host/convsummary.go:195-206 | on reuse the slice index is in range and the turns injected are exactly those newer than the summary |
| Summary.FreshSessionSeesAll | host/manager.go:1486-1505 | summary plus verbatim turns, or the fallback, are the whole conversation iff the limits of the plan taken allow it, for all four plans and a summarizer that answers or not |
| Summary.FreshTurnSeesAll | host/manager.go:1486-1505 | so in every state such a run reaches, with the summary the turn would take |
| SummaryRules.WholeIff | host/manager.go:1486-1505 | in every reachable state the prompt of a fresh session holds the whole conversation iff it fits: six turns or 12000 bytes lacking, last five in 24000 bytes, or forty turns in 24000 bytes |
| SummaryRules.PlanIff | host/convsummary.go:191-227 | which of the four ways is taken, from how many turns and bytes lie between the summary and the last five |
| SummaryRules.JobIff | host/convsummary.go:263-289 | in every reachable state a background job is started iff three turns are lacking before a reset, or any when a summary is reused, and none runs; for exactly those turns |
| SummaryRules.FreshTakesUp | host/convsummary.go:195-228 | the summary used is taken up by the record; one asked for is in record and cache and holds all but the last five turns |
| SummaryRules.AdoptedAll | host/convsummary.go:86-104 | after adopting, the record's summary goes as far as the cached one and its own |
| SummaryRules.FoldReachesDisk | host/convsummary.go:97-116 | the turns a background job folded are in the saved summary for good once adopted and saved, whatever else runs |
| Summary.LongTurnHidesOthers | host/convsummary.go:228-228 | six turns, one long: the prompt drops turns the summary does not have |
| Summary.FailedSummaryLosesTurns | host/convsummary.go:216-219 | fifty short turns and no answer from the summarizer: the first ten are lost |
| SummaryManager.Manager.BestSummary | host/convsummary.go:86-95 | the newer of the record's summary and the cached one |
| SummaryManager.Manager.AdoptCachedSummary | host/convsummary.go:99-104 | the manager's maps and the record take the model's step: a newer cached summary is adopted |
| SummaryManager.Manager.StoreSummary | host/convsummary.go:106-116 | the cache of that key is replaced iff by a newer summary, other keys stay |
| SummaryManager.Manager.RefreshSummaryAsync | host/convsummary.go:274-289 | the model's start: a job begins iff there is something to fold and none runs for the key; no other conversation is touched |
| SummaryManager.Manager.TaskStore | host/convsummary.go:299-305 | the model's step: the job's fold is cached unless a newer one landed |
| SummaryManager.Manager.TaskRelease | host/convsummary.go:292-296 | the model's step: the key is free for the next job |
| SummaryManager.Manager.BeginFresh | host/convsummary.go:191-227 | summaryForFreshSession up to the summarizer or the start of a job is the model's step |
| SummaryManager.Manager.CallReturned | host/convsummary.go:213-227 | the return of the synchronous call is the model's step |
| SummaryManager.Manager.MaybePrewarm | host/convsummary.go:257-261 | the prewarm's reading of cache and history is the model's step |
| SummaryManager.Manager.Compact | host/manager.go:576-581 | what !compact does to record and store is the model's step |
| SummaryManager.Manager.Remake | host/store.go:508-518 | a record made anew under a deleted id finds what the model's step says, cache and jobs included |
| SummaryManager.Manager.FreshContext | host/manager.go:1486-1505 | the parts in sequence give the prompt the context Prompted names, fallback included |
| Playbook.NotOwnAncestor | host/playbook.go:330-331 | who reaches a root is not among their own ancestors |
| Playbook.RepeatNeverTops | host/playbook.go:338-340 | a walk that meets a group twice never reaches a root |
| Playbook.PutGroupValid | host/playbook.go:154-188 | adding or moving a group under a known parent that is not below it keeps the forest |
| Playbook.FreshOffChain | host/playbook.go:174-178 | a new id closes no cycle, so it needs no walk |
| Playbook.DeleteKeepsChains | host/playbook.go:196-216 | every remaining group keeps its ancestor chain with the deleted id taken out |
| Playbook.DeleteValid | host/playbook.go:196-223 | deletion keeps forest, known parents and known routine groups |
| Playbook.PlaybookStore.CreatesGroupCycle | host/playbook.go:332-349 | on any graph it ends, and is true iff the walk up meets id or never reaches a root |
| Playbook.OldCycleRefused | host/playbook.go:338-340 | two groups under each other: a third, on neither's walk, is refused below them |
| Playbook.PlaybookStore.UpsertGroup | host/playbook.go:157-194 | exactly which calls are refused; otherwise the list with the group put in, still valid |
| Playbook.PlaybookStore.DeleteGroup | host/playbook.go:198-223 | refused iff unknown; otherwise children and routines hang on the parent, still valid |
| Playbook.PlaybookStore.UpsertPlaybook | host/playbook.go:228-266 | refused iff nameless or in an unknown group; an existing routine keeps its creation time and run statistics |
| Playbook.PlaybookStore.DeletePlaybook | host/playbook.go:269-286 | refused iff unknown; otherwise that one entry goes and the order stays |
| PlaybookRules.RoutineSaved | host/playbook.go:228-266 | a saved routine says what was asked for, keeps when it was made and how it ran, and no other routine changes |
| PlaybookRules.HistorySurvives | host/playbook.go:246-251 | over any edits a routine not dropped stays, with its creation time, last run and run count |
| PlaybookRules.GroupSaved | host/playbook.go:174-193 | a saved group is found as given, every other where and what it was |
| PlaybookRules.GroupDeleted | host/playbook.go:205-216 | deleting takes one id out of the order and leaves name and fold of all others |
| PlaybookRules.RoutinesMoveUp | host/playbook.go:217-222 | its routines are then listed under its parent, those of other groups stay |
| PlaybookRules.Dropping | host/playbook.go:269-286 | a dropped routine is gone |
| Approval.AnswerReaches | host/approval.go:250-275 | in every reachable state an answer reaches exactly the unreturned request whose id is typed, in any case and with one # or none, or without an id the only one there is |
| Approval.Alphabet | host/approval.go:121-121 | ids are drawn from exactly the letters listed |
| Approval.ApprovedByFirstAnswer | host/approval.go:162-217 | a request is approved only if the first answer it accepted was ok, over all interleavings |
| Approval.ApprovedIff | host/approval.go:201-217 | a decided request is approved iff its first accepted answer was ok, it was asked on some channel, and its select was not left by a due timer |
| Approval.InTimeHonoured | host/approval.go:205-217 | an ok that came first is always honoured if the question went out and the time was not up |
| Approval.VerdictStands | host/approval.go:276-279 | later answers never change a verdict |
| Approval.ReturnedHearsNothing | host/approval.go:167-171 | once returned, no answer reaches the request again, even if its id is reused |
| Approval.AcceptedMayTimeOut | host/approval.go:205-217 | once the time is up an accepted ok may still end in a refusal |
| Approval.Approvals.Ask | host/approval.go:162-166 | a new request under a free id, its channel empty |
| Approval.Approvals.ResolveApproval | host/approval.go:252-281 | the request found and the one-slot send, as the model's answer step |
| Approval.Approvals.Decide | host/approval.go:205-217 | the select as the model's step: true only with an ok taken from the channel, and always with one there before the time is up |
| Approval.Approvals.Finish | host/approval.go:167-171 | the deferred delete |
| Narration.TrackerIsRight | host/narration.go:32-39 | over any stream the texts relayed are, in order, exactly those a tool call confirmed before the turn ended, and those held are the ones still open |
| Narration.ClosingAnswerNeverRelayed | host/narration.go:34-36 | the tracker's output over a stream is its output without the texts between the last tool call and the result, then or later |
| Narration.NarrationTracker.Feed | host/narration.go:42-86 | one line through the block loop is the tracker's step, joined by newlines |
| Narration.OutsAreConfirmed | host/narration.go:66-83 | the relayed lines read together are the confirmed texts, and each is trimmed and not empty |
| Narration.RelayStream | host/runner.go:298-306 | the line callback, run over a stream, relays just that |
| NarrationLines.RelayedExactly | host/narration.go:42-86 | over any stream what is relayed is, in order, the texts of main-thread lines that a main-thread tool call follows before a result |
| NarrationLines.OnlyMainCounts | host/narration.go:62-65 | sub-agent lines and all others might as well not be in the stream |
| NarrationGate.GateInvariant | host/narration.go:88-91 | timer armed iff buffer not empty; messages but the closing one a window apart; delivered plus buffered is what was added before Close, in order |
| NarrationGate.ClosedDeliveredAll | host/narration.go:146-162 | after Close everything added before it has been handed over exactly once, in order |
| NarrationGate.SilentAfterClose | host/narration.go:126-133 | nothing is sent after Close, late timers included |
| NarrationGate.NarrationReachesUser | host/narration.go:10-16 | tracker and gate together hand each confirmed text to one send, in order, whatever the timing; the messages read are those texts whole iff none was over 300 characters |
| NarrationGate.MessagesWholeIff | host/narration.go:164-172 | over any sends, messages and delivered texts read the same iff none was cut |
| NarrationGate.LongNarrationIsCut | host/narration.go:168-168 | a narration of 301 characters reaches the user as 299 and an ellipsis |
| NarrationGate.MessageShows | host/narration.go:164-172 | in every run each message is its texts, or the first 299 characters of them and an ellipsis |
| NarrationGate.AddOutcome | host/narration.go:107-134 | in every run a text goes out alone at once iff nothing waits and nothing went out for four seconds, else at four seconds after the last message |
| NarrationGate.Gate.Add | host/narration.go:107-134 | the fields move as the model's Add and at most one message is sent |
| NarrationGate.Gate.TimerFired | host/narration.go:126-133 | the callback, on time or after Close |
| NarrationGate.Gate.Close | host/narration.go:147-162 | the fields move as the model's Close |
| NarrationGate.Gate.FlushLocked | host/narration.go:164-172 | the whole buffer goes out as one message of at most 300 characters, or nothing does |
| WavTape.U32OfLe32 | desktop/tape.go:64 | the four bytes written are the length modulo 2^32 |
| WavTape.WavHeader | desktop/tape.go:51-66 | the buffer filled field by field is the 44-byte header |
| WavTape.TornLength | desktop/tape.go:20-21 | a length field written halfway never claims more than the new length |
| WavTape.TapeInvariant | desktop/tape.go:17-21 | after any appends, failed or torn at any byte, all recorded samples are there in order, the header is sound and claims no more than is present |
| WavTape.WholeAppendRepairs | desktop/tape.go:108-117 | the next whole append puts header and data right whatever failed before |
| WavTape.RecordingExact | desktop/tape.go:97-118 | without failures the file is the header for its samples followed by all of them |
| WavTape.TapeState.TapeStart | desktop/tape.go:70-95 | a new recording is the empty header |
| WavTape.TapeState.TapeAppend | desktop/tape.go:98-118 | refused when nothing is open; otherwise the model's append, odd byte dropped |
| WavTape.TapeState.TapeStop | desktop/tape.go:141-151 | samples over rate, or an error when nothing is open |
| WavTape.WavDuration | desktop/play_windows.go:88-114 | on any bytes the loop ends, stays in bounds and computes the chunk walk's result |
| WavTape.ReaderAgrees | desktop/play_windows.go:87-114 | a recording of n bytes is measured as n bytes at 32000 per second iff 0 < n < 2^32 |
| WavTape.EmptyTapeUnreadable | desktop/play_windows.go:102-113 | a recording without samples is not measured at all |
| WavTape.CutOffStillPlays | desktop/tape.go:20-21 | a recording cut off anywhere measures what its header claims, all of it recorded data |
| WavTape.SecondsAgree | desktop/tape.go:147 | the seconds TapeStop reports are those the reader computes |
| WavFormat.HeaderFields | desktop/tape.go:49-66 | every field of the header, decoded at its place in the file |
| WavFormat.FileIsInput | desktop/tape.go:97-118 | without failures the file is the header and all that was handed over, less odd last bytes |
| WavFormat.FailedAppendKeeps | desktop/tape.go:103-112 | samples that do not all reach the disk leave header, samples and count as they were |
| WavFormat.ReadsAnyWav | desktop/play_windows.go:87-114 | of any file made of chunks the reader hears exactly the chunks, odd-sized ones included |
| WavFormat.RateIsOwn | desktop/play_windows.go:97-100 | the four bytes taken for the byte rate lie in the format chunk iff it has twelve bytes |
| WavFormat.ShortFormatMisread | desktop/play_windows.go:97-100 | after an empty format chunk the first samples are taken for the byte rate |
| Playback.PlaybackInvariant | desktop/play_windows.go:26-31 | the current reading is past every stopped one, the clip being read is kept alive, stop channels are closed at most once, no waiting call is orphaned |
| Playback.StoppedStaysSilent | desktop/play_windows.go:33-36 | after a stop of reading g nothing sounds and no clip of a reading up to g starts, ever |
| Playback.PlaysIff | desktop/play_windows.go:37-55 | after any events a clip is played iff it can be measured and its reading is later than every one stopped |
| Playback.Player.PlayWavNative | desktop/play_windows.go:37-55 | the call up to its select: unmeasurable, already stopped, failed to play, or playing |
| Playback.Player.LeaveSelect | desktop/play_windows.go:56-67 | the call past its select clears only its own clip |
| Playback.Player.StopWavNative | desktop/play_windows.go:70-75 | everything up to gen is stopped and nothing sounds |
| Playback.Player.SilenceCurrent | desktop/play_windows.go:78-85 | the channel closed is open before, so no double close |
| ShellQuote.QuoteRoundTrip | host/claudesession.go:216-219 | for every string the shell reads the quoted form as one word, the string |
| ShellQuote.LoginShellWords | host/claudesession.go:312-317 | for every command the outer shell sees bash, -lc and the command |
| ShellQuote.SendInnerWords | host/claudesession.go:359-364 | the login shell reads text, path and prompt back unchanged, each as one word in its place |
| ShellQuote.ListInnerWords | host/claudesession.go:322-327 | the same of the list command |
| ShellQuote.SendReadTwice | host/claudesession.go:352-365 | both readings of a delivery in sequence, for every binary text that lexes by itself |
| ShellQuote.ListReadTwice | host/claudesession.go:322-327 | both readings of a listing in sequence |
| ShellQuote.PlainReadTwice | host/claudesession.go:302-310 | for a binary named by one plain word both commands are read with it as that word |
| ShellQuote.DefaultReadTwice | host/claudesession.go:302-310 | so with the default binary, for all texts, paths and prompts |
| ShellQuote.FixedWords | host/claudesession.go:322-365 | the words of both commands that depend on nothing |
| TurnCost.ChargedExactlyIff | host/convstats.go:261-275 | a turn is charged what it spent iff the guess about a new session is right, and the error otherwise |
| TurnCost.ChargeNotNegative | host/convstats.go:265-266 | no charge is negative |
| TurnCost.CostTelescopes | host/convstats.go:261-275 | charges add up to the final totals of the CLI's incarnations, each being what its turn spent |
| SessionCost.GuessedIff | host/manager.go:1793-1796 | with the id and flag runWorker passes, the program never sees a new session where there is none, and overlooks one exactly on a Missed turn |
| SessionCost.NoticedIff | host/convstats.go:261-275 | over any run of claude turns every new incarnation is noticed iff no turn was Missed |
| SessionCost.ChargesExact | host/convstats.go:261-275 | then the charges are what was spent, turn by turn and in sum |
| SessionCost.NeverOvercharged | host/convstats.go:265-275 | in every run no turn is charged more than was spent, nor less than nothing |
| SessionCost.RemadeSessionUndercharged | host/convstats.go:269-271 | a session lost and made anew by a failed turn: the next answer is charged too little |
| SessionCost.ChargeByRun | host/manager.go:1793-1796 | a turn answered by a session made in it is charged all that session cost, one resuming the last reported session what came on top |
| TurnCost.Conversation.ClaudeTurnCost | host/convstats.go:267-275 | one report on the record's two fields charges what the model charges |
| TurnCost.Conversation.RecordTurnStat | host/convstats.go:19-28 | counters count all turns ever, the window is always the newest 200 |
| TurnCost.Conversation.BuildUsageStats | host/convstats.go:112-171 | the window aggregates and the newest limit turns |
| TurnCost.Aggregate | host/convstats.go:129-162 | the loop's sums, ratio, average, maximum and per-model counts are those of the window |
| TurnCost.WindowResets | host/convstats.go:79 | the window never shows more resets than there were, and all of them up to 200 turns |
| UsageMeaning.FiguresMean | host/convstats.go:112-171 | sums, shares, counts, average and maximum of the usage view are those of its turns: what each figure is called |
| UsageMeaning.WindowIsNewest | host/convstats.go:19-28 | its turns are the newest 200, and the counters count all |
| UsageMeaning.ChargeRule | host/convstats.go:261-275 | which reports are charged in full and which for the difference, from two reports in a row |

## Left out

- Telegram, web sockets, HTTP, Wails, Win32, process spawning: sends are no-ops, saves are atomic assignments that succeed, playback is a flag.
- The watchdog and `!cancel`: turnTimeoutCheck is not part of this model; a turn may end at any moment instead.
- Live changes of MaxWorkers: the cap is fixed for a run. dispatchLoad, a display count, is not modelled.
- The cancel functions finishTurn removes, and the worker ids they are kept under.
- Several steered turns working on one Conversation at once, a caveat host/bot.go:151-156 names: the session model has one turn at a time per conversation.
- Text classification of what the CLI says: a body is an answer, an authentication failure, an overflow or another error; a CLI that refuses an id does so with an error, not in a body.
- Prompt text, model tiers, memory reminders (`MemoryFlushSent`), titles, parent and child links and `Summary` of a conversation, and the split before a turn, whose threshold no current backend sets.
- The interactive terminal runner: of it only the lane side (steering) is modelled.
- A run that fails to authenticate is taken to make no session, as host/manager.go:1673-1678 says; a run that fails reports no cost.
- Session ids minted by the bot and by the CLI are assumed new and not blank (`Session.FreshIds`).
- Summaries: what the summarizer writes, its input budget, the 200-turn history cap, the settings that switch it off and a missing summarizer. A summary is the list of turns folded into it, and turn timestamps rise strictly.
- What sessions know: a session keeps what it was told (the CLI's own compaction is not modelled), and the one-line `Summary`, parent summaries and memory files do not count as telling turns. `TurnContext.Fair` takes rising timestamps and exact summaries as given, which CoverageUnderRaces shows for records the 200-turn cap has not cut. After `!compact` a record names no session, so a new `TurnContext.World` begins.
- Playbook steps, delivery targets and running a routine; a store file edited by hand into an invalid tree (only the cycle walk is proved on such graphs).
- Approval: lower-casing beyond ASCII, redaction, keyboards; that the random draw of an id ends.
- Narration: JSON decoding and the substring pre-filter in front of it; the progress channel may drop a line when its consumer is busy, so NarrationReachesUser says what happens when none is dropped.
- Recording: base64 decoding, the text file beside the WAV, an error on opening files.
- Playback: that a clip ends within its measured time plus 50 ms is assumed of winmm.
- Quoting: double quotes, expansions, patterns and comments outside quotes are outside the token rules modelled, so SendInnerWords asks that the configured binary text lex by itself; prompt wording and base64 are parameters.
- mergeSessions, the session probe and transcript tails.
- Costs are reals: floating-point rounding is not modelled. Totals over all conversations are plain sums.
