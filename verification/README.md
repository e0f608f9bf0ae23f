# SHAMSU: a verified model of its bookkeeping

SHAMSU is a local coding agent.  This project models the parts of it that are deterministic
bookkeeping and proves what they are relied on for, in five groups of modules:

- **Eval comparison** (`Binomial`, `FisherTest`, `Names`, `EvalDiff`, `EvalVerdict`): two eval
  runs are compared case by case.  A hand-written one-tailed Fisher exact test decides whether
  the movement of a flaky case may be counted; the countable movements make a delta, and the
  delta a verdict.  All arithmetic is exact.
- **Run ledger** (`RunRecords`, `LedgerSpec`, `LedgerInvariant`, `LedgerTheorems`, `ContextCrashes`,
  `FinishCrashes`, `ModelCalls`, `ActionLedgerWriter`, `RunValidator`, `Acceptance`,
  `EvidenceOutcome`, `WriterEvidence`): an append-only record of one run, over several streams with
  one sequence of numbers, whose counters are rebuilt from disk when a new process opens it; a
  checker written apart from the writer; and the outcome read back from the evidence. `LedgerSpec`
  is the state machine. `ActionLedgerWriter` is the object with fields: its `Valid()` is the
  invariant of the state machine, and every method keeps it. The theorems are about every run,
  process replacements and processes that die halfway included.
- **Conversation window** (`ConversationModel`, `ChatWindow`, `ChatWindowRuns`, `StaleDrops`): which
  messages a prompt keeps, which are folded into a rolling summary, and how the boundary between the
  two is saved in transcript terms and restored by a later process that loads a different stretch.
  The state says for every message which transcript record it shows, and the object's `Valid()` ties
  the messages to those records.
- **Generation engine** (`LiteralScanner`, `LiteralGrammar`, `PythonReader`, `MilestoneGenerator`):
  the scanner that repairs raw newlines in generated Python, and the loop over milestones, bundles
  and attempts.
- **Bounded loops and schedulers** (`FeedbackLoop`, `TaskScheduler`, `ContextAllocator`,
  `IndexFreshness`).

`Basics` holds what they share.

Code that updates objects is modelled by classes and loops, each method proved against a
function or predicate; the results about many steps are lemmas about those.  Replies of the
model, outcomes of tools, test runs, clocks and the cost of a message are arbitrary inputs.

## Assumptions

- Eval counts satisfy `1 <= runs` and `passes <= runs`; loading a report enforces only the first.
- A tool result names an issued call and a context names no call or a started one.  Without this,
  `LedgerTheorems.FaultsAfterFinish` says exactly which complaints remain.
- One writer at a time per run and per session; caller-supplied event and preview fields do not
  override the correlation fields.
- Hydration filters nothing out of the stretch it loads.
- The results about plain runs of a conversation are for summaries that are not blank and processes
  that forget no message in memory; `ChatWindowRuns.FaithfulRunsFoldOnce`,
  `ChatWindowRuns.RepeatsExactly`, `ChatWindowRuns.BlankSummaryForgets` and the module `StaleDrops`
  say exactly what happens otherwise.
- A tool result lies in the same user-led turn as its call.
- Milestone ids are unique and planned paths come out of path cleaning unchanged.
- The context ceiling stays the same over a run of calls.

## Where the code and what is said of it differ

- The comments beside the exact test give p~0.19 for 4/7 against 7/7.  The one-tailed value the
  code computes is 35/364, about half of that; it is still not significant
  (`FisherTest.FourOfSevenToSevenOfSeven`).
- At a threshold of zero or below, a run compared with itself improves
  (`EvalVerdict.NoEvidenceAtZeroThreshold`); at a positive one a verdict always has evidence.
- The refusal to compare runs of different sample counts looks at the sets of counts only, so it
  guarantees equal counts case by case exactly for a run that used a single count
  (`EvalVerdict.ComparableAgreesExactly`).
- The highest number on disk is taken over the JSONL streams and not over the context files, so a
  process that dies between a context and its event can make later ones repeat its number.
  `ContextCrashes.ContextCrashRepeatsExactly` has the exact condition for both log levels and any
  later calls, further contexts, ends and reopenings included; `ContextCrashes.ContextCrashCounts`
  puts it in numbers of records, for later calls that neither start nor end a run and announce
  contexts only in writers that keep them.
- A process that dies inside `finish` after the manifest and before the summary leaves a run that no
  later `finish` repairs, unless an earlier ending left a summary
  (`FinishCrashes.FinishCrashRepairedExactly`, for a death after any write of `finish`).
- Command ids are counted from kept outputs and can repeat after a reopen
  (`LedgerTheorems.CommandIdsAfterReopen`, with the exact condition).
- Dropping the loop's own corrections clamps the summary boundary instead of shifting it, and
  leaves the saved watermark behind by everything dropped before it (`ChatWindow.DroppingShiftsTheBoundary`,
  `StaleDrops.FoldLags`).  The next process folds a record again exactly when it still has it, with
  at least as many messages before it as that watermark counts; it steps over messages never folded
  exactly when it drops more before the end of the fold than the process that folded and has one
  behind it (`StaleDrops.ForgettingAgain`).
- What `/clear` hides stays hidden from the next process on (`ChatWindowRuns.ClearedStaysHidden`).  A
  process that goes on after it without being replaced still has the old messages and summary in
  hand, and with its next fold the saved summary tells of them again (`ChatWindowRuns.ClearedInHand`).
- Two drivers build prompts.  One (`shamsu/agents/simple_chat.py:4633-4635`) shows the summary by the
  rule that also looks at what hydration skipped; the other (`shamsu/agents/chat_loop.py:874`) only
  when this prompt evicted something, and so loses an unread past that the summary speaks of.
  Neither leaves nothing out in every case: `ChatWindowRuns.PromptRepresentsTranscript` says exactly
  when each does.  The first also gives up on an empty digest, so that what was just evicted is in
  neither tail nor summary (`ChatWindowRuns.EmptyDigestLeavesGap`, with the exact condition).
- Path cleaning is not settled after one pass (`MilestoneGenerator.CleanedOnce`, with the exact
  condition).
- At the deadline the bundles of the milestone under way that were written are not reported
  (`MilestoneGenerator.Generator.GenerateMilestoneFiles`); with distinct planned paths the report is
  complete exactly when there were none (`MilestoneGenerator.DeadlineReportExactly`), and
  `MilestoneGenerator.DeadlineHidesThree` is an input that hides three files.
- The scanner for raw newlines knows no comments, no escapes in triple-quoted literals, and takes a
  backslash before a two-character line break to escape the first character only, so it can rewrite
  Python that was fine (`PythonReader.ApostropheInComment`, `PythonReader.EscapedQuoteInBlock`,
  `PythonReader.ContinuedLine`; the last cannot come about in a build, as the caller splits the text
  into lines and joins them with line feeds first, `shamsu/agents/freeform_generator.py:3767-3783`).
  It agrees with a reader that knows these exactly when the text has no such trap
  (`PythonReader.InStepExactly`).  A trap can be harmless (`PythonReader.QuotedWordInComment`):
  `PythonReader.FineChangedExactly` says which fine texts are rewritten.

## Model

| member | source | states |
|---|---|---|
| `Binomial.Absorb` | evals/diff.py:218-227 | binomial coefficients: the exchange of factors between neighbouring entries, at every integer position, that all the counting below rests on |
| `Binomial.FactorialForm` | evals/diff.py:218-227 | the recurrence used for `comb` is the factorial formula |
| `FisherTest.TailStep` | evals/diff.py:222-227 | counting pairs of outcomes: how the tail changes when one more pass is dealt out |
| `FisherTest.Vandermonde` | evals/diff.py:218-227 | the weights of all tables with given margins add up to the denominator |
| `FisherTest.TailBounded` | evals/diff.py:228 | the summed tail never exceeds the denominator, so the clip at one never clips |
| `FisherTest.CertainExactly` | evals/diff.py:216-217 | in each shortcut case the general sum is one as well |
| `FisherTest.FisherExactGreater` | evals/diff.py:206-228 | the loop with its shortcuts and its clip computes the tail probability, no special cases |
| `FisherTest.MoreFeaturePasses` | evals/diff.py:206-228 | one more feature pass never raises p |
| `FisherTest.FewerBaselinePasses` | evals/diff.py:206-228 | one fewer baseline pass never raises p |
| `FisherTest.MoreExtreme` | evals/diff.py:206-228 | any more extreme table at the same numbers of runs keeps significance |
| `FisherTest.Complement` | evals/diff.py:206-228 | the tails of a test and its role-swapped form add up to the denominator plus the observed table's weight |
| `FisherTest.BothDirectionsExceedOne` | evals/diff.py:206-252 | the two p-values add up to more than one |
| `FisherTest.NotBothDirections` | evals/diff.py:231-252 | both directions of one movement are never significant together |
| `FisherTest.SignificanceInIntegers` | evals/diff.py:203-228 | the 5% level in whole numbers |
| `FisherTest.FourOfSevenToSevenOfSeven` | evals/diff.py:231-239 | the documented example: its tail is 35 of 364 and it is not significant |
| `Names.Sort` | evals/diff.py:258 | the listing is in strict order and holds exactly the names of either run |
| `Names.SortedUnique` | evals/diff.py:258 | there is one such listing |
| `Names.LessExactly` | evals/diff.py:258 | the order is decided at the first character where two names differ, or by where one ends |
| `EvalDiff.Significant` | evals/diff.py:231-252 | a rise is significant exactly if, in whole numbers, at most one in twenty ways of dealing out the passes gives the later run as many; a fall exactly if the rise it reverses is |
| `EvalDiff.SignificantExactly` | evals/diff.py:231-252 | that whole-number inequality for both directions of a movement |
| `EvalDiff.FateExactly` | evals/diff.py:255-286 | what becomes of a shared case, in passes and runs alone: unmoved if the cross products agree; withheld exactly if one side wavered and that inequality fails; otherwise counted in its direction |
| `EvalDiff.DocumentedFates` | evals/diff.py:231-286 | the documented pair: 4/7 to 7/7 is withheld; 1/20 to 20/20 is counted, as is 1/n to n/n from eleven on |
| `EvalDiff.Classify` | evals/diff.py:255-286 | the appending loop yields the five lists of the classification in name order |
| `EvalDiff.NamedExactly` | evals/diff.py:255-286 | a name is in the group of its own fate and in no other |
| `EvalVerdict.ExactlyOneGroup` | evals/diff.py:255-286 | every case of either run is in exactly one of added, removed, unchanged, regressed, recovered and unreliable; nothing else is listed |
| `EvalVerdict.ListsInNameOrder` | evals/diff.py:255-286 | each of the five lists is in name order and names no case twice |
| `EvalVerdict.MovementExactly` | evals/diff.py:255-286 | the two rates a movement reports are passes over runs of its case in the two reports |
| `EvalVerdict.Total` | evals/diff.py:304-305 | the sum over a set of cases does not depend on the order it is walked in |
| `EvalVerdict.ReliableDelta` | evals/diff.py:289-306 | zero without a shared case that may be used; otherwise, times their number, the difference of the rate sums |
| `EvalVerdict.Conservation` | evals/diff.py:255-306 | times the number of shared cases not withheld the delta is the sum of the countable movements: nothing flaky, added or removed leaks in and no movement is lost; which cases those are, and zero if there are none |
| `EvalVerdict.OneCaseDelta` | evals/diff.py:289-306 | over a single case the delta is that case's movement |
| `EvalVerdict.VerdictHasEvidence` | evals/diff.py:289-317 | at a positive threshold an improvement has a recovered case and a regression a regressed one |
| `EvalVerdict.NoEvidenceAtZeroThreshold` | evals/diff.py:309-317 | at any other threshold every run improves on itself, with no recovered case |
| `EvalVerdict.HardRegressionsExactly` | evals/diff.py:145-153 | the hard regressions are exactly the cases that always passed and now never do; none is withheld as flaky |
| `EvalVerdict.BrokenCaseForcesRegression` | evals/diff.py:309-317 | one such case forces a regression, whatever delta and threshold |
| `EvalVerdict.SwapMirrors` | evals/diff.py:255-286 | swapping the runs swaps regressed with recovered and added with removed, and keeps the withheld names |
| `EvalVerdict.SwapNegatesDelta` | evals/diff.py:289-306 | swapping the runs negates the delta |
| `EvalVerdict.SwapReversesVerdict` | evals/diff.py:289-317 | an improvement is a regression the other way round, and exactly when each verdict comes back |
| `EvalVerdict.RecoveredUpwardClosed` | evals/diff.py:255-286 | if a rise is counted so is every more extreme one at the same numbers of runs |
| `EvalVerdict.RegressedDownwardClosed` | evals/diff.py:255-286 | the same for falls |
| `EvalVerdict.ComparableAgreesExactly` | evals/diff.py:328-341 | every run not refused has equal counts case by case exactly for a baseline that used at most one count |
| `RunRecords.PaddedValue` | shamsu/action_ledger/ledger.py:1463-1466 | a zero-padded number reads back as itself |
| `RunRecords.PaddedExactly` | shamsu/action_ledger/ledger.py:1463-1466 | digits only, at least the width, and no idle zero in front of a longer number |
| `RunRecords.IdsDistinct` | shamsu/action_ledger/ledger.py:1463-1466 | two numbers never share an id, past the padding width too |
| `RunRecords.IdsSpelledOut` | shamsu/action_ledger/ledger.py:1463-1466 | ids of each kind written out: prefix, width, counting from zero |
| `LedgerInvariant.ReopenSequenced` | shamsu/action_ledger/ledger.py:134 | the highest number in the JSONL streams is a sound place to continue from |
| `LedgerInvariant.ReopenKeeps` | shamsu/action_ledger/ledger.py:127-134 | counters rebuilt from the files keep the whole invariant |
| `LedgerInvariant.ApplyKeeps` | shamsu/action_ledger/ledger.py:655-1062 | every logging call keeps the invariant |
| `LedgerInvariant.FinishKeeps` | shamsu/action_ledger/ledger.py:293-420 | ending a run keeps it |
| `LedgerInvariant.RunWellFormed` | shamsu/action_ledger/ledger.py:98-1479 | it holds after every run, over any number of writers |
| `LedgerTheorems.SequencesUnique` | shamsu/action_ledger/ledger.py:1468-1479 | after any run sequence numbers are positive, strictly rising in each stream and never shared by two records anywhere |
| `LedgerTheorems.IdsNeverRepeat` | shamsu/action_ledger/ledger.py:127-134 | the k-th event line carries event id k; tool ids and model ids never repeat, across reopens |
| `ContextCrashes.ContextCrashRepeatsExactly` | shamsu/action_ledger/ledger.py:1393-1430 | a process dies between a context and its event: whatever is logged later, by however many processes, the checker finds a repeated number exactly when the context is still read (its writer kept context files, or there are none and no preview has replaced it) and a line or a later context file has its number |
| `ContextCrashes.ContextCrashCounts` | shamsu/action_ledger/ledger.py:1838-1851 | in numbers, where later calls start and end no run and announce contexts only in writers that keep them: exactly when it is still read and more records are written later than the dying writer had run ahead of the lines on disk |
| `FinishCrashes.FinishCrashRepairedExactly` | shamsu/action_ledger/ledger.py:293-420 | a process dies after any write inside finish, between a record and its event too: a later finish makes the run acceptable exactly if the manifest had not been written, or the summary had, or an earlier ending left one; otherwise it changes nothing, ever |
| `LedgerTheorems.CommandIdsAfterReopen` | shamsu/action_ledger/ledger.py:132 | after a reopen the next command id is new exactly when every issued command had its output kept |
| `LedgerTheorems.CloseToolsEffect` | shamsu/action_ledger/ledger.py:1501-1518 | closing appends to the tool stream only failed results, each with the id and tool of a call that had none, until every call has one |
| `LedgerTheorems.CloseModelsEffect` | shamsu/action_ledger/ledger.py:1519-1532 | and to the model stream only failed ends, each with the id, role and model of a start that had none, until every start has one |
| `LedgerTheorems.ClosingEffect` | shamsu/action_ledger/ledger.py:1501-1532 | in a well-formed run every open call gets exactly one failed end, and nothing but these and their events is written |
| `LedgerTheorems.FinishEffect` | shamsu/action_ledger/ledger.py:293-420 | what ending a run does to the files: one failed end for each open call, output and status written, the last event says how it ended, and the summary counts the events, decisions and distinct calls; the rest stays |
| `LedgerTheorems.FinishOnce` | shamsu/action_ledger/ledger.py:298-300 | a second end, by this process or a later one, changes nothing |
| `LedgerTheorems.EndedAccepted` | shamsu/action_ledger/store.py:186-291 | ending a run that is still going, its results and contexts naming issued calls, leaves nothing to complain of |
| `LedgerTheorems.FaultsAfterFinish` | shamsu/action_ledger/store.py:186-291 | the checker's complaints about an ended run are exactly those about results of calls never issued and contexts of calls never started |
| `LedgerTheorems.FinishedRunAccepted` | shamsu/action_ledger/store.py:186-291 | every legal run of the writer, ended, is accepted; one ended earlier is accepted exactly if nothing was left open since |
| `Acceptance.AcceptedExactly` | shamsu/action_ledger/store.py:186-291 | the checker accepts exactly files with a manifest, with summary and output unless still running, with every number positive and used once over all streams, every call ended, every result of a call and every context of a started call |
| `RunValidator.ValidateRun` | shamsu/action_ledger/store.py:186-291 | the checker reports exactly the faults of the files |
| `RunValidator.AnyRepeat` | shamsu/action_ledger/store.py:249-250 | a list is longer than its set exactly when something repeats |
| `ModelCalls.StartPushes` | shamsu/action_ledger/ledger.py:813-865 | a start pushes the new call on the stack of open calls of its role and model and touches no other |
| `ModelCalls.FinishPops` | shamsu/action_ledger/ledger.py:867-900 | a finish without an id closes exactly the most recent open call of that role and model, or nothing |
| `ModelCalls.FinishRemoves` | shamsu/action_ledger/ledger.py:867-900 | a finish with the id of a started call closes that call, whatever role and model it names |
| `ModelCalls.OpenCallsAreTheStack` | shamsu/action_ledger/ledger.py:1487-1499 | over any run, reopens included, the calls the files show as open are those of a stack machine that only looks at the calls made |
| `ModelCalls.BalancedCallsAllClosed` | shamsu/action_ledger/ledger.py:1487-1499 | with no finish before its start, nothing is left open exactly when there are as many finishes as starts, by id or without |
| `ActionLedgerWriter.ActionLedger.constructor` | shamsu/action_ledger/ledger.py:99-138 | a writer opened on any files a sound writer left is sound: the counters are rebuilt as they stood |
| `ActionLedgerWriter.ActionLedger.LogEvent` | shamsu/action_ledger/ledger.py:655-675 | one event under the next id and number, nothing else; from any sound state the whole invariant holds again |
| `ActionLedgerWriter.ActionLedger.LogDecision` | shamsu/action_ledger/ledger.py:677-716 | keeps the invariant; a decision and its event |
| `ActionLedgerWriter.ActionLedger.LogToolCall` | shamsu/action_ledger/ledger.py:718-737 | keeps the invariant; the id returned was never issued before and is now |
| `ActionLedgerWriter.ActionLedger.LogToolResult` | shamsu/action_ledger/ledger.py:739-811 | keeps the invariant; a result and its event, under any id |
| `ActionLedgerWriter.ActionLedger.LogModelCallStarted` | shamsu/action_ledger/ledger.py:813-865 | keeps the invariant; the id returned was never issued before and is now |
| `ActionLedgerWriter.ActionLedger.LatestOpenModelCall` | shamsu/action_ledger/ledger.py:1487-1499 | the backwards walk finds the most recent open call |
| `ActionLedgerWriter.ActionLedger.LogModelCallFinished` | shamsu/action_ledger/ledger.py:867-976 | keeps the invariant; without an id it pops the open calls of that role and model |
| `ActionLedgerWriter.ActionLedger.LogModelThinking` | shamsu/action_ledger/ledger.py:978-1044 | keeps the invariant; a blank trace is not recorded |
| `ActionLedgerWriter.ActionLedger.LogCommandStart` | shamsu/action_ledger/ledger.py:1046-1051 | keeps the invariant and returns the next command id |
| `ActionLedgerWriter.ActionLedger.LogCommandFinish` | shamsu/action_ledger/ledger.py:1053-1098 | keeps the invariant; output kept on request |
| `ActionLedgerWriter.ActionLedger.LogMutationFinished` | shamsu/action_ledger/ledger.py:1213-1262 | keeps the invariant; a mutation and the event its status selects |
| `ActionLedgerWriter.ActionLedger.LogContextPreview` | shamsu/action_ledger/ledger.py:1393-1430 | a context under the next number and id, kept as a file in verbose logging and as the latest preview always, then its event; the invariant holds again once the event is there |
| `ActionLedgerWriter.ActionLedger.Start` | shamsu/action_ledger/ledger.py:261-276 | keeps the invariant across a number that no record carries |
| `ActionLedgerWriter.ActionLedger.RecordFinalResponse` | shamsu/action_ledger/ledger.py:425-438 | keeps the invariant; the output, its event, and the count of a summary already there |
| `ActionLedgerWriter.ActionLedger.CloseOpenRecords` | shamsu/action_ledger/ledger.py:1501-1532 | two passes, each over a snapshot, after which nothing is open: one failed end for each open call and no other new record in the two streams |
| `ActionLedgerWriter.ActionLedger.Finish` | shamsu/action_ledger/ledger.py:293-420 | refuses unknown outcomes, leaves an ended run alone, and otherwise leaves files the checker accepts |
| `ActionLedgerWriter.HighestSequence` | shamsu/action_ledger/ledger.py:1838-1851 | the highest number over the five streams |
| `ActionLedgerWriter.CountOpenings` | shamsu/action_ledger/ledger.py:1835-1836 | the number of records that open a call |
| `EvidenceOutcome.LatestIsLast` | shamsu/action_ledger/ledger.py:582-592 | the dictionary of latest verdicts holds the last observation of each subject and nothing else |
| `EvidenceOutcome.LatestTellsUnrecovered` | shamsu/action_ledger/ledger.py:582-592 | some failure stands exactly when the dictionary holds one |
| `EvidenceOutcome.HasUnrecoveredVerificationFailure` | shamsu/action_ledger/ledger.py:582-592 | some failed check, event by event, was not followed by a pass of the same check |
| `EvidenceOutcome.HasUnrecoveredPatchFailure` | shamsu/action_ledger/ledger.py:637-653 | some failed patch of some file was not followed by a successful patch of that file |
| `EvidenceOutcome.HasUnrecoveredCommandFailure` | shamsu/action_ledger/ledger.py:524-533 | the last command to finish failed |
| `EvidenceOutcome.HasUnrecoveredDenial` | shamsu/action_ledger/ledger.py:594-635 | something was refused and nothing succeeded afterwards |
| `EvidenceOutcome.LatestResults` | shamsu/action_ledger/ledger.py:546-580 | the last result of each tool |
| `EvidenceOutcome.HasUnrecoveredToolFailure` | shamsu/action_ledger/ledger.py:546-580 | some tool's last use failed and, for a file tool, no later write to the same file worked |
| `EvidenceOutcome.Outcome` | shamsu/action_ledger/ledger.py:454-522 | each outcome word is used exactly when the evidence says so |
| `EvidenceOutcome.PassRecovers` | shamsu/action_ledger/ledger.py:582-592 | a pass forgives the failures of its own verifier and of no other |
| `EvidenceOutcome.SameCheckExactly` | shamsu/action_ledger/ledger.py:582-592 | two verdicts concern one check by verifier id if both have one, by command if neither has; different verifiers never forgive each other |
| `EvidenceOutcome.ChecksExactly` | shamsu/action_ledger/ledger.py:582-592 | the dictionary of latest verdicts tells exactly whether some failed check was not made good |
| `EvidenceOutcome.PatchesExactly` | shamsu/action_ledger/ledger.py:637-650 | the same for each file of a patch; a patch that lists no files concerns an unknown one |
| `WriterEvidence.EventRead` | shamsu/action_ledger/ledger.py:464-530 | which kinds of event end a denial, make one, stop a run, count as a change of files, or settle the last command |
| `WriterEvidence.CommandRead` | shamsu/action_ledger/ledger.py:524-534 | what the writer logs for a finished command makes its exit code, and nothing else, the evidence on commands, and zero ends a denial |
| `WriterEvidence.MutationRead` | shamsu/action_ledger/ledger.py:454-522 | a logged change of files is bad evidence unless applied or rolled back, and only then ends a denial |
| `WriterEvidence.ToolResultRead` | shamsu/action_ledger/ledger.py:547-580 | a failed result is always standing evidence; a good one puts right its own tool's last use and, if it wrote a file, the file tools that failed on it |
| `WriterEvidence.OpenCallEndsAsFailure` | shamsu/action_ledger/ledger.py:1501-1518 | a run ended with a tool call open has a standing tool failure |
| `ChatWindow.Session.ClearContext` | shamsu/session/manager.py:568-591 | floor and watermark are at the end of the transcript together, the summary is gone, and no later process goes back behind what was folded |
| `ChatWindow.ChatState.constructor` | shamsu/agents/chat_state.py:115-158 | a new process shows the transcript above the floor, or the newest part of it if that is longer than the horizon, of exactly the horizon; and the saved watermark is translated into its window |
| `ChatWindow.ChatState.Append` | shamsu/agents/chat_state.py:485-518 | window and transcript grow by the same message |
| `ChatWindow.ChatState.SelectForBudget` | shamsu/agents/chat_state.py:229-283 | the longest tail from a user message on that fits what the system prompt leaves, or the last such message's if none does |
| `ChatWindow.ChatState.LastTurnsWithin` | shamsu/agents/chat_state.py:252-283 | the backward walk over turn starts finds that suffix |
| `ChatWindow.UserStartsExactly` | shamsu/agents/chat_state.py:252-262 | the turn starts are exactly the user messages, in order |
| `ChatWindow.ChosenUnique` | shamsu/agents/chat_state.py:229-283 | there is one such suffix |
| `ChatWindow.ResultsKeepTheirCalls` | shamsu/agents/chat_state.py:229-283 | a kept tool result keeps the call it answers |
| `ChatWindow.KeptMirrors` | shamsu/agents/chat_state.py:344-389 | forgetting messages and leaving out the records they show is the same thing |
| `ChatWindow.KeptExactly` | shamsu/agents/chat_state.py:344-389 | only the loop's corrections and empty answers without calls go; every other message stays as often as it was there |
| `ChatWindow.ChatState.NewlyEvicted` | shamsu/agents/chat_state.py:338-342 | the messages between the boundary and the kept tail |
| `ChatWindow.ChatState.UpdateRollingSummary` | shamsu/agents/chat_state.py:391-403 | boundary and summary move, and the watermark is saved in transcript terms |
| `ChatWindow.ChatState.MessagesWithinBudget` | shamsu/agents/chat_loop.py:826-874 | one prompt: what is kept, that the pending messages show exactly the records now folded, what is saved, and when the summary is shown |
| `ChatWindow.ChatState.MessagesRebudgeted` | shamsu/agents/simple_chat.py:4610-4636 | the other driver: folding and selecting again until nothing more is evicted folds everything up to the kept tail, once and in order, and saves how far it got, unless some digest was empty; the tail is the selection under the last budget; when the summary is shown |
| `ChatWindow.ChatState.ShouldIncludeSummary` | shamsu/agents/chat_state.py:444-463 | a summary there is, and something evicted now or never loaded |
| `ChatWindow.ChatState.DropStaleLoopMessages` | shamsu/agents/chat_state.py:344-389 | exactly the loop's corrections and empty answers go, with the records they show; the boundary is clamped |
| `ChatWindow.DroppingShiftsTheBoundary` | shamsu/agents/chat_state.py:385-388 | how many unsummarised survivors the clamped boundary steps over, and when exactly none |
| `ChatWindow.ChatState.ElideOldPayloads` | shamsu/agents/chat_state.py:285-336 | a prefix of the older messages is shrunk, no further than needed; every message still shows its record; the count is returned |
| `ChatWindow.ElisionIdempotent` | shamsu/agents/chat_state.py:285-336 | eliding again changes nothing |
| `ChatWindow.ElidedExactly` | shamsu/agents/chat_state.py:285-336 | message by message, the rule's content and calls are both taken over, once, and only within the range |
| `ChatWindow.ElisionKeepsTurns` | shamsu/agents/chat_state.py:299-306 | roles and call ids survive, so results keep their calls |
| `ChatWindowRuns.RunSound` | shamsu/agents/chat_state.py:344-439 | after any run the window shows loaded records in order and every boundary lies inside it |
| `ChatWindowRuns.StepCoherent` | shamsu/agents/chat_state.py:391-439 | every step that drops nothing keeps window index and transcript watermark in agreement |
| `ChatWindowRuns.PlainRunCoherent` | shamsu/agents/chat_state.py:391-439 | so does every run of messages, prompts, resumptions and clears |
| `ChatWindowRuns.FoldedAtMostOnce` | shamsu/agents/chat_loop.py:844-873 | over any plain run each record is folded at most once; before the end of folding it was folded or passed over, one or the other; below the watermark it is one of these or lies before the window unread; above it was never folded and is in the window |
| `ChatWindowRuns.NoGapAfterPrompt` | shamsu/agents/chat_loop.py:844-874 | after a prompt each record is in the kept tail, or folded, passed over or unread; from the watermark on it is in the tail alone; in both tail and summary are exactly those folded earlier whose turns still fit |
| `ChatWindowRuns.PromptFoldsTheDifference` | shamsu/agents/chat_state.py:391-414 | a prompt folds exactly the records between the old and the new watermark and passes over exactly those never loaded before them |
| `ChatWindowRuns.ResumeBoundary` | shamsu/agents/chat_state.py:416-439 | a later process starts at the larger of saved watermark and first loaded record, clamped to the transcript |
| `ChatWindowRuns.ResumeIsFaithful` | shamsu/agents/chat_state.py:416-439 | nothing folded is folded again and nothing still in the window is skipped |
| `ChatWindowRuns.LoadsExactly` | shamsu/agents/chat_state.py:530-544 | what a later process loads: everything since the last clear, or exactly its horizon of newest records if that is more |
| `ChatWindowRuns.ClearedStaysHidden` | shamsu/session/manager.py:568-591 | from the next process after a clear on, whatever any of them do, no window shows and no summary is made from an earlier record |
| `ChatWindowRuns.ClearedInHand` | shamsu/session/manager.py:568-591 | a process that goes on after the clear and folds anything makes the saved summary tell of earlier records again |
| `ChatWindowRuns.PromptRepresentsTranscript` | shamsu/agents/chat_state.py:444-463 | a prompt leaves nothing out exactly if it starts at record 0, or shows a summary made from every record before the tail; for the rule that shows it on eviction only, and for the one that also looks at what was not loaded |
| `ChatWindowRuns.SummaryNeededExactly` | shamsu/agents/chat_state.py:444-463 | the summary is shown exactly if there is one and some record of the transcript is not in the tail; the other driver asks that of the loaded records only |
| `ChatWindowRuns.EmptyDigestLeavesGap` | shamsu/agents/simple_chat.py:4613-4636 | in the driver that gives up on an empty digest, a prompt leaves something not folded before out of both tail and summary exactly when messages were newly evicted and the digest was empty or blank |
| `ChatWindowRuns.BlankSummaryForgets` | shamsu/agents/chat_state.py:416-439 | after a blank summary, when exactly the next process folds again what was folded |
| `ChatWindowRuns.FaithfulRunsFoldOnce` | shamsu/agents/chat_state.py:344-439 | any run, dropping and blank summaries included, folds each record at most once if every process starts where folding stands or later |
| `ChatWindowRuns.RepeatsExactly` | shamsu/agents/chat_state.py:416-439 | some prompt of the next process folds a record again exactly when its restored watermark lies before the end of folding |
| `StaleDrops.FoldLags` | shamsu/agents/chat_state.py:385-414 | a fold after dropping saves a watermark too low by exactly what was dropped before its end |
| `StaleDrops.NextFolds` | shamsu/agents/chat_state.py:344-439 | record by record, what a process that has forgotten messages may still fold, whatever watermark it was left |
| `StaleDrops.TurnForgets` | shamsu/agents/chat_state.py:344-389 | a process that resumed and forgot shows all other records it loaded or was told since, however it goes on talking and prompting |
| `StaleDrops.NextProcess` | shamsu/agents/chat_state.py:344-439 | from one fold to the next process: when exactly a folded record is folded again, when the end of the fold is reached at all, and when a message never folded is stepped over |
| `StaleDrops.ForgettingAgain` | shamsu/agents/chat_state.py:344-439 | two processes of a run each forget messages of their own: the later folds again exactly what was folded, is still loaded and not forgotten, and has at least as many messages left before it as the saved watermark counts; it steps over a message never folded exactly if it forgets more before the end of the fold and has one left behind it |
| `StaleDrops.ForgettingTheSame` | shamsu/agents/chat_state.py:344-439 | if every process drops the same messages, a record is folded twice exactly when the next one leaves a dropped message unloaded and still loads something folded |
| `LiteralScanner.EscapePythonLiteralNewlines` | shamsu/agents/freeform_generator.py:3790-3852 | the scanner's output is clean, and equals its input exactly when that was clean |
| `LiteralScanner.EscapeCleans` | shamsu/agents/freeform_generator.py:3790-3852 | no single-line literal of the output holds an unescaped newline, and output and input end in the same quote, triple and escape state |
| `LiteralScanner.EscapeKeepsMeaning` | shamsu/agents/freeform_generator.py:3790-3852 | a reader who takes a raw line break in a single-line literal for a written one gets the same from output and input |
| `LiteralScanner.ChangedExactlyWhenBroken` | shamsu/agents/freeform_generator.py:3790-3798 | from any state, text changes exactly when a single-line literal holds an unescaped newline |
| `LiteralScanner.EscapeIdempotent` | shamsu/agents/freeform_generator.py:3790-3852 | a second pass does nothing |
| `LiteralGrammar.CodeCopied` | shamsu/agents/freeform_generator.py:3839-3851 | code without quotes is copied |
| `LiteralGrammar.LineRepaired` | shamsu/agents/freeform_generator.py:3823-3841 | in a single-line literal each raw line break, of one character or two, becomes a backslash and an n; escaped characters and the rest are copied, and the text after it is read afresh |
| `LiteralGrammar.BlockCopied` | shamsu/agents/freeform_generator.py:3812-3822 | a triple-quoted literal is copied, line breaks and all |
| `PythonReader.InStepExactly` | shamsu/agents/freeform_generator.py:3790-3852 | the scanner stays in step with a reader that knows comments, escapes in triple-quoted literals and continued lines exactly when the text has no quote in a comment, no three quotes behind a backslash in such a literal, and no two-character line break behind one in another |
| `PythonReader.UntrappedIsRepaired` | shamsu/agents/freeform_generator.py:3790-3798 | such a text is changed exactly when it was broken, and is fine and in step afterwards |
| `PythonReader.FineChangedExactly` | shamsu/agents/freeform_generator.py:3790-3852 | a fine text is rewritten exactly if it has a trap and the misled scanner comes upon a line break it takes to be in a single-line literal |
| `PythonReader.QuotedWordInComment` | shamsu/agents/freeform_generator.py:3839-3851 | a trap that does no harm: a quoted word in a comment |
| `PythonReader.ApostropheInComment` | shamsu/agents/freeform_generator.py:3839-3851 | a fine text that is rewritten: an apostrophe in a comment |
| `PythonReader.EscapedQuoteInBlock` | shamsu/agents/freeform_generator.py:3812-3822 | another: an escaped quote before two more in a triple-quoted literal |
| `PythonReader.ContinuedLine` | shamsu/agents/freeform_generator.py:3823-3841 | a third: a line continued inside a literal, with a two-character line break |
| `MilestoneGenerator.AssignFiles` | shamsu/agents/freeform_generator.py:1382-1400 | round robin within a stage: each file is with a milestone of its own stage, or the first if there is none; a stage's files are spread evenly, the earlier milestones having at most one more; plan order is kept and every file goes to exactly one |
| `MilestoneGenerator.DealtRoundRobin` | shamsu/agents/freeform_generator.py:1382-1400 | dealing in turn gives these: stages kept, evenly, in plan order |
| `MilestoneGenerator.ChunksPartition` | shamsu/agents/freeform_generator.py:661-664 | bundles of three files, the last of one to three, that together are the files, in order |
| `MilestoneGenerator.ValidatedBundle` | shamsu/agents/freeform_generator.py:1304-1331 | a reply is taken exactly when it holds every requested file once, with content, and nothing else; one item for each file then, none of them only white space; and what is taken from it |
| `MilestoneGenerator.CleanedStaysInside` | shamsu/agents/freeform_generator.py:1287-1291 | a cleaned path has no part that steps up, no backslash and no space at its end |
| `MilestoneGenerator.CleanExactly` | shamsu/agents/freeform_generator.py:1287-1291 | which paths cleaning leaves as they are |
| `MilestoneGenerator.CleanedOnce` | shamsu/agents/freeform_generator.py:1287-1291 | a cleaned path is unchanged by cleaning again exactly when it does not begin with a space or a slash |
| `MilestoneGenerator.Generator.GenerateFileBundle` | shamsu/agents/freeform_generator.py:844-880 | one model call, taken exactly when acceptable |
| `MilestoneGenerator.Generator.SplitBundle` | shamsu/agents/freeform_generator.py:698-723 | one call for each file; all files or none |
| `MilestoneGenerator.Generator.GenerateChunk` | shamsu/agents/freeform_generator.py:673-812 | exactly when a bundle gets written, what it costs in calls and applications, at most one call more than its files (two for one file), and what stays on disk; the last application went through and was sound exactly if it was written, none follows a denial, and each file was answered by one of the calls |
| `MilestoneGenerator.Generator.GenerateMilestone` | shamsu/agents/freeform_generator.py:661-828 | the bundles before the first late or refused one are written, each at the counts the ones before it left; at most four calls each |
| `MilestoneGenerator.Generator.BuildMilestone` | shamsu/agents/freeform_generator.py:644-828 | a milestone finished earlier with all files on disk is taken over without a call; any other gets as far as its replies, applications and the clock let it |
| `MilestoneGenerator.Generator.GenerateMilestoneFiles` | shamsu/agents/freeform_generator.py:624-842 | milestones are taken over or built in turn; without an error the written set is exactly the first planned files up to the limit; at a refused bundle the report is what was written before it; at the deadline it lacks exactly the bundles of the milestone under way; nothing is reported that is not on disk; at most two calls a file |
| `MilestoneGenerator.MilestonesApart` | shamsu/agents/freeform_generator.py:1382-1400 | with distinct planned paths no milestone shares a path with the ones before it |
| `MilestoneGenerator.DeadlineReportExactly` | shamsu/agents/freeform_generator.py:672-673 | the report at the deadline is complete exactly when no bundle of the milestone under way had been written |
| `MilestoneGenerator.DeadlineHidesThree` | shamsu/agents/freeform_generator.py:672-673 | an input on which three files are written and none is reported |
| `FeedbackLoop.Run` | shamsu/agents/error_feedback_loop.py:87-171 | success exactly when the final run has no failures; why it ended; in normal mode no more attempts than initial failures; no signature beyond its limit |
| `FeedbackLoop.RunDetermined` | shamsu/agents/error_feedback_loop.py:87-171 | that description settles the attempts and the ending |
| `FeedbackLoop.RunMeans` | shamsu/agents/error_feedback_loop.py:87-171 | in test runs and fixes alone: what was attempted, that only the last fix may have failed, the bounds per signature and in all, falling failures in normal mode, and the reason for giving up |
| `FeedbackLoop.AttemptsBounded` | shamsu/agents/error_feedback_loop.py:98-113 | attempts are at most the retry limit times the number of distinct signatures |
| `TaskScheduler.FirstReady` | shamsu/types.py:103-111 | the first pending step all of whose listed dependencies are done, if there is one |
| `TaskScheduler.DependenciesFirst` | shamsu/types.py:103-111 | draining a plan runs every step at most once and after the steps it names |
| `TaskScheduler.DrainStops` | shamsu/types.py:103-111 | it ends with nothing ready, and changes nothing but what ran |
| `TaskScheduler.CompletesExactlyWhenAcyclic` | shamsu/types.py:103-111 | a plan of pending and done steps is finished exactly when its pending steps do not depend on each other in a circle |
| `ContextAllocator.Allocator.AllocatedNumCtx` | shamsu/agents/chat_loop.py:894-915 | the loop over buckets and the floor compute the requested size |
| `ContextAllocator.SizesSound` | shamsu/agents/chat_loop.py:894-915 | sizes never shrink, never exceed the ceiling and cover the need unless they are the ceiling |
| `ContextAllocator.SizesLeast` | shamsu/agents/chat_loop.py:907-915 | no size is larger than a bucket that would have held every need so far |
| `ContextAllocator.BucketsRound` | shamsu/agents/chat_loop.py:907-915 | the sizes in numbers: 8192, or the next multiple of 16384 up to four of them, or the ceiling |
| `ContextAllocator.ChangesBounded` | shamsu/agents/chat_loop.py:897-904 | after the first call the size changes at most as often as there are buckets below the ceiling |
| `ContextAllocator.WithinCeilingExactly` | shamsu/agents/chat_loop.py:913-915 | if the ceiling may drop, the size respects it exactly when the floor already did |
| `IndexFreshness.AbstractService.MarkStale` | shamsu/abstract/service.py:127-150 | one more mark in the history; the generation is the number of bursts of marks |
| `IndexFreshness.AbstractService.MarkIndexed` | shamsu/abstract/service.py:114-125 | one more successful run in the history, after which the index is up to date |
| `IndexFreshness.AbstractService.Index` | shamsu/abstract/service.py:195-209 | after a build or refresh the index is up to date exactly if it succeeded or the index was before |
| `IndexFreshness.AbstractService.ReadStatus` | shamsu/abstract/service.py:74-112 | built exactly if some index run succeeded, and stale unless the last one that did saw this workspace and nothing was marked since |
| `IndexFreshness.AbstractService.EnsureReady` | shamsu/abstract/service.py:213-240 | the indexer is called exactly when that is allowed and the index is not up to date, and afterwards it is exactly if it was or the call succeeded |
| `IndexFreshness.RecordTellsHistory` | shamsu/abstract/service.py:74-153 | after any history the record holds the number of bursts of marks, the last successful run and whether anything was marked since |
| `IndexFreshness.FreshExactly` | shamsu/abstract/service.py:74-112 | fresh exactly when nothing was marked since the last successful run and the workspace is as it was then |
| `IndexFreshness.FreshInEvents` | shamsu/abstract/service.py:74-153 | event by event: some successful run saw this workspace and only failed runs came after it |
| `IndexFreshness.BurstRaisesOnce` | shamsu/abstract/service.py:127-150 | a burst of marks raises the generation by exactly one |

## Left out

- RunValidator.ValidateRun: the order and wording of complaints, malformed JSON lines, missing fields and the diagnostics artifacts, because no run of the modelled writer differs in them.
- EvidenceOutcome.Outcome: that closing a run from its evidence calls the writer's `finish` with this outcome.
- MilestoneGenerator.CleanedOnce: white space is blank, tab, line feed and carriage return, not every Unicode space.
- ChatWindow.ChatState.MessagesWithinBudget: the split of the context into reserve, summary and history budget, the re-read of changed files and the hard trim that follows.
- ChatWindow.ChatState.ElideOldPayloads: which payloads may be shrunk and to what; the rule and the target are inputs.
- LedgerTheorems.FinishedRunAccepted: acceptance is by the modelled faults; the fields every record must have and the diagnostics files are not among them.
- LedgerTheorems.EndedAccepted: the same faults.
- LedgerTheorems.FaultsAfterFinish: the same faults.
- ContextCrashes.ContextCrashCounts: later calls that start or end a run, or replace a preview no file keeps, take numbers without leaving a record each; for those only the condition without a count is stated.
- FinishCrashes.FinishCrashRepairedExactly: a file half written when the process dies.
- StaleDrops.ForgettingAgain: a process forgets once, before it goes on talking and prompting, and nothing was folded twice up to then; a message counts as dropped by its record, not by what its content may have become.
- PythonReader.InStepExactly: string prefixes, nested quotes of formatted strings and line continuations outside literals.
- The second driver's check of the assembled prompt against the context, and its grounding message.
- MilestoneGenerator.Generator.GenerateChunk: the contents of a transaction; one that failed or was rolled back is taken to leave nothing on disk.
- Float rounding of rates and p-values, and of the delta against the threshold.
- Redaction, truncation, inline limits and the friendly, narrative, CSV and session mirrors of the ledger; the summary's derived lists.
- Configurations that switch single record kinds of the ledger off; the whole-ledger switch is modelled.
- Diagnostics, exceptions and unparsed responses as artifacts of their own; the events they log are ordinary events.
- Hydration's filters for foreign tools, repeated answers and noise, and hydration from the event log of sessions without a transcript.
- How a summary is made: model call, structured digest or fallback; any text may come out.
- The phrase detectors, prompts, streaming, heartbeats and timeouts of the chat loop, and its main control flow.
- Planning, repair and hardening of generated source, and the templates.
- Parsing test output into failures and the signature of an error; a signature is any string.
- Step statuses other than those the scheduler reads and sets, and cancelling or failing a step.
- How the workspace snapshot of the index is taken, and its event log.
- Rendering of reports, exit codes, loading of eval reports, and the cost columns.
- Several writers at once on one run or one session.
