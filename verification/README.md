# Devinorium: verified models of its core

Devinorium runs coding agents in the background, streams what they say, and keeps threads,
files, bundles, browsers, machines and projects for its users. This project models the parts of it
whose correctness is a matter of logic rather than plumbing, and proves what they promise.

`dafny verify dfyconfig.toml` checks everything.

| files | what they model |
|---|---|
| `RunProtocol.dfy`, `RunOutcome.dfy`, `RunFinality.dfy`, `DroppedCalls.dfy` | background runs: `start`, `stop`, `stop_all`, the provider task, delayed cleanups and aborts, and calls dropped at an await, as one state machine interleaved at every await and atomic access; how a run ends, when it is final, what a dropped `stop` leaves behind |
| `ThreadRunner.dfy`, `RunParts.dfy` | the run record and the registry as objects; the fold of streamed parts |
| `MessageTable.dfy`, `MessagePages.dfy`, `MessageFeed.dfy` | the messages table, reading a thread backwards by turns, following it by sequence number |
| `TurnCursor.dfy`, `Base64.dfy`, `Decimal.dfy` | the opaque page cursor |
| `PlanScan.dfy`, `PlanSpec.dfy`, `PlanParsing.dfy`, `PlanPrinting.dfy`, `PlanChunking.dfy`, `PlanOvertaking.dfy`, `PlanBounds.dfy`, `Utf8.dfy` | the streaming plan parser over UTF-8 bytes (section 4 of RFC 3629) |
| `Placeholders.dfy`, `Bundles.dfy`, `Whitespace.dfy` | `${...}` substitution and what installing a bundle looks up |
| `FileLocks.dfy`, `FileWrites.dfy`, `DetachedWrites.dfy` | the per-path lock table and conditional writes, interleaved at every await; writes that go on after their request was dropped |
| `Browser.dfy` | snapshot refs of the browser tool, over whole runs and relaunches |
| `HostAddress.dfy` | what a machine address is taken for |
| `Escaping.dfy`, `SharePage.dfy`, `SharedText.dfy` | the HTML of a shared conversation |
| `Projects.dfy` | reordering and listing projects |

Code that updates state in place is a class or a method proved against a function on values
(`PlanParsing` against `PlanSpec`, `ThreadRunner` against `RunParts` and `RunProtocol`,
`MessageStore` against `MessageTable.Do`, and so on); what the code promises is then proved about
those functions. The two protocols with real concurrency, runs and file writes, are state machines
with an inductive invariant. SQL queries are expressions over a sequence of rows in id order.

## Findings

- `stop` reads the status before it sets the `cancelled` flag, so a run can complete, tell its
  subscribers so, and then be overwritten with Stopped (`RunProtocol.CompletedCanBeOverwritten`).
  A run that has completed or failed is final exactly when no stop has found it Running and is yet
  to write (`RunFinality.FinishedIsFinalUnlessStopPending`).
- A `stop` that its handler drops after it has written Stopped, while it waits for the timestamp's
  lock, never broadcasts it: subscribers go on believing the run's previous status
  (`DroppedCalls.DroppedStopIsNeverTold`). Whenever a run's status lock is free, they know its whole
  history exactly when no stop of it was dropped there (`RunProtocol.SubscribersKnowTheHistory`).
- A `stop` dropped while it waits for the status it has already cancelled leaves a run that stays
  Running behind its task's end, and `start` refuses the thread (`DroppedCalls.DroppedStopBlocksStart`).
  A Running run is cancelled exactly when a stop of it has yet to write or was dropped there
  (`DroppedCalls.RunningAndCancelled`), and nothing else leaves a run Running when its task has
  ended without a panic (`DroppedCalls.EndedIsFinishedUnlessDropped`).
- A file write runs on the blocking pool and goes on when its request is dropped, but the drop
  releases the path's lock. Such a detached write can land between the compare and the write of the
  next request and be lost (`DetachedWrites.DetachedWriteLosesAnUpdate`). What a writer compared can
  be wrong by the time it writes exactly when a detached write of its path was in flight at the
  compare (`DetachedWrites.ComparedInExecution`), and its re-read can find something else exactly when
  one was in flight at the write (`DetachedWrites.WrittenInExecution`); writes compared in calm are seen, chained and not
  lost (`FileWrites.WriteSeesExpected`, `FileWrites.WritesFormAChain`, `FileWrites.NoLostUpdate`).
- One call of the plan parser reports `<proposed_plan>` blocks before `<update_plan>` blocks, so the
  order of the plans depends on how a stream is cut exactly when an update block precedes a
  proposed block with a different plan (`PlanChunking.ChunkingTheorem`, and the smallest case in
  `PlanOvertaking.CutsCanReorder`).
- `progress_percent` rounds, so 199 of 200 completed steps show 100. With fewer than 200 steps it is
  exact at both ends, at the 0 end with 200 too, and the parser never reports more than 100 (`PlanBounds.ProgressExactBelow200`).
- A manifest that gives no command gets one made from its entry point; a placeholder in the entry
  point's name is then looked up at install time although the warnings never examined it
  (`Bundles.EntryPointUnexamined`). A key that would draw a warning escapes it exactly when the
  entry point is what is run and has such a placeholder of its own that stands nowhere else in the
  manifest (`Bundles.EntryPointDecides`, `Bundles.NoWarningNothingLeftOver`).
- `clean_host` accepts `host:abc`, colon included (`HostAddress.ColonHostAccepted`), because only a
  suffix that starts with a digit is taken for a port. Outside brackets an accepted host keeps a
  colon exactly when the text had several, or one that no digit follows
  (`HostAddress.AcceptedKeepsColon`). It stays idempotent (`HostAddress.Idempotent`).

## Model

| member | source | states |
|---|---|---|
| RunProtocol.StepInv | src/thread_runner.rs:306-387 | every step of every interleaving, dropped calls included, keeps the invariant: locks, history, broadcasts, registry and what each pending call relies on |
| RunProtocol.ExecutionInv | src/thread_runner.rs:509-687 | the invariant holds in every state of every execution from the empty registry |
| RunProtocol.DropInv | src/api/threads/runs.rs:166-180 | a `start`, `stop` or `stop_all` dropped by its handler at any await, holding the map lock, queuing for a status it has already cancelled, or between its write and its broadcast, keeps the invariant |
| RunOutcome.FailedMeansError | src/thread_runner.rs:566-583 | in every execution a run has failed only if its provider returned an error and nothing else; that error is the run's and came with every Failed event of the run |
| RunOutcome.CompletedMeansNoError | src/thread_runner.rs:566-583 | a run has completed only if its provider returned without an error or wrote Completed itself, and it returned no error |
| RunOutcome.EndsAsReturned | src/thread_runner.rs:566-583 | a run nobody cancelled, whose provider has returned and whose task has ended, is Completed without an error or Failed with the one returned |
| RunOutcome.RunCanFail | src/thread_runner.rs:573-583 | an execution whose run fails with the provider's error, and whose subscribers hear it |
| RunProtocol.OneLiveRunPerThread | src/thread_runner.rs:519-526 | at any time a thread has at most one run that is Running and not cancelled, and it is the registry's entry |
| RunProtocol.RegistryStep | src/thread_runner.rs:585-594 | a registry entry goes only by that run's own cleanup, when the run is no longer live, or is displaced by a newer run of the thread once it is not Running |
| RunProtocol.StatusStep | src/thread_runner.rs:306-323 | a status moves forward one history entry at a time, `cancelled` is never reset, Stopped is final, and a completed or failed run changes only by the Stopped write of a stop of that run |
| RunFinality.FinishedIsFinalUnlessStopPending | src/thread_runner.rs:603-620 | a completed or failed run can still become Stopped, by some continuation, exactly when some stop of it has passed its status check and not yet written; otherwise every continuation leaves its status as it is |
| RunFinality.FinalInExecution | src/thread_runner.rs:603-620 | the same in every reachable state |
| RunFinality.StoppedIsReaped | src/thread_runner.rs:622-643 | ever after a `stop` has gone through, the run's task is gone or a reaper waits to abort it |
| RunFinality.StopAllSettlesAll | src/thread_runner.rs:651-687 | when `stop_all` waits for the tasks no run of its snapshot is Running |
| RunFinality.CleanupRemovesItsRun | src/thread_runner.rs:588-594 | a delayed cleanup takes exactly its own run's entry out of the registry |
| RunFinality.DecidedBefore | src/thread_runner.rs:606-618 | a stop comes to be pending on a run only by finding it Running |
| RunProtocol.SubscribersKnowTheHistory | src/thread_runner.rs:306-345 | in every reachable state the history is Running, at most one of Completed and Failed, at most one Stopped; whenever the status lock is free, the lifecycle events of the run are that history in order exactly when no stop of it was dropped between its write and its broadcast, and if one was they lack just the final Stopped; under the lock at most the last change is missing; every Failed event carries an error |
| RunProtocol.MissedExactlyWhenDropped | src/thread_runner.rs:306-323 | a run's broadcast is lost in an execution exactly when some step of it drops a stop of the run that has changed the status and not yet broadcast it |
| DroppedCalls.DroppedStopIsNeverTold | src/thread_runner.rs:306-323 | an execution after which the run is Stopped, nothing is under way, and subscribers have heard Running only |
| DroppedCalls.RunningAndCancelled | src/thread_runner.rs:603-620 | in every reachable state a Running run is cancelled exactly when a stop of it has yet to write or was dropped while it waited for the status |
| DroppedCalls.EndedIsFinishedUnlessDropped | src/thread_runner.rs:569-600 | a run whose task has ended without a panic is Completed, Failed or Stopped, unless such a stop is in flight or was dropped |
| DroppedCalls.DroppedStopBlocksStart | src/thread_runner.rs:519-526 | an execution whose run is Running behind its task's end with no call under way, and a `start` of its thread that is refused |
| RunProtocol.StopWriteInv | src/thread_runner.rs:608-620 | writing Stopped over whatever status the lock finds keeps the invariant |
| RunProtocol.TaskWriteInv | src/thread_runner.rs:569-583 | the finishing task's own status write keeps the invariant against any racing stop, also when the provider future has written Completed itself |
| RunProtocol.TaskCleanInv | src/thread_runner.rs:588-594 | the cleanup after the retention sleep removes at most its own record |
| RunProtocol.TailCleanInv | src/thread_runner.rs:627-643 | the cleanup after a stop removes at most the record it was made for |
| RunProtocol.StartInsertInv | src/thread_runner.rs:528-562 | a new run displaces only one that is not Running, and is known to its subscribers before its task moves |
| RunProtocol.CompletedCanBeOverwritten | src/thread_runner.rs:606-618 | an execution whose run has the history Running, Completed, Stopped |
| ThreadRunner.UninterruptedStatusWrite | src/thread_runner.rs:306-323 | the protocol's steps of one status write, uninterrupted, give the status and the broadcast of `RunState.SetStatus` |
| ThreadRunner.StartByItself | src/thread_runner.rs:519-562 | the protocol's steps of one `start`, uninterrupted: refused exactly when the thread's run is Running; otherwise a fresh Running run is the thread's and is told |
| ThreadRunner.StopByItself | src/thread_runner.rs:603-643 | the protocol's steps of one `stop`, uninterrupted: a Running run ends Stopped and cancelled with one event that carries no error, and a reaper is left; any other run is left alone |
| ThreadRunner.RunState.SetStatus | src/thread_runner.rs:306-323 | after cancelling only Stopped is written; one broadcast exactly when the status changed |
| ThreadRunner.RunState.SetError | src/thread_runner.rs:382-387 | the error is recorded unless the run was cancelled |
| ThreadRunner.RunState.ApplyPart | src/thread_runner.rs:144-165 | the stored parts become the fold of the old ones with the delta |
| ThreadRunner.ThreadRunner.Start | src/thread_runner.rs:509-562 | refused, and nothing changed, exactly when the thread's run is Running; otherwise a fresh Running run is registered and announced once |
| ThreadRunner.ThreadRunner.Stop | src/thread_runner.rs:603-620 | a Running run ends Stopped, cancelled and announced once; any other is left as it is |
| ThreadRunner.ThreadRunner.StopAll | src/thread_runner.rs:651-661 | every run of the snapshot that was Running ends Stopped and cancelled, with one broadcast each, in order |
| ThreadRunner.ThreadRunner.Forget | src/thread_runner.rs:588-593 | only the very run the cleanup was made for is removed |
| RunParts.ApplyIsMergedLog | src/thread_runner.rs:144-165 | after any sequence of deltas the stored parts equal the append-or-replace log with adjacent text runs and adjacent thinking runs merged |
| RunParts.NothingLostOrReordered | src/thread_runner.rs:154-163 | read character by character and call by call, the stored parts are the log, and no two neighbours could still be merged |
| RunParts.ToolsAreUnique | src/thread_runner.rs:146-151 | tool ids are unique among the stored parts |
| RunParts.ToolsKeepTheirSlot | src/thread_runner.rs:146-151 | however the stream goes on, a tool call stays at the position it first got |
| MessageTable.EveryTableOk | src/db/messages.rs:65-168 | after any mix of inserts, deletes and thread deletions: turns are non-decreasing in id, `seq` equals id, a user message is the first row of its turn, client ids are unique in a thread |
| MessageTable.OrderMeans | src/db/messages.rs:79-84 | what that order says of two rows of a thread: at most one user row in a turn, and it has the smallest id |
| MessageTable.IdsNeverReused | migrations/0001_init.sql:64-71 | two rows ever stored under one id are the same row, even if it was deleted in between |
| MessageTable.AddedRow | src/db/messages.rs:65-127 | a message is stored as given behind all others; a user message gets the turn after the thread's newest row's, any other message that row's turn (1 and 0 in an empty thread) |
| MessageTable.TurnCountsUserRows | src/db/messages.rs:73-84 | under inserts alone a row's turn is the number of the thread's user messages up to it |
| MessageTable.ThreadIsDropped | migrations/0001_init.sql:66 | deleting a thread takes exactly its rows |
| MessageTable.EditAndResend | src/db/messages.rs:138-157 | writing the replacement first and deleting the tail leaves the thread up to the edited message plus the replacement, in a newer turn than any other row |
| MessageTable.MessageStore.AddMessage | src/db/messages.rs:65-127 | refused without change exactly for a client id already in the thread; otherwise one row with the given role, client id and body is appended, with the id as its `seq` and its turn by role |
| MessageTable.MessageStore.DeleteMessage | src/db/messages.rs:129-136 | exactly the row with that id goes |
| MessageTable.MessageStore.DeleteMessagesFromExcept | src/db/messages.rs:142-157 | exactly the thread's rows from that id on go, but for the kept one; the number deleted is returned |
| MessageTable.MessageStore.DeleteMessagesAfter | src/db/messages.rs:159-168 | exactly the thread's rows after that id go; the number deleted is returned |
| MessagePages.FetchTakesTheEnd | src/db/messages.rs:420-480 | with any writes between a fetch's three queries: a page is the newest part of what its own query found before the cursor, its cursor leaves exactly the rest, `has_more` says whether the last query finds any rest, and a page is empty only when nothing remained |
| MessagePages.FetchCounts | src/db/messages.rs:426-435 | every fetch reports the number of the thread's rows; one for no turns, or one that finds nothing, returns the cursor it was given and no more |
| MessagePages.SplitOnlyWhenFull | src/db/messages.rs:437-461 | a turn is split between pages only by a page of 150 rows |
| MessagePages.TurnsOnPage | src/db/messages.rs:437-461 | unless the cap bites, a page shows rows of exactly as many turns before the cursor's as were asked for, or of all that are left |
| MessagePages.WalkReturnsEachRowOnce | src/db/messages.rs:420-480 | over tables that change arbitrarily between fetches and between the queries of a fetch, a row that is there throughout is on exactly one page of the walk |
| MessagePages.CursorsDescend | src/db/messages.rs:437-480 | however the table changes, every further page that is not empty has a smaller cursor in (turn, id), and cursors are non-negative: no walk goes on for ever |
| MessagePages.PagesDisjoint | src/db/messages.rs:437-461 | no row is on two pages of a walk |
| MessagePages.WalkStillIsThread | src/db/messages.rs:420-480 | over a table that does not change the walk ends and its pages, joined, are everything before its first cursor |
| MessagePages.HasOlderMeans | src/db/messages.rs:482-501 | `has_messages_older_than` says whether anything remains before the cursor |
| MessageFeed.BatchIsLimited | src/db/messages.rs:190-211 | a poll returns no more rows than its limit, and without one, or short of it, all that are unread |
| MessageFeed.ConsumerFollows | src/db/messages.rs:190-211 | however polls, inserts and deletes interleave, what a consumer received is strictly increasing in `seq` and contains every row still stored up to the last number it received |
| MessageFeed.ShortPollCatchesUp | src/db/messages.rs:190-211 | after a poll that comes back short of its limit nothing of the thread is unread |
| MessageFeed.PollMakesProgress | src/db/messages.rs:190-211 | with a positive limit a poll advances whenever something is unread |
| TurnCursor.RoundTrip | src/db/messages.rs:46-62 | decoding an encoded cursor returns it, for every pair of 64-bit integers |
| TurnCursor.CursorBytes | src/db/messages.rs:46-50 | the text decodes to the turn, a colon and the id in decimal |
| TurnCursor.TextsAreUnique | src/db/messages.rs:46-62 | different cursors have different texts, and no bytes have two base64url texts |
| Base64.DecodeEncode | src/db/messages.rs:47-55 | decoding inverts unpadded base64url encoding (section 5 of RFC 4648) on every byte string |
| Base64.GroupIsNumber | src/db/messages.rs:47-50 | three bytes and their four symbols of the alphabet in section 5 of RFC 4648 are the same 24 bits |
| Base64.ShortGroups | src/db/messages.rs:47-50 | one or two last bytes are the start of a group that goes on with zeros |
| Base64.EncodeDecode | src/db/messages.rs:53-55 | the strict decoder accepts nothing but encodings |
| Decimal.PrintedDigits | src/db/messages.rs:48-50 | decimal notation digit by digit, with a minus in front of a negative number |
| Decimal.ParsePrint | src/db/messages.rs:48-60 | parsing inverts printing on every 64-bit integer |
| PlanParsing.PlanParser.Feed | src/plan.rs:141-163 | one call reports and keeps what the specification says: proposed blocks, then update blocks, then checkboxes when there were none, then the trim |
| PlanPrinting.WrittenPlanIsReported | src/plan.rs:141-192 | a plan written as a block of either kind, its statuses in words and white space around, is reported alone as it was meant: the explanation, and the first 100 steps in order with their texts and statuses |
| PlanPrinting.PlanInLetters | src/plan.rs:319-357 | the same for an `<update_plan>` block spelled out, with a step done, one in progress and one without a status |
| PlanPrinting.WordMeans | src/plan.rs:34-46 | what each status word stands for |
| PlanPrinting.ChecklistIsReported | src/plan.rs:194-223 | a list of lines with checkboxes is reported as one plan of the boxes in order with the statuses they show, and the other lines stay, in order |
| PlanPrinting.PlainLinesAreReported | src/plan.rs:335-345 | a block of plain lines is reported as pending steps, leading markers dropped |
| PlanPrinting.BlankLineIsSkipped | src/plan.rs:200-214 | blank lines and boxes without text report nothing |
| PlanPrinting.BlankChildIsSkipped | src/plan.rs:322-331 | a `<step>` without text reports nothing |
| PlanPrinting.EmptyBlockReportsNothing | src/plan.rs:346-348 | a block without any text reports no plan |
| PlanScan.WhiteSpaceBytes | src/plan.rs:125-139 | what the matchers skip are the bytes of Unicode white space |
| PlanParsing.PlanParser.DrainBlocks | src/plan.rs:165-192 | the loop takes out all blocks of one kind left to right and keeps the text between them |
| PlanParsing.PlanParser.DrainCheckboxes | src/plan.rs:194-223 | checkbox lines become one plan and the other lines are kept, or nothing changes |
| PlanParsing.PlanParser.Bound | src/plan.rs:225-253 | the trim cuts where the specification says |
| PlanParsing.ParseStepsText | src/plan.rs:319-357 | the steps of a block: `<step>` children, else lines, capped and cut to length |
| PlanParsing.PlanAccumulator.Feed | src/plan.rs:407-414 | the active plan becomes the last one reported, and the call says whether there was one |
| PlanChunking.ChunkingTheorem | src/plan.rs:141-192 | for streams of any length, of gaps without `<` and complete blocks of both kinds of at most 64 KiB each, and every way of cutting them: the buffer ends as an end of the gaps, as all of them when they and any one block are within 64 KiB, every plan is reported once, and the order is independent of the cuts exactly when no update block precedes a proposed block with another plan; then it is stream order |
| PlanOvertaking.CutsCanReorder | src/plan.rs:141-163 | a two-block stream whose plans do come in a different order for different cuts |
| PlanScan.FindBlockAfterInert | src/plan.rs:125-132 | the block search passes over text that cannot start a block |
| PlanBounds.FeedKeepsBuffer | src/plan.rs:225-253 | after every call the buffer is a well-formed UTF-8 end of the unconsumed text, holds its last 64 KiB, is at most 128 KiB, and at most 64 KiB and 3 bytes unless it starts at a tag still open at the cut |
| PlanBounds.StreamKeepsBuffer | src/plan.rs:141-163 | along every stream of chunks the buffer keeps these bounds and every plan reported is bounded; behind every single chunk the buffer is the end, so bounded and so cut, of the text not consumed by then |
| PlanBounds.FeedPlansBounded | src/plan.rs:295-357 | every plan reported has 1 to 100 steps of at most 500 bytes and an explanation of at most 2000 |
| PlanBounds.ProgressOfBoundedPlans | src/plan.rs:91-102 | for such plans the percentage is 100 exactly when all steps are completed and 0 exactly when none are |
| PlanBounds.ProgressIsNearest | src/plan.rs:91-102 | for every plan the percentage is within half of the true one |
| PlanBounds.ProgressExactBelow200 | src/plan.rs:91-102 | for plans of any size, 100 shows exactly for all completed if and only if there are fewer than 200 steps, and 0 exactly for none if and only if there are at most 200 |
| Utf8.Truncate | src/plan.rs:359-369 | the longest prefix within the limit that ends at a character boundary, at most three bytes shorter than the limit |
| Utf8.OutputText.TruncateUtf8 | src/browser/engine.rs:85-91 | the same cut, in place |
| Utf8.ValidIsEncoded | src/plan.rs:359-369 | well-formed text is the bytes of characters, by the table in section 3 of RFC 3629 |
| Utf8.EncodedIsValid | src/plan.rs:359-369 | and the bytes of characters are well-formed |
| Utf8.BackUpAtMostThree | src/plan.rs:363-366 | in well-formed UTF-8 a boundary is at most three bytes back |
| Placeholders.Substitute | src/mcpb.rs:542-569 | the output is the one-pass rendering of the text's segments, and the keys looked up are its placeholders, in order |
| Placeholders.VariableTokens | src/mcpb.rs:203-217 | the second scanner lists exactly the placeholders of the one-pass reading |
| Placeholders.PlaceholderIsReplaced | src/mcpb.rs:542-569 | a placeholder becomes its key's value, or stays when it has none; the text before it is unchanged and the text behind it is substituted by itself |
| Placeholders.SubstitutedIsFilled | src/mcpb.rs:542-569 | of a text written as stretches and placeholders the output is the stretches with the values between them, and the keys are looked up in order |
| Placeholders.EveryTextIsWritten | src/mcpb.rs:542-569 | every text is written that way |
| Placeholders.UnresolvedIsUnchanged | src/mcpb.rs:540-541 | where no key has a value, substitution is the identity |
| Placeholders.OnlyKeysMatter | src/mcpb.rs:542-569 | the output depends on the lookup only at the text's own keys, never at what was inserted |
| Placeholders.TrimKeepsTokens | src/mcpb.rs:802 | trimming a text leaves its placeholders as they were |
| Bundles.WholeRefIsOneToken | src/mcpb.rs:712-718 | a whole `${user_config.key}` reference is a text with that one placeholder |
| Bundles.EffectiveConfig | src/mcpb.rs:612-642 | field by field the override, else the manifest's value, else the synthesized one |
| Bundles.EffectiveFields | src/mcpb.rs:573-642 | command, arguments and each environment entry: the override's, else the manifest's, else what is made up for the server's kind |
| Bundles.InstallLookupGives | src/mcpb.rs:775-799 | the fixed variables and the user's values are found under their keys, nothing else is |
| Bundles.WarningsAre | src/mcpb.rs:272-288 | which placeholders draw a warning and which none |
| Bundles.InstallLooksUpExamined | src/mcpb.rs:240-289 | every key looked up at install was examined for warnings exactly when the entry point's path is not what is run, or the manifest has `${__dirname}` and the entry point's placeholders elsewhere too; always when it names a command |
| Bundles.SynthesizedAre | src/mcpb.rs:573-608 | the placeholders of the made-up command and arguments that survive the overrides are `${__dirname}` and the entry point's own, or none |
| Bundles.EntryPointDecides | src/mcpb.rs:573-608 | every looked-up key that would draw a warning was examined exactly when, if the entry point is run, its own such placeholders were |
| Bundles.EntryPointUnexamined | src/mcpb.rs:573-608 | without a command, a placeholder in the entry point's name is looked up unexamined |
| Bundles.TokenWarnings | src/mcpb.rs:272-288 | one warning for each distinct offending placeholder, no other and none twice |
| Bundles.NoWarningNothingLeftOver | src/mcpb.rs:773-800 | for a manifest that draws no placeholder warning, with a value for every declared entry, every key looked up has a value if, and with no other values only if, the entry point, when it is what is run, has no placeholder that would draw one |
| Bundles.ExpandArgs | src/mcpb.rs:806-816 | a whole reference becomes the configured value, one argument per item of a list, or is dropped when unset; every other argument is substituted |
| Bundles.WholeRefExpands | src/mcpb.rs:806-816 | in its place among the arguments a whole reference becomes the value, one argument for each item of a list, or nothing without a value |
| Bundles.ListText | src/mcpb.rs:445-457 | a list inside a value is written with commas, nothing as the empty text |
| Bundles.OneForOne | src/mcpb.rs:806-816 | only whole references can change the number of arguments |
| FileLocks.LockTable.FileWriteLock | src/api/files.rs:18-32 | the path's live lock is handed out again, else a fresh one; all other live entries stay, so a sweep cannot be seen; a new entry leaves at most 4096 entries or one more than were live |
| FileLocks.LockTable.Release | src/api/files.rs:21-24 | an entry dies with its last handle |
| FileWrites.StepInv | src/api/files.rs:709-798 | every step of every interleaving of writers keeps the invariant, requests dropped at any await and writes that go on without them included |
| FileWrites.OneLockPerPath | src/api/files.rs:18-32 | at any time the locks in writers' hands are the same exactly when their paths are, and at most one writer of a path is inside |
| FileWrites.WriteSeesExpected | src/api/files.rs:743-788 | when a conditional write is made the file still has the hash that was compared steps before, if no detached write of the path was in flight at the compare |
| DetachedWrites.CompareHoldsUnlessThreatened | src/api/files.rs:743-788 | a writer that has compared can come to write over other content, by some continuation, exactly when a detached write of its path is in flight (and not of nothing over nothing) |
| DetachedWrites.ComparedInExecution | src/api/files.rs:743-788 | the same at every successful compare of every execution |
| DetachedWrites.DetachedWriteLosesAnUpdate | src/api/files.rs:743-788 | an execution in which two writes that expected the same hash both go through, the second over the first's content |
| FileWrites.CalmWithoutDetaching | src/api/files.rs:786-788 | while no request is dropped with its write in flight, every conditional write is compared in calm |
| FileWrites.WritesFormAChain | src/api/files.rs:709-788 | each write of a path, detached ones included, replaces exactly what the write before it left, and a conditional one compared in calm expected its hash |
| FileWrites.NoLostUpdate | src/api/files.rs:743-788 | of two conditional writes compared in calm that expected the same content the second went through only because that content was there again |
| FileWrites.AloneGetsItsAnswer | src/api/files.rs:713-798 | a request that has the lock to itself is answered by what is at its path and what it expected (deleted, changed, a directory, or written), and the file changes exactly when it is written |
| DetachedWrites.RereadHoldsUnlessThreatened | src/api/files.rs:786-798 | a writer that has written can find other content when it reads again, by some continuation, exactly when a detached write of its path is in flight (and not of nothing over nothing) |
| DetachedWrites.WrittenInExecution | src/api/files.rs:786-798 | the same at every write under the lock of every execution |
| FileWrites.ReplyReportsContent | src/api/files.rs:790-798 | the re-read behind the answer finds the content that was sent, if no detached write of the path was in flight when it was written |
| Browser.RefsReachOnlyCurrentPages | src/browser/engine.rs:49-77 | in every run an action on a ref reaches the page exactly when, in the life of the engine that would run it, a snapshot or navigation succeeded after the last action that may have changed the page; the refusal tells the two failures apart |
| Browser.OneActionLater | src/browser/action.rs:105-131 | behind a snapshot and one more action a click, input, selection or hover at a ref goes through exactly when that action was a working navigation, a snapshot, screenshot, scroll, wait or hover |
| Browser.RefsComeFromSnapshots | src/browser/engine.rs:56-69 | right behind a snapshot refs are good, in a fresh browser none is |
| Browser.OthersAreNotRefused | src/browser/engine.rs:57-69 | an action that is not at a ref is never refused by a browser that is there |
| Browser.RelaunchForgetsRefs | src/browser/mcp.rs:67-76 | a relaunched engine refuses every ref |
| Browser.RefusedUntilStamped | src/browser/engine.rs:258-276 | while refs are stale they stay refused until a snapshot or navigation succeeds |
| Browser.ChromiumEngine.Perform | src/browser/engine.rs:511-519 | the target is checked against the clock before the bump, and a refused action changes nothing |
| Browser.EngineSlot.Get | src/browser/mcp.rs:67-76 | a live engine is kept, a dead one replaced by a fresh one, and a failed launch leaves the slot empty |
| Browser.EngineSlot.Call | src/browser/mcp.rs:129-141 | the answer and the new engine of one tool call |
| HostAddress.CleanHost | src/api/machines.rs:128-198 | the stages in the program's order compute the specified address or fault |
| HostAddress.Idempotent | src/api/machines.rs:128-198 | an accepted host, cleaned again, is returned with no port and no user |
| HostAddress.ParsePrinted | src/api/machines.rs:128-198 | a printable address, bracketed IPv6 included, is read back as it was whatever scheme and path are put around it |
| HostAddress.PaddedIsCleaned | src/api/machines.rs:129-134 | white space around an address, and between its scheme and it, makes no difference |
| HostAddress.PasswordIsDropped | src/api/machines.rs:139-145 | of `user:password@host` only the login name is kept |
| HostAddress.PlainHostAccepted | src/api/machines.rs:165-197 | a name of letters, digits, dots, dashes and underscores is accepted alone, and with a port exactly from 1 to 65535 |
| HostAddress.AcceptedCharacters | src/api/machines.rs:182-190 | an accepted host has 1 to 255 of the allowed characters |
| HostAddress.AcceptedReprints | src/api/machines.rs:128-198 | every accepted address can be printed, and the print is taken for the same address |
| HostAddress.AcceptedKeepsColon | src/api/machines.rs:165-181 | outside brackets an accepted host has a colon exactly when its text, after scheme, path and user are gone, has two or more, or one that is not followed by a digit; with a bracket the host is the text up to the first closing one |
| HostAddress.ColonHostAccepted | src/api/machines.rs:165-181 | `host:abc` is accepted as a host, with no port |
| HostAddress.AcceptedIsSettled | src/api/machines.rs:146-188 | an accepted host is valid, holds a closing bracket only at its end, and has no colon that could start a port |
| Escaping.EscapeIsPerChar | src/api/shared.rs:61-67 | the five replacements in sequence are one map over the characters |
| Escaping.EscapeInjective | src/api/shared.rs:61-67 | different texts have different escapes |
| Escaping.NoMarkup | src/api/shared.rs:61-67 | the output has no angle bracket and no quote |
| SharePage.RenderPartsLoop | src/api/shared.rs:219-262 | the automaton with the `thinking_open` flag writes each maximal group of thinking on its own, empty parts left out |
| SharePage.AppendMessage | src/api/shared.rs:192-288 | the message is the head, its parts or its own text and tool calls, the note, and the end of the section |
| SharedText.MessageShows | src/api/shared.rs:192-288 | without its tags the message reads: who and when, the attachments, the parts in order or else thinking, text and tool calls, and the note on truncation |
| SharedText.ToolCallShows | src/api/shared.rs:127-162 | without its tags a tool call reads title, kind, status, command, and output or else preview, all escaped |
| SharedText.MessageOpens | src/api/shared.rs:192-201 | the section's class and the label by role |
| SharedText.NamesAre | src/api/shared.rs:209-214 | attachments are listed with commas |
| SharePage.ToolCallBalanced | src/api/shared.rs:127-162 | a rendered tool call opens and closes one fold around balanced text |
| SharePage.MessageBalanced | src/api/shared.rs:192-288 | whatever its parts and texts, a rendered message closes every fold it opens and no other |
| Projects.MatchesIsPermutation | src/db/projects.rs:71-79 | equal length and equal sets say exactly that the request is a permutation of the user's projects |
| Projects.ProjectStore.UpdateProjectPositions | src/db/projects.rs:61-94 | succeeds exactly for a permutation, and otherwise changes nothing |
| Projects.PositionsAreIndices | src/db/projects.rs:81-91 | afterwards every project of the user stands at its index in the request and nothing else has changed |
| Projects.EveryIndexIsAPosition | src/db/projects.rs:81-91 | and every index is taken |
| Projects.ListingOrder | src/db/projects.rs:33-50 | the listing holds exactly the user's projects, pinned first, each half by position and then id |
| Projects.ListedPage | src/db/projects.rs:33-50 | a page is the listing from its offset on, as many as asked for or as are left |
| Projects.ListedAsRequested | src/db/projects.rs:33-50 | after a reorder the listing is the requested order with the pinned projects moved to the front, each half in the requested order |

## Left out

- RunProtocol.SubscribersKnowTheHistory: covers the broadcasts made by status writes only. `publish_attention` checks the status and sends without the lock, so attention updates have no order to prove.
- RunProtocol.ExecutionInv: what the handlers do around `start` and `stop` is not modelled. Sleeps are steps that may come at any later time; the 10, 110 and 120 seconds themselves, `wait_finished`, `snapshot`, the per-run event stream (`emit`, `subscribe`, `close`) and rate-limit waits are not modelled. A panic of the provider future is a step after which the run stays Running until it is stopped.
- ThreadRunner.ThreadRunner.StopAll: stops the snapshot's runs; waiting for the tasks and aborting stragglers is in the protocol only.
- MessageFeed.ConsumerFollows: rows are kept in id order, which is the order by `seq` because `seq` equals id; truncation of long contents in listings is not modelled.
- MessageTable.EveryTableOk: row contents are one opaque `body`; foreign keys other than the deletion of a thread, and database errors other than a duplicate client id, are not modelled. Tables from before migration 0021 are taken as backfilled.
- PlanParsing.PlanParser.Feed: entity decoding (`unescape_html`) is a parameter, so nothing depends on what it does; it is not an inverse of `escape_html`. `feed_safe` only catches panics.
- PlanChunking.ChunkingTheorem: text with `[`, gaps with `<`, blocks that hold a copy of their own or the other kind's tags, and single blocks over 64 KiB are outside it: there the checkbox fallback or the trim may act on a partial block.
- PlanBounds.ProgressOfBoundedPlans: the rounding is over the reals, not over floating point.
- FileWrites.WritesFormAChain: uploads (src/api/files.rs:971), the delete handler (src/api/files.rs:1147-1149) and writers outside the program bypass the locks and are not steps. The system calls inside one file write are not modelled: a detached write may leave any content at any later moments until it is done, and one under the lock is a single step or a failure that leaves any content.
- FileLocks.LockTable.FileWriteLock: the key is the path's text; two paths with the same lossy text share a lock.
- Browser.RefsReachOnlyCurrentPages: the epoch is unbounded, and changes the page makes by itself are not events.
- Bundles.ExpandArgs: of the environment's values only the keys they look up are modelled; numbers and booleans are given in printed form; the Windows command names (`python`, the `.exe` suffix) are not modelled.
- Bundles.TokenWarnings: the platform warning and the wording of warnings are not modelled.
- SharePage.MessageBalanced: Markdown output is assumed to be balanced by itself, and the agent's label to be escaped as its caller does.
- HostAddress.CleanHost: the text of the error responses is not modelled.
- Base64.DecodeEncode: only the unpadded URL-safe alphabet that cursors use.
- HTTP routing, authentication, sessions, SSH, VNC, the browser protocol, git, zip and SQLite themselves.
- Clamps and single-branch checks: rate limits, page parameters, node and grant checks, the update check.
