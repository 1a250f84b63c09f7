# Verified model of the agent workbench

The repository is a local web application in which a language model edits a project: a chat turn runs an
agent loop that calls the model, executes its tool calls and stores the conversation. This project models
the parts of it that are algorithms and protocols, and proves what they promise. `dafny verify dfyconfig.toml`
checks all of it.

* **Conversation history.** Providers reject a history in which an assistant message with tool calls is not
  followed directly by one tool message per call, in call order. `Conversation` states that rule (as an
  automaton, and position by position) and `closeDanglingToolCalls`; `Compaction` both ways of shrinking a
  history; `MessageTable` and `MessageDb` the messages table keyed by (turn, seq). `ClosingMeaning`, `Ranking`
  and `RowMeaning` read the same off the messages themselves: what closing adds, which message gives way first
  and why, and what a row says. `AgentTurn` is one turn
  as a state machine over message objects, `TurnSafety` proves what every step keeps and what the rows are
  at its end, `TurnFailures` gives runs in which messages are lost, rewritten or repeated. `ToolBatch` is one
  batch of tool calls and `TurnPlay` a whole turn, both as functions of their inputs, which `BatchMeaning` and
  `TurnMeaning` tell message by message, counter by counter; `TurnRuns` shows that it
  is a run of the state machine, `TurnLimits` that its retries and challenges are bounded, and `TurnOutcome`
  proves what every turn stores. `AgentLoop` is the loop itself, with its message list, its set of persisted
  objects and the database, proved equal to that function; and `ChatTurn` is a whole turn from the table and
  back, and whole chats of turns and rewinds. `ChatMeaning` carries what was said to what is read back.
* **Structural search and replace.** `Tokenizer`, `TokenTree` (bracket tree), `Matcher` (backtracking
  matcher), `TokenMeaning` and `TreeMeaning` (what a token and a node of the tree are, read off the text),
  `MatchMeaning` (what an instance of a pattern is, and how the matcher relates to it),
  `StructuralSearch` (search in a whole tree, and splicing the rewrites in), `MatchSpans` (how the matches of
  one search lie in the text).
* **Stream decoders.** `LspFraming` (Language Server Protocol base protocol), `Utf8` (bytes decoded chunk by
  chunk), `Lines`, `McpTransports` (stdio and server-sent events), `SseRoundTrip`, `Csv`; `FrameMeaning`,
  `StreamMeaning` and `CsvMeaning` say what frames, lines, events and fields are by their text.
* **Buffers and broadcast.** `Delivery`, `JobOutput`, `BrowserConsole` (ring buffers with a read position),
  `Broadcast`, `AgentManager` (event replay to late subscribers), `RateLimit`, `PathTree` and `PathWalk` (the
  file tree of a list of paths, and building it in place).

The language model, tools, hooks, permission rules and the user are inputs: a step of a turn says how each
call came out. So are the clock, the database's success or failure, and the points at which a cancellation
or an exception ends a batch, a model call, a compaction, a wait or a hook. JSON, UTF-8 decoding, the
summaries of compaction, `localeCompare` and the size of the context window are parameters with the
properties the code relies on.

Where the code does less than it promises, it is modelled as it is, and the exact condition is proved:

* A batch cut short is stored well paired if and only if no unanswered call repeats the id of an answered
  one (`Conversation.ClosedCutBatch`); and over any chat the table is a transcript all along if and only if
  no turn ends in a saved batch that does (`ChatTurn.ChatIsTranscript`).
* Summary compaction loses messages for the table if and only if it evicts some that are not saved yet
  (`TurnSafety.SummaryLosesUnsaved`); the loop's comment takes it for granted that they are. A user who queues
  twelve messages can lose four of them that way (`TurnFailures.StepLosesQueuedMessages`).
* A message that placeholder compaction rewrites before it is saved is stored as its placeholder for good.
  Its stored form changes if and only if it is unsaved, its turn comes before compacting lower-ranked messages
  has brought the count down to the target, and it does not read like its placeholder already
  (`TurnFailures.FormChangesIff`, `TurnFailures.RecordedAsSaid`, and `TurnFailures.RejectionStoresPlaceholder`
  for a step in which it happens).
* A message loaded from the table has lost the name of its tool, so compaction ranks it differently from what
  was meant if and only if it comes from one of the four tools the ranking knows (`ChatTurn.LoadedRankDiffers`).
* If something fails after the final save, messages are stored twice if and only if that save had any of the
  turn's messages to store (`TurnSafety.LateFailureStoresTwice`; a run: `TurnFailures.LateFailureRepeatsReply`).
* The loop compacts and retries after a rejected prompt at most three times in a turn, where its comment has
  three times a step (`TurnLimits.LoopIsBounded`): nothing sets that counter back.
* Answering an approval with "Cancel Run" ends the turn without the save other endings make: a cut batch is
  stored if and only if the error handler ends the turn and its save succeeds
  (`TurnOutcome.CancelRunSkipsSave`).
* The history a turn loads, and shows to the model, is well paired if and only if its window of 300 messages
  does not start inside a batch (`ChatTurn.RecentIsPaired`, `ChatTurn.ShownIsPaired`); what the turn stores
  does not depend on that.
* The summary that manual compaction stores lands in the place of the rows it replaces, under a key of its
  own, if and only if the first of them opens its turn (`MessageTable.SummaryInPlace`).
* The token count that placeholder compaction reports is the true one if and only if no rewritten message
  carries tool calls (`Compaction.CompactionAccounting`).
* A repeated `$$$X` is checked for consistency only where it is bound before, and not at all in last position with
  no token left; and a group is not retried (`MatchMeaning.RepeatedNameIsNotChecked`, `MatchMeaning.LastTakes`,
  `MatchMeaning.GroupIsNotRetried`).
* A match with others inside it is spliced correctly if and only if those together keep its length, or shorten
  it with nothing behind it (`MatchSpans.OuterMatchWins`). Of matches that overlap otherwise, as only runs of
  one level of the tree do (`MatchSpans.TwoMatches`), the left rewrite removes part of the right one
  (`StructuralSearch.OverlappingEdits`).
* A token reaches past the end of the text if and only if it is a string every later quote of which stands
  behind an odd run of backslashes, and so does the end of the text (`Tokenizer.TilesAt`,
  `Tokenizer.StringEndsPast`).
* The stdio transport and the job output decode every chunk of bytes on its own: a text survives that if and
  only if no chunk ends inside a character (`Utf8.TextSurvivesIffAligned`,
  `McpTransports.CutInsideCharacterShows`).
* Server-sent events survive if and only if no line ends in a carriage return before a bare line feed
  (`SseRoundTrip.SseRoundTrip`). The reader delivers what section 9.2.6 of the WHATWG HTML standard asks for
  if and only if no data line is left behind the last empty line (`SseRoundTrip.StrictIffCompleted`); an event
  that the end of the stream cuts off is delivered all the same (`SseRoundTrip.UnfinishedEventIsDelivered`).
* A read of job output that names a line leaves lines untold if and only if it skips ahead of the cursor, and
  takes the cursor beyond the log if and only if the line is (`JobOutput.ReadBehind`).
* Removing expired buckets changes a decision if and only if the clock goes back and a used-up bucket is live
  again (`RateLimit.CleanupShowsWhenClockGoesBack`).
* A refused client that waits as long as it was told is allowed unless the window ends on exactly that
  millisecond (`RateLimit.RetryAfterIsEnough`).

## Model

| member | source | states |
|---|---|---|
| Conversation.WellPairedAtEveryPosition | src/lib/contextManager.ts:150-179 | the pairing rule as an automaton and read position by position are the same: every message with calls is followed at once by one answer per call, in call order, and by no other tool message |
| Conversation.PairedAppend | src/lib/agentLoop.ts:448-472 | what may be appended to a well-paired history: exactly well-paired messages |
| Conversation.PairedCut | src/lib/contextManager.ts:160-179 | a well-paired history may be cut exactly where the next message is not a tool message |
| Conversation.CloseDanglingToolCalls | src/lib/agentLoop.ts:1672-1699 | the scanning loops compute the recursive definition `Closed` |
| Conversation.ClosedAnswersAll | src/lib/agentLoop.ts:1669-1699 | every call is answered in the run behind its message, and nothing changes if and only if nothing was missing |
| Conversation.ClosedIdempotent | src/lib/agentLoop.ts:1672-1699 | closing twice is closing once |
| Conversation.ClosedKeepsMessages | src/lib/agentLoop.ts:1672-1699 | the input is kept in order; only tool messages with the placeholder text come in between |
| ClosingMeaning.CallsAreClosed | src/lib/agentLoop.ts:1678-1696 | read off the history: an assistant message with calls stays with the tool messages behind it, and behind those come, in call order, tool messages with the id and the name of exactly the calls that none of them answers, and the text that says so |
| ClosingMeaning.OthersStay | src/lib/agentLoop.ts:1674-1678 | every other message stays as it is |
| Conversation.ClosedCutBatch | src/lib/agentLoop.ts:182-190 | a history whose last batch was cut anywhere is well paired once closed, if and only if no unanswered call repeats the id of an answered one |
| Compaction.SplitForCompaction | src/lib/contextManager.ts:160-179 | head, evicted span and preserved tail, or nothing when fewer than the minimum would be evicted |
| Compaction.CutIsTight | src/lib/contextManager.ts:150-179 | the three parts are the history; the tail keeps at least the messages asked for and starts at the last admissible place that is not a tool message |
| Compaction.SummaryKeepsPairing | src/lib/agentLoop.ts:371-412 | putting one summary in the place of the evicted span keeps the history well paired |
| Compaction.SplitSays | src/lib/contextManager.ts:160-179 | the split read off the messages: a span is evicted if and only if some place leaves enough behind and four messages before it and holds no tool message, and then up to the last such place |
| Compaction.CompactMessages | src/lib/contextManager.ts:56-98 | result and reported token count: candidates in stable order of their scores, of which `Ranking.TraitsDecide` says what they mean, are rewritten while the count is above the target |
| Compaction.CompactionKeepsShape | src/lib/contextManager.ts:73-92 | roles, calls, call ids and system messages survive, and so does pairing, both ways |
| Compaction.CompactionIsLowestFirst | src/lib/contextManager.ts:66-92 | the messages rewritten are an initial segment of the candidates by score, oldest first among equals; no other message changes; by `Ranking.TraitsDecide` and `Ranking.OneTraitDecides` those are the ones whose role, tool, size and age protect them least |
| Compaction.LastMessagesStay | src/lib/contextManager.ts:69-95 | the last messages asked to be kept stay as they are |
| Compaction.CompactionStopsAtTarget | src/lib/contextManager.ts:78-91 | rewriting goes on exactly while the running count is above the target |
| Compaction.CompactionChangesIff | src/lib/contextManager.ts:73-92 | a message changes if and only if the count is above the target up to its turn in the order, it is no system message, and does not read like its placeholder already |
| Compaction.CompactionAccounting | src/lib/contextManager.ts:35-98 | the true estimate is the reported one plus the tool-call tokens of the rewritten messages; they agree if and only if there are none |
| Ranking.TraitsDecide | src/lib/contextManager.ts:66-120 | who gives way first, read off role, tool, size and age: of any two candidates the one whose traits are worth less, and among equals the older one |
| Ranking.SystemIsLast | src/lib/contextManager.ts:107-107 | a system message comes behind every other candidate |
| Ranking.OneTraitDecides | src/lib/contextManager.ts:103-118 | candidates that agree in all but one trait: a message of the user's is behind others, read_file before an unranked tool, edit_file behind it, run_lint and run_tests behind both; above 2000 tokens comes before, above 5000 before that; the later half and fifth come behind |
| Ranking.TraitsBalance | src/lib/contextManager.ts:103-118 | the trade-offs between traits that fix how much each of them weighs |
| Ranking.EstimateCounts | src/lib/contextManager.ts:16-43 | the estimate read off the message: its characters by three and a half, rounded up, images at their flat price, and its tool calls |
| MessageTable.GetRecent | src/lib/db.ts:570-580 | exactly the last n rows of the reading order |
| MessageTable.BatchIsAppended | src/lib/agentLoop.ts:1701-1726 | a batch of the latest turn keeps keys unique, is appended to what reading returns, and no other project notices |
| MessageTable.RewindIsPrefix | src/lib/db.ts:659-665 | a rewind cuts the reading order behind the kept turns, and no other project notices |
| MessageTable.PromptIsSave | src/lib/agentManager.ts:259-271 | storing the prompt with the default seq 0 is a one-message batch of a new turn |
| MessageTable.ReadingIsTheLog | src/lib/db.ts:554-665 | over every run of saves, rewinds and clears, keys stay unique and reading in key order gives the append log restricted to the kept turns; `RowMeaning.ReadingTells` says the same of what was saved, field by field |
| RowMeaning.BatchSays | src/lib/agentLoop.ts:1701-1726 | the rows a save adds, read off the messages: one for every message that is not a system message, in order, under consecutive seqs, with its role, calls, call id, tool name and content, an absent content as the empty text |
| RowMeaning.ReadingTells | src/lib/db.ts:554-665 | over every run of saves, rewinds and clears, what is read back tells row by row what was saved of the kept turns, with an absent content as the empty text and nothing else changed |
| MessageTable.SummaryInPlace | src/app/api/chat/compact/route.ts:125-151 | the stored summary takes the place of the evicted rows under a unique key if and only if the first of them opens its turn |
| MessageDb.Database.GetMaxSeq | src/lib/db.ts:641-646 | the highest seq of a turn, -1 when there is none |
| MessageDb.Database.GetLatestTurnIndex | src/lib/db.ts:648-655 | the highest turn of a project, 0 when there is none |
| MessageDb.Database.InsertPrompt | src/lib/agentManager.ts:259-271 | the prompt opens the turn behind the latest; keys stay unique |
| MessageDb.Database.PersistMessages | src/lib/agentLoop.ts:1701-1726 | one transaction: the non-system messages in order under consecutive seqs behind the highest, each row with the role, calls, call id, tool name and content of its message, an absent content as the empty text; or nothing |
| MessageDb.Database.DeleteAfterTurn | src/lib/db.ts:659-665 | exactly the project's rows of later turns go, and their number is returned |
| AgentTurn.FreshIsPaired | src/lib/agentLoop.ts:182-190 | the messages a step-wise save picks from a well-paired history are well paired |
| TurnSafety.SayKeeps | src/lib/agentLoop.ts:448-472 | pushing well-paired messages keeps the accounts of what is stored and in which form, what is unsaved well paired, and a well-paired history well paired |
| TurnSafety.RemindKeeps | src/lib/agentLoop.ts:196-218 | an ephemeral message keeps them too, and is never among what is stored |
| TurnSafety.PersistKeeps | src/lib/agentLoop.ts:182-190 | a step-wise save stores everything produced and not lost, once, in order and in its present form, and leaves nothing unsaved |
| TurnSafety.SummarizeKeeps | src/lib/agentLoop.ts:371-412 | summary compaction keeps the history well paired and the accounts straight |
| TurnSafety.SummaryLosesUnsaved | src/lib/agentLoop.ts:395-407 | it loses messages if and only if it evicts some of the turn's own that are not saved yet |
| TurnSafety.CompactionKeeps | src/lib/agentLoop.ts:421-437 | placeholder compaction does too, although it replaces message objects by clones; the form of what is saved stands, a message changes nothing but its content |
| TurnSafety.NextKeeps | src/lib/agentLoop.ts:448-1374 | every step of a turn keeps the invariant: every message is stored once in the form it had when saved, waits unsaved in its present form, or is lost; what is stored and what waits is well paired; and a well-paired history stays one |
| TurnSafety.RunKeeps | src/lib/agentLoop.ts:448-1424 | so does every run |
| TurnSafety.StartIsPresentable | src/lib/agentLoop.ts:163-177 | the history the model is shown at first is well paired if and only if the loaded one is |
| TurnSafety.StartIsSafe | src/lib/agentLoop.ts:163-177 | a turn satisfies the invariant from the start, whatever history it loads, if the part of it not yet in the table is well paired |
| TurnSafety.TurnIsStored | src/lib/agentLoop.ts:1443-1451 | after the last save the rows are exactly the messages of the turn that are not lost, each once, in order and in its recorded form, with an absent content as the empty text (`RowMeaning.BatchSays`), ephemeral ones never; and they are well paired |
| TurnSafety.NothingStoredTwice | src/lib/agentLoop.ts:173-190 | at every moment of a turn the rows are a first part of those messages, none twice, and well paired |
| TurnSafety.LateFailureStoresTwice | src/lib/agentLoop.ts:1443-1487 | a failure after the final save adds to the rows once more exactly what that save added; they stay the same if and only if that save had none of the turn's own messages |
| TurnSafety.CutBatchIsStored | src/lib/agentLoop.ts:1376-1383 | the rows of a turn that ends inside a batch are its messages, each once and in order, and a placeholder for every unanswered call; they are well paired if and only if no unanswered call repeats an answered id |
| TurnFailures.FormChangesIff | src/lib/agentLoop.ts:421-437 | the form in which a message is recorded changes if and only if it is unsaved, no system message, not yet like its placeholder, and has its turn in a placeholder compaction; once saved it stands |
| TurnFailures.RecordedAsSaid | src/lib/agentLoop.ts:448-1424 | over every run, a message never rewritten while unsaved is recorded exactly as it was said |
| TurnFailures.SummaryLosesQueuedMessages | src/lib/agentLoop.ts:395-407 | a run from the start in which all messages but the last ones kept are lost, and exactly what is stored then |
| TurnFailures.StepLosesQueuedMessages | src/lib/agentLoop.ts:357-412 | the same in a step of the loop: messages queued for one step that fill 60 % of the window are lost but for the last eight |
| TurnFailures.PlaceholderIsStored | src/lib/contextManager.ts:73-92 | a run from the start in which a placeholder is stored in the place of the message, for any number kept |
| TurnFailures.RejectionStoresPlaceholder | src/lib/agentLoop.ts:1388-1408 | the same in the loop: a rejected prompt after five queued messages, without a summary |
| TurnFailures.LateFailureRepeatsReply | src/lib/agentLoop.ts:1443-1487 | a run from the start in which the reply is stored twice |
| ToolBatch.AllCollected | src/lib/agentLoop.ts:1329-1367 | once the deferred results are collected, reads first and sub-agents after them, every call has its own result, the same as if it had come at once; `BatchMeaning.WholeBatchReads` says which text that is |
| ToolBatch.ImagesInCallOrder | src/lib/agentLoop.ts:1330-1369 | images of a parallel batch, attached while results are collected, come in call order |
| ToolBatch.AttachedInCallOrder | src/lib/agentLoop.ts:1330-1369 | so do those of every batch, whether attached at once or while collecting |
| BatchMeaning.WholeBatchReads | src/lib/agentLoop.ts:769-1369 | a complete batch read off calls and outcomes: message i behind the calls is a tool message with the id and name of call i, and its text is the refusal, the report or the output; behind those come exactly the images of the executed calls, in call order |
| BatchMeaning.CutBatchReads | src/lib/agentLoop.ts:769-1383 | a batch cut at any moment: the calls passed by then have their tool messages, with the result where it was known at once or collected by then, and no text where it still comes; results come in the order reads, then sub-agents; and the images attached by then |
| TurnPlay.Fires | src/lib/agentLoop.ts:655-753 | of the five challenges to a final reply, the one made is the first that applies and is not used up; none is made if and only if there is no such one |
| TurnPlay.ContextCompactedKeeps | src/lib/agentLoop.ts:357-445 | compaction in any of its forms keeps the turn's invariant, says nothing and stores nothing |
| TurnMeaning.SummarizingShows | src/lib/agentLoop.ts:371-412 | what the model is shown after a summary: the head, the summary as a message of the user's, and everything from the last admissible cut on; the same history if there is no such cut |
| TurnMeaning.CompactingShows | src/lib/agentLoop.ts:357-445 | a summary if there is one and something to cover; placeholders without one, and after a rejected prompt also if the history is still above its share; eight messages are kept, or four |
| TurnMeaning.SharesOfWindow | src/lib/contextManager.ts:45-53 | a history is compacted above sixty percent of the window, down to forty |
| TurnMeaning.FirstChallenge | src/lib/agentLoop.ts:655-753 | how often each challenge may be made, and that each is made only when no earlier one is |
| TurnMeaning.MomentsCounted | src/lib/agentLoop.ts:1329-1367 | a batch passes one moment for every call and one for every result that comes later; it is cut if and only if it stops before the last |
| TurnMeaning.StepSpeaks | src/lib/agentLoop.ts:448-1374 | what a step says, message by message: the queued texts as the user's, then the reply, the exchange or the batch as its meaning has it; a step that ends before its call says the queued texts only |
| TurnMeaning.ReplyLeads | src/lib/agentLoop.ts:622-766 | where a reply leads: which counters move and which start again, when the loop goes on and for which reason it ends |
| TurnMeaning.PreparingShows | src/lib/agentLoop.ts:464-490 | what the model is shown in a step: history, queued texts, the warning five steps before the end, compacted if that is above sixty percent |
| TurnMeaning.StepLeads | src/lib/agentLoop.ts:448-1424 | cancelled and timed-out runs end before the call, an interrupted compaction ends the turn, and the reply decides everything else |
| TurnMeaning.LoopTakesSteps | src/lib/agentLoop.ts:448-1424 | the loop is its steps one after the other until one ends it or none is left |
| TurnMeaning.OpeningShows | src/lib/agentLoop.ts:195-350 | what a turn opens with: the unfinished plan, the open file, what the hooks print, and an upfront plan with the request to carry it out |
| TurnMeaning.OpeningEnds | src/lib/agentLoop.ts:249-305 | which openings end the turn, and with what saved |
| TurnMeaning.ConcludingSays | src/lib/agentLoop.ts:1443-1490 | for which reason a turn ends, by what succeeds behind the loop |
| TurnMeaning.EndingsThatSave | src/lib/agentLoop.ts:1443-1490 | which endings save what is left, and which do not |
| TurnRuns.SteppedLeads | src/lib/agentLoop.ts:448-1424 | a step that does not end the turn is made of the state machine's events: speech, reminders, the two compactions, batches and their saves |
| TurnRuns.LoopIsRun | src/lib/agentLoop.ts:448-1424 | so is the whole loop up to the final save, whatever happens in it, so that what holds over every run holds of it |
| TurnLimits.LoopIsBounded | src/lib/agentLoop.ts:448-1424 | over a whole loop: at most its steps are taken, every counter stays within its limit, a prompt too long is compacted at most three times, and each way of challenging a reply is used no more often than allowed |
| TurnLimits.CountedBelow | src/lib/agentLoop.ts:655-753 | the counters count: from any step on, what is still used and what has been used is within the limit |
| TurnOutcome.RetriesAreBounded | src/lib/agentLoop.ts:1384-1422 | one retry: after a prompt that was too long it has shrunk it, any other leaves the history alone |
| TurnOutcome.SteppedKeeps | src/lib/agentLoop.ts:448-1424 | every step, whatever model, tools, user and database do in it, keeps the invariant or ends the turn with exactly the rows it should have |
| TurnOutcome.SteppedSays | src/lib/agentLoop.ts:448-1369 | what a step adds to the conversation: the queued messages, and by the outcome of the model call a reply, an exchange, or a batch with one result per call in call order; `TurnMeaning.StepSpeaks` says it message by message |
| TurnOutcome.LoopedKeeps | src/lib/agentLoop.ts:448-1424 | every run of the loop keeps the invariant, or ends the turn with exactly those rows |
| TurnOutcome.BatchIsSaved | src/lib/agentLoop.ts:1369-1372 | after a complete batch whose save succeeds, everything said so far and not lost is in the table, and nothing waits |
| TurnOutcome.RowsGrow | src/lib/agentLoop.ts:448-1424 | no step takes a stored row away, whatever fails in it |
| TurnOutcome.CancelRunSkipsSave | src/lib/agentLoop.ts:1185-1215 | a batch cut short reaches the rows if and only if it is not "Cancel Run" that ends it, the handler's save succeeds and the turn is not nested; else the rows stay as they are |
| TurnOutcome.ConcludedEnd | src/lib/agentLoop.ts:1443-1490 | the final save, and the second one of the error handler: what the rows are for every way they come out |
| TurnOutcome.PlayedEnd | src/lib/agentLoop.ts:163-1490 | every turn, by reason and success of the saves: the rows are all its messages, or those and the placeholders of a cut batch, or a first part, or all of them and the last ones again; well paired unless a saved cut batch reuses a call id |
| TurnOutcome.PlayedCut | src/lib/agentLoop.ts:1376-1383 | a turn that ends inside a batch ends in one its model asked for |
| AgentLoop.Loop.PersistPartial | src/lib/agentLoop.ts:182-190 | the save is the state machine's; a failing database changes nothing; no other project changes |
| AgentLoop.Loop.CompactContext | src/lib/agentLoop.ts:357-445 | summary, placeholders or both, as the function has it; whether it shrank |
| AgentLoop.Loop.ExecuteToolCalls | src/lib/agentLoop.ts:769-1369 | a complete batch adds the calls, for every call a tool message with its id and its own refusal, report or output, in call order whatever was refused, deferred or run, and then the images in call order; a batch cut at some moment has the tool messages pushed by then, with the texts filled in by then; all read off calls and outcomes as in `BatchMeaning` |
| AgentLoop.Loop.Recover | src/lib/agentLoop.ts:1384-1422 | the loop does what the function says: retry after compaction, retry after a wait, or end, each with its bound (`TurnOutcome.RetriesAreBounded`) |
| AgentLoop.Loop.FinishOrNudge | src/lib/agentLoop.ts:655-766 | the challenges tried one by one make the first one open (`TurnPlay.Fires`); the reply ends the turn if and only if none is |
| AgentLoop.Loop.TakeSteps | src/lib/agentLoop.ts:448-1424 | message list, persisted set and table after the loop are those of the functional turn, whatever happens in its steps, also while streaming, compacting or waiting |
| AgentLoop.Loop.Conclude | src/lib/agentLoop.ts:1443-1487 | so are they after the final save and the second one of the error handler |
| AgentLoop.Loop.Run | src/lib/agentLoop.ts:448-1490 | and after both together |
| AgentLoop.Loop.RunTurn | src/lib/agentLoop.ts:163-1490 | a whole turn: context messages, hooks that block the prompt or fail, planning, loop and ending; the table is linked to the rows of the functional turn, of which `TurnOutcome.PlayedEnd` says what they are, and no other project changes |
| AgentLoop.WriteExtends | src/lib/agentLoop.ts:1701-1726 | what the turn has written stays linked to the table: the rows before it, behind them exactly its rows, and no other project changes |
| ChatTurn.RecentIsPaired | src/lib/agentManager.ts:192-193 | the loaded window of a well-paired transcript is well paired if and only if it does not start inside a batch |
| ChatTurn.ShownIsPaired | src/lib/agentManager.ts:192-271 | and so is what the model is shown, the window and the prompt |
| ChatTurn.LoadedRankDiffers | src/lib/agentManager.ts:231-238 | a loaded message is scored for compaction without its tool: the score differs if and only if that is one of the four tools scored specially |
| ChatTurn.TurnIsGood | src/lib/agentManager.ts:185-329 | the rows of a turn are what they should be, whatever the table held before |
| ChatTurn.PlayTurn | src/lib/agentManager.ts:185-329 | from table to table: what is read afterwards is what was read before, the prompt, and exactly the rows of the turn, which are what `TurnOutcome.GoodEnd` says by reason and success of the saves; every other project is read as before |
| ChatTurn.RewindTurns | src/app/api/git/revert/route.ts:35-55 | rewinding to any turn leaves a well-paired transcript of exactly the kept turns, and every other project as it was |
| ChatTurn.StepKeepsTranscript | src/lib/agentManager.ts:185-329 | a turn or rewind leaves a well-paired transcript if and only if it does not end in a saved cut batch that reuses a call id |
| ChatTurn.ChatIsTranscript | src/lib/agentManager.ts:185-329 | over every run of turns and rewinds the table holds a transcript all along if and only if no turn does |
| ChatTurn.ChatLeavesOthers | src/lib/agentManager.ts:185-329 | over every run of turns and rewinds of one project, every other project is read as before |
| ChatMeaning.HistorySays | src/lib/agentManager.ts:192-238 | the history a turn starts from: the last 300 rows read, with role, content, calls and call id, and without the names of tools |
| ChatMeaning.PromptSays | src/lib/agentManager.ts:259-271 | the row of the prompt: the user's text, opening the turn behind the latest |
| ChatMeaning.SaidReadsBack | src/lib/agentLoop.ts:1701-1726 | from end to end: a message recorded as it was said reads back after the turn with its role, calls, call id, tool name and content, an absent content as the empty text |
| ChatTurn.DistinctIsClean | src/lib/agentManager.ts:185-329 | in particular when the model never repeats a call id within a reply |
| Tokenizer.Tokenize | src/lib/astTools.ts:34-284 | the scanner's tokens, with the lines and columns it counts, are those of the recursive definition, every one of which `TokenMeaning.TokensMean` reads off the text |
| Tokenizer.LexTiles | src/lib/astTools.ts:34-284 | the tokens tile the text: in order, non-empty, disjoint, each the slice it claims at the line and column it claims, only white space between |
| Tokenizer.TilesRebuild | src/lib/astTools.ts:34-284 | tokens and white space together are the text |
| Tokenizer.TilesAt | src/lib/astTools.ts:160-186 | every token of a tiled text, and whether it ends past the text: exactly when it is a string that dangles, which is said of the text and the start of the token alone |
| Tokenizer.StringEndsPast | src/lib/astTools.ts:160-186 | the scan of a string runs past the end if and only if every quote behind its start is escaped by an odd run of backslashes, and the end of the text is behind one |
| TokenMeaning.TokensMean | src/lib/astTools.ts:34-284 | every token read off the text and its start alone: its kind by what starts there, in a pattern or a source; its end as the longest run of its characters, the first closing mark, the first unescaped quote or the longest listed operator; its value, its name, its line and column |
| TokenMeaning.WhiteSpace | src/lib/astTools.ts:55-59 | which characters are white space |
| TokenTree.BuildTokenTree | src/lib/astTools.ts:288-343 | the loop over an explicit stack computes the fold `Tree` |
| TokenTree.TreeIsLossless | src/lib/astTools.ts:288-343 | read from left to right the tree is the input without comments, whatever brackets are unmatched |
| TokenTree.TreeIsNested | src/lib/astTools.ts:288-343 | siblings are ordered and disjoint, children lie between their group's brackets |
| TokenTree.TreeIsCleanIffBalanced | src/lib/astTools.ts:288-343 | no bracket is left loose if and only if the input is balanced |
| TreeMeaning.TreeMeans | src/lib/astTools.ts:288-343 | every node of the tree of a text, at any depth: a token that means what the text has at its place, a group from its opening to its closing bracket of the same pair, or a bracket left loose |
| Matcher.MatchSequence | src/lib/astTools.ts:356-471 | the loops with recursion compute the recursive definition of a match; what is bound is the source text from start to end of what it matched (`MatchMeaning.MatchIsInstance`) |
| MatchMeaning.MatchIsInstance | src/lib/astTools.ts:356-471 | soundness: what is matched is an instance of the pattern under the reported bindings, every single metavariable standing for the source text from start to end of the token at its place; for all single metavariables and every sequence metavariable that occurs once or again only where it is bound already, not in last position |
| MatchMeaning.OnceIsConsistent | src/lib/astTools.ts:356-471 | that covers every sequence metavariable that occurs once |
| MatchMeaning.MatchKeeps | src/lib/astTools.ts:392-416 | and a name that is bound keeps its binding through such a pattern |
| MatchMeaning.BindingsGrow | src/lib/astTools.ts:356-471 | a match only adds bindings, and only for names of the pattern |
| MatchMeaning.MatcherFinds | src/lib/astTools.ts:369-459 | completeness: where sequence metavariables inside groups come last, a match is found whenever a prefix of the target is an instance, with as many captures, lexicographically no longer than those of any instance |
| MatchMeaning.TrailingTakesTheRest | src/lib/astTools.ts:369-388 | a sequence metavariable in last position takes all that is left |
| MatchMeaning.LastTakes | src/lib/astTools.ts:369-388 | alone it is bound to the source text from the first to the last of those tokens, and matches if and only if it is not bound to another text already; with none left it is bound to nothing, whatever it was bound to |
| MatchMeaning.InstanceIsMatched | src/lib/astTools.ts:369-388 | a pattern whose sequence metavariables come last matches an instance whole |
| MatchMeaning.MatchesIffInstance | src/lib/astTools.ts:356-471 | for such patterns a match succeeds if and only if some prefix is an instance |
| MatchMeaning.RepeatedNameIsNotChecked | src/lib/astTools.ts:388-416 | a repeated sequence metavariable can be reported with a binding that does not fit both occurrences |
| MatchMeaning.GroupIsNotRetried | src/lib/astTools.ts:442-459 | a group whose first inner match falls short is not retried, although it is an instance |
| StructuralSearch.SearchInTokens | src/lib/astTools.ts:473-510 | the walk reports the recursive definition's matches in its order |
| StructuralSearch.FoundIffSite | src/lib/astTools.ts:480-510 | a match is reported if and only if the pattern matches at some position of the tree, at any depth |
| StructuralSearch.ReportsAreInstances | src/lib/astTools.ts:807-811 | from pattern text and source text to report: every match is a run of sibling tokens that is an instance, with its first and last line, start and end, and the text between those |
| StructuralSearch.Splice | src/lib/astTools.ts:813-830 | the loop applies the edits in descending order of start |
| StructuralSearch.SpliceIsSubstitution | src/lib/astTools.ts:813-830 | for disjoint spans, the last of which may reach past the end by one, that is simultaneous substitution |
| StructuralSearch.NestedEdits | src/lib/astTools.ts:813-830 | for a span with any disjoint spans inside, the outer rewrite comes out right if and only if the inner ones together keep the length, or shorten it with nothing behind |
| StructuralSearch.OverlappingEdits | src/lib/astTools.ts:813-830 | for matches that overlap without nesting, the left rewrite removes the front of the right one, by the length of the overlap |
| MatchSpans.FoundAscends | src/lib/astTools.ts:480-510 | matches are met from left to right: each starts behind the start of the one before, and none is empty |
| MatchSpans.TwoMatches | src/lib/astTools.ts:473-510 | any two matches of one search are apart, nested, or crossing runs of one level of the tree; the last never for a pattern of one element |
| MatchSpans.PairsCross | src/lib/astTools.ts:473-510 | a pattern of two metavariables does have crossing matches in three tokens |
| MatchSpans.LastIsEditedFirst | src/lib/astTools.ts:810-814 | sorting the matches by descending start reverses the order in which they are found |
| MatchSpans.DisjointIffInRow | src/lib/astTools.ts:813-830 | the edits are pairwise disjoint if and only if no match overlaps the next one |
| MatchSpans.OuterMatchWins | src/lib/astTools.ts:813-830 | the same for matches in the order found, sorted and spliced as the code does |
| MatchSpans.ReplaceIsSubstitution | src/lib/astTools.ts:795-830 | from pattern text and source text to rewritten text: if no match overlaps the next one, splicing is simultaneous substitution |
| LspFraming.LspFrameParser.Push | src/lib/lspTools.ts:112-135 | the messages of all complete frames in order, and the rest kept |
| LspFraming.DrainAppend | src/lib/lspTools.ts:107-136 | for arbitrary bytes, feeding two chunks is feeding them joined |
| LspFraming.ChunkingDoesNotMatter | src/lib/lspTools.ts:107-136 | so is any chunking: same frames, same rest |
| LspFraming.EncodedIsFrame | src/lib/lspTools.ts:139-142 | an encoded message is cut off as one frame, whatever its body holds and whatever follows |
| LspFraming.FramingRoundTrip | src/lib/lspTools.ts:107-142 | any chunking of encoded messages gives exactly those messages |
| FrameMeaning.NextSays | src/lib/lspTools.ts:112-135 | one round read off the bytes: at the first blank line, a header without a length is dropped; with one, the first given in it, in decimal figures behind its name in any case and blanks, the body is awaited or cut off |
| FrameMeaning.WaitsForHeader | src/lib/lspTools.ts:114-115 | without a blank line nothing is cut off |
| FrameMeaning.EncodedSays | src/lib/lspTools.ts:139-142 | a message on the wire: the name of the field, the number of bytes in decimal figures without leading zeros, a blank line, the body |
| Utf8.TextSurvivesIffAligned | src/lib/mcpTransports.ts:91-92 | a text decoded chunk by chunk comes out right if and only if no cut falls inside a character |
| Utf8.CutCharacterIsLost | src/lib/mcpTransports.ts:91-92 | any character that is not ASCII comes out wrong when cut behind its first byte |
| Utf8.SameText | src/lib/mcpTransports.ts:91-92 | no two texts have the same UTF-8 bytes, so that a decoder can exist |
| Utf8.DecoderExists | src/lib/mcpTransports.ts:91-92 | there is a decoder as the other statements suppose it |
| Lines.SplitLines | src/lib/jobTools.ts:184-186 | splitting at LF or CRLF gives the pieces between line feeds without their carriage returns |
| Lines.ChunkingDoesNotMatter | src/lib/mcpTransports.ts:91-104 | lines and rest do not depend on the chunks |
| Lines.SplitRebuilds | src/lib/mcpTransports.ts:94-96 | lines and rest are the text |
| StreamMeaning.SplitIsOnly | src/lib/mcpTransports.ts:94-96 | they are the only lines and rest without a line feed that make the text |
| Lines.WrittenIsRead | src/lib/mcpTransports.ts:154-157 | lines written with any mix of LF and CRLF are read back if and only if none ends in a carriage return before a bare LF |
| McpTransports.StdioTransport.OnData | src/lib/mcpTransports.ts:91-104 | the messages of the lines completed by a chunk of bytes, decoded on its own, and the rest kept |
| McpTransports.StdioRoundTrip | src/lib/mcpTransports.ts:91-122 | any chunking of the bytes sent that does not cut a character gives exactly the messages sent |
| McpTransports.CutInsideCharacterShows | src/lib/mcpTransports.ts:91-92 | any other chunking gives other lines |
| StreamMeaning.HeardSays | src/lib/mcpTransports.ts:94-103 | the messages heard are what the lines say, in order: nothing if blank, and else what the text without white space at its ends parses to |
| McpTransports.ReadSseStream | src/lib/mcpTransports.ts:138-171 | the events of the whole text, whatever the chunks, also between CR and LF |
| StreamMeaning.LineTaken | src/lib/mcpTransports.ts:161-167 | what a line does, by its text: a comment nothing, `event` names the event, `data` adds a line to it, any other field nothing; with or without a colon, and less one leading space |
| StreamMeaning.EmptyLineTaken | src/lib/mcpTransports.ts:147-160 | what an empty line does: nothing comes out without data, and else the data joined by line feeds, as `message` if it has no name; in both cases the next event starts from nothing |
| SseRoundTrip.SseRoundTrip | src/lib/mcpTransports.ts:138-171 | events written as lines are the events received if and only if no line ends in a carriage return before a bare LF |
| SseRoundTrip.WithoutCarriageReturns | src/lib/mcpTransports.ts:138-171 | in particular when names and data hold no carriage return |
| SseRoundTrip.StrictIffCompleted | src/lib/mcpTransports.ts:138-171 | for every text, the events delivered are those of the standard if and only if no data line is left behind the last empty line |
| SseRoundTrip.UnfinishedEventIsDelivered | src/lib/mcpTransports.ts:170-170 | events written out, and behind them one without its empty line: it is delivered too, which the standard forbids |
| Csv.ParseDelimited | src/lib/appTools.ts:258-283 | the parser with look-ahead is an automaton that takes one character at a time |
| CsvMeaning.ModeIsParity | src/lib/appTools.ts:258-283 | in any text, also a malformed one, the parser is between quotes if and only if an odd number of quotes stands before |
| CsvMeaning.InsideSays | src/lib/appTools.ts:265-271 | between quotes every other character belongs to the field |
| CsvMeaning.OpeningSays | src/lib/appTools.ts:266-272 | a quote that opens belongs to the field if and only if it stands right behind one that closes |
| CsvMeaning.OutsideSays | src/lib/appTools.ts:273-279 | what every character does outside quotes: delimiters end the field, line ends the row, which is dropped if it is one empty field; the line feed of a CRLF does nothing |
| CsvMeaning.EndSays | src/lib/appTools.ts:281-282 | the parse is the rows that ended, and the row the text ends in unless nothing of it was read |
| Csv.CsvRoundTrip | src/lib/appTools.ts:257-283 | any mix of quoted and legal bare fields, row ends LF, CRLF or CR, last row ended or not, is read back, less rows that are one empty field |
| Csv.RowsAreKept | src/lib/appTools.ts:277-277 | no row is lost if and only if none is a single empty field |
| Delivery.CoversMore | src/lib/jobTools.ts:284-291 | reporting what is dropped and then showing what follows extends the coverage without gap or repetition |
| JobOutput.Job.PushLine | src/lib/jobTools.ts:129-136 | the new state of the ring and its counters |
| JobOutput.Job.OnData | src/lib/jobTools.ts:181-188 | every line completed by a chunk of bytes, decoded on its own, is pushed, the unfinished one kept |
| JobOutput.Job.Finish | src/lib/jobTools.ts:196-206 | the unfinished line and the error are pushed, and the job ends; a second end changes nothing |
| JobOutput.Job.Output | src/lib/jobTools.ts:280-293 | the report with its text, cut at 8000 characters, and the new cursor, by default behind the last line handed out |
| JobOutput.DisplayedInFull | src/lib/jobTools.ts:286-288 | the lines handed out are all displayed if and only if they fit; a cursor moves past them either way |
| JobOutput.StartIsSound | src/lib/jobTools.ts:170-176 | a fresh job satisfies the invariant of runs |
| JobOutput.RunKeeps | src/lib/jobTools.ts:129-291 | after any interleaving: the ring holds the last 2000 lines under their numbers, the log is the lines of the output, and what was shown or counted as dropped covers lines 1 to cursor exactly once, in order |
| JobOutput.NothingDropped | src/lib/jobTools.ts:284-290 | while the log fits the ring, what was shown is the log up to the cursor |
| JobOutput.ReadsAdvance | src/lib/jobTools.ts:284-290 | a default read shows something if and only if the cursor is not at the end |
| JobOutput.ReadBehind | src/lib/jobTools.ts:280-290 | a read that names a line leaves a gap if and only if it skips ahead of the cursor, and overtakes the log if and only if it names a line beyond it |
| JobOutput.ReportAccounts | src/lib/jobTools.ts:280-291 | a report accounts for every line behind the one named: dropped, shown, or still to come; at most 400 are shown, and fewer only if none is left |
| JobOutput.EndSays | src/lib/jobTools.ts:196-206 | what the log is when the job has ended: the lines of its output, the unfinished one, and the error; and its exit code and status |
| JobOutput.EndIsFinal | src/lib/jobTools.ts:196-224 | an ended job keeps status and exit code, a killed one stays killed |
| BrowserConsole.Session.Push | src/lib/browserSession.ts:148-152 | the ring keeps the newest 200 entries |
| BrowserConsole.Session.Drain | src/lib/browserSession.ts:445-459 | unread entries are shown or counted as dropped, and a marking read covers all of them, each once |
| BrowserConsole.FreshIsUnread | src/lib/browserSession.ts:449-452 | the fresh entries are exactly the unread ones that the ring still holds |
| BrowserConsole.FilteredSays | src/lib/browserSession.ts:453-459 | the entries of a level are exactly those, in order: all, errors, or errors and warnings |
| Broadcast.ViewHoldsTheLog | src/lib/agentManager.ts:84-100 | replay, marker and live part together are the whole log, and the marker says where the replay ended |
| Broadcast.EmitKeeps | src/lib/agentManager.ts:153-173 | after an event every stream still written to has seen the log with its marker at the place it joined |
| Broadcast.RunningAgent.Subscribe | src/lib/agentManager.ts:84-100 | a late subscriber has received the events so far and the marker |
| Broadcast.RunningAgent.Emit | src/lib/agentManager.ts:153-173 | exactly the open streams get the event, and exactly they stay subscribed |
| Broadcast.RunningAgent.CancelStream | src/lib/agentManager.ts:100-105 | a client that goes away keeps what it received, gets nothing more, and no other stream notices |
| Broadcast.RunningAgent.BreakStream | src/lib/agentManager.ts:166-172 | a connection may break without notice at any time: nothing else changes until the next event |
| Broadcast.RunningAgent.End | src/lib/agentManager.ts:333-344 | every open stream is closed, holding the log up to the end |
| Broadcast.RunningAgent.DrainQueuedMessages | src/lib/agentManager.ts:324-324 | queued messages are taken in the order sent, none twice |
| Broadcast.RunningAgent.WaitForUserInput | src/lib/agentManager.ts:275-292 | a new question waits, unanswered, in the place of any earlier one |
| Broadcast.RunningAgent.Settle | src/lib/agentManager.ts:278-286 | only the first answer to a question counts |
| Broadcast.RunningAgent.ProvideUserInput | src/lib/agentManager.ts:54-61 | the answer goes to the question that waits, if one does, and no answer ever changes |
| Broadcast.RunningAgent.Cancel | src/lib/agentManager.ts:282-292 | the first cancellation answers every open question and no other |
| AgentManager.Manager.StartAgent | src/lib/agentManager.ts:109-138 | at most one agent runs per project: a second start joins the first |
| AgentManager.Manager.SubscribeClient | src/lib/agentManager.ts:68-106 | joins the running agent; with none there is nothing to read |
| AgentManager.Manager.QueueUserMessage | src/lib/agentManager.ts:46-51 | accepted if and only if an agent runs, behind what was queued before |
| AgentManager.Manager.ProvideUserInput | src/lib/agentManager.ts:54-61 | accepted if and only if a question waits in the project's agent; no other agent notices |
| AgentManager.Manager.Finish | src/lib/agentManager.ts:333-344 | every stream still open is closed with the whole log, and the project is free |
| RateLimit.RateLimiter.Limit | src/proxy.ts:12-42 | decision, new buckets and retry time |
| RateLimit.CleanupIsInvisible | src/proxy.ts:19-24 | with a clock that does not go back, removing expired buckets changes no decision |
| RateLimit.CleanupShowsWhenClockGoesBack | src/proxy.ts:19-24 | with one that does, it changes the decision on a second request if and only if it removes a used-up bucket of another key that is live again by then |
| RateLimit.TwiceTheLimit | src/proxy.ts:12-42 | at most twice the limit in any closed interval of a window's length, whatever other keys do |
| RateLimit.WindowAllowsTheLimit | src/proxy.ts:26-41 | a window allows exactly the limit, or as many requests as there are |
| RateLimit.RetryAfterIsEnough | src/proxy.ts:33-38 | waiting as told suffices if and only if the window does not end on exactly that millisecond |
| RateLimit.RouteKey | src/proxy.ts:203-206 | the longest route that the path starts with |
| RateLimit.RouteOrderIsIrrelevant | src/proxy.ts:203-207 | the choice does not depend on the order of the route table |
| RateLimit.KeyTellsItsBucket | src/proxy.ts:213-217 | no two of client, route and read flag share a bucket |
| PathWalk.BuildTree | src/lib/file-utils.ts:11-51 | walking path by path through the arrays of children, pushing what is missing, and sorting computes the recursive definition |
| PathWalk.Builder.AddPath | src/lib/file-utils.ts:20-40 | the walk of one path, which appends in place to the array it has come to, does to the tree what inserting the path does |
| PathWalk.AddedIsInsert | src/lib/file-utils.ts:20-40 | a walk changes one array of children at most, and the tree below it only: no other subtree shares an array with it |
| PathWalk.SiblingsAreApart | src/lib/file-utils.ts:30-37 | the subtrees of two siblings have no array in common |
| PathTree.TreeOfPaths | src/lib/file-utils.ts:11-51 | the routes of the tree are exactly the non-empty segment prefixes of the paths, each of the kind its first path gives it; sibling names are unique, full paths the joined names, every level in order |
| PathTree.BuiltKind | src/lib/file-utils.ts:20-40 | before sorting: which routes there are, and of what kind |
| PathTree.FullPathsAreDistinct | src/lib/file-utils.ts:30-34 | every full path occurs once |
| PathTree.SegmentsOfJoin | src/lib/file-utils.ts:15-21 | a full path is read back as its segments |
| PathTree.SegmentsSay | src/lib/file-utils.ts:15-21 | what the segments of a path are: either slash parts it, a name is one segment, empty ones are none |
| PathTree.SortKeepsKind | src/lib/file-utils.ts:43-50 | sorting keeps every route and its kind |
| PathTree.SortIsStable | src/lib/file-utils.ts:43-50 | of two siblings the earlier one stays in front, unless kind or name put it behind |
| PathTree.LevelFirst | src/lib/file-utils.ts:43-50 | sorting a level before the children of its nodes, or after them, comes to the same |

## Left out

- Object identity: message objects are numbered cells rather than heap objects, since the loop tells them apart
  only by membership in a weak set and by the references it keeps to placeholders.
- An absent `tool_calls` field is an empty list of calls; row ids are left out, a row is told by its contents.
- JSON encoding of stored contents, and UTF-16 code units: texts are sequences of characters, and token offsets
  count those. What a decoder makes of bytes that are no text is not modelled, only that it shows.
- Numbers: a content length is an unbounded integer, token estimates are exact, compaction ratios are reals.
- Whether one of the five challenges applies to a reply (calls written as text, unverified or failed work, stop
  hooks) is an input; the heuristics that decide on it are not modelled, their order and limits are.
- The wording of the budget warning, of reminders and of what a challenge asks for are inputs.
- The context window learned from a rejected prompt: its size does not change within a turn.
- Exceptions thrown by the event stream itself, or between the last result of a batch and its save.
- Hooks, permission rules, argument validation, checkpoints, usage tracking, automatic memory and the events
  emitted along the way: they do not touch the history.
- Paging of `getByProject` (limit 500, offset): reading returns all rows of a project.
- Writers to the messages table other than the running turn, and a prompt whose last message is not the user's.
- MatchMeaning.MatchIsInstance: a sequence metavariable that occurs again unbound, or in last position, is not
  covered; whether it is captured consistently depends on which shorter captures the target allows, so the
  condition on the pattern is sufficient and not necessary.
- MatchMeaning.MatchesIffInstance: covers patterns whose sequence metavariables inside groups come last, since
  the matcher does not go back into a group; whether it would have to depends on the target.
- StructuralSearch.SpliceIsSubstitution: covers disjoint spans; a span with disjoint spans inside, and two that
  cross, have lemmas of their own, deeper nests and chains of crossing spans do not.
- `substituteTemplate` and its indentation: a rewrite is some text.
- JobOutput.Job.Output: without the time-out of the wait, the status line and elapsed times.
- JobOutput.RunKeeps: reads do not overlap; a read that waits is one whose output arrives before it.
- BrowserConsole.Session.Drain: kind, location and time of entries.
- Concurrent `startJob` calls, the `LspClient` table of pending requests, docker and process handling.
- AgentManager.Manager.StartAgent: without the workspace lock and what the background task does beyond
  emitting, draining, asking and ending.
- PathWalk.Builder.AddPath: arrays of children are numbered, and entries refer to them by number, rather than
  heap objects.
- The user interface, git, deployment, authentication, origin checks and everything that calls out.
