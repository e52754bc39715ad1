# Verification of the agent client's state machines

A Dafny model of the parts of the Go client that are more than transport, and proofs of what they promise.

* **Subtree walk** (`TreeWalk`, `TreeConfluence`, `TreeSafety`, `TreeBusy`, `TreeAnswer`). `ChildrenTree` is a transition system: one
  task per goroutine, any task steps next, the server is a fixed function from session to listing that may be cyclic.
  Every schedule keeps the bounds, ends, and, when the whole unfolding fits, returns one and the same tree. The busy answer
  is related to reachability in the server graph, and from there to the pages the server returned.
* **Cursor walk** (`Paging`, `Resolve`). `pageSeq` against any server, and against a correct one; `ResolveAgent` on top.
* **Event-to-block fold** (`Fold`, `BlockState`, `FoldText`, `FoldReasoning`, `FoldBlocks`, `FoldReports`). `Fold.dfy` states one event's
  effect as a function; the class in `BlockState.dfy` is `blockState` with its fields and loops, proved to step exactly so
  for a reader that may stop at any yield. The other four prove conservation, refinement, attribution and complete reporting of that
  machine against the event history.
* **Transforms and queries** (`Transforms`, `TransformMeaning`, `Query`). Each transform as its loop, any composition of them as a pipe
  that pushes step by step, and what they mean; `Query` and `QueryStream` on top.
* **Turn tracker and turn loop** (`Tracker`, `TurnLoop`, `TurnSafety`, `TurnOutcome`, `TurnHistory`, `TurnRun`, `TurnStream`). The tracker refines a reading of the whole
  history. The loop is a function of the events and of what hooks, tools and posts answer, with a log of what it does
  outside, and `TurnHistory.dfy` derives that log and all the reader is told from the events alone; `TurnRun.dfy` is the object and the loop as the source writes them, and
  `TurnStream.dfy` feeds it from the read loop.
* **Stream reader and idle monitor** (`StreamReader`, `StreamMeaning`, `StreamText`, `StreamEndings`, `IdleMonitor`, `IdleRace`). Lines to frames
  to events, with a round trip from written frames, and a timer that
  re-arms itself, first with its callback and resume each in one piece and then with their loads and stores interleaved.
* **Error text** (`Sanitize`).

Conventions. A Go `iter.Seq2` is a sequence of steps (`Reading.dfy`), and a reader that breaks out of its loop is one that
refuses some yield; "seen" is what reached it. Strings are sequences of runes, because every cut the code makes is
at a one-byte character; where the code counts bytes the model does too (`Text.Size`). Anything the client does not
compute itself is a parameter: the server's replies, the JSON codec, the clock, hooks, tools and the results of posts.

Where the documentation and the code differ, the code is modelled. The comment on the idle rule says the lifecycle rule's
sessions never see a usable idle edge, but the code takes one under either rule. The comment on `flushTextChunks` says a chunk
never ends mid-word, but an unbroken run at least as long as the threshold is flushed whole (`FoldText.MidWordExactly`).
The limit on the names `ResolveAgent` lists is called a limit in runes, but the code counts bytes.
The comment on the idle monitor promises a bound on silence; how exact that is depends on the callback and on `resume` running
in one piece (`IdleRace`).

`dafny verify dfyconfig.toml` checks the whole project.

## Model

| member | source | states |
|---|---|---|
| `TreeWalk.NewJob` | tree.go:68-79 | A walk under caller options starts at the root named; each bound is the caller's when positive and otherwise 3 levels, 4 requests at once and 1000 nodes; each listing takes the requests its drain makes, between one and ten thousand |
| `TreeAnswer.ListingIsTheServers` | tree.go:171-180 | A listing is exactly the rows of the pages its drain got back, the last of which says there is no more; otherwise it is unreadable, for the reason the server gave or the one its last page forces |
| `TreeAnswer.FailedListingIsUnreadable` | tree.go:171-194 | A listing whose request fails is unreadable with that reason, never an empty one |
| `TreeAnswer.CorrectListingIsWhole` | tree.go:171-180 | Against a correct pager a listing within the page cap is all its children in order, and one past it is refused as too long |
| `TreeWalk.StepInv` | tree.go:158-225 | Every step of every goroutine of the concurrent walk, in any interleaving, keeps the invariant: nodes agree with the server graph, the admitted count is the shared counter, slots held are within the cap, firstErr is some node's error and exists iff one does |
| `TreeConfluence.Confluence` | tree.go:133-232 | If the sequential depth-bounded, per-path-cycle-cut unfolding of the server graph walks at most MaxNodes sessions, no schedule ever has an admission refused and every finished schedule returns exactly that unfolding: child order, Repeated, Truncated and Err included |
| `TreeConfluence.RefusedPastTheCeiling` | tree.go:158-166 | The other half: when the unfolding walks more than MaxNodes sessions, every finished walk is full, has refused an admission and shows a truncated node |
| `TreeSafety.WalkBounds` | tree.go:142-225 | At every moment of every schedule: walked nodes equal the counter and never pass MaxNodes, at most Concurrency requests are in flight, no node is deeper than MaxDepth, ids on a walked path are distinct, and firstErr is set iff some node has Err |
| `TreeSafety.MarksAreTrue` | tree.go:101-114 | At every moment of every schedule: a node is Repeated iff its session already stands between it and the root, Err is its own listing's failure, and Truncated means it has children at the depth bound or the ceiling was reached |
| `TreeSafety.FirstErrIsRecorded` | tree.go:146-154 | An error is recorded at the step that fails the first listing, and is that node's |
| `TreeSafety.FirstErrStays` | tree.go:146-154 | Over any continuation of any schedule the first error recorded stays the one returned |
| `TreeSafety.StepDescends` | tree.go:185-225 | Each step of any goroutine strictly lowers (admissions left, work left of the pending goroutines) |
| `TreeSafety.EveryScheduleEnds` | tree.go:185-229 | No scheduler, however it picks, can keep the walk going for ever |
| `TreeSafety.NeverStuck` | list.go:474-487 | While any goroutine is unfinished some goroutine can step: the request gate never deadlocks the walk |
| `TreeBusy.Visit` | tree.go:273-288 | The visit answers busy iff some non-root node of the tree carries a busy summary and incomplete iff some node is truncated or failed |
| `TreeBusy.SubtreeBusy` | tree.go:263-295 | busy iff some non-root node is busy; complete iff busy or nothing was hidden |
| `TreeBusy.ReturnedNodes` | tree.go:205-231 | The linked tree handed back holds exactly the records the goroutines wrote |
| `TreeBusy.BusyIsSound` | tree.go:245-295 | At any moment of any schedule, a busy node means some session reachable from the root lists a busy child |
| `TreeBusy.QuietIsConclusive` | tree.go:199-225 | Not busy and complete implies that every session reachable from the root, cycles and shared children included, has a readable listing with no busy summary in it |
| `TreeAnswer.BusyMeansWorking` | tree.go:34-42 | A child counts as busy iff its live flag says so, or there is none and its task has a status other than completed, failed and cancelled |
| `TreeAnswer.QuietIsTrueOfTheServer` | tree.go:245-295 | Under any options and schedule, not busy and complete implies that of every session the server's pages lead to from the root, the last page came back and no row on any page is a working session |
| `TreeAnswer.BusyIsTrueOfTheServer` | tree.go:245-295 | Busy implies that the server's pages lead from the root to a page with a working session on it, however much went unread |
| `Paging.PageSeq` | list.go:401-462 | What a reader of the page walk sees is a prefix of the whole walk's steps, and the requests made are a prefix of the whole walk's requests that stops at the page the reader refused a row in |
| `Paging.WalkIsBounded` | list.go:401-462 | Against any server: between one and ten thousand requests, cursors pairwise distinct, each after the first taken from the page before it, quiet end iff the last page said there was no more |
| `Paging.EndingIsExplained` | list.go:401-462 | A walk ends on the failure of a request or on its last page, and for exactly the reason that page calls for: no more; else empty, or without a cursor, or with one already followed; else ten thousand requests |
| `Paging.CorrectPagerIsReadWhole` | list.go:401-462 | Against a pager that serves a list with distinct ids, in pages of any varying size between least and most, a list within the cap is yielded whole, once each, in order, and ends quietly |
| `Paging.OversizedListingIsRefused` | list.go:370-374 | A list that cannot fit the page cap ends with the refusal after a proper prefix, never as a finished listing |
| `Resolve.ResolveAgent` | session.go:394-436 | The first listed agent of that name, or the listing's own error, whichever comes first; otherwise not-registered only after the whole listing was read, listing those of its names, in order, that fit the caps, flagged truncated iff not all |
| `Resolve.PickedFits` | session.go:399-425 | The names listed are a subsequence of those there are, at most 20 and 400 bytes, and all of them iff all fit |
| `Resolve.RenderedShowsEach` | session.go:418-425 | Each name is offered with its control runs spaced and trimmed, cut at 60 runes with dots if longer |
| `Resolve.RefusalSawEveryPage` | session.go:409-435 | Over a correct pager, the listing the search reads is all agents of all pages, so a refusal means none has that name |
| `Sanitize.SanitizeForError` | errors.go:234-261 | The rune loop computes the loop-free form: runs of controls to one space, capped, trimmed, with an ellipsis when cut; although the buffer can hold one space more than max |
| `Sanitize.SanitizerBound` | errors.go:234-261 | For every string and max: at most max runes plus an optional ellipsis, no C0, DEL or C1, and the non-space text is a prefix of the input's non-space non-control text, all of it when nothing was cut |
| `Sanitize.RunsAreSpaced` | errors.go:236-260 | Before the cap the text is exactly the input's maximal control-free runs with one space between each two: a stripped control never joins two words, and nothing else changes |
| `BlockFold.BlockState.constructor` | blockstream.go:114-123 | A fold starts in the machine's initial state with nothing offered |
| `BlockFold.BlockState.Put` | blockstream.go:157-168 | One more block is offered; the reader has seen exactly the prefix of the offer it did not stop before |
| `BlockFold.BlockState.AnnounceResponse` | blockstream.go:240-246 | Announces a response once: state and offer change as the machine says |
| `BlockFold.BlockState.StartResponse` | blockstream.go:256-268 | Records liveness, keeps a name already known, reopens the turn, re-attributes, then announces |
| `BlockFold.BlockState.RecomputeAttribution` | blockstream.go:287-297 | Credit goes to the one live response or to nobody |
| `BlockFold.BlockState.EndResponse` | blockstream.go:303-316 | Text, then reasoning, then the end, all under the ending response's own context; then it is no longer live and the iteration is counted |
| `BlockFold.BlockState.BeginReasoning` | blockstream.go:318-325 | Opens a section once |
| `BlockFold.BlockState.AppendReasoning` | blockstream.go:331-364 | A delta moves the section and offers chunks exactly as splitting the buffered text on newlines would |
| `BlockFold.BlockState.FlushLines` | blockstream.go:347-363 | The incremental scan: offers every complete non-blank line of the buffer and leaves the remainder |
| `BlockFold.BlockState.CloseReasoning` | blockstream.go:371-394 | Shows the trimmed remainder, or a card when the section never chunked, and resets |
| `BlockFold.BlockState.AppendText` | blockstream.go:400-408 | Closes reasoning, buffers and flushes |
| `BlockFold.BlockState.FlushTextChunks` | blockstream.go:414-428 | The flush loop ends where the two-cut form says, having offered its chunks in order |
| `BlockFold.BlockState.CloseText` | blockstream.go:431-446 | Offers what is buffered and the finished section, and empties both |
| `BlockFold.BlockState.FoldItem` | blockstream.go:453-466 | Routes an item by its type: state and offer as the machine says |
| `BlockFold.BlockState.FoldToolCall` | blockstream.go:468-496 | Draws a call once, with the record first kept for its id |
| `BlockFold.BlockState.OpenGroup` | blockstream.go:493-495 | Closes reasoning and text, then draws the call |
| `BlockFold.BlockState.FoldToolResult` | blockstream.go:498-522 | Draws a result once, from the call's record when there is one |
| `BlockFold.BlockState.FoldMessage` | blockstream.go:529-543 | A message's own text replaces the deltas' as the finished section; without text the section just closes |
| `BlockFold.BlockState.FoldEvent` | blockstream.go:178-234 | One event takes the object to the machine's next state and offers exactly the machine's blocks, in order |
| `BlockFold.BlockState.Flush` | blockstream.go:149-152 | Salvage: offers what an unfinished response had accumulated |
| `BlockFold.Blocks` | blockstream.go:109-154 | For any threshold setting, stopping is a prefix: a reader sees a prefix of all the run's blocks, salvage before the error that ended it, even when it stops in the middle of one event's blocks; and no event is taken after the one whose blocks were refused |
| `FoldText.TextIsConserved` | blockstream.go:400-446 | After every event of every run: chunk text so far plus the buffer equals the deltas so far; the buffer is below the threshold in runes; the section so far is its deltas; the finished sections are those the events describe |
| `FoldText.StatementIsItsParts` | blockstream.go:587-600 | What a message states is its output_text parts and no others, one after the other |
| `FoldText.FlushFacts` | blockstream.go:414-428 | A flush cuts at most twice, loses nothing, leaves less than the threshold, and cuts nothing iff below it |
| `FoldText.FlushKeepsWords` | blockstream.go:410-428 | Every chunk ends at a word boundary, or is the last run of the buffer, unbroken and flushed whole |
| `FoldText.MidWordExactly` | blockstream.go:410-428 | The documented promise that no chunk ends mid-word fails exactly when the run after the last boundary, or the whole buffer when that is none or its first rune, is at least the threshold long and ends in no boundary |
| `FoldText.DeltaCutsMidWord` | blockstream.go:400-428 | In a run, a delta shows a chunk ending mid-word iff the buffer with the delta added has such a run |
| `FoldText.LongWordIsCut` | blockstream.go:417-423 | Every unbroken word at least as long as the threshold is flushed whole |
| `FoldText.FourLettersAreCut` | blockstream.go:417-423 | A concrete failing buffer: four letters against a threshold of three |
| `FoldText.NewCallIsFirst` | blockstream.go:488-491 | The seen-set decides 'new' exactly as the event history does |
| `FoldText.EndComesLast` | blockstream.go:303-316 | At every end block the buffer is empty and all the deltas have been shown, and the end is the event's last block |
| `FoldText.EndedMeansTurnOver` | blockstream.go:265-265 | The ended flag holds iff the last word was a terminal with no start of a named response since |
| `FoldText.SalvageIsComplete` | blockstream.go:143-152 | At stream end everything is emitted but the buffer, and that only when the turn was already over; every running section is reported |
| `FoldText.LateTextIsLost` | blockstream.go:143-152 | Exactly the gap the flag leaves: text below the threshold after any terminal is never shown |
| `FoldText.OverlapLosesText` | blockstream.go:265-313 | A concrete run of two overlapping responses that loses the survivor's text |
| `FoldReasoning.CutsDoNotMatter` | blockstream.go:331-364 | Two deltas in a row leave the same state and the same blocks as their concatenation |
| `FoldReasoning.OnlyTheTextMatters` | blockstream.go:331-364 | However a text is cut into deltas, the section ends in the same state having shown the same blocks |
| `FoldReasoning.NoChunksMeansBlank` | blockstream.go:358-393 | A section shows no chunk iff its whole text is white space |
| `FoldReasoning.LinesAreTheText` | blockstream.go:347-363 | Splitting on newlines loses and reorders nothing: the lines hold no newline and rejoin, with the remainder, to the text |
| `FoldReasoning.OnlyBlanksAreDropped` | blockstream.go:358-362 | The lines dropped are exactly the blank ones |
| `FoldReasoning.ReasoningIsRefined` | blockstream.go:331-394 | Over every run, chunks shown are those of splitting each section on newlines, blank lines dropped and the last remainder trimmed; a ReasoningBlock appears iff the section is non-empty and all white space, with its text by channel |
| `FoldReasoning.SalvageFinishesReasoning` | blockstream.go:143-152 | To the end of the stream, salvage included: a turn that was not over also shows the running section's chunks to its end, or its ReasoningBlock iff it is non-empty and all white space; a turn that was over shows no more |
| `FoldBlocks.AttributionRefinesHistory` | blockstream.go:256-316 | After every event, credit is to the one response live in the event history by its latest non-empty name, and to nobody otherwise, so it recovers after any overlap; iteration counts terminals |
| `FoldBlocks.BlocksAreCredited` | blockstream.go:143-316 | Every block of a run, salvage included, carries the credit of the history at the event that emitted it, or of the whole history if salvaged, and its iteration equals the ends emitted before it |
| `FoldBlocks.ReportedOnce` | blockstream.go:240-522 | Per id, in everything a run emits, salvage included: one start block iff some event announced the response, one ToolGroup iff a call named it, one result block iff a result did, however often each is redelivered |
| `FoldBlocks.ResultMatchesCall` | blockstream.go:468-522 | A call and its result agree on name, arguments, summary and agent, whichever came first |
| `FoldBlocks.RecordIsTheFirst` | blockstream.go:468-513 | The record kept for a call id is what the first item, call or result, to name it says, and there is one iff some item did |
| `FoldBlocks.GroupShowsTheFirst` | blockstream.go:468-496 | A call is drawn as the first item that named it describes it |
| `FoldBlocks.OutputIsTheFirstResult` | blockstream.go:498-522 | A result block shows the output of the first result for its call, whatever is delivered later |
| `FoldReports.ReportsAreTheEvents` | blockstream.go:178-234 | In everything a run emits, salvage included, the starts with their models, ends, reasoning sections opened, calls, results, native items, errors, retries, compactions and files are exactly those the events report, field by field and in order |
| `FoldReports.SectionsCloseInOrder` | blockstream.go:303-495 | A terminal shows the answer's rest, then the thought's, then the end; a new call the thought's, then the answer's, then the call; text shows the thought's rest before itself |
| `FoldReports.DonesAreMarked` | blockstream.go:431-446 | A finished text is marked as holding code iff three backticks stand together somewhere in it |
| `Transforms.Filter` | transform.go:37-129 | The filter loops show a prefix of what the filter yields: every error, and the blocks wanted |
| `Transforms.SkipIntermediateEndsLoop` | transform.go:144-178 | The loop over held ends shows a prefix of the transform's whole output |
| `Transforms.MergeTextLoop` | transform.go:193-247 | The loop over accumulated text shows a prefix of the transform's whole output |
| `Transforms.PipeIsPiped` | transform.go:20-25 | Running all stages step by step and then ending them in order says what composing them says |
| `Transforms.Pipe.Push` | transform.go:20-25 | One step runs down the stages depth first; a refusal runs back up and the earlier stages are untouched |
| `Transforms.Pipe.PushAll` | transform.go:20-25 | So does a sequence of steps, taken up to the one whose yields are refused |
| `Transforms.Pipe.Finish` | transform.go:173-177 | The stages end first to last, each one's last words passing through the rest |
| `Transforms.ReadPiped` | transform.go:20-25 | For every composition of transforms, a reader that stops anywhere sees exactly a prefix of the composed output, with nothing after the refusal, and no step is taken after the one that led to it |
| `TransformMeaning.FaultsPass` | transform.go:34-36 | No composition of transforms drops an error or reorders two |
| `TransformMeaning.FiltersPartition` | transform.go:68-91 | SkipBlocks and OnlyBlocks of the same predicates share a sequence out between them, as multisets; errors go to both |
| `TransformMeaning.FilterSelects` | transform.go:37-129 | SkipBlocks yields exactly the blocks no predicate selects, OnlyBlocks those some predicate does, OnlyAgent those of the agent named, each with every error and in order |
| `TransformMeaning.NoAgentKeepsAll` | transform.go:102-129 | An empty agent name filters nothing |
| `TransformMeaning.SkippedEnds` | transform.go:144-178 | The output is every step but the ends, in order, then the final end if the last block, errors aside, is one |
| `TransformMeaning.EndSurvives` | transform.go:161-168 | An end comes out iff the last block is an end, and then only that one |
| `TransformMeaning.LateBlockCostsTheEnd` | transform.go:161-168 | A concrete sequence that loses its only end to a later file |
| `TransformMeaning.SkipIsIdempotent` | transform.go:144-178 | Skipping intermediate ends twice is skipping them once |
| `TransformMeaning.MergeConserves` | transform.go:193-247 | Blocks that are not finished texts pass untouched and in order; the concatenated text is unchanged |
| `TransformMeaning.ReportedByTheEnd` | transform.go:225-233 | By each end, all text before it has been reported before it |
| `TransformMeaning.MergeIsTidy` | transform.go:193-247 | Every finished text is non-empty and stands right before an end of its own context, or last |
| `TransformMeaning.MergeIsIdempotent` | transform.go:193-247 | Merging twice is merging once |
| `TransformMeaning.QueryFolds` | query.go:139-143 | Skipping then merging is one closed form: the other steps in order, the whole answer at most once, the final end if there is one |
| `Query.QueryPreservesMeaning` | query.go:31-57 | The composition keeps the concatenated answer, the files and all other non-end blocks in order; at most one finished text, last or just before the final end |
| `Query.FaultStays` | query.go:45-47 | An error keeps its place among the blocks that pass |
| `Query.Query` | query.go:39-57 | Without an error, the joined text and all files of the turn; with one, the files before it and no text; the turn is read up to its first error and no further |
| `Query.AnswerOfTurn` | query.go:39-57 | The answer of a turn is what its message items state, or else what its deltas add up to, section by section |
| `Query.FilesOfTurn` | query.go:16-23 | The files of a turn are those its events report, by id and name, in order, and no others |
| `Query.QueryStream.Text` | query.go:85-110 | A second read drives nothing and is told so; the first shows a prefix of the chunks and errors and collects the files of the steps it read, all of them unless the reader stopped |
| `Tracker.TurnTracker.constructor` | turn.go:117-123 | A tracker starts unanchored and undecided |
| `Tracker.TurnTracker.FailWith` | turn.go:163-167 | Only the first failure is kept |
| `Tracker.TurnTracker.Cross` | turn.go:176-195 | The boundary is crossed by an echo of the anchor by either identifier, never unanchored |
| `Tracker.TurnTracker.StatusEdge` | turn.go:206-230 | Updates the tracker as the pure observer does |
| `Tracker.TurnTracker.FailedEdge` | turn.go:239-247 | Updates the tracker as the pure observer does |
| `Tracker.TurnTracker.ResponseTerminal` | turn.go:265-275 | Updates the tracker as the pure observer does |
| `Tracker.TurnTracker.Superseded` | turn.go:284-293 | Updates the tracker as the pure observer does |
| `Tracker.TurnTracker.Advance` | chat.go:302-332 | One event moves the object as the pure observer says |
| `Tracker.CrossedMeansEchoed` | turn.go:176-195 | The crossed flag holds iff the history holds an echo |
| `Tracker.AnchorItemIsTheEchos` | turn.go:176-195 | The item kept as this turn's is the one its latest echo names, whichever identifier matched |
| `Tracker.EndedMeansSomeEnder` | turn.go:160-160 | The tracker has ended iff some event of the history ends the turn: this session's supersede, a failed edge for this session or none that is nameless or names a later response after the echo, this session's idle edge after the echo (under either rule), or under the lifecycle rule a terminal after the echo |
| `Tracker.FirstEnderDecides` | turn.go:139-293 | It ends at exactly the least such event, with the id, failed id and failure that event names, never both an id and a failure |
| `Tracker.FirstEnderSays` | turn.go:206-293 | Kind by kind: only a completed response or an idle edge is an answer, with its own id; a failed, cancelled or incomplete response, a failed edge and a supersede keep their own reason and the response they name |
| `Tracker.FirstFailureStays` | turn.go:163-167 | Over any run the first failure recorded stays the one reported |
| `Tracker.AnswerIsOurs` | turn.go:206-275 | An answer id was not there before the prompt and came after the echo |
| `Tracker.UnechoedTurnOnlyFails` | turn.go:176-247 | While the prompt is not echoed there is no answer and no failed response, and the turn has failed iff the history holds this session's supersede or a failed edge naming no response |
| `Tracker.OthersChangeNothing` | turn.go:139-275 | Erasing all events of other sessions and of earlier responses changes nothing |
| `TurnSafety.ToolsRunAtMostOnce` | chat.go:222-515 | Over every run: no trimmed call id runs twice, runs equal the size of dispatched and stay within a positive budget, each run is followed at once by the one post of its output even when hooks panic or the reader has stopped, and the prompt went out once |
| `TurnSafety.ResponsesStartOnce` | chat.go:397-412 | OnResponseStart fires at most once per response and no named response ends unannounced |
| `TurnSafety.ApprovalsAreTheCallers` | chat.go:526-572 | Every approval request acted on is answered exactly once, to the session it names or else the one read, and accepted only if the caller's hook accepted; a panic declines |
| `TurnLoop.ToolBudget` | chat.go:222-231 | Only a negative setting removes the cap, a positive one is the cap, and none is 1024 |
| `TurnOutcome.OnlyAskedCallsRun` | chat.go:420-474 | A call that ran was asked of this client by a well-named action_required item the loop acted on |
| `TurnOutcome.AskedCallRunsOrEndsTheLoop` | chat.go:449-473 | A call asked for has been run, or it was the first over the budget: then nothing is done for it, the budget error is reported and the loop reads no further |
| `TurnOutcome.StoppedStays` | chat.go:199-211 | A loop that stopped does, says and decides nothing more |
| `TurnOutcome.QuietEndMeansSuccess` | chat.go:163-218 | A reader who never stopped hears no fatal error iff the turn ended without a failure, and then the last event heard is this session's idle edge or a completion naming a non-prior response, after the prompt's echo |
| `TurnOutcome.LoopStopsAtTheFirstEnder` | chat.go:199-211 | The loop stops at the first event heard that ends the turn, with the verdict it names: an id or a failure, never both |
| `TurnHistory.ActIsDue` | chat.go:336-515 | While its record agrees with the history, acting on an event does outside and tells exactly what is due for it: hooks, runs, posts, verdicts, and each panic, duplicate, overspent budget, lost output or failed tool |
| `TurnHistory.TurnIsItsHistory` | chat.go:190-212 | Over every run, the log of what was done outside and the whole transcript the reader is offered are what the events acted on call for, in order, and what is said last fits how the loop stopped |
| `TurnHistory.EveryEventIsHeard` | chat.go:190-212 | The events offered are the events of the inputs, in order, up to the one the loop stopped at, and all of them while it listens |
| `TurnHistory.LogSays` | chat.go:397-515 | Of a turn acted on to its last input: each response is started once, when first spoken of, an end fires once per terminal, and the calls run are the first ones asked for within the budget |
| `TurnHistory.ResponseIdIsTheLatest` | chat.go:385-390 | The response kept is the one last announced by name |
| `TurnRunning.TurnRun.constructor` | chat.go:164-170 | A run starts with an empty record and nothing offered |
| `TurnRunning.TurnRun.Subscribed` | chat.go:173-189 | The prompt is posted once and its anchor kept; a failed or denied prompt fails the stream |
| `TurnRunning.TurnRun.Emit` | chat.go:286-295 | After a refusal nothing is yielded |
| `TurnRunning.TurnRun.Fire` | hooks.go:211-222 | A hook's panic becomes one reported error |
| `TurnRunning.TurnRun.BeginResponse` | chat.go:385-390 | Takes the id of whichever event announces first |
| `TurnRunning.TurnRun.AnnounceResponse` | chat.go:397-404 | Once per named response |
| `TurnRunning.TurnRun.EndResponse` | chat.go:406-412 | Announces first, then ends |
| `TurnRunning.TurnRun.ObserveItem` | chat.go:420-474 | Branch for branch: not a call, the server's, a duplicate, over budget, or run |
| `TurnRunning.TurnRun.RunTool` | chat.go:481-515 | Runs, fires the end hook, posts whatever happened, and reports at most one post or tool error after |
| `TurnRunning.TurnRun.DecideElicitation` | chat.go:544-559 | Accepts only if the hook does; a panic declines and is reported |
| `TurnRunning.TurnRun.ResolveElicitation` | chat.go:526-537 | One verdict, to the session the request names |
| `TurnRunning.TurnRun.Track` | chat.go:302-332 | Advances the tracker and the response id and yields nothing |
| `TurnRunning.TurnRun.ActOn` | chat.go:336-379 | The side effects of one event, in order, as the machine says |
| `TurnRunning.TurnRun.Take` | chat.go:191-212 | One turn of the loop: event to the reader, side effects, then the end check |
| `TurnRunning.Drive` | chat.go:163-218 | The reader sees a prefix of what the turn says; its events are the first of the feed's, and all of them while the loop listens and was not refused; what was done outside is exactly the machine's log |
| `TurnRunning.WhatEachFeedComesTo` | chat.go:163-218 | What each feed comes to: an unopened stream or a refused prompt is one fatal error and no event; an accepted prompt is echoed by its item id, or its pending id when it has none; a turn still open at the end says why last |
| `TurnRunning.SeenIsFed` | chat.go:190-212 | The events a reader sees are the first of its feed's, and all of them if nothing stopped the turn |
| `TurnRunning.PromptedOnce` | chat.go:156-189 | Of what a stream came to, the prompt goes out once if it subscribed and not at all otherwise |
| `TurnRunning.Turn.Read` | chat.go:128-136 | However often a turn is read, its prompt is posted at most once; a later read is told so and drives nothing |
| `TurnStream.PromptFollowsTheFirstFrame` | chat.go:173-191 | With the turn fed from the read loop's own log, prompts posted equal runs of the subscription hook: one if a frame was completed among the lines taken, none if not |
| `TurnStream.CallerHearsTheStream` | chat.go:173-218 | Of the read loop's own log: what the caller is offered is the first of the events its decodable frames hold, all of them while the turn is open, and a turn still open at the end says how the stream ended |
| `TurnStream.ReadTurn` | chat.go:128-191 | End to end: reading a turn posts its prompt once iff a frame was completed, never again however often it is read, and yields a prefix of what the stream's events make the turn say, the events among it being the first of the stream's |
| `StreamReader.Stream` | stream.go:221-369 | The read loop, holding name, payload, subscribed, delivered and skipped, does and yields exactly what reading the lines as blank-line-terminated frames says, in order, with no more than the frame bound buffered, and brackets each call out of it with suspend and resume |
| `StreamReader.TakeFrame` | stream.go:233-314 | One frame: the hook if it is the first, then skip, sentinel, nothing or an event, with the error and refusal paths |
| `StreamMeaning.FramesSplitTheLines` | stream.go:231-236 | Frames are the lines split at the blank ones: nothing lost but the unterminated tail |
| `StreamText.FrameReadsBack` | stream.go:316-337 | Written lines read back: an event line, data lines with or without the space, comments and unknown fields in any mix give the frame they mean, the last name trimmed and the chunks joined |
| `StreamText.SoundStreamIsDelivered` | stream.go:231-349 | A stream of written frames that carry events, then data: [DONE], yields exactly those events and no error, whatever comes after |
| `StreamMeaning.JoinLosesLeadingBlanks` | stream.go:330-333 | The loop's join is the standard join (section 9.2.6 of the WHATWG HTML standard) of the chunks from the first non-empty one on |
| `StreamMeaning.StandardWhenTheFirstLineHasInk` | stream.go:330-333 | It is the standard join iff there is at most one data line or the first is not empty |
| `StreamMeaning.PayloadSpeaksForItself` | stream.go:521-553 | Sentinel and empty frame are recognised by their text alone, whatever white space or event line surrounds them; of the rest one that is not JSON is unreadable, one that names its type is read as that type, and the event line counts only when it names none |
| `StreamMeaning.OnlyNewlinesGo` | stream.go:522-522 | What is decoded is the payload but for the newlines it ends in |
| `StreamMeaning.BufferIsBounded` | stream.go:320-333 | While the loop reads on, the bytes buffered of a frame never exceed maxFrameBytes |
| `StreamMeaning.EventsAreTheDecodable` | stream.go:231-314 | Events yielded are those of the decodable frames of the lines taken, in order; what is taken is all lines, or up to the sentinel, or up to where an error or the reader quit |
| `StreamMeaning.HookRunsOnce` | stream.go:246-268 | OnSubscribed runs exactly once iff a frame was completed, and before any event or skip report |
| `StreamMeaning.StoppingIsAPrefix` | stream.go:302-312 | A reader who stops sees the first steps of the whole run, and after its refusal no hook runs and nothing is yielded |
| `StreamMeaning.EndingIsHonest` | stream.go:342-367 | An error is the last step; without one the sentinel came and not every frame was unreadable; a stream of unreadable frames only is reported as that |
| `StreamEndings.SkipsAreTheUnreadable` | stream.go:277-301 | The frames reported as skipped are exactly those taken that do not decode, in order, and none if the subscription hook failed |
| `StreamEndings.ShortStreamSaysWhy` | stream.go:340-367 | Lines that stop before the sentinel are told last as one error: idle, else cancelled, else a line too long, else interrupted, with the number skipped iff nothing was delivered |
| `StreamEndings.QuitSaysWhy` | stream.go:246-329 | A loop that quits early tells why last: the subscription hook failed at the first frame, a chunk passes 8388608 bytes, the skip hook failed at an unreadable frame, or the reader refused an event |
| `StreamMeaning.TraceIsOrderly` | stream.go:257-305 | On every path suspend and resume alternate, every hook and yielded event lies between the two, nothing else does, and the loop ends resumed |
| `StreamMeaning.MonitorIsSuspendedInCalls` | stream.go:257-305 | So in any history of the idle monitor with the loop's suspends and resumes, its reader is away exactly during those calls |
| `IdleMonitoring.IdleMonitor.constructor` | stream.go:428-439 | A monitor starts armed for one timeout |
| `IdleMonitoring.IdleMonitor.Resume` | stream.go:449-452 | Records the clock and unpauses |
| `IdleMonitoring.IdleMonitor.Check` | stream.go:459-471 | Re-arms for the timeout while paused, for the remainder of the silence otherwise, and cancels only when none remains |
| `IdleMonitoring.IdleMonitor.Rearm` | stream.go:473-479 | Arms unless stopped |
| `IdleMonitoring.IdleMonitor.Read` | stream.go:509-515 | A read that delivers bytes is progress, one that does not is not |
| `IdleMonitoring.MonitorRecords` | stream.go:442-452 | The fields are the history: last is the latest arrival or resume, paused the latest suspend or resume |
| `IdleMonitoring.AlwaysWatching` | stream.go:428-489 | With the callback and resume each one action: unless stopped or fired a timer is armed, due within a timeout of now, and within a timeout of the last activity whenever unpaused |
| `IdleMonitoring.CancelledOnTheDot` | stream.go:449-471 | With the callback and resume each one action, a stream is cancelled only while unpaused and exactly at last activity plus timeout |
| `IdleMonitoring.SilenceIsBounded` | stream.go:374-397 | With the callback and resume each one action, on an unpaused, unstopped stream no more than the timeout passes in silence without the monitor having fired |
| `IdleMonitoring.SilentStreamIsCancelled` | stream.go:449-471 | With the callback and resume each one action, silence from any reachable state leads to cancellation at last activity plus timeout after at most two callbacks |
| `IdleMonitoring.StoppedForGood` | stream.go:481-489 | After stop nothing re-arms and nothing more fires |
| `IdleRace.CancelledAfterSilence` | stream.go:459-471 | With the callback's three loads interleaved with everything else, it fires only if the recorded silence was at least the timeout at its clock reading |
| `IdleRace.OnTheDotExactly` | stream.go:449-471 | Whatever is in pieces, a stream is cancelled exactly at last activity plus timeout iff the clock was read no later than that and no time passed from the reading to the judgement |
| `IdleRace.WholeCallbackTiming` | stream.go:449-471 | With every callback in one piece and resume still two stores, a stream is cancelled unpaused, one timeout after the later of the last activity and the last look that found the reader away; so exactly at last activity plus timeout iff no callback has found the reader away since that activity |
| `IdleRace.WholeResumeComesLast` | stream.go:449-452 | When every unpause directly follows its store of the time, no look that found the reader away is later than the last activity while the reader is back |
| `IdleRace.WholeStepsAreExact` | stream.go:449-471 | With callback and resume both in one piece, a stream is cancelled unpaused and exactly at last activity plus timeout |
| `IdleRace.SilenceIsBoundedInARace` | stream.go:459-471 | With every callback in one piece, until it fires or is stopped no more than a timeout passes after the later of those two moments, and with whole resumes after the last activity |
| `IdleRace.AtomicIsWhole` | stream.go:449-471 | Every history of the model with one-piece actions is a schedule of the interleaved one that keeps both in one piece, and leads to the same state |
| `IdleRace.TimingIsNotExact` | stream.go:459-471 | A callback in one piece is needed: a schedule with whole resumes that fires late, by any delay, and while paused |
| `IdleRace.SplitResumeIsLate` | stream.go:449-452 | A resume in one piece is needed too: with every callback in one piece, one that looks between resume's two stores makes the stream fire a whole timeout late |

## Left out

- HTTP, authentication, redirects, upload and download, and the JSON codecs: I/O or generated; decoded events are a datatype with the fields the fold, the tracker and the loop read.
- Context cancellation, goroutine scheduling and locking below one step of the interleaving models; the mutexes of `Turn.claim` and `QueryStream` are taken as atomic.
- Wall-clock timestamps in block contexts, retry delays and allocation costs.
- The texts of error messages, `FormatToolArgsBrief`, `formatNativeLabel` and a tool's arguments beyond being carried along: uninterpreted or parameters.
- A nil block with no error in a transform's input: the fold never produces one.
- Hooks that are not set: an unset hook is one that never panics, and an unset approval hook is one that declines.
- The output a tool returns and the payload posted for it: only that the post is made, for which call and with what outcome.
- The empty session id that `ChildrenTree` and `SubtreeBusy` refuse before they walk: one check, no state behind it.
- Session CRUD, listing query parameters and `ResolveOnlineRunner`: thin, would only add easy members.
- TurnRunning.Drive: takes the stream as what it came to; `TurnStream.ReadTurn` derives that from the read loop's log, with the loop reading for as long as its parameter says rather than exactly as long as the turn goes on.
- StreamReader.Stream: the bytes arrive as lines already split, with the reason they stopped; the standard library's line scanner is not modelled, and its buffer limit is one of those reasons.
- IdleMonitoring.CancelledOnTheDot: exact timing is not a property of the code as it runs, whose callback and `resume` are several loads and stores; `IdleRace.WholeCallbackTiming` says when it holds for a callback in one piece, and `IdleRace.OnTheDotExactly` for any.
- FoldText.SalvageIsComplete: the code keeps one ended flag per fold and not one per response, so after any terminal the buffer is not salvaged; stated exactly as the code behaves, with the losing run beside it.
