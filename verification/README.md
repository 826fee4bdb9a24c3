# Jenny: the logs, cursors and compacted views of the agent

A Dafny model of the parts of Jenny's agent that keep append-only logs, cursors into them, and shortened
views of a conversation, with proofs of what the code promises about them: nothing is lost when a cursor
moves, nothing repeats when it does not have to, and nothing waits forever.

Run `dafny verify dfyconfig.toml`.

## Components

- **History log and Dream** (`BackwardReader`, `HistoryLog`, `DreamRuns`, `DreamCounters`). The append log,
  cursor allocation, compaction into the archive and the two batches of a Dream turn, first as a class whose
  methods are proved against functions of the disk, then as a state machine that interleaves appends,
  crashes between a line and its `.cursor` file, crashes between archive and rewrite, compactions and the
  steps of a Dream turn. `DreamCounters` is the arithmetic of `stuck`, `nothing_new` and the forced review.
- **Gardener journal** (`JournalText`, `Journal`, `JournalRuns`). Physical lines, the witness of a consumed
  prefix, the delta of one pass under its ceiling, its commit, and one page over whole runs of edits, reads,
  commits and abandoned passes. A commit acts on each page by itself, so a run of one page, with an
  arbitrary budget at each read, is a run of every page.
- **Gardener passes** (`InternalRuns`, `GardenerPasses`). When an internal run, of the gardener or of Dream, may
  record its progress, what a pass records, the map trigger, passes that overlap, and which project a tick
  picks.
- **Sessions** (`Notes`, `Consolidation`, `IdleCompaction`, `SessionRows`, `DiaryHarvest`, `SummaryPieces`). The
  printed notes and the raw dump, boundaries, the bounded rounds with their count of failed turns, idle
  truncation, where every row goes over runs of all the ways a session shrinks, the harvest that runs while
  other tasks change the session, and the running summary.
- **Tool calls** (`Messages`, `HistoryRepair`, `Microcompact`, `InflightCompaction`, `ContextGovernor`,
  `Requests`). Orphan results, missing results, omitted old results, the checkpoint view of a long turn,
  trimming to a budget, and the composition of them that is sent. `Messages.BlockLegal` is the strict shape
  of a legal history, the one the runner saves: each assistant row is followed by results that answer exactly
  its calls. The checkpoint view needs it (`InflightCompaction.LooseHistoryMayBreak`).
- **Prompt, diary, archive** (`PromptPages`, `Diary`, `TextLines`, `MemoryArchive`). The page block under its
  ceiling with fences that cannot be closed from inside (section 4.5 of CommonMark 0.31.2, Fenced code
  blocks), the frozen diary view over runs of turns, and the text form of archived facts.

Model replies, estimates, clock readings, failed writes and the other tasks of the process are parameters or
steps: a theorem over a run holds for every one of them. Method contracts equate the new state, or the
result, with a function; the lemmas beside them say what that function means. `Selections` is the one form
those lemmas use for "the elements a test holds for, in order".

## Where the code does less than its documentation

- **A second declaration of an answered id** stays unanswered after repair
  (`HistoryRepair.SecondDeclarationStaysUnanswered`). Every call has a result after it exactly when no call
  among the rows kept stands behind the last result of its id (`HistoryRepair.RepairedCallsAnsweredIff`).
- **`snip_history` may keep none of the non-system rows**, of a history repair has nothing to do on: one
  assistant row with four calls and their results (`ContextGovernor.SnipMayLeaveNothing`).
  `SnipLeavesNothingIff` is the exact condition.
- **A journal page cut shorter than its cursor** is skipped, new entries included
  (`JournalRuns.ShortenedPageIsSkipped`); `NothingSlides` is the exact condition.
- **Giving up after failures in three turns**: two turns that alternate are enough
  (`Consolidation.TwoTurnsMayGiveUp`), and so are failures outside any turn. The three counted failures are
  in different turns exactly when each fell in a turn and no turn came back after another
  (`GivesUpAtTheThird`).
- **No row is lost to truncation** - but one that was taken without a summary (for length, by `/new`, by the
  hard cap on saved rows) and ends past the 16,000th character of its chunk, where the raw dump is cut, once
  it leaves the session: after a length consolidation, at the next idle compaction
  (`SessionRows.LongRowIsLost`). A shorter row is whole in the dump (`DumpedRowLeavesTheSession`). `LostIff` is
  the exact condition over any run, `IdleLosesIff` over one idle compaction.
- **The harvest check compares only the last row read.** When the rows before it were cut and an equal row
  stands in its place, the index skips rows (`DiaryHarvest.EqualRowsDefeatTheCheck`); it is right exactly
  when it is saved in place (`NextIndexRightIff`). Rows carry a time stamp in microseconds, so this takes a
  clock that repeats one: rows that differ are always in place (`DifferentRowsSaveInPlace`).
- **A forced review** may run twice at one count when the process dies inside it: the count is noted only
  after the review (`DreamCounters.ForcedExactlyOnce`, `QuietRunsForceNothing`).
- **A review that failed is to come again after two runs**, but the count written for that is written over at
  the end of the same cycle: a cycle that ends leaves a count of one whether its review failed or not. With a
  period above two the early retry is kept exactly when the process dies in the turn behind the review
  (`DreamCounters.RetryIsKeptIff`).
- **A line mark behind a tab** is not seen by the pruning of a summary, which looks behind dashes and blanks
  only; trimming may then bring that line to the front of its piece with the mark in sight
  (`SummaryPieces.TabHidesMark`). A marked line is left exactly when there is such a one (`PrunedBareIff`).

## Model

| member | source | states |
|---|---|---|
| DreamRuns.DreamLosesNothing | jenny/agent/memory.py:1222-1356 | In every run of appends, crashes, compactions and Dream steps, a Dream-readable entry above the cursor is still in the live file and one at or below it was shown whole in a batch that landed |
| DreamRuns.CursorsIncreaseAndNothingIsLost | jenny/agent/memory.py:719-750 | In every run the cursors written strictly increase, the next one allocated is one past the newest, and live file plus archive hold every entry ever written |
| DreamRuns.DreamCursorMonotone | jenny/agent/dream_cycle.py:678-756 | The Dream cursor never goes back, whatever steps follow |
| DreamRuns.SecondIsRest | jenny/agent/memory.py:1222-1356 | The second prompt recomputes the first one's window whatever was appended or compacted in between, and the two batches cover it |
| DreamRuns.TurnCovers | jenny/agent/dream_cycle.py:678-756 | An awaiting entry that a whole turn leaves at or below the cursor is among the entries the turn showed |
| DreamRuns.TurnAdvances | jenny/agent/dream_cycle.py:678-756 | With anything pending, a turn whose first batch lands moves the cursor |
| DreamRuns.CompactionBound | jenny/agent/memory.py:883-966 | After a compaction the live file holds exactly the cap plus the older entries Dream still awaits, what left it is archived, and what Dream has pending is unchanged |
| HistoryLog.MemoryStore.AllocateCursor | jenny/agent/memory.py:719-750 | The cursor is one past the largest of the `.cursor` file and the last record, found by a scan when the last record has none |
| HistoryLog.NextCursorIs | jenny/agent/memory.py:719-750 | The cursor handed out is above the cursor file and the last line and one past one of them; without either it is one past the largest in the file, else 1 |
| HistoryLog.MemoryStore.AppendHistory | jenny/agent/memory.py:542-670 | Writes one entry under a freshly allocated cursor and then the cursor file; the whole new state |
| HistoryLog.MemoryStore.CompactHistory | jenny/agent/memory.py:883-966 | Over the cap, archives what Dream no longer awaits and keeps the rest in order; changes nothing when the archive cannot be written |
| HistoryLog.MemoryStore.BuildDreamPrompt | jenny/agent/memory.py:1222-1356 | The batch of a prompt: window by entries and characters, split by scope, with the cursor each batch may move to |
| HistoryLog.BatchIs | jenny/agent/memory.py:1251-1356 | The window is the longest run of first awaited rows, in log order, within both limits, or a single row; the batch is the rows of one scope in it, in log order; a first batch alone may move the cursor over the run of its scope at the front |
| Selections.OnlyPicks | jenny/agent/memory.py:1265-1270 | Picking by a test leaves no element out, takes no other, and keeps their order |
| HistoryLog.MemoryStore.RunDreamTurn | jenny/agent/dream_cycle.py:678-756 | One turn of up to two batches: the cursor it leaves and the entries of the batches that landed |
| BackwardReader.ReadLastRecord | jenny/agent/memory.py:1002-1036 | Reading blocks from the end returns the last non-blank line for every file and block size |
| BackwardReader.LastLineIsLast | jenny/agent/memory.py:1002-1036 | That line has no newline, ends in a visible character, starts after a newline or leading blanks, and only blanks follow it; there is none exactly for blank files |
| DreamCounters.HoldingIsBounded | jenny/agent/dream_cycle.py:237-344 | Over any cycles without a landing, each outcome by the evidence of its batches, the two counters grow by one per counted cycle and at most the difference to the alarm are held |
| DreamCounters.AtMostFourHeldAfterLanding | jenny/agent/dream_cycle.py:332-344 | Between two landings at most four runs end with the batch held |
| DreamCounters.CycleMoves | jenny/agent/dream_cycle.py:576-931 | What a cycle does to `stuck`, `nothing_new` and the forced mark: a refusal left open raises the first, a counted cycle without one that does not land the second, a landing clears both, any other cycle leaves both |
| DreamCounters.LandsIff | jenny/agent/dream_cycle.py:237-344 | By the fields of the cycle: exactly when its turn lands and exactly when its batch is held; the first batch alone decides |
| DreamCounters.CountersTellTheCause | jenny/agent/dream_cycle.py:887-903 | Over any cycles without a landing `stuck` grew by those that left a refusal open and `nothing_new` by the other counted ones |
| DreamCounters.RefusalsForceReview | jenny/agent/dream_cycle.py:549-605 | After a landing the cycle that leaves the second, fourth, ... refusal makes a review due, and cycles without a refusal never do |
| DreamCounters.ReviewCadence | jenny/agent/dream_cycle.py:538-605 | Over any cycles that found no review due, the whole ones are counted, whatever their turns did; a review is due exactly when they make the period or a livelock asks for it |
| DreamCounters.RetryIsKeptIff | jenny/agent/dream_cycle.py:590-634 | The earlier retry of a failed review survives its cycle exactly when that is cut in its turn |
| DreamCounters.ForcedExactlyOnce | jenny/agent/dream_cycle.py:549-605 | Over any cycles a livelock review is due exactly at an even count at which no cycle of this climb got past its review; one cut inside the review leaves it due |
| DreamCounters.QuietRunsForceNothing | jenny/agent/dream_cycle.py:576-931 | After a run that leaves the counters alone no forced review is due, unless it was cut in the review and one was due before |
| DreamCounters.ReviewStore.SetReviewState | jenny/agent/memory.py:1162-1220 | Counters are clamped and written together, omitted ones kept |
| DreamCounters.ReviewStore.BeginDreamCycle | jenny/agent/dream_cycle.py:476-634 | When a review is due, what is stored before the cycle and what is returned |
| DreamCounters.ReviewStore.FinishDreamCycle | jenny/agent/dream_cycle.py:828-951 | What the outcome of the cycle stores: the function `CycleMoves` and `CountersTellTheCause` are about |
| InternalRuns.CommitsMostly | jenny/agent/internal_run.py:30-109 | A clean run without a miss may record its progress; one that may with an attempt missed has landed another |
| Journal.ReadJournalDelta | jenny/agent/gardener_state.py:491-632 | The nested loops give each page's share of the ceiling in page order, and count what is left behind |
| Journal.ReadPage | jenny/agent/gardener_state.py:592-612 | Reading stops at the first entry the budget cannot pay for, headings and blanks cost nothing, and the lines consumed end exactly there |
| Journal.StartsWhere | jenny/agent/gardener_state.py:525-590 | A page is read on from its cursor exactly when the witness is that of the lines before it, or there is none and nothing stands behind them; else from line 0; one shorter than its cursor is not read |
| Journal.UnknownPageFromStart | jenny/agent/gardener_state.py:525-590 | A page the state does not know is read from its first line |
| Journal.DeltaIsFirstUnread | jenny/agent/gardener_state.py:506-632 | The delta is the first min(ceiling, n) of the n unread entries of all pages in order |
| Journal.CommitConsumes | jenny/agent/gardener_state.py:284-320 | After the commit the unread entries are the former ones without the delivered prefix |
| Journal.CommitRecordsEachPage | jenny/agent/gardener_state.py:284-320 | A commit gives each page the cursor and witness of its own share and leaves pages without one as they were |
| Journal.PassesDeliverInOrder | jenny/agent/gardener_state.py:491-632 | Over quiet files repeated passes deliver the unread entries once each and in order |
| Journal.PassesEnd | jenny/agent/gardener_state.py:491-632 | With a positive ceiling they end in an empty delta after at most as many passes as entries |
| JournalRuns.NothingSlides | jenny/agent/gardener_state.py:525-590 | After any run, what lies below a page's cursor is what was committed or the whole page is unread, exactly when the page is not shorter than the cursor or has no entries |
| JournalRuns.EachEntryOnce | jenny/agent/gardener_state.py:491-632 | With append-only edits what was ever committed followed by what is unread is the page's entries, each once |
| JournalRuns.RewrittenPageIsReadAgain | jenny/agent/gardener_state.py:564-590 | A page that reaches its cursor is read again from line 0 exactly when its consumed prefix changed |
| JournalRuns.GluedLineIsReadAgain | jenny/agent/gardener_state.py:545-590 | A consumed last line without newline that an append completes makes the page be read again from line 0 |
| JournalRuns.ShortenedPageIsSkipped | jenny/agent/gardener_state.py:525-543 | A concrete page cut below its cursor whose new entry is not read |
| JournalRuns.GonePageIsForgottenIff | jenny/agent/gardener_state.py:430-460 | The state of a page whose file is gone is forgotten exactly when a pass saves |
| JournalText.MaterialInjective | jenny/agent/gardener_state.py:143-165 | The string the witness hashes determines the prefix |
| JournalText.AppendKeepsLines | jenny/agent/gardener_state.py:104-140 | Appending after a final newline keeps every line and adds the new ones |
| GardenerPasses.WaitIsBounded | jenny/agent/gardener_schedule.py:252-357 | Under a strictly increasing clock, when every pick is stamped, an eligible project waits fewer ticks than there are projects |
| GardenerPasses.PickProject | jenny/agent/gardener_schedule.py:276-357 | Picks the eligible project touched least recently, the first by name among equals; none exactly when none is eligible |
| GardenerPasses.EligibleIff | jenny/agent/gardener_schedule.py:173-211 | A project may be picked exactly when it is ready, has unread lines or a map over its ceiling that grew, and no stamp of it that is not in the future is younger than the hours asked for |
| GardenerPasses.NotAgainTooSoon | jenny/agent/gardener_schedule.py:173-211 | A pass that left its mark, whatever came of it, keeps its project from being picked for those hours |
| GardenerPasses.PassesKeepCount | jenny/agent/gardener_state.py:322-346 | Over any passes: of those on record the last `failures` ended without a commit and the one before them, if any, is a commit; `map_left_at` is the size the last answered one left, none when no one was answered |
| GardenerPasses.RecordsAreThose | jenny/agent/gardener.py:1486-1530 | The passes on record are, in order and once each, those that committed and those that called the model and whose attempt could be saved |
| GardenerPasses.AnsweredPassDisarms | jenny/agent/gardener.py:513-542 | After a recorded pass that was answered, map-only passes change nothing until the map grows past the size left |
| GardenerPasses.Gardener.RunPass | jenny/agent/gardener.py:1415-1726 | The status by the fields of the meeting and the state it leaves its project, every other project unchanged; no commit past a write that was refused or lost |
| GardenerPasses.PassCommitsIff | jenny/agent/gardener.py:1534-1726 | By the fields of the meeting: which status is returned when, that a pass commits exactly when it finished, nothing it wanted to write is missing and the commit was saved, and what every other pass leaves |
| GardenerPasses.Gardener.RunGardener | jenny/agent/gardener.py:1259-1371 | One pass per project at a time, refused without effect otherwise, the claim given back on every exit |
| GardenerPasses.OverlapsAreSerial | jenny/agent/gardener.py:1132-1371 | However passes over any projects overlap, are cancelled or die with the process, the states they leave are those of the passes that ended, run one after the other |
| Consolidation.EachRowArchivedOnce | jenny/agent/consolidator.py:773-929 | In every run `last_consolidated` stays within the rows and each row below it, and no other, is in exactly one archived chunk with one record |
| Consolidation.MarkGrows | jenny/agent/consolidator.py:773-929 | `last_consolidated` never goes back |
| Consolidation.GivesUpAtTheThird | jenny/agent/consolidator.py:876-913 | In every run each raw chunk of the token path is written at the third counted failure since the last success, in different turns exactly when each fell in a turn and no turn came back after another |
| Consolidation.TwoTurnsMayGiveUp | jenny/agent/consolidator.py:878-913 | From a fresh session two user rows and failing calls in turns a, b and a again leave one raw chunk and move the mark |
| Consolidation.CallDoes | jenny/agent/consolidator.py:791-924 | Every call: what the window hides leaves first, as one chunk, raw when its summary failed; below the budget nothing more; else each round ends at the least user row that brings the estimate down to the target, or at the last one, leaves one record, raw when it failed, except a failure below the limit, which leaves the mark and joins the count, and rounds stop only for a failure, an estimate within the target or unusable, no user row, or their limit |
| Consolidation.BoundaryIsBest | jenny/agent/consolidator.py:288-317 | The boundary is the one best row: the least user row with enough prompt tokens before it, else the last user row; none exactly when there is no user row or nothing to remove |
| Consolidation.RemovedIs | jenny/agent/consolidator.py:288-317 | The tokens counted before a row are those of the rows the prompt shows, no others |
| Consolidation.ShownAre | jenny/agent/consolidator.py:331-370 | Shown are exactly the rows no checkpoint replaces |
| Consolidation.ReplayBoundaryIsLegal | jenny/agent/consolidator.py:331-370 | The cut leaves exactly the rows the replay window shows, and no result in them without its call; there is none only when the window shows every row |
| Consolidation.WindowOpensAtUser | jenny/utils/helpers.py:398-437 | The window opens at the first user row of the newest ones, or the delivery before it; without one there, at the last user row before with its delivery; without any, at the newest ones |
| Consolidation.Consolidator.PickConsolidationBoundary | jenny/agent/consolidator.py:288-317 | The scan gives that boundary |
| Consolidation.Consolidator.ReplayOverflowBoundary | jenny/agent/consolidator.py:331-370 | The first row the replay window shows, when it hides any |
| Consolidation.Consolidator.ConsolidateReplayOverflow | jenny/agent/consolidator.py:372-400 | Hidden rows are archived, as a summary or raw, and the mark always moves past them |
| Consolidation.Consolidator.MaybeConsolidateByTokens | jenny/agent/consolidator.py:773-929 | The whole effect of a call on mark, failure count and history |
| SessionRows.EveryRowIsAccountedFor | jenny/agent/consolidator.py:372-1094 | In every run of appends, consolidations, idle compactions, new conversations and hard caps each row, told apart by occurrence, is still to consolidate, taken with a summary, copied into the project, or taken without a summary, in exactly one of them; only chunks that failed or were capped fill the last |
| SessionRows.LostIff | jenny/agent/consolidator.py:372-1094 | In every run a row is in no session, summary, copy or whole dump exactly when a step took it without a summary and its dump is cut before the row ends, no idle compaction had put it into a text before, and that or a later step removes it from the session |
| SessionRows.IdleLosesIff | jenny/agent/consolidator.py:931-1094 | An idle compaction loses a row no text covers exactly when it truncates; the row stands below the mark |
| SessionRows.IdleLosesNoOther | jenny/agent/consolidator.py:931-1094 | It loses no other row |
| SessionRows.DumpedRowLeavesTheSession | jenny/agent/consolidator.py:391-399 | A row consolidated with a raw dump leaves the session at the next idle compaction, lost exactly when it is printed longer than the dump |
| SessionRows.LongRowIsLost | jenny/agent/memory.py:1726-1733 | A message of sixteen thousand characters is such a row |
| IdleCompaction.KeepFromUser | jenny/session/manager.py:273-368 | A legal conversation with a user row in reach keeps at least the newest rows, from that user row, without orphans |
| IdleCompaction.KeepFromIs | jenny/session/manager.py:273-368 | Any conversation: one of at most the maximum keeps every row; a longer one keeps the suffix from the last user row up to the newest ones, else the first one among them, else those, less rows from its front exactly when it has an orphan |
| IdleCompaction.Compactor.CompactIdleSession | jenny/agent/consolidator.py:931-1094 | The whole effect of an idle compaction; a refused one leaves messages and index as they were, and an index within the rows stays within them |
| IdleCompaction.Compactor.RemoveFirst | jenny/agent/consolidator.py:984-1042 | Rows leave the session only when they are in a summary or a copy |
| IdleCompaction.Compactor.Truncate | jenny/agent/consolidator.py:1060-1084 | The remapped harvest index counts the kept rows already harvested, or all of them after a successful summary |
| Notes.DumpKeepsWholeRows | jenny/agent/memory.py:1691-1733 | A printed row has its place in the text, and stands there in the raw dump exactly when it ends before the cut |
| Notes.FormatStep | jenny/agent/memory.py:1691-1708 | One more row adds its own text and a newline only after other text |
| DiaryHarvest.IndexCoversOnlyHarvested | jenny/agent/autocompact.py:444-491 | Whatever is appended, cleared, cut, consolidated or compacted for idleness during the calls, and whatever the limit of each chunk, an index saved in place covers only rows that were consolidated, summarised, or given, whole or alone, to a call that succeeded and whose index was saved; rows are told apart by occurrence |
| DiaryHarvest.NextIndexRightIff | jenny/agent/autocompact.py:471-491 | The next index saved covers only such rows exactly when the copy's rows up to it still begin the session, or `last_consolidated` or an idle summary has gone as far |
| DiaryHarvest.DifferentRowsSaveInPlace | jenny/agent/autocompact.py:480-491 | In a run whose rows all differ every index is saved in place |
| DiaryHarvest.MessagesFittingBudget | jenny/agent/consolidator.py:566-593 | The count is the number of first rows whose joined text fits, measured exactly; at least one |
| DiaryHarvest.AnswerEndsIff | jenny/agent/autocompact.py:455-491 | A harvest ends exactly at a call that failed, a last row that no longer stands in its place, the last chunk allowed, or the end of its copy; each call in place saves the index behind its chunk |
| DiaryHarvest.EqualRowsDefeatTheCheck | jenny/agent/autocompact.py:480-491 | A run in which two rows are cut and an equal row passes the check: the index skips a row no call was given |
| SummaryPieces.AccumulateSummary | jenny/agent/consolidator.py:158-201 | Lines without a mark stay in every piece, in order, none is added, the newest piece stays whole; pieces are pruned oldest first and only over the cap; ephemeral lines go, and pieces are dropped, only where no older piece has a skip line left (`PrunedBareIff` has the one exception); no more is dropped than the cap asks for |
| SummaryPieces.NewestIsKept | jenny/agent/consolidator.py:158-201 | The last text handed in that is not blank ends the summary word for word, under this date |
| SummaryPieces.CollectedAre | jenny/agent/consolidator.py:166-173 | Collected are the pieces stored with text and every text that is not blank, nothing else |
| SummaryPieces.MarkedIff | jenny/agent/consolidator.py:191-192 | A line is marked exactly when only dashes and blanks stand before the mark |
| SummaryPieces.PrunedBareIff | jenny/agent/consolidator.py:191-193 | Pruning leaves no line with the mark exactly when no line has it behind a blank other than a space |
| SummaryPieces.TabHidesMark | jenny/agent/consolidator.py:191-193 | Of two lines to skip, the second behind a tab, that one is left, trimmed |
| SummaryPieces.DroppedOnlyWhenAllPruned | jenny/agent/consolidator.py:175-198 | A piece with text is dropped only once every piece but the newest lost its skip lines and then its ephemeral lines |
| SummaryPieces.EphemeralOnlyAfterSkip | jenny/agent/consolidator.py:175-193 | Ephemeral lines go only once every piece but the newest lost its skip lines |
| HistoryRepair.DropOrphanToolResults | jenny/agent/history_repair.py:74-95 | The loop removes exactly the orphan results |
| HistoryRepair.DropIsGreatest | jenny/agent/history_repair.py:74-95 | Every orphan-free subsequence of the history is a subsequence of what is kept |
| HistoryRepair.DropIsIdentityIff | jenny/agent/history_repair.py:74-95 | Nothing is removed exactly when there is no orphan |
| HistoryRepair.BackfillMissingToolResults | jenny/agent/history_repair.py:98-137 | In-place insertion with a running offset puts the missing results at the end of the block of their assistant, in declaration order |
| HistoryRepair.BackfillOnlyAdds | jenny/agent/history_repair.py:98-137 | Removing the inserted rows gives back the input, and afterwards every declared id is answered |
| HistoryRepair.BackfillIsIdentityIff | jenny/agent/history_repair.py:98-137 | Nothing is inserted exactly when every declared id has a result |
| HistoryRepair.BackfillKeepsNoOrphans | jenny/agent/history_repair.py:98-137 | Inserting results creates no orphan |
| HistoryRepair.RepairedIsLegal | jenny/agent/history_repair.py:74-137 | Drop then backfill leaves no orphan and no unanswered id, is idempotent, and changes nothing exactly on histories that had neither |
| HistoryRepair.AnsweredAfterDeclared | jenny/agent/history_repair.py:74-137 | In a repaired history each declared id has a result after its first declaration |
| HistoryRepair.RepairedCallsAnsweredIff | jenny/agent/history_repair.py:74-137 | After repair every declared call has a result after it exactly when, among the rows kept, no call stands behind the last result of its id |
| HistoryRepair.SecondDeclarationStaysUnanswered | jenny/agent/history_repair.py:98-137 | A second declaration of an answered id gets none |
| Microcompact.Compact | jenny/agent/history_repair.py:140-188 | The loop omits exactly the stale compactable results |
| Microcompact.CountIs | jenny/agent/history_repair.py:140-188 | The count is of exactly the results of the compactable tools |
| Microcompact.KeepsNewest | jenny/agent/history_repair.py:140-188 | Between 5 and 14 newest compactable results stay, all of fewer than 15; the older are omitted and only contents change |
| Microcompact.AppendKeepsView | jenny/agent/history_repair.py:140-188 | Appending keeps the earlier view unless the count crosses a batch of ten |
| Microcompact.ViewChangesIff | jenny/agent/history_repair.py:140-188 | Exactly when the earlier view changes |
| Microcompact.NeverUnomits | jenny/agent/history_repair.py:140-188 | A row keeps its view or goes from intact to omitted |
| Microcompact.IdempotentIff | jenny/agent/history_repair.py:140-188 | Exactly when compacting twice is compacting once |
| Microcompact.IdempotentWhenShort | jenny/agent/history_repair.py:140-188 | It is, when placeholders are shorter than the minimum |
| InflightCompaction.PlanCut | jenny/agent/inflight_compaction.py:179-208 | The cut is the least assistant row whose suffix fits, else the last assistant row, and beyond the start |
| InflightCompaction.BestCutUnique | jenny/agent/inflight_compaction.py:179-208 | There is one such row |
| InflightCompaction.StepConsistent | jenny/agent/inflight_compaction.py:125-208 | Each further compaction strictly raises the cut |
| InflightCompaction.CompactionsBounded | jenny/agent/inflight_compaction.py:179-208 | A turn has fewer compactions than rows |
| InflightCompaction.ViewIsLegal | jenny/agent/inflight_compaction.py:130-142 | The checkpoint view of a legal history has no orphan and no unanswered call, and repair leaves it alone |
| InflightCompaction.ViewOrphansIff | jenny/agent/inflight_compaction.py:130-142 | For any history without orphans the view has one exactly when a result behind the cut answers a call the checkpoint replaces that is declared neither before the request nor between the cut and that result |
| InflightCompaction.ViewKeepsRequest | jenny/agent/inflight_compaction.py:130-142 | The request in the view begins with its own text or blocks and ends with the checkpoint; its role and every row the checkpoint does not stand for are unchanged |
| InflightCompaction.MarkCompacted | jenny/agent/inflight_compaction.py:145-157 | In place, marks the rows between request and cut and puts the checkpoint on the cut row |
| InflightCompaction.ReplayIsView | jenny/session/manager.py:136-260 | Reading the marked rows back gives the live checkpoint view |
| InflightCompaction.TurnViews | jenny/agent/inflight_compaction.py:125-157 | After any appends and compactions of a turn the two views agree and stay legal |
| InflightCompaction.TurnKeepsRequest | jenny/agent/inflight_compaction.py:125-157 | After any events of a turn the request read back is the original one with the last checkpoint alone behind it, and every row outside that checkpoint is there |
| InflightCompaction.CollectUserMessages | jenny/agent/inflight_compaction.py:211-242 | The loop keeps the newest texts within the limit |
| InflightCompaction.TextsAre | jenny/agent/inflight_compaction.py:211-242 | Collected are the user's own texts with words in them, in order, each whole or its first two thousand characters and a mark |
| InflightCompaction.CollectTwice | jenny/agent/inflight_compaction.py:211-242 | Collecting over two compactions equals collecting once |
| InflightCompaction.KeptIsSuffix | jenny/agent/inflight_compaction.py:211-242 | What is kept is a suffix within the limit, the newest text always in |
| InflightCompaction.KeptIsLongest | jenny/agent/inflight_compaction.py:211-242 | No longer suffix fits |
| ContextGovernor.SnipHistory | jenny/agent/context_governor.py:89-176 | Within its budget a history comes back whole; over it, a legal one with a user row keeps every system row and of the others the suffix from the least user row from which all fits, else from the last user row |
| ContextGovernor.BestStartUnique | jenny/agent/context_governor.py:101-176 | There is one such row |
| ContextGovernor.SnipKeepsUserSuffix | jenny/agent/context_governor.py:101-176 | For a legal history with a user row the suffix is not empty, starts at a user row, has no orphan, and exceeds the budget only if the newest row does or no user row fits |
| ContextGovernor.SnipLeavesNothingIff | jenny/agent/context_governor.py:101-176 | Of a legal history no row is kept exactly when it has no user row, its last row is a result that names its call, and the part that fits and the last four rows are results only |
| ContextGovernor.SnipMayLeaveNothing | jenny/agent/context_governor.py:101-176 | One assistant row with four calls and their results, which repair leaves alone, is such a history |
| ContextGovernor.SplitLosesNothing | jenny/agent/context_governor.py:101-176 | System rows and the rest make up the history |
| Requests.GovernContext | jenny/agent/runner.py:840-903 | The passes over the view, in their order |
| Requests.SentIsWhole | jenny/agent/runner.py:864-903 | Whatever the history, what is sent has no orphan and no unanswered call |
| Requests.SentFromLegal | jenny/agent/runner.py:654-903 | Of a legal history with a user row what is sent is legal in the strict shape without the second repair: the rows of the checkpoint view with other contents, all of them within the budget; over it all system rows and the newest others from the best user row; it opens at a user row when it was trimmed, and when the history does |
| Requests.GovernedContents | jenny/agent/runner.py:864-903 | In a view that needs no repair a user row gets its label, a result the cap of what omitting leaves of it, any other row stays |
| Messages.FindLegalStart | jenny/utils/helpers.py:458-473 | The scan finds the start |
| Messages.LegalStartLeavesNoOrphans | jenny/utils/helpers.py:458-473 | The suffix from the start has no orphan, and the start is 0 exactly when there was none |
| PromptPages.ReadProjectPages | jenny/agent/context.py:1361-1437 | The loops with running total and early skip give what the plain form over joined text gives |
| PromptPages.FillBlocks | jenny/agent/context.py:1368-1422 | The running total is the joined length, skipping by the floor gives the same blocks as reading, shown and left out make up all pages |
| PromptPages.MakeRoom | jenny/agent/context.py:1423-1430 | Dropping last blocks keeps the longest prefix that fits with its notice |
| PromptPages.PackedWithinCeiling | jenny/agent/context.py:1361-1437 | The text is within the ceiling exactly when a page is shown, there are no pages, or the notice alone fits |
| PromptPages.PagesAre | jenny/agent/context.py:1361-1437 | The text is whole blocks of pages with text, in map order, a blank line between each two, then the notice that counts the pages not there |
| PromptPages.NoticeFits | jenny/agent/context.py:203-214 | The notice fits for any count of at most 5900 digits |
| PromptPages.FencedBlockReadsBack | jenny/agent/context.py:225-252 | A fenced page reads back to its text whatever follows |
| PromptPages.FenceIsShortest | jenny/agent/context.py:225-252 | The fence has four backticks or one more than a run of the text |
| PromptPages.ShownAreWhole | jenny/agent/context.py:1368-1422 | The blocks filled are exactly the whole blocks of the pages taken |
| PromptPages.ChosenInOrder | jenny/agent/context.py:1368-1422 | They are in map order |
| PromptPages.ShownIffFits | jenny/agent/context.py:1368-1422 | A page is taken, before the notice is made room for, exactly when it has text and its block joined to those taken before it is within the ceiling |
| PromptPages.TrimmedIsLongest | jenny/agent/context.py:1423-1430 | Keeping one block more would not leave room for the notice |
| Diary.Holder.DiaryTurn | jenny/agent/diary.py:274-335 | The section, the new lines and the view a turn stores |
| Diary.RenderRows | jenny/agent/diary.py:244-259 | The detailed and the counted rows of a view |
| Diary.VisibleAre | jenny/agent/diary.py:191-217 | The personal conversation sees every row but untrusted ones born elsewhere, a project only trusted rows about it born elsewhere, in order |
| Diary.GradesAre | jenny/agent/diary.py:244-259 | Of the rows of at most three days the newest thirty one by one, those above three and of at most seven counted, in order |
| Diary.NewsAre | jenny/agent/diary.py:301-320 | The news are the rows above the cursor, those of the first eight dates the view does not hold, and the dates it holds whose id is no longer coming up |
| Diary.FreezesIff | jenny/agent/diary.py:313-330 | A view is frozen anew exactly when it never was, no turn came for more than an hour, or more than twelve news wait; else only its minute changes |
| Diary.NoRowGoesUnseen | jenny/agent/diary.py:274-335 | Every visible row is at or below the cursor kept, among the new lines, or in the history sent |
| Diary.FewNewLines | jenny/agent/diary.py:274-335 | At most twelve new lines, none already in the history |
| Diary.WithinIff | jenny/agent/diary.py:262-272 | A line counts as sent exactly when it stands somewhere in a text of the history |
| Diary.CursorNeverGoesBack | jenny/agent/diary.py:291-318 | In every run over a log that grows under rising cursors and is trimmed at its front the cursor never goes back |
| Diary.NoLineIsSaidTwice | jenny/agent/diary.py:311-313 | In every run whose history keeps what was said no turn says a line of an earlier turn: a line comes back only after it left the history sent |
| Diary.TurnRepeatsOnlyAlike | jenny/agent/diary.py:311-313 | One turn repeats a line only where two of its news print alike |
| Diary.EachLineOnce | jenny/agent/diary.py:274-335 | In every run whose history keeps what was said and whose turns have news that print differently no line is said twice |
| Diary.SameViewSameSection | jenny/agent/diary.py:244-259 | Turns that read the same view back render the same section however the log grew |
| MemoryArchive.EntryReadsBack | jenny/agent/memory_archive.py:98-118 | An entry of single-line fields printed to text and read back keeps every field, and its text exactly when it is trimmed, has no bullet and no line break but newlines |
| MemoryArchive.BareIs | jenny/agent/memory_archive.py:98-118 | The fact is kept without one bullet, a dash or star with a blank or tab behind it, and without the blanks around it |
| MemoryArchive.ParseArchived | jenny/agent/memory_archive.py:237-258 | The scan gives the fields of the header and the trimmed rest |
| MemoryArchive.LineageReadsBack | jenny/agent/memory_archive.py:179-208 | The lines a file gets, written with a final newline, are the lines it is read back as |
| MemoryArchive.AddLineage | jenny/agent/memory_archive.py:179-208 | Inserts the missing fields before the header's end, or a header before the body |
| MemoryArchive.LineageAdds | jenny/agent/memory_archive.py:179-208 | On any file body and other fields stay, a set field is never overwritten, a missing one is added |
| MemoryArchive.LineageIsIdempotent | jenny/agent/memory_archive.py:179-208 | Adding the same lineage again changes nothing |
| MemoryArchive.LineageInEitherOrder | jenny/agent/memory_archive.py:136-176 | Which of two paths archives an entry first does not decide whether its lineage stays |

## Left out

- The reasoning text of assistant rows (`blank_closed_reasoning`) and the minimal repair after an exception in `_govern_context`.
- Model calls, prompts and templates: replies, write counts, refusals, token estimates and clock readings are inputs.
- File systems, encodings and locks: a file is a sequence of lines or characters, a write is one step. A line torn by a crash is not modelled; a crash falls between two writes.
- Crashes between an archived chunk and the save of the session: `Consolidation` takes a round as one step.
- The archive of the history log is a set of entries; its month files are not modelled.
- The witness is its own hashed string: the digest is taken to be free of collisions, and the string is proved injective.
- `read_state` on malformed files: an unreadable state is the empty state.
- The replay of project entries in prompts, the recent-history block and the map block of `context.py`.
- InflightCompaction.ReplayIsView: replays the marks only; the other transformations of `Session.get_history` (time stamps, merging an injected row into the last one, bounds by count and tokens) are not modelled.
- GardenerPasses.Gardener.RunGardener: is one pass from claim to end; passes that overlap are those of `OverlapsAreSerial`.
- Board picks and the board pass: their rules live in modules that are not part of this model, and a board pick is not stamped by the wiki pass.
- The gates of a tick that are not about time or work (a plan holding the notebook, a turn in flight, an idle conversation) are one flag of the tick.
- The candidates of a tick are not sorted in place: `PickProject` takes the least one, which is what the sorted list starts with.
- DiaryHarvest.IndexCoversOnlyHarvested: is about runs whose indices were saved in place; `NextIndexRightIff` says exactly when the next one is right.
- SessionRows.LostIff: counts a row as summarised when the call it was handed to succeeded; that the call's input may be cut to the model's budget is not modelled. Rows the diary harvest read are not counted as saved.
- Notes.DumpKeepsWholeRows: is about the dump as written; the header line and `strip_think` of the history entry are not modelled.
- JournalRuns.EachEntryOnce: is about pages that end with a newline when they are appended to; `GluedLineIsReadAgain` covers the others.
- GardenerPasses.WaitIsBounded: is about picks whose stamp is saved and stamps that are not in the future.
- Diary.SameViewSameSection: compares turns that read the view back; the turn that freezes it uses seconds where the stored anchor has minutes.
- MemoryArchive.EntryReadsBack: asks fields to be single trimmed lines.
- MemoryArchive.LineageAdds: works on the lines of a file; the body of a file without a header is those lines joined by newlines.
- The order in which pages come (`_pages_in_map_order`) and the reading of page files: pages arrive in order with their stripped text.
