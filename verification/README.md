# Agent framework: caches, marks and ledgers

Agents run over an append-only record. What an agent reads, what it was billed for, what it may be sent and what survives
a restart are each kept by a cache, a mark or a ledger that has to agree with a simple definition on every run. These
files model those parts and prove that they do, or say exactly when they don't.

Code that updates fields is a class whose methods tie its new state to a function of the old one; whole runs are lists of
steps over that function, with an invariant every step keeps. A step that can fail takes how it fails as a parameter, so
every theorem is over every failure. Code that computes is functions and lemmas; a loop is a method proved against a
function.

| files | what they model |
|---|---|
| `Audience`, `Windows`, `WindowRuns` | which rows bear on a reader, and the context manager's window of rows as its callers rely on it |
| `PendingScan`, `PresentationMemo`, `Presentation` | the presentation index: the scan for pending bodies, its memo, and the points where rows enter |
| `ReadMarks`, `Watermarks` | marks of what was read, and the consumed watermark under overlapping compiles |
| `CompileCredit`, `CompileOutcomes` | the proven context budget under overlapping compiles and budget changes |
| `Journal`, `JournalRuns`, `ProviderWaits`, `ProseDrafts` | the checkpointed record journal with its two ambiguous failures, and two projections kept in it |
| `Guard`, `GuardRuns`, `GuardSafety`, `GuardWorks` | the tool-result guard: staging, settling, annotating, its retry queue and its compression holds; what never goes wrong on any run, and what comes of it where storage works |
| `RequestOnlyTurns`, `RequestPrefixes` | turns a request ends on that the store never holds, rendered again by later compiles |
| `ForeignRounds`, `ForeignPairing`, `SentRows` | another agent's rounds as a watcher is sent them, and the comparison of blocks as data |
| `Clock` | clock boundaries across offset changes, and the clocks a window takes |
| `EditDistance`, `ClosestNames` | the bounded edit distance, and the names it ranks |
| `LineReader` | the chunked line splitter |
| `ToolResultCut`, `ToolImageLedger` | where a stored tool result is cut and which image slots it keeps; which images' bytes are held |
| `Allocator` | the script engine's limited allocator |

## What turned out conditional

- A fresh, unfrozen turn start throws or leaves nothing owed out of the window, except where its write is cut inside the
  last body it names: every row that names a body has then entered, so the start doesn't throw, and the rest of that body
  stays out. `Presentation.StartLeavesNothingOwed` gives the condition both ways and `StartCutInsideABody` an instance.
- The scan memo misses a row where a rollback's hold names some shards of a body and not others. A scan at rest passes the
  whole body; once a start's write, cut inside it, has entered every shard the hold names, the rest are owed at rest and the
  memo's mark is past them. `PresentationMemo.MemoIsExactOnEveryRun` says over every run that a scan at rest is exact if and
  only if no such row stands, and every other scan always is; `HoldOfOneShardMissesTheOther` is such a run.
- The scan memo is otherwise exact because a retraction moves the index length (an undo of another writer's rows drops no
  memo), and because a rebase drops it before the store is back on its branch (a presentation moves it by its length alone,
  whichever branch it is of). `PresentationMemo.RetractionAtSameLength` says when a memo kept across a retraction at an
  unchanged length would miss a body.
- The consumed watermark never moves back on a branch while it stays known. A mark that can't be taken leaves it unknown,
  and an older compile may then set it back. `Watermarks.MovesBackExactlyThen` says over every run that it moves back if and
  only if some compile ends with a mark of its own while it is unknown, another mark having been made since the compile
  began and one ahead of its own consumed before; `UnknownLetsItMoveBack` is such a run.
- A guard's audit record is logged once, unless a write throws having landed; it is then logged again, next to the first:
  `GuardSafety.AuditLogInOrder` and `LandedThrowIsLoggedTwice`. An idle guard with nothing pending holds exactly what an
  `addMessage` that threw left held: `HoldsOutliveTheirEdits` and `FailedAddLeavesAHold`.
- A request stays a prefix of every one sent after its reply exactly where it ended on no turn of its own, or its reply holds
  an identity key and nothing was stored between them, or the first row stored between them is that very turn. A window that
  is still the record holds what arrives during an inference ahead of the reply: `RequestPrefixes.RequestsArePrefixes`.
- `sameData` compares as JSON would, for every value of plain data beside it, exactly where no walked field holds an object
  whose `toJSON` gives nothing; such a field counts as null (`SentRows.SilentFieldCountsAsNull`). Its documentation says it is
  compared as JSON writes it.
- The engine's limits hold to one block's slack through any realloc, from any state, exactly where it is of a block, or to
  some size, or there is no limit, or no block holds more than was asked: a realloc of no block to no size is checked against
  neither limit. `Allocator.ReallocKeepsLimits` gives the condition both ways and `UncheckedRealloc` two calls that pass any
  limit. Nothing in the repository shows the engine making such a call; QuickJS, which would, isn't part of this model.
- What the engine counts is what is live, unless the C library answers a realloc to no size by freeing the block and returning
  null, as C allows: the block then stays counted (`Allocator.ReallocExactly`).
- A delivered draft stays delivered except by an answer of another kind to the one attempt of it that was delivered
  (`ProseDrafts.DeliveredStaysExactly`, both ways; `AnsweredTwiceIsLost` is one). As its callers record it, with no key taken
  twice and one answer at most to an attempt, it stays delivered through every later entry and every checkpoint that keeps it
  (`DeliveredWhileKept`).

## Model

| member | source | states |
|---|---|---|
| Audience.OwnRowsReachOthersOnlyThroughEdges | src/presentation.ts:249-300 | another agent's own row never bears on a reader but through an observe edge, or the slot they share |
| Audience.BearingExactly | src/presentation.ts:249-300 | which rows are a reader's own, which arrive for it and which are neither, in its own slot and in another |
| Audience.EdgeShowsExactly | src/dendrite/audience.ts:181-194 | which rows of a slot an edge shows: held traffic only if it says so, else rows for anyone, of its owners, or for them or the reader |
| Windows.StoredOk | src/presentation.ts:5-20 | a store keeps the record in the order it arrived, with unique ids and a growing head, and enters no presented window |
| Windows.WrittenDownOk | src/presentation.ts:619-680 | writing a window down enters every row, at increasing ordinals |
| Windows.WrittenDownAt | src/presentation.ts:619-680 | written down, each row stands at its place in the record, kept by a cut that reaches the end of its body |
| Windows.PresentedOk | src/presentation.ts:1505-1540 | presenting rows puts them at fresh, increasing ordinals past the index length, and changes no other |
| Windows.RetractedOk | src/presentation.ts:1187-1210 | a retraction keeps the rest of the window, each at its own ordinal |
| Windows.RemovedOk | src/presentation.ts:1187-1210 | removing stored rows keeps the order and the ordinals of the rest |
| WindowRuns.RunGrew | src/read-marks.ts:20-43 | over any run of window steps the head and the index length only grow, and an ordinal is never reused |
| PendingScan.ScanOfTwoParts | src/presentation.ts:1417-1466 | a listing cut between two bodies scans as its two parts do |
| PendingScan.ScanAfterIsWholeScan | src/presentation.ts:1417-1466 | a scan from a mark is the scan of everything exactly where nothing before the mark is to be taken |
| PendingScan.ScanAfterExactly | src/presentation.ts:1417-1466 | a scan from a mark finds every body a scan of every row does exactly where no arrival the mark passed is of a body with no held shard listed |
| PendingScan.NamedWholeScans | src/presentation.ts:1453-1459 | a hold keeps whole bodies out of a scan, whichever of their shards it names |
| PendingScan.NextIsPassed | src/presentation.ts:1440-1466 | the mark a scan leaves passes only bodies no later scan owes anyone, or the hold names a shard of |
| PendingScan.NextIsFarthest | src/presentation.ts:1440-1466 | and no mark that is as good passes a row it doesn't, so rows are walked again only where they have to be |
| PendingScan.FlattenScan | src/presentation.ts:1417-1466 | the bodies a scan returns hold exactly the taken rows, in record order |
| PresentationMemo.PendingExactly | src/presentation.ts:1417-1466 | from any state whose memo holds, the scan from the memo equals the scan of every unpresented row exactly where, if it takes arrivals at rest, no row is missed |
| PresentationMemo.WholeHoldsMissNothing | src/presentation.ts:1009-1024 | a hold that names whole bodies misses none |
| PresentationMemo.ScannedOk | src/presentation.ts:1440-1466 | the memo a scan leaves holds, with a rollback's hold in force or not |
| PresentationMemo.StepOk | src/presentation.ts:578-618 | appends, partial presentations, retractions, branch moves, rebases, registrations and holds each keep every memo invariant |
| PresentationMemo.MemoIsExactOnEveryRun | src/presentation.ts:1417-1466 | after any run of those steps, the pending bodies read through the memo are those of a full scan, exactly where no row of a body held in part is missed at rest |
| PresentationMemo.HoldOfOneShardMissesTheOther | src/presentation.ts:1009-1024 | a run whose hold names one shard of a body, after which a scan at rest misses the other |
| PresentationMemo.RetractionAtSameLength | src/presentation.ts:1417-1440 | were a retraction to leave the index length, the memo would be right exactly where nothing it passed is owed again |
| PresentationMemo.DueIsTaken | src/presentation.ts:1381-1410 | what a presentation point names is exactly what its scan takes, and at rest nothing a rollback holds |
| PresentationMemo.DueAfterPresenting | src/presentation.ts:1381-1410 | after a presentation cut anywhere, what stays due is exactly the rest, in the same order |
| PresentationMemo.OwedAfterPresenting | src/presentation.ts:1381-1410 | nothing is owed after it exactly when everything due entered |
| Presentation.BodyAfter | src/presentation.ts:1440-1466 | finds where the body starting at a row ends |
| Presentation.Walk | src/presentation.ts:1417-1466 | one pass over a listing gives the bodies to present and the next mark |
| Presentation.AgentPresentation.Pending | src/presentation.ts:1417-1466 | returns exactly what a scan of every unpresented row would, unless a row is missed at rest, and leaves the memo the scan's mark |
| Presentation.AgentPresentation.PresentIds | src/presentation.ts:1505-1559 | presents rows up to where the write fails, and moves the memo with the window's length |
| Presentation.AgentPresentation.PresentPending | src/presentation.ts:1381-1410 | presents everything pending, says whether a row naming a body stayed out, and which arrivals entered whole |
| Presentation.AgentPresentation.PresentAtStart | src/presentation.ts:880-921 | a fresh start takes arrivals unless frozen, ends the hold, and throws or leaves nothing owed but for a cut inside its last body |
| Presentation.AgentPresentation.PresentAtBoundary | src/presentation.ts:940-975 | the round's own rows first, in the order given, all in unless their write throws, and nothing more if it does; then, unless frozen, what is pending up to the first body the stream can't carry |
| Presentation.RestWaits | src/presentation.ts:923-939 | the bodies from that one on, and what a failed write left out, are exactly what stays due |
| Presentation.CarriedIsLongest | src/presentation.ts:951-954 | what a stream is handed is the longest run of pending bodies whose every row it carries |
| Presentation.WholeIsLongest | src/presentation.ts:959-960 | heard at a boundary are the bodies that entered whole: the longest run the entered rows hold |
| Presentation.HeardAreWhole | src/presentation.ts:1393-1403 | heard elsewhere are exactly the first rows of the arrivals that entered whole, in order |
| Presentation.LeavesABodyOutIs | src/presentation.ts:1393-1403 | a presentation failed exactly where its write was cut before some body's first row |
| Presentation.AgentPresentation.PresentAtRest | src/presentation.ts:1333-1408 | at rest nothing enters while the turn lives, no arrival while frozen, and none that a rollback holds |
| Presentation.AgentPresentation.PresentOwn | src/presentation.ts:799-828 | every row kept and still out, and every row given, is in the window after it or kept for the next call; what entered did so kept rows first, in record order, then as written, ahead of all that is left; without a failure nothing is |
| Presentation.AgentPresentation.HoldUntilStart | src/presentation.ts:1009-1024 | a rollback's returned arrivals, any shards of a body's, are held on this branch besides those already held there, and the memo is dropped |
| Presentation.StartLeavesNothingOwed | src/presentation.ts:880-921 | a start fails or leaves nothing owed exactly when its write isn't cut inside the last body |
| Presentation.StartCutInsideABody | src/presentation.ts:880-921 | an arrival of two shards cut after the first: no throw, and one row still owed |
| Presentation.OnlyTakenEnter | src/presentation.ts:1381-1410 | nothing enters through a scan but what that scan takes for this reader |
| Presentation.TriedPresentable | src/presentation.ts:799-828 | kept and new own rows can be presented together: once each, and none already in the window |
| Presentation.TriedAre | src/presentation.ts:799-828 | what is tried is every kept row stored, not undone and still out, and every given row still out, in the order they enter |
| Presentation.KeptEnterInRecordOrder | src/presentation.ts:1297-1330 | own rows kept after a failed write enter in record order |
| ReadMarks.FindWindowLengthAt | src/read-marks.ts:273-288 | the binary search finds the ordinal of the first row past a store head |
| ReadMarks.LengthAtSplits | src/read-marks.ts:273-288 | that ordinal splits the window exactly into the rows there by the head and those after it |
| ReadMarks.PresentedMarkCovers | src/read-marks.ts:204-232 | a mark of a presented window covers exactly the rows it held that still stand where they stood, after any steps |
| ReadMarks.LegacyMarkCovers | src/read-marks.ts:241-288 | once the window is written down, a legacy mark covers exactly the rows stored by its head that stand where that put them |
| ReadMarks.LegacyMarkInLegacy | src/read-marks.ts:241-270 | before that, it covers exactly the rows stored by its head |
| ReadMarks.CoversThrough | src/read-marks.ts:241-270 | the shortcut by a row's own sequence never disagrees with the search |
| ReadMarks.LaterMarkCoversMore | src/read-marks.ts:110-130 | a mark taken later covers every row an earlier one still covers |
| Watermarks.AgentWatermarks.EndCompile | src/agent.ts:1528-1538 | it applies its mark only on success: one that threw leaves the watermark as it was |
| Watermarks.AgentWatermarks.ApplyCompileWatermark | src/agent.ts:1478-1483 | a compile's older mark never replaces a mark made meanwhile that is at or after it |
| Watermarks.NextOk | src/agent.ts:1431-1483 | every step of compiles, boundaries and branch moves keeps the watermark from moving back on its branch |
| Watermarks.RunEvents | src/agent.ts:1478-1538 | over any interleaving, the watermark never moves back on a branch while it stays known |
| Watermarks.EndFallsBehind | src/agent.ts:1478-1483 | from any state, a compile's end sets the watermark behind an earlier value it was not behind already exactly when it is unknown, another mark was made since the compile began, and one ahead of the compile's was consumed |
| Watermarks.EndReaches | src/agent.ts:1478-1538 | a compile that ends with a mark leaves the watermark known: that mark, or one made since it began, on another branch or no less far on its own |
| Watermarks.QuietCompileIsConsumed | src/agent.ts:1478-1538 | over any run in which nothing else marks, a compile leaves consumed exactly what its window held when it began |
| Watermarks.MovesBackExactlyThen | src/agent.ts:1478-1538 | over any run, the watermark moves back on a branch exactly where some compile of it ends so |
| Watermarks.UnknownLetsItMoveBack | src/agent.ts:1431-1438 | a mark that couldn't be taken in between lets an older compile move it back |
| CompileCredit.NoCreditOutlivesItsBudget | src/agent.ts:752-768 | on any run, a change of the live budget ends what was proven of the old one, and no other change does |
| CompileCredit.ClaimedByTheLatest | src/agent.ts:770-780 | on any run, a compile gets the place it claims exactly where none that started after it has ended at that budget |
| CompileCredit.CompileBudget.BeginCompile | src/agent.ts:798-818 | a compile starts at the live budget, later than every one before it |
| CompileCredit.CompileBudget.UpdateBudget | src/agent.ts:1018-1049 | an update is refused, armed or taken at once by the rules for a live session |
| CompileCredit.CompileBudget.SettleTransition | src/agent.ts:1205-1212 | a prepared change settles to its target and ends the descent |
| CompileCredit.CompileBudget.CompileRefused | src/agent.ts:822-853 | a refusal is noted unless a later-started compile ended there, and falls back where a boot had applied the budget at once |
| CompileCredit.CompileBudget.CompileFit | src/agent.ts:854-871 | a fit credits the budget it planned at, or a settle's target, only while what it planned under is unchanged; CompileOutcomes.FitIsCreditedExactly says when, from the run alone |
| CompileCredit.CompileBudget.FinishCompile | src/agent.ts:803-809 | ended starts that no running compile can be turned away by are dropped |
| CompileCredit.StepOk | src/agent.ts:752-871 | every start, end and change keeps the credit's invariants |
| CompileCredit.ProvenBudgetIsLive | src/agent.ts:752-871 | on every run a reported proven budget is the live one, and no later-started compile at it has ended refused |
| CompileCredit.PruningIsUnseen | src/agent.ts:803-809 | pruning changes no answer a running compile gets, and leaves nothing when none runs |
| CompileOutcomes.FitIsCreditedExactly | src/agent.ts:854-871 | on any run, a fit proves the budget then live exactly where the live budget hasn't moved since the compile began and no later-started compile has ended there; and, where it settles a descent, none was set since and no later-started compile has ended at the target |
| CompileOutcomes.RefusalIsHeededExactly | src/agent.ts:822-853 | on any run, a refusal ends what was proven exactly where the live budget hasn't moved and no later-started compile has ended there, or its fallback moves it |
| CompileOutcomes.SettingsComeTo | src/agent.ts:1018-1049 | a budget no smaller, or asked for at once, is live; a smaller one is a descent's target where one can be prepared, else refused; a cancel ends a descent |
| CompileOutcomes.UndisturbedFitIsProven | src/agent.ts:854-871 | the first compile, undisturbed, proves the budget it planned at |
| Journal.LoadIsReplay | src/record-journal.ts:140-187 | the latest snapshot and the tail reduce to what replaying every record does |
| Journal.WriteValid | src/record-journal.ts:212-229 | every way a write can end leaves the records where they belong, and the journal positioned |
| Journal.LoadPositions | src/record-journal.ts:140-187 | after a load, a checkpoint covers exactly what the store lists |
| Journal.FindLatest | src/record-journal.ts:140-160 | finds the checkpoint with the highest id |
| Journal.FindTail | src/record-journal.ts:160-187 | finds the entries past what it covers, in order, and the last of their ids |
| Journal.RecordJournal.Load | src/record-journal.ts:140-187 | gives the latest checkpoint and the entries after it, and resolves a write that failed after its append |
| Journal.RecordJournal.Append | src/record-journal.ts:189-229 | writes once, or is refused while an earlier write is unresolved, and says which of the two failures it met |
| Journal.RecordJournal.WriteCheckpoint | src/record-journal.ts:203-229 | a checkpoint covers what was loaded or appended, and is refused while a write is unresolved |
| Journal.AppendIsListed | src/record-journal.ts:189-229 | an entry handed over is listed last exactly where nothing blocks it and the store's append listed it, with which ambiguity that leaves |
| Journal.CheckpointIsLoaded | src/record-journal.ts:203-229 | a checkpoint that is listed is what the next load gives, with no entry after it; any other changes no load, and none loses an entry |
| JournalRuns.NextOk | src/record-journal.ts:140-245 | every append, checkpoint, load, failure and reopen keeps each checkpoint equal to the entries before it, reduced |
| JournalRuns.ReopenReducesTheWholeLog | src/record-journal.ts:140-245 | whatever happened, a reopened journal's snapshot and tail reduce to every entry in the log: none is covered unreduced |
| ProviderWaits.DeadlineNeverShortens | src/provider-waits.ts:65-73 | a stated wait is never shortened, and has no deadline exactly when it can't be an instant |
| ProviderWaits.ReducedSame | src/provider-waits.ts:84-95 | an act means the same over waits that differ only in what has expired |
| ProviderWaits.FoldSame | src/provider-waits.ts:376-381 | so does a run of acts |
| ProviderWaits.TwiceIsOnce | src/provider-waits.ts:84-95 | an act recorded twice reduces as once |
| ProviderWaits.NeverShortened | src/provider-waits.ts:77-95 | acts that state waits never shorten one |
| ProviderWaits.SameLiveEver | src/provider-waits.ts:155-157 | waits that bind alike now list alike at every later time |
| ProviderWaits.ReloadBindsTheSame | src/provider-waits.ts:376-427 | reading the records back with the pending acts applied binds what bound before |
| ProviderWaits.FirstActWritten | src/provider-waits.ts:464-484 | every way an act's append can end leaves the records agreeing with what the keeper holds |
| ProviderWaits.CheckpointWritten | src/provider-waits.ts:485-495 | a checkpoint that drops expired waits leaves the records binding as they did |
| ProviderWaits.ProviderWaits.Load | src/provider-waits.ts:389-427 | a read that fails leaves the history unreadable, never empty; one that works changes nothing that binds |
| ProviderWaits.ProviderWaits.Apply | src/provider-waits.ts:370-373 | an act binds here ahead of its record |
| ProviderWaits.ProviderWaits.RecordFirst | src/provider-waits.ts:470-483 | records the oldest act, or keeps it pending, and what binds doesn't move |
| ProviderWaits.ProviderWaits.Flush | src/provider-waits.ts:458-496 | the acts recorded are exactly those before the first read or append that fails, in order, and the rest stay pending; then a checkpoint that is due; nothing that binds changes |
| ProviderWaits.ProviderWaits.OfferPending | src/provider-waits.ts:464-484 | the loop: an ambiguous write is resolved first, then each act is offered once, up to the first that fails |
| ProviderWaits.OfferedLeaves | src/provider-waits.ts:464-484 | offered as they come, acts leave in the log exactly those before the first failure, and it too where its append had landed |
| ProviderWaits.WorkingStorageRecordsAll | src/provider-waits.ts:464-484 | where storage works, every act offered is logged, in order, and none is left |
| ProviderWaits.ActsNameTheirKeys | src/provider-waits.ts:84-95 | a release lifts exactly what it names; a wait stated changes only its own key's, to the longer of the two |
| ProviderWaits.ProviderWaits.Make | src/provider-waits.ts:348-350 | an act binds at once and is offered after those before it, each recorded up to the first failure |
| ProviderWaits.ProviderWaits.Set | src/provider-waits.ts:295-313 | the longer of what binds and what is stated binds from then on, and the answer says which; its act is logged after those before it, up to the first failure, and a restart with none left lists the live waits at every later time |
| ProviderWaits.ProviderWaits.Release | src/provider-waits.ts:325-355 | nothing binds or holds what a release names once it returns; it lists exactly what it lifted, and is recorded exactly where there was something to lift and no act is left; a restart then lists the live waits |
| ProviderWaits.ProviderWaits.Active | src/provider-waits.ts:257-262 | unreadable records hold every call not released since; otherwise exactly the live wait does |
| ProviderWaits.ProviderWaits.RestartBindsTheSame | src/provider-waits.ts:389-496 | a restart lists the same live waits at every later time, with or without the one act whose write was ambiguous |
| ProseDrafts.FindUncertain | src/prose-drafts.ts:151-158 | finds the most recent attempt that may have been posted, when none was confirmed |
| ProseDrafts.EntriesTakeEffect | src/prose-drafts.ts:273-306 | what each entry makes of the draft it names, and that it changes no other |
| ProseDrafts.HeldOnlyIfAllFailed | src/prose-drafts.ts:143-158 | a draft may be resent freely exactly when nothing it was or copied can have been posted |
| ProseDrafts.FailureResolvesNothing | src/prose-drafts.ts:130-158 | a later attempt that fails leaves an earlier uncertainty standing |
| ProseDrafts.DeliveredStaysExactly | src/prose-drafts.ts:273-306 | an entry leaves a delivered draft delivered exactly where it is no answer of another kind to its one delivered attempt |
| ProseDrafts.AnsweredTwiceIsLost | src/prose-drafts.ts:302-305 | an attempt answered delivered and then failed reads as held again |
| ProseDrafts.DeliveredEverAfter | src/prose-drafts.ts:273-306 | with no key taken twice and one answer at most to an attempt, a delivered draft is delivered ever after |
| ProseDrafts.DeliveredWhileKept | src/prose-drafts.ts:229-306 | and so it is in the projection, for as long as its checkpoints keep it |
| ProseDrafts.KeptAre | src/prose-drafts.ts:245-257 | a checkpoint keeps each agent's newest drafts, in order |
| ProseDrafts.KeptAmong | src/prose-drafts.ts:245-257 | it keeps every draft something happened to lately, and makes up none |
| ProseDrafts.KeptOnly | src/prose-drafts.ts:245-257 | and lets go of every other |
| ProseDrafts.LastActivityIs | src/prose-drafts.ts:204-208 | the time that counts for that is the latest a draft holds |
| ProseDrafts.HeldIsKept | src/prose-drafts.ts:245-257 | a draft just held is kept |
| ProseDrafts.LatestBounceIs | src/prose-drafts.ts:273-306 | an agent's latest bounce is the last draft held for it as bounced |
| ProseDrafts.UpdateFaithful | src/prose-drafts.ts:273-306 | an entry keeps the projection faithful to the replay of every entry, dropped drafts aside |
| ProseDrafts.CheckpointFaithful | src/prose-drafts.ts:245-271 | so does a checkpoint that lets drafts go |
| ProseDrafts.ProseDraftStore.Reload | src/prose-drafts.ts:231-237 | rebuilds the projection as the journal's reduction |
| ProseDrafts.ProseDraftStore.CheckpointIfDue | src/prose-drafts.ts:245-271 | where one is due it is what a reopened store loads, and drafts go exactly where it was written, or listed and read back; otherwise none does |
| ProseDrafts.ProseDraftStore.Write | src/prose-drafts.ts:317-326 | returns exactly where the journal isn't blocked, the store can sync and the append lands; the entry is then last in the log, each agent's newest drafts are those of every entry replayed, and a draft held is there. One that throws logs it only where the append failed having landed |
| ProseDrafts.ProseDraftStore.ProjectionIsFaithful | src/prose-drafts.ts:229-326 | what the projection has is what replaying every entry gives, and it lacks none of an agent's newest |
| Guard.ToolResultGuard.ApplyEdit | src/tool-result-guard.ts:311-329 | edits only over its own placeholder or payload on its own branch, else marks the record superseded |
| Guard.ToolResultGuard.TryHead | src/tool-result-guard.ts:294-301 | tries the oldest operation: its edit, then its record; its hold goes with the edit |
| Guard.ToolResultGuard.FlushUnrecorded | src/tool-result-guard.ts:291-306 | tries the queue in order up to the first operation that fails |
| Guard.ToolResultGuard.Stage | src/tool-result-guard.ts:389-427 | queues the originals for the audit log, then adds the placeholder under a hold |
| Guard.ToolResultGuard.Link | src/tool-result-guard.ts:431-445 | the batch is durable only once everything queued is written and synced |
| Guard.ToolResultGuard.Store | src/tool-result-guard.ts:360-446 | stores plainly when off, repeats a staged batch's id, refuses a second batch, else stages one |
| Guard.ToolResultGuard.Submission | src/tool-result-guard.ts:451-458 | originals for a durable batch, its notices otherwise |
| Guard.ToolResultGuard.Request | src/tool-result-guard.ts:474-490 | originals are put back only where every result of a durable batch is there |
| Guard.ToolResultGuard.SettleBatch | src/tool-result-guard.ts:541-559 | a batch leaves its wait for an ordered storage job or for its annotation, with its hold |
| Guard.ToolResultGuard.EndWait | src/tool-result-guard.ts:464-534 | which endings settle a batch, and which of them admit its originals |
| Guard.ToolResultGuard.EndAnnotation | src/tool-result-guard.ts:654-697 | where the originals went is queued first; the stub's edit is tried at once, and queued with its hold if it fails |
| GuardRuns.FlushOneStream | src/tool-result-guard.ts:291-306 | trying the queue's head moves a record to the log, or copies one whose write threw having landed, and nothing else |
| GuardRuns.FlushOk | src/tool-result-guard.ts:291-329 | a pass over the queue keeps every invariant, whatever fails |
| GuardSafety.OriginalsOnlyOnceAudited | src/tool-result-guard.ts:451-490 | no request gets a batch's originals before its staged and linked records are written and synced |
| GuardSafety.NextOk | src/tool-result-guard.ts:291-730 | every step, failure, retry and operator's change keeps every invariant |
| GuardSafety.EditsOnlyItsOwn | src/tool-result-guard.ts:311-329 | on every run a message is edited only over the guard's own content on its own branch, and to its original only where that was accepted and audited |
| GuardSafety.WiredIsAudited | src/tool-result-guard.ts:431-458 | on every run, what went on the wire is audited and synced |
| GuardSafety.HoldsOutliveTheirEdits | src/tool-result-guard.ts:541-559 | a hold goes only once its edit was made or superseded or its annotation failed; an idle guard with nothing pending holds exactly what failed adds left |
| GuardSafety.FailedAddLeavesAHold | src/tool-result-guard.ts:389-427 | an add that throws with its hold taken leaves an idle guard holding it |
| GuardSafety.AuditLogInOrder | src/tool-result-guard.ts:360-559 | each batch's records come in the order staged, linked, outcome, annotated, stub_updated, one operation each; twice only where a write threw having landed |
| GuardSafety.LandedThrowIsLoggedTwice | src/tool-result-guard.ts:291-306 | such a write's record is logged twice |
| GuardSafety.AcceptedIsAdmitted | src/tool-result-guard.ts:516-559 | with storage working, an accepted original is in its message unless an operator's change stands there, and its hold is gone |
| GuardWorks.PassWritesAll | src/tool-result-guard.ts:291-306 | where storage works, a pass logs everything queued, in order, once, and lets go of its holds |
| GuardWorks.OriginalsGoOutExactly | src/tool-result-guard.ts:431-490 | a stored batch's originals go out exactly where its records and all queued before them are written and synced: in the continuation, and in a request that has them all; otherwise the continuation gets its notices |
| GuardWorks.StoringWorks | src/tool-result-guard.ts:389-445 | that is so where storage works, even where staging's pass didn't |
| GuardWorks.FailedAddIsTold | src/tool-result-guard.ts:389-427 | an add that throws leaves no batch, and its caller is told |
| GuardWorks.EndingsSettle | src/tool-result-guard.ts:464-559 | which endings leave a batch waiting; each other one logs its outcome once, and lets go of its hold or leaves it to the annotation |
| GuardWorks.AdmittedIsPlaced | src/tool-result-guard.ts:541-559 | the message then holds the originals exactly where the ending admits them, unless an operator's change stands there |
| GuardWorks.AnnotatedIsStubbed | src/tool-result-guard.ts:654-697 | an annotation puts its stub in the message, unless an operator's change stands there, logs both records in order and lets go of the hold |
| RequestOnlyTurns.IndexRequestOnlyRows | src/silent-heartbeat.ts:196-214 | indexes the stamped rows of every participant that is the agent's own voice, by every identity key they hold |
| RequestOnlyTurns.IdentityKeysAre | src/silent-heartbeat.ts:150-169 | a reply's keys are the ids, signatures and redacted payloads in it that aren't empty |
| RequestOnlyTurns.RenderRequestOnlyRows | src/silent-heartbeat.ts:251-277 | puts each turn right before the first surviving row of its reply |
| RequestOnlyTurns.FindToolLoopPrompt | src/silent-heartbeat.ts:223-234 | finds the prompt of the reply whose tools these are results of |
| RequestPrefixes.RenderedOnceAndErased | src/silent-heartbeat.ts:251-277 | whatever the index, each turn renders at most once, and erasing the turns gives back the compiled messages |
| RequestPrefixes.IndexIs | src/silent-heartbeat.ts:196-214 | where keys are unique, each is indexed exactly as its own row is stamped |
| RequestPrefixes.LoopPromptRendered | src/silent-heartbeat.ts:223-234 | a tool loop's prompt is already rendered before the reply that called the tools |
| RequestPrefixes.LoopPromptIsFirst | src/silent-heartbeat.ts:223-234 | it is the one indexed for the first result whose call is known, and there is none otherwise |
| RequestPrefixes.RequestEndsOn | src/agent.ts:2183-2218 | a request ends on the separator exactly where its tick isn't rendered, and else on [Continue] exactly where what comes before the injections it ends on is the agent's own |
| RequestPrefixes.RequestContinues | src/agent.ts:2183-2218 | one that ends on neither continues a prompt exactly where it answers a call of a reply that has one |
| RequestPrefixes.ReplyFollowsItsTurn | src/agent.ts:2183-2218 | whatever others store meanwhile, a reply with a key goes right after exactly the turn its request ended on, and one without after none |
| RequestPrefixes.RequestsArePrefixes | src/agent.ts:2183-2218 | in a run that only appends, an answered request is a prefix of every one sent after its reply exactly where it ended on no turn, or its reply holds a key and came straight after it, or the first row between them is that turn |
| ForeignRounds.ForeignRowAsSent | src/foreign-rounds.ts:112-155 | thinking goes, calls and other agents' results become lines, and a result of an own call takes that call's entry |
| ForeignRounds.TranscribeForeignRounds | src/foreign-rounds.ts:170-199 | one pass in order, each message's calls before its results |
| ForeignRounds.ForeignIsPlain | src/foreign-rounds.ts:112-199 | no foreign message keeps thinking or a call, own messages go as stored, and a message is empty only if it was |
| ForeignRounds.ForeignSaysAll | src/foreign-rounds.ts:112-155 | a foreign message says all it holds, in order: a block for each that leaves something to read, or that nothing was said |
| ForeignPairing.OpenAre | src/foreign-rounds.ts:174-194 | an id is open for an own call exactly where the nearest call or result with it is one |
| ForeignPairing.KeptAnswerOwnCalls | src/foreign-rounds.ts:157-199 | the results left in a foreign message are exactly those answering the nearest unanswered own call with their id |
| ForeignPairing.OneInAMessage | src/foreign-rounds.ts:163-168 | of two results with one id in a message, the later answers no call |
| ForeignPairing.OneResultEach | src/foreign-rounds.ts:163-168 | between two results that answer own calls with one id there is another own call |
| ForeignPairing.TwiceIsOnce | src/foreign-rounds.ts:170-199 | transcribing a transcript again changes nothing |
| SentRows.WalkIsJson | src/sent-rows.ts:79-100 | the walk answers what comparing the JSON would, where no field is silent |
| SentRows.WalkIsJsonExactly | src/sent-rows.ts:79-100 | and does so against every value of plain data exactly there |
| SentRows.SilentFieldCountsAsNull | src/sent-rows.ts:58-100 | a field JSON leaves out is told from an object without it, and not from null |
| SentRows.SameAsItself | src/sent-rows.ts:79-83 | an object is the same data as itself, so the shortcut for one changes no answer |
| Clock.OffsetTakenAt | src/clock-rows.ts:190-199 | finds the instant at which a zone took an offset |
| Clock.PastIsTheRemainder | src/clock-rows.ts:177-179 | what is left past the last multiple is the remainder |
| Clock.CandidateIsLatest | src/clock-rows.ts:175-180 | at one offset, the candidate reads a multiple of the interval, and nothing after it does |
| Clock.LatestBoundary | src/clock-rows.ts:170-184 | returns the greatest boundary at or before now, within two passes, where changes are at least a day apart |
| Clock.PlanClock | src/clock-rows.ts:259-281 | plans a clock where a boundary has passed since the last |
| Clock.PlannedAfterTheLast | src/clock-rows.ts:259-281 | exactly there; after the last clock, by a boundary of its own; on the latest boundary exactly where no row is later, and otherwise at the later of now and the newest row |
| Clock.ClocksIncrease | src/clock-rows.ts:259-281 | whatever is asked, a window's clocks strictly increase, at most one to a boundary |
| EditDistance.NoScriptIsCheaper | src/closest-names.ts:69-94 | no script of insertions, deletions, substitutions and swaps is cheaper than the distance |
| EditDistance.ScriptOfThatCost | src/closest-names.ts:69-94 | and one costs exactly it |
| EditDistance.AtLeastTheGap | src/closest-names.ts:75 | the distance is at least the difference of the lengths |
| EditDistance.ContainedIsTheGap | src/closest-names.ts:27-30 | and is that difference where one name holds the other |
| EditDistance.RowNoSmaller | src/closest-names.ts:88-89 | no row's smallest entry is below the one before it, transpositions included |
| EditDistance.NextRow | src/closest-names.ts:78-87 | one row of the table, and its smallest entry |
| EditDistance.EditDistanceWithin | src/closest-names.ts:74-94 | at most the limit exactly when the distance is, and then equal to it, despite the early exit |
| EditDistance.NoiseLimit | src/closest-names.ts:63-67 | a quarter of what follows the longest shared prefix, and at least one |
| EditDistance.IsNearMiss | src/closest-names.ts:49-54 | a slip is a part of the candidate, or within that many edits |
| ClosestNames.SegmentStands | src/closest-names.ts:23 | a whole segment of a name stands in it |
| ClosestNames.SegmentsSplit | src/closest-names.ts:23 | the segments are a name's pieces between each "--", taken from the left |
| ClosestNames.OneSplit | src/closest-names.ts:23 | and it has no other such pieces |
| ClosestNames.TierIs | src/closest-names.ts:22-26 | what each tier takes in: the same, a whole segment, a prefix, a part |
| ClosestNames.TierIsTheGap | src/closest-names.ts:22-30 | in tiers 0 to 3 the length difference is the edit distance |
| ClosestNames.SortsInRank | src/closest-names.ts:34-35 | the sort ranks by tier, then distance, then the order given, and keeps every entry |
| ClosestNames.FindClosest | src/closest-names.ts:16-37 | the first `max` names, or all, of every one that counts, each ranked by its true distance |
| LineReader.ReadIsSplit | src/line-reader.ts:27-49 | read a character at a time, a text gives what splitting it whole does |
| LineReader.WrittenIsRead | src/line-reader.ts:27-49 | lines written with any terminators read back as those lines, up to the first too long, and the end |
| LineReader.LineReader.Take | src/line-reader.ts:27-49 | a chunk is read as its characters one by one, after those before it |
| LineReader.LineReader.OnStreamEnd | src/line-reader.ts:52-62 | the last unfinished line is given, once |
| LineReader.ReadLines | src/line-reader.ts:15-71 | however a text is cut into chunks, the lines are those of the whole text, and too long in the same cases after the same lines |
| ToolResultCut.ToolResultCutAt | src/tool-image-ledger.ts:345-362 | finds the cut, moved back from a placeholder or a stub line it would split |
| ToolResultCut.NoSlotStraddles | src/tool-image-ledger.ts:336-344 | the cut is at the cap or before it, and no slot straddles it, nor a surrogate pair |
| ToolResultCut.CutIsLatest | src/tool-image-ledger.ts:336-344 | and it is the last such place by the cap |
| ToolResultCut.CutStoredToolResult | src/tool-image-ledger.ts:382-398 | one pass keeps the newest of exactly the slots past the cut that lie whole in a shown range |
| ToolResultCut.MoveHeadBack | src/tool-image-ledger.ts:479-481 | terminates with head and slots in the room, or no head |
| ToolResultCut.HeadIsLongest | src/tool-image-ledger.ts:453-464 | no cut by the cap whose head and slots fit has a longer head, as its note grows with what fell past the cut |
| ToolResultCut.DropOldest | src/tool-image-ledger.ts:482 | then keeps the newest slots that fit, and more would not |
| ToolResultCut.CutStoredToolResultToFit | src/tool-image-ledger.ts:475-488 | head and kept slots within the bound less the notice's room, or neither; and the whole text exactly where that keeps no head and would store no less |
| ToolResultCut.Share | src/tool-image-ledger.ts:447-451 | the shares of a message's results keep its bound |
| ToolImageLedger.EvictingAsTheyCome | src/tool-image-ledger.ts:164-170 | evicting as images come keeps what fitting all of them at once would |
| ToolImageLedger.NewestAreTheMost | src/tool-image-ledger.ts:164-170 | what is held is the longest run of newest images that fits |
| ToolImageLedger.HoldableAreMinted | src/tool-image-ledger.ts:99-144 | of every image minted whose bytes alone don't pass the budget, in the order minted |
| ToolImageLedger.ToolImageLedger.Retain | src/tool-image-ledger.ts:99-144 | a block keeps its ref while its record is held, and otherwise takes one never used before |
| ToolImageLedger.ToolImageLedger.LookUp | src/tool-image-ledger.ts:146-152 | a ref gives the bytes it was minted for, never another's; else its block, where it is among the newest minted that records are kept of; else nothing |
| ToolImageLedger.ToolImageLedger.TrimProvenance | src/tool-image-ledger.ts:174-183 | the oldest records past the most kept go, with their blocks' refs, and no other |
| Allocator.Limited.Refuse | engine/interface.c:139-150 | refuses past the soft limit, or past the limit once a refusal has opened the headroom |
| Allocator.Limited.Malloc | engine/interface.c:163-171 | what is counted is what is live, and neither limit is passed by more than a block's slack |
| Allocator.Limited.Calloc | engine/interface.c:152-161 | the same for a zeroed block of count times size, refused exactly where that passes the limit then in force |
| Allocator.Limited.Free | engine/interface.c:173-180 | the same, and no subtraction saturates |
| Allocator.ReallocKeepsLimits | engine/interface.c:182-195 | a realloc keeps both limits, from every state and whatever the library answers, exactly where it is of a block or to some size, or nothing is limited or over-allocated |
| Allocator.ReallocExactly | engine/interface.c:182-195 | what is counted stays what is live exactly where the library frees no block for a realloc to no size |
| Allocator.Limited.Realloc | engine/interface.c:182-195 | refuses exactly growth past the limit then in force, and gives what the library does otherwise; a block that can't be moved stays as it was |
| Allocator.UncheckedRealloc | engine/interface.c:182-195 | a realloc of no block to no size passes any limit, of a library whose blocks hold more than was asked |
| Allocator.ErrorFitsAfterRefusal | engine/interface.c:99-150 | right after a refusal with the headroom closed, a request within it less a block's slack is let through |

## Left out

- Chronicle, the context manager and membrane themselves: each is only the contract its callers rely on, and its failures are choices.
- Adopting an agent, rebasing it and retracting foreign rows (`src/presentation.ts`) are steps that register, move, write down and retract; which rows are foreign, and framing handed a reader fork, aren't modelled.
- Tracing, console lines, listeners and message wording: text is opaque, with lengths where a bound needs them.
- Placeholder, notice and stub grammars: spans of a text, with what the grammars ensure of them.
- `src/supplied-text.ts`, `src/sent-rows.ts`'s round rows and `src/thinking-token-stamp.ts`: they would add only easy members here.
- Object identity: a message the source returns as the same object is an equal value here; in `src/sent-rows.ts` the identity shortcut is replaced by `SentRows.SameAsItself`.
- Retry throttles of `src/provider-waits.ts`: whether a retry is due is a choice; a store-less instance, and the text of a key joined from agent and model, aren't modelled.
- ProviderWaits.DeadlineNeverShortens: the deadline is over real amounts; rounding of a sum of doubles isn't modelled.
- ProviderWaits.ProviderWaits.RestartBindsTheSame: is for a clock that doesn't run back, which the source's own clock is taken to be.
- Watermarks.RunEvents: redo and the watermark of what was shown aren't modelled.
- Windows.RemovedOk: a removal is one step, of whole bodies, as `src/stored-removal.ts` makes it; the context manager's own order of writes within it isn't modelled.
- PresentationMemo.StepOk: a branch move whose following fails before it rebases an agent isn't modelled: each move is followed by the agent's rebase before the store is back on the branch its memo is of.
- GuardSafety.NextOk: a run is one process's; a restart, which drops the queue and every hold, starts another. Where a withheld original is written, and the loop that compiles again after annotations, aren't modelled; releasing a hold is taken not to throw.
- RequestPrefixes.RequestsArePrefixes: is for windows that compile every row as stored, with an agent that reads only its own rows as its own; compression, image limits and sanitizing of empty text change what is compiled, not what is put before it.
- ProseDrafts.ProseDraftStore.Write: a held draft's id is taken to be new, as its random id is; drafts are values here where the source updates them in place.
- ClosestNames.FindClosest: case folding is a parameter.
- LineReader.ReadLines: a listener that stops the reading mid-chunk, and the decoding of bytes, aren't modelled.
- ToolResultCut.HeadIsLongest: is for a note no shorter where more fell past the cut, as the source words it; the wording itself isn't modelled.
- ToolResultCut.Share: the cap and the room for a withheld stub's kept fields, worked out beside the share, aren't modelled.
- ToolImageLedger.ToolImageLedger.Retain: digests, media types and times of what is retained aren't modelled.
- Clock.LatestBoundary: zones are their offsets in whole minutes; the formatting of clocks and their dates isn't modelled.
- The rest of `engine/interface.c`: its states and calls run guest code that QuickJS alone decides.
