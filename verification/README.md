# The coordination kernel: a verified model

This project models the coordination kernel of the main process: the small stateful protocols that pass
mail, cards, keystrokes, tokens and secrets between agents that may act, crash or answer late. Each
protocol is a state machine. Its steps are the synchronous stretches of the source between two awaits,
timers or processes; what the outside world answers (a failing disk, a live terminal, the clock, whether
a send went through) comes in with the step.

For every component there are three or four modules. The first holds the entities, a specification
function for each operation, and a class whose methods update its fields in place as the source does and
are proved to compute that function. Those whose name ends in `Laws` say what that function means without
naming it or its helpers: in the fields, texts, numbers and orders of what goes in and comes out. The others
prove what every run keeps.

| modules | what they are about |
|---|---|
| `DeliveryQueue`, `QueueLaws`, `DeliveryRuns` | the durable queue drained by overlapping sends |
| `TerminalWrites`, `TerminalLaws`, `WriteChains`, `TerminalRuns` | per-terminal write chains and the account failover |
| `Board`, `BoardLaws`, `BoardRoundTrip` | splitting, condensing and verifying `board.md` |
| `CostLedger`, `CostLaws`, `CostRuns`, `CostRefusals` | the incremental per-card spend against a full rescan, with and without refused appends |
| `TaskLedger`, `TaskLaws`, `TaskRuns` | the card ledger under compare-and-swap by two kinds of writer |
| `Routing`, `RoutingLaws`, `RoutingRuns` | the router, its bounces and the hop cap |
| `Replies`, `ReplyLaws`, `ReplyRuns` | reply deadlines |
| `Reviews`, `ReviewLaws`, `ReviewRuns` | peer review of finished cards |
| `StopDrain`, `DrainLaws`, `DrainRuns` | the per-inbox cursor |
| `Breaker`, `BreakerLaws`, `BreakerRuns`, `BreakerCaps` | the circuit breaker, with cards within their caps and past them |
| `ClosingTime`, `ClosingLaws`, `ClosingRuns` | the graceful shutdown |
| `Tokens`, `TokenLaws`, `TokenRuns` | per-spawn tokens of terminals and proxy sidecars |
| `Utf8`, `Utf8Laws`, `Streams`, `StreamLaws` | the bounded output tail and the one line of a hook connection, decoded piece by piece (RFC 3629) |
| `Committer`, `CommitLaws`, `CommitRuns` | the debounced git committer |
| `ConfigStore`, `ConfigLaws`, `ConfigRuns` | the configuration and its secrets |
| `Ipv6`, `Ipv6Laws`, `Ipv6Spellings`, `Ipv6Exactly` | the text form of IPv6 addresses (section 2.2 of RFC 4291) |
| `Options`, `Text`, `TextLaws` | shared: optional values, white space, joining and numerals |

## What turned out not to hold

Each of these is a lemma with a concrete input or an exact condition; the code is modelled as it is.

- A card that leaves the board, is pruned and returns has forgotten its spend (`CostRuns.ReturningCardForgetsItsSpend`); with every append written, the fast form agrees with the rescan exactly when pruning took nothing (`CostRuns.FastIsSlowExactlyWhenNothingLost`).
- A sample the disk refused is still charged in memory. Over any run, what is kept plus what pruning took is the spend of the ledger with the refused rows in it (`CostRefusals.KeptPlusLostIsSeen`), so the kept figure is a rescan's exactly when the two amounts make up for each other (`CostRefusals.RefusalsShowExactly`); a single refused row shows exactly when its own movement is not given back by the next row of its series (`CostRefusals.OneRefusalShowsExactly`), which is when it lies outside its neighbours (`CostRefusals.MadeUpForExactlyBetween`); `CostRuns.RefusedAppendParts` is a run in which it shows.
- Two writers inside each other's window between the revision check and the rename both succeed and one update is gone (`TaskRuns.RaceLosesAnUpdate`); `TaskRuns.RevCountsIffUndisturbed` is the exact condition.
- A card past its cap trips before the no-progress arm is asked, so that arm's counter may miss its start; then, and only then, the budgeted run can come to stand lower (`BreakerCaps.OverCapWeakensExactly`, `BreakerCaps.OvertakenExactly`), after rest and one idle burning beat (`BreakerCaps.MissedStartShows`; `BreakerRuns.OverCapCanWeaken` is such a run). As long as no counter misses its start, budgets of any kind only strengthen (`BreakerCaps.BudgetsOnlyStrengthen`).
- Forgetting a terminal is safe exactly when no submit is pending on it (`TerminalRuns.ForgettingIsSafeExactlyWhenQuiet`), and so is the teardown of a failover (`TerminalRuns.FailoverIsSafeExactlyWhenQuiet`), which nothing makes wait: a job still waiting for its terminal when the failover kills it is typed into the successor together with the "continue", and its Enter sends both (`TerminalRuns.FailoverCanJam`).
- A sweep that throws has already noted every card as done. A card that just got done keeps its claim to a review exactly when no card before it was due with a query that throws (`ReviewRuns.AbortedSweepLosesReviews`), and one that lost it is never asked about again while it stays done and unrefused (`ReviewRuns.LostReviewsStayLost`); the comment at `src/main/hive.ts:2030-2031` speaks only of the card whose mail failed.
- A ledger that turns a patch down without a throw goes unnoticed. After a query the obligation is gone though no review is recorded (`ReviewRuns.SilentRefusalLosesTheVerdict`), against the comment at `src/main/hive.ts:2030-2031`; after a refusing verdict the review stays open, so the new obligation waits for nobody (`ReviewRuns.MissedRefusalStalls`).
- The comment at `src/main/hive.ts:1804-1806` says that only single-recipient messages open an obligation; a broadcast that resolves to one target opens one too (`RoutingRuns.OpensForOneTarget`).
- All bounces of one broadcast carry its id, so in the god's inbox each overwrites the one before (`RoutingRuns.BounceSurvivesIffLast`).
- The comment at `src/main/hive.ts:1388-1391` says a message is surfaced exactly once. An id is handed over again exactly when it is the empty one and no longer id has been handed over since (`DrainRuns.RepeatsExactlyTheEmptyId`; `DrainRuns.EmptyIdComesBack` is such a run). A message that waits for the next drain is handed over exactly when its id is past the cursor as it arrives (`DrainRuns.DrainedExactlyIfPastOnArrival`), so a reminder, whose id derives from an old one, is missed once a newer message has been handed over (`DrainRuns.RemindersCanBeMissed`).
- A proxy token stays registered with no process to present it exactly when the latest start of that sidecar made the token and threw, or the sidecar it started failed after the start had returned and nobody has started or stopped it, or seen its exit, since (`TokenRuns.StrandedExactlyAfterAFailedStart`).
- The hook server decodes each chunk of a connection by itself. The line it handles is the one that was sent if and only if no chunk of it ends inside a character (`Utf8.PiecesDecodeExactlyIfClean`, `Streams.CuttingIsInvisibleExactly`); `C3 A9` at once and cut in two are handled as different lines (`Streams.CutCharacterChangesTheLine`).
- Padded with blanks, the placeholder is not taken for "unchanged", against `src/main/config.ts:951-954`: the field then reads as the store has it. That is as before exactly when encryption is available or nothing was shown, and, without a file, when the store holds nothing readable (`ConfigRuns.PaddedPlaceholder`). An endpoint's secret is as before, with encryption, exactly when the endpoint was shown or the store has no secret for it: a padded placeholder brings a removed endpoint's secret back (`ConfigRuns.PaddedEndpoint`).
- A write of the configuration that throws has moved the secrets all the same: the fields read as if it had succeeded, beside the endpoints, missions and rest of the old file (`ConfigRuns.FailedWriteChangesSecrets`).
- A board whose kept sections include one with nothing after its mark condenses to a board with fewer sections, which its own gate then turns down (`BoardRoundTrip.VerdictOnCondensed`).
- The reader of IPv6 addresses accepts more than section 2.2 of RFC 4291 allows, in two families: `::` may stand for no group (`Ipv6Spellings.EmptyGapIsRead`), and whatever the host reads as a number up to 255 may stand for an octet, such as `0x7f` or nothing at all (`Ipv6Exactly.OddOctetIsRead`). Those are all: a text is read in one way only (`Ipv6Exactly.SpellingIsUnique`), and one that is read is legal exactly when it is in neither family (`Ipv6Exactly.LegalExactlyIf`); what is legal is read (`Ipv6Exactly.LegalIsRead`). `Ipv6Exactly.ReadsExactlyTheReadable` says which texts are read, and as what.

## Hypotheses of the main theorems

- Delivery: one queue path; the file's rows at the start have distinct ids, stamped before the process began, and fewer than three attempts each (`Started`); a row's id is the clock instant and a counter, and the clock does not go behind the start of the process (`ClockOk`).
- Terminal writes: for the pairs and the stray Enter, no terminal is forgotten with a submit pending on it (`Orderly`), by an exit or by a failover; the guard's theorems have no hypothesis. Steps have no durations, so the two lemmas on forgetting also count continuations in which an Enter already due comes later than a new terminal takes to start.
- Card ledger: a check and its rename act as one step (`UndisturbedRun`), except in the two lemmas about the window.
- Cost: the accumulator starts unbuilt (`Fresh`); appends reach the disk (`AppendsSucceed`), except in `CostRefusals`. Amounts are real numbers; the source adds doubles, so where a theorem regroups sums, as kept plus pruned does, it holds of the program up to rounding.
- Reviews: card ids are unique, which `TaskRuns.IdsStayUnique` proves of the ledger. What becomes of mails and patches is free; only `ReviewRuns.QueriesAreEarned` asks that recording a mailed query does not throw.
- Tokens: no token is made twice; exit handlers run as steps of their own.
- Configuration: encryption is available throughout or not at all, a file is read back as written, and the trigger ids and mission ids of a configuration are unique.
- IPv6: up to three decimal digits are read as the number they denote (`ReadsDecimals`); nothing is asked of how the host reads other texts.
- Hook connections: a chunk is decoded as UTF-8 with one replacement character for each stretch of bytes that begins a character and does not finish it and for each byte that begins none, and its text is counted in UTF-16 code units. That reading undoes the encoding of section 3 of RFC 3629 (`Utf8.EncodedReadsBack`), whose boundaries are the ends of characters (`Utf8.BoundariesAreCharacters`).

## Model

| member | source | states |
|---|---|---|
| DeliveryQueue.DeliveryService.LoadQueue | src/main/delivery.ts:411-446 | loads the well-formed rows once; an unreadable file stays unloaded and unarmed, a missing or corrupt one counts as empty |
| DeliveryQueue.DeliveryService.SaveQueue | src/main/delivery.ts:457-469 | replaces the file by the rows in memory, unless nothing is loaded or the write fails |
| DeliveryQueue.DeliveryService.CommitQueue | src/main/delivery.ts:474-486 | a mutator's last act: save, then the snapshot that may load again |
| DeliveryQueue.DeliveryService.EnqueueMessage | src/main/delivery.ts:499-544 | each refusal in order, the per-agent bound, the one waiting compaction, and otherwise the new row at the end and on disk |
| DeliveryQueue.DeliveryService.RemoveQueued | src/main/delivery.ts:547-553 | takes out exactly the first row of that agent and id |
| DeliveryQueue.DeliveryService.ReleaseQueued | src/main/delivery.ts:557-565 | moves that row to the front, marked for manual release |
| DeliveryQueue.DeliveryService.ClearQueued | src/main/delivery.ts:568-572 | drops that agent's rows and no other |
| DeliveryQueue.DeliveryService.DrainQueue | src/main/delivery.ts:588-610 | claims, for each live agent in turn, its eligible head and starts the agent's cooldown |
| DeliveryQueue.DeliveryService.TickOnce | src/main/delivery.ts:759-812 | starts nothing while the previous tick has sends in flight |
| DeliveryQueue.DeliveryService.OnSent | src/main/delivery.ts:612-656 | an acknowledged row leaves, wherever it stands by now |
| DeliveryQueue.DeliveryService.OnFailed | src/main/delivery.ts:612-656 | counts one more attempt, drops the row at the bound, and frees the claim |
| DeliveryRuns.RowsAreAccountedFor | src/main/delivery.ts:499-656 | over any run, exactly which steps bring a row in and take it out; an accepted id is new |
| DeliveryRuns.LeavesOnceAndForGood | src/main/delivery.ts:588-656 | a row that left never returns and is never claimed again |
| DeliveryRuns.OneSendInFlight | src/main/delivery.ts:588-656 | at most one send in flight per row, and per agent |
| DeliveryRuns.TypedAtMostThrice | src/shared/queueDelivery.ts:66-125 | over any run no row is typed more often than the retry bound |
| DeliveryRuns.TickClaimsHeads | src/shared/queueDelivery.ts:103-115 | a tick claims exactly the eligible heads of the ready agents |
| DeliveryRuns.ClaimsAreSpaced | src/shared/queueDelivery.ts:61-61 | two claims for one agent are a cooldown apart, whatever happens between |
| DeliveryRuns.FileMirrorsMemory | src/main/delivery.ts:448-480 | if writes succeed, a restart at any moment loads the queue as it stands |
| DeliveryRuns.UnreadableIsNeverOverwritten | src/main/delivery.ts:392-446 | a file that could not be read is not written by any run of steps that cannot read it |
| DeliveryRuns.WritingStartsFromTheFile | src/main/delivery.ts:411-480 | the first step that writes leaves, id by id, the well-formed rows of the file as it was, apart from what the step itself does |
| DeliveryRuns.SavedIsReadable | src/main/delivery.ts:411-469 | what is saved is what a restart loads |
| QueueLaws.LoadsTheGoodRows | src/main/delivery.ts:411-446 | a load takes exactly the well-formed rows of the file; a missing or corrupt one has none |
| QueueLaws.CompactionIsTheVerb | src/shared/providerAutomation.ts:183-185 | a text asks to compact exactly if its first word is `/compact` or `/compress` |
| QueueLaws.AcceptedExactly | src/main/delivery.ts:499-531 | a request is accepted if and only if its agent is known, its text is not blank, fewer than two hundred rows wait for the agent, and no second compaction would wait for it |
| QueueLaws.RefusedExactly | src/main/delivery.ts:499-531 | the reason each other request is given, the first one first |
| QueueLaws.AcceptedRow | src/main/delivery.ts:534-544 | what was accepted is one more row, the last: the trimmed text for the trimmed agent, typing the instruction if there is one and the text otherwise, not tried yet and not released; the file has the same |
| QueueLaws.TypesWhatWasWanted | src/main/delivery.ts:499-656 | over any run, what a tick types to an agent is what an accepted request for that agent wanted typed under that id, or what the file held for it at the start |
| QueueLaws.EligibleInFields | src/shared/queueDelivery.ts:66-125 | an agent's first row may be claimed 4.5 s after its last claim, and on a paused floor only if released by hand |
| QueueLaws.RemoveTakesTheFirst | src/main/delivery.ts:547-553 | the first row of that agent and id goes and no other; without one nothing moves |
| QueueLaws.ReleasePutsItFirst | src/main/delivery.ts:557-565 | that row comes before all others, marked, and the rest keep their order |
| QueueLaws.ClearLeavesOthers | src/main/delivery.ts:568-572 | the rows of other agents stay, in their order |
| QueueLaws.FailureInFields | src/main/delivery.ts:640-656 | a failed write is counted on its row, wherever it stands by now; the third takes it out |
| QueueLaws.TicksInFields | src/main/delivery.ts:758-812 | a tick begins only by itself, and ends exactly when its end finds no send of it in flight |
| TerminalWrites.Typist.Submit | src/main/delivery.ts:880-896 | chains behind the terminal's latest submit |
| TerminalWrites.Typist.BeginWrite | src/main/delivery.ts:880-910 | starts once its predecessor settled, waits for the terminal, types the payload, and ends rejected if either fails |
| TerminalWrites.Typist.EndWrite | src/main/delivery.ts:880-896 | after the gap, presses Enter for its own payload |
| TerminalWrites.Typist.ForgetPty | src/main/delivery.ts:348-351 | drops the terminal's chain |
| TerminalWrites.Typist.TeardownPty | src/main/floor/lifecycle.ts:222-253 | takes the terminal off the floor and drops its chain |
| TerminalWrites.Typist.SwitchAccount | src/main/delivery.ts:818-856 | does nothing while the agent's guard is held; otherwise takes it and starts a failover, which tears the agent's terminal down if there is one to respawn |
| TerminalWrites.Typist.PressEnterWhileParked | src/main/delivery.ts:860-867 | presses Enter while the agent is parked, a bounded number of times, and releases the guard at the end |
| TerminalRuns.PairsAreUnbroken | src/main/delivery.ts:880-896 | on every terminal each landed payload is directly followed by its own Enter, in call order |
| TerminalRuns.NoStrayEnter | src/main/delivery.ts:860-867 | whichever terminal the agent has when a failover presses Enter, no pair is open and no submit pending there |
| TerminalRuns.GuardIsTheFailover | src/main/delivery.ts:818-867 | over any run the guard holds an agent if and only if an unfinished failover of it exists, and never two do |
| TerminalRuns.EndingFreesTheGuard | src/main/delivery.ts:850-867 | whichever step ends a failover frees the agent's guard |
| TerminalRuns.OnlyItsContinue | src/main/delivery.ts:780-856 | from a failover's start to its end nothing is submitted for its agent but its own "continue" |
| TerminalRuns.FailoversEnd | src/main/delivery.ts:818-867 | a failover is over after at most two steps more than the bound on its presses |
| TerminalRuns.ForgettingIsSafeExactlyWhenQuiet | src/main/delivery.ts:348-351 | after any run, forgetting a terminal leaves every continuation's pairs unbroken if and only if nothing is pending on it |
| TerminalRuns.FailoverIsSafeExactlyWhenQuiet | src/main/floor/boot.ts:381-387 | after any run, a failover that kills its agent's terminal leaves every continuation's pairs unbroken if and only if nothing is pending there |
| TerminalRuns.FailoverCanJam | src/main/floor/boot.ts:381-387 | a job waiting for the terminal a failover kills is typed together with the "continue", and its Enter falls inside that pair |
| TerminalLaws.JobInFields | src/main/delivery.ts:780-810 | a job goes to the agent's first terminal on the floor, behind the newest submit of its chain; none while a failover of the agent is under way |
| TerminalLaws.BeginInFields | src/main/delivery.ts:880-910 | a payload is typed into its own terminal once the submit before it settled, and nowhere else |
| TerminalLaws.EndInFields | src/main/delivery.ts:880-896 | an Enter follows its own payload, in the same terminal |
| TerminalLaws.SwitchInFields | src/main/delivery.ts:818-850 | what a failover does to guard, floor and chains, by whether the agent has a terminal and a way to rebuild it |
| TerminalLaws.RespawnInFields | src/main/delivery.ts:823-846 | "continue" goes to the terminal the agent has by then, or the failover ends |
| TerminalLaws.PressInFields | src/main/delivery.ts:860-867 | Enter is pressed there while the agent sleeps, at most four times |
| Board.SplitBoardSections | src/main/delivery.ts:957-971 | computes the preamble and the sections of the layout |
| Board.VerifyBoard | src/main/delivery.ts:978-1005 | computes the gate's verdict, including the comparison that runs past a board with too few sections |
| BoardRoundTrip.LayoutIsFaithful | src/main/delivery.ts:957-971 | splitting drops, adds and reorders no line and cuts exactly at the headings |
| BoardRoundTrip.LayoutIsUnique | src/main/delivery.ts:957-971 | any preamble without headings and any sections come back from their concatenation |
| BoardRoundTrip.CondensedCount | src/main/delivery.ts:939-954 | a condensed board has as many sections as kept ones with something after their mark, and a preamble that starts with the old one |
| BoardRoundTrip.CondensedSplitsBack | src/main/delivery.ts:939-954 | splitting a condensed board gives the newest sections up to trailing blanks, and condensing again has nothing to do |
| BoardRoundTrip.VerdictOnCondensed | src/main/delivery.ts:939-1005 | the gate's verdict on a condensed board, in full: not smaller, accepted, or a missing section, and exactly when |
| BoardLaws.CondensedInWords | src/main/delivery.ts:939-954 | a board of more than `keep` sections becomes, word for word, its preamble, the line about the rest and the last `keep` sections, an empty line between them |
| BoardLaws.SmallerExactly | src/main/delivery.ts:978-984 | a rewrite is small enough exactly if its UTF-8 encoding is more than a twentieth shorter |
| BoardLaws.AcceptedExactly | src/main/delivery.ts:978-1005 | the gate accepts if and only if the rewrite is not blank, small enough, begins with the old preamble and has just the last `keep` old sections, up to blanks at their ends |
| BoardLaws.RefusedExactly | src/main/delivery.ts:978-1005 | each refusal, exactly |
| CostLedger.HiveCosts.ApplyCostRow | src/main/hive.ts:2652-2670 | charges the clamped movement of the row's series to its card and moves the baseline |
| CostLedger.HiveCosts.RescanCostLedger | src/main/hive.ts:2677-2693 | rebuilds both maps from the whole file, skipping torn lines, and prunes |
| CostLedger.HiveCosts.PruneCostByTask | src/main/hive.ts:2698-2703 | keeps the entries of cards on the board |
| CostLedger.HiveCosts.ActiveTaskId | src/main/hive.ts:2712-2725 | answers from the card map, rebuilt when stale |
| CostLedger.HiveCosts.AppendCostLedger | src/main/hive.ts:2571-2599 | stamps, appends and folds in one sample |
| CostLedger.HiveCosts.TaskSpend | src/main/hive.ts:2738-2744 | builds on first use and answers for one card |
| CostLedger.HiveCosts.BudgetForAgent | src/main/hive.ts:2768-2774 | spend and cap of the agent's card in flight |
| CostLedger.ActiveMapIsFirstDoing | src/main/hive.ts:2712-2725 | the card map names each agent's first card in flight |
| CostLaws.FirstRowIsCharged | src/main/hive.ts:2652-2670 | the first row of a series adds its input and output tokens and its dollars to its card and to no other |
| CostLaws.LaterRowIsCharged | src/main/hive.ts:2652-2670 | a later one adds what input and output together, and dollars, rose by over the row before it of the same agent and session, and never less than nothing |
| CostLaws.StampIsWork | src/main/hive.ts:2712-2725 | a sample is stamped with the agent's first card in flight, as of at most five seconds ago |
| CostLaws.FirstSampleIsCharged | src/main/hive.ts:2571-2670 | at any moment of any run, what a session's first sample adds to what each card on the board is answered |
| CostLaws.LaterSampleIsCharged | src/main/hive.ts:2571-2670 | the same of a later sample |
| CostLaws.CapIsOfTheFirst | src/main/hive.ts:2738-2744 | a card's cap is that of the first card with its id, if it is positive |
| CostRuns.ScanIsSpend | src/main/hive.ts:2652-2693 | folding row by row computes the spend defined without an accumulator |
| CostRuns.LatestIsLastOfSeries | src/main/hive.ts:2652-2670 | a baseline is the snapshot of the last row of its series |
| CostRuns.KeptPlusLostIsSpend | src/main/hive.ts:2571-2724 | over any run, baselines agree exactly, and what is kept plus what pruning took is what the card cost |
| CostRuns.FastIsSlowExactlyWhenNothingLost | src/main/hive.ts:2571-2744 | the kept figure is that of a fresh rescan if and only if pruning took nothing from the card |
| CostRuns.FastRefinesSlow | src/main/hive.ts:2571-2744 | for a card on the board since the accumulator was built, spend equals a fresh rescan and so do all baselines |
| CostRuns.ReturningCardForgetsItsSpend | src/main/hive.ts:2698-2703 | the hypothesis about the board is needed |
| CostRefusals.KeptPlusLostIsSeen | src/main/hive.ts:2571-2724 | with refused appends too, kept plus pruned is the spend of the ledger with the refused rows, and the baselines are those of its scan |
| CostRefusals.SpendWithout | src/main/hive.ts:2652-2670 | what one row is worth to each card, wherever it stands: its movement and the change of the next movement of its series |
| CostRefusals.RefusalsShowExactly | src/main/hive.ts:2571-2744 | over any run a card is answered as a rescan answers it if and only if what pruning took is what the refused rows are worth |
| CostRefusals.OneRefusalShowsExactly | src/main/hive.ts:2571-2744 | one refused row shows if and only if it is worth something to the card |
| CostRuns.ChargedIsLastPlusFalls | src/main/hive.ts:2601-2670 | a series is charged its last snapshot plus every fall it took |
| CostRuns.ChargeBounds | src/main/hive.ts:2601-2670 | at least each snapshot, at most their sum, and the last one when the series never falls |
| CostRuns.SpendNeverFalls | src/main/hive.ts:2738-2744 | a card's spend never falls as rows are added |
| CostRuns.WindowTelescopes | src/main/hive.ts:2601-2670 | a card pays for what a series did while it was stamped with the card |
| CostRuns.SeriesKeysAreDistinct | src/main/hive.ts:2652-2670 | two rows share a series exactly when agent and session agree |
| TaskLedger.LedgerFile.Compose | src/main/hiveTemplates.ts:82-130 | the next cards of each mutation, or none when it has nothing to do |
| TaskLedger.Mutator.ReadLedger | src/main/hive.ts:2168-2176 | reads the ledger and composes the next cards from it |
| TaskLedger.Mutator.CheckRev | src/main/hiveTemplates.ts:45-51 | goes on only if the revision is still the one read; otherwise retries a bounded number of times |
| TaskLedger.Mutator.RenameIntoPlace | src/main/hive.ts:2139-2153 | replaces cards and revision together |
| TaskRuns.NoLostUpdates | src/main/hive.ts:2139-2204 | over any interleaving, the revision counts the writes, each applied to the cards exactly as the one before left them |
| TaskRuns.RevCountsIffUndisturbed | src/main/hiveTemplates.ts:44-64 | the window between check and rename: the count survives if and only if no other write fell into it |
| TaskRuns.RaceLosesAnUpdate | src/main/hiveTemplates.ts:44-64 | two writers in each other's window |
| TaskRuns.WriteTouchesOneCard | src/main/hive.ts:2181-2204 | when a mutation applies, what becomes of its card, and that all others survive |
| TaskRuns.LandedCards | src/main/hive.ts:2139-2153 | the same of a landed write, after the strip of derived fields |
| TaskRuns.IdsStayUnique | src/main/hive.ts:2181-2184 | ids stay unique over a history if and only if the command line never adds a taken one |
| TaskRuns.UntouchedFieldSurvives | src/main/hive.ts:2139-2204 | a field no later write touches is carried by every later ledger, a numeric cap among them |
| TaskRuns.QuestionsOnlyGrow | src/main/hiveTemplates.ts:100-130 | a card's question history only grows |
| TaskLaws.StripKeepsDurable | src/main/hive.ts:185-195 | a stripped card keeps exactly its fields other than the meter's, a cap only if it is a number |
| TaskLaws.AddLands | src/main/hive.ts:2181-2184 | an addition by the main process lands at the end, with its id free, and keeps every card's durable fields |
| TaskLaws.PatchLands | src/main/hive.ts:2188-2195 | a patch goes over the fields of the first card of its id; all others stay |
| TaskLaws.DeleteLands | src/main/hive.ts:2198-2203 | a deletion leaves exactly the cards of other ids, in their order |
| TaskLaws.CliPatchLands | src/main/hiveTemplates.ts:100-130 | a patch by the command line, and what a question makes of its card: asked after all earlier ones, and blocked |
| TaskLaws.NothingToDoExactly | src/main/hive.ts:2181-2204 | exactly when a mutation has nothing to do |
| TaskLaws.GivesUpExactly | src/main/hiveTemplates.ts:44-64 | over any run a writer gives up if and only if it has lost five races, two for the main process |
| Routing.HiveRouter.Deliver | src/main/hive.ts:1551-1556 | one file in the recipient's inbox, or nothing when there is no inbox |
| Routing.HiveRouter.SendTo | src/main/hive.ts:1599-1665 | inbox, terminal order or bounce, by who the target is |
| Routing.HiveRouter.TargetsOf | src/main/hive.ts:1588-1601 | resolves the recipient or the active roster, never the sender |
| Routing.HiveRouter.RouteMessage | src/main/hive.ts:1566-1675 | the whole new floor after one message |
| RoutingRuns.LandsSomewhere | src/main/hive.ts:1566-1665 | where a single-recipient message lands, with no other inbox touched |
| RoutingRuns.LandsExactlyOnce | src/main/hive.ts:1566-1730 | exactly one of inbox, accepted hand-off and the god's inbox, and which, if and only if |
| RoutingRuns.OpensForOneTarget | src/main/hive.ts:1808-1833 | a message opens an obligation if and only if it is within the cap, asks for a reply and resolves to one target |
| RoutingRuns.TargetsAreOthers | src/main/hive.ts:1588-1601 | no target is the sender, and a broadcast's are active and take mail |
| RoutingRuns.OthersGetTheirCopy | src/main/hive.ts:1566-1665 | each addressed agent that takes mail has the broadcast, and nobody else's inbox changed |
| RoutingRuns.GodIsLeftTheLast | src/main/hive.ts:1551-1556 | the god's inbox keeps what the last target wrote there |
| RoutingRuns.BounceSurvivesIffLast | src/main/hive.ts:1599-1665 | a broadcast's bounce survives if and only if no later target writes to the god's inbox |
| RoutingLaws.OneRecipient | src/main/hive.ts:1566-1665 | a message to one agent: the whole floor after it, with the recipient, the bounce and its subject spelled out |
| RoutingLaws.ToOneself | src/main/hive.ts:1588-1601 | mail to oneself goes nowhere |
| RoutingLaws.PastTwelveHops | src/main/hive.ts:1569-1590 | past twelve hops only the god hears of it |
| RoutingLaws.BroadcastReaches | src/main/hive.ts:1588-1601 | a broadcast goes to exactly the agents on the roster that are not its sender, no assistants, not archived and receive, in the order of the roster |
| RoutingLaws.BroadcastLands | src/main/hive.ts:1566-1665 | and lands in exactly the inboxes of those who take mail there |
| RoutingLaws.BroadcastHandsOver | src/main/hive.ts:1599-1665 | and is handed to exactly the terminals of the others whose order was accepted |
| RoutingLaws.ReplyIsWaitedFor | src/main/hive.ts:1808-1833 | whether a reply is waited for, and from whom |
| Replies.ReplyLedger.TrackReplies | src/main/hive.ts:1808-1833 | closes what the message answers and opens what it asks for |
| Replies.ReplyLedger.SweepUnansweredReplies | src/main/hive.ts:1856-1889 | reminds or escalates everything due, and counts it |
| ReplyRuns.RunIsOrderly | src/main/hive.ts:1808-1889 | over any run the life of an obligation: one reminder a deadline after the opening, then one answer or one escalation a deadline after that |
| ReplyRuns.OneReminderPerOpening | src/main/hive.ts:1856-1889 | reminders and closings never outnumber openings |
| ReplyRuns.EntersAndLeaves | src/main/hive.ts:1808-1889 | exactly how an entry comes and goes: explicit reply, same-conversation message of who owes it, escalation |
| ReplyRuns.SweepsWindDown | src/main/hive.ts:1856-1889 | a sweep opens nothing, and two per fresh plus one per reminded entry drops by at least what it acted on |
| ReplyRuns.SilenceEnds | src/main/hive.ts:1846-1889 | all the sweeps to come act at most twice per open obligation |
| ReplyLaws.StepInFields | src/main/hive.ts:1808-1889 | each step, obligation by obligation: who owes whom in which conversation, and until when |
| ReplyLaws.PendingIsOwed | src/main/hive.ts:1808-1889 | over any run, what is pending was asked by a message of that id, of its one recipient, and nothing routed since has answered it |
| Reviews.TaskReviews.LeastLoadedIdle | src/main/hive.ts:1942-1950 | the first least loaded agent that may review, or none |
| Reviews.TaskReviews.SweepTaskReviews | src/main/hive.ts:1973-2036 | one whole sweep, a throw included, and the number of queries it reports |
| Reviews.TaskReviews.ApplyReviewVerdict | src/main/hive.ts:2040-2059 | signs a card off or reopens it with a new obligation |
| ReviewRuns.SweepAsksExactly | src/main/hive.ts:1973-2036 | whatever becomes of the mails and patches, a card is asked about if and only if no throw ended the sweep before it, it is ripe, owed or freshly done, somebody is free and the mail goes out; and the obligations that remain |
| ReviewRuns.FirstSweepAsksNothing | src/main/hive.ts:1973-1984 | the first sweep sends nothing |
| ReviewRuns.OpenReviewsAreLeftAlone | src/main/hive.ts:1989-1994 | no query goes out while a review is open |
| ReviewRuns.SettledCardsAreLeftAlone | src/main/hive.ts:1892-1917 | a card done at every sweep so far and never refused is never asked about |
| ReviewRuns.ObligationsSurvive | src/main/hive.ts:1919-1932 | an obligation lasts until a query goes out or the card leaves the board, whatever fails |
| ReviewRuns.QueriesAreEarned | src/main/hive.ts:1973-2059 | no more queries than the card came to be done or was refused, unless recording a query threw |
| ReviewRuns.AbortedSweepLosesReviews | src/main/hive.ts:1981-2034 | a card that just got done is owed or asked about after the sweep if and only if no card before it was due with a query that throws |
| ReviewRuns.LostReviewsStayLost | src/main/hive.ts:1981-2034 | a card that lost its review that way is asked about by no later sweep while it stays done and unrefused |
| ReviewRuns.SilentRefusalLosesTheVerdict | src/main/hive.ts:2029-2032 | a patch turned down in silence clears the obligation, and no verdict is heard that was not heard before |
| ReviewRuns.MissedRefusalStalls | src/main/hive.ts:2046-2057 | a refusal whose patch is turned down leaves the review open, and the next sweep asks nobody |
| ReviewLaws.DueInFields | src/main/hive.ts:1987-2010 | when a card is due for a query, in its fields and those of the agents |
| ReviewLaws.QueriesAreWellAddressed | src/main/hive.ts:1942-2034 | every query of a sweep goes to the first least loaded agent that may review and is not the author, counting what the sweep has sent already; and where it is recorded the card names that agent |
| ReviewLaws.OnlyTheAskedIsHeard | src/main/hive.ts:2040-2046 | only the agent that was asked is heard on a card |
| ReviewLaws.LeavingForgets | src/main/hive.ts:1974-1980 | after a sweep no review is owed to a card that is not on the board |
| ReviewLaws.VerdictIsWritten | src/main/hive.ts:2046-2059 | what a landed verdict leaves on the card and on every other |
| StopDrain.AgentInbox.DrainForStop | src/main/hive.ts:1392-1415 | hands over everything past the cursor in order and moves the cursor |
| DrainRuns.HandedOverOnce | src/main/hive.ts:1392-1415 | no id but the empty one is handed over by two drains, in whatever order messages arrive |
| DrainRuns.RepeatsExactlyTheEmptyId | src/main/hive.ts:1396-1400 | a drain is about to repeat an id if and only if the empty id is the cursor and in the inbox |
| DrainRuns.CursorNeverGoesBack | src/main/hive.ts:1392-1415 | the cursor never goes back |
| DrainRuns.LateIdsAreNeverHandedOver | src/main/hive.ts:1396-1400 | an id that is not past the cursor is handed over by no later drain |
| DrainRuns.DrainedExactlyIfPastOnArrival | src/main/hive.ts:1392-1415 | a message still there at the next drain is handed over, then or later, if and only if its id was past the cursor when it arrived |
| DrainRuns.NothingIsMissed | src/main/hive.ts:1388-1403 | with rising ids every message in the inbox has been handed over by the end of a drain |
| DrainRuns.RemindersCanBeMissed | src/main/hive.ts:1863-1868 | a reminder is handed over by no drain once a newer message has been |
| DrainLaws.LessByFirstDifference | src/main/hive.ts:1396-1403 | ids are ordered by their first differing character, a prefix first |
| DrainLaws.DrainInFields | src/main/hive.ts:1392-1415 | a drain hands over each id past the cursor as often as it lies there, and nothing else |
| DrainLaws.HandedOverInOrder | src/main/hive.ts:1392-1415 | in that order, and the cursor is the last of them |
| Breaker.CircuitBreaker.RecordToolUse | src/main/breaker.ts:182-193 | counts repeats of one call and notes the latest different one |
| Breaker.CircuitBreaker.RecordCompactEnd | src/main/breaker.ts:212-215 | shortens a running grace and no other |
| Breaker.CircuitBreaker.Evaluate | src/main/breaker.ts:317-434 | the arms in order, and the no-progress counter they leave |
| Breaker.CircuitBreaker.TickOne | src/main/breaker.ts:277-314 | one agent's beat: its trip, its rank and the decision |
| Breaker.CircuitBreaker.TickAll | src/main/breaker.ts:238-314 | a whole beat over the floor |
| BreakerRuns.TopIsFirstGreatest | src/main/breaker.ts:251-276 | the scan finds the first greatest amount and the total |
| BreakerRuns.BlamedIsBiggestSpender | src/main/breaker.ts:251-276 | exactly when somebody is blamed for the floor, and that it is the first biggest spender |
| BreakerRuns.LadderIsMonotone | src/main/breaker.ts:284-314 | the ladder preserves order |
| BreakerRuns.OneRankPerBeat | src/main/breaker.ts:284-314 | one rank per beat, never past the ceiling by a trip, and down again when nothing trips |
| BreakerRuns.BandOnlyStrengthens | src/main/breaker.ts:336-434 | with budgets added that are never exceeded, every level at every beat is at least that of the other run, all else remembered equal |
| BreakerRuns.HardTripsAgree | src/main/breaker.ts:336-434 | both such runs agree on every hard trip |
| BreakerRuns.OverCapCanWeaken | src/main/breaker.ts:377-390 | the hypothesis about the cap is needed |
| BreakerCaps.KeepsUpExactly | src/main/breaker.ts:336-434 | one beat with a budget and without, whatever the cap: levels stay ordered, and the budgeted record keeps up if and only if the budget does not keep its no-progress counter from starting |
| BreakerCaps.BudgetsOnlyStrengthen | src/main/breaker.ts:336-434 | over any run, past caps or not, budgets only strengthen as long as no counter misses its start |
| BreakerCaps.OvertakenExactly | src/main/breaker.ts:277-434 | two records that remember the same signals stay ordered under all common beats to come if and only if the second stands as high and its counter has started if the first's has |
| BreakerCaps.OverCapWeakensExactly | src/main/breaker.ts:377-434 | a beat past the cap lets the budgeted run be overtaken if and only if it kept the counter from starting |
| BreakerCaps.MissedStartShows | src/main/breaker.ts:377-434 | after a missed start, any three resting beats and an idle burning one leave the budgeted run lower |
| BreakerRuns.NoStopWithoutOptIn | src/main/breaker.ts:284-314 | without the opt-in nothing is ever stopped |
| BreakerRuns.BandAloneOnlySteers | src/main/breaker.ts:343-375 | the band alone never takes an agent past steering |
| BreakerRuns.QuietBeatsHeal | src/main/breaker.ts:284-314 | three quiet beats bring an agent back to healthy |
| BreakerLaws.AmountsInFields | src/main/breaker.ts:244-276 | what an agent pays for and what the floor counts |
| BreakerLaws.TripsInFields | src/main/breaker.ts:317-434 | the seven grounds of a hard trip in numbers, the first that holds giving the reason, then the no-progress count, then the soft one |
| BreakerLaws.BeatInFields | src/main/breaker.ts:277-434 | the whole record after a beat |
| BreakerLaws.DecisionInFields | src/main/breaker.ts:284-314 | a beat reports an action only when the level rose, that of the new level |
| BreakerLaws.SwitchedOffInFields | src/main/breaker.ts:238-250 | switched off, everyone is healthy and nothing else is forgotten |
| BreakerLaws.MemoryIsHistory | src/main/breaker.ts:182-235 | over any run, a record says of calls, errors and compactions what happened |
| ClosingTime.ClosingTimeController.Start | src/main/closingTime.ts:83-148 | what a press does: re-arm, refuse, or open with a fresh roster |
| ClosingTime.ClosingTimeController.CancelRun | src/main/closingTime.ts:151-168 | disarms everything |
| ClosingTime.ClosingTimeController.OnRouted | src/main/closingTime.ts:171-218 | acknowledgement, rejected conclusion or accepted conclusion |
| ClosingTime.ClosingTimeController.OnTeardown | src/main/closingTime.ts:213-216 | the floor closes |
| ClosingRuns.ClosingIsEarned | src/main/closingTime.ts:83-231 | every closing is preceded, since the last start and with no cancel after it, by a conclusion of the god at which each rostered worker had acknowledged, was not live or was archived |
| ClosingRuns.OneClosingPerStart | src/main/closingTime.ts:83-231 | closings never outnumber starts |
| ClosingRuns.EarnedIsKept | src/main/closingTime.ts:194-231 | once accepted, only a cancel stops the closing |
| ClosingLaws.PressInFields | src/main/closingTime.ts:83-148 | who is waited for and briefed, in the registry's fields, and when a press refuses |
| ClosingLaws.AckInFields | src/main/closingTime.ts:171-193 | an acknowledgement is heard from those waited for, once |
| ClosingLaws.ConclusionInFields | src/main/closingTime.ts:194-218 | a conclusion is turned down with the names of those who owe, or taken |
| ClosingLaws.OthersAreNotHeard | src/main/closingTime.ts:171-218 | nothing else that is routed changes anything |
| ClosingLaws.EndingsInFields | src/main/closingTime.ts:151-231 | what a cancel and each timer do |
| ClosingLaws.QuietUntilStarted | src/main/closingTime.ts:83-148 | over any run, until a press finds a running manager nothing is armed, said or concluded |
| Tokens.TokenServer.MintToken | src/main/hooks.ts:709-713 | a new token, bound to its agent |
| Tokens.TokenServer.RevokeToken | src/main/hooks.ts:719-721 | drops that token and no other |
| Tokens.TokenServer.Authorized | src/main/hooks.ts:764-781 | the sender is whoever the token was made for |
| Tokens.PtyManager.Spawn | src/main/pty.ts:614-861 | the new session with its tokens, or the old state with none left over |
| Tokens.PtyManager.KillPty | src/main/pty.ts:899-912 | drops the session and its tokens, unless the kill throws |
| Tokens.PtyManager.OnExit | src/main/pty.ts:842-853 | drops the session only if it is still the one under its id |
| Tokens.PtyManager.KillByOwner | src/main/pty.ts:371-395 | drops a window's sessions and exactly their tokens |
| Tokens.ProxyBridges.StartProxyBridge | src/main/hive.ts:1299-1371 | stops the old sidecar, mints, and tracks the new one |
| Tokens.ProxyBridges.StopProxyBridge | src/main/hive.ts:1374-1380 | drops the tracked sidecar and its token |
| Tokens.ProxyBridges.OnSidecarExit | src/main/hive.ts:1353-1368 | revokes the token that spawn was given, if it is still the registered one |
| TokenRuns.TokensAreTheSessions | src/main/pty.ts:371-438 | after any run the valid tokens are exactly those of sessions and proxy entries, each held once and bound to its agent |
| TokenRuns.LiveSidecarHasItsToken | src/main/hive.ts:1353-1368 | a tracked sidecar's token is valid whatever exits arrived before |
| TokenRuns.LateExitsAreHarmless | src/main/pty.ts:842-853 | an exit changes nothing if and only if its process is no longer the current one |
| TokenRuns.GoneTokensStayGone | src/main/hooks.ts:709-721 | a token given up is never valid again |
| TokenRuns.StrandedExactlyAfterAFailedStart | src/main/hive.ts:1311-1368 | a registered token has no running sidecar if and only if the latest start threw, or its sidecar failed afterwards and no start, stop or exit of it came since |
| TokenLaws.SpawnInFields | src/main/pty.ts:614-861 | a terminal that starts carries new tokens for its agent, a telemetry one if asked for, and its window |
| TokenLaws.KillAndExitInFields | src/main/pty.ts:842-912 | a kill or exit takes exactly its own terminal and tokens, and only when the process died or is the current one |
| TokenLaws.CloseInFields | src/main/pty.ts:371-395 | a closed window takes exactly its terminals and their tokens |
| TokenLaws.StartInFields | src/main/hive.ts:1299-1371 | starting a sidecar: the old token gone, a new one for its agent registered, and tracked with the process that started |
| TokenLaws.SidecarExitInFields | src/main/hive.ts:1353-1368 | an exit takes its own process and its own token, each only while current |
| Streams.OutputTail.OnData | src/main/pty.ts:828-841 | after every chunk the tail is the longest stretch of newest chunks that fits, or the last chunk alone |
| Streams.TailIsUnique | src/main/pty.ts:828-841 | that stretch is unique and within the cap or one chunk |
| Streams.Connection.OnData | src/main/hooks.ts:606-633 | decodes each piece by itself and answers at the first line or past the bound, and once |
| Streams.AnswersAreFinal | src/main/hooks.ts:588-633 | what follows an answer does not change it |
| Streams.ReactionIsToTheText | src/main/hooks.ts:606-633 | the answer is that of the text the pieces decode to |
| Utf8.PiecesDecodeExactlyIfClean | src/main/hooks.ts:608-608 | decoding piece by piece gives the text if and only if no piece ends inside a character |
| Streams.CuttingIsInvisibleExactly | src/main/hooks.ts:606-633 | a connection answers as if its bytes had come at once if and only if no piece of the line ends inside a character, the line is too long anyway, or nothing is due yet either way |
| Streams.CutCharacterChangesTheLine | src/main/hooks.ts:606-633 | every two-byte character, at once and cut in two, is handled as two different lines |
| StreamLaws.TailInBytes | src/main/pty.ts:828-841 | the tail is at most 256 KiB or one chunk, and one chunk more would be too much |
| StreamLaws.AnswerInUnits | src/main/hooks.ts:606-633 | a line is handled once it ends, and turned down past 16 Mi units, ended or not |
| Utf8Laws.CharacterExactly | src/main/hooks.ts:608-608 | bytes read as a character exactly if they begin with its encoding |
| Utf8Laws.ReplacedExactly | src/main/hooks.ts:608-608 | and one replacement character stands for the longest stretch that begins a character and is not one, or a byte that begins none |
| Committer.GitCommitter.CommitLater | src/main/gitCommitter.ts:189-194 | queues the message and arms the timer |
| Committer.GitCommitter.DrainCommitMessages | src/main/gitCommitter.ts:207-215 | takes all messages and folds the distinct ones |
| Committer.GitCommitter.FlushCommit | src/main/gitCommitter.ts:464-470 | passes the guard or re-arms the timer |
| Committer.GitCommitter.AfterScrub | src/main/gitCommitter.ts:471-485 | commits only after the scrub said so |
| Committer.GitCommitter.AfterCommit | src/main/gitCommitter.ts:481-494 | retries on a lock or a failed staging and gives up otherwise |
| CommitRuns.OneFlushAtATime | src/main/gitCommitter.ts:464-497 | at most one flush is past the guard |
| CommitRuns.CommitsAreScrubbed | src/main/gitCommitter.ts:471-485 | every commit, retries included, directly follows a scrub that let it through, itself directly after staging |
| CommitRuns.MessagesAreConserved | src/main/gitCommitter.ts:189-215 | drained batches and waiting messages are all that was sent, in order, and waiting ones will be drained |
| CommitRuns.RetriesAreBounded | src/main/gitCommitter.ts:60-60 | at most two stagings per batch |
| CommitRuns.FoldingNamesEveryMessage | src/main/gitCommitter.ts:205-215 | every message is the subject or a line of the body |
| CommitLaws.FoldingInWords | src/main/gitCommitter.ts:205-215 | the subject and body of a batch, word for word: each message once, in the order they first came |
| CommitLaws.TimerInFields | src/main/gitCommitter.ts:464-470 | the timer starts a flush, or waits for the one that runs |
| CommitLaws.ScrubInFields | src/main/gitCommitter.ts:471-481 | only a scrub that lets it through is followed by a commit, of the newest batch |
| CommitLaws.CommitInFields | src/main/gitCommitter.ts:481-494 | a commit is tried once more, exactly after a lock or a refusal when staging had failed |
| CommitLaws.CommitsNameBatches | src/main/gitCommitter.ts:205-485 | over any run, every commit says what a drained batch folds to |
| ConfigStore.SecretConfig.CachedSecret | src/main/config.ts:578-582 | the cache answers what the store would |
| ConfigStore.SecretConfig.PutAway | src/main/config.ts:610-623 | stores, deletes or leaves one secret, and says what stays in the file |
| ConfigStore.SecretConfig.StripSecrets | src/main/config.ts:626-639 | moves every secret out of what is about to be written |
| ConfigStore.SecretConfig.WithSecrets | src/main/config.ts:587-600 | puts the stored secrets back |
| ConfigStore.SecretConfig.PersistConfig | src/main/config.ts:923-946 | strips, and writes unless the body is the one written last; a write that throws has moved secrets and stamps |
| ConfigStore.SecretConfig.ReadConfig | src/main/config.ts:888-915 | merges file and stores, and moves what plaintext it finds |
| ConfigStore.SecretConfig.WriteConfig | src/main/config.ts:948-988 | applies a patch, placeholders read as unchanged |
| ConfigStore.SecretConfig.ResetConfig | src/main/config.ts:992-1014 | drops the configuration's secrets and those of the tool grants, and writes defaults |
| ConfigRuns.FieldsReadAsWritten | src/main/config.ts:948-957 | after a write each field reads as supplied, trimmed, or as shown before where the placeholder came back |
| ConfigRuns.TriggersReadAsWritten | src/main/config.ts:958-963 | the same of each endpoint's secret |
| ConfigRuns.PaddedPlaceholder | src/main/config.ts:610-616 | what a field reads as after a padded placeholder, and exactly when that is what was shown |
| ConfigRuns.PaddedEndpoint | src/main/config.ts:610-616 | the same of an endpoint's secret, a removed endpoint's included |
| ConfigRuns.FailedWriteChangesSecrets | src/main/config.ts:923-946 | after a write that throws each field reads as if it had succeeded, and the rest as in the old file |
| ConfigRuns.RedactedViewSavesBack | src/main/config.ts:641-658 | saving the redacted view back changes nothing that is read |
| ConfigRuns.SavingTheViewIsAlwaysSafe | src/main/config.ts:641-658 | and so at every moment of every run from a fresh install |
| ConfigRuns.FileHoldsNoSecret | src/main/config.ts:923-946 | with encryption available no operation leaves a secret in the file |
| ConfigRuns.MigrationKeepsSecrets | src/main/config.ts:905-915 | moving plaintext on a read changes no secret but for blanks |
| ConfigRuns.MigrationKeepsEndpoints | src/main/config.ts:905-915 | the same of each endpoint's secret |
| ConfigRuns.MissionsReadBack | src/main/config.ts:693-720 | missions read back with their stamps, wherever those were kept |
| ConfigRuns.ResetForgets | src/main/config.ts:992-1014 | a secret survives a reset if and only if it is neither the configuration's own nor a tool grant's, and then unchanged |
| ConfigRuns.RemovedEndpointKeepsItsSecret | src/main/config.ts:626-639 | an endpoint taken off the list leaves its secret in the store |
| ConfigRuns.PlaceholderRevivesNothing | src/main/config.ts:958-963 | a placeholder does not bring a removed endpoint's secret back |
| ConfigLaws.ShownInFields | src/main/config.ts:587-600 | a field reads as what the store has under its place, and otherwise as the file has it |
| ConfigLaws.SecretIsPutAway | src/main/config.ts:610-639 | with encryption a saved secret is in the store under its place, trimmed, and not in the file |
| ConfigLaws.SecretStaysInTheFile | src/main/config.ts:610-639 | without it, in the file; blank, in neither |
| ConfigLaws.EndpointIsPutAway | src/main/config.ts:626-639 | an endpoint's secret is kept under its id |
| ConfigLaws.ShownMissionInFields | src/main/config.ts:693-720 | a mission was last fired at the later of file and stamp |
| ConfigLaws.StampsAreMoved | src/main/config.ts:708-720 | a write moves every stamp out of the file, and exactly those |
| ConfigLaws.ViewTellsNoSecret | src/main/config.ts:641-658 | two configurations are shown alike if and only if they differ in nothing but what their set secrets are |
| ConfigLaws.ViewSaysWhichAreSet | src/main/config.ts:641-658 | the view says which secrets are set, and all else as it is |
| Ipv6Spellings.EverySpellingReads | src/main/hire.ts:55-84 | every legal spelling of eight groups (one `::`, leading zeros, trailing dotted quad, zone) reads as those groups |
| Ipv6Spellings.AnyCaseReads | src/main/hire.ts:106-107 | in either case, once lowered |
| Ipv6Spellings.EmbeddedIsOfTheAddress | src/main/hire.ts:91-101 | the embedded destination depends on the address and not on its spelling |
| Ipv6Spellings.MappedComesBack | src/main/hire.ts:91-96 | a mapped address gives back its dotted tail byte for byte |
| Ipv6Spellings.EmptyGapIsRead | src/main/hire.ts:70-82 | `::` about eight groups is read as well |
| Ipv6Exactly.ReadsExactlyTheReadable | src/main/hire.ts:52-84 | a text is read if and only if it is a body of eight groups or of up to eight about one `::`, with an optional trailing quad the host reads and an optional zone; and then as those groups |
| Ipv6Exactly.SpellingIsUnique | src/main/hire.ts:52-84 | a text is read in one way only |
| Ipv6Exactly.LegalExactlyIf | src/main/hire.ts:52-84 | a text that is read is one section 2.2 of RFC 4291 allows if and only if no `::` in it stands for nothing and its quad, if any, is decimal |
| Ipv6Exactly.OddOctetIsRead | src/main/hire.ts:62-68 | whatever else the host reads as an octet is read in a quad, though no legal text has it |
| Ipv6Laws.GroupValue | src/main/hire.ts:55-84 | four hexadecimal digits are worth what they say |
| Ipv6Laws.EmbeddedExactly | src/main/hire.ts:91-101 | an address embeds a dotted destination if and only if its bytes are those of a mapped, compatible, NAT64 or 6to4 address of it |
| Ipv6Laws.DestinationOfText | src/main/hire.ts:91-101 | and so for every legal spelling of it, and there is none exactly if its bytes embed none |

## Left out

- DeliveryQueue.DeliveryService.LoadQueue: the queue path is fixed; a path that changes in mid-run or is absent (no home configured) is not modelled, nor is an emitter that throws inside an acknowledgement.
- DeliveryQueue.DeliveryService.TickOnce: the inbox wake-up nudges, the quiescing at the account limit and the seed prompts of `tick` are not modelled, only its queue drain and its guard.
- TerminalWrites.Typist.BeginWrite: waiting for a terminal is one step that succeeds or fails; polling intervals and the sanitising of the text are left out.
- TaskLedger.Mutator.RenameIntoPlace: the blind write without an expected revision, and a ledger file that does not parse, are not modelled.
- Routing.HiveRouter.RouteMessage: the exact wording of bounce subjects is replaced by a label that names the reason and the target; the review verdict, the renderer event and the observer that follow are in `Reviews` and `ClosingTime`; failing disk writes are left out.
- Routing.HiveRouter.TargetsOf: what a provider can do (taking mail, needing the terminal) is an attribute of the agent, not looked up in the provider presets.
- TerminalWrites.Typist.TeardownPty: archiving the worktree, the worker and recipe books and keep-awake are left out.
- TerminalWrites.Typist.SwitchAccount: picking the account, the notices and the settings written are left out; so are a terminal id registered to another agent while it runs, and keystrokes the renderer sends to a terminal directly.
- Replies.ReplyLedger.SweepUnansweredReplies: the reminder's and the notice's own inbox files are left out; they are events of the obligation's history. Whether the original is still in the mailbox is an input.
- Reviews.TaskReviews.LeastLoadedIdle: being idle, not archived, no assistant, not the god and able to take mail is one attribute of an agent.
- Reviews.TaskReviews.ApplyReviewVerdict: the parsing of the conversation `review-<id>` is left out.
- StopDrain.AgentInbox.DrainForStop: ids are compared by code point, which is the source's comparison for ids outside the supplementary planes; the text fed back to the agent is left out.
- ClosingTime.ClosingTimeController.OnRouted: whether a subject reads as an acknowledgement or as the conclusion is an attribute of the message, not matched; steering notes and their clearing are left out.
- Tokens.PtyManager.KillByOwner: exit handlers that re-enter the session map in the middle of the loop are not modelled; `killAll`, which ends the process, is left out.
- Tokens.ProxyBridges.StartProxyBridge: the port report, its timeout and a hive without a hook server are left out; a process that turns out not to have started is a step of its own.
- Streams.Connection.OnData: what the hook handler answers to a line is left out.
- Committer.GitCommitter.AfterScrub: the scrub is one step that answers yes or no; its diff reading, size bounds and unstaging are left out, and so is the clearing of a stale index lock.
- ConfigStore.SecretConfig.ReadConfig: the two one-shot migrations, default filling, path expansion and an unreadable file are left out; everything that is not a secret, an endpoint or a mission is one opaque part; the file write of a migrating read succeeds.
- ConfigStore.SecretConfig.WriteConfig: the normalising of repositories and of the hive home is left out; the file write succeeds, as in `ResetConfig`, and what a failing one leaves is in `PersistConfig`.
- ConfigStore.SecretConfig.PutAway: encryption is constant and the store's own writes succeed.
- Ipv6Spellings.EverySpellingReads: the block list and the system's own address parser, which `isBlockedIp` consults around these functions, are not part of this model.
- Breaker.CircuitBreaker.RecordToolUse: a tool call is the key the source derives from its name and input; the truncation that builds it is left out.
- Provider installers, prompts and protocol prose, redaction patterns, the path-identity gate of the hook server, network clients, databases and the account pool.
