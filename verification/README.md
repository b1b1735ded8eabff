# A verified model of the aggregator bridge

The aggregator bridge folds signed meter readings into 15-minute billing bins, settles a bin when
its meter's event clock has moved past it, hands the surplus to a durable outbox, and retries the
mint until it is confirmed on chain. This project models that pipeline and the stateful parts
around it in Dafny and proves what they promise over every input, every run and every reachable
state. `dafny verify dfyconfig.toml` checks all of it.

## What is modelled

- **Windows** (`Windows.dfy`): the calendar floor of an instant against the epoch floor, and the
  write-back range in milliseconds.
- **Billing** (`Billing.dfy`, `BillingProofs.dfy`, `Aggregator.dfy`): the aggregator's three maps as a
  value with runs of readings and sweeps, the whole-run properties, and the object that implements
  the value step by step.
- **Settlement** (`Settlement.dfy` and the files that prove things about it): one state with what
  survives a crash (bins, outbox and parked hashes, published intents, the chain), what the process
  holds (aggregator, write-through queue, sweep, drain loop, mint tasks, in-flight set) and a history
  that only the properties read. Each step is one locked section, one Redis command, one registry
  answer or one reply. A command may fail with or without its effect, a mint may land after its reply
  was lost, and a crash may come between any two steps; a run is any list of steps.
  `SettlementSafety` and `SettlementProvenance` prove that nothing owed is lost, `SettlementExclusion`
  that no key is published twice at once, `SettlementAmounts` what an amount on chain is worth,
  `SweepAccounts`, `TaskAccounts` and `DrainAccounts` that no bin and no entry is left out, `HashAccounts`
  what each hash and the chain hold, `SettlementHandoff` when a surplus is given up, `ParkedCopies` when a parked copy stays, `ParkedAge`
  what is parked, `Replica` that the bins hash follows the aggregator.
- **Mint attempts** (`MintKeys.dfy`, `MintAttempts.dfy`): the printed key and its parser, the batch reply,
  the in-flight set object and one batch attempt.
- **VEN listener** (`Ven.dfy`, `VenProofs.dfy`, `VenProgress.dfy`, `VenListener.dfy`): the OpenADR 3 poll with versioned dedup
  keys, pruning, retry and persisted state.
- **Owner read-model** (`OwnerReadModel.dfy`): two unordered event streams merged into two tables.
- **Wire formats** (`Frames.dfy`, `BulkFrames.dfy`): the v4 frame with its TLV loop, and the bulk payload.
- **Key cache** (`KeyCache.dfy`, `KeyTrace.dfy`): the verdict cache with two clock readings per store,
  batch against single signature verification, and calls that interleave over a changing store.
- **Dispatch** (`Dispatch.dfy`): the cooldown engine over whole runs, and target selection.
- **Reading rows** (`ReadingRows.dfy`): the two write-back statements over whole runs.

A function that only computes has no row below; the row names the lemma or method that states what
it computes. A class method is specified by a function of the old state, and the lemmas about that
function carry the property.

## Assumptions

- Energies, demands and setpoints are exact reals; instants are integers in nanoseconds.
- A meter id is the UUIDv5 of the serial (section 5.5 of RFC 9562), taken to be injective.
- A success reply of the mint bridge for a key means that the key is on chain.
- Bins are restored once, at start, into an empty aggregator, and that load succeeds.
- CRC-32 (section 3.2.9 of IEEE 802.3), AES-GCM (sections 7.1 and 7.2 of NIST SP 800-38D), Ed25519
  verification (section 5.1.7 of RFC 8032), base58, public-key parsing and serial canonicalization are
  function parameters. For AES-GCM the only law used is that decryption undoes encryption.
- A declared frame length is at least 2 for the header and at least 23 for the whole frame: the slices at
  binary_decoder.rs:54-59 and 126 need it and the code does not test it, so it is a precondition of the
  two decoder methods.
- Event ids hold no `#`: dedup keys are a datatype of whole-event and interval keys.
- Clocks read under one lock do not go back. Clock readings, registry answers, command outcomes and
  replies are parameters of the steps.

## Where code and comments disagree

The comments at mint_outbox.rs:126-132 and 157-160 say that a park racing a confirming remove ends
fully cleared. The code clears both hashes only if the parking store comes before the second
deletion. `ParkedCopies.ParkedIffStoredLast` gives the exact condition over every run and
`ParkedCopies.ConfirmedMintStaysParked` a run from first boot to each outcome of the race.

The comment at aggregator.rs:131-132 says that settled windows are remembered so that a straggler
cannot form its bin again. The memory is pruned to 24 hours of event time by the very sweep that adds
to it, so a window that settles a day late is forgotten at once: `BillingProofs.SettledOnce` gives the
exact condition, `BillingProofs.DayOldWindowReopens` the run.

The comment at mint_outbox.rs:88-89 lets a limit of 0 switch the age limit off. A limit of 2^63 seconds or
more, which reads as a longer one, wraps to a negative limit: `ParkedAge.ExpiredIff` states it for all values.

## Model

| member | source | states |
|---|---|---|
| Windows.ToCivil | crates/aggregator-logic/src/aggregator.rs:350-358 | the calendar fields of any instant, before 1970 too, are in range and rebuild the instant |
| Windows.GetWindowStart | crates/aggregator-logic/src/aggregator.rs:350-358 | snapping the minute field and clearing seconds and nanoseconds is the epoch floor to 900 s, for every instant |
| Windows.WindowContains | crates/aggregator-logic/src/aggregator.rs:350-358 | an instant lies in the window it is floored to, and window starts are multiples of 900 s |
| Windows.WindowUnique | crates/aggregator-logic/src/aggregator.rs:350-358 | an aligned window is the window of an instant exactly when it contains it |
| Windows.WindowMillisInjective | crates/aggregator-logic/src/aggregator.rs:69-71 | two windows with the same millisecond start are one window |
| Windows.WriteBackAgreesWithBinning | crates/aggregator-persistence/src/infra/pg_readings.rs:42-42 | a row is in the write-back range of a window exactly when the aggregator bins its reading in that window |
| BillingProofs.BinIsFold | crates/aggregator-logic/src/aggregator.rs:215-272 | over every run an active bin is the fold of the readings accepted since it was last taken, on top of the restored bin before the first take |
| BillingProofs.FoldTotals | crates/aggregator-logic/src/aggregator.rs:215-272 | each quantity of a folded bin (generation, consumption, count, peak and off-peak parts) is the base plus the sum over the readings, tag 1 and tag 2 readings for the two parts |
| BillingProofs.FoldDemand | crates/aggregator-logic/src/aggregator.rs:215-272 | max demand is the greatest of 0, the base and the demands of the readings: an upper bound that one of them attains |
| BillingProofs.FoldIdentity | crates/aggregator-logic/src/aggregator.rs:215-248 | a folded bin keeps the base's identity and window, else the first reading's, and the first zone that is named |
| BillingProofs.Conservation | crates/aggregator-logic/src/aggregator.rs:215-336 | for every run and key: restored value plus accepted readings equals the active bin plus everything sweeps took, for each quantity |
| BillingProofs.RunWellKeyed | crates/aggregator-logic/src/aggregator.rs:215-347 | every run keeps each bin under its own (meter, window) key |
| BillingProofs.WatermarkMonotone | crates/aggregator-logic/src/aggregator.rs:193-201 | a watermark never goes back between two points of a run |
| BillingProofs.ActiveAndSettledDisjoint | crates/aggregator-logic/src/aggregator.rs:193-336 | active and settled keys stay disjoint over every run |
| BillingProofs.SettledExactly | crates/aggregator-logic/src/aggregator.rs:324-336 | what a process remembers as settled: the windows it took, minus those older than the horizon of the meter's last sweep |
| BillingProofs.SettledOnce | crates/aggregator-logic/src/aggregator.rs:193-336 | a taken (meter, window) is binned again only if its start is more than 24 h behind the watermark, and exactly if it is older than the last sweep's horizon |
| BillingProofs.DayOldWindowReopens | crates/aggregator-logic/src/aggregator.rs:133-336 | the 24 h exception is real: a straggler of a window that was settled a day late is binned a second time |
| BillingProofs.TakenMeansWindow | crates/aggregator-logic/src/aggregator.rs:324-336 | the taken windows are those of the taken bins |
| BillingProofs.ProgressIs | crates/aggregator-logic/src/aggregator.rs:191-201 | over every run the watermark is the greatest timestamp read from the meter and the arrival time that of its last reading |
| BillingProofs.SweepTakesIff | crates/aggregator-logic/src/aggregator.rs:301-319 | exactly when a sweep takes an active window, in terms of the readings of the run: one lies past it by the grace, or the wall clock is past it and the last reading is a positive grace old, or there is none and the wall clock is past it by the grace |
| BillingProofs.TakenIsOver | crates/aggregator-logic/src/aggregator.rs:301-319 | a sweep takes a window only when the meter's clock is past it by the grace, or the wall clock is past it and the meter is silent for the grace or unheard of |
| BillingProofs.NoWindowIsStranded | crates/aggregator-logic/src/aggregator.rs:301-336 | once a window is over and its meter silent for the grace, a sweep takes exactly its bin |
| BillingProofs.RunWhole | crates/aggregator-logic/src/aggregator.rs:188-336 | in an orderly run a window is still collecting every reading offered, or settled once with all of them and its meter has moved past it |
| BillingProofs.NoReadingIsLate | crates/aggregator-logic/src/aggregator.rs:188-213 | with no restored bins, readings within grace of the watermark and no silent meter at a sweep, no reading is ever rejected as late |
| BillingProofs.WindowSettlesWhole | crates/aggregator-logic/src/aggregator.rs:301-336 | under the same conditions each window settles at most once, with its whole energy |
| Aggregators.Aggregator.Accumulate | crates/aggregator-logic/src/aggregator.rs:241-270 | the field-by-field update of a bin adds one reading as the fold does |
| Aggregators.Aggregator.Progressed | crates/aggregator-logic/src/aggregator.rs:193-201 | watermark and arrival time move even for a reading that turns out late |
| Aggregators.Aggregator.StartOf | crates/aggregator-logic/src/aggregator.rs:350-358 | the window start used for binning is the epoch floor |
| Aggregators.Aggregator.Handle | crates/aggregator-logic/src/aggregator.rs:171-273 | new state and snapshot are those of the specification; None exactly for a settled window |
| Aggregators.Aggregator.PeekCompletedBinsAt | crates/aggregator-logic/src/aggregator.rs:301-319 | returns exactly the completed bins, each once, and changes nothing; `BillingProofs.SweepTakesIff` says which those are |
| Aggregators.Aggregator.RemoveKey | crates/aggregator-logic/src/aggregator.rs:324-336 | one key: the bin is gone, the window remembered, old windows of the meter pruned |
| Aggregators.Aggregator.Remove | crates/aggregator-logic/src/aggregator.rs:324-336 | removing keys one after another is removing the set of them, whatever the order and repeats |
| Aggregators.Aggregator.Restore | crates/aggregator-logic/src/aggregator.rs:343-347 | restoring puts each bin under its own key, later ones over earlier ones |
| Aggregators.RemoveOneMore | crates/aggregator-logic/src/aggregator.rs:324-336 | removal composes: a set and then one more key is the larger set, pruning included |
| Aggregators.RestoredBin | crates/aggregator-logic/src/aggregator.rs:343-347 | restoring into an empty aggregator holds a bin exactly when it is the last one listed for its key |
| Aggregators.RestoredState | crates/aggregator-logic/src/aggregator.rs:343-347 | a restored aggregator is well keyed, with no progress and nothing settled |
| SweepAccounts.SweepServesAll | src/main.rs:541-806 | over every run: when the sweep is idle again after a take without a crash, it has planned and finished every completed bin, each once |
| SweepAccounts.PlanIs | crates/aggregator-logic/src/billing_sink.rs:73-81 | the decision is the sign of generation minus consumption, and whether minting is on |
| SweepAccounts.PlanEnqueuesIff | src/main.rs:586-672 | a bin is enqueued exactly when minting is on, it generated more than it consumed, and its owner is not missing from both tables; the entry carries serial, window, surplus and clock |
| SweepAccounts.HandoffBecause | src/main.rs:674-741 | each hand-off names the answer that led to it |
| SweepAccounts.UnownedIff | src/main.rs:601-660 | over every run a bin counts as unowned exactly when the last plan of its surplus found no owner in either table |
| SettlementHandoff.LostAfterTwoFailures | src/main.rs:673-741 | over every run the sweep tries a direct mint, or gives a surplus up as lost, only after two enqueues for that very bin failed since it turned to it |
| SettlementHandoff.LostKeepsEntry | crates/aggregator-logic/src/billing_sink.rs:117-119 | a lost bin keeps its durable entry, whatever the deletion command would answer |
| SettlementSafety.EnqueueKeeps | crates/aggregator-logic/src/mint_outbox.rs:116-124 | an enqueue keeps the invariant and every durable home, whether it succeeds, fails, or fails after its effect |
| SettlementSafety.StepKeeps | src/main.rs:541-936 | every step of sweep, task, drain, writer, chain and crash keeps the invariant and gives up no durable home |
| SettlementSafety.RunKeeps | src/main.rs:541-936 | the same over every run |
| SettlementSafety.RemoveKeeps | crates/aggregator-logic/src/mint_outbox.rs:141-152 | the two deletions of a confirming remove never lose a mint that is not on chain |
| SettlementSafety.ParkStoreKeeps | crates/aggregator-logic/src/mint_outbox.rs:165-177 | the store half of park keeps the invariant, failed or not |
| SettlementSafety.ParkDeleteKeeps | crates/aggregator-logic/src/mint_outbox.rs:165-177 | the delete half of park runs only with a parked or minted copy |
| SettlementSafety.EvictKeeps | crates/aggregator-logic/src/billing_sink.rs:117-119 | an owed bin is evicted only when its mint was enqueued or confirmed |
| SettlementSafety.EnqueuedUntilConfirmed | crates/aggregator-logic/src/mint_outbox.rs:116-177 | once enqueued, a key is in outbox or parked or on chain at every later point of every run with failing commands, failing mints, crashes and restarts |
| SettlementSafety.EvictedSurplusIsSafe | src/main.rs:798-804 | a sweep deletes the durable entry of an owed surplus bin only if its key was enqueued or confirmed, and the mint keeps a durable home ever after |
| HashAccounts.QueuedIffStoredLast | crates/aggregator-logic/src/mint_outbox.rs:116-177 | over every run a key is queued exactly when an applied enqueue came after every applied deletion of it |
| HashAccounts.DurableIffWrittenLast | crates/aggregator-logic/src/bin_store.rs:62-88 | over every run a key is in the bins hash exactly when an applied write came after every applied deletion; a lost bin is never deleted |
| HashAccounts.MintedOnce | crates/aggregator-logic/src/mint_settlement.rs:70-163 | over every run a key is on chain exactly when an intent for it landed, and its amount is that of the first one |
| SettlementProvenance.BinsShrinkOnlyByEviction | crates/aggregator-logic/src/bin_store.rs:77-88 | no other step removes an entry of the bins hash |
| SettlementProvenance.RunGenuine | src/main.rs:276-286 | over every run, restarts included, every bin in memory, queue, hash and sweep sits under its own key with its meter's serial |
| SettlementProvenance.DurableEntryOutlivesRun | src/main.rs:541-806 | an entry of the bins hash is still there at the end of any run, or its mint is queued, parked or on chain, unless a sweep found nothing owed for it |
| SettlementExclusion.Begin | crates/aggregator-logic/src/mint_settlement.rs:36-42 | a successful claim of a free key keeps the set equal to the guarded keys, each guarded once |
| SettlementExclusion.Drop | crates/aggregator-logic/src/mint_settlement.rs:51-59 | dropping any suffix of a holder's guards keeps it so |
| SettlementExclusion.RunExcludes | crates/aggregator-logic/src/mint_settlement.rs:77-404 | exclusion holds over every run of direct attempts, spawned attempts and batches, early exits and crashes included |
| SettlementExclusion.NoTwoOutstandingPublishes | crates/aggregator-logic/src/mint_settlement.rs:77-404 | at every point of every run no two outstanding publishes carry the same key, in one batch or across holders |
| SettlementExclusion.InFlightIsLiveGuards | crates/aggregator-logic/src/mint_settlement.rs:31-59 | the in-flight set always equals the keys of the live guards |
| TaskAccounts.TaskPublishesChosen | crates/aggregator-logic/src/mint_settlement.rs:277-345 | over every run a waiting task has tried all its entries and published exactly those whose key was free at their turn and whose wallet resolved, in order |
| TaskAccounts.RemovalServesAll | src/main.rs:915-932 | a task that ends its removal has issued the deletion of every confirmed field, in order |
| DrainAccounts.TickServesAll | src/main.rs:853-936 | over every run: when the drain loop is idle again after a tick without a crash, exactly the entries past the limit were taken into parking and each other one was handed to exactly one task, in order; none is left out |
| DrainAccounts.BatchIsBounded | src/main.rs:895-912 | a task of the loop starts with one to the batch size entries |
| SettlementAmounts.PlannedMint | crates/aggregator-logic/src/billing_sink.rs:73-81 | a planned mint carries the key and the net surplus of the bin it was planned for |
| SettlementAmounts.RunBacked | src/main.rs:541-936 | over every run, crashes included, every queued, parked, published or minted amount is the net surplus of a bin that some sweep took under that key |
| SettlementAmounts.AggregatorRun | crates/aggregator-api/src/ingester/zone_ingester.rs:684-730 | the aggregator inside the pipeline runs exactly the pipeline's readings and sweeps |
| SettlementAmounts.MintedIsMeteredSurplus | src/main.rs:541-936 | in an orderly lifetime without a crash, an amount on chain is generation minus consumption over all readings of that meter in that window, and positive |
| ParkedCopies.ParkedIffStoredLast | crates/aggregator-logic/src/mint_outbox.rs:126-177 | over every run a key ends up parked exactly when a parking store of it comes after every clearing deletion of it |
| ParkedAge.ExpiredIff | crates/aggregator-logic/src/mint_outbox.rs:91-96 | on all 64-bit values: no expiry for limit 0 or one that overflows in milliseconds, else exactly when the age exceeds it; a limit of 2^63 seconds or more wraps and expires even a fresh entry |
| ParkedAge.ParkedOutlivedLimit | src/main.rs:853-936 | over every run a parked mint was parked before, or a drain tick of this run listed it from the outbox at a clock by which it had outlived the limit; with limit 0 nothing is parked anew |
| ParkedCopies.ConfirmRuns | crates/aggregator-logic/src/mint_outbox.rs:141-152 | a confirming reply followed by both deletions clears both hashes of the key and nothing else |
| ParkedCopies.ParkRuns | crates/aggregator-logic/src/mint_outbox.rs:165-177 | a successful park moves the entry from the outbox to the parked hash |
| ParkedCopies.RaceLeavesParkedCopy | crates/aggregator-logic/src/mint_outbox.rs:157-177 | from any state with both under way: park then remove leaves no copy, remove then park leaves a parked copy of a confirmed mint |
| ParkedCopies.ConfirmedMintStaysParked | crates/aggregator-logic/src/mint_outbox.rs:126-177 | such a state is reached from first boot: a run of readings, sweep, publish, expiry and both orders, one of which ends with a confirmed mint parked |
| Replica.RunTracks | crates/aggregator-api/src/ingester/zone_ingester.rs:40-53 | the replica invariant holds for every key over every run of readings, writes, sweeps and crashes |
| Replica.RunRemembers | crates/aggregator-logic/src/aggregator.rs:324-336 | a key taken in this lifetime is settled or out of the retention horizon |
| Replica.ReplicaOfActiveBins | crates/aggregator-logic/src/bin_store.rs:62-102 | for an active key inside the retention horizon: replaying the queue onto the hash gives the in-memory bin unless its last write failed, and whatever the hash holds is the restored bin with a prefix of the accepted readings |
| Replica.NothingStale | crates/aggregator-api/src/ingester/zone_ingester.rs:684-730 | without failed writes no key is ever stale |
| Replica.ReplicaIsExact | crates/aggregator-api/src/ingester/zone_ingester.rs:684-730 | with no failed write, replaying the queue onto the hash gives exactly the in-memory bin of every active key inside the horizon |
| OwnerReadModel.WalletOrNone | crates/aggregator-persistence/src/infra/owner_read_model.rs:80-82 | a stored wallet is never blank and never padded, and a clean one is unchanged |
| OwnerReadModel.DispatchIsJoin | crates/aggregator-persistence/src/infra/owner_read_model.rs:538-665 | one event changes the merged table as the join of the two folds changes |
| OwnerReadModel.FeedIsJoin | crates/aggregator-persistence/src/infra/owner_read_model.rs:120-241 | for every feed of wallet-less meter events and user events the merged table is the join of the last owner per serial with the wallet per user |
| OwnerReadModel.OwnerIsLast | crates/aggregator-persistence/src/infra/owner_read_model.rs:538-580 | the owner of a serial is the user of its last meter event |
| OwnerReadModel.WalletIsLastSet | crates/aggregator-persistence/src/infra/owner_read_model.rs:580-661 | the wallet of a user is the one set last and not unlinked since |
| OwnerReadModel.RowIs | crates/aggregator-persistence/src/infra/owner_read_model.rs:120-241 | for every such interleaving a row shows a wallet exactly when the last meter event names a user whose wallet it is, set last and not unlinked since |
| OwnerReadModel.OwnersSeeOneStream | crates/aggregator-persistence/src/infra/owner_read_model.rs:538-665 | the owner fold depends on the meter stream alone |
| OwnerReadModel.WalletsSeeOneStream | crates/aggregator-persistence/src/infra/owner_read_model.rs:538-665 | the wallet fold depends on the user stream alone |
| OwnerReadModel.InterleavingIrrelevant | crates/aggregator-persistence/src/infra/owner_read_model.rs:538-665 | any two interleavings of the same two streams end in the same tables |
| OwnerReadModel.UpsertKeepsJoinIff | crates/aggregator-persistence/src/infra/owner_read_model.rs:120-155 | a meter event with a wallet keeps the table a join exactly when the wallet edge agrees or the same owner's wallet is already set |
| OwnerReadModel.FeedFollowsFolds | crates/aggregator-persistence/src/infra/owner_read_model.rs:120-241 | whatever wallets meter events carry, the users of the merged table and the wallet edge follow the two folds |
| OwnerReadModel.FeedStaysJoinedIff | crates/aggregator-persistence/src/infra/owner_read_model.rs:120-241 | for every feed, the table is the join at every prefix exactly when each meter event with a wallet agrees with the tables it meets |
| OwnerReadModel.MeterWalletBreaksJoin | crates/aggregator-persistence/src/infra/owner_read_model.rs:120-155 | a concrete feed in which a meter event's wallet leaves the join |
| OwnerReadModel.SetWalletSurvives | crates/aggregator-persistence/src/infra/owner_read_model.rs:120-155 | no sequence of same-owner meter events, with or without wallets, changes a wallet already set |
| OwnerReadModel.StoredWalletsAreClean | crates/aggregator-persistence/src/infra/owner_read_model.rs:538-665 | over every feed both tables hold clean wallets only |
| OwnerReadModel.UnlinkIsFinal | crates/aggregator-persistence/src/infra/owner_read_model.rs:209-241 | an unlinked wallet is gone from both tables for good: no sequence of events brings it back but one that names it again for the user |
| OwnerReadModel.OwnerStore.UpsertBySerial | crates/aggregator-persistence/src/infra/owner_read_model.rs:120-155 | the upsert statement: the same owner's wallet survives, a new owner gets the payload's or the edge's wallet |
| OwnerReadModel.OwnerStore.UpdateWalletByUser | crates/aggregator-persistence/src/infra/owner_read_model.rs:170-201 | both tables follow, and the result is the number of the user's meter rows |
| OwnerReadModel.OwnerStore.ClearWalletIfMatches | crates/aggregator-persistence/src/infra/owner_read_model.rs:209-241 | only rows that hold the unlinked wallet are cleared, and the result counts them |
| OwnerReadModel.OwnerStore.HandleEvent | crates/aggregator-persistence/src/infra/owner_read_model.rs:538-665 | the filters of dispatch pick the statement for an event |
| Ven.SetpointsAre | crates/aggregator-logic/src/standards/openleadr_ven.rs:553-574 | wherever an interval stands, it contributes the first number of its first numeric setpoint payload, in the order of the intervals, or nothing if it has none |
| Ven.CarriesOne | crates/aggregator-logic/src/standards/openleadr_ven.rs:553-574 | an interval carries at most one setpoint |
| Ven.TimingIs | crates/aggregator-logic/src/standards/openleadr_ven.rs:591-608 | active exactly inside the window of the interval's own period, else the event's, with the event's duration only where that period has none; future exactly before its start, past exactly from its end on |
| Ven.DecisionIs | crates/aggregator-logic/src/standards/openleadr_ven.rs:583-625 | the decision exactly: the first pending setpoint in order with its power and kind, whether anything is left, and which empty case holds otherwise |
| Ven.TimingMovesOn | crates/aggregator-logic/src/standards/openleadr_ven.rs:591-608 | time only moves a setpoint from future to active to past |
| Ven.DecideEvent | crates/aggregator-logic/src/standards/openleadr_ven.rs:583-625 | the loop decides as the specification: the first pending setpoint, whether more are pending, and which of the empty cases applies |
| Ven.DecisionSound | crates/aggregator-logic/src/standards/openleadr_ven.rs:583-625 | an executed interval is active and new; an event is given up only when each setpoint is past, executed before, or the one being executed |
| Ven.PendingListed | crates/aggregator-logic/src/standards/openleadr_ven.rs:583-625 | the pending list holds exactly the active setpoints not executed yet |
| Ven.SetpointToDispatch | crates/aggregator-logic/src/standards/openleadr_ven.rs:647-653 | direction and magnitude determine the setpoint, and the magnitude is not negative |
| VenProofs.DispatchedInWindow | crates/aggregator-logic/src/standards/openleadr_ven.rs:265-353 | over every run each successful dispatch comes from a poll that lists the event at that version, inside the window of that interval, and its command is the interval's setpoint |
| VenProofs.ClosesIff | crates/aggregator-logic/src/standards/openleadr_ven.rs:287-323 | processing closes an open event exactly when no setpoint is in the future and none is pending but the one dispatched successfully |
| VenProofs.ProcessRises | crates/aggregator-logic/src/standards/openleadr_ven.rs:265-353 | processing an event lowers no stored version |
| VenProofs.PollRises | crates/aggregator-logic/src/standards/openleadr_ven.rs:376-393 | a poll keeps or raises every stored version except those it prunes: unlisted and a week old |
| VenProofs.NextPersists | crates/aggregator-logic/src/standards/openleadr_ven.rs:434-441 | every key in memory is in the store with at least its version, over restarts too |
| VenProofs.ScanOnce | crates/aggregator-logic/src/standards/openleadr_ven.rs:265-353 | one listing, with repeats, dispatches an (event, interval, version) at most once and never when a guard key is stored |
| VenProofs.AtMostOnce | crates/aggregator-logic/src/standards/openleadr_ven.rs:265-393 | over every run of polls, failures and clean restarts in which its dedup keys are not pruned, an (event, interval, version) is dispatched at most once |
| VenProofs.PrunedVersionFiresAgain | crates/aggregator-logic/src/standards/openleadr_ven.rs:376-393 | the condition is needed: an old version that leaves the listing for one poll and comes back while active is dispatched twice |
| VenProofs.ListedOrFreshIsSpared | crates/aggregator-logic/src/standards/openleadr_ven.rs:376-393 | a listed event, or one whose version is within a week, is never pruned |
| VenProofs.RunLogged | crates/aggregator-logic/src/standards/openleadr_ven.rs:287-323 | over every run each stored interval key was dispatched successfully at its version |
| VenProofs.ClosedMeansFinished | crates/aggregator-logic/src/standards/openleadr_ven.rs:287-323 | in any poll of any run an event version is closed only when each setpoint interval is past its window or already dispatched |
| VenProgress.FinishedStays | crates/aggregator-logic/src/standards/openleadr_ven.rs:287-323 | a finished event stays finished as time passes and the log grows |
| VenProgress.PollOfEvent | crates/aggregator-logic/src/standards/openleadr_ven.rs:265-396 | a poll does to one event's keys what processing that event alone does, whether its dispatch succeeds or fails |
| VenProgress.PollProgress | crates/aggregator-logic/src/standards/openleadr_ven.rs:287-323 | a successful poll of an open event closes it or leaves one fewer active undispatched interval |
| VenProgress.FailedDispatchSkips | crates/aggregator-logic/src/standards/openleadr_ven.rs:345-349 | a failed dispatch writes nothing, so the interval is tried again |
| VenProgress.StepAdvances | crates/aggregator-logic/src/standards/openleadr_ven.rs:229-396 | no failed poll, failed dispatch, restart or omission lets the number of intervals to dispatch rise, and a success lowers it |
| VenProgress.ActiveIntervalsAreDispatched | crates/aggregator-logic/src/standards/openleadr_ven.rs:583-625 | in any run with failed polls, failed dispatches, clean restarts and omissions in between, an interval active whenever the event is listed is dispatched once as many polls succeed as there are active undispatched intervals |
| VenListeners.VenListener.LoadSeen | crates/aggregator-logic/src/standards/openleadr_ven.rs:229-262 | the store is loaded once |
| VenListeners.VenListener.Mark | crates/aggregator-logic/src/standards/openleadr_ven.rs:434-441 | a mark goes to the store and to memory |
| VenListeners.VenListener.HandleEvent | crates/aggregator-logic/src/standards/openleadr_ven.rs:265-353 | one event: mark and dispatch as specified, a failed dispatch leaves no mark |
| VenListeners.VenListener.ScanListing | crates/aggregator-logic/src/standards/openleadr_ven.rs:265-353 | the whole listing, event by event, with the number of successful dispatches |
| VenListeners.VenListener.Prune | crates/aggregator-logic/src/standards/openleadr_ven.rs:376-393 | only stale keys are forgotten; a failed deletion stays in the store |
| VenListeners.VenListener.PollOnce | crates/aggregator-logic/src/standards/openleadr_ven.rs:229-396 | one poll is one step of the specified listener |
| Bytes.BigEndianRoundTrip | crates/aggregator-stacks/src/binary_decoder.rs:257-293 | big-endian digits of any width give the number back |
| Frames.DecodeHeader | crates/aggregator-stacks/src/binary_decoder.rs:48-94 | the cursor-driven header reads return the header or the error of the specification |
| Frames.HeaderAnswers | crates/aggregator-stacks/src/binary_decoder.rs:48-94 | which test fails first names the error, and a header comes back exactly when the CRC holds, the version is 4 and the seconds are representable |
| Frames.FrameAnswers | crates/aggregator-stacks/src/binary_decoder.rs:107-198 | the whole parser: header errors, a failed decryption under the nonce of manufacturer, timestamp and version, else the last-wins readout of the block |
| Frames.TlvsArePrefix | crates/aggregator-stacks/src/binary_decoder.rs:159-196 | the TLVs read pack to a prefix of the block, and what follows holds no complete TLV |
| Frames.ReadTlvs | crates/aggregator-stacks/src/binary_decoder.rs:159-196 | the TLV loop returns the fold of the complete TLVs of the block |
| Frames.DecodeFrame | crates/aggregator-stacks/src/binary_decoder.rs:107-198 | the whole parser: header errors, decryption errors and the readout |
| Frames.LoopIsLastWins | crates/aggregator-stacks/src/binary_decoder.rs:159-196 | applying TLVs in order is, field by field, the last one of that tag and length |
| Frames.UnknownTlvIgnored | crates/aggregator-stacks/src/binary_decoder.rs:159-196 | a TLV with an unknown tag or a wrong length changes nothing, wherever it stands |
| Frames.SplitEncoded | crates/aggregator-stacks/src/binary_decoder.rs:159-196 | an encoded TLV list is split back into itself, whatever incomplete tail follows |
| Frames.PaddedNameRoundTrip | crates/aggregator-stacks/src/binary_decoder.rs:77-79 | a NUL-padded device name is trimmed back to itself |
| Frames.HeaderRoundTrip | crates/aggregator-stacks/src/binary_decoder.rs:48-94 | the header of an encoded frame comes back, whatever follows the frame |
| Frames.FrameRoundTrip | crates/aggregator-stacks/src/binary_decoder.rs:107-293 | parsing an encoded frame, plain or encrypted, gives its header and the last-wins readout of its TLVs; a truncated tail and trailing bytes change nothing |
| Frames.HeaderEndsWithFrame | crates/aggregator-stacks/src/binary_decoder.rs:48-94 | bytes after the declared frame change no header result, for any declared length of at least 2 |
| Frames.TrailingBytesIgnored | crates/aggregator-stacks/src/binary_decoder.rs:107-198 | for any payload that holds its declared frame, bytes after it change no result |
| BulkFrames.SplitBulkFrames | crates/aggregator-api/src/grpc/service.rs:179-197 | the cursor loop returns the split of the payload |
| BulkFrames.SplitPacked | crates/aggregator-api/src/grpc/service.rs:739-745 | splitting a packing of frames of at most 255 bytes returns the same frame and signature pairs |
| BulkFrames.PackSplit | crates/aggregator-api/src/grpc/service.rs:179-197 | for any payload, re-packing the split gives a prefix of it whose remainder holds no complete entry |
| MintKeys.IntRoundTrip | crates/aggregator-logic/src/mint_settlement.rs:412-419 | a printed 64-bit window parses back and holds no colon |
| MintKeys.MintKeyRoundTrip | crates/aggregator-logic/src/mint_settlement.rs:412-419 | for every serial, colons included, and every 64-bit window, parsing the printed key gives both back |
| MintKeys.IntTextIs | crates/aggregator-logic/src/mint_settlement.rs:417-417 | the integer parser accepts exactly an optional sign and digits whose positional value is in range |
| MintKeys.ParseFieldIff | crates/aggregator-logic/src/mint_settlement.rs:412-419 | a key parses exactly when the part after its last colon is such an integer, and the rest is the serial |
| MintKeys.FieldInjective | crates/aggregator-logic/src/mint_outbox.rs:76-78 | a printed field names one serial and window |
| MintKeys.StripUndoesPrefix | crates/aggregator-persistence/src/infra/mint.rs:53-55 | stripping the prefix of an idempotency key gives the outbox field |
| MintKeys.ClassifyBatchResults | crates/aggregator-logic/src/mint_settlement.rs:179-195 | the fields of the successful items in order, and counts that add up to the reply |
| MintKeys.SuccessFieldsHold | crates/aggregator-logic/src/mint_settlement.rs:179-195 | a field is confirmed exactly when a successful item carries it |
| MintKeys.BatchReplyRemovesExactly | crates/aggregator-logic/src/mint_settlement.rs:179-195 | a reply over the request's keys removes exactly the outbox entries it marks successful |
| MintAttempts.MintInFlight.TryBegin | crates/aggregator-logic/src/mint_settlement.rs:36-42 | claims the key exactly when it is free |
| MintAttempts.MintInFlight.Release | crates/aggregator-logic/src/mint_settlement.rs:51-59 | a dropped guard frees its key |
| MintAttempts.MintInFlight.ClaimOne | crates/aggregator-logic/src/mint_settlement.rs:293-330 | a claim is kept only with a usable wallet; any other path leaves the set as it was |
| MintAttempts.MintInFlight.ClaimAll | crates/aggregator-logic/src/mint_settlement.rs:284-340 | the inputs are the chosen entries with their wallets, and the set holds exactly their keys beside those of other attempts |
| MintAttempts.MintInFlight.AttemptMintBatch | crates/aggregator-logic/src/mint_settlement.rs:277-404 | with other attempts claiming and releasing at every await: publishes the chosen entries, confirms what the reply marks successful, and takes exactly its own keys out of the set |
| MintAttempts.MintInFlight.ReleaseAll | crates/aggregator-logic/src/mint_settlement.rs:402-404 | dropping the guards frees exactly their keys |
| MintAttempts.ChosenKeys | crates/aggregator-logic/src/mint_settlement.rs:284-340 | the published keys are exactly those that some entry with a usable wallet finds free at its turn |
| MintAttempts.ChosenDistinct | crates/aggregator-logic/src/mint_settlement.rs:284-340 | no key is published twice, repeated entries included |
| MintAttempts.ItemKeysDistinct | crates/aggregator-persistence/src/infra/mint.rs:420-440 | the items of a batch message carry pairwise different idempotency keys |
| KeyCache.NextKeepsAnswers | crates/aggregator-persistence/src/infra/crypto.rs:39-47 | an operation changes later answers only for the key it stores |
| KeyCache.CacheIsMapWithExpiry | crates/aggregator-persistence/src/infra/crypto.rs:25-48 | over every run, gated pruning and eviction on lookup never change an answer of the map with expiry |
| KeyCache.CachedAnswerIsRecent | crates/aggregator-persistence/src/infra/crypto.rs:204-237 | a verdict is answered exactly when it is the latest one stored for the id and was stored less than its TTL ago |
| KeyCache.LookupEvicts | crates/aggregator-persistence/src/infra/crypto.rs:204-216 | a lookup leaves no expired verdict of its id behind and touches no other entry |
| KeyCache.PruneIsGated | crates/aggregator-persistence/src/infra/crypto.rs:39-47 | a prune comes 30 s or more after the last one, and leaves nothing that had expired before it |
| KeyBatch.SingleAnswers | crates/aggregator-persistence/src/infra/crypto.rs:258-311 | each answer of the single verifier exactly when it is given, on cache, store, signature text and payload |
| KeyBatch.ResolveCaches | crates/aggregator-persistence/src/infra/crypto.rs:243-256 | a clean answer, present or absent, is cached until its own TTL ends; an error leaves nothing |
| KeyTrace.CachedAnswerWasInStore | crates/aggregator-persistence/src/infra/crypto.rs:204-256 | over every interleaving of calls with a changing store, a verdict is answered exactly when the last put of the id carries it, that put is less than its TTL old, and its fetch read the verdict from the store as it was at the fetch |
| KeyTrace.InterleavingResolvesAlike | crates/aggregator-persistence/src/infra/crypto.rs:243-397 | while the store does not change, every lookup of every interleaved call resolves as on the first cache |
| KeyTrace.InterleavedSlot | crates/aggregator-persistence/src/infra/crypto.rs:314-397 | a batch slot among other calls is true exactly when a single call alone on the first cache at the same instant returns true |
| KeyBatch.SinglesByFirstCache | crates/aggregator-persistence/src/infra/crypto.rs:258-311 | single calls in sequence over one snapshot all judge by the cache before the first call |
| KeyBatch.BatchRefinesSingles | crates/aggregator-persistence/src/infra/crypto.rs:314-397 | slot i of a batch alone is true exactly when the i-th single call, made in order at the same instants, returns true, with repeats, hits and misses mixed |
| KeyBatch.BatchLeavesAnswers | crates/aggregator-persistence/src/infra/crypto.rs:356-376 | the cache that a batch alone leaves resolves every key as before over the same snapshot |
| SignatureVerifiers.SignatureVerifier.CacheGet | crates/aggregator-persistence/src/infra/crypto.rs:204-216 | answers an unexpired verdict and drops an expired one |
| SignatureVerifiers.SignatureVerifier.InsertPruned | crates/aggregator-persistence/src/infra/crypto.rs:39-47 | prunes at most every 30 s, then inserts |
| SignatureVerifiers.SignatureVerifier.CachePut | crates/aggregator-persistence/src/infra/crypto.rs:221-237 | positive and negative TTLs |
| SignatureVerifiers.SignatureVerifier.ResolvePubkey | crates/aggregator-persistence/src/infra/crypto.rs:243-256 | cache, else store; an unreachable store and a malformed key are errors and are not cached |
| SignatureVerifiers.SignatureVerifier.VerifySingle | crates/aggregator-persistence/src/infra/crypto.rs:258-311 | the single verifier with its error cases |
| SignatureVerifiers.SignatureVerifier.Scatter | crates/aggregator-persistence/src/infra/crypto.rs:338-354 | lookups with placeholders and the list of misses |
| SignatureVerifiers.SignatureVerifier.Gather | crates/aggregator-persistence/src/infra/crypto.rs:356-376 | the store's answers fill exactly the missed slots; malformed keys are not cached |
| SignatureVerifiers.SignatureVerifier.VerifyBatch | crates/aggregator-persistence/src/infra/crypto.rs:314-397 | with other calls between any two of its steps: the length error and the unreachable error exactly when due, else each slot is resolved at its own turn and verified |
| Dispatch.HistoryIsLatest | crates/aggregator-logic/src/dispatch/engine.rs:160-172 | over every run the history holds at most one entry per pair, the time of the pair's last success |
| Dispatch.EligibleIff | crates/aggregator-logic/src/dispatch/engine.rs:46-54 | a pair may fire exactly when its own last success is at least a cooldown ago; no other pair and no failure counts |
| DispatchDirections.SuccessesAreWanted | crates/aggregator-logic/src/dispatch/engine.rs:189-200 | over every run each logged success comes from a tick whose frequency wants it: up below the low threshold, down above the high one |
| DispatchDirections.WantedSuccessesAreLogged | crates/aggregator-logic/src/dispatch/engine.rs:271-292 | each successful task of a legal tick is logged for the action its frequency wants |
| DispatchDirections.InBandIsQuiet | crates/aggregator-logic/src/dispatch/engine.rs:196-204 | a tick in band attempts and logs nothing |
| DispatchDirections.AttemptsIff | crates/aggregator-logic/src/dispatch/engine.rs:221-256 | after every legal run a tick with capacity attempts exactly the registered targets that are cooled down for the action its frequency wants |
| Dispatch.FailureStartsNoCooldown | crates/aggregator-logic/src/dispatch/engine.rs:275-292 | a tick whose attempts on a pair fail leaves its eligibility unchanged |
| Dispatch.SuccessesAreSpaced | crates/aggregator-logic/src/dispatch/engine.rs:189-303 | over every run two successes of the same action on the same adapter are at least one cooldown apart |
| DispatchEngines.DispatchEngine.LastDispatchOf | crates/aggregator-logic/src/dispatch/engine.rs:160-165 | the first entry of the pair |
| DispatchEngines.DispatchEngine.RecordDispatch | crates/aggregator-logic/src/dispatch/engine.rs:167-172 | replaces the entry of the pair and keeps the others in order |
| DispatchEngines.DispatchEngine.FindEligible | crates/aggregator-logic/src/dispatch/engine.rs:223-242 | the registered targets whose cooldown has passed when read |
| DispatchEngines.DispatchEngine.JoinAll | crates/aggregator-logic/src/dispatch/engine.rs:271-292 | records successes only, and counts fired and failed tasks |
| DispatchEngines.DispatchEngine.EvaluateAndDispatch | crates/aggregator-logic/src/dispatch/engine.rs:189-303 | Ok exactly when nothing was due or something fired; the capacity error exactly when a target was due without capacity |
| DispatchEngines.SelectAdaptersFrom | crates/aggregator-logic/src/dispatch/engine.rs:130-158 | never empty, no repeats, exactly the usable names in order of first mention, else the default alone |
| Text.TrimDropsSpace | crates/aggregator-logic/src/dispatch/engine.rs:135-135 | trimming drops white space alone, at both ends |
| Text.Split | crates/aggregator-logic/src/dispatch/engine.rs:135-135 | the parts hold no separator and join to the text |
| ReadingRows.RowsFollow | crates/aggregator-persistence/src/infra/pg_readings.rs:113-181 | over every run a row keeps the stamp of the first mint mark after its insert, is confirmed exactly when minted, and shows no surplus only if unminted and dismissed |
| ReadingRows.MintedIff | crates/aggregator-persistence/src/infra/pg_readings.rs:113-181 | a stored reading is minted exactly when a mint mark of its meter, for the window the aggregator bins it in, comes after its insert |
| ReadingRows.MarkTwice | crates/aggregator-persistence/src/infra/pg_readings.rs:113-181 | repeating a statement changes nothing |
| ReadingRows.ReadingsTable.InsertRow | crates/aggregator-persistence/src/infra/pg_readings.rs:268-340 | a new row is pending and unminted, with the canonical serial and the reading's milliseconds |
| ReadingRows.ReadingsTable.UpdateRows | crates/aggregator-persistence/src/infra/pg_readings.rs:113-181 | the statement changes exactly the rows of its WHERE clause and returns how many changed |

## Left out

- Frames.DecodeHeader: text is kept as bytes; the lossy UTF-8 replacement of invalid names is not modelled, so the round trip is about names that are valid UTF-8.
- Frames.DecodeFrame: a key of the wrong length, which the cipher constructor rejects, is not modelled.
- SettlementAmounts.MintedIsMeteredSurplus: stated for one process lifetime, because the settled set is lost in a crash and a restored window may be settled again.
- VenProofs.AtMostOnce: stated while the guarding keys are not pruned and persistence succeeds; `VenProofs.PrunedVersionFiresAgain` shows the first is needed, and lost writes of the dedup store are not modelled.
- KeyTrace.InterleavingResolvesAlike: stated for a reachable store; a call that finds it unreachable fails and stores nothing.
- DispatchEngines.DispatchEngine.EvaluateAndDispatch: NaN frequencies, the text of error messages and the outcome counters.
- ReadingRows.MintedIff: status changes by other services and the rounding of `to_timestamp` are not modelled; a dropped or failed insert is no step.
- f64 and `Decimal` rounding of energies, amounts and demands.
- The settlement path without Redis (best-effort mint, no durable store), and a failed load of the durable bins at start.
- The semaphore that caps concurrent attempts and the drain loop's wait for its batches: the model allows more interleavings than the code.
- Manual edits of the Redis hashes, and the parsing of stored JSON.
- A bin written again after its deletion stays in the hash: the model allows that step and proves nothing about removing it.
- Redelivered readings count again, as in the code; nothing is claimed about exactly-once counting.
- VEN execution reports, registration, cancellation tracking of active events, and calendar durations of intervals.
- Backfill and repair of the owner read-model, and database faults inside the feed.
- InfluxDB points, zone balances, net deficit and net energy, metrics and logs: only easy members beside the cores above.
- HTTP and gRPC handlers, TLS, environment parsing, and the Kafka, NATS, RabbitMQ, Vault and Postgres clients.
- The device encryption-key cache, which repeats the shape of the public-key cache.
