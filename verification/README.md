# Rollback Engine: a verified model

Rollback Engine runs order commands over an append-only event log. A command that carries an idempotency key owns one
row in a command store; workers reserve that row, renew a lease on it, append events under a fencing token, record them,
and complete, fail or release the row. A crashed or slow worker can be challenged by others: taken over while the command
has no event, revoked once it has one. States of orders are only ever projections of the log; materialized views and
snapshots are caches.

This project models that behaviour in Dafny 4.11 and proves what it is for. `dafny verify dfyconfig.toml` checks all of it.

## How the model is built

- **Domain.** `Events`, `Projection` and `Histories` hold the seven event types, the transition function and the replay
  loop, and an independent description of the histories a replay accepts. `CheckoutSaga` has the saga and its reverse
  compensation over a journal whose recordings may throw at any point. `InvariantSuite` is the chaos suite's checker.
- **Stores.** `StoreContracts`, `CommandRows` and `EventLog` state what each store operation does to one row or to the
  log, as functions. `Stores` has the two in-memory stores as classes wired to each other; every method is proved equal
  to its function. `Sqlite` splits the SQLite adapter's transactions into the validating SELECT, the UPDATE and the
  answer, and proves that with the lock held they are the same functions.
- **Command execution.** `Coordinator` is one call of `execute` as a small-step machine: between any two store
  operations any other call may run. Every store mutation may succeed, throw without effect, or take effect and throw;
  the reads of a command's events that the code guards may fail; a call may stop for ever at any point. `Ownership`,
  `OwnSteps` and `RowSteps` prove, step by step, what a call knows, what a row means, and that no step of another call
  can take that away. `Runs` interleaves any number of calls over shared stores and notes for each event the call and
  the generation that appended it. The theorems about all runs are in `OwnershipTheorems` (at most once, honest answers,
  generations, bookkeeping), `Leases` and `LiveLeases` (what a renewal is for, and what others may do to a live
  generation), `Progress` (termination), `Permanence` and `ReceiptChecks` (receipts), and `RecordedErrors` with
  `FailedRetries` (recorded errors). The other direction, that what should be done is done, is in `Outcomes`, `Endings`
  and `Openings`: what an undisturbed call comes to for every row it may find, for any list of commits, and for every
  way its callback may end. `Execution` has the coordinator's `commitEvent` and its error handling in their imperative
  form over the two store classes, proved to take the machine's steps. `ExampleRun` lives one command through to
  completion, and `BrokenRun` goes on from the middle of it until the command's history is broken. `Boundaries` and
  `LateReadBacks` say where stronger statements fail.
- **Replay as authority.** `Replay` has the shortcuts (snapshot, sequence, timestamp) next to the full replay. `Views`
  has the view repository, shared with other workers that overwrite or remove views and append events between any two of
  our accesses, following an arbitrary script. `Engine` has the bounded compare-and-swap, the authoritative read and
  `recordEvent` over it. `EngineRuns` has the same as a machine of single accesses and interleaves several engines over
  one log and one set of views, which anyone may overwrite or empty between any two steps; `EngineAlone` is one of them
  that nobody disturbs. `ValidatedRuns` joins the two run machines: calls of `Runs` that commit what such engines have
  validated.
- **Upcasting.** `Upcaster` has the registry and the migration loop, with callbacks that may answer differently each
  time; `ObjectGraph` has the copy and the freezing of cyclic object graphs on the heap.

Clocks, lease durations, choices of the scheduler, faults and other workers' actions are parameters of runs, so every
theorem holds for all of them. Generated ids are fresh by construction: an event id names the call that drew it, and a
command id is either a client's key or the operation id of one call. What a command's callback may do is stated by
`Coordinator.Plausible`: it appends events of its own command, or throws, claiming a commit only after one, or answers
with a state it read from the log, an eventless answer coming only from a compensation that found nothing to undo
(src/application/rollbackEngine.js:238-442); an error of a commit ends the callback, as in the engine, which catches only
the simulated failure it throws itself (src/domain/checkoutSaga.js:79-81).

Some plausible stronger statements do not hold; each has its exact condition as a lemma.

- *A running lease protects a generation from others.* Only while the command's events are contiguous: in every reachable
  world another execution's step ends a live generation only over a broken history
  (`LiveLeases.LiveRowsEndOnlyOverBrokenHistories`), and over a broken one a retry ends it at any clock
  (`BrokenRowsAreFailedAtAnyClock`). Such worlds are reachable: another command may write to the same aggregate between
  two events of this one (`BrokenRun.Breaks`, `BrokenRun.ALiveGenerationIsEnded`). Bookkeeping refuses exactly the events
  that break a history, after their append has committed (`Boundaries.BookkeepingRefusesExactlyBreaks`), which is why it
  may lag by one event.
- *`COMMAND_IN_PROGRESS` means that nothing is committed.* It says so of the call; a command with events is answered it
  exactly while its lease runs (`Boundaries.InProgressIsSaidOfTheCall`). `HonestAnswers` is stated for the call.
- *The inconsistency error means that row and log disagree.* With exact bookkeeping it is given exactly for a row read as
  released, or one that has the error on record (`Boundaries.ReleasedReadsEndInconsistent`).
- *A missing deadline counts as passed.* In the stores; the coordinator starts a takeover exactly if there is a deadline
  (`Boundaries.UndatedRowsAreNotChallenged`). `ExactlyOneChallenge` speaks about the stores.
- *A takeover is answered the generation it was granted.* SQLite reads the row it answers after its COMMIT. The answer is
  the granted one exactly if no further takeover ran at or after the deadline granted (`Sqlite.ReadBackIsOwnGeneration`):
  never late within the call's own lease. In `Coordinator` that read is a step of its own, and the theorems about runs are
  about calls whose read-backs are not late. What a late one would cost is in `LateReadBacks`: an execution with an event
  in the log is answered that nothing was committed, and two workers of one name write for one command.

## Model

| member | source | states |
|---|---|---|
| OwnershipTheorems.AtMostOnce | src/application/commandExecutionCoordinator.js:169-289 | In every interleaving of any number of calls, with crashes, lost acknowledgements and failing lookups, any two events of one command were appended by the same call under the same generation. |
| OwnershipTheorems.HonestAnswers | src/application/commandExecutionCoordinator.js:291-389 | A call that ended in an error saying nothing was committed appended no event that is in the log, also when its append committed and then threw; one saying something was committed means its command has events. |
| OwnershipTheorems.AnswersAreOnRecord | src/application/commandExecutionCoordinator.js:209-222 | A call with a key answers a result only if its command is completed with exactly this result, for the call's own request. |
| OwnershipTheorems.CommandsEvolve | src/infrastructure/inMemoryCommandStore.js:91-228 | From any reachable world to any later one: a command's generation never decreases and never changes once the command has an event, its events are only appended, an inactive generation gets no more of them, and a completed row stays identical. |
| OwnershipTheorems.GenerationsNeverRepeat | src/infrastructure/inMemoryCommandStore.js:91-228 | After any run and any continuation of it, a reservation or takeover gives a call a generation strictly above the one the command's row had before the continuation: above every earlier generation, also one whose acknowledgement was lost. |
| OwnershipTheorems.OwnersActOnTheirGeneration | src/infrastructure/inMemoryCommandStore.js:533-552 | An execution changes its command's row only while it holds the row's current generation. |
| OwnershipTheorems.BookkeepingLags | src/infrastructure/inMemoryCommandStore.js:349-390 | In every reachable world a row's recorded range is the exact list of its command's events or all but the last; completed and revoked rows hold the exact list, released rows have no events, and inactive rows have neither owner nor deadline. |
| OwnershipTheorems.ReachableChallenge | src/infrastructure/inMemoryCommandStore.js:177-304 | In every reachable world a processing command with contiguous events can be taken over exactly if its deadline has passed and it has no event, and revoked exactly if it has passed and there is one. |
| LiveLeases.LiveRowsEndOnlyOverBrokenHistories | src/application/commandExecutionCoordinator.js:555-567 | In every reachable world, a step of another execution that changes a processing row whose lease runs is the failure write after a history check, and the command's events are not contiguous. |
| LiveLeases.BrokenRowsAreFailedAtAnyClock | src/application/commandExecutionCoordinator.js:555-567 | The other half: over a non-contiguous history a retry whose reads and writes succeed fails the processing row, at any clock, with the inconsistency error. |
| LiveLeases.ResolvingFailsBrokenRows | src/application/commandExecutionCoordinator.js:431-668 | Resolving leads to the failure write exactly for a processing row whose events are not contiguous; no deadline is consulted. |
| BrokenRun.Breaks | src/application/commandExecutionCoordinator.js:555-567 | A reachable world, spelled out: the lease, renewed twice, has time left, and the command's events are the first and third of their aggregate, a keyless call having written the second. |
| BrokenRun.ALiveGenerationIsEnded | src/application/commandExecutionCoordinator.js:555-567 | In that world a newcomer's three steps end the live generation, one unit before its deadline. |
| Boundaries.InProgressIsSaidOfTheCall | src/application/commandExecutionCoordinator.js:570-590 | A retry that challenges an unchanged row with events is answered the in-progress error, with nothing said to be committed, exactly while the lease runs. |
| Boundaries.ReleasedReadsEndInconsistent | src/application/commandExecutionCoordinator.js:431-668 | With exact bookkeeping a resolving retry ends in the inconsistency error exactly if the row was read as released, and then the error names the events, or has that error on record, and then it is that error. |
| Boundaries.DisagreementIsTold | src/application/commandExecutionCoordinator.js:431-668 | A retry whose read of the row disagrees with the command's events in the log is told so, with these events; one whose reads agree is not, unless that is the error on record. |
| Boundaries.RefusedReceiptsAreTold | src/application/commandExecutionCoordinator.js:676-782 | A completed row whose receipt does not hold, or cannot be read, is answered with the receipt inconsistency. |
| Boundaries.UndatedRowsAreNotChallenged | src/application/commandExecutionCoordinator.js:483-485 | For an eventless processing row a takeover is attempted exactly if the row has a deadline, although the store would grant one for a row without. |
| Boundaries.BookkeepingRefusesExactlyBreaks | src/infrastructure/inMemoryCommandStore.js:367-389 | Recording one more committed event under the current generation is accepted exactly if the command's events stay contiguous with it. |
| Leases.RenewalsExtendLeases | src/infrastructure/inMemoryCommandStore.js:306-347 | In every reachable world the renewal of the generation being processed sets its deadline to the clock plus the lease time, changes nothing else, and lets the call append; also when its acknowledgement is lost, but for the appending. |
| Leases.RenewedLeasesProtect | src/infrastructure/inMemoryCommandStore.js:306-347 | After it, before the new deadline and as long as the command's events are contiguous, no step of another call of the command changes the row. |
| Leases.HoldersOwn | src/infrastructure/inMemoryCommandStore.js:91-228 | In every reachable world the call that holds the generation being processed is the row's owner, so its renewals are not refused. |
| CommandRows.RenewalExtends | src/infrastructure/inMemoryCommandStore.js:306-347 | Of a row: the renewal stores the new deadline and nothing else and answers it, and before that deadline both challenges leave the row alone, refused as not expired if nothing else is wrong with them. |
| CommandRows.TakeoverHandsOver | src/infrastructure/inMemoryCommandStore.js:177-228 | A takeover leaves the next generation, the challenger as owner and its own deadline; a renewal that names the old generation is refused as stale. |
| CommandRows.ReservesExactly | src/infrastructure/inMemoryCommandStore.js:91-175 | A key is reserved exactly if it has no row or its row was released by the same request, under the next generation; another request is a conflict; otherwise the row is answered as it is. |
| CommandRows.ExactlyOneChallenge | src/infrastructure/inMemoryCommandStore.js:177-347 | The same for any processing row whose bookkeeping is a prefix of its contiguous events, with what the successful challenge leaves behind; and the uncontested owner may renew at any clock with a representable deadline, before and after expiry. |
| CommandRows.AcceptedMutationsNameTheGeneration | src/infrastructure/inMemoryCommandStore.js:306-531 | Each owner mutation and each repair that is accepted named the row's current generation; a renewal also its owner. |
| Runs.ReachedInv | src/application/commandExecutionCoordinator.js:169-990 | The invariant behind these theorems, about every call, every row, the holders of generations and the authors of events, holds in every reachable world. |
| Runs.ReachedIffRun | src/application/commandExecutionCoordinator.js:169-990 | The reachable worlds are exactly those in which some list of moves ends: theorems about worlds and theorems about runs speak of the same ones. |
| RowSteps.StepPcSound | src/application/commandExecutionCoordinator.js:169-990 | Each single step of a call, under each fault, keeps the call's and its command's invariant and does to the command only what other calls can rely on. |
| Ownership.OthersKeepCall | src/application/commandExecutionCoordinator.js:431-668 | What a call knows about its command survives every step another call of the same command may take. |
| OwnSteps.LookingUpSound | src/application/commandExecutionCoordinator.js:934-990 | After an append that threw, the raw lookup decides correctly whether the event was written, and a lookup that fails itself is answered as unknown. |
| OwnSteps.HandleSound | src/application/commandExecutionCoordinator.js:291-389 | Whatever the callback or a commit throws, the error handling never releases or fails an execution on the claim that nothing was committed while it has events. |
| RowSteps.RereadingSound | src/application/commandExecutionCoordinator.js:862-911 | The error answered after a refused failure write stays truthful: the stale-fencing answer that claims no commit is given only to a call that has no event. |
| Progress.RoundsAreBounded | src/application/commandExecutionCoordinator.js:487-551 | A call has gone back to resolving at most once more than others have changed its command's row or log since it began. |
| Progress.AloneRecursesAtMostOnce | src/application/commandExecutionCoordinator.js:615-625 | A call that runs undisturbed from any reachable world goes back at most once, whatever it finds and whatever fails. |
| Progress.ResolutionTerminates | src/application/commandExecutionCoordinator.js:431-668 | Each step of a resolving call ends it, starts its execution, or uses up a positive budget that only others' changes replenish. |
| Progress.TakingOverPaced | src/application/commandExecutionCoordinator.js:494-551 | A takeover whose refusal makes the call read the row again is refused only after others have changed the row or the log since the call last read the row; the round it starts stays within the bound. |
| Progress.RevokingPaced | src/application/commandExecutionCoordinator.js:570-603 | The same for a refused revocation. |
| Progress.EveryRereadIsOwed | src/application/commandExecutionCoordinator.js:487-603 | In every reachable world, a call that a refused challenge sends back to the row owes it to a change others made since it last read the row. |
| Permanence.ReceiptsArePermanent | src/application/commandExecutionCoordinator.js:440-466 | After any run that completed a command, a retry with the same key and payload whose reads do not fail ends with the identical result, with any moves of others before and between its steps, and the row is untouched. That it touches no view is stated by the two checks below, which modify nothing. |
| FailedRetries.ErrorsArePermanent | src/application/commandExecutionCoordinator.js:617-664 | After any run that left a command failed, a retry with the same key and payload whose reads and write do not fail is told exactly the error on record, with its code, its word about commitment and its event ids, if the bookkeeping matches the events, and the inconsistency otherwise; an open failure with contiguous events is told, and recorded, as interrupted, with exactly its events. Moves of others may come before and between its steps; the row is otherwise untouched. |
| FailedRetries.RevocationsAreAnswered | src/application/commandExecutionCoordinator.js:570-606 | In every reachable world a revocation over contiguous events takes effect exactly if the generation read is still being processed and its deadline has passed; row and answer then say that the command was interrupted, with exactly its events. |
| FailedRetries.MovesKeepFailed | src/application/commandExecutionCoordinator.js:617-664 | No move of anyone changes a failed row but the reconciliation of an open one, which is final. |
| RecordedErrors.RunSays | src/infrastructure/inMemoryCommandStore.js:242-304 | In every reachable world a row that says its command was interrupted lists exactly the command's events, and whoever is about to reconcile a failure has read it as open, with contiguous events. |
| Openings.FreeKeysExecute | src/application/commandExecutionCoordinator.js:169-222 | In every reachable world an undisturbed call whose key has no row, or was released by the same request, executes under the next generation. |
| Openings.AbandonedCommandsAreTakenOver | src/application/commandExecutionCoordinator.js:487-534 | One that finds its command abandoned without events, past its deadline, executes it under the next generation, as the owner until its own deadline. |
| Openings.OpenFailuresAreRetried | src/application/commandExecutionCoordinator.js:617-631 | One that finds an open failure without events gives the key free and executes the command under the next generation. |
| Openings.AbandonedEventsAreInterrupted | src/application/commandExecutionCoordinator.js:570-606 | One that finds its command abandoned with events, past its deadline, leaves the row failed as interrupted, and is told the same. |
| Openings.LostTakeoversReadAgain | src/application/commandExecutionCoordinator.js:543-551 | A takeover that finds the row in another status, or abandoned again in another generation, reads it again and resolves what is there now. |
| Openings.LostRevocationsReadAgain | src/application/commandExecutionCoordinator.js:588-603 | So does a revocation. |
| Openings.LiveCommandsAreInProgress | src/application/commandExecutionCoordinator.js:535-590 | One that finds the lease running is told that the command is in progress, and changes nothing. |
| Openings.ConflictsAreTold | src/application/commandExecutionCoordinator.js:186-188 | One whose key stands for another request is told of the conflict, and changes nothing. |
| Openings.CommandsComplete | src/application/commandExecutionCoordinator.js:169-222 | From any reachable world with a free key: a call whose callback commits any list of events that keeps the log well formed, and answers with the state of the history, ends completed, whether or not its appends are acknowledged; log, range, result and receipt are exactly these. |
| Outcomes.CommitsAll | src/application/commandExecutionCoordinator.js:264-289 | Any number of commits by an execution in order: each event accepted, found again when its append threw, booked exactly, and the lease extended by each renewal. |
| Endings.ExecutionsComplete | src/application/commandExecutionCoordinator.js:209-222 | The same from any execution in order, fresh, taken over or retried. |
| Endings.ExecutionsThrow | src/application/commandExecutionCoordinator.js:291-389 | A callback that throws after any number of commits: a command without events that was rejected, because the aggregate is missing or compensation is required, has failed with that error; any other without events is released; one with events has failed as partially committed, with exactly its events, or in the error's own words if it says so itself. The call is told what the row says, also when the failure write's acknowledgement is lost. |
| Endings.RefusedBookingIsCaughtUp | src/application/commandExecutionCoordinator.js:831-847 | An execution whose event was appended but not booked fails as partially committed, and its row's range then names all its events, the unbooked one included. |
| Endings.LateFailuresAreTold | src/application/commandExecutionCoordinator.js:862-911 | A failure write that comes too late changes nothing; the call is told that its generation is lost, or the error on record. |
| Endings.LostGenerationsStop | src/application/commandExecutionCoordinator.js:291-389 | An execution that lost its generation before its first commit is told so and changes nothing. |
| Endings.UnreadIsLeftOpen | src/application/commandExecutionCoordinator.js:934-990 | Where the command's events cannot be read after a first append that threw, or at the start, the row fails with an error that leaves it open, and the call is told the same. |
| Endings.KeylessCallsCommit | src/application/commandExecutionCoordinator.js:264-289 | A call without a key appends its event with nothing to renew or to book. |
| Endings.KeylessCallsAnswer | src/application/commandExecutionCoordinator.js:209-222 | It answers what its callback answered, once that is validated. |
| Endings.KeylessCallsAreTold | src/application/commandExecutionCoordinator.js:291-389 | It is told what it threw, with the word about its own events. |
| Engine.RollbackEngine.ValidateHistoricalReceiptState | src/application/rollbackEngine.js:678-722 | The state check of a retry is decided by the log alone and modifies nothing: no view, no event. |
| Execution.CommandExecutionCoordinator.AssertCompletedReceiptEnvelope | src/application/commandExecutionCoordinator.js:676-757 | The envelope check accepts exactly the receipts the machine's check accepts, and modifies nothing. |
| Permanence.CompletedCommandsAreInert | src/application/commandExecutionCoordinator.js:440-466 | No step of any call of a completed command, under any fault, changes a row or the log. |
| Permanence.ReceiptAccepted | src/application/commandExecutionCoordinator.js:676-782 | In every reachable world a completed row passes the envelope check, the historical-state check and the range check of a retry. |
| ReceiptChecks.ReceiptsAreCheckedExactly | src/application/commandExecutionCoordinator.js:676-782 | On a well-formed log a retry accepts exactly the receipts whose result is what the first events up to the anchor make of it, whose anchor names the last of them, whose snapshot is of the same state, and whose effect fits the recorded range; every other is refused. |
| ReceiptChecks.ResultsAreValidatedExactly | src/application/rollbackEngine.js:634-671 | A result is accepted exactly if its state is the replay of its aggregate's whole history; the anchor is then that history's length and last event. |
| Permanence.VouchedGrows | src/application/rollbackEngine.js:678-722 | What makes a receipt valid for one log makes it valid for every longer one. |
| Permanence.ValidatedAnchor | src/application/rollbackEngine.js:634-671 | A result that passes validation is the state of the whole history at that moment; its anchor names that history's last event, and a snapshot that came with it is of the same state. |
| Permanence.SameStateSamePrefix | src/domain/projection.js:310-326 | Two prefixes of one history with the same state are the same prefix. |
| Execution.CommandExecutionCoordinator.CommitEvent | src/application/commandExecutionCoordinator.js:264-289 | Undisturbed, renewing, appending, pushing and recording leave context, row and log exactly where the machine's steps leave them, and return or throw as they do. A commit that nothing stands in the way of returns the event, and leaves it in the log, the range exact and the lease extended. |
| Execution.CommandExecutionCoordinator.AppendEvent | src/application/commandExecutionCoordinator.js:934-990 | The append, and the lookup after an inconclusive throw, come to what the machine's two steps come to. |
| Execution.CommandExecutionCoordinator.HandleExecutionError | src/application/commandExecutionCoordinator.js:291-389 | From any thrown error, the row and the error answered are those of the machine run to its end. |
| Execution.CommandExecutionCoordinator.PersistFailedCommand | src/application/commandExecutionCoordinator.js:831-847 | Bookkeeping, failing and, when either is refused, the truth read end as the machine does. |
| Execution.CommandExecutionCoordinator.ReconcilePersistenceFailure | src/application/commandExecutionCoordinator.js:862-911 | The truth read answers what is persisted: a lost generation first, then the terminal error, then the failed write; it changes nothing. |
| ExampleRun.Completes | src/application/commandExecutionCoordinator.js:169-222 | A reachable world, spelled out, in which one call has reserved, created an order and completed its command. |
| Sqlite.LockedIsAtomic | src/infrastructure/sqlite/sqliteCommandStore.js:838-857 | SELECT, validation and UPDATE under the write lock, with the row read back at once, are exactly the atomic operation of the in-memory store, in the row left behind and in the answer, for all eleven operations. |
| Sqlite.LostGuardsAreAnswered | src/infrastructure/sqlite/sqliteCommandStore.js:887-907 | A guarded statement that is reached answers with a throw exactly if status or generation had moved, and then it changed nothing. |
| Sqlite.ReadBackIsOwnGeneration | src/infrastructure/sqlite/sqliteCommandStore.js:422-426 | With takeovers locked, and nobody naming the granted generation before it is answered: the row read back any number of moves after the COMMIT is the one granted, and the answer the transaction's own, exactly if no well-formed eventless takeover (a named worker, a representable deadline), naming this generation or none, ran at or after the granted deadline; otherwise it is of a later generation. |
| Sqlite.LateReadBackAnswersAnotherGeneration | src/infrastructure/sqlite/sqliteCommandStore.js:422-426 | A run in which a takeover granted generation 2 is answered 3. |
| LateReadBacks.DishonestAfterLateReadBack | src/application/commandExecutionCoordinator.js:495-530 | Two calls over one store, turn by turn: after a late read-back both hold generation 3, the first one's domain rejection fails the row, and the second, whose event is in the log, is answered that nothing was committed. |
| LateReadBacks.TwiceAfterLateReadBack | src/application/commandExecutionCoordinator.js:495-530 | The same with one worker name for both: both append events of the command. |
| LateReadBacks.StoriesExist | src/application/commandExecutionCoordinator.js:495-530 | Both sequences of states are ones the calls' own steps produce. |
| Sqlite.GuardsHold | src/infrastructure/sqlite/sqliteCommandStore.js:154-233 | Without the lock, a guarded statement changes nothing once status or generation has moved, never touches a completed row, keeps the generation unless it re-reserves a released row, and changes the status only along the lifecycle. |
| Sqlite.GenerationsUniqueWithoutLock | src/infrastructure/sqlite/sqliteCommandStore.js:359-433 | With all SELECTs and UPDATEs but the takeover's interleaved at will, the generations handed out are strictly increasing. |
| Sqlite.NothingNewerIsOverwritten | src/infrastructure/sqlite/sqliteCommandStore.js:887-907 | Over every such run and continuation the generation never decreases and a completed row is never overwritten. |
| Sqlite.UnlockedTakeoversCollide | src/infrastructure/sqlite/sqliteCommandStore.js:201-205 | Without the lock two takeovers hand out the same generation: the run is given. |
| Stores.InMemoryEventStore.Append | src/infrastructure/inMemoryEventStore.js:80-175 | The event is refused with the first applicable error and nothing changes, or the log grows by exactly it, which is so exactly if the command row lets it through, it is well shaped, the expected version is the number of events there are, and the log stays well formed with it; the four indexes keep agreeing. |
| EventLog.AppendAcceptsExactly | src/infrastructure/inMemoryEventStore.js:80-175 | An append that the command row lets through is accepted exactly if the event is well shaped, the expected version is the number of events there are, and the log stays well formed with it: a later timestamp is never a reason to refuse. |
| EventLog.ConflictsAreStaleVersions | src/infrastructure/inMemoryEventStore.js:127-140 | The concurrency conflict is answered exactly if the command row lets the append through and the expected version is not the present one. |
| EventLog.AppendKeepsWellFormed | src/infrastructure/inMemoryEventStore.js:127-160 | Every accepted append keeps sequences 1..n per aggregate, timestamps monotone and ids distinct. |
| Stores.InMemoryEventStore.GetByAggregateIdAfter | src/infrastructure/inMemoryEventStore.js:191-204 | The slice by position is the plain filter on sequence numbers. |
| Stores.InMemoryEventStore.GetLastSequence | src/infrastructure/inMemoryEventStore.js:232-242 | The last sequence number is the number of the aggregate's events. |
| EventLog.AfterIsSlice | src/infrastructure/inMemoryEventStore.js:198-202 | On a gapless list the filter is a slice. |
| Events.SelectMembers | src/infrastructure/inMemoryEventStore.js:160-170 | An index holds exactly the log's matching events. |
| Stores.InMemoryCommandStore.Reserve | src/infrastructure/inMemoryCommandStore.js:91-175 | Replies and stores what the row function says, and touches no other row. |
| Stores.InMemoryCommandStore.TakeOverExpired | src/infrastructure/inMemoryCommandStore.js:177-228 | The same, against the event store's list of the command's events. |
| Stores.InMemoryCommandStore.RevokeExpired | src/infrastructure/inMemoryCommandStore.js:242-304 | The same; the revoked row holds the range rebuilt from the authoritative events. |
| Stores.InMemoryCommandStore.RecordEvent | src/infrastructure/inMemoryCommandStore.js:349-390 | Replies and stores what the row function says: the range starts, or grows by one contiguous event of the same aggregate. |
| Stores.InMemoryCommandStore.Release | src/infrastructure/inMemoryCommandStore.js:427-447 | Releases only a processing row without a recorded range, for the generation named. |
| Stores.BuildEventRange | src/infrastructure/inMemoryCommandStore.js:29-69 | The loop accepts exactly the contiguous lists of one command and aggregate, and returns their range. |
| RowSteps.RecordCovers | src/infrastructure/inMemoryCommandStore.js:370-389 | Recording the next event turns the exact range of the earlier ones into the exact range of all. |
| Projection.ProjectEvents | src/domain/projection.js:310-326 | The loop computes the left fold that stops at the first refused event. |
| Projection.ProjectNext | src/domain/projection.js:88-308 | A replay of one more event is one more application, from the state reached or the initial one. |
| Histories.AcceptedIffLawful | src/domain/projection.js:88-326 | A replay accepts a history exactly if its types are a prefix of one of the four lives of an order, its payloads are valid and answer each other, and it is numbered 1..n on one aggregate; the state then has its version, lifecycle, parts and statuses. |
| Histories.StateIsDetermined | src/domain/projection.js:88-308 | Every field of a replayed state, with timestamps, amounts and reasons, is what the events that set it say. |
| Histories.VersionAndLifecycleDetermineTypes | src/domain/projection.js:88-326 | Accepted histories whose states agree on version and lifecycle went through the same event types. |
| Histories.EveryWordIsLived | src/domain/projection.js:88-326 | Each prefix of the four lives is the type sequence of some accepted history. |
| InvariantSuite.CheckerNeverFires | src/chaos/invariantSuite.js:226-385 | The compensation checker reports nothing on any accepted history with its own state. |
| InvariantSuite.CheckerAcceptsExactly | src/chaos/invariantSuite.js:226-385 | Of any history and state whatever the checker accepts exactly those in which what was charged and reserved was undone, once it had been done, in order and before the roll-back, and the state shows it; everything else is reported. |
| InvariantSuite.NoRollbackWithoutRefund | src/chaos/invariantSuite.js:226-385 | By way of the checker, which reports every rollback of a charged order without a refund: no accepted history contains one. |
| CheckoutSaga.CompensationIsTotal | src/domain/checkoutSaga.js:83-130 | From every undeleted accepted history, recording what the compensation plans is accepted, ends rolled back and leaves nothing to undo. |
| CheckoutSaga.PlanShape | src/domain/checkoutSaga.js:99-128 | At most three events in the order refund, release, rollback, and none exactly if the order is already rolled back. |
| CheckoutSaga.CompensateCheckout | src/domain/checkoutSaga.js:83-130 | For every number of recordings that succeed before one throws, exactly that prefix of the plan is recorded and the rest of the plan is what remains: running it again resumes. |
| CheckoutSaga.RunCheckoutSaga | src/domain/checkoutSaga.js:132-201 | For every failure point and every number of successful recordings the stream holds exactly that prefix of the saga's events; a result is returned exactly if all were recorded, and reports exactly the stream and the lifecycle reached. |
| Replay.ReplayAggregate | src/application/rollbackEngine.js:446-448 | The full replay: the projection of exactly the aggregate's events in the log, read through the index. |
| Replay.ReplayFromSnapshot | src/application/rollbackEngine.js:450-487 | Whatever the snapshot store holds or throws, the result is the full replay. |
| Replay.ReplayAt | src/application/rollbackEngine.js:489-511 | Time travel by timestamp is time travel by sequence to the number of events not later than it. |
| Replay.CountUntilSplits | src/application/rollbackEngine.js:499-506 | Stopping at the first later event keeps exactly the events not later than the target. |
| Replay.ReplayAtSequence | src/application/rollbackEngine.js:513-532 | Projects the filtered prefix, with the empty and initial cases. |
| Replay.AtSequenceAccepts | src/application/rollbackEngine.js:513-532 | On an accepted history time travel never throws, and projects exactly the first events. |
| Views.InMemoryStateRepository.CompareAndSwap | src/infrastructure/inMemoryStateRepository.js:85-104 | Stores the next state exactly if the view is still the expected one or still absent. |
| Engine.RollbackEngine.ReconcileMaterializedState | src/application/rollbackEngine.js:878-912 | Under any interference at most three swaps, each of a replayed state, all but the last refused; the answer is a replay of the log at some moment of the call, and what a successful swap stored; where there is a history it fails only after the third. Undisturbed it makes at most one swap, answers the replay, and the view becomes it, whatever it held. |
| Engine.RollbackEngine.WriteMaterializedState | src/application/rollbackEngine.js:852-876 | One swap conditioned on the observed state; when it loses, the stale candidate is never forced through. |
| Engine.RollbackEngine.EnsureLiveState | src/application/rollbackEngine.js:608-632 | The authoritative read answers a replay taken during the call, whatever the view held or becomes. |
| Engine.RollbackEngine.RecordEvent | src/application/rollbackEngine.js:724-789 | Under any interference with views and log, an event that is recorded extends a history that projects with and without it; undisturbed, the event is recorded exactly if the history projects with and without it and the store accepts it at that version; then the log is one event longer, the view is its replay, and no repair fails. |
| Engine.ValidatedAppendContinues | src/application/rollbackEngine.js:724-756 | A state replayed after the last sequence number was read is the state of exactly the history the append extends. |
| Engine.RollbackEngine.AllocateAggregateId | src/application/rollbackEngine.js:600-606 | The loop ends, with the first unused id from the counter on. |
| EngineRuns.LogStaysReplayable | src/application/rollbackEngine.js:724-789 | In every run of any number of engines over one log and one set of views, with views overwritten and removed between any two accesses, every aggregate's history projects without error. |
| EngineRuns.AuthoritativeReadsAreReplays | src/application/rollbackEngine.js:608-632 | In every such run the state an engine is about to apply an event to is a replay of the log taken since it read the last sequence number. |
| EngineRuns.EnginesWriteOnlyReplays | src/application/rollbackEngine.js:852-912 | In every such run an engine's step changes no view but that of the aggregate it works on, and then stores there the state it carries, a replay of a part of the log. |
| EngineAlone.EnginesRecordAlone | src/application/rollbackEngine.js:724-789 | In every reachable system an undisturbed engine is done after nine accesses; it has appended its event exactly if that continues the history and the store accepts it, and then the view is the replay, whatever it was, and no other view has changed. |
| ValidatedRuns.CommandsKeepTheLogReplayable | src/application/rollbackEngine.js:724-789 | In every run of calls, with crashes, faults, takeovers and retries, whose commits were validated by an engine, every aggregate's history projects without error. |
| ValidatedRuns.EnginesVet | src/application/rollbackEngine.js:724-756 | In every run of engines, an engine about to commit has validated its event in just the sense this theorem asks for. |
| ValidatedRuns.HeldEventsWereCommitted | src/application/commandExecutionCoordinator.js:264-289 | A call appends only the event, with the expected version, that its callback committed. |
| Upcaster.EventUpcasterRegistry.Register | src/domain/eventUpcaster.js:267-328 | Accepts exactly the contiguous forward steps not yet registered, and keeps the latest version of each type. |
| Upcaster.EventUpcasterRegistry.Upcast | src/domain/eventUpcaster.js:330-400 | The migration loop terminates and computes the chain of validated double runs that the lemmas below are about. |
| Upcaster.MigratesExactly | src/domain/eventUpcaster.js:142-400 | An event migrates exactly if every version on its way has a registered step whose two callback runs answer alike and honestly: schema version and identity left alone, the result valid at the next version. What comes out has, stage by stage, the callbacks' payloads. |
| Upcaster.RefusesTheFirstFault | src/domain/eventUpcaster.js:361-397 | Otherwise the refusal is that of the first stage that does not hold: a missing step, or what its callback did. |
| Upcaster.DishonestRunsAreNamed | src/domain/eventUpcaster.js:175-260 | A run that touches the schema version is an invalid output, one that leaves it alone but touches the identity is an identity violation, and two honest runs that differ are non-deterministic; each exactly then. |
| Upcaster.UpcastArrives | src/domain/eventUpcaster.js:142-260 | Whatever the callbacks do, a migrated event is at exactly the target version with its eight identity fields; it is the event itself if there was nowhere to go, and structurally valid otherwise. |
| Upcaster.DefaultUpcastIsIdempotent | src/domain/eventUpcaster.js:342-356 | Migrating to the registry's own target again changes nothing, also with callbacks that are not deterministic. |
| Upcaster.TwoStagesAreOne | src/domain/eventUpcaster.js:361-397 | With deterministic callbacks migrating through any version on the way gives the same event, or the same fault, as migrating in one go. |
| Upcaster.OrderDoesNotMatter | src/domain/eventUpcaster.js:308-325 | Registries that accepted the same steps in any order are equal, so every event migrates alike. |
| ObjectGraph.MaterializePlainCopy | src/domain/eventUpcaster.js:47-102 | For every finite graph, cyclic or shared: the copy succeeds exactly if nothing reachable is uncopyable, and is a fresh graph isomorphic to everything reachable; the original is untouched. |
| ObjectGraph.Copier.Copy | src/domain/eventUpcaster.js:47-102 | What one recursive call adds to the objects seen: complete copies, distinct and new, of objects its value reaches; it terminates because unseen objects run out. |
| ObjectGraph.DeepFreeze | src/domain/eventUpcaster.js:29-41 | Freezes exactly the reachable objects and changes nothing else. |
| ObjectGraph.MaterializeAndFreezePlain | src/domain/eventUpcaster.js:104-106 | The captured output is an isomorphic copy, all of it new and frozen; the callback's own objects are neither changed nor frozen. |

## Left out

- `execute` and `resolveExistingCommand` are modelled as a machine on values, not as methods: what matters about them is
  that other calls run between any two of their store operations. Their store operations are the classes' methods, and
  `Execution` has the methods around a commit in imperative form.
- HTTP server, routers, lab, scenario runners, child processes and files: input, output and presentation.
- The SQLite engine, its schema and JSON encoding: a row is a record and a statement one step. Only the command store's
  row is split into SELECT and UPDATE; the other SQLite adapters are not modelled.
- In `Runs` a takeover's answer is read back while the generation granted is still the row's; a call whose read would come
  later stays where it is. `Sqlite.ReadBackIsOwnGeneration` says when SQLite's does not come later.
- Dates, UUIDs and trimming of strings: timestamps and clocks are integers, ids are opaque, a blank string is an empty one.
- Correlation and causation ids appear only as identity fields in `Upcaster`; in the protocol an event carries its command.
- `Engine` commits an event by the store's append alone; what `commitEvent` does around it is in `Coordinator` and
  `Execution`.
- Diagnostics, subscribers, timelines, listings and the snapshot store's own shape checks: reporting, or easy.
- The coordinator works on stores wired to each other; the unwired in-memory stores, which skip or refuse the event check,
  are not modelled.
- Empty command keys are excluded by the type of a key; the stores reject them before anything else.
- The authoritative reads inside result validation are one step with the end of the callback in `Coordinator`; what such a
  read may do to the view is in `Engine`.
- Upcasting is the identity in the protocol and in replay; the registry is modelled by itself.
- Payloads in `Upcaster` are a shaped fact or none, and the rest opaque; an upcaster's output that cannot be copied is one
  outcome, and `ObjectGraph` says which outputs those are.
- Getters, proxies, symbol keys, prototypes and sparse arrays in object graphs: an object is a list of named properties and
  a flag for an acceptable prototype.
- An engine's counters for reservation and payment ids: they only choose ids.
- Real payments or inventory, consensus and asynchronous callbacks: the code makes no such claim.
