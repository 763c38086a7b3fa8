# A model of the wallet's write path, its outbox and its workers

This project models the persistence and messaging protocol of a wagering
service: submissions that race and retry, operations parked on a reference that
has not arrived, the doors through which money moves, the reversal index, the
outbox and its uncoordinated publishers, the queue consumer, the ledger's cursor
and the signing-key cache. The protocols are state machines whose steps are the
code's own statements; a run is any interleaving of any number of processes, with
a crash possible between any two steps. Every main result is a statement about
every reachable state or every input.

`dafny verify dfyconfig.toml` checks all of it.

## How it is laid out

| file | what it holds |
|---|---|
| `Prelude.dfy`, `Backoff.dfy`, `Domain.dfy` | shared values; the two retry schedules; the processor's rules |
| `Store.dfy` | the tables, the statements of one movement with their triggers, and the tables' invariants |
| `Reversals.dfy`, `Netting.dfy` | `active_reversal` against the plain history; what a bet and its reversals come to |
| `Movement.dfy` | the write path as a state machine: locks, private writes, commits, ambiguous commits, crashes |
| `MovementInvariant.dfy` | what holds in every reachable state, and the atomic specification |
| `MovementSteps.dfy`, `MovementFrame.dfy`, `MovementDelta.dfy`, `MovementCommit.dfy`, `MovementSafety.dfy`, `MovementRuns.dfy` | why every step keeps it |
| `Submissions.dfy`, `Decisions.dfy`, `Settling.dfy`, `Waiting.dfy`, `Locks.dfy` | what that means: idempotency, one decision each, wake-ups and refusals, how long waiting lasts, deadlock freedom |
| `Uninterrupted.dfy`, `ClockWitness.dfy` | explicit runs, and two that end at a clock's refusal |
| `StaleReads.dfy` | the doors alone, over arbitrary reads |
| `Session.dfy`, `SessionRefines.dfy` | the same statements updating tables in place, proved against `Store` and tied to the machine |
| `Outbox.dfy`, `OutboxProtocol.dfy` | the outbox table in place; any number of publishers over it |
| `Send.dfy`, `Publisher.dfy` | batches and their answers; a publisher's turn and loop |
| `Consumer.dfy`, `ConsumerRuns.dfy` | a batch's fates; receivers and the shutdown sweep |
| `Cursor.dfy`, `Ledger.dfy` | the opaque cursor; paging and reconciliation |
| `KeyCache.dfy` | the single-flight, rate-limited key cache |

## What came out of it

- A submission is a linearizable look-up-else-insert. The decision is sound even
  where two look-ups straddle another commit; only *which reason* a conflict
  names can depend on timing (the key bound to another payload, or the operation
  recorded under another key), never whether it is one.
- Under the wallet lock the version condition, both reversal indexes, the
  maintainer's rule and the ledger chain can never refuse a settle. The clock
  rules can, and exactly when the sampled instant is behind the row or not ahead
  of the wallet. For a submission, which samples under the lock
  (internal/app/wagering.go:277-281), that leaves two movements in one instant.
  `Resume` samples before it takes the lock (internal/app/wagering.go:567), and
  both rules can refuse it in reachable states: the wallet's when an unrelated
  movement overtakes the turn, the row's when the operation was parked after the
  turn's instant and woken at an earlier one. What woke the operation is never
  itself the cause, except in the same instant.
- The doors alone, with no lock and outcomes computed from arbitrary reads, still
  keep every ledger sound.
- The processor never refuses an operation these doors carry to it, so the
  carry-forward path is reached only by a fault outside the modelled code.

## Model

| member | source | states |
|---|---|---|
| `MovementRuns.StepKeeps` | internal/app/wagering.go:205-667 | every statement, commit, ambiguous commit, fault and crash of any submission, resume turn or opening keeps the whole invariant |
| `MovementRuns.RunsAreSafe` | internal/app/wagering.go:205-667 | the invariant holds in every state of every interleaving of any number of transactions |
| `MovementRuns.CommitKeeps` | internal/adapters/postgres/tx.go:262-299 | a commit, reported or not, keeps the invariant for every other transaction in flight |
| `MovementFrame.ProcStays` | internal/app/ports.go:121-138 | a transaction sharing no lock with the one that committed finds all it has read and staged still true |
| `MovementSteps.ExternalDecides` | internal/app/wagering.go:367-391 | a row found by external id under another key is a conflict for the atomic specification even if the key has been taken since |
| `Submissions.SubmissionsAreAtomic` | internal/app/wagering.go:205-466 | the decisions of any reachable state form a history of atomic look-up-else-insert over exactly the committed rows; every answer without error names a committed row that is the submission's operation field for field, the only one under its key |
| `Decisions.EachAnswerIsItsOwnDecision` | internal/app/wagering.go:205-466 | an acceptance or a conflict is reported from exactly one entry of the log: the submission's own, made since it began; a submission undecided, or refused for want of a wallet or as a defect, has none |
| `Decisions.NobodyIsDecidedTwice` | internal/app/wagering.go:205-466 | in every reachable state the log's entries belong to different submissions, each made after its own began |
| `Submissions.DecisionsAreTakenInFlight` | internal/app/wagering.go:205-466 | each decision takes effect at one step of the very submission it decides |
| `Submissions.AcceptanceIsFinal` | internal/adapters/postgres/tx.go:246-261 | after an accepted submission, the same submission is always answered with the same transaction and never recorded again, as a retry after an ambiguous commit needs |
| `Submissions.RefusalIsFinal` | internal/app/wagering.go:337-355 | a conflict stays a conflict: the same submission sent again unchanged is refused again |
| `Submissions.OneRowOneEntry` | internal/adapters/postgres/transactions.go:29-53 | each (provider, key) and each (provider, external id) has one row, and that row at most one ledger entry over all wallets |
| `Submissions.TheInsertLosesExactly` | internal/adapters/postgres/transactions.go:233-252 | the insert loses exactly when a committed row of the provider has its external id, or then its key |
| `Submissions.TheLoserFindsTheWinner` | internal/app/wagering.go:444-466 | the re-read after a lost insert always matches something: it accepts exactly when a row of this very operation is committed, and otherwise a row bars it by key or external id |
| `Submissions.ConflictIsNeverItsOwnRow` | internal/app/wagering.go:356-391 | over two instants a look-up that finds a row answers a conflict exactly when no row of this very operation is committed, some row then barring it by key or external id; otherwise it replays the row that is |
| `Submissions.DeletedAndHandledAreBacked` | internal/workers/consumer.go:511-571 | a message is deleted, and an inbox row committed, only behind a committed operation that is its body field for field |
| `Submissions.CommittedMessagesAreRecorded` | internal/app/wagering.go:218-242 | a submission that commits leaves its message in the inbox with its body, claimed here or found there |
| `Submissions.RedeliveryReplays` | internal/app/wagering.go:218-247 | a redelivery with a committed body finds its row and replays |
| `Submissions.NothingIsAppliedTwice` | internal/adapters/postgres/inbox.go:49-62 | no submission on its way to applying an operation has any row of its provider under its key or external id |
| `Settling.NoLostWakeUp` | internal/app/wagering.go:487-525 | on a wallet without a carry-forward defect, an operation parked on a processed reference of its wallet is due now, and has been since the instant that reference settled |
| `MovementCommit.ParksUnprocessed` | internal/domain/wagering/processor.go:264-300 | an operation parks only when nothing it names has been processed on its wallet |
| `Settling.SchedulesHold` | internal/app/wagering.go:494-503 | a committed transaction has a next attempt exactly when parked, within its deadline or already due, and is never PENDING |
| `Settling.DefectsCountNothing` | internal/app/wagering.go:737-769 | the defect path changes one row, never its attempt count: it fails it exactly when the deadline has passed, and otherwise pushes only its next attempt out to the end of its wait, or to the deadline where that comes first |
| `Settling.ProcessorNeverRefuses` | internal/app/wagering.go:621-629 | Continue returns no error for any operation carried to it in a reachable state |
| `Settling.OnlyTheClockRefuses` | internal/adapters/postgres/doors.go:36-45 | a settle is refused if and only if a clock rule is broken: version condition, indexes, maintainer, transition guard and chain are unreachable |
| `Settling.SubmissionsAreRefusedOnlyInTheSameInstant` | internal/app/wagering.go:277-281 | for a submission that leaves exactly the case of two movements in one instant |
| `Settling.TheWakerIsNeverAhead` | internal/app/wagering.go:505-519 | a turn carrying a parked operation sampled no earlier than what woke it settled, so on a wallet unmoved since, and a row not parked since, it is refused only in that very instant |
| `ClockWitness.AResumeIsRefusedByTheWalletsClock` | internal/app/wagering.go:567-606 | an explicit run, for every configuration, to a state where a refund due since its bet woke it is claimed by a turn sampled before an unrelated bet moved the wallet, and the door refuses it |
| `ClockWitness.AResumeIsRefusedByTheRowsClock` | internal/app/wagering.go:567-606 | an explicit run, for every configuration, to a state where a turn claims a rollback parked after the turn's instant and woken by a win settled before it, and the row's clock alone refuses it |
| `Settling.TheClaimIsOnTheLockedWallet` | internal/app/wagering.go:588-606 | under the locks a candidate is claimed exactly when still parked and still due, and it is always on the wallet that was locked |
| `Settling.ViewFlagsAreHistory` | internal/adapters/postgres/transactions.go:72-107 | the Reversed flag read from active_reversal holds exactly when some processed reversal resolved to that one |
| `Settling.WhatStandsInTheWay` | internal/domain/wagering/reference.go:71-150 | what the view holds against a reversal is plain history: a processed reversal of its reference of the same kind, or one nothing processed has undone |
| `Settling.FamiliesNet` | README.md:320-428 | a bet nets with its refunds and rollbacks to minus its stake or zero, a win to its amount or zero, through at most three reversing transactions |
| `Settling.LedgersHold` | internal/adapters/postgres/doors.go:113-179 | in every reachable state ledgers are chained and each balance is credits less debits |
| `Settling.EventsAreNumbered` | internal/adapters/postgres/outbox.go:103-131 | a committed movement numbers one event, and a second exactly when the ledger grew |
| `Settling.OpeningsWriteExactly` | internal/app/wallets.go:85-108 | an opening commits the wallet at version one and, with money, one processed row, one entry and two events, and nothing else |
| `Locks.LocksAreTakenInOrder` | internal/app/ports.go:121-138 | what a transaction holds is below, and what it asks for next above, its place in the lock order |
| `Locks.RowsAreNeverWaitedFor` | internal/app/wagering.go:569-586 | no transaction row is ever waited for, because whoever holds one holds its wallet |
| `Locks.NoDeadlock` | internal/app/ports.go:121-138 | in every reachable state no chain of waiting transactions closes on itself |
| `Locks.SomeoneIsUnblocked` | internal/app/ports.go:121-138 | in every reachable state with transactions in flight one of them waits for nobody |
| `Domain.WaitingEndsExactly` | internal/domain/wagering/processor.go:264-281 | an operation whose reference is absent or unsettled is rejected as REFERENCE_NOT_FOUND exactly when its attempts are spent or its deadline has come, and otherwise parked with one more attempt and its first deadline kept; nothing else parks or is rejected so |
| `Domain.AnsweredExactly` | internal/domain/wagering/processor.go:185-262 | every other operation gets exactly the answer its fields decide: the currency, then the reference's objection, then what the wallet can hold, with the code, the row and the entry written out |
| `Waiting.AttemptsAreBounded` | internal/domain/wagering/transaction.go:345-353 | in every reachable state a parked operation has at least one attempt and no more than the policy allows |
| `Waiting.TheDeadlineEndsTheWait` | internal/app/wagering.go:494-503 | no turn sampled at or past the deadline commits PENDING_REFERENCE; one that parks counts the attempt, a defect counts none, and the next try is put at the end of the attempt's wait, spread by at most a tenth, or at the deadline where that comes first |
| `Store.ChainSums` | migrations/000005_wallet_ledger_entry.up.sql:87-159 | a chained ledger sums to its last balance |
| `Store.BalanceIsTheLedger` | internal/app/wallets.go:198-278 | the stored balance is the ledger summed |
| `StaleReads.StaleReadsCannotBreakALedger` | internal/adapters/postgres/doors.go:29-179 | in every run of open, record and settle with outcomes computed from any wallet and any view, every ledger is contiguous, chained, one entry a transaction, in its currency and matched by its wallet |
| `StaleReads.StaleVersionsAreRefused` | internal/adapters/postgres/doors.go:148-174 | a movement computed from any other version of its wallet is refused |
| `StaleReads.ReconcileAnyRun` | internal/app/wallets.go:198-278 | at any point of any such run Reconcile answers consistent for every wallet there is |
| `Reversals.ReversedFlagIsHistory` | migrations/000004_wager_transaction.up.sql:369-404 | absence from active_reversal and having been reversed are one fact |
| `Reversals.HoldingMergeKeepsReversals` | migrations/000004_wager_transaction.up.sql:369-404 | the maintainer's delete and insert keep the index exactly the reversals not undone, at most one per kind, each resolved to an agreeing reference |
| `Netting.SettleKeepsNets` | migrations/000004_wager_transaction.up.sql:369-404 | every settled transaction keeps every family at its own movement, or at zero while its base is held |
| `Netting.FamilyIsSmall` | internal/domain/wagering/kind.go:84-101 | a base has at most three reversing transactions |
| `Session.Transaction.Record` | internal/adapters/postgres/transactions.go:233-252 | inserts exactly when no unique key collides, and otherwise changes nothing |
| `Session.Transaction.ReferenceFor` | internal/adapters/postgres/transactions.go:185-229 | the loop returns the row under the external id with every processed reversal resolved to it and only those, each flagged from active_reversal |
| `Session.Transaction.MakeDue` | internal/adapters/postgres/transactions.go:255-266 | exactly the waiters on that wallet and reference become due, nothing else of any row changes, and the count is theirs |
| `Session.Transaction.NextDue` | internal/adapters/postgres/transactions.go:270-284 | none exactly when nothing is due, else the least by schedule and identifier |
| `Session.Transaction.CannotCarryForward` | internal/app/wagering.go:737-769 | Fail or Reschedule in place writes exactly the row the machine defers to, and is refused exactly where the machine's step is not enabled |
| `Session.Transaction.ClaimMessage` | internal/app/wagering.go:218-242 | Find and Record in place leave the inbox the submission's commit will publish |
| `SessionRefines.ClaimMessageIsTheInboxSteps` | internal/adapters/postgres/inbox.go:31-62 | the machine's two inbox steps, uninterrupted, end where that method does |
| `SessionRefines.ConflictsAreClashes` | internal/adapters/postgres/transactions.go:33-53 | ON CONFLICT DO NOTHING does nothing exactly when the identifier is taken or the machine's insert would lose |
| `Session.Transaction.UpdateRow` | migrations/000004_wager_transaction.up.sql:369-404 | the settling update with its guards, per-kind index and maintainer gives the specified holds or the specified first refusal |
| `Session.Transaction.MoveMoney` | internal/adapters/postgres/doors.go:148-179 | the version-conditioned wallet write and the entry land together or the specified refusal is reported |
| `Session.Transaction.Settle` | internal/adapters/postgres/doors.go:113-179 | statement by statement in place it publishes exactly the specified delta, or reports exactly the specified refusal |
| `Session.Transaction.Open` | internal/adapters/postgres/doors.go:69-99 | opens exactly when identifier, player's currency and transaction are unused, writing wallet, opening and first entry |
| `Session.Transaction.CommitOutcome` | internal/app/wagering.go:487-525 | door, waiters and numbering in place leave exactly the staged delta merged |
| `Session.Manager.Run` | internal/adapters/postgres/tx.go:262-299 | no error means landed; a body's error is returned unchanged and leaves nothing; a commit's error says neither |
| `SessionRefines.CommitOutcomeIsTheStagedDelta` | internal/app/wagering.go:487-525 | run over what its own transaction sees, commitOutcome is accepted and yields the committed tables with the machine's delta published |
| `OutboxProtocol.StepKeeps` | internal/adapters/postgres/publisher.go:27-118 | every append, claim, send, late acceptance, report, mark, reschedule, release and crash keeps the outbox invariant |
| `OutboxProtocol.AggregatesArriveInOrder` | internal/workers/publisher.go:350-433 | at every point of every run an aggregate's accepted messages with repeats dropped are 1..k with no gap, and every published event is among them |
| `OutboxProtocol.OneClaimPerAggregate` | internal/adapters/postgres/publisher.go:56-70 | only the unpublished head of an aggregate is claimed, and no second event of it |
| `OutboxProtocol.ClaimsAreRespected` | internal/adapters/postgres/publisher.go:89-118 | an unexpired claim is cleared or replaced only by its holder or by publication |
| `OutboxProtocol.TheHeadBecomesClaimable` | internal/adapters/postgres/publisher.go:56-70 | an aggregate with anything unpublished has a head claimable exactly from the later of its schedule and its claim's expiry |
| `OutboxProtocol.PutOffIsNotClaimable` | internal/adapters/postgres/publisher.go:110-113 | over any run an event rescheduled to an instant is claimable by nobody before it until it is rescheduled again |
| `Outbox.Table.Claim` | internal/adapters/postgres/publisher.go:202-242 | takes distinct claimable unlocked rows, the soonest first, all of them short of the limit, and writes only their claims and attempts |
| `Outbox.Table.MarkPublished` | internal/adapters/postgres/publisher.go:283-293 | publishes once and clears the claim, reporting whether it was this call |
| `Outbox.Table.Reschedule` | internal/adapters/postgres/publisher.go:305-321 | an unpublished event its holder or nobody holds is put back for the given instant with no claim and nothing else changed; any other is left alone |
| `Outbox.Table.ReleaseClaims` | internal/adapters/postgres/publisher.go:327-336 | clears exactly this publisher's claims on unpublished events and counts them |
| `Send.Chunk` | internal/adapters/sqs/send.go:210-234 | every message once and in order, no empty call, both bounds whenever each message fits, and no call that could have taken the next message |
| `Send.FewestCalls` | internal/adapters/sqs/send.go:203-209 | no contiguous order-preserving split within the bounds uses fewer calls |
| `Send.Record` | internal/adapters/sqs/send.go:251-287 | only this call's positions are written; sent exactly when reported successful and not failed |
| `Send.SendBatch` | internal/adapters/sqs/send.go:115-153 | result i says sent exactly when message i passed validation, field by field, its call and all before it returned, and it was reported successful and not failed; every call is within ten messages and 256 KiB of bodies and attributes |
| `Publisher.Conclude` | internal/workers/publisher.go:382-432 | each claimed event gets one mark, or one reschedule to the end of its own wait, written out field by field; only accepted ones are marked; a statement without effect leaves its event as it was; a failed or misaligned answer marks nothing |
| `Publisher.Turn` | internal/workers/publisher.go:350-433 | what a turn publishes is exactly what it claimed, the queue accepted and the mark reached; an event not sent is next due its wait after the turn; a claim is given up if its statement took effect and otherwise stands until its hold runs out |
| `Publisher.Run` | internal/workers/publisher.go:298-319 | no wait exactly after a full fruitful turn; the backoff of the current streak after a fruitless one; the interval otherwise |
| `Publisher.TheLoopCannotSpin` | internal/workers/publisher.go:272-297 | turns not followed by a wait number at most the events accepted |
| `Publisher.FruitlessWaitsNeverShorten` | internal/workers/publisher.go:298-308 | over consecutive fruitless turns waits never decrease and stay within the policy |
| `Consumer.HandleBatch` | internal/workers/consumer.go:442-478 | the handled messages are a prefix, all but the last settled; each message meets one fate; exactly the kept ones stay held |
| `Consumer.FatesExactly` | internal/workers/consumer.go:442-571 | from the attempts alone: deleted before the first that did not succeed; it and the rest hidden for its whole-second wait exactly when Submit failed Retryable or NotFound uncancelled, left exactly when it can never succeed, kept exactly when it failed cancelled |
| `Consumer.DeletedWasCommitted` | internal/workers/consumer.go:511-571 | a message is deleted only after Submit answered without error, and so was every one before it |
| `Consumer.HeldMessages.Take` | internal/workers/consumer.go:854-860 | every message of the batch is held |
| `Consumer.HeldMessages.Drain` | internal/workers/consumer.go:870-879 | empties the set and names each handle once |
| `ConsumerRuns.StepKeeps` | internal/workers/consumer.go:365-478 | until the sweep, every delivery taken by any receiver is held or decided, never both |
| `ConsumerRuns.StopGivesBackExactlyWhatIsHeld` | internal/workers/consumer.go:821-841 | once all receivers have returned, each delivery has one fate or is held, and the sweep releases exactly the held ones, each once |
| `Cursor.Base64RoundTrips` | internal/app/cursor.go:27-30 | unpadded base64url decodes to what was encoded |
| `Cursor.Base64Accepts` | internal/app/cursor.go:38-41 | text is accepted exactly when its bytes are of the alphabet or line breaks and its last group is not a single symbol |
| `Cursor.DecimalSpells` | internal/app/cursor.go:27-30 | a printed version is digits that spell it |
| `Cursor.CursorRoundTrips` | internal/app/cursor.go:27-55 | a cursor reads back as its version on its wallet and is refused on any other |
| `Cursor.CursorAccepts` | internal/app/cursor.go:34-55 | a cursor is accepted exactly when it decodes to this wallet, a colon and a run of digits whose number fits 64 bits, and means that number |
| `Ledger.LimitOf` | internal/app/wallets.go:160-166 | the limit asked for when it is between 1 and 200, 50 when it is not positive, 200 above that |
| `Ledger.Page` | internal/adapters/postgres/ledger.go:38-50 | the row loop returns the first entries beyond the clamped version |
| `Ledger.PageContinues` | internal/app/wallets.go:152-189 | a page is the entries right after its cursor, with a next cursor exactly when it is full |
| `Ledger.ReadsAPrefix` | internal/app/wallets.go:152-189 | following cursors while the ledger grows reads a gapless, repeat-free prefix, ending after n/limit + 1 pages with the whole of it |
| `Ledger.Reconcile` | internal/domain/wagering/reconcile.go:113-184 | reports another wallet's entry or a repeated transaction, then a wrong currency or an overflow, then the difference, each exactly when there is one |
| `Ledger.ReconcileWallet` | internal/app/wallets.go:198-278 | every wallet the doors wrote reconciles |
| `KeyCache.KeySet.StartRefresh` | internal/adapters/oidc/keys.go:172-197 | joins, declines or begins as specified, correcting a stamp in the future |
| `KeyCache.KeySet.Lookup` | internal/adapters/oidc/keys.go:136-156 | a key in hand asks for nothing; otherwise the caller gets what the one refresh brought, is turned away, or gives up and leaves it running |
| `KeyCache.KeySet.FinishRefresh` | internal/adapters/oidc/keys.go:209-223 | stamps always, replaces keys on success only |
| `KeyCache.KeySet.Prime` | internal/adapters/oidc/keys.go:115-128 | ignores the limit, and a failure leaves everything alone |
| `KeyCache.OneRefreshAtATime` | internal/adapters/oidc/keys.go:172-223 | in every interleaving at most one refresh runs |
| `KeyCache.RefreshesAreSpaced` | internal/adapters/oidc/keys.go:185-196 | on a clock that does not step back a refresh begins at least the interval after every fetch that finished before it |
| `KeyCache.OnlySuccessReplacesKeys` | internal/adapters/oidc/keys.go:209-223 | a failed refresh changes no key |
| `KeyCache.NeverEmptiedAgain` | internal/adapters/oidc/keys.go:381-416 | a cache that holds a key never becomes empty |
| `KeyCache.RefreshingResumes` | internal/adapters/oidc/keys.go:179-196 | after any backward step, a caller asking an interval after one was turned away begins a refresh |
| `Backoff.AfterIsBoundedAndMonotone` | internal/workers/backoff.go:75-84 | every wait lies between initial and maximum and never shortens with the attempt |
| `Backoff.WaitsGrowByTheFactor` | internal/workers/backoff.go:75-84 | the first wait is the initial one, each next is the factor times the one before, cut at the maximum, and an infinite factor goes there at once |
| `Backoff.WholeFactorsAreExact` | internal/workers/backoff.go:75-84 | for a whole factor k the next wait is exactly k times this one, cut at the maximum |
| `Backoff.WholeSeconds` | internal/workers/backoff.go:94-99 | the next whole number of seconds, at least one |
| `Backoff.NextIsClamped` | internal/app/backoff.go:84-94 | a schedule never passes the deadline, is at least the initial delay away unless clamped, and exceeds the maximum by at most a tenth |
| `Backoff.NextWaitsItsTurn` | internal/app/backoff.go:84-94 | a schedule is the attempt's wait away, spread by no more than a tenth, or the deadline where that comes first |
| `Backoff.TheSpreadIsTheIdentifiers` | internal/app/backoff.go:84-101 | the spread is the identifier's fraction of a tenth of the wait, to the nanosecond |
| `Backoff.JitterTellsIdentifiersApart` | internal/app/backoff.go:97-101 | two operations are spread alike exactly when their identifiers agree in what is read |
| `Backoff.JitterOf` | internal/app/backoff.go:97-101 | a fraction in [0, 1) |

## Left out

- HTTP handlers, rendering, authentication, token checks, configuration, wiring, telemetry and logging: they decide nothing the protocols above depend on.
- Hash collisions: the payload hash and the body hash are the values themselves, and identifiers are opaque values with equality.
- Rounding of floating-point factors, and overflow of 64-bit durations: delays are exact reals truncated to nanoseconds.
- Separate host clocks: the write path and the outbox read one clock; its samples may be stale but the clock does not step back. The key cache's clock may.
- Lock modes: FOR NO KEY UPDATE is an exclusive lock and FOR KEY SHARE is not represented; an insert meets its two provider keys one after the other, in the order their indexes were made, and its primary key is an identifier nobody else minted.
- Statement and lock timeouts appear only as the fault that any step may meet.
- Carry-forward defects: any resumed operation may take that path, since rebuilding and continuing it never fail in the model.
- Event and ledger-entry identifiers, event payloads and trace members: the outbox is represented by its numbering in the write path and by its rows in the publishing protocol.
- Publisher.Conclude: issues its statements with no other publisher between them; OutboxProtocol interleaves the same statements with any number of publishers.
- Entries that were never constructed: a ledger entry is always a value, so that finding of Reconcile has no counterpart.
- SQL CHECK constraints that follow from the shape of an outcome, such as a result balance exactly on PROCESSED rows.
- The order of reversals inside a view, which no rule reads.
- The queue's deduplication window: repeats stay on the wire and are dropped by first occurrence.
- Stop's timeouts: the sweep is one drain and its releases, and the claims about it are for receivers that have all returned.
- Unused parts of the domain: canonical payload, failure texts, read-only queries.
