# The wallet service: money movement, outbox and balance cache

A Dafny model of the money-movement engine of the wallet service, of the outbox worker that carries
its events to a stream, and of the balance cache beside it, with proofs of what they promise.
`dafny verify dfyconfig.toml` checks everything.

The database is a value, `Model.Db`: wallets by id, transactions, ledger, idempotency records by
(key, endpoint), and the outbox in order of creation. Four layers work on it.

1. **The engine** (`Engine`, `Books`, `Guarantees`, `Decisions`, `Status`, `Bounds`). `Decide` takes the decision of one call
   with the checks in the order of the code, and `Post` makes all its writes in one piece.
   `Script` lists the same writes statement by statement. Runs start from the seeded system wallet at
   zero and mix calls with opened wallets, status updates and outbox deliveries. `Books.Sound` is the
   invariant of the tables; `Guarantees` draws from it what a caller may rely on, for every database
   that any run can reach, and `Decisions` says of the request and the tables alone how each call is
   answered and what it stores.
2. **The code as it is written** (`Repository`, `Service`, `Publisher`). The repositories, both
   services and the worker are classes whose methods go statement by statement, with the loops of the
   source and a possible failure at every database, cache or stream call. Each is proved against the
   functions of the first layer.
3. **Many calls at once** (`Interleaving`). Every call is a process: unlocked replay look-up, insertion
   of the key, which waits for an uncommitted insertion of the same key, lock of the original row,
   locks of the wallets one by one, reads, writes one by one, commit or rollback, cache writes. Other
   writers, failures, balance reads and cache expiry come in between at any point. `Locking`,
   `Isolation` and `Serial` prove that this refines the first layer in commit order, `Replies` that the
   answers are linearisable, `Outcomes` what follows for rivals, `Staleness` and `Coherence` what the
   cache can hold and when it is right, and `Progress` that nothing sticks and nothing runs for ever.
4. **Delivery** (`Outbox`, `Solo`, `Batches`, `Stream`, `Composition`). Any number of workers publish, mark and record
   failures, with faults at every call; then one worker, whole calls of it, and a consumer of the
   stream. `Composition` puts workers and interleaved calls on one database.

`Server` and `Retries` put the cache and the replies beside the serial engine. `Uuid` holds ids, their
bytes and their text; `Events` the payloads; `Runs` what it means that events lead a state machine from
one state to another, which every statement about reachable states is made of.

Every call carries the two ids it will draw (its transaction's and its event's) as inputs; what random
ids promise is stated as the precondition `Engine.Fresh`. The engine takes an `Arith`: `Int64` wraps as
the column type does and is what the classes use; `Unbounded` is what the books are proved on.
`Bounds.RunAgrees` shows when the two coincide.

Where documentation and code disagree the model follows the code. `internal/model/wallet.go:16-17` says
that a closed wallet blocks money movement permanently; but `Reverse` looks at no wallet status
(`Guarantees.ReverseIgnoresStatus`) and `UpdateStatus` sets any status over any other. `Status.ClosedWalletMoves`
is an instance, and `Status.InactiveMovesIff` says exactly when a wallet that is not active moves.

## Model

| member | source | states |
|---|---|---|
| Uuid.HexKeepsOrder | internal/repository/wallet_repository.go:60-62 | lower-case hex text of byte sequences of any one length compares as the bytes do, and is equal only for equal bytes |
| Uuid.DashedKeepsOrder | internal/repository/wallet_repository.go:60-62 | dashes at any fixed places keep that order |
| Uuid.LockOrdersAgree | internal/repository/wallet_repository.go:60-68 | canonical text, bytes and number give one order of ids, so the sort in Go and the order of the row locks coincide |
| Uuid.ParseText | internal/event/payload.go:60-64 | reading back the canonical text of an id gives that id |
| Uuid.TextShape | internal/repository/wallet_repository.go:60-62 | the text of an id has 36 characters, dashes after the first 8, 12, 16 and 20 digits, and lower-case hex digits elsewhere |
| Uuid.SystemIds | internal/model/common.go:17-18 | the texts of the system user and its wallet are all zeros but for a last digit of 1 and 2 |
| Events.ParseFields | internal/event/payload.go:31-64 | storing a payload and parsing it back loses nothing, for every amount of 64 bits and every combination of absent ids |
| Events.ToStreamValues | internal/event/payload.go:67-89 | the values built field by field are exactly the fields that the stored payload has; absent ids are left out |
| Events.ParsesIff | internal/event/payload.go:59-64 | a payload fails to parse exactly when it is no object, or a field that is there has the wrong type, is no id or is no int64; a missing field is no failure |
| Engine.ScriptPosts | internal/service/transaction_service.go:91-170 | the statements of a call one after another, from the rows it read, leave exactly the database of the posting in one piece, for all three kinds of call |
| Books.StepKeepsSound | internal/service/transaction_service.go:68-440 | every writer of the database keeps all the invariants of the tables |
| Books.RunIsSound | internal/repository/db.go:61-69 | the database that any run from the seeded one leads to has them all |
| Books.ReachableByRun | internal/service/transaction_service.go:68-440 | a database at the end of a history is where some run from the seeded database leads |
| Books.RunIsReachable | internal/service/transaction_service.go:68-440 | every run from a reachable database leads to a reachable one |
| Guarantees.BalanceExplained | internal/service/transaction_service.go:381-412 | a balance is credits minus debits of its ledger rows, and is also what the unreversed top-ups and transfers alone would make it |
| Guarantees.MoneyConserved | internal/service/transaction_service.go:124-125 | balances sum to zero; only the system wallet is ever negative and it is never positive; no wallet holds more than the system wallet owes |
| Guarantees.NoTransferFromSystem | internal/service/transaction_service.go:225-227 | a transfer out of the system wallet never goes through |
| Guarantees.NoReversalIntoSystem | internal/service/transaction_service.go:361-363 | a reversal of a transfer into the system wallet is always refused for lack of funds: what arrived there stays |
| Guarantees.OneTransactionPerKey | internal/model/idempotency.go:14-15 | at most one transaction carries a given key at a given endpoint |
| Guarantees.RecordsAnswer | internal/service/helpers.go:56-58 | a stored record always answers, so a serial call never falls through to a duplicate insertion |
| Guarantees.RecordsKeepTheirTransaction | internal/service/transaction_service.go:425-429 | a record holds the id of a stored transaction and that transaction as it was first sent, whatever happened to it since |
| Guarantees.ReversedOnce | internal/service/transaction_service.go:335-376 | a transaction is reversed exactly when one and only one reversal points to it; that one swaps its wallets and has its amount; reversals are never reversed |
| Guarantees.ReverseDecided | internal/service/transaction_service.go:335-363 | the exact condition for each answer of a first reversal; the branches for a missing wallet id and a missing wallet row are never taken |
| Decisions.TopUpDecided | internal/service/transaction_service.go:96-107 | every answer to a top-up under an unused key, each if and only if: posted for an active wallet that is not the system wallet, not active, not found |
| Decisions.TransferDecided | internal/service/transaction_service.go:213-227 | every answer to a transfer under an unused key, each if and only if: posted when both wallets are active and the source holds at least the amount, insufficient funds when it holds less, not active, not found |
| Decisions.SelfTransferRefused | internal/service/transaction_service.go:182-184 | a transfer from a wallet to itself is a validation error whatever its key and the tables |
| Decisions.ReversalDecided | internal/service/transaction_service.go:335-363 | every answer to a reversal under an unused key, each if and only if: not found, already reversed, a validation error for a reversal, insufficient funds, or posted when the destination holds at least the amount |
| Decisions.TopUpStores | internal/service/transaction_service.go:109-119 | the row a top-up stores and answers with 201, field by field from the request |
| Decisions.TransferStores | internal/service/transaction_service.go:229-239 | the row a transfer stores and answers with 201, field by field from the request |
| Decisions.ReversalStores | internal/service/transaction_service.go:365-376 | the row a reversal stores and answers with 201: the original's wallets swapped, its amount and metadata, and a pointer to it |
| Decisions.PostingMoves | internal/service/transaction_service.go:244-245 | after a posting the amount of its row has left one wallet and reached the other, exactly or modulo 2^64, statuses stay, and every other wallet is as it was |
| Decisions.SameSlotIff | internal/service/transaction_service.go:19-23 | two calls share an idempotency record if and only if they have one key and are both top-ups, both transfers or both reversals |
| Decisions.LookupFindsIff | internal/service/helpers.go:92-105 | in every reachable database the look-up finds a record exactly when a stored transaction of the same kind carries the key |
| Decisions.ReplayDecided | internal/service/helpers.go:80-110 | a key that a stored transaction took answers the request that transaction was made for with the row as first stored, refuses every other request of the kind as an idempotency conflict, and changes nothing |
| Decisions.StatusIsSet | internal/service/wallet_service.go:139-142 | a status update sets the status asked for over any other, closed included, and leaves the balance and every other row and table alone |
| Guarantees.StaleStatusSave | internal/service/wallet_service.go:131-140 | saving a wallet row read earlier keeps the books sound if and only if the balance read is still the balance |
| Status.InactiveMovesIff | internal/service/transaction_service.go:352-363 | in every reachable database, exactly when a valid call changes the balance of a suspended or closed wallet: under an unused key, a top-up that draws on the system wallet for another active wallet, or a reversal of an unreversed top-up or transfer from or to the wallet whose money is still there; never a transfer |
| Status.ClosedWalletMoves | internal/model/wallet.go:16-17 | a reachable database with a closed wallet whose balance a legal call then changes |
| Status.LateSaveHappens | internal/service/wallet_service.go:131-140 | a wallet row read at one reachable database and saved at a later one, by which the books break |
| Guarantees.EventsTell | internal/event/payload.go:31-64 | outbox rows and transactions are one to one; each row has the right event type and its payload parses back to its transaction's id, wallets, amount and related id |
| Guarantees.AnnouncementParses | internal/event/payload.go:59-64 | the payload of an event parses to the fields of its transaction, and holds those fields and nothing else |
| Bounds.BalancesBounded | internal/model/wallet.go:26 | every balance lies within the sum of the unreversed top-ups, on both sides of zero |
| Bounds.StepAgrees | internal/service/transaction_service.go:124-125 | while that sum with a new top-up fits 64 bits, one step on int64 is the step on unbounded integers |
| Bounds.RunAgrees | internal/service/transaction_service.go:124-125 | so are whole runs: no update wraps, and every balance stays within the sum |
| Bounds.LegalEitherWay | internal/service/transaction_service.go:124-125 | within that limit a run is legal on int64 if and only if it is legal on unbounded integers |
| Repository.TextOrderIsLockOrder | internal/repository/wallet_repository.go:60-68 | a sequence of ids is sorted by text if and only if it is ascending |
| Repository.SortByText | internal/repository/wallet_repository.go:60-62 | the ids are permuted in place into the order of their text, which is the order of the locks |
| Repository.Database.constructor | internal/repository/db.go:46-74 | the tables start empty but for the system user and its wallet at zero |
| Repository.Database.GetByIDsForUpdate | internal/repository/wallet_repository.go:55-74 | each wallet that exists among the ids comes back once, in ascending order of id, and nothing else does; the ids are sorted in place |
| Repository.Database.Read | internal/repository/wallet_repository.go:64-71 | the rows for ascending ids, each id once, a missing wallet giving no row |
| Repository.Database.InsertWallet | internal/repository/wallet_repository.go:30-32 | a wallet is added unless its user has one, which is reported as a duplicate |
| Repository.Database.SaveWallet | internal/repository/wallet_repository.go:77-79 | one row is replaced and every other table and row is as before; on failure nothing changes |
| Repository.Database.GetByIDForUpdate | internal/repository/transaction_repository.go:60-69 | the row with this id, or none |
| Repository.Database.InsertTransaction | internal/repository/transaction_repository.go:36-38 | one transaction row is added, or nothing changes |
| Repository.Database.InsertLedger | internal/repository/transaction_repository.go:41-47 | the ledger grows by these rows, or nothing changes |
| Repository.Database.SaveTransaction | internal/repository/transaction_repository.go:72-74 | the row with this primary key is replaced, or nothing changes |
| Repository.Database.GetRecord | internal/repository/idempotency_repository.go:30-37 | the record under this key and endpoint, or none |
| Repository.Database.InsertKey | internal/repository/idempotency_repository.go:40-42 | a record without a response is added unless the key and endpoint are taken, which is reported as a duplicate |
| Repository.Database.SaveResponse | internal/repository/idempotency_repository.go:45-60 | the record gets its response and resource, and nothing else changes |
| Repository.Database.InsertOutbox | internal/repository/outbox_repository.go:29-31 | one row is added at the end of the outbox, or nothing changes |
| Repository.Database.FetchPending | internal/repository/outbox_repository.go:34-45 | the places of pending rows in order of creation, at most the limit; a pending row is left out only when the batch is full and all in it are older |
| Repository.Database.MarkPublished | internal/repository/outbox_repository.go:48-57 | one row becomes published with no last error; its other fields and all other rows are as they were |
| Repository.Database.RecordFailure | internal/repository/outbox_repository.go:60-69 | one row becomes pending, whatever it was, with one retry more and the message; its other fields and all other rows are as they were |
| Repository.BalanceCache.Get | internal/cache/balance_cache.go:50-65 | the cached balance, nothing, or a failure |
| Repository.BalanceCache.Set | internal/cache/balance_cache.go:68-70 | one entry is set, or on failure nothing |
| Service.TransactionService.GetIdempotencyReplay | internal/service/helpers.go:80-110 | answers exactly when the look-up does: nothing without a key or record, a conflict for another request, the stored response otherwise |
| Service.TransactionService.CreateIdempotencyRecord | internal/service/helpers.go:112-139 | inserts the record, or says conflict exactly when the key is taken; does nothing without a key |
| Service.TransactionService.TouchedWallets | internal/service/helpers.go:68-78 | every touched wallet whose cache write does not fail has its new balance in the cache, and no other entry changes |
| Service.TransactionService.ResolveTopUpWallets | internal/service/transaction_service.go:485-504 | the loop finds the system wallet and the destination among the rows, and never the same wallet as both |
| Service.TransactionService.ResolveTransferWallets | internal/service/transaction_service.go:506-525 | the loop finds source and destination among the rows, and never the same wallet as both |
| Service.TransactionService.BookTopUp | internal/service/transaction_service.go:85-173 | the body of the database transaction of a top-up: the decision and the posting of the engine, or an internal error if one of the calls it makes fails |
| Service.TransactionService.BookTransfer | internal/service/transaction_service.go:202-293 | the same for a transfer |
| Service.TransactionService.BookReversal | internal/service/transaction_service.go:324-435 | the same for a reversal |
| Service.TransactionService.Finish | internal/service/helpers.go:141-143 | commits and tells the cache, or takes everything back |
| Service.TransactionService.TopUp | internal/service/transaction_service.go:68-178 | with a failure at any set of its database calls: either the whole outcome of the engine in all tables, reply and cache, or an internal error and nothing changed; the calls that matter are exactly those it makes |
| Service.TransactionService.Transfer | internal/service/transaction_service.go:181-298 | the same for a transfer |
| Service.TransactionService.Reverse | internal/service/transaction_service.go:301-440 | the same for a reversal, including the mark on the original |
| Service.PostedCalls | internal/service/transaction_service.go:324-431 | the database calls whose failure undoes a posting, named one by one |
| Service.FailedCallCanBeRetried | internal/service/transaction_service.go:85-173 | after an internal error the same request with the same key is served as if the first had never been made |
| Service.WalletService.Create | internal/service/wallet_service.go:40-72 | not found without the user, refused for an inactive one, a conflict when the user has a wallet; else a wallet is opened active and at zero |
| Service.WalletService.GetBalance | internal/service/wallet_service.go:87-127 | not found before the cache is asked; else the cached balance, else the stored one, which the cache then holds unless the write fails; failures of the cache change only that |
| Service.WalletService.UpdateStatus | internal/service/wallet_service.go:130-145 | the wallet has exactly the status asked for, whatever it was, and its old balance, and is answered so; every other row and table is as it was; not found and failures change nothing |
| Server.RefreshAgrees | internal/service/helpers.go:73-77 | after a posting the cache agrees with the database if and only if no wallet of it whose cache write failed was cached |
| Server.CacheStaysTrue | internal/service/wallet_service.go:96-118 | in every serial run without failed cache writes after postings, with any evictions and failed primes, every cached value is the stored balance |
| Server.BalanceReadsAreTrue | internal/service/wallet_service.go:87-127 | in such runs every balance read answers the stored balance |
| Server.ReadPrimes | internal/service/wallet_service.go:114-118 | after a read that missed the cache the entry holds the answered balance, unless the write failed; a hit and a missing wallet leave the cache alone |
| Retries.RepeatAnswersFirst | internal/service/helpers.go:80-110 | a repeat of a keyed request that succeeded changes nothing and is answered as the first was, even after its transaction was reversed |
| Retries.RepeatsErase | internal/service/helpers.go:54-66 | leaving out all such repeats changes neither the final database and cache nor any other reply |
| Interleaving.LockIds | internal/repository/wallet_repository.go:60-69 | a call locks its one or two wallets in strictly ascending order of id |
| Locking.NextLocks | internal/repository/transaction_repository.go:60-69 | at every step of every interleaving the lock table says exactly what the processes hold |
| Locking.Exclusive | internal/repository/wallet_repository.go:64-69 | no two processes hold the same key, transaction row or wallet row |
| Isolation.CommitIsStep | internal/service/transaction_service.go:324-435 | at its commit a call is decided as when it took its locks, and its buffered statements make exactly the serial step |
| Serial.Serialisable | internal/service/transaction_service.go:85-170 | for every interleaving of calls, failures, balance reads, other writers and expiry, the database is what the commit log gives when run serially; the log is a legal run, and every call in it is a committed process |
| Replies.Linearisable | internal/service/transaction_service.go:68-178 | in every interleaving a posted call is told what the serial engine answers at its own place in the log, and any other call what the serial engine answers at some place; either lies between the call's first statement and its answer; beside these there are only internal errors, and conflicts over a key taken between the two |
| Replies.InternalMeansFault | internal/service/transaction_service.go:97-99 | a process none of whose database calls fails never answers an internal error |
| Replies.CacheFailureHidden | internal/service/wallet_service.go:96-118 | a balance read that has its row never fails for a failure of the cache |
| Replies.ConflictMeansRival | internal/service/helpers.go:130-134 | a call told of a conflict lost its key to another call, which committed under it after this one's look-up and before its answer |
| Outcomes.ConcurrentIsReachable | internal/service/transaction_service.go:202-290 | concurrent calls lead only to databases that serial calls reach, so every lemma of Guarantees holds under any interleaving |
| Outcomes.ConcurrentInt64IsReachable | internal/model/wallet.go:26 | the same on int64 balances from the seeded database, while the top-ups that committed fit 64 bits: no update wraps under any interleaving |
| Outcomes.ReachableAnswers | internal/service/transaction_service.go:163-167 | every reachable database has a response for each of its keys, which is what Replies.ConflictMeansRival asks of the start |
| Outcomes.RivalsCommitOnce | internal/service/transaction_service.go:317-350 | of any number of concurrent calls with one key and endpoint, or reversals of one transaction, at most one ever commits, even when all pass the unlocked look-up |
| Staleness.NoInventedBalance | internal/service/wallet_service.go:96-126 | with failed cache writes and any interleaving, every cached and every answered balance was the wallet's balance after some number of commits |
| Coherence.CacheWriteAgrees | internal/service/helpers.go:73-77 | a cache write of a refresh or a prime leaves the entry in agreement if and only if the balance it carries is still the stored one, and touches no other entry |
| Coherence.CoherentIffCalm | internal/service/helpers.go:68-78 | an event keeps every carried balance current and every wrong entry due for a refresh if and only if it is calm: a posting commits while no other process carries a balance of its wallets, and a refresh fails only for an entry that is absent, right, or due from another call |
| Coherence.PostingChanges | internal/service/transaction_service.go:124-125 | on sound books every posting changes both its balances, so the condition is exact for every commit |
| Coherence.CalmRunsAgree | internal/service/wallet_service.go:96-118 | in calm interleavings every entry is the stored balance unless its refresh is due, and the whole cache agrees whenever no call is refreshing |
| Coherence.CalmReadsAreTrue | internal/service/wallet_service.go:87-127 | in such runs a read answers the stored balance, unless a refresh of that wallet is due |
| Coherence.CommitsAlone | internal/service/transaction_service.go:202-290 | whatever the serial engine would post, some interleaving posts: a call that holds up nobody gets to that commit by its own statements |
| Coherence.StaleRead | internal/service/wallet_service.go:114-118 | from any database and for any posting that changes a wallet's balance, a run without failure or expiry after which a read that begins last is told the old balance and the cache stays wrong |
| Coherence.StaleReadHappens | internal/service/wallet_service.go:114-118 | one such run from a reachable database: zero is answered while ten is stored |
| Progress.SomeoneCanMove | internal/repository/wallet_repository.go:60-69 | following who waits for whom ends at a process that can move |
| Progress.NoDeadlock | internal/service/transaction_service.go:91-96 | in every run, no process can move if and only if all have answered |
| Progress.RunsAreBounded | internal/service/transaction_service.go:85-175 | n calls make at most 18 n statements in any run, failed ones included |
| Progress.EveryRunCanFinish | internal/service/transaction_service.go:202-213 | from wherever a run stands its calls alone can go on until all have answered, within that bound |
| Outbox.FetchPending | internal/repository/outbox_repository.go:34-45 | at most the limit of pending rows, in order of creation; a pending row is left out only when the batch is full and all in it are older |
| Outbox.NoRowIsLost | internal/event/worker.go:61-91 | in every run of any number of workers, every row stays with what it said |
| Outbox.AtLeastOnce | internal/event/worker.go:61-91 | in every run of any number of workers with any faults: a row marked published is in the stream, and the stream holds nothing but events of rows |
| Outbox.RetriesCounted | internal/repository/outbox_repository.go:60-69 | in every run of any number of workers the retry count of a row is the number of failures recorded at it |
| Solo.PublishedStays | internal/event/worker.go:43-58 | with one worker a published row is published for ever |
| Solo.CopiesBounded | internal/event/worker.go:77-87 | with one worker an event is in the stream exactly once for its mark, done or due, and once more for each failed mark and each lost reply of the stream |
| Solo.RelapseIff | internal/repository/outbox_repository.go:60-69 | some run has an event published and later pending again if and only if there are at least two workers |
| Batches.CallIsRun | internal/event/worker.go:61-91 | a call of the worker is a run of the machine, so all that is proved of runs holds of overlapping and repeated calls |
| Batches.StopsAtFailure | internal/event/worker.go:67-91 | a batch is settled row by row up to the first failed database call: rows before it are published, or pending with one retry more and the message; it, the rows after it and all rows outside the batch are as they were; the call reports a failure exactly then |
| Batches.Fetched | internal/repository/outbox_repository.go:34-45 | a pending row is fetched if and only if fewer than a batch are pending before it |
| Batches.AllGetThrough | internal/event/worker.go:61-91 | with k rows that always fail and k below the batch size, the g others are all published after any n calls with n times (batch size - k) at least g |
| Batches.GetsThrough | internal/event/worker.go:61-91 | by which call a given row is published, from the rows before it alone |
| Batches.StuckBehind | internal/event/worker.go:61-91 | a row behind a full batch of rows that always fail stays pending for ever |
| Batches.GetsThroughIff | internal/event/worker.go:61-91 | a publishable row is ever published if and only if fewer than a batch of failing rows are pending before it |
| Publisher.StreamPublisher.Publish | internal/event/publisher.go:27-36 | an entry is appended, or rejected, or appended with the reply lost |
| Publisher.Worker.Process | internal/event/worker.go:67-88 | one event: parse, publish, mark; a failure to parse or publish is recorded; a failed database call stops the batch |
| Publisher.Worker.PublishPending | internal/event/worker.go:61-91 | the loop over the batch does to outbox and stream exactly what Batches says, for every combination of faults |
| Stream.AnyOrderRebuilds | internal/event/payload.go:67-89 | a consumer that skips repeated event ids gets every stored balance from any stream holding every event, in any order, with any repetitions |
| Stream.StreamRebuildsBalances | internal/event/worker.go:67-88 | in every run of serial calls and any number of workers, once no row is unpublished, that consumer holds every stored balance |
| Composition.RunOfCalls | internal/event/worker.go:61-91 | a run of interleaved calls and workers on one database is, to the calls, a run of the interleaved machine |
| Composition.RunOfWorkers | internal/event/worker.go:61-91 | and to the workers a run of the delivery machine, with commits as the turns of other writers |
| Composition.AtLeastOnceConcurrently | internal/event/worker.go:61-91 | with interleaved calls and any number of workers: a row marked published is in the stream, the stream holds nothing but events of rows, and the books are sound |
| Composition.StreamRebuildsConcurrently | internal/event/worker.go:67-88 | with interleaved calls and any number of workers, once no row is unpublished the consumer holds every stored balance |

## Left out

- HTTP routing, request binding, logging, configuration, start-up and the pages of `Get` and `List`; of the binding only "the amount is positive" is kept.
- Users beyond their status and their one wallet.
- Reference codes, currencies, timestamps, deletion marks and `occurred_at`; `ExpiresAt` is stored by the source and read nowhere.
- The inside of GORM, PostgreSQL, Redis, JSON and SHA-256: a commit is atomic, row locks are held to the commit and a wait for one ends in a fresh read, (key, endpoint) is unique and an insertion waits for an uncommitted one, encoding and decoding JSON round-trips, and comparing hashes is comparing requests.
- A commit that succeeds while its reply is lost; a failed commit is a rollback.
- The ticker that calls the worker: calls come at any time instead, any number of them, overlapping or not.
- Row locks in the classes of Repository and Service, which serve one call at a time; locks and waiting are in Interleaving.
- The cache's time to live: entries may vanish at any moment instead.
- Equal creation times in the outbox: a row's place is its creation order and its key.
- The text of error messages: a recorded failure carries one of two fixed messages.
- Uuid.ParseId: reads canonical text only, where the source's parser also takes other notations; nothing in the service writes those.
- Engine.Fresh: random ids are inputs of the calls and assumed not to repeat.
- Interleaving.Enabled: a status update inside the interleaved machine is one step and happens only while its wallet is not locked; Guarantees.StaleStatusSave gives the exact condition under which the unlocked read and late save of the source do no harm.
- Replies.Linearisable: two kinds of reply have no serial counterpart, an internal error after a failure and a conflict over a key taken in between; both leave nothing behind, and Replies.InternalMeansFault and Replies.ConflictMeansRival say what each implies.
- Server.BalanceReadsAreTrue: serial runs only; with interleaving a read may be told an old balance for good, as Coherence.StaleRead shows. Coherence.CoherentIffCalm gives the exact condition for each event, Coherence.CalmRunsAgree the runs that meet it, and Staleness.NoInventedBalance what holds in all.
- Events.ParseFields: reference code, currency and time of a payload are not modelled; they pass through untouched and nothing is decided by them.
- Events.ToStreamValues: the same three values are left out here.
- Composition.Reaches: on unbounded balances, which are the int64 ones within the limit of Bounds.
