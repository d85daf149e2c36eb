# Verified model of the double-entry ledger

A Dafny model of a ledger service: transfers, direct deposits, two-phase deposits through a payment
provider, and currency exchanges over one append-only table of ledger entries, with balance
snapshots, a balance cache and idempotency keys. `dafny verify dfyconfig.toml` checks everything.

An amount is counted in units of 0.0001, the precision of the amount column. Stored amounts are
integers; amounts in requests are reals, because a request may carry more digits than are stored.
How the database rounds when it stores an amount is a parameter (`Chart.store`): any monotone, odd
rounding that leaves four-decimal amounts alone.

## Layout

| Files | What they are about |
|---|---|
| `Decimals`, `Ledger`, `Sums`, `Plans`, `Books`, `Conservation` | The ledger as a value: the committed tables, each service call as a function on them, balances as plain sums. `BookOk` is what every operation keeps, `Extends` what no operation undoes. |
| `Snapshots`, `ServiceState`, `Locks`, `Services`, `Sessions` | The services as a class that updates its tables, caches and queues step by step. Every method is proved against the ledger's function for it, so the snapshot arithmetic and the cache refine the plain sums. |
| `Writers`, `WritersSafety`, `WritersResults`, `Serializability`, `WritersConservation`, `KeyRace`, `Progress` | Any number of transfers, deposits, exchanges and initiated deposits interleaved step by step, with balance reads and snapshot jobs among them. |
| `Deposits`, `DepositOutcomes`, `MockProvider` | The deposit protocol between the API, the job queue, the worker, the provider and the webhook, and the provider as a class. |
| `Answers` | What each operation answers and records, spelled out case by case without the functions that the operations are made of. |
| `Idempotency` | The replay of responses under an idempotency key, for any handler. |
| `Atomicity`, `Example` | What the two steps that are assumed to be atomic are worth when they are not, and the accounts of the concrete runs. |

## Assumptions

- Account row locks and the unique index on idempotency keys really exclude, and are held until
  commit or rollback.
- The snapshot job reads its base, its count, its newest entry and its sum in one step
  (`app/services/balance_service.py:111-144`); it may store the snapshot later. Without this,
  `Atomicity.SplitSnapshotIsExact` gives the exact condition under which the snapshot is right, and
  `Atomicity.SplitSnapshotGoesWrong` a log on which a balance counts an entry twice.
- A webhook is handled in one step. The PENDING check precedes the account locks and is not repeated
  under them (`app/services/deposit_service.py:93-114`); `Atomicity.LateConfirmation` gives the exact
  condition under which a confirmation whose check came earlier still keeps decided deposits, and
  `Atomicity.TwoConfirmationsCreditTwice` a deposit that is credited twice.
- In `Services` a call that returns is committed before the next one starts: the cache is refreshed
  before the commit, so coherence with the committed tables is a property of sequential runs only.
- Clearing accounts exist, exchange rates are positive, the snapshot threshold is at least 1, and
  the lock on an account row is enough to see all committed entries of the account.

## Where the code and its promises part

- Of two requests racing under one key, the later one can be refused, for lack of funds say, although
  the earlier one has been committed under the key: the key is looked up before the locks are taken.
  `KeyRace.RacingRequestIsRefused` exhibits such a run. `Serializability.AnswersAreSerial` says when it
  happens, before the deciding step: a writer's answer is the serial run's if and only if it is not the
  case that the writer is past its lookup, its key has been committed since, and it fails a check under
  its locks, its funds check, or the session that a refused insert leaves behind. No entries are added.
- A caller that loses the insert itself is meant to answer the existing transaction
  (`app/services/transfer_service.py:94-97`). But opening a nested transaction flushes the session
  before the savepoint is set, so the refused insert spoils the outer transaction, and the query that
  should find the existing row fails with a database error. The existing transaction is the intended
  answer, not the one the code gives with such a session. The model leaves this open (`recovers`), and
  every result holds either way; the error is `DuplicateKey`.
- The repository's README (line 109) says that a write invalidates the cached balance. The code
  recomputes it and writes it through (`app/services/balance_service.py:92-94`); the model does what
  the code does.
- An empty idempotency key is never looked up, but it is stored under the unique index.
  `Books.KeyFindsFirst` shows that a later call under an accepted key answers the first transaction if
  and only if the key is not empty; `Books.EmptyKeyIsRefused` that a later call under the empty key is
  refused, with `DuplicateKey` if and only if it passes all the other checks.

## Model

| member | source | states |
|---|---|---|
| `Decimals.StorageKeepsFunds` | app/services/transfer_service.py:69-119 | An amount of any number of digits that passes the unrounded funds check leaves a non-negative stored balance, and the stored debit and credit cancel exactly, for every admissible storage rounding |
| `Decimals.HalfEvenIsTheNearest` | app/services/fx_service.py:89 | Quantizing yields the nearest unit and the even one of two, and nothing else (section 4.3.1 of IEEE 754-2008) |
| `Decimals.HalfEvenIsStorageRounding` | app/models/ledger_entry.py:24 | Rounding half to even is monotone, odd and fixes four-decimal amounts |
| `Decimals.HalfAwayFromZeroIsStorageRounding` | app/models/ledger_entry.py:24 | So is rounding half away from zero, as a numeric column does |
| `Decimals.HalfAwayFromZeroIsTheNearest` | app/models/ledger_entry.py:24 | It yields the nearest unit and the one further from zero of two, and nothing else |
| `Decimals.ExchangeWithinHalfUnit` | app/services/fx_service.py:88-89 | The amount paid out is within half a unit of amount times rate and never negative |
| `Decimals.ExchangeMonotone` | app/services/fx_service.py:88-89 | Exchanging more never pays out less |
| `Decimals.SplittingAnExchange` | app/services/fx_service.py:88-89 | Splitting an exchange into n parts moves the total paid out by at most (n+1)/2 units |
| `Decimals.ThereAndBack` | app/services/fx_service.py:88-89 | Converting there at r and back at s differs from amount*r*s by at most (s+1)/2 units |
| `Plans.PlanIsBalanced` | app/services/fx_service.py:144-184 | The entries of an admissible request are one debit/credit pair (two for an exchange, none for an initiated deposit), each summing to zero in one currency, and every entry has its account's currency |
| `Plans.PrefixTakesAllowance` | app/services/transfer_service.py:101-123 | However far a request's entries have been written, no user has lost more than the request's stored amount, and only its source has |
| `Plans.AffordedPrefixKeepsFunds` | app/services/transfer_service.py:68-74 | After a passed funds check every user's balance stays non-negative at each written entry |
| `Plans.PlanIsOnLockedAccounts` | app/services/fx_service.py:104 | Exactly the accounts that a request writes entries on are locked, the one whose funds are checked among them |
| `Plans.PlanFlow` | app/services/fx_service.py:144-184 | By how much a request's entries change what all users together own of a currency |
| `Books.SubmitKeeps` | app/services/transfer_service.py:36-140 | Transfers, direct deposits, exchanges and initiated deposits keep the whole book in order |
| `Books.InitiateKeeps` | app/services/deposit_service.py:37-85 | Initiating a deposit keeps the book in order and writes no entries; an accepted one is PENDING |
| `Books.ConfirmKeeps` | app/services/deposit_service.py:93-155 | Confirming keeps the book in order: the credit is typed, balanced and the recorded one |
| `Books.StatusOpsKeep` | app/services/deposit_service.py:158-184 | Failing a deposit, and storing a payment id, keep the book in order |
| `Books.OpenKeeps` | app/services/account_service.py:8-25 | Opening an account keeps one account per owner and currency, and the clearing accounts |
| `Books.RunKeeps` | app/services/deposit_service.py:51-184 | After every run: ids grow, each entry has its account's currency, keys are unique, PENDING and FAILED deposits have no entries, COMPLETED transactions exactly their balanced group, no user is overdrawn, each currency sums to zero |
| `Books.RunExtends` | app/services/deposit_service.py:94-138 | Over every run the entry log is append-only, account currencies, intents and keys never change, COMPLETED and FAILED are never left and keep their entries |
| `Books.KeyFindsFirst` | app/services/transfer_service.py:43-46 | However much later, a request of any kind under a key accepted once changes nothing, and answers that first transaction if and only if the key is not empty |
| `Books.EmptyKeyIsRefused` | app/services/transfer_service.py:43-99 | Under the empty key every later request is refused, with DuplicateKey exactly when it passes all the checks before the insert |
| `Answers.TransferIsAnswered` | app/services/transfer_service.py:36-123 | A transfer is accepted if and only if the accounts differ, exist and have the currency, the amount is positive and at most the balance, and the key is free; each error's exact condition; the row and the two entries written |
| `Answers.TransferConcludes` | app/services/transfer_service.py:48-123 | The same for the part under the locks, whatever has been committed under the key since the lookup |
| `Answers.DepositIsAnswered` | app/services/deposit_service.py:198-257 | Likewise for a direct deposit, which checks no funds |
| `Answers.DepositConcludes` | app/services/deposit_service.py:214-257 | Likewise for its part under the locks |
| `Answers.InitiationIsAnswered` | app/services/deposit_service.py:37-76 | Likewise for an initiated deposit, which records a PENDING row with what was asked for and no entries |
| `Answers.InitiationConcludes` | app/services/deposit_service.py:51-76 | Likewise for its insert |
| `Answers.ExchangeIsAnswered` | app/services/fx_service.py:77-117 | An exchange is accepted if and only if the currencies differ, the amount is positive and at most the source's balance, there is a rate, the accounts exist in their currencies, and the key is free; each error's exact condition |
| `Answers.ExchangeConcludes` | app/services/fx_service.py:104-142 | The same for the part under the locks |
| `Answers.ExchangeRecords` | app/services/fx_service.py:123-184 | The row and the four entries of an accepted exchange, at the unit nearest to amount times rate, ties to even |
| `Answers.ExchangePaysNearest` | app/services/fx_service.py:89-184 | In an accepted exchange's group the target's credit is the unit nearest to amount times rate, the even one of two, and the pool's debit is its opposite |
| `Answers.ConfirmIsAnswered` | app/services/deposit_service.py:93-140 | A confirmation's errors with their exact conditions, and all that it writes |
| `Answers.FailIsAnswered` | app/services/deposit_service.py:163-172 | A transaction can be failed if and only if it is PENDING, whatever else it carries; only its status changes |
| `Answers.AcknowledgeIsAnswered` | app/services/deposit_jobs.py:75-81 | Any existing transaction takes the payment id, and nothing else changes |
| `Answers.WebhookIsAnswered` | app/api/v1/webhooks.py:49-89 | 200 if and only if the webhook says that an existing PENDING transaction completed or failed; 400 and 422 exactly otherwise; what each writes |
| `Answers.RecoveryFinds` | app/services/deposit_jobs.py:111-133 | Recovery finds exactly the PENDING deposits without a reference that are older than the cutoff, and enqueues their own id, amount and currency |
| `Answers.ProviderActs` | mock-provider/app.py:29-147 | What the provider stores for a payment, what its webhooks carry for either outcome, and which payments a timer or a trigger decides |
| `Answers.OpeningIsAnswered` | app/services/account_service.py:17-25 | An opening is accepted if and only if the user has no account in the currency; it adds exactly one, the user's own, in that currency, not a system account |
| `Conservation.BalancesSumToZero` | app/services/deposit_service.py:237-254 | The balances of all accounts of a currency sum to zero |
| `Conservation.HoldingsFollowFlows` | app/services/fx_service.py:144-184 | Over every run, what the users own together changes by exactly the flows of the accepted operations |
| `Conservation.Conserved` | app/services/fx_service.py:144-184 | From an empty ledger: accounts sum to zero per currency, and user balances sum to deposits to users, less what users paid into exchanges, plus what exchanges paid them, plus net transfers from system accounts |
| `Sums.CutSplits` | app/services/balance_service.py:46-65 | The sum and the count up to an id plus those after it are the whole |
| `Sums.BalanceGrows` | app/services/balance_service.py:46-54 | A balance is zero without entries, and each further SUCCESS entry of the account adds its amount |
| `Snapshots.FastBalanceIsBalance` | app/services/balance_service.py:31-66 | Newest snapshot plus entries after its mark is the plain sum of SUCCESS entries |
| `Snapshots.ProposalIsExact` | app/services/balance_service.py:97-153 | What the job stores equals the from-scratch sum and count of the entries up to its mark, although its count is built incrementally |
| `Snapshots.ExactStaysExact` | app/services/balance_service.py:50-52 | A snapshot stays exact as long as no entry of its account appears at or below its mark |
| `ServiceState.StoreKeepsSnapshots` | app/services/balance_service.py:121-152 | A stored snapshot lies beyond the account's newest one, at least `threshold` entries away, and leaves nothing unsnapshotted |
| `ServiceState.JobIsIdempotent` | app/services/balance_service.py:121-122 | A duplicated snapshot job stores nothing |
| `Locks.SortedSorts` | app/services/lock.py:12 | Sorting keeps every id with its duplicates, in ascending order |
| `Services.Backend.LockAccounts` | app/services/lock.py:11-16 | Asks for all the ids in ascending order, duplicates included, and then holds every one that exists |
| `Services.Backend.GetBalance` | app/services/balance_service.py:17-84 | Answers the plain sum, from the cache or by snapshot and delta; a locked read neither uses nor fills the cache |
| `Services.Backend.RefreshBalanceCache` | app/services/balance_service.py:92-94 | Writes the plain sum through to the cache |
| `Services.Backend.InvalidateBalanceCache` | app/services/balance_service.py:87-89 | Losing a cached balance, at any time, keeps the cache coherent |
| `Services.Backend.ComputeAndCreateSnapshot` | app/services/balance_service.py:97-153 | Stores a snapshot exactly when `threshold` entries have come, with the whole balance and the whole count, and leaves fewer than `threshold` unsnapshotted |
| `Services.Backend.MaybeCreateSnapshot` | app/services/balance_service.py:156-188 | Enqueues a job exactly when `threshold` entries have come and the queue is up |
| `Services.Backend.InsertTransaction` | app/services/transfer_service.py:81-99 | Inserts a row under a fresh id and its key; a taken key changes nothing and answers the transaction that took it, if the session still can |
| `Services.Backend.HasFunds` | app/services/transfer_service.py:68-74 | Under the account's lock: exactly when the plain sum covers the unrounded amount; the cache is neither used nor filled |
| `Services.Backend.AddEntry` | app/services/transfer_service.py:102-121 | Appends one entry under the next id, on an account whose lock is held |
| `Services.Backend.InsertPair` | app/services/transfer_service.py:81-123 | Inserting the row and writing both entries yields the concluded request's tables, or none at all under a taken key; at most the two balances touched are stale |
| `Services.Backend.PostPair` | app/services/transfer_service.py:81-129 | Inserting, writing both entries, refreshing and enqueuing amounts to the concluded request, lost race included; it leaves the cache coherent and enqueues exactly the due snapshot jobs |
| `Services.Backend.ExecuteTransfer` | app/services/transfer_service.py:23-140 | Does to the tables, and answers, exactly what the ledger's transfer does, error by error; refreshes both accounts |
| `Services.Backend.TransferLocked` | app/services/transfer_service.py:48-140 | The part after the lookup, whatever has been committed under its key since: the existing transaction or the unique index's refusal, with nothing written |
| `Services.Backend.ExecuteDeposit` | app/services/deposit_service.py:187-272 | Likewise for a direct deposit, refreshing the clearing account too |
| `Services.Backend.DepositLocked` | app/services/deposit_service.py:214-272 | The part after the lookup, whatever has been committed under its key since |
| `Services.Backend.InitiateDeposit` | app/services/deposit_service.py:28-85 | Records a PENDING deposit with its account, amount and currency, or refuses it |
| `Services.Backend.InsertPending` | app/services/deposit_service.py:51-76 | The part after the lookup, whatever has been committed under its key since |
| `Services.Backend.ConfirmDeposit` | app/services/deposit_service.py:88-155 | Credits the recorded account with the recorded amount and currency, once; refuses anything but a PENDING deposit |
| `Services.Backend.InsertCredit` | app/services/deposit_service.py:116-140 | Completing the deposit and writing its two entries yields the confirmed tables; at most the two balances touched are stale |
| `Services.Backend.CreditDeposit` | app/services/deposit_service.py:114-146 | The part under the account locks completes the deposit, leaves the cache coherent and enqueues exactly the due snapshot jobs |
| `Services.Backend.FailDeposit` | app/services/deposit_service.py:158-184 | Fails a PENDING deposit and changes nothing else |
| `Services.Backend.GetExchangeRate` | app/services/fx_service.py:41-58 | One for equal currencies without caching, else the cached rate, else the provider's, which is then cached; nothing is cached when the provider has none |
| `Services.Backend.ExecuteFxTransfer` | app/services/fx_service.py:61-196 | Does exactly what the ledger's exchange does at the rate the cache or the provider gives, caching a fetched one; refreshes all four accounts and enqueues their due snapshot jobs |
| `Services.Backend.ExchangeLocked` | app/services/fx_service.py:89-196 | The part after the lookup, under the four account locks, whatever has been committed under its key since |
| `Services.Backend.ExchangeFunded` | app/services/fx_service.py:119-196 | The part that follows the funds check |
| `Services.Backend.InsertExchange` | app/services/fx_service.py:123-184 | Inserting the row and writing the four entries yields the concluded exchange's tables, or none at all under a taken key; at most the four balances touched are stale |
| `Services.Backend.PostExchange` | app/services/fx_service.py:123-194 | Inserting, writing the four entries, refreshing and enqueuing amounts to the concluded exchange, lost race included, with exactly the due snapshot jobs |
| `Services.Backend.CreateAccount` | app/services/account_service.py:8-25 | Refuses an unknown currency code, then an unknown user, then a second account of the user in the currency; else opens one |
| `Services.Backend.PaymentWebhook` | app/api/v1/webhooks.py:24-89 | 401 for a missing or wrong signature when a secret is configured, 400 for an unreadable timestamp, 401 for an old one, with the tables untouched; else the webhook is dispatched |
| `Services.Backend.DispatchWebhook` | app/api/v1/webhooks.py:49-89 | Dispatches to confirm or fail; answers 200 exactly when the deposit was decided and leaves the tables alone otherwise |
| `Services.Backend.CreateDeposit` | app/api/v1/deposits.py:22-54 | Refuses a missing account and a caller who does not own it; else initiates and enqueues one notification if the queue is up, the deposit standing either way |
| `Services.Backend.NotifyProvider` | app/services/deposit_jobs.py:48-81 | Without a good answer the job is retried and nothing changes; else the payment id is stored |
| `Services.Backend.RecoverOrphanDeposits` | app/services/deposit_jobs.py:94-141 | Enqueues exactly one notification, with the recorded amount and currency, for each old enough unacknowledged PENDING deposit, and answers how many; if the queue fails midway, for as many of them as it took, without an answer |
| `Services.Backend.EnqueueAll` | app/services/deposit_jobs.py:127-138 | One job for each deposit until the queue fails |
| `Sessions.ReadBalance` | app/api/v1/accounts.py:45-58 | Answers an existing account's owner, and nobody else, with the plain sum of its SUCCESS entries in its currency |
| `Sessions.ServeOne` | app/services/balance_service.py:17-94 | Each call, job or webhook does to the tables what the ledger operation it amounts to does; an exchange runs at the cached rate, else at the fetched one |
| `Sessions.Serve` | app/services/balance_service.py:17-94 | Over every sequence of calls, jobs, webhooks and lost cache entries: the tables are those of the run of the calls' own operations, every cached balance is its account's plain sum in its currency, every snapshot is exact and at least `threshold` entries from the next |
| `WritersSafety.FireKeeps` | app/services/transfer_service.py:48-123 | Every step of every writer, reader and job keeps exclusion, id order, exact snapshots, funds and unique keys |
| `WritersResults.NoOverdraft` | app/services/transfer_service.py:49-74 | In every reachable state no user's committed balance is negative, nor is it with any writer's pending entries |
| `WritersResults.IdsAreAllocatedUnderLock` | app/services/transfer_service.py:49-123 | An id is allocated on an account only under its lock, no other writer holding it, and beyond every committed id of the account |
| `WritersResults.CutLosesNothing` | app/services/balance_service.py:50-52 | Whatever is committed later, the entries at or below a snapshot's mark stay the same |
| `WritersResults.ReadsAreExact` | app/services/balance_service.py:31-66 | A balance read in two queries, with anything in between, answers the committed sum at its second query |
| `WritersResults.SnapshotsAreExact` | app/services/balance_service.py:124-153 | Every stored snapshot, however late it was stored, has the from-scratch sum and count up to its mark |
| `WritersResults.CheckedBalanceIsStable` | app/services/transfer_service.py:68-74 | The funds check reads the committed balance, and nothing but the writer's own next step can change it before its commit |
| `WritersResults.KeyCommitsOnce` | app/services/deposit_service.py:67-76 | Per key at most one writer commits, initiated deposits included, with exactly one balanced group or none; a writer that lost, was refused or aborted adds no entry |
| `Serializability.Serializable` | app/services/transfer_service.py:48-123 | Under every interleaving the committed requests, run one at a time in commit order, are all accepted and give every account the same entries in id order |
| `Serializability.AnswersAreSerial` | app/services/transfer_service.py:43-99 | In every reachable state, the answer a writer's next step gives is the serial run's if and only if it is not refused in a race: past its lookup, key committed since, and failing a check, its funds or its session |
| `Serializability.EveryEventWasDecided` | app/services/transfer_service.py:43-140 | Every event of every history was decided by one such step, so the condition covers all answers ever given |
| `Serializability.ExistingIsTheOwner` | app/services/transfer_service.py:43-46 | A caller that is answered an existing transaction is answered the one committed under its key |
| `WritersConservation.ConservedUnderInterleaving` | app/services/transfer_service.py:101-123 | Under every interleaving the committed balances of a currency sum to zero, and the users' to the net flow of the committed requests |
| `KeyRace.RacingRequestIsRefused` | app/services/transfer_service.py:43-74 | A reachable run in which the later of two requests under one key is refused where the serial run answers the existing transaction |
| `Progress.StuckMeansWaiting` | app/services/lock.py:11-16 | A writer cannot step exactly when another one holds the account or the key it needs |
| `Progress.NoWaitingCycle` | app/services/lock.py:11-16 | In no reachable state do writers wait for each other in a cycle |
| `Progress.EveryBatchFinishes` | app/services/lock.py:11-16 | Under every schedule the writers take a bounded number of steps, and none of them can step exactly when all are done |
| `Progress.CanFinish` | app/services/lock.py:11-16 | From every safe state every writer can be brought to its end |
| `Deposits.FireKeeps` | app/services/deposit_jobs.py:48-81 | Every step of the protocol keeps: each queued job, payment, reply and pending reference fits the deposit's recorded amount and currency |
| `Deposits.PlayKeeps` | app/services/deposit_service.py:51-184 | So does every schedule, and none undoes what was decided |
| `Deposits.ExactlyOnce` | app/services/deposit_service.py:93-138 | Under retries, recoveries, late notifications and any webhooks, a deposit is credited at most once, as recorded at initiation, and once decided is final |
| `Deposits.FirstWebhookDecides` | app/services/deposit_service.py:96-99 | The first accepted webhook fixes the outcome; every further one is answered 422 and changes nothing |
| `Deposits.AcknowledgedOrRecoverable` | app/services/deposit_jobs.py:111-133 | A PENDING deposit either has a payment under its reference with its id, amount and currency, or a late enough recovery enqueues it |
| `Deposits.RequestIsRecoverable` | app/api/v1/deposits.py:29-54 | An accepted request leaves a PENDING deposit with no entries, found by recovery exactly when the cutoff is after its creation, and queued if the queue was up |
| `Deposits.RecoveryIsExact` | app/services/deposit_jobs.py:127-141 | Recovery's jobs are one for each orphan, with what it recorded, and no others |
| `DepositOutcomes.NeverStuck` | app/services/deposit_jobs.py:94-141 | From every reachable state every PENDING deposit can still be completed |
| `DepositOutcomes.OnlyPaidDepositsAreDecided` | app/api/v1/webhooks.py:49-89 | If webhooks come from the provider only, no deposit is credited or failed without a provider payment of its very amount and currency |
| `MockProvider.Server.CreatePayment` | mock-provider/app.py:78-112 | Registers a pending payment and schedules its callback, or refuses an incomplete request and changes nothing |
| `MockProvider.Server.PostCallback` | mock-provider/app.py:29-65 | A callback that arrives carries the payment's own reference, amount and currency; a failed post changes nothing |
| `MockProvider.Server.FinishCallback` | mock-provider/app.py:67-69 | A callback's outcome sticks only to a payment still pending |
| `MockProvider.Server.TriggerPayment` | mock-provider/app.py:125-159 | A trigger sets the outcome even when posting its webhook raises, and the webhook may have been delivered all the same; bad outcomes and unknown payments change nothing |
| `MockProvider.WhoDecides` | mock-provider/app.py:67-134 | The last manual trigger decides a payment; without one, the first timer does |
| `Idempotency.Endpoint.GetExistingResponse` | app/services/idempotency_service.py:20-40 | The cached response, else the saved row, which is cached again |
| `Idempotency.Endpoint.SaveResponse` | app/services/idempotency_service.py:43-65 | The response is live from now on; its row may or may not be committed |
| `Idempotency.Endpoint.Request` | app/utils/decorators.py:38-68 | 400 without a key, replay or 422 under a live key, else the handler runs and its answer, if any, is saved |
| `Idempotency.HashTellsBodies` | app/utils/decorators.py:46-47 | Two bodies hash alike exactly when they are the same text or both count as empty: missing, no JSON, or falsy |
| `Idempotency.CallIsAnswered` | app/utils/decorators.py:42-68 | 400 without a key; the handler's own response, saved with the body's hash, when none was; else the saved response, or 422 for another body; what each leaves behind |
| `Idempotency.LiveKeyIsReplayed` | app/utils/decorators.py:49-68 | The first call answers the handler's response; while it lives, whatever happens in between, the same body is answered with it and another body with 422, the handler not running and the state not changing |
| `Idempotency.OnlyEffectiveCallsCount` | app/utils/decorators.py:55-56 | After any run the state is what the handler made of the calls that found no live response, and of no others |
| `Idempotency.HandlerAnswersOnce` | app/utils/decorators.py:49-66 | As long as the response is not lost, the handler has answered under the key exactly once if a response is saved and never otherwise |
| `Atomicity.SplitSnapshotIsExact` | app/services/balance_service.py:111-144 | With separate reads the job's snapshot is exact if and only if no entry of the account came between the count and the newest entry, and those that came after it sum to zero |
| `Atomicity.SplitSnapshotGoesWrong` | app/services/balance_service.py:111-144 | A log on which the split job stores a snapshot that is not exact, and a balance read from it counts an entry twice |
| `Atomicity.LateConfirmation` | app/services/deposit_service.py:93-138 | A confirmation that posts after other operations ran keeps what is decided if and only if the deposit is still PENDING then; a FAILED one is credited after all and a COMPLETED one holds two pairs |
| `Atomicity.TwoConfirmationsCreditTwice` | app/services/deposit_service.py:93-138 | Two confirmations of a ten-dollar deposit that both pass the check leave the user twenty dollars |

## Left out

- Services.Backend.ExecuteTransfer: calls run one at a time, so nothing is committed between its lookup and its locks; `TransferLocked` covers a key committed there.
- Services.Backend.ExecuteDeposit: likewise; `DepositLocked` covers a key committed after its lookup.
- Services.Backend.InitiateDeposit: likewise; `InsertPending` covers a key committed after its lookup.
- Services.Backend.ExecuteFxTransfer: likewise; `ExchangeLocked` covers a key committed after its lookup.
- Services.Backend.PaymentWebhook: the computation of the signature and the reading of the clock; their results are parameters.
- Idempotency.Endpoint.Request: the hash is taken as injective, so the canonical text of the body stands for it.
- Idempotency.Endpoint.SaveResponse: whether the row is committed is a parameter, since handlers commit before it is added.
- `OperationalError` fallback of the account locks, and SQLite, on which locks do nothing.
- Confirmations among the interleaved writers: they lock and write as a direct deposit without a key does, and are taken as one.
- Row locks on the entries of a locked balance read: every writer of those entries holds the account lock anyway.
- Share locks on account rows by foreign keys, and lock waits of the snapshot job, which takes no account lock.
- How a session comes to survive a refused insert or not; `recovers` is a parameter.
- Races that create the system user, clearing accounts or two accounts of one user; the accounts of the interleaved writers are fixed.
- Overflow of the 19-digit amount column, the 28-digit decimal context and the error it raises when a product does not fit.
- Withdrawals, and entries that are not SUCCESS, none of which the services create.
- A notification that arrives after a deposit was completed overwrites its provider reference; the agreement with the provider is claimed for PENDING deposits.
- A restart of the provider, which forgets its payments.
- The time-to-live of cached values: a cache may lose any of them at any time instead.
- Coherence of the cache while calls overlap: it is refreshed before the commit.
- Registration of users, ownership checks of the transfer endpoints, event publication, descriptions, correlation ids, e-mail, pagination, HTTP, authentication and rate limits: none touches the ledger's state.
- The algebra of the money class: amounts are integers with a currency beside them.
