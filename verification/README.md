# Ledger verification

This project models the ledger engine of the transactions service in Dafny and proves what its deposits,
withdrawals and transfers guarantee, for any number of concurrent calls and every interleaving of their steps.

The service takes no locks. A call reads the latest row of one or two phones, computes the next sequence number
and balance, inserts inside an all-or-nothing session, and is retried when a unique index refuses it. Everything
the service promises rests on contiguous sequence numbers per phone together with two unique indexes.

## How it is built

Two layers share one definition of the rows and of the collection.

- `Model.dfy`, `Ledger.dfy`: rows, requests, answers and int64 arithmetic with explicit wrap-around; the collection
  as the log of its commits, its queries and its two unique indexes. `Sound(log)` says that every commit continued the chains as they
  stood when it was appended.
- `Protocol.dfy`: the step system. A call is a program point plus the local variables of its method; every database
  operation, wallet lookup and loop test is one step, and any call may take the next one. A run is a
  sequence of events from the empty collection.
- `Safety.dfy`: the invariant of every run. `SequentialBank.dfy`, `Money.dfy`, `Transfers.dfy`, `Spending.dfy`, `Races.dfy`,
  `Answers.dfy`, `Wallets.dfy`, `Conflicts.dfy`, `Retries.dfy`: the theorems about runs. `Signals.dfy`: what the driver and the
  wallet service have told each call, and that a run records all of it.
- `Undisturbed.dfy`: the decision table every call follows when nothing disturbs it, that is, when the run goes on with steps of
  this call only and none of them is a driver error, a spurious conflict or a rerun of the callback; the wallet service may
  answer anything, and reads must happen to be current only under `AnyCommitted`. `HalfTransfer.dfy`: what
  `ErrHalfTransferFail` means and when it misleads. `Scenarios.dfy`: concrete runs.
- `Database.dfy`, `Repository.dfy`, `TxManager.dfy`, `ServiceSteps.dfy`, `Service.dfy`: the imperative layer. The collection, the sessions and
  the captured variables are objects; the methods have the loops, early returns and in-place updates of the code.
  Between any two operations of a call, `Collection.Interfere` lets the others take any number of their own steps. The
  collection records each operation of a call as a step of the step system, and each method is proved to move
  its call exactly as the step system does. So the event history of every execution of
  `CreateDepositTransaction`, `CreateWithdrawalTransaction` and `CreateTransferTransaction` is a run,
  the value they return is the answer of that run, and each theorem about runs holds of it. The driver and the wallet client
  also keep what they have told each call (`Collection.signals`), and a step that blames them can be recorded only when they
  are to blame (`Collection.Note`): so ErrOther is answered only if an operation of the call failed, and when
  nothing fails and nobody else takes a step, answer and collection are those of the decision table.
- `PhoneNumber.dfy`: the in-place normalisation of phone numbers.

A transaction closure is a method here, and its captured variables are an object passed to it; `WithTransaction` is one method per
closure, each a loop that runs the closure and lets `MongoTxManager.Conclude` commit, abort or run it again.

## What is assumed of the database

- A commit appends all its rows or none, and is refused if a new row collides, with a committed row or with another row of
  the same batch, on (phone, sequence) or on reference. If both indexes collide either may be reported.
- The keys of a buffered insert stay reserved until its session ends, so nothing comes between the insert and the commit.
- A read inside a call answers from some earlier committed state, possibly a different one for each read. `ReadConcern` says how
  old it may be: `AnyCommitted` (all safety theorems), `SinceEarlyCheck`, or `SinceAttempt`. The code sets no read concern, so only
  the theorems that need more ask for more.
- EarlyCheck and the lookup by reference see the state when they run.
- The driver may run a callback several times, and may report a write conflict that no committed row explains.
- The outcome of a commit is known.

The handlers admit only positive int64 amounts and non-empty keys; these are the only preconditions on requests.

## Findings

- `ErrHalfTransferFail` does not always mean that the sender's failure was recorded. Of the three branches that answer it, the one
  after EarlyCheck (service.go:440-444) is right, because EarlyCheck filters on the sender's phone. The one after a duplicate
  reference in the first loop (service.go:589-598) looks at the stored row but not at its phone; the one after the insert of the
  FAILED row (service.go:667-670) looks at nothing. Four runs show it: `Scenarios.InFlightMisleads` (the other request with the
  key posts the transfer), `Scenarios.OtherPhoneMisleads` (the key was used earlier for a deposit on another phone),
  `Scenarios.OtherSenderMisleads` and `Scenarios.OtherSenderReplayMisleads` (another sender's refused transfer holds the key).
  The exact conditions are proved at each level: for the branches (`HalfTransfer.EarlyCheckIsHonest`,
  `HalfTransfer.ReplayBranchIsHonestIff`, `HalfTransfer.RecordBranchIsHonestIff`), for whole calls in any run
  (`HalfTransfer.HalfTransferIsHonestIff`), and in terms of what can be told before the call, for a transfer nobody disturbs
  (`HalfTransfer.MisleadsAloneIff`). `HalfTransfer.HalfTransferMeansRecorded` gives a discipline on keys under which the answer can
  be trusted.
- A deposit or withdrawal whose key belongs to a refused transfer is answered as a success whose status is FAILED, and moves no
  money: after EarlyCheck if the refused sender is the same phone (service.go:52-60), after a duplicate reference whatever the
  phone (service.go:136-149, 315-329). `Scenarios.RefusedKeyAnswersSuccess` is a run of either kind,
  `HalfTransfer.FailedSuccessIff` says exactly when it happens, and `HalfTransfer.FailedSuccessAloneIff` when it can be told before
  the call.
- An observation: the repository's own README.md, line 164, describes the lookup of the existing record after a duplicate
  reference for deposits and withdrawals. The first loop of the transfer does the same; its second loop does not.

## Model

| member | source | states |
|---|---|---|
| Model.Wrap | svc-transactions/internal/transactions/service.go:107-111 | int64 arithmetic: the result is congruent to the exact one modulo 2^64, in range, and equal to it when that is in range |
| Safety.GuardsExact | svc-transactions/internal/transactions/service.go:107-111 | in every committed state of a sound ledger the two int64 guards decide the exact comparisons for every positive amount up to 2^63-1 |
| Ledger.Newest | svc-transactions/external/mongodb/repo.go:110-121 | sort by sequence descending, limit 1: a row of the phone with the greatest sequence number, none exactly when there are no rows |
| Ledger.WherePrefix | svc-transactions/external/mongodb/repo.go:101-134 | the collection is append-only: what a query matched in an earlier state is a prefix of what it matches later |
| Ledger.ChainInvariant | svc-transactions/internal/transactions/service.go:96-127 | each phone's rows form one unbroken chain from balance 0, the latest-row query finds its end, and the balance lies in 0..WalletMax |
| Ledger.SeqTakenIff | svc-transactions/external/mongodb/repo.go:27-33 | a (phone, sequence) pair is in the index if and only if the chain has reached it |
| Ledger.StaleReadHarmless | svc-transactions/external/mongodb/repo.go:27-33 | if the successor of a row read in any past state is not refused, that row is still the newest of its phone |
| Ledger.UniqueReference | svc-transactions/external/mongodb/repo.go:40-44 | at most one row is ever committed under a reference, receiver legs and FAILED rows included |
| Ledger.FindOnPhone | svc-transactions/external/mongodb/repo.go:155-212 | a hit of EarlyCheck on key and phone is the row the lookup by key alone finds |
| Safety.AcceptedBatchFits | svc-transactions/internal/transactions/service.go:503-580 | a batch built from arbitrarily stale reads that both indexes accept continues every chain it touches from its current end |
| Safety.DuplicateMeansTaken | svc-transactions/external/mongodb/repo.go:57-60 | a duplicate reference means that the call's key, or a transfer's receiver key, is committed |
| Safety.RunKeepsInvariant | svc-transactions/internal/transactions/service.go:40-832 | every run of any number of calls, under any read concern, keeps the ledger sound, each call's rows consistent with what it read, its own commits unique, and its answer justified |
| Safety.ChainsOfRun | svc-transactions/internal/transactions/service.go:96-127 | in every reachable state, for every phone: sequence numbers 1..n, first balance 0, each row starting where the previous ended, latest by sequence is latest by commit, balances in bounds, and no int64 expression of a next attempt overflows |
| SequentialBank.StepRefines | svc-transactions/internal/transactions/service.go:511-580 | a commit is one operation of the sequential bank, accepted by it, with exactly its effect on balances and keys |
| SequentialBank.RunRefinesBank | svc-transactions/internal/transactions/service.go:88-163 | every interleaved run shows the balances and keys of executing the committed operations one at a time in commit order |
| SequentialBank.StepIsOneOperation | svc-transactions/internal/transactions/service.go:499-625 | each step of a run changes nothing in the ledger or performs exactly one accepted bank operation |
| SequentialBank.FreshAnswerIsTheOperation | svc-transactions/internal/transactions/service.go:211-217 | a call's own commit is the operation of its request (or its refusal), between EarlyCheck and answer, and the balances answered are the bank's right before and after it |
| Money.MoneyStep | svc-transactions/internal/transactions/service.go:511-580 | the legs of a transfer cancel and FAILED rows add nothing to the sum of all balances |
| Money.RunConservesMoney | svc-transactions/internal/transactions/service.go:107-127 | in every reachable state the sum of all latest balances is POSTED deposits minus POSTED withdrawals |
| Money.RunningBalanceRecomputes | README.md:181-183 | the running balance is the fold of signed POSTED amounts, and equals what a consumer of POSTED events only ends up with |
| Transfers.DebitHasCredit | svc-transactions/internal/transactions/service.go:517-580 | every POSTED sender row has its receiver row: key plus suffix, same amount, same parties |
| Transfers.CreditHasDebit | svc-transactions/internal/transactions/service.go:517-580 | every receiver row has its POSTED sender row |
| Transfers.TransferIsAtomic | svc-transactions/external/mongodb/repo.go:76-99 | for every key, in every reachable state: sender row if and only if receiver row, and never a receiver row for a FAILED one, whatever keys clients choose |
| Spending.BalanceSince | svc-transactions/internal/transactions/service.go:286-290 | from any committed state on, a phone holds what it held plus what came in minus what went out |
| Spending.NoDoubleSpend | svc-transactions/internal/transactions/service.go:286-290 | any set of concurrent withdrawals and outgoing transfers that succeed takes at most the starting balance plus everything credited since |
| Races.ExtremeAnswerFormula | svc-transactions/tests/acid_test.go:407-411 | equal operations in one direction: final balance is baseline plus successes times amount, no fresh answer goes beyond it and one answers exactly it |
| Races.ExactlyOneWins | svc-transactions/tests/acid_test.go:1035-1048 | of any number of racing full-balance withdrawals exactly one commits and answers 0, all others answer insufficient balance |
| Answers.ExactlyOncePerKey | svc-transactions/internal/transactions/service.go:136-149 | one row per key, and every success to a key, fresh or replayed, whatever the kinds of request and row, carries that row's id, wallet and status; a deposit or withdrawal answers its balance after, a transfer its balances after and before |
| Answers.SuccessesAgree | svc-transactions/internal/transactions/service.go:440-452 | any two successes to one key agree on id, wallet, status and balances |
| Answers.KeyIsForever | svc-transactions/external/mongodb/repo.go:136-153 | the log only grows along a run and the row under a key never changes |
| Answers.OutcomeMatchesLedger | svc-transactions/internal/transactions/service.go:688-695 | a fresh success committed exactly its row or pair, replays and all errors but ErrHalfTransferFail committed nothing, transfers never answer ErrExceedsMaxBalance |
| Answers.RejectionIsJustified | svc-transactions/internal/transactions/service.go:286-289 | insufficient-balance and capacity rejections, and the reason of a recorded FAILED row, were true of a committed state during the call; a deposit or withdrawal whose wallet was not found had no rows at its EarlyCheck |
| Answers.HistoryStaysVisible | svc-transactions/internal/transactions/service.go:502-506 | once EarlyCheck saw history no later read of the call is empty, and ErrFirstTransaction is never answered |
| Answers.LookupAfterDuplicate | svc-transactions/internal/transactions/service.go:589-594 | the lookup after a duplicate reference finds a row unless only a transfer's receiver key was taken |
| Answers.OnlyCurrentReadsCommit | svc-transactions/internal/transactions/service.go:503-580 | when an attempt can commit, both rows it read are still the newest, even if the two reads saw different past states |
| Wallets.WalletIsConstant | svc-transactions/internal/transactions/service.go:64-81 | if the wallet service is consistent, all rows of a phone carry one wallet id, through races, receivers without history and FAILED rows |
| Conflicts.RefusalIsPaid | svc-transactions/internal/transactions/service.go:151-160 | a sequence refusal means another call committed on one of the request's phones since the attempt began |
| Conflicts.HighFrequencyIsPaidFor | svc-transactions/internal/transactions/service.go:165-168 | conflicts never exceed the commits of other calls on those phones during the call, so a high-frequency answer stands for at least 100 of them, less spurious conflicts |
| Conflicts.ConflictMeansProgress | svc-transactions/internal/transactions/service.go:614-622 | whenever an attempt is refused, some other call has made progress |
| Retries.HundredAttempts | svc-transactions/internal/transactions/service.go:62-88 | at the top of either loop: with fewer than 100 conflicts met in it the call makes another attempt, with 100 it answers high frequency, and it never meets more |
| Retries.ConflictGoesBack | svc-transactions/internal/transactions/service.go:672-680 | a conflict sends the call back to the top of the loop it is in, with nothing committed and one conflict more |
| Retries.RerunStartsOver | svc-transactions/external/mongodb/tx_manager.go:26-39 | a callback run again starts over with its first read; nothing is committed, counted or reused |
| Retries.HighFrequencyMeansHundred | svc-transactions/internal/transactions/service.go:686-691 | no call answers high frequency that has not met 100 conflicts in one loop |
| Signals.NoBlameWithoutCause | svc-transactions/internal/transactions/service.go:69-78 | in every run ErrOther is answered only if one of the call's operations failed or the wallet service did, ErrWalletNotFound only if the wallet service said so of the phone that needs a wallet |
| HalfTransfer.EarlyCheckIsHonest | svc-transactions/internal/transactions/service.go:431-452 | EarlyCheck makes a transfer answer ErrHalfTransferFail if and only if the sender's refusal is recorded under the key |
| HalfTransfer.ReplayBranchIsHonestIff | svc-transactions/internal/transactions/service.go:589-598 | a FAILED row of any sender makes the first loop answer ErrHalfTransferFail; the sender's refusal is recorded if and only if the row is this sender's |
| HalfTransfer.RecordBranchIsHonestIff | svc-transactions/internal/transactions/service.go:662-670 | the branch always answers ErrHalfTransferFail; the sender's refusal is then recorded if and only if the key was free or held by a FAILED row of this sender |
| HalfTransfer.HalfTransferIsHonestIff | svc-transactions/internal/transactions/service.go:693-695 | for every call of every run that answered ErrHalfTransferFail: the refusal is recorded if and only if this or another transfer of the same sender committed it, and not if and only if another call posted a row, or had another sender's refusal recorded, under the key |
| HalfTransfer.MisleadsAloneIff | svc-transactions/internal/transactions/service.go:431-695 | an undisturbed transfer answers ErrHalfTransferFail without a recorded refusal exactly when parties differ, the sender can pay, the receiver has a wallet and another phone's row holds the key and is FAILED or the receiver is full; it then commits nothing |
| HalfTransfer.FailedSuccessIff | svc-transactions/internal/transactions/service.go:136-149 | in every run a deposit or withdrawal is answered a success with status FAILED if and only if a transfer of some sender was refused under its key |
| HalfTransfer.FailedSuccessAloneIff | svc-transactions/internal/transactions/service.go:52-60 | undisturbed, this happens exactly when a FAILED row holds the key and is this phone's, or the wallet is known and the balance lets the request through; it then commits nothing |
| HalfTransfer.HalfTransferMeansRecorded | svc-transactions/internal/transactions/service.go:627-695 | under the stated discipline on keys the answer means that the sender's FAILED row is committed with unchanged balance |
| Undisturbed.CallAlone | svc-transactions/internal/transactions/service.go:40-832 | every call that nobody disturbs from its arrival on, in whatever reachable state, answers and commits exactly what a sequential decision table says, commits nothing before it answers, is never stuck and answers within nine steps |
| Undisturbed.AttemptAlone | svc-transactions/internal/transactions/service.go:88-168 | from the top of any retry loop with attempts left, after however many conflicts, an attempt that nobody disturbs is the last: no further conflict, the outcome of the decision table, within six steps |
| Undisturbed.DepositDecision | svc-transactions/internal/transactions/service.go:96-127 | under a free key and with a known wallet: posted with the exact balance and row if the new balance is at most 9000000000000000, else ErrExceedsMaxBalance |
| Undisturbed.WithdrawalDecision | svc-transactions/internal/transactions/service.go:275-306 | posted with the exact balance and row if the amount is at most the balance, else ErrInsufficientBalance |
| Undisturbed.TransferDecision | svc-transactions/internal/transactions/service.go:503-580 | refused if the sender cannot pay, a FAILED row with its reason if the receiver would exceed 9000000000000000, else the two exact rows, the receiver's under the key with _deposit |
| Undisturbed.ReplayDecision | svc-transactions/internal/transactions/service.go:440-452 | a key held by the same phone's row: that row's values are answered, a FAILED one to a transfer as ErrHalfTransferFail, and nothing is committed |
| Undisturbed.UntroubledIsDecided | svc-transactions/internal/transactions/service.go:40-832 | an execution from its arrival in which nobody else takes a step and nothing fails follows the decision table, with the answer the wallet service actually gave |
| Scenarios.OtherPhoneMisleads | svc-transactions/internal/transactions/service.go:667-670 | concrete run: a key reused for another phone makes the answer untrue |
| Scenarios.InFlightMisleads | svc-transactions/internal/transactions/service.go:667-670 | concrete run: two requests with one key in flight, one posts the transfer and the other reports failure |
| Scenarios.OtherSenderMisleads | svc-transactions/internal/transactions/service.go:667-670 | concrete run: another sender's refusal holds the key and the failure loop takes it for its own |
| Scenarios.OtherSenderReplayMisleads | svc-transactions/internal/transactions/service.go:589-598 | concrete run: the receiver has room, but another sender's refusal under the key makes the first loop answer ErrHalfTransferFail |
| Scenarios.RefusedKeyAnswersSuccess | svc-transactions/internal/transactions/service.go:52-60 | concrete runs: a deposit under the key of a refused transfer, on the same phone or another, is answered a success with status FAILED and deposits nothing |
| PhoneNumber.ValidatePhoneNumber | svc-transactions/util/common/helpers.go:8-21 | leaves behind the pointer the text without the white space at both ends, and accepts exactly white space, 010, 011, 012 or 015, eight digits, white space |
| PhoneNumber.TrimSpaceIff | svc-transactions/util/common/helpers.go:9-9 | trimming leaves the one text that white space and nothing but white space surrounds |
| PhoneNumber.AcceptedIff | svc-transactions/util/common/helpers.go:10-20 | accepted are exactly the inputs of that form |
| PhoneNumber.AsciiSpaces | svc-transactions/util/common/helpers.go:9-9 | among ASCII characters white space is space and tab to return |
| PhoneNumber.NormalisationIsCanonical | svc-transactions/util/common/helpers.go:8-21 | two accepted inputs have equal normalised texts if and only if they have the same digits |
| PhoneNumber.TrimTwice | svc-transactions/util/common/helpers.go:9-9 | normalising is idempotent |
| Database.Collection.Interfere | svc-transactions/internal/transactions/service.go:151-160 | other calls take any number of steps of their own: the log and the history grow, this call's state stays |
| Database.Collection.InsertOne | svc-transactions/external/mongodb/repo.go:55-69 | an insert is buffered only if neither index refuses it, each duplicate error is true, and what the driver reports is kept |
| Database.Collection.InsertMany | svc-transactions/external/mongodb/repo.go:79-94 | the same for both legs together |
| Database.Collection.Commit | svc-transactions/external/mongodb/tx_manager.go:26-39 | the buffered rows become visible all together, as one step of the run, or the operation fails and the call is told |
| Database.Collection.Note | svc-transactions/external/mongodb/tx_manager.go:26-39 | a step is recorded only if the outside has told the call just what the step records |
| Repository.MongoRepository.CreateTransaction | svc-transactions/external/mongodb/repo.go:51-74 | the id is written through the pointer on success only; a duplicate reference is reported if and only if the driver reported that index, a duplicate sequence if and only if it reported that index or a write conflict, ErrOther if and only if it reported anything else |
| Repository.MongoRepository.CreateCoupledTransaction | svc-transactions/external/mongodb/repo.go:76-99 | the same, both ways, for the two pointers of a transfer |
| Repository.MongoRepository.GetLatestTransaction | svc-transactions/external/mongodb/repo.go:101-134 | latest row of some allowed committed state, ErrFirstTransaction exactly when it has none, ErrOther only if the driver failed |
| Repository.MongoRepository.GetTransactionByReferenceID | svc-transactions/external/mongodb/repo.go:136-153 | the row under the key, optionally on one phone, else ErrTransactionNotFound, ErrOther only if the driver failed |
| Repository.MongoRepository.EarlyCheck | svc-transactions/external/mongodb/repo.go:155-212 | the hit on key and phone, else the latest row, ErrFirstTransaction exactly when the phone has no rows, ErrOther only if the driver failed |
| TxManager.MongoTxManager.Conclude | svc-transactions/external/mongodb/tx_manager.go:26-39 | commits what a successful callback inserted; a refused insert is recorded as exactly the index or conflict that refused it; the callback is run again or answered ErrOther only if an operation failed |
| TxManager.MongoTxManager.StartSession | svc-transactions/external/mongodb/tx_manager.go:19-23 | a session, or the driver's error |
| ServiceSteps.PassOutcome | svc-transactions/internal/transactions/service.go:131-162 | where a pass through a retry loop leaves the call for each error of its transaction |
| ServiceSteps.RecordOutcome | svc-transactions/internal/transactions/service.go:662-681 | the same for the loop that records the failure |
| Service.TransactionService.ReadLatest | svc-transactions/internal/transactions/service.go:91-94 | a read inside a callback is one step of the call |
| Service.TransactionService.CheckEarly | svc-transactions/internal/transactions/service.go:43-60 | the three ways EarlyCheck sends a call on |
| Service.TransactionService.DepositCallback | svc-transactions/internal/transactions/service.go:90-129 | the closure leaves the row it built, its id and the new balance in the captured variables, consistent with the state it read |
| Service.TransactionService.DepositTransaction | svc-transactions/internal/transactions/service.go:90-129 | however often the closure is run again, the captured variables are those of the run that committed |
| Service.TransactionService.DepositLoop | svc-transactions/internal/transactions/service.go:88-217 | the retry loop, replay after a duplicate reference, the retry limit and the fresh answer |
| Service.TransactionService.CreateDepositTransaction | svc-transactions/internal/transactions/service.go:40-219 | every execution is a run whose answer is the value returned; successes carry the one row under the key, errors committed nothing, never two commits; ErrOther and ErrWalletNotFound only if the outside said so during this call; with no failure and no step of others, answer and collection are those of the decision table |
| Service.TransactionService.WithdrawalCallback | svc-transactions/internal/transactions/service.go:269-308 | as for the deposit closure |
| Service.TransactionService.WithdrawalTransaction | svc-transactions/internal/transactions/service.go:269-308 | as for the deposit |
| Service.TransactionService.WithdrawalLoop | svc-transactions/internal/transactions/service.go:268-346 | as for the deposit |
| Service.TransactionService.CreateWithdrawalTransaction | svc-transactions/internal/transactions/service.go:221-421 | as for the deposit |
| Service.TransactionService.TransferCallback | svc-transactions/internal/transactions/service.go:500-582 | both rows, from two separate reads with other calls in between |
| Service.TransactionService.TransferTransaction | svc-transactions/internal/transactions/service.go:500-582 | the captured sender row and balance are those of the run that committed |
| Service.TransactionService.FailureCallback | svc-transactions/internal/transactions/service.go:629-660 | the FAILED row, from the sender's latest row |
| Service.TransactionService.RecordFailure | svc-transactions/internal/transactions/service.go:628-682 | the second retry loop and its ways out |
| Service.TransactionService.SendTransfer | svc-transactions/internal/transactions/service.go:499-625 | the first retry loop and its ways out |
| Service.TransactionService.ReplayTransfer | svc-transactions/internal/transactions/service.go:589-607 | the answer from the stored row, ErrHalfTransferFail for a FAILED one |
| Service.TransactionService.ReceiverWallet | svc-transactions/internal/transactions/service.go:463-489 | the receiver's wallet from its history or from the wallet service; it fails only with what the driver or the wallet service said |
| Service.TransactionService.AskWallet | svc-transactions/internal/transactions/service.go:477-486 | the wallet service is asked for the phone that needs a wallet, and its answer is the step of the call |
| Service.TransactionService.CreateTransferTransaction | svc-transactions/internal/transactions/service.go:423-832 | as for the deposit |

## Left out

- HTTP decoding, routing, middleware and response writing: only the conditions the handlers put on requests are kept.
- Driver, BSON, projections and error-string matching: replaced by the database assumptions above; rows are read whole.
- Commits with unknown outcome, crashes and lost connections: the code has no handling to model.
- The wallet service is an arbitrary answer per lookup; `WalletModifyBalance` is never called by the service.
- Change streams, Kafka, the wallet consumer and notifications: only the POSTED filter over a phone's rows is kept.
- Creation times, random sleeps, logging, metrics and tracing.
- `associated_ref`: never populated by the code.
- Sequence numbers are unbounded; the int64 wrap after 2^63-1 rows on one phone is not modelled.
- Generated ids are arbitrary; that two documents never get the same ObjectID is not stated.
- Whether a replayed request carries the amount and operation of the first one: deliberately not compared by the code.
- Phone numbers are sequences of characters; the length test of the code counts bytes, which decides the same inputs because every character
  must be a digit.
- Closures as values: each closure is a method, and WithTransaction is one method per closure.
- Termination of the driver's own retries within its time limit is a bound chosen at the start, not a clock.
