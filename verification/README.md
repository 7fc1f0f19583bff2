# bank-app: the account ledger and the two-phase transfer

This project is a Dafny model of the money-moving core of a small banking
system built from three services. It covers two of them.

- **The account service** keeps the ledger. It stores accounts and their
  balances. It offers direct deposits, withdrawals and balance queries. It
  also acts as the participant of a two-phase commit: it can prepare a
  withdrawal or a deposit as a PENDING record, then commit or roll back
  that record.
- **The transaction service** coordinates transfers. `transferMoney`
  generates two branch ids and asks the account service to prepare the
  withdrawal and then the deposit. If both say yes, it commits both
  branches and stores a `Transaction` record. Otherwise it rolls both
  branches back and raises an exception. Any exception in the process
  sends it through a catch block that rolls both branches back again.

The model follows what the code does, not an idealised two-phase commit:

- a prepare reserves nothing;
- a commit checks no balance;
- a deposit prepare validates nothing;
- preparing under an id that is already in use overwrites the stored record;
- any failure after the withdrawal commit leaves the debit in place,
  including a transfer to an account that does not exist, which fails
  with no fault at all.

Each of these is stated and proved below.

Modules:

| file | module | models |
|---|---|---|
| results.dfy | `Results` | `Option` and `Result` |
| entities.dfy | `Entities` | accounts, pending records, their kinds and statuses |
| balances.dfy | `Balances` | balance lookup, the sum of all balances, and how one balance change moves it |
| ledger.dfy | `Ledger` | the account service, as pure transitions over a ledger `State` |
| ledger_properties.dfy | `LedgerProperties` | inverses, conservation, and the idempotence and ordering of commit and rollback; overdraft by overlapping prepares |
| coordinator.dfy | `Coordinator` | the transaction service: `transferMoney` under a fault plan, the history query, and the branch id bound |
| coordinator_properties.dfy | `CoordinatorProperties` | the commit decision, call order, clean transfers, failure paths, and the history after a transfer |

How the model represents the system:

- **Failed operations.** Every ledger operation returns either `Err` or a
  new state. A failing call leaves the ledger as it was, which is what the
  service's transactional rollback guarantees.
- **Remote calls.** The six remote calls of a transfer become calls into the
  ledger model. A fault plan, indexed by the call's position in the
  sequence, can make a call throw:
  - a *lost request* never reaches the ledger;
  - a *lost reply* throws after the ledger has applied the call.

  A ledger error also reaches the coordinator as an exception.
- **Inputs in place of randomness and the clock.** The two generated branch
  ids and the clock reading are parameters of `TransferMoney`.
- **Amounts.** Amounts are unbounded integers.

## Model

| member | source | states |
|---|---|---|
| Ledger.FindAccountById | account-service/account-service/src/main/java/com/example/account/service/AccountService.java:101-104 | Finds exactly the stored accounts; an unknown id raises AccountNotFound for that id |
| Ledger.ValidateAmount | account-service/account-service/src/main/java/com/example/account/service/AccountService.java:89-93 | Accepts exactly the strictly positive amounts; zero and negatives raise InvalidAmount |
| Ledger.ValidateSufficientBalance | account-service/account-service/src/main/java/com/example/account/service/AccountService.java:95-99 | Accepts exactly the amounts not above the balance; otherwise raises InvalidAmount |
| Ledger.ValidateAccountCreation | account-service/account-service/src/main/java/com/example/account/service/AccountService.java:80-87 | A taken email is refused as DuplicateEmail before missing fields are looked at; otherwise a missing field is InsufficientData; it passes iff the email is free and all four fields are present |
| Ledger.CreateAccount | account-service/account-service/src/main/java/com/example/account/service/AccountService.java:41-45 | Creation succeeds iff validation passes, with the same error order; the new account gets balance zero whatever balance was supplied; every other account and the pending log are untouched; the email index gains the new email; starting from a ledger that satisfies the invariant, the new id is fresh, the invariant holds afterwards and the money total does not change |
| Ledger.Deposit | account-service/account-service/src/main/java/com/example/account/service/AccountService.java:49-60 | An unknown account is reported before a bad amount; a deposit succeeds iff the account exists and the amount is positive; exactly that account's balance rises by the amount, nothing else changes, and the saved account is returned; the invariant is preserved |
| Ledger.Withdraw | account-service/account-service/src/main/java/com/example/account/service/AccountService.java:64-72 | Errors come in the order unknown account, non-positive amount, insufficient balance; a withdrawal succeeds iff 0 < amount <= balance; exactly that balance falls by the amount, and the result is never negative; the invariant is preserved |
| Ledger.CheckBalance | account-service/account-service/src/main/java/com/example/account/service/AccountService.java:74-78 | Returns the stored balance iff the account exists, and AccountNotFound otherwise |
| Ledger.PrepareWithdraw | account-service/account-service/src/main/java/com/example/account/service/AccountService.java:122-138 | Raises AccountMissing iff the account is unknown; answers yes iff balance >= amount, with no check on the amount's sign; a yes saves a PENDING withdrawal record under the id, replacing any record stored there; a no changes nothing; balances never change |
| Ledger.PrepareDeposit | account-service/account-service/src/main/java/com/example/account/service/AccountService.java:140-150 | Always answers yes, for any account id and amount; saves a PENDING deposit record under the id, replacing any record stored there; balances never change |
| Ledger.CommitTransaction | account-service/account-service/src/main/java/com/example/account/service/AccountService.java:152-173 | Only a PENDING record has any effect. Its account moves by the signed amount with no balance check, and the record becomes COMMITTED; a missing account raises AccountMissing. An unknown, COMMITTED or ABORTED id is a no-op; no status ever moves back to PENDING |
| Ledger.RollbackTransaction | account-service/account-service/src/main/java/com/example/account/service/AccountService.java:175-182 | Marks a PENDING record ABORTED and otherwise changes nothing; never touches balances; never fails |
| LedgerProperties.DepositThenWithdrawRestores | account-service/account-service/src/main/java/com/example/account/service/AccountService.java:49-72 | A withdrawal of what was just deposited restores the exact earlier ledger, for any account that is not overdrawn |
| LedgerProperties.WithdrawThenDepositRestores | account-service/account-service/src/main/java/com/example/account/service/AccountService.java:49-72 | A deposit of what was just withdrawn restores the exact earlier ledger |
| LedgerProperties.DirectOperationsMoveTotal | account-service/account-service/src/main/java/com/example/account/service/AccountService.java:49-72 | A deposit adds its amount to the ledger's total money and a withdrawal removes it |
| LedgerProperties.DirectOperationsKeepSolvent | account-service/account-service/src/main/java/com/example/account/service/AccountService.java:41-72 | Creation, deposit and withdrawal never drive an account below zero |
| LedgerProperties.CommitIdempotent | account-service/account-service/src/main/java/com/example/account/service/AccountService.java:152-173 | A second commit of the same id changes nothing |
| LedgerProperties.RollbackIdempotent | account-service/account-service/src/main/java/com/example/account/service/AccountService.java:175-182 | A second rollback of the same id changes nothing |
| LedgerProperties.CommitAfterRollbackIsNoOp | account-service/account-service/src/main/java/com/example/account/service/AccountService.java:152-182 | A commit after a rollback of the same id changes nothing |
| LedgerProperties.RollbackAfterCommitIsNoOp | account-service/account-service/src/main/java/com/example/account/service/AccountService.java:152-182 | A rollback after a commit does not undo it |
| LedgerProperties.CommitMovesTotal | account-service/account-service/src/main/java/com/example/account/service/AccountService.java:152-173 | Committing a pending record changes the total money by the record's signed amount |
| LedgerProperties.OverlappingPreparesOverdraw | account-service/account-service/src/main/java/com/example/account/service/AccountService.java:122-173 | Two withdrawals prepared against one account, each within its balance, are both accepted, and committing both subtracts both amounts, which can go below zero |
| LedgerProperties.OverdraftExample | account-service/account-service/src/main/java/com/example/account/service/AccountService.java:122-173 | Balance 100, two prepared withdrawals of 60: both are accepted and the account ends at -20 |
| LedgerProperties.RepreparedIdCommitsAgain | account-service/account-service/src/main/java/com/example/account/service/AccountService.java:140-173 | Re-preparing a committed id resets it to PENDING, and the next commit credits the amount a second time |
| LedgerProperties.DepositToUnknownAccountFailsAtCommit | account-service/account-service/src/main/java/com/example/account/service/AccountService.java:140-173 | A deposit to a non-existent account is prepared and stays PENDING; only its commit fails |
| Coordinator.Serve | account-service/account-service/src/main/java/com/example/account/controller/AccountController.java:56-90 | Each endpoint reaches its ledger operation: the two prepares reach their own prepare, while both commit endpoints reach the same commit and both rollback endpoints the same rollback, whatever kind of record is stored under the id |
| Coordinator.Rpc | transaction-service/transaction-service/src/main/java/com/example/transaction/service/TransactionService.java:39-45 | A call is appended to the call log; it throws iff the plan faults it or the ledger refuses; a lost request or a refusal leaves the ledger unchanged; otherwise the ledger applies the call |
| Coordinator.Recover | transaction-service/transaction-service/src/main/java/com/example/transaction/service/TransactionService.java:56-61 | The catch block keeps the history and raises; it issues the withdrawal rollback and then the deposit rollback unless the first throws; the wrapped exception results iff neither rollback throws; balances never change |
| Coordinator.Prepare | transaction-service/transaction-service/src/main/java/com/example/transaction/service/TransactionService.java:39-40 | The withdrawal prepare is issued first, and the deposit prepare second, whatever the first answered; prepares change no balance |
| Coordinator.CommitPhase | transaction-service/transaction-service/src/main/java/com/example/transaction/service/TransactionService.java:42-49 | The withdrawal commit is the first call of the phase; success records exactly the new transfer after exactly the two commits; any failure keeps the history and rolls the withdrawal back; the wrapped failure ends with both rollbacks |
| Coordinator.RefusePhase | transaction-service/transaction-service/src/main/java/com/example/transaction/service/TransactionService.java:50-55 | A refusal issues only rollbacks, keeps the history, changes no balance, and always fails; the wrapped failure ends with both rollbacks |
| Coordinator.TransferMoney | transaction-service/transaction-service/src/main/java/com/example/transaction/service/TransactionService.java:31-63 | A failed transfer stores nothing and always rolls back the withdrawal; the wrapped failure ends with both rollbacks; the ledger invariant is preserved |
| Coordinator.TransactionHistory | transaction-service/transaction-service/src/main/java/com/example/transaction/service/TransactionService.java:65-67 | Returns exactly the stored transfers in which the account is the source or the target, each as many times as it is stored |
| Coordinator.GenerateTransactionId | transaction-service/transaction-service/src/main/java/com/example/transaction/service/TransactionService.java:26-29 | Clearing the sign bit of a signed 64-bit value gives an id in [0, 2^63-1]; non-negative values are kept, negative ones shifted up by 2^63 |
| CoordinatorProperties.CommitIffBothPrepared | transaction-service/transaction-service/src/main/java/com/example/transaction/service/TransactionService.java:39-55 | A withdrawal commit is issued iff both prepares returned and both said yes |
| CoordinatorProperties.CallOrder | transaction-service/transaction-service/src/main/java/com/example/transaction/service/TransactionService.java:39-49 | The withdrawal prepare is always the first call, and the deposit prepare the second when the first returned; a recorded transfer made exactly the four calls prepare, prepare, commit, commit, and appended exactly one record |
| CoordinatorProperties.SuccessNeedsEveryCall | transaction-service/transaction-service/src/main/java/com/example/transaction/service/TransactionService.java:39-49 | A recorded transfer had both prepares say yes and none of its four calls fail |
| CoordinatorProperties.RefusalIsWrapped | transaction-service/transaction-service/src/main/java/com/example/transaction/service/TransactionService.java:50-61 | With no faults, a refused prepare yields each rollback twice (the refusal branch's, then the catch block's), the wrapped exception, no record and no balance change |
| CoordinatorProperties.RefusalOverHttp | transaction-service/transaction-service/src/main/java/com/example/transaction/service/TransactionService.java:39-61 | When a refused withdrawal prepare reaches the coordinator as an exception, the deposit prepare is never issued, each branch is rolled back once, the failure is wrapped, and no balance moves |
| CoordinatorProperties.AbortBeforeCommitMovesNothing | transaction-service/transaction-service/src/main/java/com/example/transaction/service/TransactionService.java:37-61 | A transfer that did not get two yes answers changes no balance |
| CoordinatorProperties.CleanRunMovesMoney | account-service/account-service/src/main/java/com/example/account/service/AccountService.java:122-173 | With distinct branch ids, prepare-prepare-commit-commit succeeds iff the source exists and covers the amount and the target exists; it debits the source, credits the target, leaves every other account alone, and conserves the total |
| CoordinatorProperties.UnfaultedTransferIsCleanRun | transaction-service/transaction-service/src/main/java/com/example/transaction/service/TransactionService.java:31-63 | When none of the four calls fails, the transfer succeeds iff the plain ledger sequence does, and ends in the same ledger |
| CoordinatorProperties.TransferConservesMoney | transaction-service/transaction-service/src/main/java/com/example/transaction/service/TransactionService.java:31-63 | A recorded transfer with distinct branch ids moves the amount from source to target, leaves every other account alone, and conserves the total, even for an amount that is not positive |
| CoordinatorProperties.TransferSucceedsIff | transaction-service/transaction-service/src/main/java/com/example/transaction/service/TransactionService.java:31-63 | Without faults and with distinct branch ids, a transfer is recorded iff the source exists and covers the amount and the target exists; the amount's sign is never checked |
| CoordinatorProperties.DebitStandsWhenDepositCommitLost | transaction-service/transaction-service/src/main/java/com/example/transaction/service/TransactionService.java:44-61 | If the deposit commit is lost after the withdrawal commit, the catch block's rollback cannot undo it: the debit stands, the target is never credited, no record is stored, and the total shrinks by the amount |
| CoordinatorProperties.TransferToUnknownAccountKeepsDebit | transaction-service/transaction-service/src/main/java/com/example/transaction/service/TransactionService.java:39-61 | With no fault at all, a transfer to an account that does not exist is prepared, debits the source at the withdrawal commit, fails at the deposit commit, and ends in the wrapped failure with no record and the total shrunk by the amount |
| CoordinatorProperties.DebitStandsWhenCommitPhaseFails | transaction-service/transaction-service/src/main/java/com/example/transaction/service/TransactionService.java:42-61 | With distinct ids and accounts, once both prepares said yes and the withdrawal commit went through, any failure of the transfer, whatever threw, leaves the source debited by the amount |
| CoordinatorProperties.CollidingIdsCreditWithoutDebit | transaction-service/transaction-service/src/main/java/com/example/transaction/service/TransactionService.java:34-49 | If both generated ids collide, the deposit prepare overwrites the withdrawal record: the transfer is recorded, but the target is credited and the source is never debited |
| CoordinatorProperties.TransferScenario | transaction-service/transaction-service/src/main/java/com/example/transaction/service/TransactionService.java:31-49 | 200 and 50, transfer 75: recorded, and both end at 125 |
| CoordinatorProperties.RefusedTransferScenario | transaction-service/transaction-service/src/main/java/com/example/transaction/service/TransactionService.java:50-61 | 30 and 0, transfer 75: refused, wrapped, and no balance moves |
| CoordinatorProperties.HistoryAppend | transaction-service/transaction-service/src/main/java/com/example/transaction/service/TransactionService.java:65-67 | Storing one more transfer extends an account's history by exactly that transfer when it involves the account, and leaves it unchanged otherwise |
| CoordinatorProperties.HistoryAfterTransfer | transaction-service/transaction-service/src/main/java/com/example/transaction/service/TransactionService.java:31-67 | After a transfer, an account's history gains the new record iff the transfer was recorded and involves the account; otherwise it is unchanged |

## Left out

- Notifications are left out because they are calls into another service.
  Deposit, withdraw and commit each send one. Deposit swallows any failure.
  Withdraw and commit do not catch a failing notification, so it rolls the
  whole operation back. The model behaves as if the notification service
  always accepts. A commit failed this way is covered by a lost-request
  fault in the coordinator.
- Circuit-breaker fallbacks are framework behaviour, so they are left out.
  The deposit and withdrawal fallbacks wrap the failure in a new
  RuntimeException, so a caller going through the proxy sees that in place
  of AccountNotFound or InvalidAmount. The balance fallback can answer zero
  in place of an error.
- The HTTP controllers, the web client, token validation and authentication
  are left out. The coordinator's client returns the prepare verdict as a
  boolean. In the deployed system, a refusal is sent back as a 400 ABORT
  (AccountController.java lines 59 and 77), which makes the client's
  `retrieve()` throw (AccountServiceClient.java lines 28 and 60). The
  transfer then skips the deposit prepare and rolls each branch back once.
  A lost reply on the refused call reproduces that path, and
  `RefusalOverHttp` states it for a refused withdrawal prepare.
  `RefusalIsWrapped` and `RefusedTransferScenario` describe the path where
  the refusal arrives as a plain `false`.
- Concurrency is left out. Overdraft by overlapping prepares is shown as a
  sequential interleaving of the four calls.
- Decimal scale and precision are left out. Amounts are unbounded integers.
- Random UUIDs and the clock are inputs of the model, not computed by it.
  `GenerateTransactionId` models only the sign-bit masking.
- A failing save of the transfer record after both commits is left out.
- New account ids are modelled as a counter. The account entity's id
  generator is not part of this model, and neither is a request that
  carries its own id.
- An absent email is treated as never matching a stored one. Creation
  refuses an account without an email.
- The repository's `findBy…OrTargetAccountId` query is assumed to return
  rows in storage order. `TransactionHistory` states membership and
  multiplicity, and `HistoryAfterTransfer` states the effect of a transfer
  given that order.
- Where a textbook two-phase commit would do more than this code, the model
  follows the code:
  - a prepare does not reserve the funds;
  - a transfer does not validate the amount;
  - a deposit prepare does not check the account;
  - a commit can overdraw.
