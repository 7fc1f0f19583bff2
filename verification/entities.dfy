/** The ledger's persistent entities: accounts and the pending-transaction
    log written by the two-phase-commit operations. Monetary amounts are
    exact decimals in the services, modelled as integers in the smallest
    currency unit. */
module Entities {
  import opened Results

  type AccountId = int
  type TxId = int
  type Amount = int

  /** An account row. The owner fields are nullable in the service and only
      checked for presence when the account is created. */
  datatype Account = Account(
    name: Option<string>,
    email: Option<string>,
    phoneNumber: Option<string>,
    password: Option<string>,
    balance: Amount)

  /** Which side of a transfer a pending record belongs to. */
  datatype Kind = WithdrawBranch | DepositBranch

  /** The status string of a pending record, as a closed enumeration. */
  datatype Status = Pending | Committed | Aborted

  /** A row of the pending-transaction log, keyed by `transactionId`. */
  datatype PendingTransaction = PendingTransaction(
    transactionId: TxId,
    accountId: AccountId,
    amount: Amount,
    kind: Kind,
    status: Status)

  /** The change a commit of `p` applies to its account's balance. */
  function Delta(p: PendingTransaction): int
  {
    match p.kind
    case WithdrawBranch => -p.amount
    case DepositBranch => p.amount
  }

  /** The only status changes commit and rollback may make: none, or out of
      PENDING. */
  predicate Advances(before: Status, after: Status)
  {
    before == after || before == Pending
  }
}
