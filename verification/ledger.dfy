/** The account service's ledger: account balances, the email index used
    for duplicate checks, and the pending-transaction log of the two-phase
    commit. Every operation is a guarded read-modify-write; a failing one
    returns `Err` and no new state, which is how the model renders the
    service's transactional rollback: the ledger keeps the state it had. */
module Ledger {
  import opened Results
  import opened Entities
  import opened Balances

  datatype State = State(
    accounts: map<AccountId, Account>,
    byEmail: map<string, AccountId>,
    pending: map<TxId, PendingTransaction>,
    nextId: AccountId)

  /** Why an amount was refused; both reasons raise the same exception. */
  datatype AmountProblem = NotPositive | InsufficientBalance

  datatype LedgerError =
    | AccountNotFound(accountId: AccountId)  // raised by the account lookup of the direct operations
    | DuplicateEmail
    | InsufficientData
    | InvalidAmount(problem: AmountProblem)
    | AccountMissing                         // the untyped "Account not found" of the two-phase operations

  /** A successful operation: the new state and what the call returns. */
  datatype Step<+T> = Step(state: State, value: T)

  /** What the ledger keeps true: ids come from the counter, the email index
      and the accounts agree in both directions, and every pending record
      is stored under its own transaction id. */
  ghost predicate Valid(st: State)
  {
    && 0 <= st.nextId
    && (forall id :: id in st.accounts ==> 0 <= id < st.nextId)
    && (forall e :: e in st.byEmail ==> st.byEmail[e] in st.accounts && st.accounts[st.byEmail[e]].email == Some(e))
    && (forall id :: id in st.accounts && st.accounts[id].email.Some? ==>
          st.accounts[id].email.value in st.byEmail && st.byEmail[st.accounts[id].email.value] == id)
    && (forall t :: t in st.pending ==> st.pending[t].transactionId == t)
  }

  /** No account is overdrawn. */
  ghost predicate Solvent(st: State)
  {
    forall id :: id in st.accounts ==> st.accounts[id].balance >= 0
  }

  /** All money held by the ledger. */
  function Total(st: State): int
  {
    TotalBelow(st.accounts, st.nextId)
  }

  predicate IsPending(st: State, t: TxId)
  {
    t in st.pending && st.pending[t].status == Pending
  }

  /** `after` is `before` with `rec` saved under its transaction id,
      replacing whatever was stored there, and nothing else changed. */
  ghost predicate Saved(before: map<TxId, PendingTransaction>, after: map<TxId, PendingTransaction>, rec: PendingTransaction)
  {
    && after.Keys == before.Keys + {rec.transactionId}
    && after[rec.transactionId] == rec
    && forall t :: t in before && t != rec.transactionId ==> after[t] == before[t]
  }

  /** `after` is `before` with only the status of record `t` set to `s`. */
  ghost predicate Restamped(before: map<TxId, PendingTransaction>, after: map<TxId, PendingTransaction>, t: TxId, s: Status)
  {
    && t in before
    && after.Keys == before.Keys
    && after[t] == before[t].(status := s)
    && forall u :: u in before && u != t ==> after[u] == before[u]
  }

  /** No pending record leaves a terminal status or disappears. */
  ghost predicate StatusesAdvance(before: map<TxId, PendingTransaction>, after: map<TxId, PendingTransaction>)
  {
    forall t :: t in before ==> t in after && Advances(before[t].status, after[t].status)
  }

  /** Only the pending log may differ. */
  ghost predicate SameAccounts(before: State, after: State)
  {
    after.accounts == before.accounts && after.byEmail == before.byEmail && after.nextId == before.nextId
  }

  /** Only the balance of `id` differs, by `delta`. */
  ghost predicate Moved(before: State, after: State, id: AccountId, delta: int)
  {
    && BalanceMoved(before.accounts, after.accounts, id, delta)
    && after.byEmail == before.byEmail
    && after.pending == before.pending
    && after.nextId == before.nextId
  }

  // ---------------------------------------------------------------------
  // Validation helpers

  /** Looks an account up, raising AccountNotFound for an unknown id. */
  function FindAccountById(st: State, id: AccountId): (r: Result<Account, LedgerError>)
    ensures r.Ok? <==> id in st.accounts
    ensures r.Ok? ==> r.value == st.accounts[id]
    ensures r.Err? ==> r.error == AccountNotFound(id)
  {
    if id in st.accounts then Ok(st.accounts[id]) else Err(AccountNotFound(id))
  }

  /** Refuses an amount that is not strictly positive. */
  function ValidateAmount(amount: Amount): (r: Option<LedgerError>)
    ensures r.None? <==> amount > 0
    ensures r.Some? ==> r.value == InvalidAmount(NotPositive)
  {
    if amount <= 0 then Some(InvalidAmount(NotPositive)) else None
  }

  /** Refuses a withdrawal larger than the balance. */
  function ValidateSufficientBalance(account: Account, amount: Amount): (r: Option<LedgerError>)
    ensures r.None? <==> amount <= account.balance
    ensures r.Some? ==> r.value == InvalidAmount(InsufficientBalance)
  {
    if account.balance < amount then Some(InvalidAmount(InsufficientBalance)) else None
  }

  /** True when every owner field is present. */
  predicate Complete(account: Account)
  {
    account.name.Some? && account.email.Some? && account.phoneNumber.Some? && account.password.Some?
  }

  /** True when the email of `account` already belongs to a stored account.
      Every stored account has an email, so an absent one never matches. */
  predicate EmailTaken(st: State, account: Account)
  {
    account.email.Some? && account.email.value in st.byEmail
  }

  /** The duplicate check comes first, then the presence of every field. */
  function ValidateAccountCreation(st: State, account: Account): (r: Option<LedgerError>)
    ensures EmailTaken(st, account) ==> r == Some(DuplicateEmail)
    ensures !EmailTaken(st, account) && !Complete(account) ==> r == Some(InsufficientData)
    ensures r.None? <==> !EmailTaken(st, account) && Complete(account)
  {
    if EmailTaken(st, account) then Some(DuplicateEmail)
    else if !Complete(account) then Some(InsufficientData)
    else None
  }

  // ---------------------------------------------------------------------
  // Direct operations

  /** Stores a new account with a zero balance under the next id, whatever
      balance the request carried, and returns that id. */
  function CreateAccount(st: State, account: Account): (r: Result<Step<AccountId>, LedgerError>)
    ensures EmailTaken(st, account) ==> r == Err(DuplicateEmail)
    ensures !EmailTaken(st, account) && !Complete(account) ==> r == Err(InsufficientData)
    ensures r.Ok? <==> !EmailTaken(st, account) && Complete(account)
    ensures r.Ok? ==>
      var id, after := r.value.value, r.value.state;
      && after.accounts.Keys == st.accounts.Keys + {id}
      && after.accounts[id] == account.(balance := 0)
      && (forall k :: k in st.accounts && k != id ==> after.accounts[k] == st.accounts[k])
      && after.byEmail == st.byEmail[account.email.value := id]
      && after.pending == st.pending
      && (Valid(st) ==> id !in st.accounts && Valid(after) && Total(after) == Total(st))
  {
    match ValidateAccountCreation(st, account)
    case Some(e) => Err(e)
    case None =>
      var id := st.nextId;
      var stored := account.(balance := 0);
      var after := st.(accounts := st.accounts[id := stored],
                       byEmail := st.byEmail[account.email.value := id],
                       nextId := id + 1);
      assert Valid(st) ==> TotalBelow(after.accounts, id) == TotalBelow(st.accounts, id) by {
        if Valid(st) { AgreeBelow(st.accounts, after.accounts, id); }
      }
      Ok(Step(after, id))
  }

  /** Adds `amount` to an existing account. The account is looked up before
      the amount is checked. */
  function Deposit(st: State, id: AccountId, amount: Amount): (r: Result<Step<Account>, LedgerError>)
    ensures id !in st.accounts ==> r == Err(AccountNotFound(id))
    ensures id in st.accounts && amount <= 0 ==> r == Err(InvalidAmount(NotPositive))
    ensures r.Ok? <==> id in st.accounts && amount > 0
    ensures r.Ok? ==> Moved(st, r.value.state, id, amount) && r.value.value == r.value.state.accounts[id]
    ensures r.Ok? && Valid(st) ==> Valid(r.value.state)
  {
    match FindAccountById(st, id)
    case Err(e) => Err(e)
    case Ok(account) =>
      match ValidateAmount(amount)
      case Some(e) => Err(e)
      case None =>
        var updated := account.(balance := account.balance + amount);
        Ok(Step(st.(accounts := st.accounts[id := updated]), updated))
  }

  /** Subtracts `amount` from an existing account that holds at least that
      much. Lookup, then amount, then balance are checked in that order. */
  function Withdraw(st: State, id: AccountId, amount: Amount): (r: Result<Step<Account>, LedgerError>)
    ensures id !in st.accounts ==> r == Err(AccountNotFound(id))
    ensures id in st.accounts && amount <= 0 ==> r == Err(InvalidAmount(NotPositive))
    ensures id in st.accounts && amount > 0 && st.accounts[id].balance < amount ==>
              r == Err(InvalidAmount(InsufficientBalance))
    ensures r.Ok? <==> id in st.accounts && 0 < amount <= st.accounts[id].balance
    ensures r.Ok? ==> Moved(st, r.value.state, id, -amount) && r.value.value == r.value.state.accounts[id]
    ensures r.Ok? ==> r.value.value.balance >= 0
    ensures r.Ok? && Valid(st) ==> Valid(r.value.state)
  {
    match FindAccountById(st, id)
    case Err(e) => Err(e)
    case Ok(account) =>
      match ValidateAmount(amount)
      case Some(e) => Err(e)
      case None =>
        match ValidateSufficientBalance(account, amount)
        case Some(e) => Err(e)
        case None =>
          var updated := account.(balance := account.balance - amount);
          Ok(Step(st.(accounts := st.accounts[id := updated]), updated))
  }

  /** The balance of an existing account. */
  function CheckBalance(st: State, id: AccountId): (r: Result<Amount, LedgerError>)
    ensures r.Ok? <==> id in st.accounts
    ensures r.Err? ==> r.error == AccountNotFound(id)
    ensures r.Ok? ==> r.value == BalanceOf(st.accounts, id)
  {
    match FindAccountById(st, id)
    case Err(e) => Err(e)
    case Ok(account) => Ok(account.balance)
  }

  // ---------------------------------------------------------------------
  // Two-phase-commit operations

  /** Phase 1 of a debit. Checks the balance but reserves nothing and does
      not validate the amount; on success saves a PENDING withdrawal under
      `txId`, replacing any record already stored there. */
  function PrepareWithdraw(st: State, txId: TxId, id: AccountId, amount: Amount): (r: Result<Step<bool>, LedgerError>)
    ensures r.Err? <==> id !in st.accounts
    ensures r.Err? ==> r.error == AccountMissing
    ensures r.Ok? ==> SameAccounts(st, r.value.state)
    ensures r.Ok? ==> (r.value.value <==> st.accounts[id].balance >= amount)
    ensures r.Ok? && r.value.value ==>
              Saved(st.pending, r.value.state.pending, PendingTransaction(txId, id, amount, WithdrawBranch, Pending))
    ensures r.Ok? && !r.value.value ==> r.value.state == st
    ensures r.Ok? && Valid(st) ==> Valid(r.value.state)
  {
    if id !in st.accounts then Err(AccountMissing)
    else if st.accounts[id].balance >= amount then
      var rec := PendingTransaction(txId, id, amount, WithdrawBranch, Pending);
      Ok(Step(st.(pending := st.pending[txId := rec]), true))
    else Ok(Step(st, false))
  }

  /** Phase 1 of a credit. Validates nothing (neither the account nor the
      amount), always answers true and saves a PENDING deposit under `txId`,
      replacing any record already stored there. */
  function PrepareDeposit(st: State, txId: TxId, id: AccountId, amount: Amount): (r: Step<bool>)
    ensures r.value
    ensures SameAccounts(st, r.state)
    ensures Saved(st.pending, r.state.pending, PendingTransaction(txId, id, amount, DepositBranch, Pending))
    ensures Valid(st) ==> Valid(r.state)
  {
    var rec := PendingTransaction(txId, id, amount, DepositBranch, Pending);
    Step(st.(pending := st.pending[txId := rec]), true)
  }

  /** Phase 2 commit. Acts only on a PENDING record: applies its amount to
      its account with no balance check, and marks it COMMITTED. Unknown,
      COMMITTED and ABORTED ids are left alone. A record whose account does
      not exist raises AccountMissing. */
  function CommitTransaction(st: State, txId: TxId): (r: Result<State, LedgerError>)
    ensures !IsPending(st, txId) ==> r == Ok(st)
    ensures IsPending(st, txId) && st.pending[txId].accountId !in st.accounts ==> r == Err(AccountMissing)
    ensures r.Err? ==> r.error == AccountMissing
    ensures IsPending(st, txId) && st.pending[txId].accountId in st.accounts ==>
              && r.Ok?
              && BalanceMoved(st.accounts, r.value.accounts, st.pending[txId].accountId, Delta(st.pending[txId]))
              && Restamped(st.pending, r.value.pending, txId, Committed)
              && r.value.byEmail == st.byEmail && r.value.nextId == st.nextId
    ensures r.Ok? ==> StatusesAdvance(st.pending, r.value.pending)
    ensures r.Ok? && Valid(st) ==> Valid(r.value)
  {
    if !IsPending(st, txId) then Ok(st)
    else
      var rec := st.pending[txId];
      if rec.accountId !in st.accounts then Err(AccountMissing)
      else
        var account := st.accounts[rec.accountId];
        var updated :=
          if rec.kind == WithdrawBranch then account.(balance := account.balance - rec.amount)
          else account.(balance := account.balance + rec.amount);
        Ok(st.(accounts := st.accounts[rec.accountId := updated],
               pending := st.pending[txId := rec.(status := Committed)]))
  }

  /** Phase 2 rollback. Turns a PENDING record ABORTED and leaves every
      other record and every balance alone; it never fails. */
  function RollbackTransaction(st: State, txId: TxId): (r: State)
    ensures SameAccounts(st, r)
    ensures !IsPending(st, txId) ==> r == st
    ensures IsPending(st, txId) ==> Restamped(st.pending, r.pending, txId, Aborted)
    ensures StatusesAdvance(st.pending, r.pending)
    ensures Valid(st) ==> Valid(r)
  {
    if IsPending(st, txId) then st.(pending := st.pending[txId := st.pending[txId].(status := Aborted)])
    else st
  }
}
