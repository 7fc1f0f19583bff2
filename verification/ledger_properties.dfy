/** Properties relating several ledger operations: inverses, the state
    invariant, conservation of money, the idempotence of commit and
    rollback, and the consequences of a prepare step that reserves
    nothing. */
module LedgerProperties {
  import opened Results
  import opened Entities
  import opened Balances
  import opened Ledger

  // ---------------------------------------------------------------------
  // Direct operations

  /** A withdrawal of what was just deposited restores the ledger exactly,
      provided the account was not already overdrawn (a commit can leave it
      so, and then the withdrawal's balance check refuses). */
  lemma DepositThenWithdrawRestores(st: State, id: AccountId, amount: Amount)
    requires Deposit(st, id, amount).Ok? && st.accounts[id].balance >= 0
    ensures Withdraw(Deposit(st, id, amount).value.state, id, amount) == Ok(Step(st, st.accounts[id]))
  {
    var mid := Deposit(st, id, amount).value.state;
    var restored := mid.accounts[id].(balance := mid.accounts[id].balance - amount);
    assert restored == st.accounts[id];
    assert mid.accounts[id := restored] == st.accounts;
    assert mid.(accounts := st.accounts) == st;
  }

  /** A deposit of what was just withdrawn restores the ledger exactly. */
  lemma WithdrawThenDepositRestores(st: State, id: AccountId, amount: Amount)
    requires Withdraw(st, id, amount).Ok?
    ensures Deposit(Withdraw(st, id, amount).value.state, id, amount) == Ok(Step(st, st.accounts[id]))
  {
    var mid := Withdraw(st, id, amount).value.state;
    var restored := mid.accounts[id].(balance := mid.accounts[id].balance + amount);
    assert restored == st.accounts[id];
    assert mid.accounts[id := restored] == st.accounts;
    assert mid.(accounts := st.accounts) == st;
  }

  /** A deposit adds its amount to the money held by the ledger and a
      withdrawal removes it. */
  lemma DirectOperationsMoveTotal(st: State, id: AccountId, amount: Amount)
    requires Valid(st)
    ensures Deposit(st, id, amount).Ok? ==> Total(Deposit(st, id, amount).value.state) == Total(st) + amount
    ensures Withdraw(st, id, amount).Ok? ==> Total(Withdraw(st, id, amount).value.state) == Total(st) - amount
  {
    if Deposit(st, id, amount).Ok? {
      TotalMoved(st.accounts, Deposit(st, id, amount).value.state.accounts, id, amount, st.nextId);
    }
    if Withdraw(st, id, amount).Ok? {
      TotalMoved(st.accounts, Withdraw(st, id, amount).value.state.accounts, id, -amount, st.nextId);
    }
  }

  /** The direct operations never overdraw an account. */
  lemma DirectOperationsKeepSolvent(st: State, id: AccountId, amount: Amount, account: Account)
    requires Solvent(st)
    ensures Deposit(st, id, amount).Ok? ==> Solvent(Deposit(st, id, amount).value.state)
    ensures Withdraw(st, id, amount).Ok? ==> Solvent(Withdraw(st, id, amount).value.state)
    ensures CreateAccount(st, account).Ok? ==> Solvent(CreateAccount(st, account).value.state)
  {
  }

  // ---------------------------------------------------------------------
  // Commit and rollback

  /** Committing twice is committing once. */
  lemma CommitIdempotent(st: State, txId: TxId)
    requires CommitTransaction(st, txId).Ok?
    ensures CommitTransaction(CommitTransaction(st, txId).value, txId) == CommitTransaction(st, txId)
  {
  }

  /** Rolling back twice is rolling back once. */
  lemma RollbackIdempotent(st: State, txId: TxId)
    ensures RollbackTransaction(RollbackTransaction(st, txId), txId) == RollbackTransaction(st, txId)
  {
  }

  /** A commit after a rollback moves no money and changes nothing. */
  lemma CommitAfterRollbackIsNoOp(st: State, txId: TxId)
    ensures CommitTransaction(RollbackTransaction(st, txId), txId) == Ok(RollbackTransaction(st, txId))
  {
  }

  /** A rollback after a commit does not undo it. */
  lemma RollbackAfterCommitIsNoOp(st: State, txId: TxId)
    requires CommitTransaction(st, txId).Ok?
    ensures RollbackTransaction(CommitTransaction(st, txId).value, txId) == CommitTransaction(st, txId).value
  {
  }

  /** Committing a pending record moves the ledger's money by the record's
      signed amount: down for a withdrawal, up for a deposit. */
  lemma CommitMovesTotal(st: State, txId: TxId)
    requires Valid(st) && IsPending(st, txId) && CommitTransaction(st, txId).Ok?
    ensures Total(CommitTransaction(st, txId).value) == Total(st) + Delta(st.pending[txId])
  {
    var rec := st.pending[txId];
    TotalMoved(st.accounts, CommitTransaction(st, txId).value.accounts, rec.accountId, Delta(rec), st.nextId);
  }

  // ---------------------------------------------------------------------
  // What a prepare step does not promise

  /** Prepare reserves nothing: two withdrawals prepared against the same
      account under different ids each pass the balance check on their own,
      and committing both can drive the balance below zero. */
  lemma OverlappingPreparesOverdraw(st: State, id: AccountId, t1: TxId, t2: TxId, a1: Amount, a2: Amount)
    requires id in st.accounts && t1 != t2
    requires a1 <= st.accounts[id].balance && a2 <= st.accounts[id].balance
    ensures
      var p1 := PrepareWithdraw(st, t1, id, a1);
      && p1.Ok? && p1.value.value
      && var p2 := PrepareWithdraw(p1.value.state, t2, id, a2);
      && p2.Ok? && p2.value.value
      && var c1 := CommitTransaction(p2.value.state, t1);
      && c1.Ok?
      && var c2 := CommitTransaction(c1.value, t2);
      && c2.Ok?
      && c2.value.accounts[id].balance == st.accounts[id].balance - a1 - a2
  {
    var p1 := PrepareWithdraw(st, t1, id, a1);
    var p2 := PrepareWithdraw(p1.value.state, t2, id, a2);
    assert IsPending(p2.value.state, t1);
    var c1 := CommitTransaction(p2.value.state, t1);
    assert IsPending(c1.value, t2);
  }

  /** Balance 100, two prepared withdrawals of 60: both are accepted and the
      account ends at -20. */
  lemma OverdraftExample()
    ensures
      var st := State(map[1 := Account(None, Some("a@b.c"), None, None, 100)], map["a@b.c" := 1], map[], 2);
      var p1 := PrepareWithdraw(st, 10, 1, 60);
      && p1 == Ok(Step(p1.value.state, true))
      && var p2 := PrepareWithdraw(p1.value.state, 11, 1, 60);
      && p2 == Ok(Step(p2.value.state, true))
      && var c := CommitTransaction(CommitTransaction(p2.value.state, 10).value, 11);
      && c.Ok? && c.value.accounts[1].balance == -20
  {
    var st := State(map[1 := Account(None, Some("a@b.c"), None, None, 100)], map["a@b.c" := 1], map[], 2);
    OverlappingPreparesOverdraw(st, 1, 10, 11, 60, 60);
  }

  /** Preparing under an id already used replaces the record and makes it
      PENDING again, so a committed deposit re-prepared under the same id
      is applied a second time by the next commit. */
  lemma RepreparedIdCommitsAgain(st: State, txId: TxId, id: AccountId, amount: Amount)
    requires CommitTransaction(PrepareDeposit(st, txId, id, amount).state, txId).Ok?
    ensures
      var once := CommitTransaction(PrepareDeposit(st, txId, id, amount).state, txId).value;
      var again := PrepareDeposit(once, txId, id, amount).state;
      && once.pending[txId].status == Committed
      && again.pending[txId].status == Pending
      && CommitTransaction(again, txId).Ok?
      && CommitTransaction(again, txId).value.accounts[id].balance == st.accounts[id].balance + 2 * amount
  {
  }

  /** Preparing a deposit to an account that does not exist is accepted;
      only the commit fails, and the record stays PENDING. */
  lemma DepositToUnknownAccountFailsAtCommit(st: State, txId: TxId, id: AccountId, amount: Amount)
    requires id !in st.accounts
    ensures PrepareDeposit(st, txId, id, amount).value
    ensures IsPending(PrepareDeposit(st, txId, id, amount).state, txId)
    ensures CommitTransaction(PrepareDeposit(st, txId, id, amount).state, txId) == Err(AccountMissing)
  {
  }
}
