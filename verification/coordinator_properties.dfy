/** Properties of the transfer coordinator: when it commits, what a clean
    transfer does to the balances, what each failure path leaves behind,
    and what the history query returns. */
module CoordinatorProperties {
  import opened Results
  import opened Entities
  import opened Balances
  import Ledger
  import opened Coordinator

  // ---------------------------------------------------------------------
  // The decision

  /** The withdrawal branch is committed exactly when both prepare calls
      returned and both said yes. */
  lemma CommitIffBothPrepared(ledger: Ledger.State, history: seq<Transaction>, source: AccountId, target: AccountId,
                              amount: Amount, withdrawId: TxId, depositId: TxId, now: int, plan: FaultPlan)
    ensures
      var r := TransferMoney(ledger, history, source, target, amount, withdrawId, depositId, now, plan);
      CommitWithdraw(withdrawId) in r.calls <==> BothPrepared(Prepare(ledger, source, target, amount, withdrawId, depositId, plan))
  {
    var p := Prepare(ledger, source, target, amount, withdrawId, depositId, plan);
    var r := TransferMoney(ledger, history, source, target, amount, withdrawId, depositId, now, plan);
    if !BothPrepared(p) {
      var d := if p.0.reply.Threw? then p.0.after else p.1.after;
      assert d.calls <= r.calls && OnlyRollbacksAfter(r.calls, |d.calls|);
      forall i | 0 <= i < |r.calls|
        ensures r.calls[i] != CommitWithdraw(withdrawId)
      {
        if i < |d.calls| {
          assert r.calls[i] == d.calls[i];
        }
      }
    }
  }

  /** The withdrawal prepare is always the first call, and the deposit
      prepare the second whenever the first returned at all, even with a
      refusal. A recorded transfer issued exactly the two prepares and the
      two commits, withdrawal before deposit, and appended one record. */
  lemma CallOrder(ledger: Ledger.State, history: seq<Transaction>, source: AccountId, target: AccountId,
                  amount: Amount, withdrawId: TxId, depositId: TxId, now: int, plan: FaultPlan)
    ensures
      var r := TransferMoney(ledger, history, source, target, amount, withdrawId, depositId, now, plan);
      && |r.calls| >= 2 && r.calls[0] == PrepareWithdraw(withdrawId, source, amount)
      && (Prepare(ledger, source, target, amount, withdrawId, depositId, plan).0.reply.Returned? ==>
            r.calls[1] == PrepareDeposit(depositId, target, amount))
      && (r.outcome.Ok? ==>
            && r.outcome.value == Transaction(source, target, amount, now)
            && r.history == history + [r.outcome.value]
            && r.calls == [PrepareWithdraw(withdrawId, source, amount), PrepareDeposit(depositId, target, amount),
                           CommitWithdraw(withdrawId), CommitDeposit(depositId)])
  {
    var p := Prepare(ledger, source, target, amount, withdrawId, depositId, plan);
    var r := TransferMoney(ledger, history, source, target, amount, withdrawId, depositId, now, plan);
    var d := if p.0.reply.Threw? then p.0.after else p.1.after;
    assert d.calls <= r.calls;
    assert |d.calls| >= 1 && d.calls[0] == PrepareWithdraw(withdrawId, source, amount);
    if p.0.reply.Returned? {
      assert |d.calls| == 2 && d.calls[1] == PrepareDeposit(depositId, target, amount);
    }
    if d.calls == [PrepareWithdraw(withdrawId, source, amount)] {
      assert r == Recover(d, history, withdrawId, depositId, plan);
    }
  }

  /** A transfer is recorded only if both prepares said yes and none of the
      four calls of the two phases threw. */
  lemma SuccessNeedsEveryCall(ledger: Ledger.State, history: seq<Transaction>, source: AccountId, target: AccountId,
                              amount: Amount, withdrawId: TxId, depositId: TxId, now: int, plan: FaultPlan)
    requires TransferMoney(ledger, history, source, target, amount, withdrawId, depositId, now, plan).outcome.Ok?
    ensures BothPrepared(Prepare(ledger, source, target, amount, withdrawId, depositId, plan))
    ensures forall i :: 0 <= i < 4 ==> i !in plan
  {
  }

  /** With no faults, a prepare that says no leads to two rollbacks of each
      branch (the refusal branch's, then the catch block's), the wrapped
      exception, no record and no balance change. */
  lemma RefusalIsWrapped(ledger: Ledger.State, history: seq<Transaction>, source: AccountId, target: AccountId,
                         amount: Amount, withdrawId: TxId, depositId: TxId, now: int)
    requires var p := Prepare(ledger, source, target, amount, withdrawId, depositId, map[]);
             p.0.reply.Returned? && p.1.reply.Returned? && !BothPrepared(p)
    ensures
      var r := TransferMoney(ledger, history, source, target, amount, withdrawId, depositId, now, map[]);
      && r.outcome == Err(TransactionFailed)
      && r.history == history
      && r.ledger.accounts == ledger.accounts
      && r.calls == [PrepareWithdraw(withdrawId, source, amount), PrepareDeposit(depositId, target, amount),
                     RollbackWithdraw(withdrawId), RollbackDeposit(depositId),
                     RollbackWithdraw(withdrawId), RollbackDeposit(depositId)]
  {
    var p := Prepare(ledger, source, target, amount, withdrawId, depositId, map[]);
    assert |p.1.after.calls| == 2 && p.1.after.ledger.accounts == ledger.accounts;
    UnfaultedRefusePhase(p.1.after, history, withdrawId, depositId);
  }

  /** Over HTTP a refused withdrawal prepare is an error status, which the
      client raises as an exception; a lost reply on call 0 stands for it.
      The deposit prepare is then never issued, each branch is rolled back
      once, and the failure is wrapped. */
  lemma RefusalOverHttp(ledger: Ledger.State, history: seq<Transaction>, source: AccountId, target: AccountId,
                        amount: Amount, withdrawId: TxId, depositId: TxId, now: int)
    requires source in ledger.accounts && ledger.accounts[source].balance < amount
    ensures
      var r := TransferMoney(ledger, history, source, target, amount, withdrawId, depositId, now, map[0 := LostReply]);
      && r.outcome == Err(TransactionFailed)
      && r.history == history
      && r.ledger.accounts == ledger.accounts
      && r.calls == [PrepareWithdraw(withdrawId, source, amount), RollbackWithdraw(withdrawId), RollbackDeposit(depositId)]
  {
    var plan: FaultPlan := map[0 := LostReply];
    assert 1 !in plan && 2 !in plan;
    var p := Prepare(ledger, source, target, amount, withdrawId, depositId, plan);
    assert p.0.reply.Threw? && p.0.after.ledger == ledger;
  }

  /** With no faults, the refusal branch rolls back both branches, its
      exception is caught, and the catch block rolls both back again. */
  lemma UnfaultedRefusePhase(d: Driver, history: seq<Transaction>, withdrawId: TxId, depositId: TxId)
    ensures
      var r := RefusePhase(d, history, withdrawId, depositId, map[]);
      && r.outcome == Err(TransactionFailed)
      && r.calls == d.calls + [RollbackWithdraw(withdrawId), RollbackDeposit(depositId),
                               RollbackWithdraw(withdrawId), RollbackDeposit(depositId)]
  {
    var plan: FaultPlan := map[];
    var r1 := Rpc(d, RollbackWithdraw(withdrawId), plan);
    var r2 := Rpc(r1.after, RollbackDeposit(depositId), plan);
    assert r1.reply.Returned? && r2.reply.Returned?;
    assert |r2.after.calls| !in plan && |r2.after.calls| + 1 !in plan;
  }

  /** A transfer that never reached the commit phase moves no money. */
  lemma AbortBeforeCommitMovesNothing(ledger: Ledger.State, history: seq<Transaction>, source: AccountId, target: AccountId,
                                      amount: Amount, withdrawId: TxId, depositId: TxId, now: int, plan: FaultPlan)
    requires !BothPrepared(Prepare(ledger, source, target, amount, withdrawId, depositId, plan))
    ensures TransferMoney(ledger, history, source, target, amount, withdrawId, depositId, now, plan).ledger.accounts == ledger.accounts
  {
  }

  // ---------------------------------------------------------------------
  // Clean transfers

  /** The ledger a transfer ends with when no call is lost: both prepares,
      then both commits; None when a prepare refuses or the ledger raises. */
  function CleanRun(ledger: Ledger.State, source: AccountId, target: AccountId, amount: Amount,
                    withdrawId: TxId, depositId: TxId): Option<Ledger.State>
  {
    match Ledger.PrepareWithdraw(ledger, withdrawId, source, amount)
    case Err(_) => None
    case Ok(s1) =>
      if !s1.value then None
      else
        var s2 := Ledger.PrepareDeposit(s1.state, depositId, target, amount).state;
        match Ledger.CommitTransaction(s2, withdrawId)
        case Err(_) => None
        case Ok(s3) =>
          match Ledger.CommitTransaction(s3, depositId)
          case Err(_) => None
          case Ok(s4) => Some(s4)
  }

  /** With distinct branch ids, the clean run debits the source and credits
      the target by the amount, exactly when the source exists and covers
      the amount and the target exists. */
  lemma {:induction false} CleanRunMovesMoney(ledger: Ledger.State, source: AccountId, target: AccountId, amount: Amount,
                                              withdrawId: TxId, depositId: TxId)
    requires withdrawId != depositId
    ensures
      var run := CleanRun(ledger, source, target, amount, withdrawId, depositId);
      && (run.Some? <==> source in ledger.accounts && target in ledger.accounts && ledger.accounts[source].balance >= amount)
      && (run.Some? ==>
            && run.value.accounts.Keys == ledger.accounts.Keys
            && run.value.nextId == ledger.nextId
            && BalanceOf(run.value.accounts, source) == BalanceOf(ledger.accounts, source) - amount + (if source == target then amount else 0)
            && BalanceOf(run.value.accounts, target) == BalanceOf(ledger.accounts, target) + amount - (if source == target then amount else 0)
            && (forall k :: k != source && k != target ==> BalanceOf(run.value.accounts, k) == BalanceOf(ledger.accounts, k))
            && (Ledger.Valid(ledger) ==> Ledger.Total(run.value) == Ledger.Total(ledger)))
  {
    var run := CleanRun(ledger, source, target, amount, withdrawId, depositId);
    if source in ledger.accounts && ledger.accounts[source].balance >= amount {
      var s1 := Ledger.PrepareWithdraw(ledger, withdrawId, source, amount).value.state;
      var s2 := Ledger.PrepareDeposit(s1, depositId, target, amount).state;
      assert s2.pending[withdrawId] == PendingTransaction(withdrawId, source, amount, WithdrawBranch, Pending);
      assert Ledger.IsPending(s2, withdrawId);
      var s3 := Ledger.CommitTransaction(s2, withdrawId).value;
      assert BalanceMoved(ledger.accounts, s3.accounts, source, -amount);
      assert s3.pending[depositId] == PendingTransaction(depositId, target, amount, DepositBranch, Pending);
      assert Ledger.IsPending(s3, depositId);
      if target in ledger.accounts {
        var s4 := Ledger.CommitTransaction(s3, depositId).value;
        assert BalanceMoved(s3.accounts, s4.accounts, target, amount);
        assert run == Some(s4);
        if Ledger.Valid(ledger) {
          TotalMoved(ledger.accounts, s3.accounts, source, -amount, ledger.nextId);
          TotalMoved(s3.accounts, s4.accounts, target, amount, ledger.nextId);
        }
      } else {
        assert run.None?;
      }
    }
  }

  /** When none of the four calls of the two phases throws, the transfer
      runs the clean sequence of ledger operations, and it succeeds exactly
      when that sequence does. */
  lemma UnfaultedTransferIsCleanRun(ledger: Ledger.State, history: seq<Transaction>, source: AccountId, target: AccountId,
                                    amount: Amount, withdrawId: TxId, depositId: TxId, now: int, plan: FaultPlan)
    requires forall i :: 0 <= i < 4 ==> i !in plan
    ensures
      var r := TransferMoney(ledger, history, source, target, amount, withdrawId, depositId, now, plan);
      var run := CleanRun(ledger, source, target, amount, withdrawId, depositId);
      && (r.outcome.Ok? <==> run.Some?)
      && (r.outcome.Ok? ==> r.ledger == run.value)
  {
    assert 0 !in plan && 1 !in plan && 2 !in plan && 3 !in plan;
    var p := Prepare(ledger, source, target, amount, withdrawId, depositId, plan);
    var r := TransferMoney(ledger, history, source, target, amount, withdrawId, depositId, now, plan);
    var run := CleanRun(ledger, source, target, amount, withdrawId, depositId);
    var pw := Ledger.PrepareWithdraw(ledger, withdrawId, source, amount);
    if pw.Err? {
      assert p.0.reply.Threw?;
      assert r == Recover(p.0.after, history, withdrawId, depositId, plan);
    } else {
      assert p.0.reply == Returned(pw.value.value) && p.0.after.ledger == pw.value.state;
      var s2 := Ledger.PrepareDeposit(pw.value.state, depositId, target, amount).state;
      assert |p.0.after.calls| == 1;
      assert p.1.reply == Returned(true) && p.1.after.ledger == s2;
      if !pw.value.value {
        assert r == RefusePhase(p.1.after, history, withdrawId, depositId, plan);
      } else {
        assert r == CommitPhase(p.1.after, history, Transaction(source, target, amount, now), withdrawId, depositId, plan);
        CommitsMatchCleanRun(p.1.after, history, Transaction(source, target, amount, now), withdrawId, depositId, plan);
      }
    }
  }

  /** The commit phase with neither commit lost ends where the two ledger
      commits end, and succeeds exactly when they do. */
  lemma CommitsMatchCleanRun(d: Driver, history: seq<Transaction>, record: Transaction,
                             withdrawId: TxId, depositId: TxId, plan: FaultPlan)
    requires |d.calls| == 2 && 2 !in plan && 3 !in plan
    ensures
      var r := CommitPhase(d, history, record, withdrawId, depositId, plan);
      var c1 := Ledger.CommitTransaction(d.ledger, withdrawId);
      && (r.outcome.Ok? <==> c1.Ok? && Ledger.CommitTransaction(c1.value, depositId).Ok?)
      && (r.outcome.Ok? ==> r.ledger == Ledger.CommitTransaction(c1.value, depositId).value)
  {
    var c1 := Rpc(d, CommitWithdraw(withdrawId), plan);
    if c1.reply.Returned? {
      assert |c1.after.calls| == 3;
      var c2 := Rpc(c1.after, CommitDeposit(depositId), plan);
    }
  }

  /** A recorded transfer with distinct branch ids debits the source and
      credits the target by the amount and leaves the money held by the
      ledger unchanged. The amount is not checked: a negative one moves
      money from the target to the source. */
  lemma TransferConservesMoney(ledger: Ledger.State, history: seq<Transaction>, source: AccountId, target: AccountId,
                               amount: Amount, withdrawId: TxId, depositId: TxId, now: int, plan: FaultPlan)
    requires withdrawId != depositId
    requires TransferMoney(ledger, history, source, target, amount, withdrawId, depositId, now, plan).outcome.Ok?
    ensures
      var after := TransferMoney(ledger, history, source, target, amount, withdrawId, depositId, now, plan).ledger;
      && after.accounts.Keys == ledger.accounts.Keys
      && BalanceOf(after.accounts, source) == BalanceOf(ledger.accounts, source) - amount + (if source == target then amount else 0)
      && BalanceOf(after.accounts, target) == BalanceOf(ledger.accounts, target) + amount - (if source == target then amount else 0)
      && (forall k :: k != source && k != target ==> BalanceOf(after.accounts, k) == BalanceOf(ledger.accounts, k))
      && (Ledger.Valid(ledger) ==> Ledger.Total(after) == Ledger.Total(ledger))
  {
    SuccessNeedsEveryCall(ledger, history, source, target, amount, withdrawId, depositId, now, plan);
    UnfaultedTransferIsCleanRun(ledger, history, source, target, amount, withdrawId, depositId, now, plan);
    CleanRunMovesMoney(ledger, source, target, amount, withdrawId, depositId);
  }

  /** With distinct branch ids and no fault in the two phases, a transfer
      is recorded exactly when the source exists and covers the amount and
      the target exists; the amount itself is never checked. */
  lemma TransferSucceedsIff(ledger: Ledger.State, history: seq<Transaction>, source: AccountId, target: AccountId,
                            amount: Amount, withdrawId: TxId, depositId: TxId, now: int, plan: FaultPlan)
    requires withdrawId != depositId
    requires forall i :: 0 <= i < 4 ==> i !in plan
    ensures TransferMoney(ledger, history, source, target, amount, withdrawId, depositId, now, plan).outcome.Ok?
            <==> source in ledger.accounts && target in ledger.accounts && ledger.accounts[source].balance >= amount
  {
    UnfaultedTransferIsCleanRun(ledger, history, source, target, amount, withdrawId, depositId, now, plan);
    CleanRunMovesMoney(ledger, source, target, amount, withdrawId, depositId);
  }

  // ---------------------------------------------------------------------
  // What the code does that an all-or-nothing transfer would not

  /** With no fault on the two prepares, distinct branch ids and a source
      that covers the amount, both prepares say yes, the ledger holds the
      two pending records, and the transfer is its commit phase. */
  lemma PreparedBoth(ledger: Ledger.State, history: seq<Transaction>, source: AccountId, target: AccountId,
                     amount: Amount, withdrawId: TxId, depositId: TxId, now: int, plan: FaultPlan)
    requires 0 !in plan && 1 !in plan && withdrawId != depositId
    requires source in ledger.accounts && ledger.accounts[source].balance >= amount
    ensures
      var p := Prepare(ledger, source, target, amount, withdrawId, depositId, plan);
      var s2 := p.1.after.ledger;
      && BothPrepared(p)
      && |p.1.after.calls| == 2
      && s2.accounts == ledger.accounts && s2.nextId == ledger.nextId
      && withdrawId in s2.pending && s2.pending[withdrawId] == PendingTransaction(withdrawId, source, amount, WithdrawBranch, Pending)
      && depositId in s2.pending && s2.pending[depositId] == PendingTransaction(depositId, target, amount, DepositBranch, Pending)
      && TransferMoney(ledger, history, source, target, amount, withdrawId, depositId, now, plan)
         == CommitPhase(p.1.after, history, Transaction(source, target, amount, now), withdrawId, depositId, plan)
  {
    var p := Prepare(ledger, source, target, amount, withdrawId, depositId, plan);
    assert p.0.reply == Returned(true);
    assert |p.0.after.calls| == 1;
    assert p.1.reply == Returned(true);
  }

  /** If the deposit commit is lost after the withdrawal commit went
      through, the catch block's rollback of the withdrawal is a no-op on a
      committed record: the debit stands, the credit never happens, and the
      ledger holds `amount` less money. */
  lemma DebitStandsWhenDepositCommitLost(ledger: Ledger.State, history: seq<Transaction>, source: AccountId, target: AccountId,
                                         amount: Amount, withdrawId: TxId, depositId: TxId, now: int)
    requires Ledger.Valid(ledger)
    requires withdrawId != depositId && source != target
    requires source in ledger.accounts && target in ledger.accounts && ledger.accounts[source].balance >= amount
    ensures
      var r := TransferMoney(ledger, history, source, target, amount, withdrawId, depositId, now, map[3 := LostRequest]);
      && r.outcome == Err(TransactionFailed)
      && r.history == history
      && BalanceOf(r.ledger.accounts, source) == ledger.accounts[source].balance - amount
      && BalanceOf(r.ledger.accounts, target) == ledger.accounts[target].balance
      && Ledger.Total(r.ledger) == Ledger.Total(ledger) - amount
  {
    var plan: FaultPlan := map[3 := LostRequest];
    assert 0 !in plan && 1 !in plan && 2 !in plan && 4 !in plan && 5 !in plan && plan[3] == LostRequest;
    PreparedBoth(ledger, history, source, target, amount, withdrawId, depositId, now, plan);
    var p := Prepare(ledger, source, target, amount, withdrawId, depositId, plan);
    var s2 := p.1.after.ledger;
    DepositCommitFails(p.1.after, history, Transaction(source, target, amount, now), withdrawId, depositId, plan);
    var r := TransferMoney(ledger, history, source, target, amount, withdrawId, depositId, now, plan);
    var s3 := Ledger.CommitTransaction(s2, withdrawId).value;
    assert r.ledger.accounts == s3.accounts && r.ledger.nextId == ledger.nextId;
    assert BalanceMoved(ledger.accounts, s3.accounts, source, -amount);
    assert s3.accounts[target] == ledger.accounts[target];
    TotalMoved(ledger.accounts, s3.accounts, source, -amount, ledger.nextId);
  }

  /** The commit phase when the withdrawal commit goes through and the
      deposit commit throws with no effect, because its request is lost or
      because its account does not exist: the debit stands and the failure
      is wrapped. */
  lemma DepositCommitFails(d: Driver, history: seq<Transaction>, record: Transaction,
                           withdrawId: TxId, depositId: TxId, plan: FaultPlan)
    requires |d.calls| == 2 && 2 !in plan && 4 !in plan && 5 !in plan
    requires withdrawId != depositId
    requires Ledger.IsPending(d.ledger, withdrawId) && d.ledger.pending[withdrawId].accountId in d.ledger.accounts
    requires || (3 in plan && plan[3] == LostRequest)
             || (Ledger.IsPending(d.ledger, depositId) && d.ledger.pending[depositId].accountId !in d.ledger.accounts)
    ensures
      var r := CommitPhase(d, history, record, withdrawId, depositId, plan);
      && r.outcome == Err(TransactionFailed)
      && r.history == history
      && Ledger.CommitTransaction(d.ledger, withdrawId).Ok?
      && r.ledger.accounts == Ledger.CommitTransaction(d.ledger, withdrawId).value.accounts
      && r.ledger.nextId == d.ledger.nextId
  {
    var c1 := Rpc(d, CommitWithdraw(withdrawId), plan);
    assert c1.reply.Returned? && |c1.after.calls| == 3;
    var s3 := c1.after.ledger;
    assert s3 == Ledger.CommitTransaction(d.ledger, withdrawId).value;
    if !(3 in plan && plan[3] == LostRequest) {
      assert s3.pending[depositId] == d.ledger.pending[depositId];
      assert s3.accounts.Keys == d.ledger.accounts.Keys;
      assert Serve(s3, CommitDeposit(depositId)).Err?;
    }
    var c2 := Rpc(c1.after, CommitDeposit(depositId), plan);
    assert c2.reply.Threw? && c2.after.ledger == c1.after.ledger && |c2.after.calls| == 4;
    var rec := Recover(c2.after, history, withdrawId, depositId, plan);
    assert rec.outcome == Err(TransactionFailed);
    var r1 := Rpc(c2.after, RollbackWithdraw(withdrawId), plan);
    var r2 := Rpc(r1.after, RollbackDeposit(depositId), plan);
    assert rec.ledger == r2.after.ledger;
  }

  /** A transfer to an account that does not exist needs no fault to lose
      money: the deposit prepare accepts it, the withdrawal commit debits
      the source, the deposit commit raises, and the catch block's rollback
      cannot undo a committed withdrawal. */
  lemma TransferToUnknownAccountKeepsDebit(ledger: Ledger.State, history: seq<Transaction>, source: AccountId, target: AccountId,
                                           amount: Amount, withdrawId: TxId, depositId: TxId, now: int)
    requires Ledger.Valid(ledger)
    requires withdrawId != depositId
    requires source in ledger.accounts && ledger.accounts[source].balance >= amount && target !in ledger.accounts
    ensures
      var r := TransferMoney(ledger, history, source, target, amount, withdrawId, depositId, now, map[]);
      && r.outcome == Err(TransactionFailed)
      && r.history == history
      && BalanceOf(r.ledger.accounts, source) == ledger.accounts[source].balance - amount
      && Ledger.Total(r.ledger) == Ledger.Total(ledger) - amount
  {
    var plan: FaultPlan := map[];
    PreparedBoth(ledger, history, source, target, amount, withdrawId, depositId, now, plan);
    var p := Prepare(ledger, source, target, amount, withdrawId, depositId, plan);
    var s2 := p.1.after.ledger;
    DepositCommitFails(p.1.after, history, Transaction(source, target, amount, now), withdrawId, depositId, plan);
    var r := TransferMoney(ledger, history, source, target, amount, withdrawId, depositId, now, plan);
    var s3 := Ledger.CommitTransaction(s2, withdrawId).value;
    assert r.ledger.accounts == s3.accounts && r.ledger.nextId == ledger.nextId;
    assert BalanceMoved(ledger.accounts, s3.accounts, source, -amount);
    TotalMoved(ledger.accounts, s3.accounts, source, -amount, ledger.nextId);
  }

  /** Once both prepares said yes and the withdrawal commit went through,
      any later failure leaves the source debited, whatever threw: the
      catch block's rollback of a committed withdrawal does nothing. */
  lemma DebitStandsWhenCommitPhaseFails(ledger: Ledger.State, history: seq<Transaction>, source: AccountId, target: AccountId,
                                        amount: Amount, withdrawId: TxId, depositId: TxId, now: int, plan: FaultPlan)
    requires withdrawId != depositId && source != target
    requires BothPrepared(Prepare(ledger, source, target, amount, withdrawId, depositId, plan))
    requires 2 !in plan
    requires TransferMoney(ledger, history, source, target, amount, withdrawId, depositId, now, plan).outcome.Err?
    ensures BalanceOf(TransferMoney(ledger, history, source, target, amount, withdrawId, depositId, now, plan).ledger.accounts, source)
            == BalanceOf(ledger.accounts, source) - amount
  {
    var p := Prepare(ledger, source, target, amount, withdrawId, depositId, plan);
    assert source in ledger.accounts && ledger.accounts[source].balance >= amount;
    var s2 := p.1.after.ledger;
    assert s2.accounts == ledger.accounts;
    assert s2.pending[withdrawId] == PendingTransaction(withdrawId, source, amount, WithdrawBranch, Pending);
    assert s2.pending[depositId] == PendingTransaction(depositId, target, amount, DepositBranch, Pending);
    FailedCommitPhaseKeepsDebit(p.1.after, history, Transaction(source, target, amount, now), withdrawId, depositId, plan, source, amount);
  }

  /** A commit phase that fails after committing the withdrawal leaves the
      withdrawal's account debited, provided the deposit record belongs to
      another account. */
  lemma FailedCommitPhaseKeepsDebit(d: Driver, history: seq<Transaction>, record: Transaction,
                                    withdrawId: TxId, depositId: TxId, plan: FaultPlan, source: AccountId, amount: Amount)
    requires |d.calls| == 2 && 2 !in plan && withdrawId != depositId
    requires withdrawId in d.ledger.pending
    requires d.ledger.pending[withdrawId] == PendingTransaction(withdrawId, source, amount, WithdrawBranch, Pending)
    requires source in d.ledger.accounts
    requires depositId in d.ledger.pending ==> d.ledger.pending[depositId].accountId != source
    requires CommitPhase(d, history, record, withdrawId, depositId, plan).outcome.Err?
    ensures BalanceOf(CommitPhase(d, history, record, withdrawId, depositId, plan).ledger.accounts, source)
            == d.ledger.accounts[source].balance - amount
  {
    var c1 := Rpc(d, CommitWithdraw(withdrawId), plan);
    var s3 := Ledger.CommitTransaction(d.ledger, withdrawId).value;
    assert c1.reply.Returned? && c1.after.ledger == s3;
    assert BalanceOf(s3.accounts, source) == d.ledger.accounts[source].balance - amount;
    var c2 := Rpc(c1.after, CommitDeposit(depositId), plan);
    assert c2.reply.Threw?;
    assert BalanceOf(c2.after.ledger.accounts, source) == BalanceOf(s3.accounts, source) by {
      if Ledger.IsPending(s3, depositId) {
        assert s3.pending[depositId] == d.ledger.pending[depositId];
      }
    }
    var rec := Recover(c2.after, history, withdrawId, depositId, plan);
    assert rec.ledger.accounts == c2.after.ledger.accounts;
  }

  /** Two equal branch ids: the deposit prepare overwrites the withdrawal
      record, the first commit applies the credit, the second finds nothing
      pending. The transfer is recorded, yet the source is never debited. */
  lemma CollidingIdsCreditWithoutDebit(ledger: Ledger.State, history: seq<Transaction>, source: AccountId, target: AccountId,
                                       amount: Amount, txId: TxId, now: int)
    requires source != target
    requires source in ledger.accounts && target in ledger.accounts && ledger.accounts[source].balance >= amount
    ensures
      var r := TransferMoney(ledger, history, source, target, amount, txId, txId, now, map[]);
      && r.outcome.Ok?
      && r.history == history + [Transaction(source, target, amount, now)]
      && BalanceOf(r.ledger.accounts, source) == ledger.accounts[source].balance
      && BalanceOf(r.ledger.accounts, target) == ledger.accounts[target].balance + amount
  {
    var plan: FaultPlan := map[];
    var p := Prepare(ledger, source, target, amount, txId, txId, plan);
    var s2 := p.1.after.ledger;
    assert s2.pending[txId] == PendingTransaction(txId, target, amount, DepositBranch, Pending);
    var c1 := Rpc(p.1.after, CommitWithdraw(txId), plan);
    assert BalanceMoved(ledger.accounts, c1.after.ledger.accounts, target, amount);
    assert !Ledger.IsPending(c1.after.ledger, txId);
  }

  // ---------------------------------------------------------------------
  // Scenarios

  function TwoAccounts(sourceBalance: Amount, targetBalance: Amount): Ledger.State
  {
    Ledger.State(
      map[1 := Account(Some("S"), Some("s@bank"), Some("1"), Some("p"), sourceBalance),
          2 := Account(Some("T"), Some("t@bank"), Some("2"), Some("p"), targetBalance)],
      map["s@bank" := 1, "t@bank" := 2],
      map[],
      3)
  }

  /** Source 200, target 50, transfer 75: both end at 125 and one record
      (1, 2, 75) is stored. */
  lemma TransferScenario()
    ensures
      var r := TransferMoney(TwoAccounts(200, 50), [], 1, 2, 75, 7, 8, 0, map[]);
      && r.outcome == Ok(Transaction(1, 2, 75, 0))
      && r.history == [Transaction(1, 2, 75, 0)]
      && BalanceOf(r.ledger.accounts, 1) == 125 && BalanceOf(r.ledger.accounts, 2) == 125
  {
    var ledger := TwoAccounts(200, 50);
    var plan: FaultPlan := map[];
    assert BalanceOf(ledger.accounts, 1) == 200 && BalanceOf(ledger.accounts, 2) == 50;
    TransferSucceedsIff(ledger, [], 1, 2, 75, 7, 8, 0, plan);
    TransferConservesMoney(ledger, [], 1, 2, 75, 7, 8, 0, plan);
  }

  /** Source 30, target 0, transfer 75: the withdrawal prepare says no, both
      branches are rolled back, no balance changes and nothing is stored. */
  lemma RefusedTransferScenario()
    ensures
      var r := TransferMoney(TwoAccounts(30, 0), [], 1, 2, 75, 7, 8, 0, map[]);
      && r.outcome == Err(TransactionFailed)
      && r.history == []
      && r.ledger.accounts == TwoAccounts(30, 0).accounts
  {
    RefusalIsWrapped(TwoAccounts(30, 0), [], 1, 2, 75, 7, 8, 0);
  }

  // ---------------------------------------------------------------------
  // History

  /** The history query distributes over appending to the store. */
  lemma {:induction false} MatchingAppend(h1: seq<Transaction>, h2: seq<Transaction>, accountId: AccountId)
    ensures Matching(h1 + h2, accountId) == Matching(h1, accountId) + Matching(h2, accountId)
  {
    if h1 == [] {
      assert h1 + h2 == h2;
    } else {
      var head := if Involves(h1[0], accountId) then [h1[0]] else [];
      assert (h1 + h2)[0] == h1[0];
      assert (h1 + h2)[1..] == h1[1..] + h2;
      assert Matching(h1 + h2, accountId) == head + Matching(h1[1..] + h2, accountId);
      MatchingAppend(h1[1..], h2, accountId);
      assert Matching(h1, accountId) == head + Matching(h1[1..], accountId);
    }
  }

  /** After a transfer, an account's history gains the new record exactly
      when the transfer was recorded and involves the account. */
  lemma HistoryAfterTransfer(ledger: Ledger.State, history: seq<Transaction>, source: AccountId, target: AccountId,
                             amount: Amount, withdrawId: TxId, depositId: TxId, now: int, plan: FaultPlan, accountId: AccountId)
    ensures
      var r := TransferMoney(ledger, history, source, target, amount, withdrawId, depositId, now, plan);
      TransactionHistory(r.history, accountId)
        == TransactionHistory(history, accountId)
           + (if r.outcome.Ok? && (source == accountId || target == accountId) then [Transaction(source, target, amount, now)] else [])
  {
    var r := TransferMoney(ledger, history, source, target, amount, withdrawId, depositId, now, plan);
    CallOrder(ledger, history, source, target, amount, withdrawId, depositId, now, plan);
    if r.outcome.Ok? {
      HistoryAppend(history, r.outcome.value, accountId);
    }
  }

  /** Storing one more transfer adds it to an account's history exactly
      when it involves the account. */
  lemma HistoryAppend(history: seq<Transaction>, record: Transaction, accountId: AccountId)
    ensures TransactionHistory(history + [record], accountId)
            == TransactionHistory(history, accountId) + (if Involves(record, accountId) then [record] else [])
  {
    MatchingAppend(history, [record], accountId);
    assert [record][1..] == [];
  }
}
