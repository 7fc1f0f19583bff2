/** The transaction service: a two-phase-commit driver over the ledger.
    Each remote call is a call into the ledger model. A fault plan says
    which calls, counted from zero in the order they are issued, throw: a
    lost request never reaches the ledger, a lost reply throws after the
    ledger has applied the call. A ledger error also reaches the coordinator
    as a thrown exception. */
module Coordinator {
  import opened Results
  import opened Entities
  import Ledger

  /** A stored transfer: the transaction service's history entity. */
  datatype Transaction = Transaction(sourceAccountId: AccountId, targetAccountId: AccountId, amount: Amount, timestamp: int)

  /** The six remote calls the coordinator issues. */
  datatype Call =
    | PrepareWithdraw(txId: TxId, accountId: AccountId, amount: Amount)
    | PrepareDeposit(txId: TxId, accountId: AccountId, amount: Amount)
    | CommitWithdraw(txId: TxId)
    | CommitDeposit(txId: TxId)
    | RollbackWithdraw(txId: TxId)
    | RollbackDeposit(txId: TxId)

  datatype FaultMode = LostRequest | LostReply

  /** Which call ordinals throw, and how. */
  type FaultPlan = map<nat, FaultMode>

  /** What the coordinator sees of a call: the prepare verdict (true for
      commit and rollback, which return nothing), or an exception. */
  datatype Reply = Returned(prepared: bool) | Threw

  /** The ledger as the coordinator has left it, and every call issued. */
  datatype Driver = Driver(ledger: Ledger.State, calls: seq<Call>)

  datatype Exchange = Exchange(after: Driver, reply: Reply)

  /** TransactionFailed is the wrapped exception the catch block raises; an
      exception thrown by a rollback inside the catch block escapes it
      unwrapped. */
  datatype TransferError = TransactionFailed | RollbackEscaped

  datatype Transfer = Transfer(
    ledger: Ledger.State,
    history: seq<Transaction>,
    calls: seq<Call>,
    outcome: Result<Transaction, TransferError>)

  /** The ledger endpoint a call reaches. */
  function Serve(st: Ledger.State, call: Call): (r: Result<Ledger.Step<bool>, Ledger.LedgerError>)
    ensures call.PrepareWithdraw? ==> r == Ledger.PrepareWithdraw(st, call.txId, call.accountId, call.amount)
    ensures call.PrepareDeposit? ==> r == Ok(Ledger.PrepareDeposit(st, call.txId, call.accountId, call.amount))
    ensures (call.CommitWithdraw? || call.CommitDeposit?) ==>
              r.Ok? == Ledger.CommitTransaction(st, call.txId).Ok?
              && (r.Ok? ==> r.value == Ledger.Step(Ledger.CommitTransaction(st, call.txId).value, true))
    ensures (call.RollbackWithdraw? || call.RollbackDeposit?) ==>
              r == Ok(Ledger.Step(Ledger.RollbackTransaction(st, call.txId), true))
  {
    match call
    case PrepareWithdraw(t, a, m) => Ledger.PrepareWithdraw(st, t, a, m)
    case PrepareDeposit(t, a, m) => Ok(Ledger.PrepareDeposit(st, t, a, m))
    case CommitWithdraw(t) => Commit(st, t)
    case CommitDeposit(t) => Commit(st, t)
    case RollbackWithdraw(t) => Ok(Ledger.Step(Ledger.RollbackTransaction(st, t), true))
    case RollbackDeposit(t) => Ok(Ledger.Step(Ledger.RollbackTransaction(st, t), true))
  }

  function Commit(st: Ledger.State, t: TxId): Result<Ledger.Step<bool>, Ledger.LedgerError>
  {
    match Ledger.CommitTransaction(st, t)
    case Ok(s) => Ok(Ledger.Step(s, true))
    case Err(e) => Err(e)
  }

  /** Issues `call` as call number |d.calls| under the fault plan. */
  function Rpc(d: Driver, call: Call, plan: FaultPlan): (r: Exchange)
    ensures r.after.calls == d.calls + [call]
    ensures r.reply.Threw? <==> |d.calls| in plan || Serve(d.ledger, call).Err?
    ensures r.reply.Returned? ==> r.reply.prepared == Serve(d.ledger, call).value.value
    ensures (|d.calls| in plan && plan[|d.calls|] == LostRequest) || Serve(d.ledger, call).Err? ==>
              r.after.ledger == d.ledger
    ensures !(|d.calls| in plan && plan[|d.calls|] == LostRequest) && Serve(d.ledger, call).Ok? ==>
              r.after.ledger == Serve(d.ledger, call).value.state
    ensures Ledger.Valid(d.ledger) ==> Ledger.Valid(r.after.ledger)
  {
    var n := |d.calls|;
    var issued := d.calls + [call];
    if n in plan && plan[n] == LostRequest then Exchange(Driver(d.ledger, issued), Threw)
    else
      match Serve(d.ledger, call)
      case Err(_) => Exchange(Driver(d.ledger, issued), Threw)
      case Ok(step) =>
        if n in plan then Exchange(Driver(step.state, issued), Threw)
        else Exchange(Driver(step.state, issued), Returned(step.value))
  }

  /** The catch block: roll back both branches, then raise the wrapped
      exception. A rollback that throws here escapes unwrapped and skips
      what follows it. */
  function Recover(d: Driver, history: seq<Transaction>, withdrawId: TxId, depositId: TxId, plan: FaultPlan): (r: Transfer)
    ensures r.history == history && r.outcome.Err?
    ensures r.calls == d.calls + [RollbackWithdraw(withdrawId)]
            || r.calls == d.calls + [RollbackWithdraw(withdrawId), RollbackDeposit(depositId)]
    ensures r.outcome == Err(TransactionFailed) <==> |d.calls| !in plan && |d.calls| + 1 !in plan
    ensures r.outcome == Err(TransactionFailed) ==>
              r.calls == d.calls + [RollbackWithdraw(withdrawId), RollbackDeposit(depositId)]
    ensures OnlyRollbacksAfter(r.calls, |d.calls|)
    ensures RollbackWithdraw(withdrawId) in r.calls
    ensures r.ledger.accounts == d.ledger.accounts
    ensures Ledger.Valid(d.ledger) ==> Ledger.Valid(r.ledger)
  {
    var r1 := Rpc(d, RollbackWithdraw(withdrawId), plan);
    if r1.reply.Threw? then Transfer(r1.after.ledger, history, r1.after.calls, Err(RollbackEscaped))
    else
      var r2 := Rpc(r1.after, RollbackDeposit(depositId), plan);
      if r2.reply.Threw? then Transfer(r2.after.ledger, history, r2.after.calls, Err(RollbackEscaped))
      else Transfer(r2.after.ledger, history, r2.after.calls, Err(TransactionFailed))
  }

  /** Every call issued after the first `n` is a rollback. */
  predicate OnlyRollbacksAfter(calls: seq<Call>, n: nat)
  {
    forall i :: n <= i < |calls| ==> calls[i].RollbackWithdraw? || calls[i].RollbackDeposit?
  }

  /** The last two calls issued roll back both branches. */
  predicate EndsWithRollbacks(calls: seq<Call>, withdrawId: TxId, depositId: TxId)
  {
    |calls| >= 2 && calls[|calls| - 2..] == [RollbackWithdraw(withdrawId), RollbackDeposit(depositId)]
  }

  /** The two prepare calls, in order; the second is issued only when the
      first did not throw. */
  function Prepare(ledger: Ledger.State, source: AccountId, target: AccountId, amount: Amount,
                   withdrawId: TxId, depositId: TxId, plan: FaultPlan): (r: (Exchange, Exchange))
    ensures r.0.after.calls == [PrepareWithdraw(withdrawId, source, amount)]
    ensures r.0.reply.Returned? ==> r.1.after.calls == r.0.after.calls + [PrepareDeposit(depositId, target, amount)]
    ensures r.0.after.ledger.accounts == ledger.accounts
    ensures r.0.reply.Returned? ==> r.1.after.ledger.accounts == ledger.accounts
  {
    var p1 := Rpc(Driver(ledger, []), PrepareWithdraw(withdrawId, source, amount), plan);
    var p2 := Rpc(p1.after, PrepareDeposit(depositId, target, amount), plan);
    (p1, p2)
  }

  /** Both prepare calls returned and both said yes. */
  predicate BothPrepared(p: (Exchange, Exchange))
  {
    p.0.reply == Returned(true) && p.1.reply == Returned(true)
  }

  /** Phase 2 after both prepares said yes: commit the withdrawal, then the
      deposit, then record the transfer. */
  function CommitPhase(d: Driver, history: seq<Transaction>, record: Transaction,
                       withdrawId: TxId, depositId: TxId, plan: FaultPlan): (r: Transfer)
    ensures d.calls <= r.calls
    ensures |r.calls| > |d.calls| && r.calls[|d.calls|] == CommitWithdraw(withdrawId)
    ensures r.outcome.Ok? ==>
              && r.outcome.value == record
              && r.history == history + [record]
              && r.calls == d.calls + [CommitWithdraw(withdrawId), CommitDeposit(depositId)]
    ensures r.outcome.Err? ==> r.history == history && RollbackWithdraw(withdrawId) in r.calls
    ensures r.outcome == Err(TransactionFailed) ==> EndsWithRollbacks(r.calls, withdrawId, depositId)
    ensures Ledger.Valid(d.ledger) ==> Ledger.Valid(r.ledger)
  {
    var c1 := Rpc(d, CommitWithdraw(withdrawId), plan);
    if c1.reply.Threw? then Recover(c1.after, history, withdrawId, depositId, plan)
    else
      var c2 := Rpc(c1.after, CommitDeposit(depositId), plan);
      if c2.reply.Threw? then Recover(c2.after, history, withdrawId, depositId, plan)
      else Transfer(c2.after.ledger, history + [record], c2.after.calls, Ok(record))
  }

  /** Phase 2 after a prepare said no: roll both branches back, then raise
      the prepare-phase exception, which the catch block around it handles
      like any other by rolling both branches back again. */
  function RefusePhase(d: Driver, history: seq<Transaction>,
                       withdrawId: TxId, depositId: TxId, plan: FaultPlan): (r: Transfer)
    ensures d.calls <= r.calls
    ensures OnlyRollbacksAfter(r.calls, |d.calls|)
    ensures r.outcome.Err? && r.history == history && RollbackWithdraw(withdrawId) in r.calls
    ensures r.ledger.accounts == d.ledger.accounts
    ensures r.outcome == Err(TransactionFailed) ==> EndsWithRollbacks(r.calls, withdrawId, depositId)
    ensures Ledger.Valid(d.ledger) ==> Ledger.Valid(r.ledger)
  {
    var r1 := Rpc(d, RollbackWithdraw(withdrawId), plan);
    if r1.reply.Threw? then Recover(r1.after, history, withdrawId, depositId, plan)
    else
      var r2 := Rpc(r1.after, RollbackDeposit(depositId), plan);
      Recover(r2.after, history, withdrawId, depositId, plan)
  }

  /** transferMoney. Both prepares are issued before any decision; if both
      say yes, both branches are committed, withdrawal first, and the
      transfer is recorded; otherwise both branches are rolled back and the
      failure surfaces as TransactionFailed. The amount is not validated.
      `now` stands for the clock reading and the two branch ids for the
      generated ones. */
  function TransferMoney(ledger: Ledger.State, history: seq<Transaction>,
                         source: AccountId, target: AccountId, amount: Amount,
                         withdrawId: TxId, depositId: TxId, now: int, plan: FaultPlan): (r: Transfer)
    ensures r.outcome.Err? ==> r.history == history && RollbackWithdraw(withdrawId) in r.calls
    ensures r.outcome == Err(TransactionFailed) ==> EndsWithRollbacks(r.calls, withdrawId, depositId)
    ensures Ledger.Valid(ledger) ==> Ledger.Valid(r.ledger)
  {
    var p := Prepare(ledger, source, target, amount, withdrawId, depositId, plan);
    if p.0.reply.Threw? then Recover(p.0.after, history, withdrawId, depositId, plan)
    else if p.1.reply.Threw? then Recover(p.1.after, history, withdrawId, depositId, plan)
    else if BothPrepared(p) then
      CommitPhase(p.1.after, history, Transaction(source, target, amount, now), withdrawId, depositId, plan)
    else RefusePhase(p.1.after, history, withdrawId, depositId, plan)
  }

  /** getTransactionHistory: exactly the stored transfers in which
      `accountId` is the source or the target, each as often as it is
      stored. */
  function TransactionHistory(history: seq<Transaction>, accountId: AccountId): (r: seq<Transaction>)
    ensures forall t :: t in r <==> t in history && Involves(t, accountId)
    ensures forall t :: multiset(r)[t] == if Involves(t, accountId) then multiset(history)[t] else 0
  {
    MatchingCounts(history, accountId);
    Matching(history, accountId)
  }

  /** The repository's derived query: the stored transfers that involve
      `accountId`, in storage order. */
  function Matching(history: seq<Transaction>, accountId: AccountId): seq<Transaction>
  {
    if history == [] then []
    else (if Involves(history[0], accountId) then [history[0]] else []) + Matching(history[1..], accountId)
  }

  lemma {:induction false} MatchingCounts(history: seq<Transaction>, accountId: AccountId)
    ensures forall t :: multiset(Matching(history, accountId))[t] == if Involves(t, accountId) then multiset(history)[t] else 0
  {
    if history != [] {
      MatchingCounts(history[1..], accountId);
      assert history == [history[0]] + history[1..];
    }
  }

  predicate Involves(t: Transaction, accountId: AccountId)
  {
    t.sourceAccountId == accountId || t.targetAccountId == accountId
  }

  const LONG_MAX: int := 0x7FFF_FFFF_FFFF_FFFF
  const LONG_MIN: int := -0x8000_0000_0000_0000

  /** generateTransactionId: the most significant 64 bits of a random UUID,
      read as a signed long, with the sign bit cleared. */
  function GenerateTransactionId(mostSignificantBits: int): (id: int)
    requires LONG_MIN <= mostSignificantBits <= LONG_MAX
    ensures 0 <= id <= LONG_MAX
    ensures mostSignificantBits >= 0 ==> id == mostSignificantBits
    ensures mostSignificantBits < 0 ==> id == mostSignificantBits - LONG_MIN
  {
    // In two's complement, clearing bit 63 of a long is reduction modulo 2^63.
    mostSignificantBits % (LONG_MAX + 1)
  }
}
