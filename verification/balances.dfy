/** The sum of all balances held by the ledger, and how a single-account
    balance change moves it. Account ids are handed out by a counter, so
    every account id lies below the counter and the total is a sum over
    that range. */
module Balances {
  import opened Entities

  /** `after` is `before` with the balance of `id` shifted by `delta`; the
      other fields of that account and every other account are untouched. */
  ghost predicate BalanceMoved(before: map<AccountId, Account>, after: map<AccountId, Account>, id: AccountId, delta: int)
  {
    && id in before
    && after.Keys == before.Keys
    && after[id] == before[id].(balance := before[id].balance + delta)
    && forall k :: k in before && k != id ==> after[k] == before[k]
  }

  /** The balance of `id`, zero for an id with no account. */
  function BalanceOf(accounts: map<AccountId, Account>, id: AccountId): int
  {
    if id in accounts then accounts[id].balance else 0
  }

  /** Money held by the accounts whose ids lie in [0, bound). */
  function TotalBelow(accounts: map<AccountId, Account>, bound: int): int
    decreases bound
  {
    if bound <= 0 then 0
    else TotalBelow(accounts, bound - 1) + BalanceOf(accounts, bound - 1)
  }

  /** Moving one balance by `delta` moves the total over a range that holds
      the account by exactly `delta`, and a total over a range that does not
      hold it not at all. */
  lemma {:induction false} TotalMoved(before: map<AccountId, Account>, after: map<AccountId, Account>, id: AccountId, delta: int, bound: int)
    requires BalanceMoved(before, after, id, delta)
    ensures TotalBelow(after, bound) == TotalBelow(before, bound) + (if 0 <= id < bound then delta else 0)
    decreases bound
  {
    if bound > 0 {
      TotalMoved(before, after, id, delta, bound - 1);
    }
  }

  /** Two account maps that agree on [0, bound) hold the same money there. */
  lemma {:induction false} AgreeBelow(a: map<AccountId, Account>, b: map<AccountId, Account>, bound: int)
    requires forall id :: 0 <= id < bound ==> BalanceOf(a, id) == BalanceOf(b, id)
    ensures TotalBelow(a, bound) == TotalBelow(b, bound)
    decreases bound
  {
    if bound > 0 {
      AgreeBelow(a, b, bound - 1);
    }
  }
}
