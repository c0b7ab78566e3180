/**
 * The seed plan: a tree of fixed shape that says how many users, accounts,
 * cards and operations to synthesise. Every count is a plain integer that
 * defaults to 0, and every omitted sub-plan defaults to a fresh plan whose
 * counts are all 0 (the constructor defaults below).
 */
module Plan {

  /** How many cards of one kind to issue per account. */
  datatype CardsPlan = CardsPlan(count: int := 0)

  /** How many operations of one kind to make per account. */
  datatype OperationsPlan = OperationsPlan(count: int := 0)

  /**
   * How many accounts of one kind to open per user, and what to create in
   * each. The only operation kinds a plan can ask for are the four below.
   */
  datatype AccountsPlan = AccountsPlan(
    count: int := 0,
    physicalCards: CardsPlan := CardsPlan(),
    virtualCards: CardsPlan := CardsPlan(),
    topUpOperations: OperationsPlan := OperationsPlan(),
    purchaseOperations: OperationsPlan := OperationsPlan(),
    transferOperations: OperationsPlan := OperationsPlan(),
    cashWithdrawalOperations: OperationsPlan := OperationsPlan())

  /** How many users to create, and one accounts plan per account kind. */
  datatype UsersPlan = UsersPlan(
    count: int := 0,
    depositAccounts: AccountsPlan := AccountsPlan(),
    savingsAccounts: AccountsPlan := AccountsPlan(),
    debitCardAccounts: AccountsPlan := AccountsPlan(),
    creditCardAccounts: AccountsPlan := AccountsPlan())

  /** The root of a plan. */
  datatype SeedsPlan = SeedsPlan(users: UsersPlan := UsersPlan())

  /**
   * How many times `for _ in range(count)` runs: a negative count, which
   * the plan does not rule out, runs the body zero times.
   */
  function Times(count: int): (n: nat)
    ensures count <= 0 ==> n == 0
    ensures count >= 0 ==> n == count
  {
    if count < 0 then 0 else count
  }

  /** No count anywhere in an accounts plan asks for anything. */
  predicate AccountsPlanIsZero(p: AccountsPlan)
  {
    && p.count == 0
    && p.physicalCards.count == 0 && p.virtualCards.count == 0
    && p.topUpOperations.count == 0 && p.purchaseOperations.count == 0
    && p.transferOperations.count == 0 && p.cashWithdrawalOperations.count == 0
  }

  /** The default plans: every count of every omitted sub-plan is 0. */
  lemma DefaultPlansAreZero()
    ensures AccountsPlanIsZero(AccountsPlan())
    ensures var u := UsersPlan();
      && u.count == 0
      && AccountsPlanIsZero(u.depositAccounts) && AccountsPlanIsZero(u.savingsAccounts)
      && AccountsPlanIsZero(u.debitCardAccounts) && AccountsPlanIsZero(u.creditCardAccounts)
    ensures SeedsPlan().users == UsersPlan()
  {
  }
}
