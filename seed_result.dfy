/**
 * The seed result: a tree of the identifiers the builder obtained, shaped
 * like the plan. Every list field defaults to the empty list; only the
 * identifiers are required.
 */
module SeedResult {
  import opened Wrappers

  datatype CardResult = CardResult(cardId: string)

  datatype OperationResult = OperationResult(operationId: string)

  datatype AccountResult = AccountResult(
    accountId: string,
    physicalCards: seq<CardResult> := [],
    virtualCards: seq<CardResult> := [],
    topUpOperations: seq<OperationResult> := [],
    purchaseOperations: seq<OperationResult> := [],
    transferOperations: seq<OperationResult> := [],
    cashWithdrawalOperations: seq<OperationResult> := [])

  datatype UserResult = UserResult(
    userId: string,
    depositAccounts: seq<AccountResult> := [],
    savingsAccounts: seq<AccountResult> := [],
    debitCardAccounts: seq<AccountResult> := [],
    creditCardAccounts: seq<AccountResult> := [])

  /** Raised by both accessors when there is no user to hand out. */
  datatype SampleError = NoUsers

  /** An account with no cards and no operations. */
  predicate BareAccount(a: AccountResult)
  {
    && a.physicalCards == [] && a.virtualCards == []
    && a.topUpOperations == [] && a.purchaseOperations == []
    && a.transferOperations == [] && a.cashWithdrawalOperations == []
  }

  /**
   * The root of a result. Its user list is the one piece of the tree that is
   * changed in place, by GetNextUser.
   */
  class SeedsResult {
    var users: seq<UserResult>

    constructor (users: seq<UserResult> := [])
      ensures this.users == users
    {
      this.users := users;
    }

    /** Removes and returns the first user; fails on an empty list. */
    method GetNextUser() returns (r: Result<UserResult, SampleError>)
      modifies this
      ensures old(users) == [] ==> r == Failure(NoUsers) && users == []
      ensures old(users) != [] ==> r == Success(old(users)[0]) && users == old(users)[1..]
    {
      if users == [] {
        r := Failure(NoUsers);
      } else {
        r := Success(users[0]);
        users := users[1..];
      }
    }

    /**
     * Returns some user without removing it; which one is a free choice
     * (the source draws it at random). Fails on an empty list.
     */
    method GetRandomUser() returns (r: Result<UserResult, SampleError>)
      ensures r.Failure? <==> users == []
      ensures r.Success? ==> r.value in users
    {
      if users == [] {
        r := Failure(NoUsers);
      } else {
        var i :| 0 <= i < |users|;
        r := Success(users[i]);
      }
    }
  }

  /**
   * A single consumer calling GetNextUser until it fails receives every
   * original user exactly once, in the original order, and leaves the list
   * empty; the call after the last user fails.
   */
  method DrainUsers(s: SeedsResult) returns (drained: seq<UserResult>, last: Result<UserResult, SampleError>)
    modifies s
    ensures drained == old(s.users)
    ensures s.users == [] && last == Failure(NoUsers)
  {
    drained := [];
    last := s.GetNextUser();
    while last.Success?
      invariant last.Success? ==> drained + [last.value] + s.users == old(s.users)
      invariant last.Failure? ==> drained == old(s.users) && s.users == [] && last == Failure(NoUsers)
      decreases |s.users| + (if last.Success? then 1 else 0)
    {
      drained := drained + [last.value];
      last := s.GetNextUser();
    }
  }
}
