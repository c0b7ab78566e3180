/**
 * The two seeding presets: a constant plan and a constant scenario name
 * each. The lemmas spell out what any result that follows a preset's plan
 * looks like, and the consumer methods show that the load tasks' first
 * account lookups on such a result never go out of range.
 */
module Scenarios {
  import opened Wrappers
  import opened Plan
  import opened SeedResult
  import opened BuilderSpec
  import opened Dumps

  // ------------------------------------------- existing user, get operations

  /** 300 users, each with one credit-card account: 5 purchases, 1 top-up, 1 cash withdrawal. */
  function GetOperationsPlan(): SeedsPlan
  {
    SeedsPlan(
      users := UsersPlan(
        count := 300,
        creditCardAccounts := AccountsPlan(
          count := 1,
          purchaseOperations := OperationsPlan(count := 5),
          topUpOperations := OperationsPlan(count := 1),
          cashWithdrawalOperations := OperationsPlan(count := 1))))
  }

  const GetOperationsScenario: string := "existing_user_get_operations"

  /** What every user of a result that follows the preset's plan holds. */
  predicate GetOperationsUser(u: UserResult)
  {
    && u.savingsAccounts == [] && u.depositAccounts == [] && u.debitCardAccounts == []
    && |u.creditCardAccounts| == 1
    && var a := u.creditCardAccounts[0];
       && |a.purchaseOperations| == 5 && |a.topUpOperations| == 1 && |a.cashWithdrawalOperations| == 1
       && a.physicalCards == [] && a.virtualCards == [] && a.transferOperations == []
  }

  /** A result following the preset has 300 users, each with exactly one credit-card account of that shape. */
  lemma GetOperationsShape(users: seq<UserResult>)
    requires SeedsConform(users, GetOperationsPlan())
    ensures |users| == 300
    ensures forall u <- users :: GetOperationsUser(u)
  {
    var p := GetOperationsPlan().users;
    forall u <- users
      ensures GetOperationsUser(u)
    {
      assert UserConforms(u, p);
      assert AccountConforms(u.creditCardAccounts[0], p.creditCardAccounts);
    }
  }

  /** The whole run issues 300 user creations, 300 openings and 7 operations per user. */
  lemma GetOperationsCallCount()
    ensures PlannedCalls(GetOperationsPlan()) == 300 * 9
  {
  }

  /**
   * The operations load task: sample a seeded user and read its first
   * credit-card account. On a result of this preset the index is always in
   * range; only an empty result fails.
   */
  method SampleCreditCardAccount(seeds: SeedsResult) returns (r: Result<AccountResult, SampleError>)
    requires forall u <- seeds.users :: GetOperationsUser(u)
    ensures r.Failure? <==> seeds.users == []
    ensures r.Success? ==> exists u <- seeds.users :: GetOperationsUser(u) && r.value == u.creditCardAccounts[0]
  {
    var user :- seeds.GetRandomUser();
    r := Success(user.creditCardAccounts[0]);
  }

  // ---------------------------------------- existing user, issue virtual card

  /** 300 users, each with one debit-card account and nothing under it. */
  function IssueVirtualCardPlan(): SeedsPlan
  {
    SeedsPlan(users := UsersPlan(count := 300, debitCardAccounts := AccountsPlan(count := 1)))
  }

  const IssueVirtualCardScenario: string := "existing_user_issue_virtual_card"

  /** The file the get-operations preset is saved to and loaded from: dumps/existing_user_get_operations_seeds.json. */
  lemma GetOperationsDumpFile()
    ensures DumpPath(GetOperationsScenario) == "dumps/" + "existing_user_get_operations" + "_seeds.json"
  {
  }

  /** The file the issue-virtual-card preset is saved to and loaded from: dumps/existing_user_issue_virtual_card_seeds.json. */
  lemma IssueVirtualCardDumpFile()
    ensures DumpPath(IssueVirtualCardScenario) == "dumps/" + "existing_user_issue_virtual_card" + "_seeds.json"
  {
  }

  /** The two presets never overwrite each other's dump. */
  lemma PresetDumpsAreSeparate()
    ensures DumpPath(GetOperationsScenario) != DumpPath(IssueVirtualCardScenario)
  {
    DumpPathInjective(GetOperationsScenario, IssueVirtualCardScenario);
  }

  predicate IssueVirtualCardUser(u: UserResult)
  {
    && u.savingsAccounts == [] && u.depositAccounts == [] && u.creditCardAccounts == []
    && |u.debitCardAccounts| == 1 && BareAccount(u.debitCardAccounts[0])
  }

  /** A result following the preset has 300 users, each with exactly one bare debit-card account. */
  lemma IssueVirtualCardShape(users: seq<UserResult>)
    requires SeedsConform(users, IssueVirtualCardPlan())
    ensures |users| == 300
    ensures forall u <- users :: IssueVirtualCardUser(u)
  {
    var p := IssueVirtualCardPlan().users;
    forall u <- users
      ensures IssueVirtualCardUser(u)
    {
      assert UserConforms(u, p);
      assert AccountConforms(u.debitCardAccounts[0], p.debitCardAccounts);
    }
  }

  /** The whole run issues one user creation and one account opening per user. */
  lemma IssueVirtualCardCallCount()
    ensures PlannedCalls(IssueVirtualCardPlan()) == 300 * 2
  {
  }

  /**
   * The virtual-card load task: sample a seeded user and read its first
   * debit-card account, which a result of this preset always has.
   */
  method SampleDebitCardAccount(seeds: SeedsResult) returns (r: Result<AccountResult, SampleError>)
    requires forall u <- seeds.users :: IssueVirtualCardUser(u)
    ensures r.Failure? <==> seeds.users == []
    ensures r.Success? ==> exists u <- seeds.users :: IssueVirtualCardUser(u) && r.value == u.debitCardAccounts[0]
  {
    var user :- seeds.GetRandomUser();
    r := Success(user.debitCardAccounts[0]);
  }
}
