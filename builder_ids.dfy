/**
 * Identifier uniqueness in a built result. The gateway never returns the
 * same identifier twice, and every identifier the builder stores is one
 * that some call of the result's call sequence returned. So within each
 * list of the result (the users, each account list of a user, each card
 * and operation list of an account) no identifier repeats.
 */
module BuilderIds {
  import opened SeedResult
  import opened Gateway
  import opened BuilderSpec

  // ------------------------------------------------------ identifier lists

  function UserIds(users: seq<UserResult>): (ids: seq<string>)
    ensures |ids| == |users| && forall k :: 0 <= k < |users| ==> ids[k] == users[k].userId
  {
    seq(|users|, k requires 0 <= k < |users| => users[k].userId)
  }

  function AccountIds(accounts: seq<AccountResult>): (ids: seq<string>)
    ensures |ids| == |accounts| && forall k :: 0 <= k < |accounts| ==> ids[k] == accounts[k].accountId
  {
    seq(|accounts|, k requires 0 <= k < |accounts| => accounts[k].accountId)
  }

  function CardIds(cards: seq<CardResult>): (ids: seq<string>)
    ensures |ids| == |cards| && forall k :: 0 <= k < |cards| ==> ids[k] == cards[k].cardId
  {
    seq(|cards|, k requires 0 <= k < |cards| => cards[k].cardId)
  }

  function OperationIds(ops: seq<OperationResult>): (ids: seq<string>)
    ensures |ids| == |ops| && forall k :: 0 <= k < |ops| ==> ids[k] == ops[k].operationId
  {
    seq(|ops|, k requires 0 <= k < |ops| => ops[k].operationId)
  }

  lemma UserIdsSnoc(users: seq<UserResult>, u: UserResult)
    ensures UserIds(users + [u]) == UserIds(users) + [u.userId]
  {
  }

  lemma AccountIdsSnoc(accounts: seq<AccountResult>, a: AccountResult)
    ensures AccountIds(accounts + [a]) == AccountIds(accounts) + [a.accountId]
  {
  }

  /** No card or operation list of the account repeats an identifier. */
  ghost predicate AccountIdsUnique(a: AccountResult)
  {
    && Distinct(CardIds(a.physicalCards))
    && Distinct(CardIds(a.virtualCards))
    && Distinct(OperationIds(a.topUpOperations))
    && Distinct(OperationIds(a.purchaseOperations))
    && Distinct(OperationIds(a.transferOperations))
    && Distinct(OperationIds(a.cashWithdrawalOperations))
  }

  /**
   * No account list of the user repeats an identifier, and neither does any
   * list inside a card-bearing account (savings and deposit accounts hold
   * nothing).
   */
  ghost predicate UserIdsUnique(u: UserResult)
  {
    && Distinct(AccountIds(u.savingsAccounts))
    && Distinct(AccountIds(u.depositAccounts))
    && Distinct(AccountIds(u.debitCardAccounts))
    && Distinct(AccountIds(u.creditCardAccounts))
    && (forall a <- u.debitCardAccounts :: AccountIdsUnique(a))
    && (forall a <- u.creditCardAccounts :: AccountIdsUnique(a))
  }

  ghost predicate SeedsIdsUnique(users: seq<UserResult>)
  {
    Distinct(UserIds(users)) && forall u <- users :: UserIdsUnique(u)
  }

  // ------------------------------------------------- returned identifiers

  /** What a run of four call groups after a head returns, group by group. */
  lemma ReturnedAllAppend4(h: seq<Call>, a: seq<Call>, b: seq<Call>, c: seq<Call>, d: seq<Call>)
    ensures ReturnedAll(h + a + b + c + d)
         == ReturnedAll(h) + ReturnedAll(a) + ReturnedAll(b) + ReturnedAll(c) + ReturnedAll(d)
  {
    ReturnedAllAppend(h + a + b + c, d);
    ReturnedAllAppend(h + a + b, c);
    ReturnedAllAppend(h + a, b);
    ReturnedAllAppend(h, a);
  }

  lemma {:induction false} CardCallsReturn(kind: CardKind, userId: string, accountId: string, cards: seq<CardResult>)
    ensures ReturnedAll(CardCalls(kind, userId, accountId, cards)) == CardIds(cards)
  {
    if cards != [] {
      var n := |cards| - 1;
      ReturnedAllSnoc(CardCalls(kind, userId, accountId, cards[..n]), IssueCard(kind, userId, accountId, cards[n].cardId));
      CardCallsReturn(kind, userId, accountId, cards[..n]);
      assert CardIds(cards) == CardIds(cards[..n]) + [cards[n].cardId];
    }
  }

  lemma {:induction false} OperationCallsReturn(kind: OperationKind, cardId: string, accountId: string, ops: seq<OperationResult>)
    ensures ReturnedAll(OperationCalls(kind, cardId, accountId, ops)) == OperationIds(ops)
  {
    if ops != [] {
      var n := |ops| - 1;
      ReturnedAllSnoc(OperationCalls(kind, cardId, accountId, ops[..n]), MakeOperation(kind, cardId, accountId, ops[n].operationId));
      OperationCallsReturn(kind, cardId, accountId, ops[..n]);
      assert OperationIds(ops) == OperationIds(ops[..n]) + [ops[n].operationId];
    }
  }

  lemma {:induction false} BareAccountsCallsReturn(kind: AccountKind, userId: string, accounts: seq<AccountResult>)
    ensures ReturnedAll(BareAccountsCalls(kind, userId, accounts)) == AccountIds(accounts)
  {
    if accounts != [] {
      var n := |accounts| - 1;
      ReturnedAllSnoc(BareAccountsCalls(kind, userId, accounts[..n]), OpenAccount(kind, userId, accounts[n].accountId, []));
      BareAccountsCallsReturn(kind, userId, accounts[..n]);
      assert AccountIds(accounts) == AccountIds(accounts[..n]) + [accounts[n].accountId];
    }
  }

  // ------------------------------------------------------------ uniqueness

  /** If an account's calls return no identifier twice, none of its lists repeats one. */
  lemma LeafCallsUnique(userId: string, a: AccountResult, mainCardId: string)
    requires Distinct(ReturnedAll(LeafCalls(userId, a, mainCardId)))
    ensures AccountIdsUnique(a)
  {
    var physical := CardCalls(Physical, userId, a.accountId, a.physicalCards);
    var virtual := CardCalls(Virtual, userId, a.accountId, a.virtualCards);
    var topUps := OperationCalls(TopUp, mainCardId, a.accountId, a.topUpOperations);
    var purchases := OperationCalls(Purchase, mainCardId, a.accountId, a.purchaseOperations);
    var transfers := OperationCalls(Transfer, mainCardId, a.accountId, a.transferOperations);
    var withdrawals := OperationCalls(CashWithdrawal, mainCardId, a.accountId, a.cashWithdrawalOperations);
    CardCallsReturn(Physical, userId, a.accountId, a.physicalCards);
    CardCallsReturn(Virtual, userId, a.accountId, a.virtualCards);
    OperationCallsReturn(TopUp, mainCardId, a.accountId, a.topUpOperations);
    OperationCallsReturn(Purchase, mainCardId, a.accountId, a.purchaseOperations);
    OperationCallsReturn(Transfer, mainCardId, a.accountId, a.transferOperations);
    OperationCallsReturn(CashWithdrawal, mainCardId, a.accountId, a.cashWithdrawalOperations);
    var t1 := physical + virtual;
    var t2 := t1 + topUps;
    var t3 := t2 + purchases;
    var t4 := t3 + transfers;
    ReturnedAllAppend(t4, withdrawals);
    DistinctSplit(ReturnedAll(t4), ReturnedAll(withdrawals));
    ReturnedAllAppend(t3, transfers);
    DistinctSplit(ReturnedAll(t3), ReturnedAll(transfers));
    ReturnedAllAppend(t2, purchases);
    DistinctSplit(ReturnedAll(t2), ReturnedAll(purchases));
    ReturnedAllAppend(t1, topUps);
    DistinctSplit(ReturnedAll(t1), ReturnedAll(topUps));
    ReturnedAllAppend(physical, virtual);
    DistinctSplit(ReturnedAll(physical), ReturnedAll(virtual));
  }

  /** The opening returns the account id and the main card, then the contents return theirs. */
  lemma CardAccountCallsReturn(kind: AccountKind, userId: string, a: AccountResult, mainCardId: string)
    ensures ReturnedAll(CardAccountCalls(kind, userId, a, mainCardId))
         == [a.accountId, mainCardId] + ReturnedAll(LeafCalls(userId, a, mainCardId))
  {
    var open := [OpenAccount(kind, userId, a.accountId, [mainCardId])];
    ReturnedAllAppend(open, LeafCalls(userId, a, mainCardId));
    assert open[..0] == [];
  }

  /**
   * If a list of card-bearing accounts' calls returns no identifier twice,
   * the accounts' ids are distinct and so is every list inside each account.
   */
  lemma {:induction false} CardAccountsCallsUnique(kind: AccountKind, userId: string, accounts: seq<AccountResult>, mainCardIds: seq<string>)
    requires |mainCardIds| == |accounts|
    requires Distinct(ReturnedAll(CardAccountsCalls(kind, userId, accounts, mainCardIds)))
    ensures Distinct(AccountIds(accounts)) && forall a <- accounts :: AccountIdsUnique(a)
    ensures forall x <- AccountIds(accounts) :: x in ReturnedAll(CardAccountsCalls(kind, userId, accounts, mainCardIds))
  {
    if accounts != [] {
      var n := |accounts| - 1;
      var prefix, last := accounts[..n], accounts[n];
      assert accounts == prefix + [last];
      AccountIdsSnoc(prefix, last);
      var before := ReturnedAll(CardAccountsCalls(kind, userId, prefix, mainCardIds[..n]));
      var leaves := ReturnedAll(LeafCalls(userId, last, mainCardIds[n]));
      var after := [last.accountId, mainCardIds[n]] + leaves;
      ReturnedAllAppend(CardAccountsCalls(kind, userId, prefix, mainCardIds[..n]),
                        CardAccountCalls(kind, userId, last, mainCardIds[n]));
      CardAccountCallsReturn(kind, userId, last, mainCardIds[n]);
      DistinctSplit(before, after);
      DistinctSplit([last.accountId, mainCardIds[n]], leaves);
      CardAccountsCallsUnique(kind, userId, prefix, mainCardIds[..n]);
      LeafCallsUnique(userId, last, mainCardIds[n]);
      DistinctExtend(AccountIds(prefix), last.accountId, before, after);
    }
  }

  /** A user's calls: the creation returns the user id, then each account list returns its own. */
  lemma UserCallsReturn(u: UserResult, m: MainCards)
    requires MainCardsFit(u, m)
    ensures ReturnedAll(UserCalls(u, m)) == [u.userId]
      + AccountIds(u.savingsAccounts) + AccountIds(u.depositAccounts)
      + ReturnedAll(CardAccountsCalls(DebitCard, u.userId, u.debitCardAccounts, m.debit))
      + ReturnedAll(CardAccountsCalls(CreditCard, u.userId, u.creditCardAccounts, m.credit))
  {
    var head := [CreateUser(u.userId)];
    assert head[..0] == [];
    assert ReturnedAll(head) == [u.userId];
    ReturnedAllAppend4(head,
      BareAccountsCalls(Savings, u.userId, u.savingsAccounts),
      BareAccountsCalls(Deposit, u.userId, u.depositAccounts),
      CardAccountsCalls(DebitCard, u.userId, u.debitCardAccounts, m.debit),
      CardAccountsCalls(CreditCard, u.userId, u.creditCardAccounts, m.credit));
    BareAccountsCallsReturn(Savings, u.userId, u.savingsAccounts);
    BareAccountsCallsReturn(Deposit, u.userId, u.depositAccounts);
  }

  /** If a user's calls return no identifier twice, no list of the user repeats one. */
  lemma UserCallsUnique(u: UserResult, m: MainCards)
    requires MainCardsFit(u, m)
    requires Distinct(ReturnedAll(UserCalls(u, m)))
    ensures UserIdsUnique(u) && u.userId in ReturnedAll(UserCalls(u, m))
  {
    var savings := AccountIds(u.savingsAccounts);
    var deposits := AccountIds(u.depositAccounts);
    var debits := ReturnedAll(CardAccountsCalls(DebitCard, u.userId, u.debitCardAccounts, m.debit));
    var credits := ReturnedAll(CardAccountsCalls(CreditCard, u.userId, u.creditCardAccounts, m.credit));
    UserCallsReturn(u, m);
    DistinctSplit([u.userId] + savings + deposits + debits, credits);
    DistinctSplit([u.userId] + savings + deposits, debits);
    DistinctSplit([u.userId] + savings, deposits);
    DistinctSplit([u.userId], savings);
    CardAccountsCallsUnique(DebitCard, u.userId, u.debitCardAccounts, m.debit);
    CardAccountsCallsUnique(CreditCard, u.userId, u.creditCardAccounts, m.credit);
  }

  /**
   * If the calls for a whole result return no identifier twice, the users'
   * ids are distinct and no list inside any user repeats an identifier.
   */
  lemma {:induction false} SeedsCallsUnique(users: seq<UserResult>, ms: seq<MainCards>)
    requires AllMainCardsFit(users, ms)
    requires Distinct(ReturnedAll(SeedsCalls(users, ms)))
    ensures SeedsIdsUnique(users)
    ensures forall x <- UserIds(users) :: x in ReturnedAll(SeedsCalls(users, ms))
  {
    if users != [] {
      var n := |users| - 1;
      var prefix, last := users[..n], users[n];
      assert users == prefix + [last];
      UserIdsSnoc(prefix, last);
      assert AllMainCardsFit(prefix, ms[..n]);
      var before := ReturnedAll(SeedsCalls(prefix, ms[..n]));
      var after := ReturnedAll(UserCalls(last, ms[n]));
      ReturnedAllAppend(SeedsCalls(prefix, ms[..n]), UserCalls(last, ms[n]));
      DistinctSplit(before, after);
      SeedsCallsUnique(prefix, ms[..n]);
      UserCallsUnique(last, ms[n]);
      DistinctExtend(UserIds(prefix), last.userId, before, after);
    }
  }
}
