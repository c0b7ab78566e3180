/**
 * The seed builder: walks a plan and calls the gateway in dependency order
 * (user, then its accounts, then each card-bearing account's cards and
 * operations), collecting every returned identifier into a result tree.
 * Each method states the result's shape and the exact calls it appended to
 * the gateway's trace; BuilderSpec proves what those calls satisfy.
 */
module Builder {
  import opened Plan
  import opened SeedResult
  import opened Gateway
  import opened BuilderSpec
  import opened BuilderIds

  /** Building one more user appends that user's calls. */
  lemma SeedsCallsAppend(users: seq<UserResult>, ms: seq<MainCards>, u: UserResult, m: MainCards)
    requires AllMainCardsFit(users, ms) && MainCardsFit(u, m)
    ensures AllMainCardsFit(users + [u], ms + [m])
    ensures SeedsCalls(users + [u], ms + [m]) == SeedsCalls(users, ms) + UserCalls(u, m)
  {
    assert (users + [u])[..|users|] == users;
    assert (ms + [m])[..|users|] == ms;
  }

  class SeedsBuilder {
    /** The users, accounts, cards and operations clients, as one collaborator. */
    const gateway: Gateway

    constructor (gateway: Gateway)
      ensures this.gateway == gateway
    {
      this.gateway := gateway;
    }

    // ------------------------------------------------------------ cards

    method BuildPhysicalCardResult(userId: string, accountId: string) returns (r: CardResult)
      requires gateway.Valid()
      modifies gateway
      ensures gateway.Valid()
      ensures gateway.trace == old(gateway.trace) + [IssueCard(Physical, userId, accountId, r.cardId)]
    {
      var cardId := gateway.IssueCard(Physical, userId, accountId);
      r := CardResult(cardId);
    }

    method BuildVirtualCardResult(userId: string, accountId: string) returns (r: CardResult)
      requires gateway.Valid()
      modifies gateway
      ensures gateway.Valid()
      ensures gateway.trace == old(gateway.trace) + [IssueCard(Virtual, userId, accountId, r.cardId)]
    {
      var cardId := gateway.IssueCard(Virtual, userId, accountId);
      r := CardResult(cardId);
    }

    // ------------------------------------------------------- operations

    method BuildTopUpOperationResult(cardId: string, accountId: string) returns (r: OperationResult)
      requires gateway.Valid()
      modifies gateway
      ensures gateway.Valid()
      ensures gateway.trace == old(gateway.trace) + [MakeOperation(TopUp, cardId, accountId, r.operationId)]
    {
      var operationId := gateway.MakeOperation(TopUp, cardId, accountId);
      r := OperationResult(operationId);
    }

    method BuildPurchaseOperationResult(cardId: string, accountId: string) returns (r: OperationResult)
      requires gateway.Valid()
      modifies gateway
      ensures gateway.Valid()
      ensures gateway.trace == old(gateway.trace) + [MakeOperation(Purchase, cardId, accountId, r.operationId)]
    {
      var operationId := gateway.MakeOperation(Purchase, cardId, accountId);
      r := OperationResult(operationId);
    }

    method BuildTransferOperationResult(cardId: string, accountId: string) returns (r: OperationResult)
      requires gateway.Valid()
      modifies gateway
      ensures gateway.Valid()
      ensures gateway.trace == old(gateway.trace) + [MakeOperation(Transfer, cardId, accountId, r.operationId)]
    {
      var operationId := gateway.MakeOperation(Transfer, cardId, accountId);
      r := OperationResult(operationId);
    }

    method BuildCashWithdrawalOperationResult(cardId: string, accountId: string) returns (r: OperationResult)
      requires gateway.Valid()
      modifies gateway
      ensures gateway.Valid()
      ensures gateway.trace == old(gateway.trace) + [MakeOperation(CashWithdrawal, cardId, accountId, r.operationId)]
    {
      var operationId := gateway.MakeOperation(CashWithdrawal, cardId, accountId);
      r := OperationResult(operationId);
    }

    // ----------------------------------------- list comprehensions over range

    /** `[build card for _ in range(count)]` for one card kind. */
    method BuildCards(kind: CardKind, userId: string, accountId: string, count: int) returns (cards: seq<CardResult>)
      requires gateway.Valid()
      modifies gateway
      ensures gateway.Valid()
      ensures |cards| == Times(count)
      ensures gateway.trace == old(gateway.trace) + CardCalls(kind, userId, accountId, cards)
    {
      cards := [];
      for i := 0 to Times(count)
        invariant gateway.Valid()
        invariant |cards| == i
        invariant gateway.trace == old(gateway.trace) + CardCalls(kind, userId, accountId, cards)
      {
        ghost var t0 := gateway.trace;
        var card;
        match kind {
          case Physical => card := BuildPhysicalCardResult(userId, accountId);
          case Virtual => card := BuildVirtualCardResult(userId, accountId);
        }
        ghost var step := [IssueCard(kind, userId, accountId, card.cardId)];
        assert gateway.trace == t0 + step;
        ghost var before := cards;
        cards := cards + [card];
        assert cards[..|cards| - 1] == before;
        assert CardCalls(kind, userId, accountId, cards) == CardCalls(kind, userId, accountId, before) + step;
        AppendAssociates(old(gateway.trace), CardCalls(kind, userId, accountId, before), step);
      }
    }

    /** `[build operation for _ in range(count)]` for one of the four seeded kinds. */
    method BuildOperations(kind: OperationKind, cardId: string, accountId: string, count: int) returns (ops: seq<OperationResult>)
      requires kind.Seeded()
      requires gateway.Valid()
      modifies gateway
      ensures gateway.Valid()
      ensures |ops| == Times(count)
      ensures gateway.trace == old(gateway.trace) + OperationCalls(kind, cardId, accountId, ops)
    {
      ops := [];
      for i := 0 to Times(count)
        invariant gateway.Valid()
        invariant |ops| == i
        invariant gateway.trace == old(gateway.trace) + OperationCalls(kind, cardId, accountId, ops)
      {
        ghost var t0 := gateway.trace;
        var op;
        match kind {
          case TopUp => op := BuildTopUpOperationResult(cardId, accountId);
          case Purchase => op := BuildPurchaseOperationResult(cardId, accountId);
          case Transfer => op := BuildTransferOperationResult(cardId, accountId);
          case CashWithdrawal => op := BuildCashWithdrawalOperationResult(cardId, accountId);
        }
        ghost var step := [MakeOperation(kind, cardId, accountId, op.operationId)];
        assert gateway.trace == t0 + step;
        ghost var before := ops;
        ops := ops + [op];
        assert ops[..|ops| - 1] == before;
        assert OperationCalls(kind, cardId, accountId, ops) == OperationCalls(kind, cardId, accountId, before) + step;
        AppendAssociates(old(gateway.trace), OperationCalls(kind, cardId, accountId, before), step);
      }
    }

    // --------------------------------------------------------- accounts

    /** A savings account is opened and nothing else: all six lists stay empty. */
    method BuildSavingsAccountResult(userId: string) returns (r: AccountResult)
      requires gateway.Valid()
      modifies gateway
      ensures gateway.Valid()
      ensures BareAccount(r)
      ensures gateway.trace == old(gateway.trace) + [OpenAccount(Savings, userId, r.accountId, [])]
    {
      var accountId, _ := gateway.OpenAccount(Savings, userId);
      r := AccountResult(accountId);
    }

    /** A deposit account is opened and nothing else: all six lists stay empty. */
    method BuildDepositAccountResult(userId: string) returns (r: AccountResult)
      requires gateway.Valid()
      modifies gateway
      ensures gateway.Valid()
      ensures BareAccount(r)
      ensures gateway.trace == old(gateway.trace) + [OpenAccount(Deposit, userId, r.accountId, [])]
    {
      var accountId, _ := gateway.OpenAccount(Deposit, userId);
      r := AccountResult(accountId);
    }

    /**
     * Issues the planned cards to the user and account, then makes the
     * planned operations against the account and its main card, in the
     * order the result's fields are listed.
     */
    method BuildCardAccountContents(plan: AccountsPlan, userId: string, accountId: string, mainCardId: string)
      returns (r: AccountResult)
      requires gateway.Valid()
      modifies gateway
      ensures gateway.Valid()
      ensures r.accountId == accountId && AccountConforms(r, plan)
      ensures gateway.trace == old(gateway.trace) + LeafCalls(userId, r, mainCardId)
    {
      ghost var t0 := gateway.trace;
      var physical := BuildCards(Physical, userId, accountId, plan.physicalCards.count);
      ghost var calls := CardCalls(Physical, userId, accountId, physical);
      var virtual := BuildCards(Virtual, userId, accountId, plan.virtualCards.count);
      AppendAssociates(t0, calls, CardCalls(Virtual, userId, accountId, virtual));
      calls := calls + CardCalls(Virtual, userId, accountId, virtual);
      var topUps := BuildOperations(TopUp, mainCardId, accountId, plan.topUpOperations.count);
      AppendAssociates(t0, calls, OperationCalls(TopUp, mainCardId, accountId, topUps));
      calls := calls + OperationCalls(TopUp, mainCardId, accountId, topUps);
      var purchases := BuildOperations(Purchase, mainCardId, accountId, plan.purchaseOperations.count);
      AppendAssociates(t0, calls, OperationCalls(Purchase, mainCardId, accountId, purchases));
      calls := calls + OperationCalls(Purchase, mainCardId, accountId, purchases);
      var transfers := BuildOperations(Transfer, mainCardId, accountId, plan.transferOperations.count);
      AppendAssociates(t0, calls, OperationCalls(Transfer, mainCardId, accountId, transfers));
      calls := calls + OperationCalls(Transfer, mainCardId, accountId, transfers);
      var withdrawals := BuildOperations(CashWithdrawal, mainCardId, accountId, plan.cashWithdrawalOperations.count);
      AppendAssociates(t0, calls, OperationCalls(CashWithdrawal, mainCardId, accountId, withdrawals));
      calls := calls + OperationCalls(CashWithdrawal, mainCardId, accountId, withdrawals);
      r := AccountResult(accountId, physical, virtual, topUps, purchases, transfers, withdrawals);
    }

    /**
     * Opens a card-bearing account and populates it. The opening's first
     * card is the main card every operation uses; the gateway always
     * returns one, so taking the first element is safe.
     */
    method BuildCardAccountResult(kind: AccountKind, plan: AccountsPlan, userId: string)
      returns (r: AccountResult, ghost mainCardId: string)
      requires kind.HasCards()
      requires gateway.Valid()
      modifies gateway
      ensures gateway.Valid()
      ensures AccountConforms(r, plan)
      ensures gateway.trace == old(gateway.trace) + CardAccountCalls(kind, userId, r, mainCardId)
    {
      var accountId, cardIds := gateway.OpenAccount(kind, userId);
      var main := cardIds[0];
      assert cardIds == [main];
      ghost var opening := [OpenAccount(kind, userId, accountId, [main])];
      assert gateway.trace == old(gateway.trace) + opening;
      r := BuildCardAccountContents(plan, userId, accountId, main);
      mainCardId := main;
      AppendAssociates(old(gateway.trace), opening, LeafCalls(userId, r, main));
    }

    /** Opens a debit-card account and populates it from the debit-card plan. */
    method BuildDebitCardAccountResult(plan: AccountsPlan, userId: string) returns (r: AccountResult, ghost mainCardId: string)
      requires gateway.Valid()
      modifies gateway
      ensures gateway.Valid()
      ensures AccountConforms(r, plan)
      ensures gateway.trace == old(gateway.trace) + CardAccountCalls(DebitCard, userId, r, mainCardId)
    {
      r, mainCardId := BuildCardAccountResult(DebitCard, plan, userId);
    }

    /** Opens a credit-card account and populates it from the credit-card plan. */
    method BuildCreditCardAccountResult(plan: AccountsPlan, userId: string) returns (r: AccountResult, ghost mainCardId: string)
      requires gateway.Valid()
      modifies gateway
      ensures gateway.Valid()
      ensures AccountConforms(r, plan)
      ensures gateway.trace == old(gateway.trace) + CardAccountCalls(CreditCard, userId, r, mainCardId)
    {
      r, mainCardId := BuildCardAccountResult(CreditCard, plan, userId);
    }

    /** `[build savings or deposit account for _ in range(count)]`. */
    method BuildBareAccounts(kind: AccountKind, userId: string, count: int) returns (accounts: seq<AccountResult>)
      requires !kind.HasCards()
      requires gateway.Valid()
      modifies gateway
      ensures gateway.Valid()
      ensures |accounts| == Times(count) && forall a <- accounts :: BareAccount(a)
      ensures gateway.trace == old(gateway.trace) + BareAccountsCalls(kind, userId, accounts)
    {
      accounts := [];
      for i := 0 to Times(count)
        invariant gateway.Valid()
        invariant |accounts| == i && forall a <- accounts :: BareAccount(a)
        invariant gateway.trace == old(gateway.trace) + BareAccountsCalls(kind, userId, accounts)
      {
        ghost var t0 := gateway.trace;
        var account;
        match kind {
          case Savings => account := BuildSavingsAccountResult(userId);
          case Deposit => account := BuildDepositAccountResult(userId);
        }
        ghost var step := [OpenAccount(kind, userId, account.accountId, [])];
        assert gateway.trace == t0 + step;
        ghost var before := accounts;
        accounts := accounts + [account];
        assert accounts[..|accounts| - 1] == before;
        assert BareAccountsCalls(kind, userId, accounts) == BareAccountsCalls(kind, userId, before) + step;
        AppendAssociates(old(gateway.trace), BareAccountsCalls(kind, userId, before), step);
      }
    }

    /** `[build debit or credit account for _ in range(plan.count)]`, all from the same plan. */
    method BuildCardAccounts(kind: AccountKind, plan: AccountsPlan, userId: string)
      returns (accounts: seq<AccountResult>, ghost mainCardIds: seq<string>)
      requires kind.HasCards()
      requires gateway.Valid()
      modifies gateway
      ensures gateway.Valid()
      ensures |accounts| == Times(plan.count) == |mainCardIds|
      ensures forall a <- accounts :: AccountConforms(a, plan)
      ensures gateway.trace == old(gateway.trace) + CardAccountsCalls(kind, userId, accounts, mainCardIds)
    {
      accounts, mainCardIds := [], [];
      for i := 0 to Times(plan.count)
        invariant gateway.Valid()
        invariant |accounts| == i == |mainCardIds|
        invariant forall a <- accounts :: AccountConforms(a, plan)
        invariant gateway.trace == old(gateway.trace) + CardAccountsCalls(kind, userId, accounts, mainCardIds)
      {
        var account;
        ghost var main;
        match kind {
          case DebitCard => account, main := BuildDebitCardAccountResult(plan, userId);
          case CreditCard => account, main := BuildCreditCardAccountResult(plan, userId);
        }
        AppendAssociates(old(gateway.trace), CardAccountsCalls(kind, userId, accounts, mainCardIds),
                         CardAccountCalls(kind, userId, account, main));
        ghost var before, beforeMain := accounts, mainCardIds;
        accounts, mainCardIds := accounts + [account], mainCardIds + [main];
        assert accounts[..|accounts| - 1] == before;
        assert mainCardIds[..|accounts| - 1] == beforeMain;
        assert CardAccountsCalls(kind, userId, accounts, mainCardIds)
            == CardAccountsCalls(kind, userId, before, beforeMain) + CardAccountCalls(kind, userId, account, main);
      }
    }

    // ------------------------------------------------------------- users

    /**
     * Creates one user, then opens its savings, deposit, debit-card and
     * credit-card accounts in that order, each list as long as planned.
     */
    method BuildUser(plan: UsersPlan) returns (u: UserResult, ghost mainCards: MainCards)
      requires gateway.Valid()
      modifies gateway
      ensures gateway.Valid()
      ensures UserConforms(u, plan) && MainCardsFit(u, mainCards)
      ensures gateway.trace == old(gateway.trace) + UserCalls(u, mainCards)
    {
      ghost var t0 := gateway.trace;
      var userId := gateway.CreateUser();
      ghost var calls := [CreateUser(userId)];
      var savings := BuildBareAccounts(Savings, userId, plan.savingsAccounts.count);
      AppendAssociates(t0, calls, BareAccountsCalls(Savings, userId, savings));
      calls := calls + BareAccountsCalls(Savings, userId, savings);
      var deposits := BuildBareAccounts(Deposit, userId, plan.depositAccounts.count);
      AppendAssociates(t0, calls, BareAccountsCalls(Deposit, userId, deposits));
      calls := calls + BareAccountsCalls(Deposit, userId, deposits);
      var debits, debitMains := BuildCardAccounts(DebitCard, plan.debitCardAccounts, userId);
      AppendAssociates(t0, calls, CardAccountsCalls(DebitCard, userId, debits, debitMains));
      calls := calls + CardAccountsCalls(DebitCard, userId, debits, debitMains);
      var credits, creditMains := BuildCardAccounts(CreditCard, plan.creditCardAccounts, userId);
      AppendAssociates(t0, calls, CardAccountsCalls(CreditCard, userId, credits, creditMains));
      calls := calls + CardAccountsCalls(CreditCard, userId, credits, creditMains);
      u := UserResult(userId, depositAccounts := deposits, savingsAccounts := savings,
                      debitCardAccounts := debits, creditCardAccounts := credits);
      mainCards := MainCards(debitMains, creditMains);
    }

    /** `[build_user(plan.users) for _ in range(plan.users.count)]`. */
    method BuildUsers(plan: SeedsPlan) returns (users: seq<UserResult>, ghost mainCards: seq<MainCards>)
      requires gateway.Valid()
      modifies gateway
      ensures gateway.Valid()
      ensures SeedsConform(users, plan) && AllMainCardsFit(users, mainCards)
      ensures gateway.trace == old(gateway.trace) + SeedsCalls(users, mainCards)
    {
      users, mainCards := [], [];
      for i := 0 to Times(plan.users.count)
        invariant gateway.Valid()
        invariant |users| == i && AllMainCardsFit(users, mainCards)
        invariant forall u <- users :: UserConforms(u, plan.users)
        invariant gateway.trace == old(gateway.trace) + SeedsCalls(users, mainCards)
      {
        var u, m := BuildUser(plan.users);
        AppendAssociates(old(gateway.trace), SeedsCalls(users, mainCards), UserCalls(u, m));
        SeedsCallsAppend(users, mainCards, u, m);
        users, mainCards := users + [u], mainCards + [m];
      }
    }

    /** Builds every planned user into a new result. */
    method Build(plan: SeedsPlan) returns (result: SeedsResult, ghost mainCards: seq<MainCards>)
      requires gateway.Valid()
      modifies gateway
      ensures gateway.Valid() && fresh(result)
      ensures SeedsConform(result.users, plan) && AllMainCardsFit(result.users, mainCards)
      ensures gateway.trace == old(gateway.trace) + SeedsCalls(result.users, mainCards)
    {
      var users;
      users, mainCards := BuildUsers(plan);
      result := new SeedsResult(users);
    }
  }

  /**
   * Building a plan leaves, after the gateway calls made before, a call
   * sequence in which every account opening follows its user's creation,
   * every card issuance and operation follows its account's opening, no fee,
   * cashback or bill-payment operation appears, and whose length is exactly
   * what the plan asks for.
   */
  method BuildTraceIsOrdered(builder: SeedsBuilder, plan: SeedsPlan) returns (result: SeedsResult)
    requires builder.gateway.Valid()
    modifies builder.gateway
    ensures builder.gateway.Valid()
    ensures |old(builder.gateway.trace)| <= |builder.gateway.trace|
    ensures var calls := builder.gateway.trace[|old(builder.gateway.trace)|..];
      && DependencyOrdered(calls) && OnlySeededOperations(calls)
      && |calls| == PlannedCalls(plan)
  {
    ghost var mainCards;
    result, mainCards := builder.Build(plan);
    ghost var calls := SeedsCalls(result.users, mainCards);
    assert builder.gateway.trace[|old(builder.gateway.trace)|..] == calls;
    SeedsCallsOrdered(result.users, mainCards);
    SeedsCallsLength(result.users, mainCards, plan);
  }

  /**
   * The gateway never returns an identifier twice, and a build stores only
   * identifiers its own calls returned, so no list of a built result (the
   * users, a user's account lists, an account's card and operation lists)
   * repeats an identifier.
   */
  method BuildIdsAreUnique(builder: SeedsBuilder, plan: SeedsPlan) returns (result: SeedsResult)
    requires builder.gateway.Valid()
    modifies builder.gateway
    ensures builder.gateway.Valid() && SeedsConform(result.users, plan)
    ensures SeedsIdsUnique(result.users)
  {
    ghost var mainCards;
    result, mainCards := builder.Build(plan);
    ghost var calls := SeedsCalls(result.users, mainCards);
    builder.gateway.ReturnedAreFresh();
    ReturnedAllAppend(old(builder.gateway.trace), calls);
    DistinctSplit(ReturnedAll(old(builder.gateway.trace)), ReturnedAll(calls));
    SeedsCallsUnique(result.users, mainCards);
  }
}
