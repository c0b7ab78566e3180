/**
 * What the seed builder promises, stated over values: the shape a result
 * must have for a plan, the exact sequence of gateway calls that produces a
 * result, and the properties of that call sequence (dependency order, only
 * the four seeded operation kinds, as many calls as the plan asks for).
 */
module BuilderSpec {
  import opened Plan
  import opened SeedResult
  import opened Gateway

  // ---------------------------------------------------------------- shape

  /** Each of the six lists of a card-bearing account has its planned length. */
  predicate AccountConforms(a: AccountResult, p: AccountsPlan)
  {
    && |a.physicalCards| == Times(p.physicalCards.count)
    && |a.virtualCards| == Times(p.virtualCards.count)
    && |a.topUpOperations| == Times(p.topUpOperations.count)
    && |a.purchaseOperations| == Times(p.purchaseOperations.count)
    && |a.transferOperations| == Times(p.transferOperations.count)
    && |a.cashWithdrawalOperations| == Times(p.cashWithdrawalOperations.count)
  }

  /**
   * Each account list of a user has its planned length; savings and deposit
   * accounts are bare whatever their sub-plans say, and debit and credit
   * accounts follow their own account plan.
   */
  predicate UserConforms(u: UserResult, p: UsersPlan)
  {
    && |u.savingsAccounts| == Times(p.savingsAccounts.count)
    && |u.depositAccounts| == Times(p.depositAccounts.count)
    && |u.debitCardAccounts| == Times(p.debitCardAccounts.count)
    && |u.creditCardAccounts| == Times(p.creditCardAccounts.count)
    && (forall a <- u.savingsAccounts :: BareAccount(a))
    && (forall a <- u.depositAccounts :: BareAccount(a))
    && (forall a <- u.debitCardAccounts :: AccountConforms(a, p.debitCardAccounts))
    && (forall a <- u.creditCardAccounts :: AccountConforms(a, p.creditCardAccounts))
  }

  /** There are as many users as planned and every one follows the users plan. */
  predicate SeedsConform(users: seq<UserResult>, p: SeedsPlan)
  {
    |users| == Times(p.users.count) && forall u <- users :: UserConforms(u, p.users)
  }

  // ---------------------------------------------------------------- calls

  /** One card issuance per card, in list order, each returning that card's id. */
  function CardCalls(kind: CardKind, userId: string, accountId: string, cards: seq<CardResult>): (t: seq<Call>)
    ensures |t| == |cards|
  {
    if cards == [] then []
    else CardCalls(kind, userId, accountId, cards[..|cards| - 1])
         + [IssueCard(kind, userId, accountId, cards[|cards| - 1].cardId)]
  }

  /** One operation call per operation, in list order, each returning that operation's id. */
  function OperationCalls(kind: OperationKind, cardId: string, accountId: string, ops: seq<OperationResult>): (t: seq<Call>)
    ensures |t| == |ops|
  {
    if ops == [] then []
    else OperationCalls(kind, cardId, accountId, ops[..|ops| - 1])
         + [MakeOperation(kind, cardId, accountId, ops[|ops| - 1].operationId)]
  }

  /**
   * The calls that populate a card-bearing account: physical cards, virtual
   * cards, then top-up, purchase, transfer and cash-withdrawal operations,
   * all against the account's main card.
   */
  function LeafCalls(userId: string, a: AccountResult, mainCardId: string): seq<Call>
  {
    CardCalls(Physical, userId, a.accountId, a.physicalCards)
    + CardCalls(Virtual, userId, a.accountId, a.virtualCards)
    + OperationCalls(TopUp, mainCardId, a.accountId, a.topUpOperations)
    + OperationCalls(Purchase, mainCardId, a.accountId, a.purchaseOperations)
    + OperationCalls(Transfer, mainCardId, a.accountId, a.transferOperations)
    + OperationCalls(CashWithdrawal, mainCardId, a.accountId, a.cashWithdrawalOperations)
  }

  /** The opening of a card-bearing account, which returned its main card, then its contents. */
  function CardAccountCalls(kind: AccountKind, userId: string, a: AccountResult, mainCardId: string): seq<Call>
  {
    [OpenAccount(kind, userId, a.accountId, [mainCardId])] + LeafCalls(userId, a, mainCardId)
  }

  /** One opening per bare account, in list order. */
  function BareAccountsCalls(kind: AccountKind, userId: string, accounts: seq<AccountResult>): (t: seq<Call>)
    ensures |t| == |accounts|
  {
    if accounts == [] then []
    else BareAccountsCalls(kind, userId, accounts[..|accounts| - 1])
         + [OpenAccount(kind, userId, accounts[|accounts| - 1].accountId, [])]
  }

  /** The calls of each card-bearing account in turn; mainCardIds[k] is account k's main card. */
  function CardAccountsCalls(kind: AccountKind, userId: string, accounts: seq<AccountResult>, mainCardIds: seq<string>): seq<Call>
    requires |mainCardIds| == |accounts|
  {
    if accounts == [] then []
    else CardAccountsCalls(kind, userId, accounts[..|accounts| - 1], mainCardIds[..|accounts| - 1])
         + CardAccountCalls(kind, userId, accounts[|accounts| - 1], mainCardIds[|accounts| - 1])
  }

  /** The main card ids of a user's debit-card and credit-card accounts, list by list. */
  datatype MainCards = MainCards(debit: seq<string>, credit: seq<string>)

  predicate MainCardsFit(u: UserResult, m: MainCards)
  {
    |m.debit| == |u.debitCardAccounts| && |m.credit| == |u.creditCardAccounts|
  }

  predicate AllMainCardsFit(users: seq<UserResult>, ms: seq<MainCards>)
  {
    |ms| == |users| && forall k :: 0 <= k < |users| ==> MainCardsFit(users[k], ms[k])
  }

  /** The user's creation, then savings, deposit, debit-card and credit-card accounts. */
  function UserCalls(u: UserResult, m: MainCards): seq<Call>
    requires MainCardsFit(u, m)
  {
    [CreateUser(u.userId)]
    + BareAccountsCalls(Savings, u.userId, u.savingsAccounts)
    + BareAccountsCalls(Deposit, u.userId, u.depositAccounts)
    + CardAccountsCalls(DebitCard, u.userId, u.debitCardAccounts, m.debit)
    + CardAccountsCalls(CreditCard, u.userId, u.creditCardAccounts, m.credit)
  }

  /** The calls of each user in turn. */
  function SeedsCalls(users: seq<UserResult>, ms: seq<MainCards>): seq<Call>
    requires AllMainCardsFit(users, ms)
  {
    if users == [] then []
    else SeedsCalls(users[..|users| - 1], ms[..|users| - 1])
         + UserCalls(users[|users| - 1], ms[|users| - 1])
  }

  // ---------------------------------------------------- order of the calls

  predicate IsLeaf(c: Call)
  {
    c.IssueCard? || c.MakeOperation?
  }

  /**
   * o is the opening that leaf call c depends on: same account; a card is
   * issued to the account's owner; an operation uses the first card the
   * opening returned.
   */
  predicate Opens(o: Call, c: Call)
  {
    && o.OpenAccount?
    && match c
       case IssueCard(_, userId, accountId, _) => o.userId == userId && o.accountId == accountId
       case MakeOperation(_, cardId, accountId, _) => o.accountId == accountId && o.cardIds != [] && o.cardIds[0] == cardId
       case _ => false
  }

  /** Every card issuance and operation comes after the opening of its account. */
  ghost predicate LeavesFollowOpening(t: seq<Call>)
  {
    forall j | 0 <= j < |t| && IsLeaf(t[j]) :: exists i :: 0 <= i < j && Opens(t[i], t[j])
  }

  /** Every account opening comes after the creation of its user. */
  ghost predicate OpeningsFollowUser(t: seq<Call>)
  {
    forall j | 0 <= j < |t| && t[j].OpenAccount? :: exists i :: 0 <= i < j && t[i] == CreateUser(t[j].userId)
  }

  ghost predicate DependencyOrdered(t: seq<Call>)
  {
    LeavesFollowOpening(t) && OpeningsFollowUser(t)
  }

  /** No fee, cashback or bill-payment operation is ever made. */
  ghost predicate OnlySeededOperations(t: seq<Call>)
  {
    forall c <- t :: c.MakeOperation? ==> c.operationKind.Seeded()
  }

  /** Every account opening in t is for the given user. */
  ghost predicate OpensOnlyFor(t: seq<Call>, userId: string)
  {
    forall c <- t :: c.OpenAccount? ==> c.userId == userId
  }

  lemma {:induction false} LeavesFollowOpeningAppend(a: seq<Call>, b: seq<Call>)
    requires LeavesFollowOpening(a) && LeavesFollowOpening(b)
    ensures LeavesFollowOpening(a + b)
  {
    var t := a + b;
    forall j | 0 <= j < |t| && IsLeaf(t[j])
      ensures exists i :: 0 <= i < j && Opens(t[i], t[j])
    {
      if j < |a| {
        assert t[j] == a[j];
        var i :| 0 <= i < j && Opens(a[i], a[j]);
        assert t[i] == a[i];
      } else {
        assert t[j] == b[j - |a|];
        var i :| 0 <= i < j - |a| && Opens(b[i], b[j - |a|]);
        assert t[i + |a|] == b[i];
      }
    }
  }

  lemma {:induction false} OpeningsFollowUserAppend(a: seq<Call>, b: seq<Call>)
    requires OpeningsFollowUser(a) && OpeningsFollowUser(b)
    ensures OpeningsFollowUser(a + b)
  {
    var t := a + b;
    forall j | 0 <= j < |t| && t[j].OpenAccount?
      ensures exists i :: 0 <= i < j && t[i] == CreateUser(t[j].userId)
    {
      if j < |a| {
        assert t[j] == a[j];
        var i :| 0 <= i < j && a[i] == CreateUser(a[j].userId);
        assert t[i] == a[i];
      } else {
        assert t[j] == b[j - |a|];
        var i :| 0 <= i < j - |a| && b[i] == CreateUser(b[j - |a|].userId);
        assert t[i + |a|] == b[i];
      }
    }
  }

  /** The k-th card issuance returned the k-th card of the list. */
  lemma {:induction false} CardCallsAre(kind: CardKind, userId: string, accountId: string, cards: seq<CardResult>)
    ensures forall k :: 0 <= k < |cards| ==>
      CardCalls(kind, userId, accountId, cards)[k] == IssueCard(kind, userId, accountId, cards[k].cardId)
  {
    if cards != [] {
      CardCallsAre(kind, userId, accountId, cards[..|cards| - 1]);
    }
  }

  /** The k-th operation call returned the k-th operation of the list. */
  lemma {:induction false} OperationCallsAre(kind: OperationKind, cardId: string, accountId: string, ops: seq<OperationResult>)
    ensures forall k :: 0 <= k < |ops| ==>
      OperationCalls(kind, cardId, accountId, ops)[k] == MakeOperation(kind, cardId, accountId, ops[k].operationId)
  {
    if ops != [] {
      OperationCallsAre(kind, cardId, accountId, ops[..|ops| - 1]);
    }
  }

  /** The k-th bare account opening returned the k-th account of the list. */
  lemma {:induction false} BareAccountsCallsAre(kind: AccountKind, userId: string, accounts: seq<AccountResult>)
    ensures forall k :: 0 <= k < |accounts| ==>
      BareAccountsCalls(kind, userId, accounts)[k] == OpenAccount(kind, userId, accounts[k].accountId, [])
  {
    if accounts != [] {
      BareAccountsCallsAre(kind, userId, accounts[..|accounts| - 1]);
    }
  }

  /** Every card issuance in the list is for opening o's user and account. */
  lemma {:induction false} CardCallsTarget(o: Call, kind: CardKind, userId: string, accountId: string, cards: seq<CardResult>)
    requires o.OpenAccount? && o.userId == userId && o.accountId == accountId
    ensures forall c <- CardCalls(kind, userId, accountId, cards) :: c.IssueCard? && Opens(o, c)
  {
    if cards != [] {
      CardCallsTarget(o, kind, userId, accountId, cards[..|cards| - 1]);
    }
  }

  /** Every operation in the list is of a seeded kind and uses opening o's account and first card. */
  lemma {:induction false} OperationCallsTarget(o: Call, kind: OperationKind, cardId: string, accountId: string, ops: seq<OperationResult>)
    requires o.OpenAccount? && o.accountId == accountId && o.cardIds != [] && o.cardIds[0] == cardId
    requires kind.Seeded()
    ensures forall c <- OperationCalls(kind, cardId, accountId, ops) :: c.MakeOperation? && c.operationKind.Seeded() && Opens(o, c)
  {
    if ops != [] {
      OperationCallsTarget(o, kind, cardId, accountId, ops[..|ops| - 1]);
    }
  }

  /**
   * Every call populating an account is a card issuance for that account's
   * user and account, or a seeded operation on that account's main card.
   */
  lemma LeafCallsTargetAccount(kind: AccountKind, userId: string, a: AccountResult, mainCardId: string)
    ensures forall c <- LeafCalls(userId, a, mainCardId) ::
      Opens(OpenAccount(kind, userId, a.accountId, [mainCardId]), c) && (c.MakeOperation? ==> c.operationKind.Seeded())
  {
    var o := OpenAccount(kind, userId, a.accountId, [mainCardId]);
    CardCallsTarget(o, Physical, userId, a.accountId, a.physicalCards);
    CardCallsTarget(o, Virtual, userId, a.accountId, a.virtualCards);
    OperationCallsTarget(o, TopUp, mainCardId, a.accountId, a.topUpOperations);
    OperationCallsTarget(o, Purchase, mainCardId, a.accountId, a.purchaseOperations);
    OperationCallsTarget(o, Transfer, mainCardId, a.accountId, a.transferOperations);
    OperationCallsTarget(o, CashWithdrawal, mainCardId, a.accountId, a.cashWithdrawalOperations);
  }

  /** A card-bearing account's calls: opening first, everything else depends on it. */
  lemma CardAccountCallsOrdered(kind: AccountKind, userId: string, a: AccountResult, mainCardId: string)
    ensures var t := CardAccountCalls(kind, userId, a, mainCardId);
      LeavesFollowOpening(t) && OnlySeededOperations(t) && OpensOnlyFor(t, userId)
  {
    var o := OpenAccount(kind, userId, a.accountId, [mainCardId]);
    var rest := LeafCalls(userId, a, mainCardId);
    var t := [o] + rest;
    LeafCallsTargetAccount(kind, userId, a, mainCardId);
    forall j | 0 <= j < |t| && IsLeaf(t[j])
      ensures exists i :: 0 <= i < j && Opens(t[i], t[j])
    {
      assert t[j] == rest[j - 1];
      assert Opens(t[0], t[j]);
    }
  }

  /** Bare account openings are all openings, for the user, so no card or operation call is among them. */
  lemma {:induction false} BareAccountsCallsOrdered(kind: AccountKind, userId: string, accounts: seq<AccountResult>)
    ensures var t := BareAccountsCalls(kind, userId, accounts);
      && (forall c <- t :: c.OpenAccount?)
      && LeavesFollowOpening(t) && OnlySeededOperations(t) && OpensOnlyFor(t, userId)
  {
    BareAccountsCallsAre(kind, userId, accounts);
  }

  lemma {:induction false} CardAccountsCallsOrdered(kind: AccountKind, userId: string, accounts: seq<AccountResult>, mainCardIds: seq<string>)
    requires |mainCardIds| == |accounts|
    ensures var t := CardAccountsCalls(kind, userId, accounts, mainCardIds);
      LeavesFollowOpening(t) && OnlySeededOperations(t) && OpensOnlyFor(t, userId)
  {
    if accounts != [] {
      var n := |accounts| - 1;
      CardAccountsCallsOrdered(kind, userId, accounts[..n], mainCardIds[..n]);
      CardAccountCallsOrdered(kind, userId, accounts[n], mainCardIds[n]);
      LeavesFollowOpeningAppend(
        CardAccountsCalls(kind, userId, accounts[..n], mainCardIds[..n]),
        CardAccountCalls(kind, userId, accounts[n], mainCardIds[n]));
    }
  }

  /** The calls that open and populate a user's accounts, kind by kind. */
  function AccountsCalls(u: UserResult, m: MainCards): seq<Call>
    requires MainCardsFit(u, m)
  {
    BareAccountsCalls(Savings, u.userId, u.savingsAccounts)
    + BareAccountsCalls(Deposit, u.userId, u.depositAccounts)
    + CardAccountsCalls(DebitCard, u.userId, u.debitCardAccounts, m.debit)
    + CardAccountsCalls(CreditCard, u.userId, u.creditCardAccounts, m.credit)
  }

  lemma AccountsCallsOrdered(u: UserResult, m: MainCards)
    requires MainCardsFit(u, m)
    ensures var t := AccountsCalls(u, m);
      LeavesFollowOpening(t) && OnlySeededOperations(t) && OpensOnlyFor(t, u.userId)
  {
    var savings := BareAccountsCalls(Savings, u.userId, u.savingsAccounts);
    var deposits := BareAccountsCalls(Deposit, u.userId, u.depositAccounts);
    var debits := CardAccountsCalls(DebitCard, u.userId, u.debitCardAccounts, m.debit);
    var credits := CardAccountsCalls(CreditCard, u.userId, u.creditCardAccounts, m.credit);
    BareAccountsCallsOrdered(Savings, u.userId, u.savingsAccounts);
    BareAccountsCallsOrdered(Deposit, u.userId, u.depositAccounts);
    CardAccountsCallsOrdered(DebitCard, u.userId, u.debitCardAccounts, m.debit);
    CardAccountsCallsOrdered(CreditCard, u.userId, u.creditCardAccounts, m.credit);
    LeavesFollowOpeningAppend(savings, deposits);
    LeavesFollowOpeningAppend(savings + deposits, debits);
    LeavesFollowOpeningAppend(savings + deposits + debits, credits);
  }

  /** Calls made since t0: what was recorded before plus what the last step recorded. */
  lemma AppendAssociates(t0: seq<Call>, calls: seq<Call>, more: seq<Call>)
    ensures t0 + calls + more == t0 + (calls + more)
  {
  }

  /** A user's calls are its creation followed by its accounts' calls. */
  lemma UserCallsSplit(u: UserResult, m: MainCards)
    requires MainCardsFit(u, m)
    ensures UserCalls(u, m) == [CreateUser(u.userId)] + AccountsCalls(u, m)
  {
    var head := [CreateUser(u.userId)];
    var savings := BareAccountsCalls(Savings, u.userId, u.savingsAccounts);
    var deposits := BareAccountsCalls(Deposit, u.userId, u.depositAccounts);
    var debits := CardAccountsCalls(DebitCard, u.userId, u.debitCardAccounts, m.debit);
    var credits := CardAccountsCalls(CreditCard, u.userId, u.creditCardAccounts, m.credit);
    AppendAssociates(head, savings, deposits);
    AppendAssociates(head, savings + deposits, debits);
    AppendAssociates(head, savings + deposits + debits, credits);
  }

  /**
   * A user's calls start with its creation, every account opening follows
   * it, every card issuance and operation follows its account's opening,
   * and no fee, cashback or bill-payment operation is made.
   */
  lemma UserCallsOrdered(u: UserResult, m: MainCards)
    requires MainCardsFit(u, m)
    ensures UserCalls(u, m)[0] == CreateUser(u.userId)
    ensures DependencyOrdered(UserCalls(u, m)) && OnlySeededOperations(UserCalls(u, m))
  {
    var head := [CreateUser(u.userId)];
    var rest := AccountsCalls(u, m);
    var t := head + rest;
    UserCallsSplit(u, m);
    AccountsCallsOrdered(u, m);
    assert LeavesFollowOpening(head);
    LeavesFollowOpeningAppend(head, rest);
    forall j | 0 <= j < |t| && t[j].OpenAccount?
      ensures exists i :: 0 <= i < j && t[i] == CreateUser(t[j].userId)
    {
      assert t[j] == rest[j - 1];
      assert t[0] == CreateUser(t[j].userId);
    }
  }

  /** The calls for a whole result are in dependency order and only make seeded operations. */
  lemma {:induction false} SeedsCallsOrdered(users: seq<UserResult>, ms: seq<MainCards>)
    requires AllMainCardsFit(users, ms)
    ensures DependencyOrdered(SeedsCalls(users, ms)) && OnlySeededOperations(SeedsCalls(users, ms))
  {
    if users != [] {
      var n := |users| - 1;
      SeedsCallsOrdered(users[..n], ms[..n]);
      UserCallsOrdered(users[n], ms[n]);
      LeavesFollowOpeningAppend(SeedsCalls(users[..n], ms[..n]), UserCalls(users[n], ms[n]));
      OpeningsFollowUserAppend(SeedsCalls(users[..n], ms[..n]), UserCalls(users[n], ms[n]));
    }
  }

  // ------------------------------------------------- number of the calls

  /** Cards and operations planned for one account. */
  function LeafCount(p: AccountsPlan): nat
  {
    Times(p.physicalCards.count) + Times(p.virtualCards.count)
    + Times(p.topUpOperations.count) + Times(p.purchaseOperations.count)
    + Times(p.transferOperations.count) + Times(p.cashWithdrawalOperations.count)
  }

  /** Calls planned for one user: its creation, every opening, every card-bearing account's contents. */
  function UserCallCount(p: UsersPlan): nat
  {
    1 + Times(p.savingsAccounts.count) + Times(p.depositAccounts.count)
    + Times(p.debitCardAccounts.count) * (1 + LeafCount(p.debitCardAccounts))
    + Times(p.creditCardAccounts.count) * (1 + LeafCount(p.creditCardAccounts))
  }

  function PlannedCalls(p: SeedsPlan): nat
  {
    Times(p.users.count) * UserCallCount(p.users)
  }

  lemma MultiplySuccessor(n: nat, k: nat)
    ensures (n + 1) * k == n * k + k
  {
  }

  lemma LeafCallsLength(userId: string, a: AccountResult, mainCardId: string, p: AccountsPlan)
    requires AccountConforms(a, p)
    ensures |LeafCalls(userId, a, mainCardId)| == LeafCount(p)
  {
  }

  lemma {:induction false} CardAccountsCallsLength(kind: AccountKind, userId: string, accounts: seq<AccountResult>, mainCardIds: seq<string>, p: AccountsPlan)
    requires |mainCardIds| == |accounts|
    requires forall a <- accounts :: AccountConforms(a, p)
    ensures |CardAccountsCalls(kind, userId, accounts, mainCardIds)| == |accounts| * (1 + LeafCount(p))
  {
    if accounts != [] {
      var n := |accounts| - 1;
      assert forall a <- accounts[..n] :: a in accounts;
      CardAccountsCallsLength(kind, userId, accounts[..n], mainCardIds[..n], p);
      LeafCallsLength(userId, accounts[n], mainCardIds[n], p);
      var k := 1 + LeafCount(p);
      var before := CardAccountsCalls(kind, userId, accounts[..n], mainCardIds[..n]);
      var last := CardAccountCalls(kind, userId, accounts[n], mainCardIds[n]);
      assert |last| == k;
      assert |CardAccountsCalls(kind, userId, accounts, mainCardIds)| == |before| + |last|;
      MultiplySuccessor(n, k);
    }
  }

  lemma UserCallsLength(u: UserResult, m: MainCards, p: UsersPlan)
    requires MainCardsFit(u, m) && UserConforms(u, p)
    ensures |UserCalls(u, m)| == UserCallCount(p)
  {
    CardAccountsCallsLength(DebitCard, u.userId, u.debitCardAccounts, m.debit, p.debitCardAccounts);
    CardAccountsCallsLength(CreditCard, u.userId, u.creditCardAccounts, m.credit, p.creditCardAccounts);
    var debits := |CardAccountsCalls(DebitCard, u.userId, u.debitCardAccounts, m.debit)|;
    var credits := |CardAccountsCalls(CreditCard, u.userId, u.creditCardAccounts, m.credit)|;
    assert debits == Times(p.debitCardAccounts.count) * (1 + LeafCount(p.debitCardAccounts));
    assert credits == Times(p.creditCardAccounts.count) * (1 + LeafCount(p.creditCardAccounts));
    assert |UserCalls(u, m)| == 1 + |u.savingsAccounts| + |u.depositAccounts| + debits + credits;
  }

  /** A result that follows its plan took exactly as many gateway calls as the plan asks for. */
  lemma {:induction false} SeedsCallsLength(users: seq<UserResult>, ms: seq<MainCards>, p: SeedsPlan)
    requires AllMainCardsFit(users, ms)
    requires forall u <- users :: UserConforms(u, p.users)
    ensures |SeedsCalls(users, ms)| == |users| * UserCallCount(p.users)
  {
    if users != [] {
      var n := |users| - 1;
      assert forall u <- users[..n] :: u in users;
      SeedsCallsLength(users[..n], ms[..n], p);
      UserCallsLength(users[n], ms[n], p.users);
      var k := UserCallCount(p.users);
      assert |SeedsCalls(users, ms)| == |SeedsCalls(users[..n], ms[..n])| + |UserCalls(users[n], ms[n])|;
      MultiplySuccessor(n, k);
    }
  }
}
