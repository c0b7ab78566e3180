/**
 * The remote gateway the builder talks to, reduced to what the builder
 * relies on: four capability groups (users, accounts, cards, operations),
 * each call returning freshly issued identifiers, and a trace recording
 * every call in the order it was made together with what it returned.
 */
module Gateway {

  datatype AccountKind = Savings | Deposit | DebitCard | CreditCard {
    /** Opening an account of this kind also issues a default card. */
    predicate HasCards() { DebitCard? || CreditCard? }
  }

  datatype CardKind = Physical | Virtual

  /** Every operation the gateway can make; the seed plan covers four. */
  datatype OperationKind = TopUp | Purchase | Transfer | CashWithdrawal | Fee | Cashback | BillPayment {
    predicate Seeded() { TopUp? || Purchase? || Transfer? || CashWithdrawal? }
  }

  /** One remote call: its arguments and the identifiers it returned. */
  datatype Call =
    | CreateUser(userId: string)
    | OpenAccount(accountKind: AccountKind, userId: string, accountId: string, cardIds: seq<string>)
    | IssueCard(cardKind: CardKind, userId: string, accountId: string, cardId: string)
    | MakeOperation(operationKind: OperationKind, cardId: string, accountId: string, operationId: string)

  /** The identifiers a call returned, in the order it returned them. */
  function Returned(c: Call): seq<string>
  {
    match c
    case CreateUser(u) => [u]
    case OpenAccount(_, _, a, cards) => [a] + cards
    case IssueCard(_, _, _, card) => [card]
    case MakeOperation(_, _, _, op) => [op]
  }

  /** All identifiers a trace returned, call after call. */
  function ReturnedAll(t: seq<Call>): seq<string>
  {
    if t == [] then [] else ReturnedAll(t[..|t| - 1]) + Returned(t[|t| - 1])
  }

  /** The first n identifiers of a supply. */
  function Supplied(supply: nat -> string, n: nat): (ids: seq<string>)
    ensures |ids| == n
    ensures forall k :: 0 <= k < n ==> ids[k] == supply(k)
  {
    seq(n, (k: int) requires 0 <= k => supply(k))
  }

  ghost predicate Injective(supply: nat -> string)
  {
    forall a: nat, b: nat :: supply(a) == supply(b) ==> a == b
  }

  ghost predicate Distinct(ids: seq<string>)
  {
    forall i, j :: 0 <= i < j < |ids| ==> ids[i] != ids[j]
  }

  /** An injective supply never hands out the same identifier twice. */
  lemma SuppliedDistinct(supply: nat -> string, n: nat)
    requires Injective(supply)
    ensures Distinct(Supplied(supply, n))
  {
  }

  /** One more call returns what the earlier calls returned, then its own identifiers. */
  lemma ReturnedAllSnoc(t: seq<Call>, c: Call)
    ensures ReturnedAll(t + [c]) == ReturnedAll(t) + Returned(c)
  {
    assert (t + [c])[..|t|] == t;
  }

  lemma Associates<T>(x: seq<T>, y: seq<T>, z: seq<T>)
    ensures x + y + z == x + (y + z)
  {
  }

  /** Appending a call after a joined trace returns what the joined parts and the call return. */
  lemma ReturnedAllAppendSnoc(a: seq<Call>, front: seq<Call>, c: Call)
    requires ReturnedAll(a + front) == ReturnedAll(a) + ReturnedAll(front)
    ensures ReturnedAll(a + (front + [c])) == ReturnedAll(a) + ReturnedAll(front + [c])
  {
    Associates(a, front, [c]);
    ReturnedAllSnoc(a + front, c);
    ReturnedAllSnoc(front, c);
    Associates(ReturnedAll(a), ReturnedAll(front), Returned(c));
  }

  lemma {:induction false} ReturnedAllAppend(a: seq<Call>, b: seq<Call>)
    ensures ReturnedAll(a + b) == ReturnedAll(a) + ReturnedAll(b)
  {
    if b == [] {
      assert a + b == a;
    } else {
      var front, c := b[..|b| - 1], b[|b| - 1];
      ReturnedAllAppend(a, front);
      ReturnedAllAppendSnoc(a, front, c);
      assert b == front + [c];
    }
  }

  /** Both halves of a repetition-free sequence are repetition-free and share nothing. */
  lemma DistinctSplit(a: seq<string>, b: seq<string>)
    requires Distinct(a + b)
    ensures Distinct(a) && Distinct(b)
    ensures forall x <- a :: x !in b
  {
    forall i, j | 0 <= i < j < |a|
      ensures a[i] != a[j]
    {
      assert a[i] == (a + b)[i] && a[j] == (a + b)[j];
    }
    forall i, j | 0 <= i < j < |b|
      ensures b[i] != b[j]
    {
      assert b[i] == (a + b)[|a| + i] && b[j] == (a + b)[|a| + j];
    }
    forall x <- a
      ensures x !in b
    {
      var i :| 0 <= i < |a| && a[i] == x;
      forall j | 0 <= j < |b|
        ensures b[j] != x
      {
        assert (a + b)[i] == x && (a + b)[|a| + j] == b[j];
      }
    }
  }

  /** Adding an identifier not yet present keeps a sequence repetition-free. */
  lemma DistinctSnoc(ids: seq<string>, x: string)
    requires Distinct(ids) && x !in ids
    ensures Distinct(ids + [x])
  {
    var t := ids + [x];
    forall i, j | 0 <= i < j < |t|
      ensures t[i] != t[j]
    {
      assert t[i] == ids[i];
      if j < |ids| {
        assert t[j] == ids[j];
      }
    }
  }

  /**
   * Extending a repetition-free list of identifiers, all found in `before`,
   * by one found in `after`, where `before + after` repeats nothing, keeps
   * the list repetition-free and every identifier found in `before + after`.
   */
  lemma DistinctExtend(ids: seq<string>, x: string, before: seq<string>, after: seq<string>)
    requires Distinct(before + after) && Distinct(ids)
    requires forall y <- ids :: y in before
    requires x in after
    ensures Distinct(ids + [x])
    ensures forall y <- ids + [x] :: y in before + after
  {
    DistinctSplit(before, after);
    DistinctSnoc(ids, x);
  }

  class Gateway {
    /** Where identifiers come from: the k-th identifier handed out is supply(k). */
    const supply: nat -> string
    /** How many identifiers have been handed out. */
    var issued: nat
    /** Every call made so far, oldest first. */
    var trace: seq<Call>

    /** The identifiers in the trace are exactly the ones handed out, in order. */
    ghost predicate Valid()
      reads this
    {
      Injective(supply) && ReturnedAll(trace) == Supplied(supply, issued)
    }

    constructor (supply: nat -> string)
      requires Injective(supply)
      ensures Valid() && this.supply == supply && issued == 0 && trace == []
    {
      this.supply := supply;
      issued := 0;
      trace := [];
    }

    /** Every identifier the gateway has returned so far is distinct from every other. */
    lemma ReturnedAreFresh()
      requires Valid()
      ensures Distinct(ReturnedAll(trace))
    {
      SuppliedDistinct(supply, issued);
    }

    /** Records call c, which returns the next |Returned(c)| identifiers. */
    method Record(c: Call)
      requires Valid()
      requires Returned(c) == Supplied(supply, issued + |Returned(c)|)[issued..]
      modifies this
      ensures Valid()
      ensures trace == old(trace) + [c] && issued == old(issued) + |Returned(c)|
    {
      var t := trace + [c];
      assert t[..|t| - 1] == trace;
      assert Supplied(supply, issued + |Returned(c)|) == Supplied(supply, issued) + Returned(c);
      trace := t;
      issued := issued + |Returned(c)|;
    }

    method CreateUser() returns (userId: string)
      requires Valid()
      modifies this
      ensures Valid()
      ensures trace == old(trace) + [Call.CreateUser(userId)]
    {
      userId := supply(issued);
      Record(Call.CreateUser(userId));
    }

    /**
     * Opens an account of the given kind for a user. A debit- or
     * credit-card account comes with one default card.
     */
    method OpenAccount(kind: AccountKind, userId: string) returns (accountId: string, cardIds: seq<string>)
      requires Valid()
      modifies this
      ensures Valid()
      ensures kind.HasCards() ==> |cardIds| == 1
      ensures !kind.HasCards() ==> cardIds == []
      ensures trace == old(trace) + [Call.OpenAccount(kind, userId, accountId, cardIds)]
    {
      accountId := supply(issued);
      cardIds := if kind.HasCards() then [supply(issued + 1)] else [];
      Record(Call.OpenAccount(kind, userId, accountId, cardIds));
    }

    method IssueCard(kind: CardKind, userId: string, accountId: string) returns (cardId: string)
      requires Valid()
      modifies this
      ensures Valid()
      ensures trace == old(trace) + [Call.IssueCard(kind, userId, accountId, cardId)]
    {
      cardId := supply(issued);
      Record(Call.IssueCard(kind, userId, accountId, cardId));
    }

    method MakeOperation(kind: OperationKind, cardId: string, accountId: string) returns (operationId: string)
      requires Valid()
      modifies this
      ensures Valid()
      ensures trace == old(trace) + [Call.MakeOperation(kind, cardId, accountId, operationId)]
    {
      operationId := supply(issued);
      Record(Call.MakeOperation(kind, cardId, accountId, operationId));
    }
  }
}
