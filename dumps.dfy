/**
 * Persisting a seed result: the result tree is turned into a JSON value
 * (field names as in the result records), stored under a path derived from
 * the scenario name, and validated back into a result when loaded. Missing
 * list fields decode as empty lists; a missing identifier, a value of the
 * wrong type or a document that is not an object is rejected; fields the
 * records do not have are ignored.
 */
module Dumps {
  import opened Wrappers
  import opened SeedResult

  /** A JSON value, as the dump file holds it. */
  datatype Json =
    | JNull
    | JBool(b: bool)
    | JNumber(n: int)
    | JString(s: string)
    | JArray(items: seq<Json>)
    | JObject(fields: map<string, Json>)

  datatype DecodeError =
    | NotAnObject(what: string)
    | MissingField(field: string)
    | WrongType(field: string)

  datatype LoadError =
    | FileNotFound(path: string)
    | Invalid(error: DecodeError)

  // ------------------------------------------------------------- naming

  const DumpsDir: string := "dumps"
  const DumpSuffix: string := "_seeds.json"

  /** `DUMPS_DIR / f"{scenario}_seeds.json"`, used by both save and load. */
  function DumpPath(scenario: string): string
  {
    DumpsDir + "/" + scenario + DumpSuffix
  }

  /** A dump path is the dumps directory, a slash, the scenario name and the suffix; the name can be read back. */
  lemma DumpPathParts(scenario: string)
    ensures var path := DumpPath(scenario);
      && |path| == |DumpsDir| + 1 + |scenario| + |DumpSuffix|
      && path[..|DumpsDir| + 1] == DumpsDir + "/"
      && path[|DumpsDir| + 1..|path| - |DumpSuffix|] == scenario
      && path[|path| - |DumpSuffix|..] == DumpSuffix
  {
    var path := DumpPath(scenario);
    assert path == (DumpsDir + "/") + scenario + DumpSuffix;
  }

  /** Distinct scenario names give distinct dump files. */
  lemma DumpPathInjective(a: string, b: string)
    ensures DumpPath(a) == DumpPath(b) ==> a == b
  {
    DumpPathParts(a);
    DumpPathParts(b);
  }

  // ----------------------------------------------------------- encoding

  function EncodeList<T>(xs: seq<T>, encode: T -> Json): (j: Json)
  {
    JArray(seq(|xs|, i requires 0 <= i < |xs| => encode(xs[i])))
  }

  function EncodeCard(c: CardResult): Json
  {
    JObject(map["card_id" := JString(c.cardId)])
  }

  function EncodeOperation(o: OperationResult): Json
  {
    JObject(map["operation_id" := JString(o.operationId)])
  }

  function EncodeAccount(a: AccountResult): Json
  {
    JObject(map[
      "account_id" := JString(a.accountId),
      "physical_cards" := EncodeList(a.physicalCards, EncodeCard),
      "virtual_cards" := EncodeList(a.virtualCards, EncodeCard),
      "top_up_operations" := EncodeList(a.topUpOperations, EncodeOperation),
      "purchase_operations" := EncodeList(a.purchaseOperations, EncodeOperation),
      "transfer_operations" := EncodeList(a.transferOperations, EncodeOperation),
      "cash_withdrawal_operations" := EncodeList(a.cashWithdrawalOperations, EncodeOperation)])
  }

  function EncodeUser(u: UserResult): Json
  {
    JObject(map[
      "user_id" := JString(u.userId),
      "deposit_accounts" := EncodeList(u.depositAccounts, EncodeAccount),
      "savings_accounts" := EncodeList(u.savingsAccounts, EncodeAccount),
      "debit_card_accounts" := EncodeList(u.debitCardAccounts, EncodeAccount),
      "credit_card_accounts" := EncodeList(u.creditCardAccounts, EncodeAccount)])
  }

  /** `result.model_dump()`: the root object with its one field, the users. */
  function EncodeSeeds(users: seq<UserResult>): Json
  {
    JObject(map["users" := EncodeList(users, EncodeUser)])
  }

  // ----------------------------------------------------------- decoding

  /** Decodes every element in order; the first element that fails fails the list. */
  function DecodeList<T>(items: seq<Json>, decode: Json -> Result<T, DecodeError>): (r: Result<seq<T>, DecodeError>)
    ensures r.Success? ==> |r.value| == |items|
  {
    if items == [] then Success([])
    else
      var x :- decode(items[0]);
      var rest :- DecodeList(items[1..], decode);
      Success([x] + rest)
  }

  /** A required string field. */
  function StringField(fields: map<string, Json>, name: string): (r: Result<string, DecodeError>)
    ensures name !in fields ==> r == Failure(MissingField(name))
    ensures r.Success? <==> name in fields && fields[name].JString?
    ensures r.Success? ==> fields[name] == JString(r.value)
  {
    if name !in fields then Failure(MissingField(name))
    else match fields[name]
      case JString(s) => Success(s)
      case _ => Failure(WrongType(name))
  }

  /** A list field that defaults to the empty list when absent. */
  function ListField<T>(fields: map<string, Json>, name: string, decode: Json -> Result<T, DecodeError>): (r: Result<seq<T>, DecodeError>)
    ensures name !in fields ==> r == Success([])
    ensures name in fields && !fields[name].JArray? ==> r == Failure(WrongType(name))
  {
    if name !in fields then Success([])
    else match fields[name]
      case JArray(items) => DecodeList(items, decode)
      case _ => Failure(WrongType(name))
  }

  function DecodeCard(j: Json): (r: Result<CardResult, DecodeError>)
    ensures r.Success? <==> j.JObject? && "card_id" in j.fields && j.fields["card_id"].JString?
  {
    match j
    case JObject(fields) =>
      var id :- StringField(fields, "card_id");
      Success(CardResult(id))
    case _ => Failure(NotAnObject("card"))
  }

  function DecodeOperation(j: Json): (r: Result<OperationResult, DecodeError>)
    ensures r.Success? <==> j.JObject? && "operation_id" in j.fields && j.fields["operation_id"].JString?
  {
    match j
    case JObject(fields) =>
      var id :- StringField(fields, "operation_id");
      Success(OperationResult(id))
    case _ => Failure(NotAnObject("operation"))
  }

  /** An account without `account_id` is rejected; absent lists decode as empty. */
  function DecodeAccount(j: Json): (r: Result<AccountResult, DecodeError>)
    ensures j.JObject? && "account_id" !in j.fields ==> r == Failure(MissingField("account_id"))
    ensures r.Success? ==> j.JObject? && j.fields["account_id"] == JString(r.value.accountId)
    ensures r.Success? && "physical_cards" !in j.fields ==> r.value.physicalCards == []
    ensures r.Success? && "virtual_cards" !in j.fields ==> r.value.virtualCards == []
    ensures r.Success? && "top_up_operations" !in j.fields ==> r.value.topUpOperations == []
    ensures r.Success? && "purchase_operations" !in j.fields ==> r.value.purchaseOperations == []
    ensures r.Success? && "transfer_operations" !in j.fields ==> r.value.transferOperations == []
    ensures r.Success? && "cash_withdrawal_operations" !in j.fields ==> r.value.cashWithdrawalOperations == []
  {
    match j
    case JObject(fields) =>
      var id :- StringField(fields, "account_id");
      var physical :- ListField(fields, "physical_cards", DecodeCard);
      var virtual :- ListField(fields, "virtual_cards", DecodeCard);
      var operations :- DecodeOperationLists(fields);
      Success(AccountResult(id, physical, virtual, operations.topUps, operations.purchases,
                            operations.transfers, operations.withdrawals))
    case _ => Failure(NotAnObject("account"))
  }

  /** The four operation lists of an account, in the order the record declares them. */
  datatype OperationLists = OperationLists(
    topUps: seq<OperationResult>,
    purchases: seq<OperationResult>,
    transfers: seq<OperationResult>,
    withdrawals: seq<OperationResult>)

  function DecodeOperationLists(fields: map<string, Json>): (r: Result<OperationLists, DecodeError>)
    ensures r.Success? && "top_up_operations" !in fields ==> r.value.topUps == []
    ensures r.Success? && "purchase_operations" !in fields ==> r.value.purchases == []
    ensures r.Success? && "transfer_operations" !in fields ==> r.value.transfers == []
    ensures r.Success? && "cash_withdrawal_operations" !in fields ==> r.value.withdrawals == []
  {
    var topUps :- ListField(fields, "top_up_operations", DecodeOperation);
    var purchases :- ListField(fields, "purchase_operations", DecodeOperation);
    var transfers :- ListField(fields, "transfer_operations", DecodeOperation);
    var withdrawals :- ListField(fields, "cash_withdrawal_operations", DecodeOperation);
    Success(OperationLists(topUps, purchases, transfers, withdrawals))
  }

  /** A user without `user_id` is rejected; absent account lists decode as empty. */
  function DecodeUser(j: Json): (r: Result<UserResult, DecodeError>)
    ensures j.JObject? && "user_id" !in j.fields ==> r == Failure(MissingField("user_id"))
    ensures r.Success? ==> j.JObject? && j.fields["user_id"] == JString(r.value.userId)
    ensures r.Success? && "deposit_accounts" !in j.fields ==> r.value.depositAccounts == []
    ensures r.Success? && "savings_accounts" !in j.fields ==> r.value.savingsAccounts == []
    ensures r.Success? && "debit_card_accounts" !in j.fields ==> r.value.debitCardAccounts == []
    ensures r.Success? && "credit_card_accounts" !in j.fields ==> r.value.creditCardAccounts == []
  {
    match j
    case JObject(fields) =>
      var id :- StringField(fields, "user_id");
      var accounts :- DecodeAccountLists(fields);
      Success(UserResult(id, accounts.deposits, accounts.savings, accounts.debits, accounts.credits))
    case _ => Failure(NotAnObject("user"))
  }

  /** The four account lists of a user, in the order the record declares them. */
  datatype AccountLists = AccountLists(
    deposits: seq<AccountResult>,
    savings: seq<AccountResult>,
    debits: seq<AccountResult>,
    credits: seq<AccountResult>)

  function DecodeAccountLists(fields: map<string, Json>): (r: Result<AccountLists, DecodeError>)
    ensures r.Success? && "deposit_accounts" !in fields ==> r.value.deposits == []
    ensures r.Success? && "savings_accounts" !in fields ==> r.value.savings == []
    ensures r.Success? && "debit_card_accounts" !in fields ==> r.value.debits == []
    ensures r.Success? && "credit_card_accounts" !in fields ==> r.value.credits == []
  {
    var deposits :- ListField(fields, "deposit_accounts", DecodeAccount);
    var savings :- ListField(fields, "savings_accounts", DecodeAccount);
    var debits :- ListField(fields, "debit_card_accounts", DecodeAccount);
    var credits :- ListField(fields, "credit_card_accounts", DecodeAccount);
    Success(AccountLists(deposits, savings, debits, credits))
  }

  /** `SeedsResult(**data)`: the document must be an object; an absent `users` gives no users. */
  function DecodeSeeds(j: Json): (r: Result<seq<UserResult>, DecodeError>)
    ensures !j.JObject? ==> r.Failure?
    ensures j.JObject? && "users" !in j.fields ==> r == Success([])
  {
    match j
    case JObject(fields) => ListField(fields, "users", DecodeUser)
    case _ => Failure(NotAnObject("seeds result"))
  }

  // --------------------------------------------------------- round trip

  /** A list of values that each decode back to themselves decodes back to itself. */
  lemma {:induction false} ListRoundTrip<T>(xs: seq<T>, encode: T -> Json, decode: Json -> Result<T, DecodeError>)
    requires forall x <- xs :: decode(encode(x)) == Success(x)
    ensures DecodeList(EncodeList(xs, encode).items, decode) == Success(xs)
  {
    if xs != [] {
      var items := EncodeList(xs, encode).items;
      assert items[1..] == EncodeList(xs[1..], encode).items;
      assert forall x <- xs[1..] :: x in xs;
      ListRoundTrip(xs[1..], encode, decode);
      assert [xs[0]] + xs[1..] == xs;
    }
  }

  /** The field `name` is present and holds the encoding of xs. */
  predicate HoldsList<T>(fields: map<string, Json>, name: string, xs: seq<T>, encode: T -> Json)
  {
    name in fields && fields[name] == EncodeList(xs, encode)
  }

  /** The field `name` is absent and xs is empty, or the field holds the encoding of xs. */
  predicate AbsentOrHolds<T>(fields: map<string, Json>, name: string, xs: seq<T>, encode: T -> Json)
  {
    (name !in fields && xs == []) || HoldsList(fields, name, xs, encode)
  }

  /** A list field that is absent decodes as empty; one holding an encoded list decodes back to that list. */
  lemma ListFieldRoundTrip<T>(fields: map<string, Json>, name: string, xs: seq<T>, encode: T -> Json, decode: Json -> Result<T, DecodeError>)
    requires AbsentOrHolds(fields, name, xs, encode)
    requires forall x <- xs :: decode(encode(x)) == Success(x)
    ensures ListField(fields, name, decode) == Success(xs)
  {
    if name in fields {
      ListRoundTrip(xs, encode, decode);
    }
  }

  /** Where `model_dump` puts each field of an account. */
  lemma EncodedAccountFields(a: AccountResult)
    ensures var fields := EncodeAccount(a).fields;
      && "account_id" in fields && fields["account_id"] == JString(a.accountId)
      && HoldsList(fields, "physical_cards", a.physicalCards, EncodeCard)
      && HoldsList(fields, "virtual_cards", a.virtualCards, EncodeCard)
      && HoldsList(fields, "top_up_operations", a.topUpOperations, EncodeOperation)
      && HoldsList(fields, "purchase_operations", a.purchaseOperations, EncodeOperation)
      && HoldsList(fields, "transfer_operations", a.transferOperations, EncodeOperation)
      && HoldsList(fields, "cash_withdrawal_operations", a.cashWithdrawalOperations, EncodeOperation)
  {
  }

  lemma OperationListsRoundTrip(fields: map<string, Json>, a: AccountResult)
    requires AbsentOrHolds(fields, "top_up_operations", a.topUpOperations, EncodeOperation)
    requires AbsentOrHolds(fields, "purchase_operations", a.purchaseOperations, EncodeOperation)
    requires AbsentOrHolds(fields, "transfer_operations", a.transferOperations, EncodeOperation)
    requires AbsentOrHolds(fields, "cash_withdrawal_operations", a.cashWithdrawalOperations, EncodeOperation)
    ensures DecodeOperationLists(fields)
         == Success(OperationLists(a.topUpOperations, a.purchaseOperations, a.transferOperations, a.cashWithdrawalOperations))
  {
    ListFieldRoundTrip(fields, "top_up_operations", a.topUpOperations, EncodeOperation, DecodeOperation);
    ListFieldRoundTrip(fields, "purchase_operations", a.purchaseOperations, EncodeOperation, DecodeOperation);
    ListFieldRoundTrip(fields, "transfer_operations", a.transferOperations, EncodeOperation, DecodeOperation);
    ListFieldRoundTrip(fields, "cash_withdrawal_operations", a.cashWithdrawalOperations, EncodeOperation, DecodeOperation);
  }

  /**
   * An object with a string `account_id` whose six list fields are each
   * absent (standing for the empty list) or hold an encoded list decodes to
   * the account with that id and those lists.
   */
  lemma DecodeAccountFields(fields: map<string, Json>, a: AccountResult)
    requires "account_id" in fields && fields["account_id"] == JString(a.accountId)
    requires AbsentOrHolds(fields, "physical_cards", a.physicalCards, EncodeCard)
    requires AbsentOrHolds(fields, "virtual_cards", a.virtualCards, EncodeCard)
    requires AbsentOrHolds(fields, "top_up_operations", a.topUpOperations, EncodeOperation)
    requires AbsentOrHolds(fields, "purchase_operations", a.purchaseOperations, EncodeOperation)
    requires AbsentOrHolds(fields, "transfer_operations", a.transferOperations, EncodeOperation)
    requires AbsentOrHolds(fields, "cash_withdrawal_operations", a.cashWithdrawalOperations, EncodeOperation)
    ensures DecodeAccount(JObject(fields)) == Success(a)
  {
    assert StringField(fields, "account_id") == Success(a.accountId);
    ListFieldRoundTrip(fields, "physical_cards", a.physicalCards, EncodeCard, DecodeCard);
    ListFieldRoundTrip(fields, "virtual_cards", a.virtualCards, EncodeCard, DecodeCard);
    OperationListsRoundTrip(fields, a);
  }

  lemma AccountRoundTrip(a: AccountResult)
    ensures DecodeAccount(EncodeAccount(a)) == Success(a)
  {
    EncodedAccountFields(a);
    DecodeAccountFields(EncodeAccount(a).fields, a);
  }

  lemma AccountsRoundTrip(accounts: seq<AccountResult>)
    ensures forall a <- accounts :: DecodeAccount(EncodeAccount(a)) == Success(a)
  {
    forall a <- accounts
      ensures DecodeAccount(EncodeAccount(a)) == Success(a)
    {
      AccountRoundTrip(a);
    }
  }

  /** Where `model_dump` puts each field of a user. */
  lemma EncodedUserFields(u: UserResult)
    ensures var fields := EncodeUser(u).fields;
      && "user_id" in fields && fields["user_id"] == JString(u.userId)
      && HoldsList(fields, "deposit_accounts", u.depositAccounts, EncodeAccount)
      && HoldsList(fields, "savings_accounts", u.savingsAccounts, EncodeAccount)
      && HoldsList(fields, "debit_card_accounts", u.debitCardAccounts, EncodeAccount)
      && HoldsList(fields, "credit_card_accounts", u.creditCardAccounts, EncodeAccount)
  {
  }

  lemma AccountListsRoundTrip(fields: map<string, Json>, u: UserResult)
    requires AbsentOrHolds(fields, "deposit_accounts", u.depositAccounts, EncodeAccount)
    requires AbsentOrHolds(fields, "savings_accounts", u.savingsAccounts, EncodeAccount)
    requires AbsentOrHolds(fields, "debit_card_accounts", u.debitCardAccounts, EncodeAccount)
    requires AbsentOrHolds(fields, "credit_card_accounts", u.creditCardAccounts, EncodeAccount)
    ensures DecodeAccountLists(fields)
         == Success(AccountLists(u.depositAccounts, u.savingsAccounts, u.debitCardAccounts, u.creditCardAccounts))
  {
    AccountsRoundTrip(u.depositAccounts);
    AccountsRoundTrip(u.savingsAccounts);
    AccountsRoundTrip(u.debitCardAccounts);
    AccountsRoundTrip(u.creditCardAccounts);
    ListFieldRoundTrip(fields, "deposit_accounts", u.depositAccounts, EncodeAccount, DecodeAccount);
    ListFieldRoundTrip(fields, "savings_accounts", u.savingsAccounts, EncodeAccount, DecodeAccount);
    ListFieldRoundTrip(fields, "debit_card_accounts", u.debitCardAccounts, EncodeAccount, DecodeAccount);
    ListFieldRoundTrip(fields, "credit_card_accounts", u.creditCardAccounts, EncodeAccount, DecodeAccount);
  }

  /**
   * An object with a string `user_id` whose four account lists are each
   * absent (standing for the empty list) or hold an encoded list decodes to
   * the user with that id and those lists.
   */
  lemma DecodeUserFields(fields: map<string, Json>, u: UserResult)
    requires "user_id" in fields && fields["user_id"] == JString(u.userId)
    requires AbsentOrHolds(fields, "deposit_accounts", u.depositAccounts, EncodeAccount)
    requires AbsentOrHolds(fields, "savings_accounts", u.savingsAccounts, EncodeAccount)
    requires AbsentOrHolds(fields, "debit_card_accounts", u.debitCardAccounts, EncodeAccount)
    requires AbsentOrHolds(fields, "credit_card_accounts", u.creditCardAccounts, EncodeAccount)
    ensures DecodeUser(JObject(fields)) == Success(u)
  {
    assert StringField(fields, "user_id") == Success(u.userId);
    AccountListsRoundTrip(fields, u);
  }

  lemma UserRoundTrip(u: UserResult)
    ensures DecodeUser(EncodeUser(u)) == Success(u)
  {
    EncodedUserFields(u);
    DecodeUserFields(EncodeUser(u).fields, u);
  }

  /** Decoding what `model_dump` produced gives back the same users. */
  lemma SeedsRoundTrip(users: seq<UserResult>)
    ensures DecodeSeeds(EncodeSeeds(users)) == Success(users)
  {
    forall u <- users
      ensures DecodeUser(EncodeUser(u)) == Success(u)
    {
      UserRoundTrip(u);
    }
    ListRoundTrip(users, EncodeUser, DecodeUser);
  }

  /** Saving one scenario leaves the dump of every other scenario as it was. */
  lemma SaveLeavesOthers(files: map<string, Json>, scenario: string, doc: Json, other: string)
    requires other != scenario
    ensures var saved := files[DumpPath(scenario) := doc];
      (DumpPath(other) in saved <==> DumpPath(other) in files)
      && (DumpPath(other) in files ==> saved[DumpPath(other)] == files[DumpPath(other)])
  {
    DumpPathInjective(scenario, other);
  }

  // -------------------------------------------------------------- store

  /** The dumps directory: each file path maps to the JSON document it holds. */
  class DumpStore {
    var files: map<string, Json>

    constructor (files: map<string, Json>)
      ensures this.files == files
    {
      this.files := files;
    }

    /** Writes the result to the scenario's file, replacing whatever it held. */
    method Save(result: SeedsResult, scenario: string)
      modifies this
      ensures files == old(files)[DumpPath(scenario) := EncodeSeeds(result.users)]
    {
      files := files[DumpPath(scenario) := EncodeSeeds(result.users)];
    }

    /** Reads the scenario's file back into a new result; fails if it is absent or invalid. */
    method Load(scenario: string) returns (r: Result<SeedsResult, LoadError>)
      ensures DumpPath(scenario) !in files ==> r.Failure? && r.error == FileNotFound(DumpPath(scenario))
      ensures DumpPath(scenario) in files ==>
        match DecodeSeeds(files[DumpPath(scenario)])
        case Failure(e) => r.Failure? && r.error == Invalid(e)
        case Success(users) => r.Success? && fresh(r.value) && r.value.users == users
    {
      var path := DumpPath(scenario);
      if path !in files {
        return Failure(FileNotFound(path));
      }
      match DecodeSeeds(files[path]) {
        case Failure(e) =>
          r := Failure(Invalid(e));
        case Success(users) =>
          var result := new SeedsResult(users);
          r := Success(result);
      }
    }
  }

  /**
   * Loading right after saving gives back a result equal to the saved one,
   * and the dumps of other scenarios are untouched.
   */
  method SaveThenLoad(store: DumpStore, result: SeedsResult, scenario: string) returns (loaded: Result<SeedsResult, LoadError>)
    modifies store
    ensures loaded.Success? && loaded.value.users == result.users
    ensures forall other :: other != scenario && DumpPath(other) in old(store.files) ==>
      DumpPath(other) in store.files && store.files[DumpPath(other)] == old(store.files)[DumpPath(other)]
  {
    store.Save(result, scenario);
    SeedsRoundTrip(result.users);
    loaded := store.Load(scenario);
    forall other | other != scenario && DumpPath(other) in old(store.files)
      ensures DumpPath(other) in store.files && store.files[DumpPath(other)] == old(store.files)[DumpPath(other)]
    {
      SaveLeavesOthers(old(store.files), scenario, EncodeSeeds(result.users), other);
    }
  }
}
