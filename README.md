# Seed-data builder and course store, in Dafny

This project models two parts of a load-testing harness for a banking gateway.

**Seeding subsystem.** A declarative plan (`Plan`) says how many users to create. It also says, for each user, how many savings, deposit, debit-card and credit-card accounts to open. For each debit- and credit-card account it says how many physical and virtual cards to issue and how many top-up, purchase, transfer and cash-withdrawal operations to make. Every count defaults to 0, and a negative count means "none", as Python's `range` treats it.

The builder (`Builder.SeedsBuilder`) walks the plan and calls a remote gateway (`Gateway.Gateway`). The gateway is modelled as one collaborator that hands out fresh identifiers and records every call it receives in a trace. The builder collects the returned identifiers into a result tree (`SeedResult`). Each builder method states two things:
- the shape of what it returns, against the plan;
- the exact calls it appended to the gateway's trace.

`BuilderSpec` then proves properties of those call sequences:
- every account opening follows its user's creation;
- every card issuance and every operation follows its account's opening;
- operations use the main card that the opening returned;
- no fee, cashback or bill-payment operation is ever made;
- the number of calls is exactly what the plan asks for.

The result is persisted by scenario name (`Dumps`):
- a JSON-value encoding uses the record field names;
- decoding validates the document: missing lists become empty, and missing identifiers are rejected;
- a path-keyed store models the dump directory;
- the round trip `load(save(r)) == r` is proved.

Two presets (`Scenarios`) fix concrete plans. Their lemmas show that the load tasks' `accounts[0]` lookups are always in range on a result that follows the preset.

**In-memory course service** (`Courses`). A list of courses supports find, create, update and delete. Create assigns the id `len + 1`. The HTTP handlers answer not-found when `find` fails. Ids are not unique: `Courses.IdReuse` shows that create, create, delete 1, create leaves two courses with id 2. Nothing in the model assumes uniqueness.

Modelling notes on behaviour the code fixes:
- Loading ignores fields the records do not declare. This is what the validation library does by default (`extra='ignore'`); no record in seeds/schema/result.py changes that setting.
- `update` on a missing id raises `StopIteration` in the code (fastapi_courses.py:48). Here it is an explicit `Failure(NoSuchCourse)` that leaves the store unchanged.

A built result repeats no identifier within any of its lists. `Builder.BuildIdsAreUnique` proves this from the gateway's fresh identifiers (`BuilderIds`).

Files: `wrappers.dfy` (Option/Result), `plan.dfy`, `seed_result.dfy`, `gateway.dfy`, `builder_spec.dfy`, `builder_ids.dfy`, `builder.dfy`, `dumps.dfy`, `scenarios.dfy`, `courses.dfy`.

## Model

| member | source | states |
|---|---|---|
| Plan.Times | seeds/builder.py:227 | `range(count)` runs `count` times for a non-negative count and never for a negative one |
| Plan.DefaultPlansAreZero | seeds/schema/plan.py:37-76 | every count defaults to 0 and every omitted sub-plan is a plan whose counts are all 0 |
| SeedResult.SeedsResult.constructor | seeds/schema/result.py:76 | a result holds exactly the users it is given; the list defaults to empty |
| SeedResult.SeedsResult.GetNextUser | seeds/schema/result.py:78-80 | returns the first user and leaves the rest in their original order; on an empty list it fails and nothing changes |
| SeedResult.SeedsResult.GetRandomUser | seeds/schema/result.py:82-85 | returns some member of the users without changing them; fails exactly when there are none |
| SeedResult.DrainUsers | seeds/schema/result.py:78-80 | taking the next user until that fails yields every original user once, in order, and leaves the list empty |
| Gateway.Gateway.constructor | seeds/builder.py:10-23 | a fresh gateway has made no calls and handed out no identifiers |
| Gateway.Gateway.ReturnedAreFresh | seeds/builder.py:202-203 | no identifier the gateway returns repeats one it returned before |
| Gateway.Gateway.CreateUser | seeds/builder.py:202-203 | one user-creation call is appended to the trace, recording the id it returned |
| Gateway.Gateway.OpenAccount | seeds/builder.py:111-114 | one opening is appended to the trace; debit- and credit-card accounts come with exactly one card, the others with none |
| Gateway.Gateway.IssueCard | seeds/builder.py:29-33 | one card issuance for the given user and account is appended to the trace |
| Gateway.Gateway.MakeOperation | seeds/builder.py:51-55 | one operation of the given kind on the given card and account is appended to the trace |
| BuilderSpec.CardCallsTarget | seeds/builder.py:119-127 | every card issuance of an account is for that account's user and account |
| BuilderSpec.OperationCallsTarget | seeds/builder.py:129-147 | every operation of an account uses that account and the opening's first card, and is of a seeded kind |
| BuilderSpec.CardCallsAre | seeds/builder.py:119-127 | the k-th card issuance returned the k-th stored card id |
| BuilderSpec.OperationCallsAre | seeds/builder.py:129-147 | the k-th operation call returned the k-th stored operation id |
| BuilderSpec.BareAccountsCallsAre | seeds/builder.py:207-208 | the k-th savings or deposit opening returned the k-th stored account id, with no cards |
| BuilderSpec.LeafCallsTargetAccount | seeds/builder.py:113-147 | everything made for a card-bearing account depends on that account's opening, and only seeded operation kinds occur |
| BuilderSpec.CardAccountCallsOrdered | seeds/builder.py:111-148 | the opening comes first, and every card and operation of the account follows it |
| BuilderSpec.BareAccountsCallsOrdered | seeds/builder.py:207-208 | every call for bare accounts is an opening for the user, so none is a card issuance or an operation |
| BuilderSpec.CardAccountsCallsOrdered | seeds/builder.py:209-216 | across a list of card-bearing accounts, every card and operation follows its own account's opening |
| BuilderSpec.AccountsCallsOrdered | seeds/builder.py:207-216 | a user's account calls, in the order savings, deposit, debit, credit, keep every dependency and open accounts only for that user |
| BuilderSpec.UserCallsOrdered | seeds/builder.py:202-216 | a user's calls start with its creation; every opening follows it and every card and operation follows its opening |
| BuilderSpec.SeedsCallsOrdered | seeds/builder.py:227 | the calls for the whole result are in dependency order and make only seeded operations |
| BuilderSpec.CardAccountsCallsLength | seeds/builder.py:209-216 | each card-bearing account costs one opening plus one call per planned card and operation |
| BuilderSpec.UserCallsLength | seeds/builder.py:202-216 | a user costs exactly the number of calls its users plan asks for |
| BuilderSpec.SeedsCallsLength | seeds/builder.py:227 | the whole result costs the number of users times the calls per user |
| BuilderIds.CardCallsReturn | seeds/builder.py:119-127 | the card issuances return exactly the stored card ids, in list order |
| BuilderIds.OperationCallsReturn | seeds/builder.py:129-147 | the operation calls return exactly the stored operation ids, in list order |
| BuilderIds.BareAccountsCallsReturn | seeds/builder.py:207-208 | the bare openings return exactly the stored account ids, in list order |
| BuilderIds.CardAccountCallsReturn | seeds/builder.py:111-148 | a card-bearing account's calls return its account id, its main card, then the ids of its contents |
| BuilderIds.UserCallsReturn | seeds/builder.py:198-217 | a user's calls return the user id, then the ids of its savings, deposit, debit and credit accounts and their contents |
| BuilderIds.LeafCallsUnique | seeds/builder.py:116-148 | if an account's calls return no identifier twice, none of its card or operation lists repeats one |
| BuilderIds.CardAccountsCallsUnique | seeds/builder.py:209-216 | if a list of card-bearing accounts' calls returns no identifier twice, the account ids are distinct, every account id is among those returned, and no list inside an account repeats an id |
| BuilderIds.UserCallsUnique | seeds/builder.py:198-217 | if a user's calls return no identifier twice, no account list or account content list of the user repeats an id |
| BuilderIds.SeedsCallsUnique | seeds/builder.py:221-227 | if a whole result's calls return no identifier twice, the user ids are distinct and no list inside any user repeats an id |
| Builder.SeedsBuilder.constructor | seeds/builder.py:10-23 | the builder talks to the gateway it is given |
| Builder.SeedsBuilder.BuildPhysicalCardResult | seeds/builder.py:27-33 | issues one physical card to the user and account and stores the returned id |
| Builder.SeedsBuilder.BuildVirtualCardResult | seeds/builder.py:35-45 | issues one virtual card to the user and account and stores the returned id |
| Builder.SeedsBuilder.BuildTopUpOperationResult | seeds/builder.py:49-55 | makes one top-up on the card and account and stores the returned id |
| Builder.SeedsBuilder.BuildPurchaseOperationResult | seeds/builder.py:57-63 | makes one purchase on the card and account and stores the returned id |
| Builder.SeedsBuilder.BuildTransferOperationResult | seeds/builder.py:65-75 | makes one transfer on the card and account and stores the returned id |
| Builder.SeedsBuilder.BuildCashWithdrawalOperationResult | seeds/builder.py:77-87 | makes one cash withdrawal on the card and account and stores the returned id |
| Builder.SeedsBuilder.BuildCards | seeds/builder.py:119-127 | issues as many cards as `range(count)` runs, in order, each stored with the id its call returned |
| Builder.SeedsBuilder.BuildOperations | seeds/builder.py:129-147 | makes as many operations of one seeded kind as `range(count)` runs, each stored with its returned id |
| Builder.SeedsBuilder.BuildSavingsAccountResult | seeds/builder.py:91-94 | opens one savings account; the result has no cards or operations |
| Builder.SeedsBuilder.BuildDepositAccountResult | seeds/builder.py:96-99 | opens one deposit account; the result has no cards or operations |
| Builder.SeedsBuilder.BuildCardAccountContents | seeds/builder.py:116-148 | every list has its planned length; calls go physical, virtual, top-up, purchase, transfer, cash withdrawal; operations use the main card |
| Builder.SeedsBuilder.BuildCardAccountResult | seeds/builder.py:111-114 | opens the account, takes the opening's first card as the main card, then populates the account from the plan |
| Builder.SeedsBuilder.BuildDebitCardAccountResult | seeds/builder.py:101-148 | a debit-card account follows its account plan, and its calls are the opening followed by its contents |
| Builder.SeedsBuilder.BuildCreditCardAccountResult | seeds/builder.py:150-194 | a credit-card account follows its account plan, and its calls are the opening followed by its contents |
| Builder.SeedsBuilder.BuildBareAccounts | seeds/builder.py:207-208 | opens `range(count)` savings or deposit accounts, all bare, whatever their sub-plans say |
| Builder.SeedsBuilder.BuildCardAccounts | seeds/builder.py:209-216 | opens `range(plan.count)` card-bearing accounts, every one following the same account plan |
| Builder.SeedsBuilder.BuildUser | seeds/builder.py:198-217 | creates the user first, then its savings, deposit, debit and credit accounts, each list as long as planned |
| Builder.SeedsBuilder.BuildUsers | seeds/builder.py:227 | builds `range(users.count)` users in turn, each following the same users plan |
| Builder.SeedsBuilder.Build | seeds/builder.py:221-227 | returns a new result following the plan, whose calls are exactly the users' calls in order |
| Builder.BuildTraceIsOrdered | seeds/builder.py:221-227 | a build appends a dependency-ordered call sequence with only seeded operations, exactly as long as the plan asks |
| Builder.BuildIdsAreUnique | seeds/builder.py:221-227 | a built result follows the plan and repeats no identifier among its users, within any user's account list, or within any account's card or operation list |
| Dumps.DumpPathParts | seeds/dumps.py:18 | a dump path is the dumps directory, a slash, the scenario name and `_seeds.json`, and the name can be read back from it |
| Dumps.DumpPathInjective | seeds/dumps.py:18 | distinct scenario names map to distinct dump files |
| Dumps.StringField | seeds/schema/result.py:38 | a required identifier that is absent is reported missing, and one that is not a string is rejected |
| Dumps.ListField | seeds/schema/result.py:40-47 | an absent list field decodes as the empty list; a non-array is rejected |
| Dumps.DecodeList | seeds/dumps.py:36 | a decoded list has one element per array item |
| Dumps.DecodeCard | seeds/schema/result.py:4-11 | a card decodes exactly when it is an object with a string `card_id` |
| Dumps.DecodeOperation | seeds/schema/result.py:14-21 | an operation decodes exactly when it is an object with a string `operation_id` |
| Dumps.DecodeAccount | seeds/schema/result.py:24-47 | an account without `account_id` is rejected; a decoded account has the document's id, and an empty list wherever the list field is absent |
| Dumps.DecodeOperationLists | seeds/schema/result.py:43-47 | absent operation lists decode as empty |
| Dumps.DecodeUser | seeds/schema/result.py:50-66 | a user without `user_id` is rejected; a decoded user has the document's id, and an empty list wherever the list field is absent |
| Dumps.DecodeAccountLists | seeds/schema/result.py:63-66 | absent account lists decode as empty |
| Dumps.DecodeSeeds | seeds/dumps.py:34-36 | a document that is not an object is rejected; one without `users` has no users |
| Dumps.ListRoundTrip | seeds/dumps.py:21-36 | a list whose elements each survive dump-then-validate survives it as a whole, in order |
| Dumps.ListFieldRoundTrip | seeds/schema/result.py:40-47 | a list field decodes to the empty list when absent, and to the encoded list when it holds one |
| Dumps.DecodeAccountFields | seeds/schema/result.py:24-47 | an object with a string `account_id` decodes successfully to that id, with each list field either decoded from its encoding or, when absent, empty |
| Dumps.DecodeUserFields | seeds/schema/result.py:50-66 | an object with a string `user_id` decodes successfully to that id, with each account list either decoded from its encoding or, when absent, empty |
| Dumps.AccountRoundTrip | seeds/schema/result.py:24-47 | an account survives dump-then-validate unchanged |
| Dumps.UserRoundTrip | seeds/schema/result.py:50-66 | a user survives dump-then-validate unchanged |
| Dumps.SeedsRoundTrip | seeds/dumps.py:21-36 | validating what `model_dump` produced gives back the same users |
| Dumps.SaveLeavesOthers | seeds/dumps.py:18-21 | saving one scenario leaves every other scenario's dump as it was |
| Dumps.DumpStore.Save | seeds/dumps.py:14-21 | the scenario's file now holds the encoded result, replacing any earlier dump; no other file changes |
| Dumps.DumpStore.Load | seeds/dumps.py:27-36 | an absent file fails; an invalid document fails with its validation error; otherwise a new result holds the decoded users |
| Dumps.SaveThenLoad | seeds/dumps.py:14-36 | loading right after saving succeeds with users equal to the saved ones, and other scenarios' dumps are untouched |
| Scenarios.GetOperationsShape | seeds/scenarios/existing_user_get_operations.py:29-38 | a result following the preset has 300 users, each with only one credit-card account holding 5 purchases, 1 top-up and 1 cash withdrawal |
| Scenarios.GetOperationsCallCount | seeds/scenarios/existing_user_get_operations.py:29-38 | building the preset takes 9 calls per user for 300 users |
| Scenarios.SampleCreditCardAccount | scenarios/http/gateway/existing_user_get_operations/scenario.py:30-41 | on such a result, sampling a user and reading `credit_card_accounts[0]` is in range; only an empty result fails |
| Scenarios.IssueVirtualCardShape | seeds/scenarios/existing_user_issue_virtual_card.py:23-28 | a result following the preset has 300 users, each with only one debit-card account and nothing in it |
| Scenarios.IssueVirtualCardCallCount | seeds/scenarios/existing_user_issue_virtual_card.py:23-28 | building the preset takes 2 calls per user for 300 users |
| Scenarios.SampleDebitCardAccount | scenarios/http/gateway/existing_user_issue_virtual_card/scenario.py:30-45 | on such a result, sampling a user and reading `debit_card_accounts[0]` is in range; only an empty result fails |
| Scenarios.PresetDumpsAreSeparate | seeds/dumps.py:18 | the two presets write to different dump files |
| Scenarios.GetOperationsDumpFile | seeds/scenarios/existing_user_get_operations.py:41-47 | the preset's dump file is `dumps/existing_user_get_operations_seeds.json` |
| Scenarios.IssueVirtualCardDumpFile | seeds/scenarios/existing_user_issue_virtual_card.py:30-36 | the preset's dump file is `dumps/existing_user_issue_virtual_card_seeds.json` |
| Courses.WithId | fastapi_courses.py:40-43 | a stored course carries the given id and exactly the input's four fields |
| Courses.FindIn | fastapi_courses.py:36-37 | finds nothing exactly when no course has the id; otherwise a stored course with that id |
| Courses.FirstIndexOf | fastapi_courses.py:48 | the position of the first course with the id; none exactly when no course has it |
| Courses.FindInIsAtFirstIndex | fastapi_courses.py:36-48 | `find` and `update`'s index search pick the same, first, course |
| Courses.Without | fastapi_courses.py:54 | filtering never lengthens the list |
| Courses.WithoutMembers | fastapi_courses.py:53-54 | a course survives delete exactly when it was stored and has another id |
| Courses.WithoutAppend | fastapi_courses.py:53-54 | delete filters each part of the list and keeps the order |
| Courses.WithoutAbsent | fastapi_courses.py:53-54 | deleting an id nobody has changes nothing |
| Courses.WithoutShrinks | fastapi_courses.py:91-98 | deleting a present id removes at least one course |
| Courses.FindInWithout | fastapi_courses.py:53-54 | deleting one id does not change what `find` returns for any other id |
| Courses.FindInReplace | fastapi_courses.py:47-51 | overwriting a course under the same id does not change `find` for other ids |
| Courses.FindInAfterReplaceFirst | fastapi_courses.py:47-51 | after overwriting the first match, `find` returns the new course |
| Courses.FindInAppend | fastapi_courses.py:39-45 | an appended course whose id nobody had is the one `find` returns |
| Courses.CoursesStore.constructor | fastapi_courses.py:58 | the store holds exactly the given courses |
| Courses.CoursesStore.Find | fastapi_courses.py:36-37 | the first stored course with the id, or none exactly when there is none |
| Courses.CoursesStore.Create | fastapi_courses.py:39-45 | appends the input under id `len + 1`, keeps every earlier course, and the new course is found when its id was unused |
| Courses.CoursesStore.Update | fastapi_courses.py:47-51 | replaces the first course with the id in place, keeping the id and length, so `find` returns it and no other id's `find` changes; with no match it fails and changes nothing |
| Courses.CoursesStore.Delete | fastapi_courses.py:53-54 | removes every course with the id and keeps the rest in order; `find` for it then fails, and other ids' `find` is unchanged |
| Courses.GetCourse | fastapi_courses.py:61-68 | not-found exactly when no course has the id; otherwise the first such course |
| Courses.GetCourses | fastapi_courses.py:71-73 | answers the whole store in insertion order |
| Courses.CreateCourse | fastapi_courses.py:76-78 | the new course has id `len + 1` and the input's fields, and is appended at the end |
| Courses.UpdateCourse | fastapi_courses.py:81-88 | not-found leaves the store unchanged; otherwise the first match is overwritten under the same id |
| Courses.DeleteCourse | fastapi_courses.py:91-98 | not-found leaves the store unchanged; otherwise every course with the id is removed and the store shrinks |
| Courses.IdReuse | fastapi_courses.py:41-54 | create, create, delete 1, create leaves two courses both with id 2, and `find(2)` returns the older one |

## Left out

- Remote failures: every gateway call succeeds. A failing call in the code raises and aborts the whole build with nothing saved. The model has no error path for it.
- Gateway.Gateway.OpenAccount always returns exactly one card for debit- and credit-card accounts. So the `cards[0]` index error an empty card list would raise (seeds/builder.py:114, seeds/builder.py:160) is not modelled.
- Gateway.Gateway.ReturnedAreFresh: the model assumes fresh identifiers by drawing them from an injective supply. Whether the remote service really never repeats one is outside the code.
- The four gateway clients are merged into one collaborator. Their HTTP/gRPC transport, request and response schemas are not modelled; only the returned identifiers are.
- JSON text layer: indentation, `ensure_ascii`, UTF-8 encoding and the text parsing of `json.load` are not modelled. The model works on JSON values.
- Creating the dumps directory at import (seeds/dumps.py:11) and logging (seeds/dumps.py:24, seeds/dumps.py:38-39) are not modelled.
- Dumps.DumpPath: the path is textual (`dumps/<name>_seeds.json`). Path normalisation of `./dumps` and names containing path separators are not modelled.
- Dumps.DecodeAccount: the validation library's type coercions and error messages are not modelled. Decoding reports the first problem found rather than all of them.
- SeedResult.SeedsResult.GetRandomUser: the choice is free. The uniform distribution of `random.choice` is not modelled.
- Concurrent readers of one result (load-test workers) are not modelled. The methods are sequential.
- `seeds/scenario.py` (the scenarios' `build()`/`load()` base class) is not part of this model. The presets are modelled only as their plans and names.
- FastAPI routing, status codes (201, 204, 404 detail text), async handlers and request-body validation of `CourseIn` are not modelled. Only the found/not-found decision is.
