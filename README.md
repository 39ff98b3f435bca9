# OpenLedger in Dafny

OpenLedger is a small digital wallet made of two services.

- **The ledger API** keeps accounts, an append-only transaction table, processing rows and asset purchases in a relational store. It offers three flows:
  - A deposit opens a bank session and records a PENDING DEPOSIT row.
  - A bank webhook settles that deposit exactly once, crediting the account on SUCCESS.
  - A withdrawal is a saga: it debits the account and records a PENDING WITHDRAW row, then calls the bank, then completes the row or reverses the debit.
- **The ledger also sells catalog assets.** A purchase debits the price and records a SUCCESS TRANSFER_OUT row and a purchase row, all in one atomic unit.
- **The bank simulator** keeps its payment sessions in an in-memory map. It validates the ledger's requests. When a user approves or fails a session, it notifies the ledger by webhook.

This project models the handlers and stores of both services and proves what they promise.

The project is organized in layers:

- **Value-level model (`LedgerModel`).** The store is one `LedgerState` value. Every database call is a function on it, with Prisma's semantics:
  - conditional `updateMany` returns a count;
  - unique constraints on the transaction reference, the processing token and (user, asset) make `create` throw;
  - an interactive `$transaction` rolls back on a throw.

  The model also defines a store invariant `Valid`. Balances are accounted for by `NetEffect`, and `LedgerEvolves` says that the store only grows and settled rows are final.
- **Handlers as functions.** `TransactionSpec`, `AssetSpec` and `BankSpec` state each handler as a function of the old state and the request. Each function returns the response and the new state.
- **Handlers as imperative code.** `TransactionController`, `AssetController` and `BankController` run each handler step by step, over the database class `LedgerDb.Db` or the order store class `BankStore.OrderStore`. Each method's postcondition says its response and new state equal the spec function's. Each atomic unit saves the tables when it begins and restores them when a step throws.
- **Property modules.** `TransactionProperties`, `AssetProperties` and `BankProperties` prove the properties below about the spec functions.
  - Every unit keeps `Valid` and moves balances exactly as its rows say.
  - A replayed webhook credits once.
  - A failed withdrawal restores the balance.
  - A purchase happens at most once.
  - A bank session leaves PENDING only through a delivered webhook.
- **Cross-service lemmas (`CrossService`).** These connect the two services (assuming one shared webhook secret):
  - What the ledger sends, the bank accepts with the same amount.
  - What the bank sends, the ledger accepts with the same meaning.
  - A deposit approved at the bank ends credited once in the ledger.

Inputs that come from outside the model are passed in as parameters:

- the random hex suffixes of references and tokens;
- the clock (`now`);
- the outcome of each outbound HTTP call (`OrderReply`, `WithdrawReply`, `Delivery`);
- the configured webhook secret.

## Model

| member | source | states |
|---|---|---|
| AmountParsing.ParseAmount | backend/api/src/controller/transaction.controller.ts:10-35 | an accepted amount is a positive integer (bigint, integral positive finite number, or trimmed digit string) |
| AmountParsing.TrimStart | backend/api/src/controller/transaction.controller.ts:24 | the result is a suffix of the input that starts with no white space, and every character dropped is white space |
| AmountParsing.TrimEnd | backend/api/src/controller/transaction.controller.ts:24 | the result is a prefix of the input that ends with no white space, and every character dropped is white space |
| AmountParsing.Trim | backend/api/src/controller/transaction.controller.ts:24 | the trimmed string neither starts nor ends with white space |
| AmountParsing.TrimIsMiddle | backend/api/src/controller/transaction.controller.ts:24 | the trimmed string is a slice of the input, and everything cut off at either end is white space |
| AmountParsing.StringRule | backend/api/src/controller/transaction.controller.ts:23-32 | a string is accepted iff, once trimmed, it is a non-empty digit run not all '0'; the amount is the number those digits denote |
| AmountParsing.NumberRule | backend/api/src/controller/transaction.controller.ts:15-21 | a number is accepted iff it is finite, positive and integral, and keeps its value |
| AmountParsing.RenderedAmountAccepted | backend/bank-api/src/controller/bank.controller.ts:21-30 | `n.toString()` of a positive amount is accepted back as exactly `n` |
| AmountParsing.NonDigitRejected | backend/bank-api/src/controller/bank.controller.ts:24-26 | an unpadded string with a non-digit anywhere is rejected |
| AmountParsing.RejectedExamples | backend/api/src/controller/transaction.controller.ts:23-32 | "0", "12.5", "-5", "abc" and "" are rejected |
| AmountParsing.TrimPadded | backend/api/src/controller/transaction.controller.ts:24 | `trim` removes exactly the white space around a string that has none at its ends |
| AmountParsing.PaddedAmountAccepted | backend/api/src/controller/transaction.controller.ts:24-31 | a rendered amount surrounded by white space is accepted with its value |
| AmountParsing.AcceptedExample | backend/api/src/controller/transaction.controller.ts:24-31 | " 500\n" is accepted as 500 |
| Decimal.Render | backend/api/src/controller/transaction.controller.ts:362 | `toString()` of a non-negative bigint is a canonical digit string |
| Decimal.RenderSigned | backend/api/src/controller/transaction.controller.ts:292 | `toString()` of a bigint starts with '-' exactly when it is negative |
| Decimal.ValueOfRender | backend/api/src/controller/transaction.controller.ts:77 | reading back `n.toString()` with `BigInt` gives `n` |
| Decimal.RenderOfValue | backend/api/src/controller/transaction.controller.ts:30 | rendering the value of a canonical digit string gives the string back |
| Decimal.ValuePositive | backend/api/src/controller/transaction.controller.ts:30-31 | a digit string denotes a positive number iff one of its digits is not '0' |
| Assets.Find | backend/api/src/data/assets.ts:35-37 | `find` returns the first item with the id, and nothing exactly when no item has it |
| Assets.GetAssetById | backend/api/src/data/assets.ts:35-37 | the lookup returns a catalog item with the requested id, or none when no item has it |
| Assets.CatalogIdsDistinct | backend/api/src/data/assets.ts:8-33 | the catalog has four items with pairwise distinct ids |
| Assets.CatalogPricesPositive | backend/api/src/data/assets.ts:8-33 | every catalog price is positive |
| Assets.GetAssetByIdUnique | backend/api/src/data/assets.ts:35-37 | looking up a catalog item's id returns that very item |
| TransactionSpec.ParseWebhookStatus | backend/api/src/controller/transaction.controller.ts:130-136 | the upper-cased status is accepted only as SUCCESS or FAILED, never PENDING |
| TransactionSpec.ToUpper | backend/api/src/controller/transaction.controller.ts:132 | upper-casing never shortens a string |
| TransactionProperties.UpperNoLowercase | backend/api/src/controller/transaction.controller.ts:132 | no lower-case ASCII letter is left after `toUpperCase` |
| TransactionSpec.DepositUnit | backend/api/src/controller/transaction.controller.ts:89-106 | the unit succeeds iff the reference and the token are unused; it then appends exactly the PENDING DEPOSIT row and its processing row and changes nothing else |
| TransactionSpec.DepositTransaction | backend/api/src/controller/transaction.controller.ts:46-120 | a rejection writes nothing; a created deposit appends one PENDING DEPOSIT row for the parsed amount and one processing row for the bank's non-empty token, and nothing else changes |
| TransactionProperties.DepositRejectionRule | backend/api/src/controller/transaction.controller.ts:47-119 | 401 iff no caller; 400 iff an invalid amount; 404 iff no account; 502 iff the bank call fails, returns no token, or the unit hits a taken reference or token |
| TransactionSpec.BankWebhook | backend/api/src/controller/transaction.controller.ts:122-195 | 401 exactly when a secret is configured and the header differs; only a settlement writes |
| TransactionProperties.WebhookRejectionRule | backend/api/src/controller/transaction.controller.ts:126-158 | past the secret check: 400 iff no token or a status that is not SUCCESS or FAILED once upper-cased; 404 iff an unknown token; "already settled" iff the row left PENDING; a settlement otherwise |
| TransactionSpec.Settle | backend/api/src/controller/transaction.controller.ts:160-192 | the unit settles iff the row is still PENDING; then the row takes the status; otherwise nothing is written |
| TransactionSpec.WithdrawDebit | backend/api/src/controller/transaction.controller.ts:220-268 | an abort writes nothing; an opened withdrawal belongs to the user's account, gets the next id, appends the PENDING WITHDRAW row and debits exactly the amount |
| TransactionSpec.ReverseWithdraw | backend/api/src/controller/transaction.controller.ts:298-317 | a still-PENDING row becomes FAILED and its account is refunded the amount, and nothing else in the store changes; otherwise nothing changes at all |
| TransactionSpec.WithdrawSaga | backend/api/src/controller/transaction.controller.ts:219-326 | a completed withdrawal means the bank accepted, and the store gained exactly the SUCCESS WITHDRAW row under the reference |
| TransactionProperties.WithdrawAbortRule | backend/api/src/controller/transaction.controller.ts:221-325 | both directions, nothing written in each: 404 iff no account; 400 "Insufficient balance" iff the account does not cover the amount; 502 "Unable to complete withdraw" iff it is covered but the reference is taken (the catch at lines 320-325) |
| TransactionSpec.WithdrawTransaction | backend/api/src/controller/transaction.controller.ts:197-327 | 401 without a caller and 400 for an invalid amount, both writing nothing; a completed withdrawal appends the SUCCESS row for the parsed amount to the user's account |
| TransactionSpec.Recent | backend/api/src/controller/transaction.controller.ts:345-349 | at most `limit` rows |
| TransactionSpec.RecentSoundAndOrdered | backend/api/src/controller/transaction.controller.ts:345-365 | every listed row is one of the account's rows with its own fields, in strictly decreasing id (newest first) |
| TransactionSpec.RecentComplete | backend/api/src/controller/transaction.controller.ts:345-349 | no row of the account is skipped unless the page is full and the row is older than the last one shown |
| TransactionSpec.GetTransactions | backend/api/src/controller/transaction.controller.ts:329-365 | a listing iff there is a caller with an account, at most 20 rows; 401 without a caller, 404 without an account |
| TransactionProperties.DepositUnitConsistent | backend/api/src/controller/transaction.controller.ts:89-106 | the deposit unit keeps the invariant, moves no balance and only grows the store |
| TransactionProperties.PendingDepositConsistent | backend/api/src/controller/transaction.controller.ts:89-106 | a PENDING DEPOSIT row with its processing row keeps the invariant and every balance |
| TransactionProperties.PendingDepositTracks | backend/api/src/controller/transaction.controller.ts:89-106 | a PENDING DEPOSIT row moves no balance, and the store only grows |
| TransactionProperties.PendingDepositValid | backend/api/src/controller/transaction.controller.ts:89-106 | a PENDING DEPOSIT row for a known account under an unused reference and token keeps the invariant |
| TransactionProperties.DepositTransactionConsistent | backend/api/src/controller/transaction.controller.ts:46-120 | the deposit handler keeps the invariant, balances track the ledger and the store only grows |
| TransactionProperties.DepositRecorded | backend/api/src/controller/transaction.controller.ts:58-114 | for a user with an account, a valid amount, an unused reference and a fresh token, the deposit is created: one PENDING row, tied to the token, no balance moved |
| TransactionProperties.SettleConsistent | backend/api/src/controller/transaction.controller.ts:160-192 | the settlement unit keeps the invariant, credits only what its rows say and only grows the store |
| TransactionProperties.SettledStateValid | backend/api/src/controller/transaction.controller.ts:160-192 | the state after a matching settlement satisfies the invariant |
| TransactionProperties.SettledStateTracks | backend/api/src/controller/transaction.controller.ts:175-184 | the credit on SUCCESS equals the change in the account's net ledger effect |
| TransactionProperties.BankWebhookConsistent | backend/api/src/controller/transaction.controller.ts:122-195 | the webhook handler keeps the invariant, balances track the ledger and the store only grows |
| TransactionProperties.WebhookSettlesPending | backend/api/src/controller/transaction.controller.ts:156-194 | an admitted webhook for a PENDING row sets its status, stamps the processing row, credits the amount exactly on SUCCESS, and changes nothing else |
| TransactionProperties.WebhookIdempotentAfterSettlement | backend/api/src/controller/transaction.controller.ts:156-158 | a webhook for a settled row answers "already settled" and writes nothing |
| TransactionProperties.WebhookReplayCreditsOnce | backend/api/src/controller/transaction.controller.ts:156-194 | delivering the same webhook twice credits the account once |
| TransactionProperties.SettleAtMostOnce | backend/api/src/controller/transaction.controller.ts:161-173 | of two settlements racing on one PENDING row, the second matches no row, answers `settled: false` and writes nothing |
| TransactionProperties.WithdrawDebitShape | backend/api/src/controller/transaction.controller.ts:220-268 | phase one either writes nothing and aborts, or debits exactly the amount and appends one PENDING WITHDRAW row, reporting the new balance |
| TransactionProperties.WithdrawDebitConsistent | backend/api/src/controller/transaction.controller.ts:220-268 | phase one keeps the invariant (never a negative balance) and balances track the ledger |
| TransactionProperties.CompleteWithdrawConsistent | backend/api/src/controller/transaction.controller.ts:284-287 | marking the WITHDRAW row SUCCESS keeps the invariant and moves no balance |
| TransactionProperties.ReverseWithdrawConsistent | backend/api/src/controller/transaction.controller.ts:298-317 | the compensating reversal keeps the invariant and refunds exactly what the FAILED row no longer debits |
| TransactionProperties.ReverseWithdrawIdempotent | backend/api/src/controller/transaction.controller.ts:298-317 | running the reversal twice refunds once |
| TransactionProperties.SettleWithdrawConsistent | backend/api/src/controller/transaction.controller.ts:280-317 | completing or reversing an opened withdrawal keeps the invariant and balances track the ledger |
| TransactionProperties.WithdrawSagaConsistent | backend/api/src/controller/transaction.controller.ts:219-326 | the whole saga keeps the invariant, balances track the ledger and the store only grows |
| TransactionProperties.WithdrawTransactionConsistent | backend/api/src/controller/transaction.controller.ts:197-327 | the withdraw handler keeps the invariant, balances track the ledger and the store only grows |
| TransactionProperties.WithdrawInsufficientBalance | backend/api/src/controller/transaction.controller.ts:230-246 | balance below the amount: 400 "Insufficient balance" and nothing written |
| TransactionProperties.WithdrawNoAccount | backend/api/src/controller/transaction.controller.ts:221-228 | no account: 404 and nothing written |
| TransactionProperties.WithdrawAccepted | backend/api/src/controller/transaction.controller.ts:270-293 | bank accepts: balance drops by the amount, one SUCCESS WITHDRAW row, reported balance is the new one |
| TransactionProperties.WithdrawFailureRestoresBalance | backend/api/src/controller/transaction.controller.ts:294-326 | bank rejects or the call fails after the debit: every balance is as before and the row is FAILED |
| TransactionProperties.WithdrawDuplicateReference | backend/api/src/controller/transaction.controller.ts:248-256 | a reference already in use rolls phase one back and answers 502 with no change |
| TransactionProperties.DepositThenSettle | backend/api/src/controller/transaction.controller.ts:89-194 | a deposit then an admitted webhook of SUCCESS credits exactly the amount; FAILED leaves the balance and marks the row FAILED |
| TransactionProperties.StatusNameAccepted | backend/api/src/controller/transaction.controller.ts:132-136 | the schema's status names are accepted by the webhook and mean the same status |
| TransactionProperties.UpperIdentity | backend/api/src/controller/transaction.controller.ts:132 | `toUpperCase` leaves upper-case ASCII unchanged |
| TransactionProperties.UpperLetterKept | backend/api/src/controller/transaction.controller.ts:132 | an upper-case ASCII letter upper-cases to itself |
| TransactionProperties.ListedAmountsReadBack | backend/api/src/controller/transaction.controller.ts:329-365 | a user with an account gets at most 20 of the account's own rows, each amount a canonical digit string reading back as the row's amount |
| LedgerModel.DebitAppendConsistent | backend/api/src/controller/transaction.controller.ts:230-256 | a matched compare-and-decrement plus its row keeps the invariant, tracks balances and only grows the store |
| LedgerModel.DebitAppendTracks | backend/api/src/controller/asset.controller.ts:97-125 | a covered debit recorded by its row changes the balance by the row's ledger effect |
| LedgerModel.WithdrawSettledConsistent | backend/api/src/controller/transaction.controller.ts:299-316 | settling a PENDING WITHDRAW row, refunding on FAILED, keeps the invariant, tracks balances and only grows the store |
| LedgerModel.WithdrawSettledTracks | backend/api/src/controller/transaction.controller.ts:305-315 | the refund equals the change in the account's net ledger effect |
| LedgerModel.WithdrawSettledValid | backend/api/src/controller/transaction.controller.ts:299-316 | settling a PENDING WITHDRAW row keeps the invariant |
| LedgerModel.NetEffectAppend | backend/api/src/controller/transaction.controller.ts:248-256 | appending a row changes an account's net effect by that row's effect on it |
| LedgerModel.NetEffectUpdate | backend/api/src/controller/transaction.controller.ts:161-169 | rewriting one row changes an account's net effect by the difference of the two rows' effects |
| LedgerModel.EvolvesTransitive | backend/api/src/controller/transaction.controller.ts:220-317 | the store-only-grows relation composes |
| LedgerModel.TracksTransitive | backend/api/src/controller/transaction.controller.ts:220-317 | the balances-track-the-ledger relation composes |
| LedgerModel.DecrementIfCovered | backend/api/src/controller/transaction.controller.ts:230-242 | count 1 exactly when the account exists and covers the amount, and then only its balance drops by the amount; count 0 changes nothing (same call at asset.controller.ts:97-109) |
| LedgerModel.Increment | backend/api/src/controller/transaction.controller.ts:176-183 | only the account's balance changes, rising by the amount |
| LedgerModel.CreateTransaction | backend/api/src/controller/transaction.controller.ts:248-256 | the create throws exactly when the reference is taken; otherwise the row is appended and nothing else changes |
| LedgerModel.UpdateStatusIfPending | backend/api/src/controller/transaction.controller.ts:161-169 | count 1 exactly when the row exists and is PENDING, and then only its status changes; count 0 changes nothing |
| LedgerModel.UpdateStatus | backend/api/src/controller/transaction.controller.ts:284-287 | only the row's status changes |
| LedgerModel.CreateProcessing | backend/api/src/controller/transaction.controller.ts:100-105 | the create throws exactly when the token is taken; otherwise only the new unsettled processing row is added |
| LedgerModel.StampSettled | backend/api/src/controller/transaction.controller.ts:186-189 | only the processing row's `settledAt` changes, to `now` |
| LedgerModel.CreatePurchase | backend/api/src/controller/asset.controller.ts:127-135 | the create throws exactly when the user already owns the asset; otherwise only the purchase row is added |
| LedgerDb.Db.FindAccountOfUser | backend/api/src/controller/transaction.controller.ts:59-62 | the account of a user, when there is one, belongs to that user |
| LedgerDb.Db.FindBalance | backend/api/src/controller/transaction.controller.ts:258-261 | the account's balance, 0 when missing |
| LedgerDb.Db.FindProcessing | backend/api/src/controller/transaction.controller.ts:138-150 | the processing row's transaction id and row for a known token |
| LedgerDb.Db.DecrementIfCovered | backend/api/src/controller/transaction.controller.ts:230-242 | the store after the conditional `updateMany` decrement, with its count |
| LedgerDb.Db.Increment | backend/api/src/controller/transaction.controller.ts:176-183 | the store after the balance increment |
| LedgerDb.Db.CreateTransaction | backend/api/src/controller/transaction.controller.ts:248-256 | a new row under the next id, or nothing when the reference is taken |
| LedgerDb.Db.UpdateStatusIfPending | backend/api/src/controller/transaction.controller.ts:161-169 | the store after the PENDING-conditional status update, with its count |
| LedgerDb.Db.UpdateStatus | backend/api/src/controller/transaction.controller.ts:284-287 | the store after the unconditional status update |
| LedgerDb.Db.CreateProcessing | backend/api/src/controller/transaction.controller.ts:101-106 | a new processing row, or nothing when the token is taken |
| LedgerDb.Db.StampSettled | backend/api/src/controller/transaction.controller.ts:186-189 | the processing row stamped with `now` |
| LedgerDb.Db.CreatePurchase | backend/api/src/controller/asset.controller.ts:127-135 | a new purchase row, or nothing when the user already owns the asset |
| LedgerDb.Db.Restore | backend/api/src/controller/asset.controller.ts:87-146 | the rollback puts every table back as saved |
| TransactionController.DepositUnit | backend/api/src/controller/transaction.controller.ts:89-106 | the unit's outcome and new store are `TransactionSpec.DepositUnit`'s, or the old store when it throws |
| TransactionController.DepositTransaction | backend/api/src/controller/transaction.controller.ts:46-120 | response and new store equal `TransactionSpec.DepositTransaction`'s, and the invariant holds |
| TransactionController.SettleUnit | backend/api/src/controller/transaction.controller.ts:160-192 | outcome and new store equal `TransactionSpec.Settle`'s |
| TransactionController.BankWebhook | backend/api/src/controller/transaction.controller.ts:122-195 | response and new store equal `TransactionSpec.BankWebhook`'s, and the invariant holds |
| TransactionController.WithdrawDebit | backend/api/src/controller/transaction.controller.ts:220-268 | outcome and new store equal `TransactionSpec.WithdrawDebit`'s |
| TransactionController.ReverseWithdraw | backend/api/src/controller/transaction.controller.ts:298-317 | new store equals `TransactionSpec.ReverseWithdraw`'s |
| TransactionController.WithdrawSaga | backend/api/src/controller/transaction.controller.ts:219-326 | response and new store equal `TransactionSpec.WithdrawSaga`'s |
| TransactionController.WithdrawTransaction | backend/api/src/controller/transaction.controller.ts:197-327 | response and new store equal `TransactionSpec.WithdrawTransaction`'s, and the invariant holds |
| TransactionController.GetTransactions | backend/api/src/controller/transaction.controller.ts:329-365 | the response equals `TransactionSpec.GetTransactions` of the store, which it does not change |
| AssetSpec.IsPrismaUniqueViolation | backend/api/src/controller/asset.controller.ts:16-23 | true exactly for a truthy object whose `code` is "P2002" |
| AssetSpec.ViewsOf | backend/api/src/controller/asset.controller.ts:27-30 | one view per item, in order, each the item with its price rendered |
| AssetSpec.ListAssetCatalog | backend/api/src/controller/asset.controller.ts:25-32 | one view per catalog item, in order, with the item's id, name and description |
| AssetSpec.PurchaseUnit | backend/api/src/controller/asset.controller.ts:87-146 | an aborted unit leaves the store unchanged |
| AssetSpec.BuyAsset | backend/api/src/controller/asset.controller.ts:68-166 | 401 "Unauthorized" without a caller and 400 "assetId is required" without an asset id, both writing nothing; every rejection leaves the store unchanged; a purchase answers with the requested asset id and the unit's reference |
| AssetSpec.AbortedBuyResponse | backend/api/src/controller/asset.controller.ts:154-165 | a handler error answers its own status and message; a thrown unique violation answers 409, any other throw 500 "Unable to complete purchase" |
| AssetProperties.ListingMatchesCatalog | backend/api/src/controller/asset.controller.ts:25-32 | the listing is the catalog in order, each price a canonical digit string reading back as the price |
| AssetProperties.AbortedBuyResponseCases | backend/api/src/controller/asset.controller.ts:154-165 | a thrown unique violation answers 409, every other thrown database error 500 |
| AssetProperties.PurchaseUnitGoesThrough | backend/api/src/controller/asset.controller.ts:87-146 | with an account, enough balance, an unused reference and no prior purchase, the unit debits the price and appends the SUCCESS TRANSFER_OUT row and the purchase row |
| AssetProperties.PurchaseUnitAborts | backend/api/src/controller/asset.controller.ts:87-146 | otherwise the unit aborts with the store unchanged |
| AssetProperties.AddPurchaseConsistent | backend/api/src/controller/asset.controller.ts:127-135 | adding the purchase row for the row just appended keeps the invariant |
| AssetProperties.PurchasedConsistent | backend/api/src/controller/asset.controller.ts:97-135 | the state the purchase unit commits keeps the invariant, tracks balances and only grows the store |
| AssetProperties.PurchaseUnitConsistent | backend/api/src/controller/asset.controller.ts:87-146 | the purchase unit keeps the invariant, tracks balances and only grows the store |
| AssetProperties.BuyAssetConsistent | backend/api/src/controller/asset.controller.ts:68-166 | the purchase handler keeps the invariant, tracks balances and only grows the store |
| AssetProperties.BuyAssetRunsUnit | backend/api/src/controller/asset.controller.ts:86-153 | past its checks, the handler answers with what the unit produced |
| AssetProperties.BuySucceeds | backend/api/src/controller/asset.controller.ts:68-153 | a covered purchase of an unowned asset answers 201 with the new balance, debits exactly the price and records the rows |
| AssetProperties.BuyInsufficientBalance | backend/api/src/controller/asset.controller.ts:97-113 | balance below the price: 400 and nothing written |
| AssetProperties.BuyAlreadyOwned | backend/api/src/controller/asset.controller.ts:127-160 | an owned asset: 409 "Asset already purchased" and the debit rolled back |
| AssetProperties.BuyUnknownAsset | backend/api/src/controller/asset.controller.ts:80-84 | an id not in the catalog: 404 and nothing written |
| AssetProperties.BuyOnceOnly | backend/api/src/controller/asset.controller.ts:127-160 | after a purchase, buying the same asset again is rejected and changes nothing |
| AssetController.PurchaseUnit | backend/api/src/controller/asset.controller.ts:87-146 | outcome and new store equal `AssetSpec.PurchaseUnit`'s |
| AssetController.BuyAsset | backend/api/src/controller/asset.controller.ts:68-166 | response and new store equal `AssetSpec.BuyAsset`'s for the service's catalog, and the invariant holds |
| BankStore.NewOrder | backend/bank-api/src/store/bank.store.ts:21-26 | a new order is PENDING under its token, created and updated at the same time |
| BankStore.WithStatus | backend/bank-api/src/store/bank.store.ts:43-44 | only the status and `updatedAt` change |
| BankStore.StatusUpdated | backend/bank-api/src/store/bank.store.ts:36-47 | the same tokens stay filed; only the order under the token changes, taking the status and `now` |
| BankStore.OrderStore.GetBankOrder | backend/bank-api/src/store/bank.store.ts:32-34 | the order stored under the token, and none exactly when there is none; with the store invariant, its own token is that token |
| BankStore.StoreKeepsKeys | backend/bank-api/src/store/bank.store.ts:28 | filing and restamping keep every order under its own token |
| BankStore.OrderStore.CreateBankOrder | backend/bank-api/src/store/bank.store.ts:15-30 | the map gets the new PENDING order under its token, replacing any old one; other tokens are unchanged |
| BankStore.OrderStore.UpdateBankOrderStatus | backend/bank-api/src/store/bank.store.ts:36-47 | an unknown token returns null and changes nothing; a known one gets the status and a new `updatedAt` |
| BankSpec.Tagged | backend/bank-api/src/controller/bank.controller.ts:47 | a token or reference is its prefix followed by the random hex, nothing else (`bank_session_` here, `bank_wdr_` at line 72) |
| BankSpec.CreateOrder | backend/bank-api/src/controller/bank.controller.ts:35-59 | a rejection stores nothing; a created session is a PENDING order under the returned token, the only key added |
| BankSpec.RegisterWithdrawal | backend/bank-api/src/controller/bank.controller.ts:61-78 | an accepted withdrawal had a ref and a valid amount and carries a non-empty reference; a rejection is a 400 |
| BankSpec.ApprovalStatus | backend/bank-api/src/controller/bank.controller.ts:141 | an approval never asks for PENDING |
| BankSpec.ApproveOrder | backend/bank-api/src/controller/bank.controller.ts:123-174 | no order is added or dropped; a rejection or a path without a webhook leaves the orders; a webhook never carries PENDING |
| BankSpec.WebhookRequest | backend/bank-api/src/controller/bank.controller.ts:146-166 | the webhook carries the order's token and the status, and the secret header exactly when a secret is configured |
| BankProperties.CreateOrderRule | backend/bank-api/src/controller/bank.controller.ts:35-59 | a session is opened iff ref, amount and returnUrl are valid; it adds exactly one PENDING order for the parsed amount; otherwise 400 and nothing stored |
| BankProperties.CreateOrderKeepsKeys | backend/bank-api/src/controller/bank.controller.ts:49-54 | opening a session keeps every order under its own token |
| BankProperties.RegisterWithdrawalRule | backend/bank-api/src/controller/bank.controller.ts:61-78 | a withdrawal is accepted iff ref and amount are valid, with a `bank_wdr_` reference; otherwise 400 |
| BankProperties.ApprovalStatusRule | backend/bank-api/src/controller/bank.controller.ts:141 | only "approve" yields SUCCESS; anything else FAILED; never PENDING |
| BankProperties.ApproveOrderRule | backend/bank-api/src/controller/bank.controller.ts:123-174 | a webhook goes out iff the request names a PENDING order; it carries the token, the outcome and the secret; the order takes the outcome only after delivery; 502 iff delivery failed; every other path leaves the orders |
| BankProperties.ApproveRejectionRule | backend/bank-api/src/controller/bank.controller.ts:127-173 | 400 iff the token or the action is missing; 404 iff the session is unknown; a redirect to the order's return URL iff the order is settled already or the webhook was delivered |
| BankProperties.ApproveKeepsKeys | backend/bank-api/src/controller/bank.controller.ts:172 | the approval keeps every order under its own token |
| BankProperties.SettledOrderFinal | backend/bank-api/src/controller/bank.controller.ts:137-139 | an order no longer PENDING is never changed by an approval, and approvals add or drop no order |
| BankProperties.ApproveAtMostOnce | backend/bank-api/src/controller/bank.controller.ts:137-173 | after a delivered approval, approving the session again sends no webhook and changes nothing |
| BankController.CreateOrder | backend/bank-api/src/controller/bank.controller.ts:35-59 | response and new order map equal `BankSpec.CreateOrder`'s; orders stay filed under their tokens |
| BankController.ApproveOrder | backend/bank-api/src/controller/bank.controller.ts:123-174 | response, new order map and webhook sent equal `BankSpec.ApproveOrder`'s |
| CrossService.WebhookStatusUnderstood | backend/bank-api/src/controller/bank.controller.ts:141-166 | the status the bank writes parses in the ledger as the same outcome; PENDING would be refused |
| CrossService.WebhookSecretAccepted | backend/bank-api/src/controller/bank.controller.ts:153-157 | with one shared secret, the bank's header passes the ledger's secret check |
| CrossService.DepositRequestAccepted | backend/api/src/controller/transaction.controller.ts:73-81 | the ledger's create-order body opens a PENDING bank session for exactly the deposited amount |
| CrossService.WithdrawRequestAccepted | backend/api/src/controller/transaction.controller.ts:270-278 | the ledger's withdraw body is accepted by the bank |
| CrossService.WithdrawReplyOf | backend/bank-api/src/controller/bank.controller.ts:66-77 | the ledger sees an accepted reply iff the bank accepted; the bank's 400 makes the ledger's call throw |
| CrossService.ReplyOf | backend/api/src/controller/transaction.controller.ts:73-87 | the ledger sees a reply exactly when the bank opened a session, and then the bank's token |
| CrossService.DeliveryOf | backend/bank-api/src/controller/bank.controller.ts:159-170 | the bank counts the webhook delivered exactly when the ledger did not reject it |
| CrossService.WithdrawAgainstBank | backend/api/src/controller/transaction.controller.ts:270-293 | with the bank's real answer, passed to the ledger as `CrossService.WithdrawReplyOf` gives it, a covered withdrawal completes and debits exactly the amount |
| CrossService.ApprovalSettlesDeposit | backend/bank-api/src/controller/bank.controller.ts:141-173 | the approval's webhook settles the ledger row to the chosen outcome and credits the amount exactly on "approve"; the bank then records the same outcome and redirects |
| CrossService.DepositEndToEnd | backend/api/src/controller/transaction.controller.ts:46-195 | register, approve or fail at the bank, then settle: the row ends with the chosen outcome, the balance rises by the amount exactly on "approve", and the bank session agrees |

## Left out

- HTTP, express and axios are left out. URLs, `encodeURIComponent` of the approval link, response headers and timeouts are not modelled. Each outbound call is an input saying what it returned, or that it threw.
- The randomness of `crypto.randomBytes` and the clock are inputs. The model does not capture that two random tokens are distinct. `createBankOrder` replaces an existing order with the same token, as the source does.
- The model does not capture concurrency between requests. Two interleaved settlements are modelled only through the PENDING-conditional update (`SettleAtMostOnce`). Interleaving inside an atomic unit is not modelled.
- The only database failures modelled are unique-constraint violations. Connection errors and timeouts are not modelled. The same is true of a throw from the unconditional SUCCESS update after the bank accepted a withdrawal; that throw would trigger the reversal.
- TransactionSpec.ToUpper maps the ASCII letters, and the other characters whose upper case contains a letter of SUCCESS or FAILED: 'ß', 'ſ', 'ı', 'ẚ' and the Latin ligatures U+FB00–U+FB06. Every other character is kept as it is. Its real upper case holds no letter of either word, so this cannot change whether a status reads SUCCESS or FAILED. Case mappings that do not affect that outcome are not modelled.
- AmountParsing.JsNumber is a finite double taken as an exact real, or NaN/±Infinity. Rounding of number literals is not modelled.
- `transaction.findMany` orders by `createdAt`. The model orders by id: ids are positions in the table and rows are created in that order. `createdAt` is not kept, so it is not in `TransactionView`.
- TransactionSpec.BankWebhook and AssetSpec.BuyAsset take the body fields as optional strings. The source only casts them (`as string | undefined`). A non-string `status` would make `toUpperCase` throw instead of answering 400, and a truthy non-string `assetId` would answer 404; neither case is modelled.
- AssetSpec.BuyAsset takes the catalog as a parameter. `AssetController.BuyAsset` calls it with `Assets.AssetCatalog`, and the lemmas hold for any catalog with positive prices.
- CrossService.WithdrawAgainstBank is stated for an amount that has already been validated. The `userId` field of the withdraw body is ignored by the bank, and so is not modelled.
- TransactionSpec.DepositTransaction calls the bank before the store's unit. When the unit then fails (a taken reference or token), a bank session remains without a ledger row. The model shows this outcome but proves nothing about it.
- BankStore.NewOrder uses one `now` for `createdAt` and `updatedAt`. The source reads the clock twice.
- BankStore orders are values in a map. In the source, `updateBankOrderStatus` mutates the same object the handler holds. The handler reads only `token` and `returnUrl` afterwards, and neither changes, so the difference is not observable.
- `renderApprovalPage`, `listMyAssets`, authentication, routes and database setup are not part of this model. Console logging is dropped.
