# javascript-banking in Dafny

A model of the core of javascript-banking: a small Express service that keeps customers,
their current and savings accounts, and a transaction history in memory, and talks to the
mock of a partner bank, "Bank Z".

The model covers five pieces.

- **Onboarding** (`POST /api/customers`). It checks the name and e-mail, then creates the
  customer, an empty current account, a savings account holding a 500.00 sign-up bonus, and
  the record of that bonus.
- **Transfers** (`POST /api/customers/:customerId/transfers`):
  - The body is validated, the customer is looked up and a partner token is obtained.
  - The source account is resolved. The destination is then resolved locally, or at the
    partner through a balance probe.
  - An **internal** transfer charges a 0.05% fee out of current accounts and pays 0.5%
    interest into savings accounts. It records one transaction per leg.
  - A **partner** transfer debits only the amount and records a `bankz_transfer` under the
    id the partner returns.
- **Listings**:
  - a customer's accounts;
  - the balances of the two linked partner accounts;
  - the transaction history, filtered by account and type.
- **The store** (store.js). It holds three insertion-ordered maps with upsert semantics and
  two linear-scan queries.
- **The partner mock** (bankz.js). It provides an OAuth-style token cached for one hour,
  token validation, balance lookups, and a transfer that credits the destination only.

## Layout

| module | file | models |
|---|---|---|
| `Wrappers` | wrappers.dfy | `Option`, and `Result`/`Outcome` for calls that throw `Error(message)` |
| `Seqs` | seqs.dfy | `Array.prototype.filter` and the subsequence relation |
| `Decimal` | decimal.dfy | the decimal rendering of `Date.now()` in the generated ids |
| `Text` | text.dfy | `trim() === ''` and the name and e-mail regular expressions |
| `Models` | models.dfy | models.js: `Customer`, `Account`, `Transaction` |
| `OrderedMaps` | ordered_map.dfy | a JavaScript `Map` with its insertion order |
| `LedgerStore` | store.dfy | store.js: the value `Ledger` and the class `Store` |
| `BankZ` | bankz.dfy | bankz.js: the value `Partner` and the class `MockClient` |
| `Requests` | requests.dfy | request-body validation and the handlers' replies |
| `Onboarding`, `Transfers`, `Queries` | onboarding.dfy, transfers.dfy, queries.dfy | the handlers of index.js |

### How the handlers are modelled

Each handler is an imperative method on the shared `Store` and `MockClient`. Each method is
proved to equal a pure function of the state before the call:

- `TransferResult` for transfers;
- `CreateCustomerResult` for onboarding;
- `ListAccountsResult`, `PartnerBalancesResult` and `ListTransactionsResult` for the
  listings.

The service's promises are then lemmas about those functions.

The classes `Store` and `MockClient` work the same way. Each has a value view (`View()`,
`State()`), and every method is proved against functions on that view.

## Model

| member | source | states |
|---|---|---|
| Models.TypeNameInjective | models.js:19-30 | distinct transaction types are stored under distinct `type` strings |
| Models.TypeNamesListed | models.js:24 | every transaction type is stored as one of "transfer", "bankz_transfer", "fee", "interest", "bonus" |
| Decimal.NatToString | bankz.js:33 | the rendering of a clock value is a non-empty digit string without a leading zero |
| Decimal.DigitsValueOfNatToString | bankz.js:33 | reading the rendered digits back gives the clock value (round trip) |
| Decimal.TaggedInjective | bankz.js:33 | two ids `tag + rendering` are equal exactly when the clock values are |
| Seqs.FilterMembership | index.js:352-360 | an element is kept by a filter exactly when it is in the input and passes the predicate |
| Seqs.FilterIsSubsequence | index.js:352-360 | a filter keeps the order of its input (the result is a subsequence) |
| Seqs.FilterAll | index.js:352-360 | a filter whose predicate holds everywhere returns its input |
| Requests.CheckTransferBody | index.js:125-144 | a falsy field gives exactly ["Invalid request body"]; a truthy non-string id throws; the body is accepted exactly when both ids are non-blank, distinct strings and the amount is a positive number |
| Requests.TransferErrors | index.js:129-141 | each transfer check's message is reported exactly when that check fails |
| Requests.TransferErrorsInOrder | index.js:129-144 | the transfer errors are the failing checks in their fixed order, each once |
| Requests.CheckCustomerBody | index.js:22-44 | a falsy field gives exactly ["Invalid request body"]; a truthy non-string throws; the body is accepted exactly when the name matches the name pattern and the e-mail the e-mail pattern, neither blank |
| Requests.CustomerErrors | index.js:27-41 | each onboarding check's message is reported exactly when that check fails; the pattern checks only apply to non-blank input |
| Requests.CustomerErrorsInOrder | index.js:27-44 | the onboarding errors are the failing checks in order, at most one per field |
| OrderedMaps.OrderedMap.Get | store.js:12-14 | `get` returns the stored value, or nothing exactly when the key is absent |
| OrderedMaps.OrderedMap.Put | store.js:16-18 | `set` stores the value, keeps a present key's position, appends a new key, and keeps the map well formed |
| OrderedMaps.Empty | store.js:2-6 | a new map is well formed and iterates nothing |
| OrderedMaps.PutNewValues | store.js:38-40 | setting a new key appends its value to `values()` |
| OrderedMaps.PutExistingValues | store.js:24-26 | setting a present key replaces its value in place in `values()` |
| OrderedMaps.ValuesMembership | store.js:30 | `values()` yields exactly the stored values |
| LedgerStore.PutKeepsValid | store.js:8-40 | each upsert stores its entry under the entry's own id, so the ledger stays well formed |
| LedgerStore.TotalAfterUpdate | store.js:24-26 | updating a stored account changes the sum of balances by exactly the balance difference |
| LedgerStore.AppendTransaction | store.js:38-40 | adding a record under a new id appends it to the history and changes nothing else |
| LedgerStore.EmptyLedger | store.js:2-6 | the empty store is well formed and has no negative balance |
| LedgerStore.OwnedIdsMembership | store.js:44-49 | the id set collected is exactly the ids of the customer's accounts |
| LedgerStore.AccountsOfExactly | store.js:28-36 | an account is listed for a customer exactly when it is stored and owned by the customer; the list keeps the map's order |
| LedgerStore.TransactionsOfExactly | store.js:42-58 | a record is listed exactly when it is stored and its account belongs to the customer; the list keeps the map's order |
| LedgerStore.Store.constructor | store.js:2-6 | a new store is empty |
| LedgerStore.Store.AddCustomer | store.js:8-10 | upserts the customer under its id |
| LedgerStore.Store.GetCustomerById | store.js:12-14 | returns the customer stored under the id, or nothing when there is none |
| LedgerStore.Store.AddAccount | store.js:16-18 | upserts the account under its id |
| LedgerStore.Store.GetAccountById | store.js:20-22 | returns the account stored under the id, or nothing when there is none |
| LedgerStore.Store.UpdateAccount | store.js:24-26 | the same upsert as `addAccount` |
| LedgerStore.Store.GetAccountsByCustomerId | store.js:28-36 | the loop returns the customer's accounts in iteration order |
| LedgerStore.Store.AddTransaction | store.js:38-40 | upserts the record under its id |
| LedgerStore.Store.GetTransactionsByCustomerId | store.js:42-58 | both loops together return the records on the customer's accounts, in iteration order |
| BankZ.InitialPartner | bankz.js:9-18 | the mock starts well formed, with the accepted credentials and no token; its two accounts and their balances are stated by `Queries.InitialPartnerBalances` |
| BankZ.GetTokenIssuesAcceptedToken | bankz.js:20-40 | `getToken` changes only the cached token, and the token it returns passes `validateToken` at that instant |
| BankZ.GetTokenFailsIff | bankz.js:20-30 | `getToken` throws "Invalid client credentials" exactly when no live token is cached and the credentials are not the mock's |
| BankZ.TokenReusedWhileLive | bankz.js:21-25 | while the token is live, `getToken` returns it again and changes nothing |
| BankZ.RefreshedTokenIsNew | bankz.js:32-39 | once the cached token has expired and the credentials are the mock's, getToken replaces the cached token by one with a different id |
| BankZ.GetBalanceIff | bankz.js:48-55 | with an accepted token, a balance is returned exactly for the partner's accounts and equals the stored balance |
| BankZ.InitiateTransferEffect | bankz.js:57-72 | a transfer fails on a bad token, then a non-positive amount, then an unknown destination, changing nothing; on success it credits the destination by exactly the amount and returns `bankz-tx-<now>` |
| BankZ.InheritedDestinationAsWritten | bankz.js:48-72 | as written, an inherited name such as "constructor" passes the balance probe (undefined, no error) and a transfer to it returns an id while crediting no partner account; the own-account lookup refuses both |
| BankZ.AsWrittenAgreesOnOwnNames | bankz.js:48-72 | for every name that is a partner account or not inherited, the lookup as written and the own-account lookup give the same results |
| BankZ.InitiateTransferIgnoresSource | bankz.js:57-66 | the source id plays no part in a partner transfer |
| BankZ.TransferNamesDiffer | bankz.js:69 | partner transfer ids at different instants differ |
| BankZ.MockClient.constructor | bankz.js:9-18 | the client starts in the initial partner state |
| BankZ.MockClient.GetToken | bankz.js:20-40 | the new client state and result are those of `Partner.GetToken` |
| BankZ.MockClient.ValidateToken | bankz.js:42-46 | passes exactly when the cached token has that id and has not expired |
| BankZ.MockClient.GetBalance | bankz.js:48-55 | returns `Partner.GetBalance` of the current state |
| BankZ.MockClient.InitiateTransfer | bankz.js:57-72 | the new client state and result are those of `Partner.InitiateTransfer` |
| Transfers.FeeAndInterestRates | index.js:222-235 | for a positive amount, a fee of amount/2000 is due exactly out of current accounts, and interest of amount/200 exactly into savings accounts |
| Transfers.UpdateTwoAccounts | index.js:237-240 | two balance updates replace exactly those two accounts in place, and the total changes by both differences |
| Transfers.RecordLegsAppends | index.js:242-281 | with fresh ids, the records are appended after the existing ones (principal, then fee if any, then interest if any) and nothing else changes |
| Transfers.InternalTransferFundsCheck | index.js:222-230 | an internal transfer succeeds exactly when balance >= amount + fee; it then answers with the principal record's id; otherwise it answers "Insufficient funds" and changes nothing |
| Transfers.FundsCheckBoundary | index.js:227-230 | out of a current account holding 1000.00, 999.50 may be moved but 999.60 may not |
| Transfers.ApplyInternalBalances | index.js:221-240 | the source loses exactly amount + fee, the destination gains exactly amount + interest, no other account changes, and the total changes by interest - fee |
| Transfers.ApplyInternalRecords | index.js:242-281 | an internal transfer appends exactly its leg records to the history |
| Transfers.ApplyInternalKeepsNonNegative | index.js:221-240 | an internal transfer that passed the funds check leaves no negative balance |
| Transfers.ExternalTransferRefused | index.js:184-194 | a partner transfer succeeds exactly when balance >= amount (no fee) and the partner knows the destination; when refused, nothing changes and the answer is 400 with the reason |
| Transfers.ExternalTransferApplied | index.js:184-218 | a successful partner transfer debits exactly the amount, upserts one `bankz_transfer` record under the partner's id, credits the partner account, and conserves local plus partner money |
| Transfers.ExternalKeepsInvariants | index.js:184-218 | a partner transfer keeps the ledger well formed and non-negative, and the partner's token well formed |
| Transfers.InheritedDestinationLosesMoney | index.js:173-218 | as written, a transfer to "constructor" from an own account with enough funds is answered 201, the ledger total drops by the amount and no partner balance grows; the corrected routing answers 400 "Destination account constructor not found" and changes nothing |
| Transfers.RouteFailureChangesNothing | index.js:159-182 | a transfer refused during account resolution or execution changes neither the ledger nor the partner and answers 400 |
| Transfers.RejectedTransferChangesNothing | index.js:121-289 | a request not answered 201 leaves the ledger unchanged; at most the partner's token is refreshed; a request rejected before the token is requested changes nothing |
| Transfers.RouteKeepsInvariants | index.js:159-289 | routing keeps the ledger well formed and free of negative balances |
| Transfers.TransferKeepsInvariants | index.js:121-289 | every transfer request keeps the ledger well formed and free of negative balances, and the partner's token well formed |
| Transfers.SuccessfulRoute | index.js:159-289 | a successful transfer leaves an account of the requesting customer and goes to another of its accounts or to a partner account; local totals change by interest - fee, or the money moves to the partner |
| Transfers.TransferOutcome | index.js:121-289 | with an accepted body, an unknown customer gets 404 "Customer not found" and a token failure 500, changing nothing; a 201 implies a known customer and a token, and moves money out of an account of the customer only, to another of its accounts (total changes by interest - fee) or to a partner account (money conserved) |
| Transfers.HandleTransfer | index.js:121-157 | the handler's new store, new partner and reply are those of `TransferResult` |
| Transfers.RouteTransfer | index.js:159-184 | account resolution and dispatch do what `Route` says |
| Transfers.ExecuteExternal | index.js:184-218 | the partner branch does what `ExternalTransfer` says |
| Transfers.ExecuteInternal | index.js:221-288 | the internal branch does what `InternalTransfer` says |
| Transfers.RecordInternalLegs | index.js:242-281 | the three conditional `addTransaction` calls do what `RecordLegs` says |
| Onboarding.CreateCustomerOutcome | index.js:21-92 | onboarding answers 201, with the three new ids, exactly when the body passes the checks; otherwise nothing is stored |
| Onboarding.OpenAccountsSteps | index.js:46-83 | the four store calls keep the ledger well formed, add the customer, append the two accounts, and append the bonus record |
| Onboarding.OpenAccountsEffect | index.js:46-83 | after onboarding, the accounts are appended in order (current, savings) and the total grows by exactly the 500.00 bonus |
| Onboarding.NewCustomerAccounts | index.js:52-71 | the new customer owns exactly the two new accounts, current first |
| Onboarding.OpenAccountsKeepsNonNegative | index.js:55-71 | onboarding creates no negative balance |
| Onboarding.CreateCustomerKeepsInvariants | index.js:21-92 | every onboarding request keeps the ledger well formed and non-negative |
| Onboarding.HandleCreateCustomer | index.js:21-92 | the handler's new store and reply are those of `CreateCustomerResult` |
| Queries.ListAccountsExactly | index.js:94-119 | 404 "Customer not found" exactly for an unknown customer; 404 "No accounts found for customer" exactly for a known customer owning no account; a 200 lists the customer's stored accounts, at least one, exactly and in store order |
| Queries.OnboardedCustomerIsListed | index.js:94-119 | right after onboarding, the customer's listing is the current and then the savings account |
| Queries.HandleListAccounts | index.js:94-119 | the handler answers `ListAccountsResult` |
| Queries.BalancesOfExactly | index.js:310-320 | with an accepted token, the entries are the linked accounts the partner has, in the order of the linked ids and once each, each with the partner's balance; with a rejected token, none |
| Queries.PartnerBalancesExactly | index.js:291-327 | the answer is 200 exactly for a known customer with a token; it lists the linked accounts the partner has, in the order of the linked ids and once each, with their balances; the partner either stays as it was or becomes the state getToken leaves, so only the token may change |
| Queries.InitialPartnerBalances | index.js:307-320 | against the initial mock, the answer is [bankz-acc-123: 1000.0, bankz-acc-456: 500.0] |
| Queries.HandlePartnerBalances | index.js:291-327 | the loop answers `PartnerBalancesResult`, and the client changes as `getToken` does |
| Queries.ListTransactionsShortcut | index.js:343-349 | the early empty answer is the one the filter would give |
| Queries.SelectedExactly | index.js:352-360 | a record is listed exactly when it is stored, on an account of the customer, and passes each truthy filter; the order is the store's |
| Queries.UnfilteredListsAll | index.js:352-360 | absent or empty filters list every record of the customer |
| Queries.UnknownTypeListsNothing | index.js:356-357 | a type filter that is none of the five stored type names lists nothing |
| Queries.RowsRender | index.js:363-372 | each row carries its record's fields, and "" exactly where a counterpart account is null or empty |
| Queries.HandleListTransactions | index.js:329-380 | the handler answers `ListTransactionsResult` |

## Left out

- Express wiring, CORS, JSON parsing, HTTP status writing and `console.log` are not modelled.
  Replies are the datatype `Reply`, with `Status()` giving the code.
- `uuidv4()` is a parameter. The ids are required distinct from each other and from stored
  ids (`IdsFresh`).
- The clock is a parameter `now` in milliseconds, one value per request. Every `new Date()`
  and `Date.now()` in one handler call reads the same instant. The source reads the clock
  again in each partner call. So a cached token that expires between `getToken`
  (index.js:154) and the partner calls (index.js:175, 191) has two effects there: a real
  partner destination is answered 400 "Destination account … not found", or
  `initiateTransfer` fails with "Invalid or expired token". In the model the token is live
  for every call of one request. So the partner-error branch of index.js:192-194 is never
  reached from an accepted body: the probe has already found the destination, and the
  amount is positive.
- `toISOString()` is not modelled. `createdAt` is the clock value, and rows carry it
  unformatted.
- Money is an exact `real`, not an IEEE double. Fees and interest such as `amount * 0.0005`
  are exact here, so rounding effects of the source are not captured.
- The regular expressions are modelled as predicates over the characters (`Text`). The
  regex engine itself is not modelled.
- Query parameters are single strings or absent. Express's array-valued repeated
  parameters are not modelled.
- `tokenEndpoint` is only stored by the constructor and never read. It is not modelled.
- Aliasing: the source mutates the account object it read from the store and then stores it
  again. The model writes a new account value with the new balance. The resulting map
  contents are the same.
- The "payment" transaction type is named in a comment in models.js, but no handler writes
  it. `TransactionType` omits it. A "payment" filter therefore lists nothing
  (`Queries.UnknownTypeListsNothing`).
- index.js:227-228 compares the balance with amount + fee. So 999.60 out of a 1000.00 current
  account, which needs 1000.0998, is refused (`Transfers.FundsCheckBoundary`).
- index.js:154 requests the partner token right after the customer check, before the account
  lookups at index.js:160-171. The model keeps that order.
- The partner transfer id `bankz-tx-<now>` is not required to be fresh. The store upserts, so
  a record with the same id is replaced, and `Transfers.ExternalTransferApplied` states that
  upsert.
- BankZ.GetBalanceIff: states the own-account lookup. bankz.js:50-51 reads a plain object, so
  it also "finds" the names inherited from `Object.prototype` (`constructor`, `__proto__`,
  `toString`, …) and returns undefined for them instead of throwing. That behaviour is
  `BankZ.GetBalanceAsWritten`, reported under Findings.
- BankZ.InitiateTransferEffect: states the own-account lookup. bankz.js:63-68 lets a transfer
  to an inherited name succeed, writing NaN onto a built-in object and crediting no partner
  account. That behaviour is `BankZ.InitiateTransferAsWritten`, reported under Findings.
- BankZ.MockClient.GetBalance: equals `Partner.GetBalance`, the own-account lookup, so it
  refuses inherited names where the source returns undefined (see Findings).
- BankZ.MockClient.InitiateTransfer: equals `Partner.InitiateTransfer`, the own-account
  lookup, so it refuses inherited names where the source succeeds (see Findings).
- The handlers, and every transfer lemma except those named under Findings, use the
  own-account lookup. `Transfers.SuccessfulRoute` and `Transfers.ExternalTransferApplied`
  therefore hold of the corrected partner only.

## Findings

| source | as written | input that shows it | evidently intended | confidence | as-written member | corrected member |
|---|---|---|---|---|---|---|
| bankz.js:50-68 | The partner's account table is a plain object read with `this.accounts[id]`. Names inherited from `Object.prototype` are therefore found. `getBalance` returns undefined for them, so index.js:175-176 routes the transfer to the partner. `initiateTransfer` then returns an id, and index.js:197-218 debits the source and answers 201, but no partner account is credited. | a transfer body with `toAccountId` "constructor", amount 10, and as source an own account holding at least 10 | only the partner's own accounts are found, so the transfer is refused with 400 "Destination account constructor not found" | high; not executed | Transfers.InheritedDestinationLosesMoney | Transfers.ExternalTransferApplied |
