# Personal finance dashboard — a Dafny model of its core

This is a Dafny model of a personal finance dashboard. The application is built with Next.js, keeps its data in Supabase and connects bank accounts through the Pluggy open-finance API. The model covers:

- **The Pluggy client** (`lib/pluggy/client.ts`):
  - the API key cache and its two-hour lifetime;
  - the connect-token body;
  - the connector query;
  - the transaction query string.
- **The sync route** (`app/api/pluggy/sync`). It copies the accounts, transactions and investments of a Pluggy item into the user's tables. Each row is keyed by its Pluggy id.
- **The demo seed route** (`app/api/demo/seed`). It clears the user's rows and writes the demo data. Each demo transaction is linked to the inserted account that stands for its demo account.
- **The register and import-profile routes** (`app/api/pluggy/register`, `app/api/pluggy/import-profile`). They create an auth user and a profile from a Pluggy identity.
- **The dashboard page.** It computes:
  - totals;
  - spending per category and its chart data;
  - the six-month series;
  - the empty-state test.
- **The accounts, transactions, investments and profile components**:
  - their derived figures;
  - their filters, labels, icons and masks;
  - the rows they insert or update;
  - the state they return to after a submit.
- **The login and sign-up pages**: validation, how errors are turned into messages, and where the page navigates.

The database is three keyed tables (`Records.Tables`) held by the class `Records.Database`. A route that writes to the tables is a method that changes a `Database`. Each such method is proved equal to a specification function from the old tables to the new tables and the response (`SyncRoute.SyncSpec`, `SeedRoute.SeedSpec`). The properties of the route are lemmas about that function.

Everything the routes receive from the outside is a parameter of the model, including failures:

- Pluggy answers;
- Supabase replies;
- the current time;
- environment variables;
- whether a request threw.

JavaScript semantics are written out in `JsValues`:

- truthiness;
- `||` and `??`;
- `toLowerCase`;
- `includes`;
- `slice(-n)`;
- `String(n)`;
- the `err instanceof Error ? err.message : …` pattern.

Amounts are exact `real`s.

## Model

| member | source | states |
|---|---|---|
| PluggyClient.FreshKeyWindow | lib/pluggy/client.ts:142-144 | A key obtained at time t is reused exactly while now < t + 2 hours, and an empty key is never reused |
| PluggyClient.Client.Authenticate | lib/pluggy/client.ts:140-167 | POST /auth is sent iff the cached key is not fresh. A fresh key is returned with nothing changed. A successful answer is cached with expiry 7 200 000 ms after the time the answer was read, which is not earlier than the freshness test. A failed answer yields "Pluggy authentication failed: " + statusText and leaves the cache as it was |
| PluggyClient.ConnectTokenBody | lib/pluggy/client.ts:170-176 | The body carries an itemId key iff an item id was given and it is non-empty, and then with that id |
| PluggyClient.ConnectorsQuery | lib/pluggy/client.ts:196-202 | The connector list is requested with the sandbox flag, which defaults to true |
| PluggyClient.TransactionsQuery | lib/pluggy/client.ts:312-328 | The first parameter is accountId. Every optional parameter appears iff its option is truthy, with the option's value. Parameters keep the source's order: from, to, pageSize, page. No other parameter appears |
| Records.AccountTypeOf | app/api/pluggy/sync/route.ts:30-31 | A credit account becomes credit_card. A bank account becomes savings when its subtype is SAVINGS_ACCOUNT. Any other bank account becomes checking |
| Records.BankNameOf | app/api/pluggy/sync/route.ts:37 | The marketing name is used when it is present and non-empty, and the account name otherwise |
| Records.TransactionTypeOf | app/api/pluggy/sync/route.ts:59 | A Pluggy transaction is a credit iff its type is CREDIT, and a debit otherwise |
| Records.ProfitLoss | app/api/pluggy/sync/route.ts:70 | initial + profit == current |
| Records.ProfitLossPercentage | app/api/pluggy/sync/route.ts:71 | 0 when the initial value is not positive. Otherwise percentage × initial == profit × 100, so its sign is the sign of the profit |
| Records.PercentageRecoversCurrent | app/api/pluggy/sync/route.ts:70-71 | For a positive initial value, the current value is recovered from the initial value and the percentage |
| Records.AccountRecordOf | app/api/pluggy/sync/route.ts:29-44 | The account row carries the user, the Pluggy id, the derived type and bank name, the number, the balance and the currency code |
| KeyedTable.UpsertAll | app/api/pluggy/sync/route.ts:29-90 | After upserting a batch, the table's keys are the old keys plus the batch's keys |
| KeyedTable.UpsertAllAt | app/api/pluggy/sync/route.ts:29-90 | Each batch key holds the value of its last occurrence in the batch. Any other key keeps its old row |
| KeyedTable.UpsertAllIdempotent | app/api/pluggy/sync/route.ts:29-90 | Upserting the same batch twice gives the same table as upserting it once |
| KeyedTable.UpsertAllLast | app/api/pluggy/sync/route.ts:29-90 | An upsert that no later upsert of the same key overrides decides the row stored under that key |
| KeyedTable.UpsertAllOutside | app/api/pluggy/sync/route.ts:29-90 | Upserts whose keys all lie in a set leave every row outside that set unchanged |
| KeyedTable.UpsertAllAppend | app/api/pluggy/sync/route.ts:29-90 | Upserting a + b equals upserting a and then b |
| SyncRoute.SyncTransactionRecord | app/api/pluggy/sync/route.ts:51-65 | A synced transaction row is unlinked (no bank account id). It is keyed by its Pluggy id, carries the derived credit/debit type, and copies the description, amount, category and date |
| SyncRoute.SyncInvestmentRecord | app/api/pluggy/sync/route.ts:69-90 | The name, type and currency code are copied. The Pluggy balance becomes the balance and the initial value, and the Pluggy value the current value. The profit is current minus initial, and the percentage follows the profit rule. The institution is the institution's name or null, and the due date is copied |
| SyncRoute.UpsertAccount | app/api/pluggy/sync/route.ts:30-44 | The account table becomes the old table upserted with one more account row, and the other tables are unchanged |
| SyncRoute.UpsertFetched | app/api/pluggy/sync/route.ts:46-65 | The transaction table becomes the old table upserted with the rows of one more fetched account, after those of the earlier accounts. The other tables are unchanged |
| SyncRoute.UpsertTransactions | app/api/pluggy/sync/route.ts:51-65 | The transaction table becomes the old table upserted with the account's transaction rows, and the other tables are unchanged |
| SyncRoute.UpsertInvestments | app/api/pluggy/sync/route.ts:69-90 | The investment table becomes the old table upserted with the investment rows, and the other tables are unchanged |
| SyncRoute.Sync | app/api/pluggy/sync/route.ts:12-102 | The new tables and the response are exactly SyncSpec of the old tables. The cases are: 401 without a user; 400 without an item id; 500 "Failed to sync data" if a fetch throws, after the writes made so far; otherwise the account and investment counts |
| SyncRoute.SyncGuards | app/api/pluggy/sync/route.ts:12-20 | Without a user the answer is 401, and without an item id it is 400. Neither case writes anything |
| SyncRoute.SyncIdempotent | app/api/pluggy/sync/route.ts:29-90 | Syncing the same Pluggy data a second time leaves the tables as the first sync left them |
| SyncRoute.SyncKeepsOtherRows | app/api/pluggy/sync/route.ts:29-90 | Every row whose key is not a fetched Pluggy id survives a sync unchanged |
| SyncRoute.SyncOneRowPerId | app/api/pluggy/sync/route.ts:29-98 | After a complete sync, every Pluggy account id, transaction id and investment id has a row, built from the last record with that id. For transactions, "last" follows the order in which the accounts are visited. The response counts the accounts and the investments |
| SyncRoute.SyncKeepsKeys | app/api/pluggy/sync/route.ts:51-88 | Rows stay stored under their own Pluggy id, and every transaction row a sync adds is unlinked |
| SeedRoute.WithoutUser | app/api/demo/seed/route.ts:18-20 | Deleting by user_id: a key survives iff its row belongs to another user, and surviving rows are unchanged. The same function serves all three tables |
| SeedRoute.BuildAccountIdMap | app/api/demo/seed/route.ts:44-47 | The loop fails, which the route reports as a 500, iff more ids came back than there are demo accounts. Otherwise the result is the map from each demo account id to the id inserted for it, with later ids winning |
| SeedRoute.AccountIdMapAt | app/api/demo/seed/route.ts:44-47 | The map's keys are the visited demo ids. When the demo ids are distinct, the i-th demo id maps to the i-th inserted id |
| SeedRoute.LinkedAccountId | app/api/demo/seed/route.ts:52 | A transaction is linked iff its demo account id is in the map with a non-empty inserted id, and then to that id |
| SeedRoute.SeedTransactionRecord | app/api/demo/seed/route.ts:50-59 | A demo transaction row is the sync row for the same transaction, except that it is linked through the id map |
| SeedRoute.SeedInvestmentRecord | app/api/demo/seed/route.ts:69-87 | A demo investment row follows the profit rules. Institution and due date are null iff absent or empty |
| SeedRoute.Seed | app/api/demo/seed/route.ts:13-108 | The new tables and the response are exactly SeedSpec of the old tables. The method deletes the user's transactions, investments and accounts in that order, then runs the insert sequence with its error answers |
| SeedRoute.SeedLinksTransaction | app/api/demo/seed/route.ts:44-59 | With distinct demo account ids, a demo transaction of the i-th demo account is linked to the i-th inserted account id (when that id is non-empty). A transaction of an account that was not inserted stays unlinked |
| SeedRoute.SeedUnauthorized | app/api/demo/seed/route.ts:13-15 | Without a user the answer is 401 and nothing changes |
| SeedRoute.SeedAccountInsertFailure | app/api/demo/seed/route.ts:33-41 | A failed account insert answers 500 "Failed to insert accounts". The user's rows are gone, and every other user's rows are kept |
| SeedRoute.SeedCounts | app/api/demo/seed/route.ts:96-104 | A successful seed reports the number of inserted accounts and the numbers of demo transactions and investments |
| SeedRoute.SeedReplacesUserData | app/api/demo/seed/route.ts:18-94 | After a successful seed, each of the user's rows is keyed by a demo id, and every demo id is present. The row under a demo id is the user's record built from the last demo record with that id. For transactions, this record is linked through the account id map |
| RegisterRoute.Register | app/api/pluggy/register/route.ts:7-55 | The cases are: 500 when getIdentity throws; 400 when the identity has no email; 400 when neither an item nor an email is given. Otherwise sign-up is called with the identity's email (else the body's) and the password, which defaults to "password-ok". Its error becomes a 500, and its user is returned on success |
| ImportProfileRoute.IdentityUsed | app/api/pluggy/import-profile/route.ts:17-23 | The fetched identity is used when an item id is given, and the demo identity otherwise |
| ImportProfileRoute.FirstUserId | app/api/pluggy/import-profile/route.ts:85-86 | The first user of the lookup, whether it came back as an array or as a users object. None when the lookup failed or found nobody |
| ImportProfileRoute.ImportProfile | app/api/pluggy/import-profile/route.ts:15-124 | The error ladder is: 500 on a thrown fetch; 400 when there is no identity email; 500 without a Supabase URL; the identity payload without a service key; 500 when the lookup fails; 500 when no user id is found. The account email is the body's email ?? the identity's. The profile row takes the resolved user id and the identity's name, email, CPF and birth date. The insert reply decides 500 or success |
| DashboardPage.TotalExpense | app/dashboard/page.tsx:73-75 | Total expense is never negative |
| DashboardPage.TotalsOneMore | app/dashboard/page.tsx:69-75 | One more transaction adds its amount to income iff it is a credit, and its magnitude to expense iff it is a debit |
| DashboardPage.TotalBalanceOneMore | app/dashboard/page.tsx:65-67 | One more account adds nothing when it is a credit card, and its balance otherwise |
| DashboardPage.CategoryOf | app/dashboard/page.tsx:81 | A transaction's category, or "Outros" when it has none |
| DashboardPage.SpendingByCategory | app/dashboard/page.tsx:78-87 | The loop over the debits computes CategoryTotals of the transactions. A debit filed under `__proto__` changes nothing, because the accumulator `{}` ignores a number assigned to that name |
| DashboardPage.CategoryTotalsMeaning | app/dashboard/page.tsx:78-87 | Each bucket name appears once. The names are exactly the debits' categories other than `__proto__`. Each value is that category's spend. The values plus the dropped `__proto__` spend add up to the absolute debit amounts. The list is empty iff every debit (if any) is filed under `__proto__` |
| DashboardPage.SpendingAddsUpToExpense | app/dashboard/page.tsx:73-87 | The category totals plus the dropped `__proto__` debits add up to the total expense. Without a `__proto__` debit the totals add up to the total expense exactly |
| DashboardPage.CreditLeavesSpending | app/dashboard/page.tsx:78-87 | Adding a credit transaction does not change the spending by category |
| DashboardPage.ChartData | app/dashboard/page.tsx:125 | The chart gets the category totals when there are any, and otherwise the single "Sem dados" entry with value 0 |
| DashboardPage.ChartDataPlaceholder | app/dashboard/page.tsx:78-125 | The chart is the placeholder iff no debit is counted, that is, every debit (if any) is filed under `__proto__` |
| DashboardPage.SpendingData | app/dashboard/page.tsx:89-92 | The page fails with a TypeError iff some debit is filed under a method name inherited from `Object.prototype` (such as "constructor" or "toString"), because that bucket holds text and `toFixed` is not defined on it. Otherwise the entries are the category totals |
| DashboardPage.MonthlyData | app/dashboard/page.tsx:95-102 | The series has six months. December carries the real totals. November repeats each total when it is non-zero, and otherwise shows 11000 for income and 8200 for expense |
| DashboardPage.HasData | app/dashboard/page.tsx:104 | The page has data iff there is an account or a transaction |
| AccountsList.TotalCreditDebt | components/dashboard/accounts-list.tsx:65 | Credit card debt is the absolute sum of the card balances and is never negative |
| AccountsList.AccountsPartition | components/dashboard/accounts-list.tsx:61-64 | The non-card accounts and the cards partition the account list as a multiset, so their counts and balance sums add up to the whole |
| AccountsList.NewAccountRow | components/dashboard/accounts-list.tsx:72-79 | The inserted row takes the form's fields. The balance is the parsed number, or 0. Number and agency are null iff empty |
| AccountsList.AfterSubmit | components/dashboard/accounts-list.tsx:81-89 | After a successful insert the dialog closes and the form resets to a checking account. A failure keeps both |
| AccountsList.AccountTypeLabel | components/dashboard/accounts-list.tsx:96-98 | Each of the four known types gets its label, and any other type is shown as it is |
| AccountsList.AccountIconOf | components/dashboard/accounts-list.tsx:100-111 | CreditCard iff the type is credit_card, Building2 iff it is savings, and Wallet for every other type |
| AccountsList.AccountNumberLine | components/dashboard/accounts-list.tsx:316-323 | The line is present iff the account has a non-empty number. It is "Ag: agency \| Cc: number" when there is also an agency, and the number alone otherwise |
| TransactionsList.FilteredTransactions | components/dashboard/transactions-list.tsx:49-53 | The result is a subsequence of the transactions. It keeps exactly the transactions whose description contains the search text, ignoring case, and whose type passes the filter. Each kept transaction appears as many times as in the input |
| TransactionsList.EmptySearchKeepsAll | components/dashboard/transactions-list.tsx:49-53 | An empty search with the "all" filter shows every transaction |
| TransactionsList.TypeFilterKeepsType | components/dashboard/transactions-list.tsx:49-53 | The credit filter shows only credits and the debit filter only debits |
| TransactionsList.NewTransactionRow | components/dashboard/transactions-list.tsx:60-67 | The inserted row takes the form's fields and the parsed amount. The category is null iff it is empty |
| TransactionsList.AfterSubmit | components/dashboard/transactions-list.tsx:69-78 | After a successful insert the dialog closes and the form resets with today's date. A failure keeps both |
| TransactionsList.DisplayedAmount | components/dashboard/transactions-list.tsx:233-234 | The sign is "+" iff the transaction is a credit, and the magnitude is the absolute amount |
| TransactionsList.DisplayedAmountReadsBack | components/dashboard/transactions-list.tsx:233-234 | The displayed signed value equals the stored amount iff the amount's sign agrees with the type (or it is zero) |
| InvestmentsList.AverageProfitPercentage | components/dashboard/investments-list.tsx:57-60 | 0 for no investments. Otherwise average × count == the sum of the percentages |
| InvestmentsList.AverageWithinBounds | components/dashboard/investments-list.tsx:57-60 | The average lies between the smallest and the largest percentage |
| InvestmentsList.TotalProfitIsGain | components/dashboard/investments-list.tsx:55-56 | Total profit equals total current value minus total initial value whenever each row's profit is current minus initial |
| InvestmentsList.NewInvestmentRow | components/dashboard/investments-list.tsx:66-83 | The inserted row takes the form's fields. Profit is current minus initial, and the percentage follows the profit rule |
| InvestmentsList.AfterSubmit | components/dashboard/investments-list.tsx:85-94 | After a successful insert the dialog closes and the form resets. A failure keeps both |
| InvestmentsList.InvestmentIconOf | components/dashboard/investments-list.tsx:101-104 | The icon is the one of the first type entry whose value or label is the kind, and PiggyBank when no entry matches |
| InvestmentsList.TypeLabel | components/dashboard/investments-list.tsx:106-109 | The label is the caption of the first entry with that value, and the raw type when none has it |
| InvestmentsList.PluggyTypeLookup | components/dashboard/investments-list.tsx:22-35 | FIXED_INCOME is labelled "Renda Fixa" with the Landmark icon |
| InvestmentsList.UnknownTypeLookup | components/dashboard/investments-list.tsx:101-109 | A type that is neither a value nor a label of an entry is shown as it is, with the PiggyBank icon |
| InvestmentsList.FormTypes | components/dashboard/investments-list.tsx:206 | The form offers the first eight types, which exclude "Poupança" and "Outros" |
| ProfileForm.InitialForm | components/dashboard/profile-form.tsx:26-31 | Each field starts from the profile's value, or "" when the value or the profile is missing |
| ProfileForm.UpdateRow | components/dashboard/profile-form.tsx:45-50 | The update keeps the name. Document, birth date and card are null iff empty. It stamps the time |
| ProfileForm.SaveIsStable | components/dashboard/profile-form.tsx:26-50 | Reloading the saved profile into the form and saving again sends the same update, apart from the time |
| ProfileForm.UntouchedSave | components/dashboard/profile-form.tsx:26-50 | Saving an untouched form keeps each optional field, except that an empty one becomes null |
| ProfileForm.AfterSave | components/dashboard/profile-form.tsx:53-62 | Success is shown iff the update did not fail, and then editing ends |
| ProfileForm.FormatDate | components/dashboard/profile-form.tsx:64-67 | "Não informado" iff there is no date, and otherwise the date itself, to be formatted |
| ProfileForm.MaskCreditCard | components/dashboard/profile-form.tsx:69-72 | "Não informado" for no card. Otherwise the mask followed by the card's last (up to) four characters |
| ProfileForm.MaskShowsOnlyLastFour | components/dashboard/profile-form.tsx:69-72 | Two cards with the same last four characters are masked alike, and only those four characters are shown |
| LoginPage.LoginErrorMessage | app/auth/login/page.tsx:48-53 | "Invalid login credentials" and "Email not confirmed" get their Portuguese texts, checked in that order. Any other message is shown as it is |
| LoginPage.HandleLogin | app/auth/login/page.tsx:22-57 | Success navigates to /dashboard with no error. A failure shows the mapped message and stays. Loading always ends |
| LoginPage.NonErrorThrowShowsGenericText | app/auth/login/page.tsx:47 | A thrown non-Error shows the generic login failure text |
| LoginPage.FailureAlwaysExplained | app/auth/login/page.tsx:46-107 | An error value is set iff the login failed. The error box is shown iff the login failed with anything other than an Error whose message is empty; such a message is set as "" and `{error && ...}` renders nothing |
| SignUpPage.ValidatePasswords | app/auth/sign-up/page.tsx:39-49 | No error iff the passwords match and have at least six characters. A mismatch is reported first |
| SignUpPage.LengthBoundary | app/auth/sign-up/page.tsx:45-49 | Six characters are accepted and five are rejected |
| SignUpPage.Metadata | app/auth/sign-up/page.tsx:59-64 | The metadata keeps the name, and each optional field is null iff it is empty |
| SignUpPage.RedirectUrl | app/auth/sign-up/page.tsx:57-58 | The production URL, else the development URL, else origin + "/dashboard" |
| SignUpPage.SignUpState.HandleSignUp | app/auth/sign-up/page.tsx:36-73 | A validation error is shown without a request. Otherwise the request is sent: success navigates to the success page, and a failure shows its message. Loading always ends |
| JsValues.IncludesShorter | app/auth/login/page.tsx:48-51 | A string never contains a longer one |
| JsValues.SliceLast | components/dashboard/profile-form.tsx:71 | slice(-n) yields the last min(n, length) characters, which are a suffix |

## Left out

- Network and database I/O, and their concurrency. Every reply is a parameter. The sync route's parallel `Promise.all` fetch of accounts and investments is one input.
- Database uniqueness and `onConflict` semantics beyond "one row per external id". The seed's inserts are modelled as keyed writes, so another user's row with the same external id is overwritten, not rejected. Rows without an external id are not modelled.
- Errors returned by the sync route's upserts are ignored by the route, so the model applies every upsert.
- A seed account insert that returns null without an error is not modelled.
- A failing `request.json()`, and a JSON body that is `null`, are not modelled.
- Register and import-profile: only a thrown `getIdentity` is modelled. A throw from the sign-up, lookup or insert calls (a 500 "Internal server error") is not.
- The contents of `lib/pluggy/demo-data` are not part of this model. The demo data is a parameter.
- Rendering, CSS, icon colours (`getIconColor`), toasts, `router.refresh` and the timed reset of the profile success message.
- Number and date formatting (`toFixed`, `Intl.NumberFormat`, `toLocaleDateString`): `ProfileForm.FormatDate` returns the date to be formatted.
- `parseFloat` results are given as inputs. `NaN` is `None` in the transaction form. The account form's `|| 0` maps `NaN` and 0 to 0.
- Floating-point rounding: amounts are exact reals.
- String lengths are counted in characters, not UTF-16 code units.
- `toLowerCase` lowers ASCII letters only.
- The order `Object.entries` gives integer-like category names is not modelled: the category totals keep insertion order.
- DashboardPage.SpendingData: the text a bucket holds under an inherited method name is not modelled; the model records only that `toFixed` then throws and the page fails.
- The details of the Supabase auth calls on the login and sign-up pages are not modelled; their outcome is a parameter.
- Logging to the console.
- The seed route's success message text is not modelled.
- DashboardPage.MonthlyData: the contract does not state the four fixed illustrative months (Jul to Out). It states the six-month length, November with its fallbacks, and December.
