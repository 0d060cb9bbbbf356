# Zafago seller dashboard — a verified model

This project models the client-side logic of the Zafago seller dashboard, a
Next.js application in which game and software sellers manage their
listings. Every page keeps its state in React hooks and works on mock data,
and the model follows that structure:

- **products list**: search, status and platform filters, a column sort, row selection, single and bulk delete;
- **new product form**: plain and nested field edits, the product-key and feature lists, the required-field check on submit;
- **sales list**: a three-field search, status, platform and date-range filters (today, yesterday, this week, this month, last month), the sort, and the total of the shown amounts;
- **withdrawals**: the balances, the request handler that validates the amount and moves it from available to pending, and the sorted list;
- **settings**: the profile, security, notification and payment forms, the password checks of the security save, and the one-second save timers;
- **registration**: the form and its validation;
- **login**: the mock credential check and the session record it stores;
- **seller sidebar**: which navigation entry is highlighted, the name shown, and logout.

Each page is a Dafny `class`. Its fields are the page's `useState`
variables, and its methods are the event handlers, each with a `modifies
this` and an `ensures` that states the whole new state. The derived values
a page computes on every render are pure functions of that state, for
example `filteredProducts`, `filteredSales`, `totalSalesAmount`,
`sortedWithdrawals` and the registration `newErrors`. The lemmas about
those functions carry the properties: shown-if-and-only-if-matching, sorted
and a permutation, the sort is stable, the total is the sum over matching
rows, the ledger invariant is kept, and the messages shown for each failed
check.

The foundations are shared:

- `Text`: ASCII lower-casing, `includes`, `startsWith`, `trim`, the `localeCompare` stand-in and decimal digits;
- `Seqs`: filter, sum, remove-at and update-at;
- `Sorting`: `Array.prototype.sort` as a stable insertion sort under an integer comparator;
- `Calendar`: proleptic Gregorian dates, day numbers, weekdays, the previous day, and `setMonth(getMonth() - 1)`;
- `ListView`: the sort toggle, the per-column comparators and the selection helpers that several pages share.

Modelling conventions:

- Money is a whole number of cents.
- A parsed amount is an `Option<int>`, where `None` stands for `NaN`.
- The current date, the time of day and the random parts of identifiers are parameters.

## Model

| member | source | states |
|---|---|---|
| Text.ToLower | app/seller/products/page.tsx:194 | lower-casing keeps the length and maps each character on its own |
| Text.ToLowerAppend | app/seller/products/page.tsx:194 | lower-casing a concatenation lower-cases each part |
| Text.ToLowerIdempotent | app/seller/sales/page.tsx:179-181 | lower-casing twice is lower-casing once, and leaves no upper-case letter |
| Text.IncludesIff | app/seller/products/page.tsx:194 | `includes` holds exactly when the query occurs at some position of the text |
| Text.IncludesEmpty | app/seller/products/page.tsx:121 | the initial empty search is included in every name |
| Text.LexCompare | app/seller/products/page.tsx:201 | the name comparison is -1, 0 or 1, and 0 exactly for equal strings |
| Text.LexCompareAntisymmetric | app/seller/products/page.tsx:201 | swapping the arguments negates the comparison |
| Text.LexCompareTransitive | app/seller/products/page.tsx:201 | the comparison is transitive |
| Text.TrimEmptyIff | app/seller/register/page.tsx:44-45 | a trimmed value is empty exactly when the value is all white space |
| Text.BeforeFirst | app/seller/login/page.tsx:50 | `split("@")[0]` is the prefix of the email before its first "@", and holds no "@" |
| Text.NatToStringRoundTrip | app/seller/withdrawals/page.tsx:184 | the decimal digits of an id number read back as that number |
| Text.NatToStringInjective | app/seller/withdrawals/page.tsx:184 | different numbers give different digit strings |
| Seqs.Filter | app/seller/products/page.tsx:192-198 | the kept rows are rows of the input that pass, and every passing row is kept |
| Seqs.FilterCounts | app/seller/products/page.tsx:192-198 | every copy of a passing row is kept and no copy of a failing row, so the result's multiset is the input's restricted to passing rows |
| Seqs.FilterIsSubsequence | app/seller/products/page.tsx:192-198 | filtering keeps the rows in their order |
| Seqs.FilterIdempotent | app/seller/products/page.tsx:182 | filtering twice with the same test is filtering once |
| Seqs.FilterAllPass | app/seller/products/page.tsx:192-198 | a filter every row passes returns the input |
| Seqs.FilterAppend | app/seller/products/page.tsx:192-198 | filtering distributes over concatenation |
| Seqs.SumAppend | app/seller/sales/page.tsx:225 | the `reduce` total of a concatenation is the sum of the totals |
| Seqs.SumFilter | app/seller/sales/page.tsx:225 | summing the kept rows is summing every row, with a zero for each dropped row |
| Seqs.RemoveAt | app/seller/products/new/page.tsx:98-103 | `filter((_, i) => i !== index)` cuts out exactly position `index`, and an index out of range changes nothing |
| Seqs.UpdateAt | app/seller/products/new/page.tsx:105-110 | `map((x, i) => i === index ? … : x)` changes exactly position `index` |
| Seqs.RemoveAtLast | app/seller/products/new/page.tsx:91-103 | removing the entry just appended restores the list |
| Seqs.UpdateAtOutside | app/seller/products/new/page.tsx:105-110 | an update at an index out of range changes nothing |
| Sorting.Insert | app/seller/products/page.tsx:199-212 | an insertion step adds exactly one row |
| Sorting.Sort | app/seller/products/page.tsx:199-212 | sorting keeps the length |
| Sorting.InsertPermutation | app/seller/products/page.tsx:199-212 | an insertion step adds exactly the inserted row to the multiset |
| Sorting.SortPermutation | app/seller/products/page.tsx:199-212 | the sorted list is a permutation of its input |
| Sorting.SortSorted | app/seller/products/page.tsx:199-212 | under a consistent comparator the result is in order |
| Sorting.SortStable | app/seller/products/page.tsx:199-212 | rows the comparator ties keep their input order, as `Array.prototype.sort` guarantees |
| Sorting.SortOfSorted | app/seller/products/page.tsx:199-212 | sorting an ordered list returns it unchanged |
| Sorting.SortIdempotent | app/seller/products/page.tsx:199-212 | sorting twice is sorting once |
| Sorting.SumSort | app/seller/sales/page.tsx:210-225 | sorting does not change the sum of the amounts |
| Calendar.Weekday | app/seller/sales/page.tsx:199 | `getDay()` is between 0 (Sunday) and 6 |
| Calendar.PrevDay | app/seller/sales/page.tsx:194-195 | `setDate(getDate() - 1)` gives a valid date |
| Calendar.PrevDayNumber | app/seller/sales/page.tsx:194-195 | the previous day is one day number back, across month and year ends |
| Calendar.PrevDayWeekday | app/seller/sales/page.tsx:198-199 | the previous day's weekday is one back, modulo 7 |
| Calendar.SetMonthBack | app/seller/sales/page.tsx:204-205 | `setMonth(getMonth() - 1)` lands in the previous month when today's day fits there, and otherwise rolls over into the current month |
| Calendar.DayNumberMonotone | app/seller/sales/page.tsx:220 | a later date has a larger day number, so date comparisons agree with `getTime()` differences |
| Calendar.DayNumberInjective | app/seller/sales/page.tsx:192 | equal day numbers are the same calendar date |
| Calendar.SeedDateWeekday | app/seller/sales/page.tsx:32 | day 0 is 1970-01-01, and the first mock sale date, 2023-04-22, is a Saturday |
| ListView.NextSort | app/seller/products/page.tsx:147-154 | clicking the sorted column flips the direction; clicking another column sorts by it ascending |
| ListView.NextSortTwice | app/seller/products/page.tsx:147-154 | two clicks on the sorted column restore the sort |
| ListView.NextSortNewFieldTwice | app/seller/products/page.tsx:147-154 | two clicks on a new column sort by it descending |
| ListView.ByTextIsComparator | app/seller/products/page.tsx:200-201 | a text column's comparator is consistent in both directions |
| ListView.ByNumberIsComparator | app/seller/products/page.tsx:202-205 | a numeric column's comparator (`a.price - b.price`) is consistent in both directions |
| ListView.DescendingSwaps | app/seller/products/page.tsx:201-205 | descending order compares the swapped pair, that is, the negated ascending comparison |
| ListView.RemoveAll | app/seller/products/page.tsx:168 | unchecking a row removes every occurrence of its id and keeps every copy of every other id (multiset equality) |
| ListView.RemoveAllKeepsOrder | app/seller/products/page.tsx:168 | unchecking keeps the other selected ids in order, and an unselected id changes nothing |
| ListView.SelectOne | app/seller/products/page.tsx:164-170 | the id is selected afterwards exactly when the row was checked; checking adds one copy of the id to the selection's multiset; unchecking removes all its copies, keeps every other copy and keeps their order |
| ListView.SelectAllChecksHeader | app/seller/products/page.tsx:297 | after select-all the header shows checked exactly when some row is shown, and after unchecking it never does |
| Products.Ids | app/seller/products/page.tsx:158 | the ids are the rows' ids, position by position |
| Products.WithoutId | app/seller/products/page.tsx:173 | a single delete removes exactly the rows with that id and keeps every copy of every other row |
| Products.WithoutSelected | app/seller/products/page.tsx:182 | a bulk delete removes exactly the rows whose id is selected and keeps every copy of every other row |
| Products.MatchesIff | app/seller/products/page.tsx:193-198 | a product matches exactly when the lower-cased query occurs in its lower-cased name and the status and platform filters are "all" or equal |
| Products.ShownIff | app/seller/products/page.tsx:192-212 | a product is shown exactly when it is in the store and matches |
| Products.NoCriteriaPassesAll | app/seller/products/page.tsx:121-123 | the initial criteria show every product, in store order |
| Products.ProductOrderIsComparator | app/seller/products/page.tsx:199-212 | the order of every column, dateAdded included, is consistent |
| Products.DisplayedIsSortedPassing | app/seller/products/page.tsx:192-212 | the shown list is sorted, a permutation of the matching rows, stable on ties, and unchanged by sorting again |
| Products.WithoutIdKeepsOrder | app/seller/products/page.tsx:172-173 | a single delete keeps the other products in order, and an unknown id changes nothing |
| Products.WithoutSelectedKeepsOrder | app/seller/products/page.tsx:181-182 | a bulk delete keeps the other products in order, and repeating it changes nothing |
| Products.DiscountedPriceBounds | app/seller/products/page.tsx:365-367 | the shown price is the list price without a discount, and a discount from 0 to 100 never raises it |
| Products.TwoRowSorts | app/seller/products/page.tsx:200-203 | two rows ordered by name ascending, and by price descending |
| Products.SearchFindsContainedQuery | app/seller/products/page.tsx:194 | the search ignores case: a product whose name contains the query, in any letter case, is found |
| Products.SearchMissesWithoutCharacter | app/seller/products/page.tsx:194 | a product whose lower-cased name lacks a character of the lower-cased query is not shown |
| Products.StaleSelectionAfterDelete | app/seller/products/page.tsx:172-189 | a deleted id stays selected, so a later bulk delete reports more products than it removes |
| Products.ProductsPage.constructor | app/seller/products/page.tsx:120-126 | the initial state: the loaded products, no selection, empty search, filters "all", sorted by dateAdded descending |
| Products.ProductsPage.SetSearchQuery | app/seller/products/page.tsx:258 | typing in the search changes the query and nothing else |
| Products.ProductsPage.SetStatusFilter | app/seller/products/page.tsx:122 | choosing a status changes that filter and nothing else |
| Products.ProductsPage.SetPlatformFilter | app/seller/products/page.tsx:123 | choosing a platform changes that filter and nothing else |
| Products.ProductsPage.HandleSort | app/seller/products/page.tsx:147-154 | `handleSort` moves the sort to `NextSort` and changes nothing else |
| Products.ProductsPage.HandleSelectAll | app/seller/products/page.tsx:156-162 | the selection becomes the shown ids, or empty, and the header checkbox follows |
| Products.ProductsPage.HandleSelectProduct | app/seller/products/page.tsx:164-170 | the row's id is in the selection exactly when the row was checked |
| Products.ProductsPage.HandleDeleteProduct | app/seller/products/page.tsx:172-179 | no product with that id remains, and the selection is left as it was |
| Products.ProductsPage.HandleBulkDelete | app/seller/products/page.tsx:181-189 | no selected product remains, the selection is cleared, and the reported count is the length of the old selection |
| Sales.ShownIff | app/seller/sales/page.tsx:176-221 | a sale is shown exactly when it is loaded and matches the search in product, order id or customer, the status, the platform and the date range |
| Sales.SaleOrderIsComparator | app/seller/sales/page.tsx:211-221 | the order of every column is consistent |
| Sales.DisplayedIsSortedPassing | app/seller/sales/page.tsx:176-221 | the shown list is sorted, a permutation of the matching sales, and stable on ties |
| Sales.TotalOfShown | app/seller/sales/page.tsx:224-225 | the total is the sum of the amounts of the matching sales, whatever the sort |
| Sales.NoCriteriaTotalsAll | app/seller/sales/page.tsx:133-138 | with the initial criteria the total is every loaded sale's amount |
| Sales.YesterdayIsPreviousDayNumber | app/seller/sales/page.tsx:193-196 | "yesterday" selects exactly the dates one day number before today |
| Sales.WeekStartIsSunday | app/seller/sales/page.tsx:197-200 | the week starts on the Sunday at most six days back, and today is in this week |
| Sales.LastMonthWrapsInJanuary | app/seller/sales/page.tsx:203-206 | in January, "lastMonth" is December of the year before |
| Sales.ThisWeekAsWrittenDropsFirstDay | app/seller/sales/page.tsx:197-200 | the page's comparison with the week start at the current time admits no more than the day comparison, and after midnight it drops exactly the sales dated on the week's first day |
| Sales.ThisWeekSundayExample | app/seller/sales/page.tsx:197-200 | on Sunday 2023-04-23 at 10:00, a sale of that day is not in the page's "thisWeek" |
| Sales.LastMonthAsWrittenRollsOver | app/seller/sales/page.tsx:203-206 | the page's "lastMonth" is the previous month while today's day fits in it, and otherwise the current month |
| Sales.LastMonthMarch31Example | app/seller/sales/page.tsx:203-206 | on 2023-03-31 the page's "lastMonth" selects March, while the corrected filter selects February |
| Sales.SalesPage.constructor | app/seller/sales/page.tsx:132-138 | the initial state: the loaded sales, empty search, every filter "all", sorted by date descending |
| Sales.SalesPage.SetSearchQuery | app/seller/sales/page.tsx:133 | typing in the search changes the query and nothing else |
| Sales.SalesPage.SetStatusFilter | app/seller/sales/page.tsx:134 | choosing a status changes that filter and nothing else |
| Sales.SalesPage.SetPlatformFilter | app/seller/sales/page.tsx:135 | choosing a platform changes that filter and nothing else |
| Sales.SalesPage.SetDateFilter | app/seller/sales/page.tsx:136 | choosing a date range changes that filter and nothing else |
| Sales.SalesPage.HandleSort | app/seller/sales/page.tsx:159-166 | the sort moves to `NextSort`, and the total amount is the same on every day |
| Withdrawals.FindMethod | app/seller/withdrawals/page.tsx:186 | `find` returns the first method with the selected id, and nothing exactly when no method has that id |
| Withdrawals.Request | app/seller/withdrawals/page.tsx:152-208 | the request is refused as an invalid amount, insufficient funds, a missing method or an unknown method exactly under the source's checks; otherwise the new request is put first and the amount moves from available to pending |
| Withdrawals.RequestIdInjective | app/seller/withdrawals/page.tsx:184 | request ids `w-n` are equal exactly when their numbers are |
| Withdrawals.RequestKeepsLedgerValid | app/seller/withdrawals/page.tsx:183-197 | an accepted request keeps balance = available + pending, never overdraws, and adds a fresh id |
| Withdrawals.PrependNextId | app/seller/withdrawals/page.tsx:183-193 | putting the request numbered one past the last in front keeps the ids distinct and numbered, and the new id is fresh |
| Withdrawals.RequestCheckOrder | app/seller/withdrawals/page.tsx:155-179 | the amount is checked before the funds, and the funds before the method |
| Withdrawals.OneCentAccepted | app/seller/withdrawals/page.tsx:155-170 | there is no minimum: one cent is accepted when it is available and a method is known |
| Withdrawals.WithdrawAllAvailable | app/seller/withdrawals/page.tsx:164-197 | the whole available balance can be withdrawn, leaving zero available and the balance unchanged |
| Withdrawals.WithdrawalOrderIsComparator | app/seller/withdrawals/page.tsx:210-223 | the order of every column is consistent |
| Withdrawals.SortedWithdrawalsArePermutation | app/seller/withdrawals/page.tsx:210-223 | the shown list is a sorted permutation of the requests, stable on ties |
| Withdrawals.WithdrawalsPage.constructor | app/seller/withdrawals/page.tsx:113-133 | the seeded balances 2450.75, 750.25 and 1700.50, with balance = available + pending, and the first method selected |
| Withdrawals.WithdrawalsPage.SetWithdrawalAmount | app/seller/withdrawals/page.tsx:267 | typing an amount changes only the input |
| Withdrawals.WithdrawalsPage.SetSelectedPaymentMethod | app/seller/withdrawals/page.tsx:117 | choosing a method changes only the selection |
| Withdrawals.WithdrawalsPage.SetWithdrawalDialogOpen | app/seller/withdrawals/page.tsx:118 | opening or closing the dialog changes only that flag |
| Withdrawals.WithdrawalsPage.HandleSort | app/seller/withdrawals/page.tsx:143-150 | the sort moves to `NextSort` and nothing else changes |
| Withdrawals.WithdrawalsPage.HandleWithdrawalRequest | app/seller/withdrawals/page.tsx:152-208 | the page applies `Request`: an error leaves the state alone, and success closes the dialog and clears the input; the ledger invariant is kept |
| NewProduct.Change | app/seller/products/new/page.tsx:73-79 | the field gets the value, every other field keeps its own, and the lists are untouched |
| NewProduct.NestedChange | app/seller/products/new/page.tsx:81-89 | exactly one nested field changes |
| NewProduct.AddCode | app/seller/products/new/page.tsx:91-96 | a blank code on the form's platform is appended |
| NewProduct.RemoveCode | app/seller/products/new/page.tsx:98-103 | the code at `index` is cut out, and an index out of range changes nothing |
| NewProduct.ChangeCode | app/seller/products/new/page.tsx:105-110 | only the entry at `index` gets the new code or platform |
| NewProduct.AddFeature | app/seller/products/new/page.tsx:112-117 | a blank feature line is appended |
| NewProduct.RemoveFeature | app/seller/products/new/page.tsx:119-124 | the feature at `index` is cut out, and an index out of range changes nothing |
| NewProduct.ChangeFeature | app/seller/products/new/page.tsx:126-131 | only the feature at `index` changes |
| NewProduct.MissingRequiredIff | app/seller/products/new/page.tsx:139 | the form is refused exactly when one of name, description, platform and price is empty |
| NewProduct.FillingRequiredFields | app/seller/products/new/page.tsx:30-55 | the untouched form is refused, and filling the four required fields is enough |
| NewProduct.InitialFormShape | app/seller/products/new/page.tsx:30-55 | the initial defaults: discount "0", stock "unlimited" with quantity "100", status "draft", and empty requirements |
| NewProduct.AddCodeTakesPlatform | app/seller/products/new/page.tsx:91-96 | a code added after choosing a platform takes that platform |
| NewProduct.AddThenRemove | app/seller/products/new/page.tsx:91-124 | removing the code or feature just added restores the form |
| NewProduct.ChangeCodeLastWins | app/seller/products/new/page.tsx:105-110 | the last edit of a code wins, and rewriting a code's own text changes nothing |
| NewProduct.NewProductPage.constructor | app/seller/products/new/page.tsx:27-55 | the page starts on the initial form, not saving |
| NewProduct.NewProductPage.HandleChange | app/seller/products/new/page.tsx:73-79 | the form becomes `Change` of the old form |
| NewProduct.NewProductPage.HandleNestedChange | app/seller/products/new/page.tsx:81-89 | the form becomes `NestedChange` of the old form |
| NewProduct.NewProductPage.HandleAddCode | app/seller/products/new/page.tsx:91-96 | the form becomes `AddCode` of the old form |
| NewProduct.NewProductPage.HandleRemoveCode | app/seller/products/new/page.tsx:98-103 | the form becomes `RemoveCode` of the old form |
| NewProduct.NewProductPage.HandleCodeChange | app/seller/products/new/page.tsx:105-110 | the form becomes `ChangeCode` of the old form |
| NewProduct.NewProductPage.HandleAddFeature | app/seller/products/new/page.tsx:112-117 | the form becomes `AddFeature` of the old form |
| NewProduct.NewProductPage.HandleRemoveFeature | app/seller/products/new/page.tsx:119-124 | the form becomes `RemoveFeature` of the old form |
| NewProduct.NewProductPage.HandleFeatureChange | app/seller/products/new/page.tsx:126-131 | the form becomes `ChangeFeature` of the old form |
| NewProduct.NewProductPage.HandleSubmit | app/seller/products/new/page.tsx:133-169 | the product is saved exactly when no required field is empty; the form is kept and saving ends |
| Register.FormErrorKeys | app/seller/register/page.tsx:41-57 | each field has an error exactly when its check fails: blank company name, an email that does not look valid, a password under 8 characters, mismatched passwords, terms not agreed |
| Register.MessageIffRuleBroken | app/seller/register/page.tsx:44-53 | a check produces a message exactly when its rule is broken, with "required" covering the blank cases |
| Register.FormErrorMessages | app/seller/register/page.tsx:44-53 | the message shown under a failing field: "required" for a blank email or an empty password, and otherwise "invalid" or "too short" |
| Register.FormErrorsAt | app/seller/register/page.tsx:41-55 | the error map holds a key exactly when its check produces a message, and then holds that message |
| Register.EmailNotBlank | app/seller/register/page.tsx:45-46 | an address the pattern accepts is never blank |
| Register.ValidIff | app/seller/register/page.tsx:56 | the form is valid exactly when every rule holds |
| Register.EmailUnanchored | app/seller/register/page.tsx:46 | the unanchored pattern also accepts an address surrounded by other text |
| Register.EmailExamples | app/seller/register/page.tsx:46 | "seller@example.com" passes the pattern and "seller@example" does not |
| Register.SetTextGetText | app/seller/register/page.tsx:33-39 | typing in one input changes that input and no other |
| Register.RegisterPage.constructor | app/seller/register/page.tsx:18-28 | the empty form, no errors, not loading |
| Register.RegisterPage.HandleChange | app/seller/register/page.tsx:33-39 | the form becomes `SetText` of the old form |
| Register.RegisterPage.SetAgreeTerms | app/seller/register/page.tsx:197 | the terms box is agreed exactly when the checkbox reports `true` |
| Register.RegisterPage.SetReceiveUpdates | app/seller/register/page.tsx:218 | the updates box is on exactly when the checkbox reports `true` |
| Register.RegisterPage.ValidateForm | app/seller/register/page.tsx:41-57 | the shown errors become `FormErrors`, and the form is valid exactly when there are none |
| Register.RegisterPage.HandleSubmit | app/seller/register/page.tsx:59-88 | the form is submitted exactly when it has no errors, and loading has ended afterwards |
| Settings.CheckSecurity | app/seller/settings/page.tsx:123-141 | a mismatch is reported first; otherwise a new password from 1 to 7 characters is too short |
| Settings.ClearPasswords | app/seller/settings/page.tsx:151-156 | the security timer empties the three password inputs and keeps the two-factor switch |
| Settings.SecurityAcceptedIff | app/seller/settings/page.tsx:123-143 | the security save goes ahead exactly when the new passwords agree and are empty or at least 8 characters |
| Settings.EmptyPasswordsAccepted | app/seller/settings/page.tsx:134 | saving only the two-factor switch with empty password inputs is accepted, also after the inputs are cleared |
| Settings.ProfileFieldIndependent | app/seller/settings/page.tsx:79-85 | a profile input changes its own field and no other |
| Settings.NotificationIndependent | app/seller/settings/page.tsx:95-100 | a notification switch changes its own preference and no other |
| Settings.SettingsPage.constructor | app/seller/settings/page.tsx:24-62 | the initial profile, security, notification and payment values, not saving |
| Settings.SettingsPage.HandleProfileChange | app/seller/settings/page.tsx:79-85 | only the profile changes |
| Settings.SettingsPage.HandleSecurityChange | app/seller/settings/page.tsx:87-93 | only the security inputs change |
| Settings.SettingsPage.SetTwoFactor | app/seller/settings/page.tsx:39-44 | only the two-factor switch changes |
| Settings.SettingsPage.HandleNotificationChange | app/seller/settings/page.tsx:95-100 | only that notification preference changes |
| Settings.SettingsPage.HandlePaymentChange | app/seller/settings/page.tsx:102-108 | only the payment inputs change |
| Settings.SettingsPage.SetAutoWithdrawal | app/seller/settings/page.tsx:56-61 | only the automatic-withdrawal switch changes |
| Settings.SettingsPage.HandleSave | app/seller/settings/page.tsx:110-121 | a profile, notification or payment save starts saving, with its timer pending, and changes no form |
| Settings.SettingsPage.HandleSaveSecurity | app/seller/settings/page.tsx:123-159 | the first failing check is reported and nothing starts; otherwise saving starts with the security timer pending |
| Settings.SettingsPage.TimerFires | app/seller/settings/page.tsx:114-120 | when the timer fires saving ends, and only a security save clears the password inputs |
| Login.NewSession | app/seller/login/page.tsx:45-53 | the stored record keeps the email, is logged in, and has an id "s-" followed by the random part |
| Login.IncludesAtIff | app/seller/login/page.tsx:38 | `email.includes("@")` holds exactly when the email contains an "@" |
| Login.AcceptsIff | app/seller/login/page.tsx:38 | a login is accepted exactly when the email has an "@" and the password has 6 or more characters |
| Login.SessionNameIsLocalPart | app/seller/login/page.tsx:50 | the stored name has no "@", and the email starts with the name followed by "@" |
| Login.LoginPage.constructor | app/seller/login/page.tsx:18-22 | empty inputs, no error, not loading, and the storage as found |
| Login.LoginPage.SetEmail | app/seller/login/page.tsx:18 | typing the email changes only the email |
| Login.LoginPage.SetPassword | app/seller/login/page.tsx:19 | typing the password changes only the password |
| Login.LoginPage.HandleSubmit | app/seller/login/page.tsx:27-67 | the login succeeds exactly when the check accepts; success stores the session record, failure shows "Invalid email or password" and leaves storage alone; loading ends |
| Sidebar.SellerNameFrom | components/seller-sidebar.tsx:28-37 | with no stored record the name stays empty; otherwise it is the stored name, or "Seller" when that name is empty |
| Sidebar.ActiveIff | components/seller-sidebar.tsx:52-54 | an entry is active for its own path and for the paths below it, not for a path that merely shares its prefix, and never with no path |
| Sidebar.DifferentPathsExclusive | components/seller-sidebar.tsx:52-54 | two entries whose paths differ at a common position are never both active |
| Sidebar.AtMostOneActive | components/seller-sidebar.tsx:56-82 | whatever the path, at most one of the five navigation entries is highlighted |
| Sidebar.NameAfterLogin | components/seller-sidebar.tsx:33-36 | after a login the sidebar shows the email's local part, or "Seller" for an email starting with "@" |
| Sidebar.SellerSidebar.constructor | components/seller-sidebar.tsx:28-37 | mounting reads the stored record into the shown name |
| Sidebar.SellerSidebar.HandleLogout | components/seller-sidebar.tsx:39-50 | logging out removes the stored record |

## Left out

- Rendering, routing (`router.push`), toasts, the one-second loading spinners, `activeTab`, the password-visibility toggles and the sidebar's collapse and mobile-sheet flags. They change no data the model tracks.
- The redirect when no session is stored, `JSON.parse` failures, and the `catch` branches of the async handlers. They depend on the browser and on code that is not part of this model.
- The dashboard, agreement, privacy, terms, contact and registration-success pages, and the footer, are not part of this model.
- The asynchronous waits before a login, a registration or a product save completes. Each handler is modelled as if the wait has run out; the settings timers are modelled explicitly as a pending save and `TimerFires`.
- Text.ToLower: folds only ASCII letters, whereas `toLowerCase` folds all of Unicode.
- Text.LexCompare: orders by character code, whereas `localeCompare` uses locale collation.
- The model uses string lengths as character counts, whereas JavaScript counts UTF-16 code units.
- Sales.MatchesDate: the current date is a parameter (`now`), and dates are compared in UTC. The browser's local time zone is not modelled.
- Sales.MatchesDate: "thisWeek" and "lastMonth" are the corrected filters (see Findings). The filters as written are `Sales.ThisWeekAsWritten` and `Sales.LastMonthAsWritten`.
- Withdrawals.Request: amounts are whole cents. `Number.parseFloat` and floating-point sums are not modelled, and the parsed amount is a parameter, `None` for `NaN`.
- Withdrawals.Request: `referenceNumber` may be any natural number; the source draws it from 10000 to 99999.
- Withdrawals.Request: when no method has the selected id, the source's `find(...).type` throws. The model returns the error `UnknownPaymentMethod` instead.
- Withdrawals.WithdrawalsPage.constructor: requires at least one payment method, as the source reads `mockPaymentMethods[0]`.
- Login.NewSession: the random base-36 part of the id is a parameter, any string.
- Settings.SettingsPage.HandleSave: requires that no save is running, because the save buttons are disabled while saving. Two overlapping timers are not modelled.
- Settings.SettingsPage.HandleSaveSecurity: requires that no save is running, for the same reason.
- Products.DiscountedPriceTimes100: the discounted price is display only. It is kept in hundredths of a cent, and `toFixed(2)` rounding is not modelled.
- Register.RegisterPage.HandleChange: models the text inputs only. The `type === "checkbox"` branch of `handleChange` (app/seller/register/page.tsx:33-39) is unreachable, because both checkboxes report through `onCheckedChange`; SetAgreeTerms and SetReceiveUpdates model those.
- The withdrawal dialog's displayed minimum of $50 is text only; the handler does not enforce it (see `Withdrawals.OneCentAccepted`).

Two products-page behaviours, as the code has them:

- `handleDeleteProduct` (app/seller/products/page.tsx:172-179) removes the product but leaves its id in the selection.
- The bulk-delete toast reports `selectedProducts.length` (181-189), not the number of products removed.

`Products.StaleSelectionAfterDelete` shows the consequence: after a single delete, a bulk delete reports more products than it removes.

## Findings

| source | as written | input that shows it | evidently intended | confidence | as-written member | corrected member |
|---|---|---|---|---|---|---|
| app/seller/sales/page.tsx:197-200 | `weekStart` is today at the current time of day minus `getDay()` days. A sale's date parses to midnight, so `saleDate >= weekStart` fails for sales dated on the week's first day. | On Sunday 2023-04-23 at 10:00, a sale dated 2023-04-23 is not listed under "thisWeek". | Every sale from the Sunday that starts the week onwards is in "thisWeek". | not executed | Sales.ThisWeekAsWritten (Sales.ThisWeekSundayExample, Sales.ThisWeekAsWrittenDropsFirstDay) | Sales.MatchesDate ("thisWeek"; Sales.WeekStartIsSunday) |
| app/seller/sales/page.tsx:203-206 | `setMonth(getMonth() - 1)` keeps the day of the month. When that day does not exist in the previous month, the date rolls over into the current month. | On 2023-03-31, "lastMonth" lists March's sales and no February sale. | "lastMonth" is the previous calendar month. | not executed | Sales.LastMonthAsWritten (Sales.LastMonthMarch31Example, Sales.LastMonthAsWrittenRollsOver, Calendar.SetMonthBack) | Sales.MatchesDate ("lastMonth"; Sales.LastMonthWrapsInJanuary) |
