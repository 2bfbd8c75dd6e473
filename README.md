# MindfulPay core, modelled in Dafny

MindfulPay is a React Native app that puts a few controls in front of UPI
payments and keeps a small personal ledger. This project models the parts of it
that decide things, and proves what they do:

- **Ledger** (`financial_context.dfy`, module `Ledger`). The financial provider's
  state is a class, `FinancialState`. Its fields are the four user-managed lists
  (transactions, goals, spending limits, blocked merchants), the derived summary
  (income, expense, net balance, expense per category) and an abstract key→value
  `store` standing for persistent storage. Each operation installs the new list,
  recomputes the summary when the transactions changed, and then writes the list
  under its key. A failed write (`writeOk` false) is only logged. The summary
  loop `calculateSummaryData` is the method `ComputeSummary`, proved against
  record-by-record specification functions.
- **Daily spending counter** (`spending_limit.dfy`, module `SpendingLimit`). One
  stored `{date, amount}` record reads as zero on any other day. It is
  overwritten with today's total plus the amount, and it gates payments at 5000
  a day, limit included.
- **Vendor blocklist** (`vendor_check.dfy`, module `VendorCheck`, over the
  ASCII string functions of `text.dfy`, module `Text`). The id is lowered and
  trimmed, then matched exactly against five constants.
- **Payment decision** (`payment_form.dfy`, module `PaymentForm`).
  `handlePayment`'s chain is a pure outcome function, `Decide`: required
  fields, `@` in the id, a positive amount, the blocklist, the daily limit,
  launch. The form is a class with the `isLoading` flag. The UPI launch adds
  the amount to the counter when the app opens.
- **Blocked-payment modal** (`payment_screen.dfy`, module `PaymentScreen`).
  This covers the screen's state fields and handlers: the attempt handler
  (blocklist first, then the limit), the modal's reason, message and title,
  Cancel, the emergency override (it only closes the modal and shows a toast),
  and the scanner toggle.
- **Dashboard** (`home_screen.dfy`, module `Dashboard`). The five most recent
  expenses (a stable sort, newest first, cut to five), the expense total of
  each of the last seven days, the first three goals, and the demonstration
  seeding. As written, every add in the seeding loop rebuilds its list from
  the list of the first render, so the program keeps only the last mock
  record of each kind (see "## Findings"). The model states that, and it also
  models the seeding as evidently intended: each list is filled record by
  record, only when it is empty, and every mock merchant is offered.
- **Categories** (`categories.dfy`, module `Categories`). The three constant
  category lists, their order-preserving de-duplicated union (26 entries) and
  the icon lookup with its default.

`common.dfy` (module `Common`) holds the shared `Option`, the `Day` type, and
`Filter`/`Map`/`Take`, which stand for the JavaScript array methods.

Amounts are `real`; dates are day numbers; generated ids, "today", whether
storage writes succeed, and whether a UPI app opens are all parameters.

Some things the code does differ from what a reader of its names might expect.
The model follows the code:

- The `catch` of `checkSpendingLimit` (utils/spendingLimit.ts:84-87) cannot
  be reached. `getCurrentDailySpending` already turns every read or parse
  failure into 0, so an unreadable record makes the check pass for any
  amount up to 5000. It does not fail closed. See
  `SpendingLimit.UnreadableCountsAsZero`.
- The blocked-merchant list that users edit is never consulted when paying.
  Only the five hard-coded vendors are. Its entries are stored as typed, so
  one containing an upper-case letter never matches
  (`Ledger.UpperEntryNeverMatches`).
- The "limit" message of the modal speaks of a *monthly* limit, while the
  only limit enforced is daily.
- `PaymentForm` declares no props. The `upiId` and `onPaymentAttempt` that
  `PaymentScreen` passes it are never used, and the QR scanner never calls
  `onScanSuccess`. The screen's handlers are modelled as written, as if they
  were invoked.
- The emergency override records nothing and launches nothing.

## Model

| member | source | states |
|---|---|---|
| Text.LowerChar | utils/vendorCheck.ts:21 | a lowered character is never upper-case; only upper-case letters change; whitespace stays whitespace |
| Text.ToLower | utils/vendorCheck.ts:21 | `toLowerCase` keeps the length, lowers each character in place, and leaves no upper-case letter |
| Text.ToLowerOfLower | utils/vendorCheck.ts:21 | lowering a string without upper-case letters returns it unchanged |
| Text.TrimStart | utils/vendorCheck.ts:21 | the result is a suffix that starts with a non-blank, and everything dropped was whitespace |
| Text.TrimEnd | utils/vendorCheck.ts:21 | the result is a prefix that ends with a non-blank, and everything dropped was whitespace |
| Text.Trim | utils/vendorCheck.ts:21 | `trim` returns a contiguous piece of the input with no whitespace at either end |
| Text.TrimDropsOnlyBlanks | utils/vendorCheck.ts:21 | the input is a blank prefix, then the trimmed result, then a blank suffix: `trim` drops nothing but surrounding whitespace |
| Text.ToLowerAppend | utils/vendorCheck.ts:21 | lowering distributes over concatenation |
| Text.TrimIgnoresPadding | utils/vendorCheck.ts:21 | whitespace added around a string does not change its trim |
| Text.TrimOfTrimmed | utils/vendorCheck.ts:21 | a string without surrounding whitespace is its own trim |
| Text.TrimKeepsNoUpper | utils/vendorCheck.ts:21 | trimming a string without upper-case letters leaves none |
| Text.Normalize | utils/vendorCheck.ts:21 | `toLowerCase().trim()` has no upper-case letter and no whitespace at either end |
| Text.NormalizeIdempotent | utils/vendorCheck.ts:21 | normalising twice equals normalising once |
| Text.UpperNeverNormalized | context/FinancialContext.tsx:293 | no normalised string contains an upper-case letter |
| Text.NormalizeOfNormalized | utils/vendorCheck.ts:21 | a lower-case, trimmed string normalises to itself |
| Text.NormalizeIgnoresPadding | utils/vendorCheck.ts:21 | surrounding whitespace does not change the normalisation |
| Text.NormalizeIgnoresCase | utils/vendorCheck.ts:21 | lowering first does not change the normalisation |
| VendorCheck.AnyMatches | utils/vendorCheck.ts:24 | `some` is true iff some entry, lowered, equals the normalised id |
| VendorCheck.VendorsAreLower | utils/vendorCheck.ts:6-12 | every constant is already lower-case, so lowering it changes nothing |
| VendorCheck.CheckVendorBlocklist | utils/vendorCheck.ts:19-25 | an id is blocked iff its normalisation is one of the five constants |
| VendorCheck.VendorsAreNormalized | utils/vendorCheck.ts:6-12 | every constant is its own normalisation |
| VendorCheck.CaseAndPaddingIgnored | utils/vendorCheck.ts:19-25 | a listed vendor, in any case and padded with whitespace, is blocked |
| VendorCheck.PaddedCapitalsBlocked | utils/vendorCheck.ts:19-25 | `" ZOMATO@UPI "` is blocked |
| VendorCheck.LongIdNotBlocked | utils/vendorCheck.ts:6-12 | an id whose normalisation is longer than every constant is never blocked |
| VendorCheck.SuperstringIsNormalized | utils/vendorCheck.ts:21 | `"zomato@upi.com"` is its own normalisation, 14 characters long |
| VendorCheck.SuperstringNotBlocked | utils/vendorCheck.ts:24 | only exact matches block: `"zomato@upi.com"` is not blocked |
| VendorCheck.ListedBlocked | utils/vendorCheck.ts:19-25 | each listed vendor, typed exactly, is blocked |
| SpendingLimit.CurrentDailySpending | utils/spendingLimit.ts:30-50 | a record dated today reads as its amount, and a non-zero reading comes only from such a record |
| SpendingLimit.CheckSpendingLimit | utils/spendingLimit.ts:77-87 | the check passes iff recording the payment would leave today's counter within 5000; `LimitIsInclusive`, `UnreadableCountsAsZero` and `FailedCheckStaysFailed` state its edge cases |
| SpendingLimit.AfterSpending | utils/spendingLimit.ts:56-66 | the record written is dated today |
| SpendingLimit.DailySpendingStore.UpdateDailySpending | utils/spendingLimit.ts:56-70 | a successful write stores today's total plus the amount; a failed write leaves the record as it was |
| SpendingLimit.OtherDayReadsZero | utils/spendingLimit.ts:30-45 | no record, an unreadable record, or a record of another day reads as 0 |
| SpendingLimit.NewDayResets | utils/spendingLimit.ts:56-66 | an update on a new day stores exactly `{today, amount}` |
| SpendingLimit.UpdateThenRead | utils/spendingLimit.ts:30-66 | round trip: reading back the same day gives the previous total plus the amount |
| SpendingLimit.LimitIsInclusive | utils/spendingLimit.ts:77-83 | landing exactly on 5000 passes the check; going beyond it fails |
| SpendingLimit.UnreadableCountsAsZero | utils/spendingLimit.ts:46-87 | with an unreadable record, the check passes iff the amount is at most 5000 (`checkSpendingLimit`'s `catch` is never reached) |
| SpendingLimit.AfterAllAddsUp | utils/spendingLimit.ts:56-66 | a series of same-day updates raises the counter by the sum of their amounts |
| SpendingLimit.FailedCheckStaysFailed | utils/spendingLimit.ts:56-83 | once a check fails on some day, it keeps failing that day after any further non-negative spending |
| Ledger.IncomeTotal | context/FinancialContext.tsx:138-143 | the income total, record by record; `IncomeAndExpenseSplit` and `ComputeSummary` state it |
| Ledger.ExpenseTotal | context/FinancialContext.tsx:138-143 | the total of every record that is not income, record by record; `IncomeAndExpenseSplit`, `CategoryTotalsSumToExpense` and `ComputeSummary` state it |
| Ledger.CategoryExpense | context/FinancialContext.tsx:144-150 | one category's expense sum, record by record; `CategoryExpenseAbsent`, `CategoryTotals` and `CategoryTotalsSumToExpense` state it |
| Ledger.CategoryTotals | context/FinancialContext.tsx:138-150 | the per-category map has a key exactly for each category of an expense record |
| Ledger.CategoryExpenseAbsent | context/FinancialContext.tsx:145-148 | a category with no expense record sums to 0 |
| Ledger.ExpenseCategoriesSnoc | context/FinancialContext.tsx:138-150 | one more record adds its category to the keys iff it is an expense |
| Ledger.CategoryTotalsSnoc | context/FinancialContext.tsx:138-150 | one more expense adds its amount to its category's entry, creating the entry when missing; income changes nothing |
| Ledger.EmptySummary | context/FinancialContext.tsx:134-136 | no transactions give zero totals and an empty map |
| Ledger.IncomeAndExpenseSplit | context/FinancialContext.tsx:138-151 | every record counts exactly once, as income or as expense |
| Ledger.CategoryTotalsSumToExpense | context/FinancialContext.tsx:138-150 | the per-category values sum to the expense total |
| Ledger.SummaryStep | context/FinancialContext.tsx:138-151 | the totals of a list with one more record, in the form the loop updates them (a falsy entry is replaced, a truthy one is added to) |
| Ledger.Accumulate | context/FinancialContext.tsx:138-151 | one pass of the loop body turns the totals of the records seen into the totals of those records plus this one |
| Ledger.ComputeSummary | context/FinancialContext.tsx:133-157 | income is the sum of the income records, expense the sum of all other records, and the map is the per-category expense sum |
| Ledger.RemoveTransaction | context/FinancialContext.tsx:177 | exactly the records without that id remain |
| Ledger.RemoveGoal | context/FinancialContext.tsx:219 | exactly the goals without that id remain |
| Ledger.RemoveSpendingLimit | context/FinancialContext.tsx:261 | exactly the limits without that id remain |
| Ledger.RemoveTransactionKeepsOrder | context/FinancialContext.tsx:177 | removal works piece by piece, so survivors keep their order |
| Ledger.RemoveGoalKeepsOrder | context/FinancialContext.tsx:219 | goal removal works piece by piece, so the surviving goals keep their order |
| Ledger.RemoveSpendingLimitKeepsOrder | context/FinancialContext.tsx:261 | limit removal works piece by piece, so the surviving limits keep their order |
| Ledger.RemoveAbsentTransaction | context/FinancialContext.tsx:177 | removing an id no record carries changes nothing |
| Ledger.ContributeToGoal | context/FinancialContext.tsx:203-208 | same length; a goal with that id gains `amount` in `currentAmount`; every other field and every other goal is unchanged |
| Ledger.ResizeSpendingLimit | context/FinancialContext.tsx:245-250 | same length; a limit with that id has its amount overwritten; every other field and every other limit is unchanged |
| Ledger.AddMerchant | context/FinancialContext.tsx:272-275 | the merchant is listed afterwards; the list is unchanged or grows by it at the end; no duplicate is introduced |
| Ledger.RemoveMerchant | context/FinancialContext.tsx:284 | every occurrence is dropped and nothing else; no duplicate is introduced |
| Ledger.AddMerchantIdempotent | context/FinancialContext.tsx:270-280 | adding twice is adding once |
| Ledger.MerchantBlocked | context/FinancialContext.tsx:292-294 | `isBlockedMerchant` on a given list; `UpperEntryNeverMatches`, `BlockedAfterAdd` and `NotBlockedAfterRemove` state it |
| Ledger.UpperEntryNeverMatches | context/FinancialContext.tsx:292-294 | a stored entry with an upper-case letter never matches any merchant |
| Ledger.ListedAfterAdd | context/FinancialContext.tsx:270-280 | after an add, the listed strings are the old ones and the new one |
| Ledger.BlockedAfterAdd | context/FinancialContext.tsx:270-294 | after adding `m`, a merchant is blocked iff it was before or it normalises to `m` |
| Ledger.NotBlockedAfterRemove | context/FinancialContext.tsx:282-294 | after removing `m`, no merchant that normalises to `m` is blocked |
| Ledger.FinancialState.constructor | context/FinancialContext.tsx:80-89 | the provider mounts with empty lists and a summary that agrees with them |
| Ledger.FinancialState.RecalculateSummary | context/FinancialContext.tsx:96-157 | after the summary effect, the totals and map agree with the transactions and the lists and store are untouched |
| Ledger.FinancialState.AddTransaction | context/FinancialContext.tsx:160-173 | one record with the given fields and the new id is appended and earlier records are unchanged; the summary agrees; the list is written on success |
| Ledger.FinancialState.DeleteTransaction | context/FinancialContext.tsx:175-183 | the records with that id are removed; the summary agrees; the list is written on success |
| Ledger.FinancialState.AddGoal | context/FinancialContext.tsx:186-199 | one goal is appended; the other lists and the summary are unchanged |
| Ledger.FinancialState.UpdateGoal | context/FinancialContext.tsx:201-215 | the goals are replaced by `ContributeToGoal`; nothing else changes but the store |
| Ledger.FinancialState.DeleteGoal | context/FinancialContext.tsx:217-225 | the goals with that id are removed; nothing else changes but the store |
| Ledger.FinancialState.AddSpendingLimit | context/FinancialContext.tsx:228-241 | one limit is appended; nothing else changes but the store |
| Ledger.FinancialState.UpdateSpendingLimit | context/FinancialContext.tsx:243-257 | the limits are replaced by `ResizeSpendingLimit`; nothing else changes but the store |
| Ledger.FinancialState.DeleteSpendingLimit | context/FinancialContext.tsx:259-267 | the limits with that id are removed; nothing else changes but the store |
| Ledger.FinancialState.AddBlockedMerchant | context/FinancialContext.tsx:270-280 | the merchant is appended only when absent; a present one causes no write |
| Ledger.FinancialState.RemoveBlockedMerchant | context/FinancialContext.tsx:282-290 | every occurrence of the merchant is removed; the list is written on success |
| Ledger.FinancialState.IsBlockedMerchant | context/FinancialContext.tsx:292-294 | blocked iff the normalised name is exactly one of the stored entries |
| Ledger.FinancialState.ClearAllData | context/FinancialContext.tsx:301-320 | after a successful removal, the lists are empty, the totals are 0, the map is empty and the four keys are gone; if the removal fails, nothing changes |
| Categories.Dedup | utils/categories.ts:85 | `[...new Set(...)]`; `DedupSameElements`, `DedupNoDuplicates` and `DedupKeepsFirstOccurrenceOrder` state it |
| Categories.DedupSameElements | utils/categories.ts:85 | de-duplication keeps exactly the elements of its input |
| Categories.DedupNoDuplicates | utils/categories.ts:85 | de-duplication leaves no element twice |
| Categories.DedupKeepsFirstOccurrenceOrder | utils/categories.ts:85 | de-duplicated elements appear in the order of their first occurrence |
| Categories.AllCategories | utils/categories.ts:84-86 | `getAllCategories` has no duplicates and holds exactly the elements of the three lists |
| Categories.AllCategoriesInOrder | utils/categories.ts:84-86 | the union keeps first-occurrence order of expense, then income, then goal categories |
| Categories.AllCategoriesValue | utils/categories.ts:6-44 | the union is the 26 listed names: Investments, Education and Other are kept once, where they first occur |
| Categories.GetCategoryIcon | utils/categories.ts:89-91 | the table entry when there is one, otherwise `ellipsis-horizontal` |
| Categories.EveryCategoryHasIcon | utils/categories.ts:47-81 | every category of the three lists has its own icon entry |
| Categories.OtherLooksUnknown | utils/categories.ts:47-91 | `Other` gets the same icon as a category missing from the table |
| Dashboard.ExpensesOf | screens/HomeScreen.tsx:101 | exactly the expense records of the ledger |
| Dashboard.Insert | screens/HomeScreen.tsx:102 | one step of the stable sort; `InsertAddsOne`, `InsertKeepsNewestFirst` and `InsertStable` state it |
| Dashboard.SortNewestFirst | screens/HomeScreen.tsx:102 | the comparator sort, newest first; `SortIsNewestFirstPermutation` and `SortIsStable` state it |
| Dashboard.InsertAddsOne | screens/HomeScreen.tsx:102 | one insertion step of the sort adds its record and nothing else |
| Dashboard.InsertKeepsNewestFirst | screens/HomeScreen.tsx:102 | an insertion step keeps a newest-first list newest first |
| Dashboard.SortIsNewestFirstPermutation | screens/HomeScreen.tsx:102 | the sort is a permutation of its input, newest first |
| Dashboard.InsertStable | screens/HomeScreen.tsx:102 | an inserted record goes before the records of its own date; other dates are untouched |
| Dashboard.SortIsStable | screens/HomeScreen.tsx:102 | records of the same date keep their original order |
| Dashboard.TakeNewestFirst | screens/HomeScreen.tsx:103 | a head of a newest-first list is newest first and takes nothing the list lacks |
| Dashboard.RecentTransactions | screens/HomeScreen.tsx:100-103 | at most five records; `RecentTransactionsAreNewestExpenses` and `RecentTransactionsAreTheNewestFive` state which |
| Dashboard.RecentTransactionsAreNewestExpenses | screens/HomeScreen.tsx:100-103 | the recent list holds only expenses from the ledger, no more often than there, newest first |
| Dashboard.RecentTransactionsAreTheNewestFive | screens/HomeScreen.tsx:100-103 | the recent list has min(5, expenses) entries and is a prefix of the sorted expenses, so nothing left out is newer |
| Dashboard.DaysBack | screens/HomeScreen.tsx:77-80 | entry k is today minus k days |
| Dashboard.Reverse | screens/HomeScreen.tsx:81 | entry k is entry n-1-k of the input |
| Dashboard.Last7Days | screens/HomeScreen.tsx:77-81 | seven days, the last being today; `Last7DaysAscendingToToday` states the rest |
| Dashboard.Last7DaysAscendingToToday | screens/HomeScreen.tsx:77-81 | seven consecutive days in ascending order, the last being today |
| Dashboard.SumAmountsAppend | screens/HomeScreen.tsx:91 | the sum over a concatenation is the sum of the sums |
| Dashboard.DayExpense | screens/HomeScreen.tsx:87-92 | a day's chart point; `DayExpenseSnoc`, `IncomeNeverCounts`, `NoExpenseShowsZero` and `DayExpenseIsExpenseTotalOfDay` state it |
| Dashboard.DayExpenseSnoc | screens/HomeScreen.tsx:87-92 | one more record moves a day's point by its amount iff it is an expense of that day |
| Dashboard.IncomeNeverCounts | screens/HomeScreen.tsx:88-89 | income never moves the chart |
| Dashboard.NoExpenseShowsZero | screens/HomeScreen.tsx:91 | a day without an expense shows 0 |
| Dashboard.DayExpenseIsExpenseTotalOfDay | screens/HomeScreen.tsx:87-92 | a day's point is the ledger's expense total over that day's records |
| Dashboard.WeekSeries | screens/HomeScreen.tsx:83-92 | seven chart points; `WeekSeriesPoints` states each of them |
| Dashboard.WeekSeriesPoints | screens/HomeScreen.tsx:83-92 | seven points; point k is the expense total of the day 6-k days before today, and the last point is today |
| Dashboard.TopGoals | screens/HomeScreen.tsx:106 | at most three goals, and no more than there are; `TopGoalsAreFirstThree` states which |
| Dashboard.TopGoalsAreFirstThree | screens/HomeScreen.tsx:106 | the first min(3, n) goals in their stored order |
| Dashboard.AddAllMerchantsContents | screens/HomeScreen.tsx:52-55 | after seeding, the listed merchants are the earlier ones and the mock ones, with no duplicates |
| Dashboard.AddAllMerchantsPresent | screens/HomeScreen.tsx:52-55 | offering merchants that are all listed already changes nothing |
| Dashboard.ReseedingMerchantsIsNoOp | screens/HomeScreen.tsx:52-55 | under the sequential seeding, offering the same merchants a second time leaves the list as it was |
| Dashboard.StaleAddAll | screens/HomeScreen.tsx:27-49 | the seeding loop as written, each add rebuilding from the first render's list; `StaleAddAllKeepsLast` states its result |
| Dashboard.StaleAddAllKeepsLast | screens/HomeScreen.tsx:27-49 | as written, the loop leaves the first render's list plus only the last item |
| Dashboard.StaleSeedingLosesRecords | screens/HomeScreen.tsx:27-33 | as written, seeding an empty list with two or more mock records keeps only the last one |
| Dashboard.StaleAddAllMerchants | screens/HomeScreen.tsx:52-55 | the merchant loop as written, with `includes` and the rebuilt list both on the first render's list; `StaleMerchantsKeepLast` states its result |
| Dashboard.StaleMerchantsKeepLast | screens/HomeScreen.tsx:52-55 | as written, of mock merchants none of which were listed, only the last is added |
| Dashboard.WithIds | screens/HomeScreen.tsx:28-48 | seeded record k is mock draft k given generated id k, for transactions, goals and limits alike |
| Dashboard.SeedTransactions | screens/HomeScreen.tsx:27-33 | the mock transactions are added in order only when there are none; other lists are untouched |
| Dashboard.SeedGoals | screens/HomeScreen.tsx:35-41 | the mock goals are added in order only when there are none |
| Dashboard.SeedSpendingLimits | screens/HomeScreen.tsx:43-49 | the mock limits are added in order only when there are none |
| Dashboard.SeedMerchants | screens/HomeScreen.tsx:52-55 | every mock merchant is offered to the duplicate-free add, with no guard |
| Dashboard.LoadMockData | screens/HomeScreen.tsx:25-59 | each of the three lists is seeded only when empty; merchants are always offered; the summary stays in agreement |
| PaymentForm.Decide | components/PaymentForm.tsx:14-73 | the outcome of `handlePayment`'s checks; a launch carries the parsed, positive amount; `MissingFieldComesFirst` through `AllChecksPassLaunches` state each branch |
| PaymentForm.MissingFieldComesFirst | components/PaymentForm.tsx:16-23 | any empty field gives "Missing Information", whatever else holds |
| PaymentForm.IdWithoutAtIsInvalid | components/PaymentForm.tsx:26-33 | with all fields filled, an id without `@` gives "Invalid UPI ID" |
| PaymentForm.BadAmountIsInvalid | components/PaymentForm.tsx:36-44 | a NaN or non-positive amount gives "Invalid Amount" |
| PaymentForm.BlockedIgnoresSpending | components/PaymentForm.tsx:50-58 | a blocked vendor is refused whatever the counter says |
| PaymentForm.OverLimitIsRefused | components/PaymentForm.tsx:61-70 | an otherwise valid payment is refused iff it would take today past 5000 |
| PaymentForm.LaunchOnlyWhenAllChecksPass | components/PaymentForm.tsx:14-73 | a launch implies that every validation and both checks passed |
| PaymentForm.AllChecksPassLaunches | components/PaymentForm.tsx:14-73 | when every check passes, the launch happens with the parsed amount |
| PaymentForm.LaunchStaysWithinLimit | components/PaymentForm.tsx:61-73 | a launched payment leaves today's counter within 5000 |
| PaymentForm.CounterStaysWithinLimit | components/PaymentForm.tsx:61-73 | whatever the outcome, a counter within the limit stays within it |
| PaymentForm.LaunchUpiPayment | utils/upiLauncher.ts:14-43 | success iff the app can open the link and opening does not fail; only then is the counter updated |
| PaymentForm.ToastFor | components/PaymentForm.tsx:16-80 | the toast each outcome shows; `SuccessOnlyOnLaunch` and `BlockedToastNamesId` state it |
| PaymentForm.SuccessOnlyOnLaunch | components/PaymentForm.tsx:73-80 | a success toast appears iff the launch succeeded; a failed launch shows nothing |
| PaymentForm.BlockedToastNamesId | components/PaymentForm.tsx:51-55 | the blocked-vendor toast is an error that names the id |
| PaymentForm.PaymentFormState.constructor | components/PaymentForm.tsx:9-12 | empty fields, not loading |
| PaymentForm.PaymentFormState.SetFields | components/PaymentForm.tsx:100-124 | the inputs set the three fields and leave `isLoading` alone |
| PaymentForm.PaymentFormState.Proceed | components/PaymentForm.tsx:46-90 | after validation: the outcome's toast, `isLoading` false on every way out, and the counter moves only on a successful launch |
| PaymentForm.PaymentFormState.HandlePayment | components/PaymentForm.tsx:14-91 | the toast of the decision; `isLoading` untouched on a validation failure and false otherwise; the counter moves by the parsed amount only on a successful launch |
| PaymentScreen.ModalTitle | screens/PaymentScreen.tsx:87-91 | the title is "Blocked Vendor" iff the reason is the blacklist, and "Spending Limit Reached" iff it is the limit; `ReasonsAreDistinguished` tells the two apart |
| PaymentScreen.BlockedMessage | screens/PaymentScreen.tsx:34-38 | the modal message for a reason; `BlacklistMessageNamesId`, `LimitMessageIsFixed` and `ReasonsAreDistinguished` state what it holds |
| PaymentScreen.BlacklistMessageNamesId | screens/PaymentScreen.tsx:34-38 | the blacklist message embeds the id right after its 12-character opening |
| PaymentScreen.LimitMessageIsFixed | screens/PaymentScreen.tsx:34-38 | the limit message is the same text for every id |
| PaymentScreen.ReasonsAreDistinguished | screens/PaymentScreen.tsx:34-38 | the two reasons give different titles and different messages |
| PaymentScreen.AttemptReason | screens/PaymentScreen.tsx:128-143 | the cause `onPaymentAttempt` stops a payment for; `BlacklistBeforeLimit`, `LimitOnlyForUnblocked` and `AgreesWithForm` state it |
| PaymentScreen.BlacklistBeforeLimit | screens/PaymentScreen.tsx:128-143 | a blocked id is stopped for the blacklist, whatever has been spent |
| PaymentScreen.LimitOnlyForUnblocked | screens/PaymentScreen.tsx:128-143 | an unblocked id is stopped for the limit iff the amount would take today past 5000 |
| PaymentScreen.AgreesWithForm | screens/PaymentScreen.tsx:128-143 | for input that passes validation, the screen stops a payment for the same cause as the form's chain |
| PaymentScreen.OverrideToast | screens/PaymentScreen.tsx:42-67 | the toast of the override alert's button; `OverrideToastOnlyOnProceed` states it |
| PaymentScreen.OverrideToastOnlyOnProceed | screens/PaymentScreen.tsx:42-67 | only "Proceed" shows anything, and that is a success toast |
| PaymentScreen.PaymentScreenState.constructor | screens/PaymentScreen.tsx:18-25 | scanner closed, nothing scanned, modal hidden, reason "blacklist", no payment data |
| PaymentScreen.PaymentScreenState.HandleBlockedPayment | screens/PaymentScreen.tsx:27-40 | records the payment and reason, sets the reason's message, shows the modal, and leaves the scanner fields alone |
| PaymentScreen.PaymentScreenState.OnPaymentAttempt | screens/PaymentScreen.tsx:128-143 | a blocked id opens the modal for the blacklist and gives false; an over-limit amount opens it for the limit; otherwise the modal state is unchanged and nothing is returned |
| PaymentScreen.PaymentScreenState.Cancel | screens/PaymentScreen.tsx:100-102 | hides the modal and changes nothing else |
| PaymentScreen.PaymentScreenState.EmergencyOverride | screens/PaymentScreen.tsx:42-76 | hides the modal and returns the chosen button's toast; nothing else changes |
| PaymentScreen.PaymentScreenState.OpenScanner | screens/PaymentScreen.tsx:147 | shows the scanner |
| PaymentScreen.PaymentScreenState.CloseScanner | screens/PaymentScreen.tsx:115 | hides the scanner |
| PaymentScreen.PaymentScreenState.OnScanSuccess | screens/PaymentScreen.tsx:116-119 | keeps the scanned id and closes the scanner |

## Findings

| source | as written | input that shows it | evidently intended | confidence | as-written member | corrected member |
|---|---|---|---|---|---|---|
| screens/HomeScreen.tsx:25-56 | `loadMockData` keeps the first render's `addTransaction`, `addGoal`, `addSpendingLimit` and `addBlockedMerchant`, and each rebuilds `[...list, item]` from that render's list (context/FinancialContext.tsx:167, 273) | an empty store and the 14 mock transactions of utils/mockData.ts:8-135 (the `15` passed at screens/HomeScreen.tsx:28 is ignored): the list ends with only `txn-14`'s record | every mock record is added, one after another | high, not executed | Dashboard.StaleSeedingLosesRecords | Dashboard.SeedTransactions |

## Left out

- Persistent storage and JSON. AsyncStorage becomes the abstract `store` map of `FinancialState` and the `stored` field of `DailySpendingStore`. Reads are the three `StoredSpending` cases, and a write either happens or fails as a parameter says.
- `loadAllData` and `refreshData` (context/FinancialContext.tsx:102-130, 297-299) only read storage back into the lists. That is deserialisation, so they are not modelled.
- The UPI URL and `Linking` (utils/upiLauncher.ts:22-33). Whether an app can open the link, and whether opening it throws, are parameters of `PaymentForm.LaunchUpiPayment`.
- Floating point. Amounts are exact reals, so float rounding in sums and `NaN` entries in the category map are not modelled. `parseFloat` is a parameter of `Decide`, where `None` stands for `NaN`.
- The clock and time zone. `Date.now()` ids and `toISOString` dates are parameters, and a day is a day number.
- Unicode. Lowering and trimming cover ASCII letters and ASCII whitespace only.
- React's asynchronous updates and promise timing. Each handler runs to completion, in order. In the seeding effect, every add in the loop sees the first render's list, so the program keeps only the last seeded item of each kind. `Dashboard.StaleAddAll` and `Dashboard.StaleAddAllMerchants` state that outcome. `Dashboard.LoadMockData` seeds all of them in sequence, and its emptiness tests read the current lists rather than the first render's.
- The `catch` blocks that show "Payment Failed" (components/PaymentForm.tsx:81-87, screens/PaymentScreen.tsx:68-75). Every call in their `try` blocks is modelled as not throwing.
- Keys such as `constructor` inherited from `Object.prototype`. These would make `CATEGORY_ICONS[c]` and `categoryMap[c]` truthy for an unlisted category. The model's maps contain only their own keys.
- Dates that `new Date` cannot parse. With such a date the sort comparator gives `NaN`; every date here is a valid day.
- The contents of the mock fixtures (utils/mockData.ts). The mock drafts, their ids and the mock merchants are parameters of `Dashboard.LoadMockData`.
- Dashboard.LoadMockData: the store is stated only for failed writes, where it is unchanged. On success, what each add writes is stated by the `FinancialState` methods it calls.
- Rendering, the pie chart's colours and the chart labels.
