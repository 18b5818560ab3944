# Total balance tracker: a Dafny model

This project models the computational core of a personal finance tracker.
The tracker keeps three lists: accounts (finance items), subscriptions and
revenue sources. Each entry has an amount in some currency. From these lists
it projects the balance of every account on a chosen date.

The projection works in three steps:

- It expands every subscription and revenue into the days it falls due,
  starting at its anchor date.
- It turns each due day into a signed US-dollar transaction and sorts the
  transactions by date.
- It folds the transactions into per-account balances and a total.

Alongside the projection, the model covers:

- the monthly-normalised totals;
- the transaction history window;
- the page's add, edit and delete handlers;
- the three forms' save validators;
- the next-payment search of a list row;
- the exchange-rate cache and the conversion to dollars;
- the bank-rate route's validation and response classification;
- the database row mappers, update payloads and load fallbacks.

Modules follow the program's files:

| module | file | models |
|---|---|---|
| `Wrappers` | wrappers.dfy | `Option`, `Result` |
| `Text` | text.dfy | decimal rendering, `padStart`, `trim`, string order |
| `Calendar` | calendar.dfy | dates, JavaScript `setMonth`/`setFullYear` roll-over, ISO date text |
| `Items` | items.dfy | the three record kinds of app/page.tsx |
| `Stepping` | stepping.dfy | the two date loops: collect up to a target, find the first date after a reference |
| `Recurrence` | recurrence.dfy | the projection's step and the list row's plain step |
| `Ledger` | ledger.dfy | transactions, the date sort, per-account sums |
| `Projection` | projection.dfy | `generateAllTransactionsUpToDate`, balances, totals, history |
| `ItemLists` | item_lists.dfy | the add/edit/delete handlers of app/page.tsx |
| `Forms` | forms.dfy | `handleSave` of the three modals |
| `ListItemView` | list_item_view.dfy | `getNextPaymentDate`, `getNextRevenueDate`, `getPeriodText`, `getCurrencySymbol` |
| `ExchangeRates` | exchange_rates.dfy | `fetchExchangeRate`, `convertToUSD` |
| `NbuRoute` | nbu_route.dfy | `GET` of app/api/nbu-rate/route.ts |
| `Database` | database.dfy | lib/database.ts mappers, `update` payloads, `create`, `loadAllUserData` |

The calendar follows JavaScript's `Date` rather than an idealised calendar.

- **Monthly steps.** `setMonth(m + 1)` keeps the day, and a day past the end
  of the new month rolls into the month after it. The clamp at
  app/page.tsx:106-113 then looks at the month the date landed in. It takes
  that month's length from `new Date(year, month + 1, 0)`, and the
  constructor reads a year from 0 to 99 as 1900 to 1999. That differs from
  the calendar only for February of year 0: the calendar gives it 29 days,
  the constructor 28, as for 1900 (`Calendar.ConstructorMonthLength`).
  Everywhere else the day always fits by then, so the clamp never fires. An
  anchor on 31 January therefore falls due on 31 January, 31 March, 31 May
  and so on. The idealised clamp, which shortens the day to the length of
  the next month, would give 29 February instead. This model follows the
  code. `Recurrence.MonthlyMatchesClampBelowDay29` shows the two readings
  agree for anchor days up to 28. `Recurrence.MonthEndAnchorSkipsFebruary`
  exhibits where they part. In year 0 the clamp does fire: 29 January steps
  to 28 February and then back to 29 March (`Recurrence.YearZeroFebruaryClamps`).
- **Yearly steps.** `setFullYear` has no clamp, so a 29 February anchor
  moves to 1 March in the next non-leap year and stays there.
- **The list row.** Its next-payment search uses bare `setMonth`, so its
  day drifts (31 January, 3 March, 3 April).

The currency converter is a parameter. So are the results of the
exchange-rate endpoint, the bank, the database and the authentication
service, along with `Number.parseFloat`, the clock and the generated ids.

## Model

| member | source | states |
|---|---|---|
| Calendar.DaysInMonth | app/page.tsx:107 | the calendar month lengths `setMonth` rolls over against: 28 to 31 days; February has at most 29, and 29 exactly in leap years |
| Calendar.ConstructorMonthLength | app/page.tsx:108 | the last day of a month as the three-argument constructor reports it: the calendar length except for February of year 0, which it gives 28 days |
| Calendar.Overflow | app/page.tsx:107 | a day past a month's end rolls the surplus days into the following month, giving a valid date |
| Calendar.AddMonthJs | components/ListItem.tsx:86 | `setMonth(+1)` gives a later date: the same day of the next month, or the surplus days into the month after a short month |
| Calendar.AddYearJs | app/page.tsx:115 | `setFullYear(+1)` gives the same month and day a year later, except that 29 February becomes 1 March in a non-leap year |
| Calendar.ParseIsoDate | app/page.tsx:83 | a date text that parses names a valid day of a four-digit year |
| Calendar.IsoDateRoundTrip | app/page.tsx:89 | the ISO text of a date, with or without a time part, parses back to that date |
| Calendar.ParseIsoDateCanonical | components/AddSubscriptionModal.tsx:70 | a ten-character date text that parses is the ISO text of the date it names |
| Calendar.IsoDateInjective | app/page.tsx:94 | different dates have different ISO texts, so the transaction ids of one item differ |
| Calendar.IsoDateLess | app/page.tsx:392 | string `<` on ISO date texts of four-digit years is date order |
| Calendar.IsoDateOrder | app/page.tsx:392 | string `<=` on ISO date texts of four-digit years is date order |
| Calendar.IsoDate | app/page.tsx:89 | the `toISOString().split("T")[0]` stamp has its dashes third and sixth from the end, and is ten characters long exactly for the years 0 to 9999 |
| Calendar.CompactIsoDate | lib/exchange-rates.ts:27 | the `YYYYMMDD` stamp is the ISO date stamp with its two dashes removed, and two characters shorter |
| Calendar.CompactIsoDateFields | lib/exchange-rates.ts:27 | the `YYYYMMDD` text of a date is eight digits whose fields are the year, month and day |
| Calendar.CompactIsoDateInjective | lib/exchange-rates.ts:27-28 | different days give different `YYYYMMDD` texts |
| Calendar.ShortMonthIsFollowedByLongMonth | app/page.tsx:107-113 | a month shorter than 31 days is followed by a 31-day month, so a rolled-over monthly step lands at most two months on |
| Text.NatToStringValue | app/api/nbu-rate/route.ts:18-20 | the decimal text of a number reads back as that number |
| Text.ZeroPadValue | app/api/nbu-rate/route.ts:19-20 | a zero-padded number reads back as the number |
| Text.ZeroPadLength | app/api/nbu-rate/route.ts:19-20 | padding to a width gives exactly that width when the number fits |
| Text.NatToStringLength | app/api/nbu-rate/route.ts:18 | a number below 10^w renders in at most w digits, and one at or above 10^(w-1) in at least w digits |
| Text.DigitsValueInjective | lib/exchange-rates.ts:27 | two digit strings of one length with the same value are equal |
| Text.Trim | components/AddFinanceModal.tsx:29 | `trim` removes leading and trailing JavaScript whitespace and nothing else |
| Text.TrimEmptyIffWhitespace | components/AddFinanceModal.tsx:29 | a trimmed text is empty exactly when the text is all whitespace |
| Text.TrimIdempotent | components/AddFinanceModal.tsx:43 | trimming a trimmed name changes nothing |
| Text.LexLessDigits | app/page.tsx:392 | on equal-length digit strings, string order is numeric order |
| Stepping.Iterate | app/page.tsx:86-117 | every date of a progression of advancing steps is valid |
| Stepping.IterateIncreases | app/page.tsx:88 | a progression of advancing steps strictly increases |
| Stepping.CountFrom | app/page.tsx:88 | counts the dates up to the target; all of them are not later than it and the next one is later |
| Stepping.Collect | app/page.tsx:86-117 | the loop's dates: empty iff the start is after the target; otherwise they start at the start, strictly increase, stay up to the target, and the next step passes it |
| Stepping.CollectLengthUnique | app/page.tsx:88 | only one count of dates meets the loop's exit condition |
| Stepping.FindAfter | components/ListItem.tsx:85-92 | the loop returns the first progression date strictly after the reference, and the start itself when that is already later |
| Stepping.FindStepsUnique | components/ListItem.tsx:85 | only one step count meets the search's exit condition |
| Recurrence.NextOccurrence | app/page.tsx:104-116 | one projection step gives a later valid date in a later month |
| Recurrence.MonthlyStepIs | app/page.tsx:105-113 | a monthly step is the `setMonth` step with its day set to the anchor day, or to the constructor's month length if that is shorter |
| Recurrence.ProjectionStep | app/page.tsx:104-116 | the projection step advances every valid date |
| Recurrence.NthOccurrenceStep | app/page.tsx:104-116 | each occurrence is one projection step from the previous one |
| Recurrence.Occurrences | app/page.tsx:86-117 | an item's due days: the anchor first, each the next occurrence, increasing, all up to the target, the next one past it |
| Recurrence.FirstOccurrenceIsAnchor | app/page.tsx:86 | the first occurrence is the anchor |
| Recurrence.OccurrencesLength | app/page.tsx:88 | the number of due days is the number of occurrences up to the target |
| Recurrence.MonthlyOccurrenceDay | app/page.tsx:105-113 | unless the anchor is a 29th on or before 29 January of year 0, every monthly occurrence falls on the anchor day, which is min(anchor day, month length) for the month it lands in; each step advances one month, or two past a too-short month |
| Recurrence.MonthlyStepKeepsDay | app/page.tsx:106-113 | one monthly step from a date whose day exists, other than 29 January of year 0, keeps that day |
| Recurrence.YearZeroFebruaryClamps | app/page.tsx:105-113 | from 29 January of year 0 a monthly step clamps to 28 February, and the next step returns to 29 March |
| Recurrence.MonthlyMatchesClampBelowDay29 | app/page.tsx:105-113 | for anchor days up to 28 the monthly steps agree with the idealised clamped sequence |
| Recurrence.YearlyMatchesClampOffLeapDay | app/page.tsx:114-116 | off 29 February the yearly steps are the same month and day k years later |
| Recurrence.LeapDayAnchorMovesToMarch | app/page.tsx:115 | a 29 February anchor falls due on 1 March in every later year, leap or not |
| Recurrence.MonthEndAnchorSkipsFebruary | app/page.tsx:105-113 | a 31 January anchor falls due on 31 January and 31 March up to 30 April; the idealised clamp would give 29 February |
| Recurrence.LeapDayAnchorExample | app/page.tsx:114-116 | a 29 February 2020 anchor falls due on 1 March of 2021, 2022 and 2023 |
| Recurrence.LeapDayYears | app/page.tsx:115 | from 29 February 2020 the next four yearly occurrences are all on 1 March |
| Recurrence.JanuaryEndStep | app/page.tsx:106-113 | the monthly step from 31 January 2024 lands on 31 March |
| Recurrence.MarchEndStep | app/page.tsx:106-113 | the monthly step from 31 March 2024 lands on 31 May |
| Recurrence.PlainStep | components/ListItem.tsx:85-92 | the list row's bare step advances every valid date |
| Recurrence.PlainNth | components/ListItem.tsx:85-92 | every date of the bare progression is valid |
| Recurrence.PlainNthStep | components/ListItem.tsx:86 | each date of the bare progression is `setMonth(+1)` or `setFullYear(+1)` of the previous one |
| Recurrence.NextDueDate | components/ListItem.tsx:81-92 | the next payment is strictly after the reference, is the anchor plus the least number of steps that gets there, and is the anchor when that is already later |
| Recurrence.PlainMonthlyDrifts | components/ListItem.tsx:86 | the bare monthly step drifts: 31 January 2023, then 3 March, then 3 April |
| Ledger.InsertByDate | app/page.tsx:182 | inserting adds exactly the one transaction |
| Ledger.InsertKeepsSorted | app/page.tsx:182 | inserting into a date-sorted list keeps it sorted |
| Ledger.SortByDate | app/page.tsx:182 | the sorted transactions are a date-ordered permutation of the input |
| Ledger.SortSortedIsIdentity | app/page.tsx:182 | sorting an already sorted list changes nothing |
| Ledger.AppendLatest | app/page.tsx:182 | a transaction no earlier than all others goes last |
| Ledger.ForAccount | app/page.tsx:195 | the account filter keeps exactly the transactions booked on that account |
| Ledger.TotalForAccount | app/page.tsx:195-200 | adding up the filtered transactions is the account's share of the whole list |
| Ledger.TotalAppend | app/page.tsx:198-200 | totals and account sums add over concatenation |
| Ledger.AccountSumRemove | app/page.tsx:198-200 | an account sum is one transaction's share plus the sum of the others |
| Ledger.AccountSumPermutation | app/page.tsx:182-200 | reordering transactions leaves every account sum unchanged |
| Ledger.Total | app/page.tsx:198-200 | adding up transactions that are all income gives a non-negative sum, all charges a non-positive one |
| Ledger.AccountSum | app/page.tsx:195-200 | an account's share is 0 when no transaction is booked on it, and the plain total when every one is |
| Ledger.SortKeepsAccountTotal | app/page.tsx:182-200 | sorting by date does not change any account's total |
| Projection.DueDates | app/page.tsx:81-117 | an item's due days: none for a text that is no date or an anchor after the target; a once item exactly when its anchor is not after the target; a recurring item each occurrence in turn, stopping only at the first occurrence past the target; all increasing and up to the target |
| Projection.DueDatesComplete | app/page.tsx:88-116 | no due day is missed: every occurrence of a recurring item up to the target is among its due dates, at its own position |
| Projection.ItemTransactions | app/page.tsx:81-102 | no transactions without an account or a date; otherwise one per due day, with that day, the id `prefix-itemId-date`, the item's account and the given amount in USD |
| Projection.Debit | app/page.tsx:98 | a charge adds the negation of the converted amount |
| Projection.SubscriptionTransactions | app/page.tsx:80-118 | a subscription's transactions are all charges of minus its converted amount |
| Projection.RevenueTransactions | app/page.tsx:121-178 | a revenue's transactions are all income of its converted amount |
| Projection.SubscriptionsTransactions | app/page.tsx:80-118 | every subscription transaction is dated up to the target |
| Projection.RevenuesTransactions | app/page.tsx:121-178 | every revenue transaction is dated up to the target |
| Projection.Generated | app/page.tsx:76-179 | every generated transaction is dated up to the target |
| Projection.AllTransactions | app/page.tsx:76-183 | the projection's result is a date-sorted permutation of the generated transactions, all up to the target |
| Projection.FindAccount | app/page.tsx:187-188 | `find` yields nothing iff no account has the id, and otherwise an account with that id |
| Projection.TimesIsProduct | app/page.tsx:198-200 | adding an amount n times is n times the amount |
| Projection.UniformAccountSum | app/page.tsx:198-200 | n transactions of one amount on one account add up to n times the amount there and to 0 elsewhere |
| Projection.ItemAccountSum | app/page.tsx:195-200 | an item's transactions add to its amount times its due count on its own account and to 0 on others |
| Projection.SubscriptionAccountSum | app/page.tsx:98 | a linked subscription lowers its account by its converted amount once per due day |
| Projection.RevenueAccountSum | app/page.tsx:138 | a linked revenue raises its account by its converted amount once per due day |
| Projection.SubscriptionsAccountSum | app/page.tsx:80-118 | the subscription transactions on an account add up to the item-by-item subscription flow |
| Projection.RevenuesAccountSum | app/page.tsx:121-178 | the revenue transactions on an account add up to the item-by-item revenue flow |
| Projection.AccountBalance | app/page.tsx:185-203 | 0 for an id no account has; otherwise the first such account's converted opening amount plus everything the projection books on it, which the date sort does not change |
| Projection.BalanceByItems | app/page.tsx:185-203 | an account's balance is its converted opening amount plus its subscription and revenue flows; an unknown account has 0 |
| Projection.UnlinkedAccountKeepsOpeningAmount | app/page.tsx:185-203 | an account no item is linked to keeps its converted opening amount |
| Projection.UnlinkedSubscriptionFlow | app/page.tsx:81 | subscriptions not linked to an account charge it nothing |
| Projection.UnlinkedRevenueFlow | app/page.tsx:122 | revenues not linked to an account pay it nothing |
| Projection.BalanceMap | app/page.tsx:205-214 | the balance object has exactly the accounts' ids as keys, each mapped to that account's balance |
| Projection.Tabulate | app/page.tsx:209-211 | the map built over the first n accounts has their ids as keys with each id's value |
| Projection.DistinctIds | app/page.tsx:220 | the object's keys: each id once, and every id |
| Projection.Ids | app/page.tsx:209 | the accounts' ids in order |
| Projection.DistinctIdsOfDistinct | app/page.tsx:220 | distinct ids are their own key list |
| Projection.SumOverAgree | app/page.tsx:220 | sums over the same ids of agreeing values are equal |
| Projection.TotalBalance | app/page.tsx:219-220 | summing the balance object's values is summing, once per distinct account id, that account's balance |
| Projection.TotalOfDistinctAccounts | app/page.tsx:219-220 | with distinct ids the total balance is the sum of every account's balance |
| Projection.WithBalances | app/page.tsx:224-234 | the finance tab's accounts are the accounts, in order, each carrying its balance computed again for it; with one converter for the whole projection that is the value the balance object holds for its id |
| Projection.MonthlySubscriptionShare | app/page.tsx:237-243 | a monthly subscription counts its converted price each month, a yearly one a twelfth of it |
| Projection.MonthlyRevenueShare | app/page.tsx:246-256 | a yearly revenue counts a twelfth of its converted amount each month, a monthly or one-time one all of it |
| Projection.MonthlySubscriptionTotal | app/page.tsx:237-243 | prices that convert to no negative amount give a monthly total that is not negative |
| Projection.MonthlyRevenueTotal | app/page.tsx:246-256 | incomes that convert to no negative amount give a monthly total that is not negative |
| Projection.MonthlySubscriptionsAnnualise | app/page.tsx:237-243 | twelve times the monthly subscription total is the yearly cost: monthly items twelve times, yearly ones once |
| Projection.MonthlyRevenueAnnualise | app/page.tsx:246-256 | twelve times the monthly revenue total counts yearly items once and monthly and one-time items twelve times |
| Projection.MonthlyTotalsAppend | app/page.tsx:237-256 | both monthly totals add over the item lists |
| Projection.TransactionHistory | app/page.tsx:387-393 | the history is in date order, and holds each projected transaction whose date text lies between the bounds as often as the projection produced it, and no other |
| Projection.InDateWindow | app/page.tsx:392 | the filter keeps each transaction whose date text lies between the bounds as strings as often as it occurs and in its original order, drops every other one, is no longer than its input, and keeps a date-ordered list in date order |
| Projection.WindowByDate | app/page.tsx:387-393 | over transactions up to the end date, the string window is the date window |
| Projection.HistoryIsDateWindow | app/page.tsx:387-393 | for four-digit years the history is exactly the projected transactions dated from the start day on, each as often as the projection produced it, in date order |
| ItemLists.CountId | app/page.tsx:376 | counts the items with an id: at most the list length, 0 iff none has it |
| ItemLists.ReplaceById | app/page.tsx:311 | an edit keeps the length and replaces exactly the items with the edited id |
| ItemLists.RemoveById | app/page.tsx:376 | a delete keeps exactly the items with another id, losing as many as carried the id |
| ItemLists.RemoveByIdIsFilter | app/page.tsx:376 | a delete is `filter`: every item with another id is kept as often as it occurs and in its original order, and no other item is kept |
| ItemLists.ReplaceAbsentIsIdentity | app/page.tsx:311 | editing an id nobody carries changes nothing |
| ItemLists.ReplacePresentContains | app/page.tsx:311 | after editing a present id the edited item is in the list |
| ItemLists.ReplaceIdempotent | app/page.tsx:311 | saving an edit twice is saving it once |
| ItemLists.ReplaceKeepsIdCounts | app/page.tsx:311 | an edit keeps how many items carry each id |
| ItemLists.RemoveAfterReplace | app/page.tsx:311-376 | deleting an id after editing it is deleting it |
| ItemLists.RemoveIdempotent | app/page.tsx:376 | deleting twice is deleting once |
| ItemLists.RemoveAbsentIsIdentity | app/page.tsx:376 | deleting an id nobody carries changes nothing |
| ItemLists.RemoveAppend | app/page.tsx:376 | deleting distributes over concatenation |
| ItemLists.AddFinance | app/page.tsx:276-296 | a new account is appended under the new id; an account with an id replaces the accounts with that id |
| ItemLists.AddNew | app/page.tsx:298-308 | the add handlers keep the list as it was and put the draft, under the new id, after it |
| ItemLists.AddSubscription | app/page.tsx:298-302 | a new subscription is appended under the new id, the others kept |
| ItemLists.AddRevenue | app/page.tsx:304-308 | a new revenue is appended under the new id, the others kept |
| ItemLists.EditFinance | app/page.tsx:310-314 | exactly the accounts with the edited id are replaced |
| ItemLists.EditSubscription | app/page.tsx:316-320 | exactly the subscriptions with the edited id are replaced |
| ItemLists.EditRevenue | app/page.tsx:322-326 | exactly the revenues with the edited id are replaced |
| ItemLists.DeleteFinance | app/page.tsx:375-377 | exactly the accounts with another id remain, each as often as before and in the same order |
| ItemLists.DeleteSubscription | app/page.tsx:379-381 | exactly the subscriptions with another id remain, each as often as before and in the same order |
| ItemLists.DeleteRevenue | app/page.tsx:383-385 | exactly the revenues with another id remain, each as often as before and in the same order |
| ItemLists.SaveSubscription | app/page.tsx:449 | a new subscription is appended under the new id; an edited one replaces, position by position, every subscription with its id and leaves the others |
| ItemLists.SaveRevenue | app/page.tsx:459 | a new revenue is appended under the new id; an edited one replaces, position by position, every revenue with its id and leaves the others |
| ItemLists.SaveFinance | app/page.tsx:440 | saving through the edit handler agrees with the add handler's id branch |
| ItemLists.DeleteUndoesAdd | app/page.tsx:298-381 | deleting the fresh id of a just-added subscription restores the list |
| Forms.SelectedAccount | components/AddSubscriptionModal.tsx:71 | an empty account choice becomes no account; any other is kept |
| Forms.CheckNameAndAmount | components/AddFinanceModal.tsx:29-38 | blank name or amount fails with "Please fill in all fields" before an unparsable amount fails with "Please enter a valid amount"; otherwise the parsed amount |
| Forms.SaveFinanceForm | components/AddFinanceModal.tsx:28-53 | never throws; rejected exactly by the two checks, in order; otherwise a trimmed name, the parsed amount, the currency, every other field of the edited account kept |
| Forms.DateInputToIso | components/AddSubscriptionModal.tsx:70 | `toISOString` succeeds exactly on a date input that parses and otherwise throws "Invalid time value" |
| Forms.SaveSubscriptionForm | components/AddSubscriptionModal.tsx:46-83 | the checks run in order; an account is demanded iff accounts exist and none is chosen; an unparsable date throws; the form is saved exactly when every check passes and the date parses; a new draft has no id yet; a saved item has the trimmed name, parsed amount, the date's ISO text and the chosen account, keeping the edited id |
| Forms.EditFormOf | components/AddSubscriptionModal.tsx:35-44 | the edit form shows the item's name, rendered amount, currency and period, the date text up to its first `T` (all of it when there is none), and an account choice that reads back as the item's account |
| Forms.BeforeT | components/AddSubscriptionModal.tsx:41 | `split("T")[0]` is the longest prefix without `T` |
| Forms.StoredDateReopens | components/AddSubscriptionModal.tsx:41 | the saved date text parses as the entered day, and the edit form shows the day as entered |
| Forms.BeforeTOfDate | components/AddSubscriptionModal.tsx:41 | the prefix before the time part of a stored date is the date |
| Forms.ResavingUnchangedSubscription | components/AddSubscriptionModal.tsx:35-83 | opening a saved subscription and saving it untouched gives back the same item when its amount's text reads back |
| Forms.SaveRevenueForm | components/AddRevenueModal.tsx:45-82 | never throws; the three checks in order; a saved item has the trimmed name, parsed amount, the date text unchanged and the chosen account, keeping the edited id |
| Forms.SavedRevenueIsLinkedWhenAccountsExist | components/AddRevenueModal.tsx:57-60 | when accounts exist every saved revenue is linked to one |
| ListItemView.LabelFor | components/ListItem.tsx:96-112 | the short day-month form iff the payment year is the reference year, otherwise day, month and year |
| ListItemView.LabelNamesItsDate | components/ListItem.tsx:96-112 | a label read with the reference year names the date it shows |
| ListItemView.FirstAfterUnique | components/ListItem.tsx:85-92 | at most one date is the first of the progression after the reference |
| ListItemView.SearchFrom | components/ListItem.tsx:81-92 | the search finds the first date of the progression after the reference |
| ListItemView.NextPaymentLabel | components/ListItem.tsx:76-113 | a subscription row shows the first bare-step date after the reference in the form its year selects, or "Invalid Date" when its date does not parse |
| ListItemView.NextRevenueLabel | components/ListItem.tsx:115-176 | a revenue row shows nothing without a date; a once revenue shows its date iff it is after the reference; a recurring one shows the first date after the reference, or "Invalid Date" |
| ListItemView.RecurringLabel | components/ListItem.tsx:124-175 | a recurring date shows its first occurrence after the reference, or "Invalid Date" when it does not parse |
| ListItemView.AnchorAheadIsShown | components/ListItem.tsx:85 | a row whose anchor is after the reference shows the anchor |
| ListItemView.PeriodText | components/ListItem.tsx:63-74 | monthly, yearly and once read "per month", "per year" and "once"; any other text reads "" |
| ListItemView.PeriodTextDistinguishes | components/ListItem.tsx:63-74 | different periods read differently |
| ListItemView.CurrencySymbol | components/ListItem.tsx:49-53 | € iff EUR, ₴ iff UAH, $ for every other code |
| ExchangeRates.FallbackRate | lib/exchange-rates.ts:66-71 | the fixed rate is 40 for EUR and 1 for every other code |
| ExchangeRates.FetchExchangeRate | lib/exchange-rates.ts:20-73 | 1 for USD and UAH with the cache untouched, and for no other currency; a fresh same-day cache entry exactly when younger than an hour; otherwise the fetched rate, returned and stored under the day's key; on failure the stale entry exactly when one exists, else the fallback |
| ExchangeRates.SecondLookupHitsCache | lib/exchange-rates.ts:31-34 | within an hour of a fetch, a second same-day lookup is answered from the cache with the fetched rate |
| ExchangeRates.CacheKey | lib/exchange-rates.ts:27-28 | the key is the currency, an underscore, then the day's stamp, which is eight digits for the years 0 to 9999 |
| ExchangeRates.CacheKeysDistinct | lib/exchange-rates.ts:27-28 | different currencies or days never share a cache key |
| ExchangeRates.ConvertToUsd | lib/exchange-rates.ts:75-118 | identity for USD; without the needed rates, the fallback conversion |
| ExchangeRates.FallbackConversion | lib/exchange-rates.ts:114-116 | UAH divided by 40, EUR times 1.18, any other amount unchanged |
| ExchangeRates.ConvertWithRates | lib/exchange-rates.ts:89-109 | with rates, UAH is the amount over the dollar rate and another currency the amount times its rate over the dollar rate |
| ExchangeRates.ConvertIsAdditive | lib/exchange-rates.ts:75-118 | converting a sum is the sum of the conversions under the same rates |
| ExchangeRates.HryvniaIsAdditive | lib/exchange-rates.ts:89 | hryvnia conversion is additive |
| ExchangeRates.ForeignIsAdditive | lib/exchange-rates.ts:108-109 | conversion through the hryvnia is additive |
| ExchangeRates.FallbackIsAdditive | lib/exchange-rates.ts:114-116 | the fallback conversion is additive |
| ExchangeRates.ConvertOfNegation | lib/exchange-rates.ts:75-118 | converting a negated amount negates the result |
| ExchangeRates.ConvertThroughHryvnia | lib/exchange-rates.ts:106-109 | a foreign amount converts as its hryvnia value would |
| ExchangeRates.HryvniaRoundTrip | lib/exchange-rates.ts:88-89 | a hryvnia amount converted to dollars and multiplied back by the dollar rate is the amount |
| ExchangeRates.FallbackTablesDisagreeOnEuro | lib/exchange-rates.ts:64-115 | for every non-zero euro amount the two fallback tables disagree: at the rate table's rates (EUR 40, USD 1) the amount converts to 40 times itself, while the conversion fallback gives 1.18 times |
| NbuRoute.ValidateValcode | app/api/nbu-rate/route.ts:6-11 | accepted iff present and exactly three letters A to Z; a missing code, a wrong length, then wrong letters give their messages, the length message first |
| NbuRoute.DateStampOfFourDigitYear | app/api/nbu-rate/route.ts:13-23 | for years 1000 to 9999 the stamp is eight digits: year, 1-based month, day |
| NbuRoute.DateStamp | app/api/nbu-rate/route.ts:13-23 | the stamp ends in the two-digit 1-based month and the two-digit day, after the year's decimal digits |
| NbuRoute.DateStampOfEarlyYear | app/api/nbu-rate/route.ts:18-22 | years before 1000 are not padded, so their stamp is shorter than eight characters |
| NbuRoute.Get | app/api/nbu-rate/route.ts:25-77 | status is 200, 400, 404 or 502; 400 iff the code is invalid, with its message and no bank request; 502 iff the bank fails or answers unreadably; 404 iff it answers no records; 200 gives the first record's code, rate and date |
| NbuRoute.NbuUrl | app/api/nbu-rate/route.ts:40 | the bank request is the statistics endpoint, then `?valcode=`, the code, `&date=`, the stamp and `&json`, each at its place |
| NbuRoute.NbuUrlInjective | app/api/nbu-rate/route.ts:40 | requests for three-letter codes and eight-character stamps differ whenever the code or the day differs |
| NbuRoute.Classify | app/api/nbu-rate/route.ts:48-72 | 502 iff the bank fails or answers unreadably; 200 iff it answers a non-empty list |
| NbuRoute.ClientAnswer | lib/exchange-rates.ts:36-56 | the client takes a rate exactly from a successful response that carries one, with its rate and date, and fails on every error body |
| NbuRoute.ClientRateIffBankListsCurrency | lib/exchange-rates.ts:36-56 | the client gets a rate iff the code is valid and the bank lists it, and then it is the first record's rate |
| NbuRoute.InvalidCodeFallsBack | lib/exchange-rates.ts:37-71 | a code the route rejects, holding none of the characters `#`, `&`, `%`, `+`, tab, line feed or carriage return, not ending in a control character or space, and with nothing cached, ends in the fallback rate |
| Database.Truthy | lib/database.ts:63 | JavaScript truthiness keeps a non-empty text and drops a missing or empty one |
| Database.FinanceFromRow | lib/database.ts:42-47 | a loaded account carries no projected balance |
| Database.FinanceToRow | lib/database.ts:49-54 | the insert is stamped with the user's id |
| Database.SubscriptionFromRow | lib/database.ts:56-64 | the account is kept iff the stored one is non-empty |
| Database.SubscriptionToRow | lib/database.ts:66-74 | stamped with the user's id; the account is stored iff non-empty |
| Database.RevenueFromRow | lib/database.ts:76-84 | date and account are kept iff the stored ones are non-empty |
| Database.RevenueToRow | lib/database.ts:86-94 | stamped with the user's id; date and account are stored iff non-empty |
| Database.FinanceRoundTrip | lib/database.ts:42-54 | storing and loading an account keeps name, amount and currency under the new id |
| Database.SubscriptionRoundTrip | lib/database.ts:56-74 | storing and loading gives back the subscription under the new id iff its account is not the empty text |
| Database.RevenueRoundTrip | lib/database.ts:76-94 | storing and loading gives back the revenue under the new id iff neither its date nor its account is the empty text |
| Database.RevenueRowRoundTrip | lib/database.ts:76-94 | loading a revenue row and storing it again gives back the row |
| Database.SubscriptionRowRoundTrip | lib/database.ts:56-74 | loading a subscription row and storing it again gives back the row |
| Database.FinanceUpdateData | lib/database.ts:134-138 | the payload has exactly the defined fields with their values, plus `updated_at` |
| Database.SubscriptionUpdateData | lib/database.ts:211-218 | exactly the defined fields plus `updated_at`; the date as given; an empty account as null |
| Database.RevenueUpdateData | lib/database.ts:291-298 | exactly the defined fields plus `updated_at`; an empty date or account as null |
| Database.ParsePeriod | lib/database.ts:81 | a period name read back names that period |
| Database.ParsePeriodName | lib/database.ts:91 | every period's stored name reads back as the period |
| Database.RevenueUpdateRoundTrip | lib/database.ts:287-313 | applying a revenue update to a row and loading it is the loaded item with the defined fields patched |
| Database.EmptyRevenuePatchTouchesOnlyTime | lib/database.ts:291-298 | an update with no fields changes only `updated_at` |
| Database.CreateSubscription | lib/database.ts:189-205 | succeeds exactly when there is a user and the insert succeeds; fails with the authentication message or the database's error; a result is the subscription under the stored id, its empty account dropped |
| Database.UpdateRevenue | lib/database.ts:287-314 | succeeds exactly when there is a user and the row is found; fails with the authentication message or the database's error; a result is the loaded row with the patch applied |
| Database.MapRows | lib/database.ts:98-110 | every row is mapped, in order |
| Database.LoadAllUserData | lib/database.ts:334-363 | three empty lists without a user or when any load fails; otherwise every row of each table mapped |
| Database.LoadShowsSavedItems | lib/database.ts:334-363 | items saved for the signed-in user load back in row order under their stored ids, accounts without a dollar amount; without a user nothing loads |

## Left out

- Network, persistence and authentication: `fetch`, the Supabase queries, the auth lookup and `localStorage` are not modelled. Their outcomes are parameters: a rate or a failure, a bank answer, a stored row or an error, an optional user.
- React state, effects and re-rendering are not modelled. The list handlers are pure functions from the old list to the new one.
- Concurrency is not modelled: the `await` interleaving, `Promise.all`, and overlapping balance recomputations. The converter is one fixed function for a whole projection, so it cannot change between the calls of one recomputation.
- Floating point: amounts and rates are reals. Rounding, `NaN` and `Infinity` are not modelled, and rates are positive. `Number.parseFloat` and `Number.prototype.toString` are parameters.
- Time zones: dates are calendar days in one zone. Every comparison happens at the same time of day, so a payment on the reference day counts as passed. `getKyivDate`'s Europe/Kiev conversion is the caller's choice of day.
- Calendar.ParseIsoDate: only `YYYY-MM-DD`, alone or followed by `T`, is read as a date, and whatever follows the `T` is not examined. A time with an offset such as `2024-01-31T23:00:00-05:00` is therefore read as 31 January, although JavaScript moves it to the UTC day 1 February. A malformed suffix such as `2024-01-31Tnot a time` is read as 31 January, although JavaScript gives an invalid date. The application itself only stores `toISOString()` texts, which end in `Z`, and bare date-input values. Every other text is an invalid date, which yields no transactions and "Invalid Date" in a list row. Years outside 0 to 9999 are not produced by the parser.
- Locale formatting is not modelled: `toLocaleDateString`, `toFixed` and `formatAmountInUSD`. The list row's label records which form is chosen and which date it shows, not its characters.
- Ids from `Date.now()` are not generated; they are parameters.
- Swipe gestures, the JSX, and the components Header, TabSwitcher, ItemsList, AuthComponent, AddNewButton and layout are not modelled. They only render and dispatch.
- hooks/use-exchange-rates.ts is not part of this model.
- ExchangeRates.FallbackRate: `fallbackRates[currency] || 1` also finds inherited object keys such as `constructor`. The model treats every code other than EUR as absent from the table.
- NbuRoute.InvalidCodeFallsBack: codes holding `#`, `&`, `%`, `+`, tab, line feed or carriage return, and codes ending in a control character (U+0000 to U+001F) or a space, are excluded. The client puts the code at the end of the URL unencoded (lib/exchange-rates.ts:37), so the route may read another code from it: "EUR#x" and "EUR&a=b" both arrive as "EUR", the URL parser removes tab, line feed and carriage return wherever they stand, and it strips trailing controls and spaces, so "EUR " arrives as "EUR". URL parsing of the query string is not modelled.
- Recurrence.MonthlyStepKeepsDay: the step from 29 January of year 0 is excluded. It lands on 29 February of year 0, which the month-length constructor reads as 1900 and clamps to the 28th; `Recurrence.YearZeroFebruaryClamps` states that step instead.
- Recurrence.MonthlyOccurrenceDay: anchors on a 29th on or before 29 January of year 0 are excluded, because their progression passes through that step and loses its day once.
- NbuRoute.Get: every element of the bank's array is taken to be a record. If the first element is `null`, reading `rateData.cc` throws and the route answers 502 (app/api/nbu-rate/route.ts:60-64, 73-75). The model has no such element, so its "502 iff the bank fails or answers unreadably" holds only for well-formed records.
- NbuRoute.ValidateValcode: the length check counts UTF-16 code units. The model counts characters, so the two agree on codes without astral characters.
- Ledger.SortByDate: the sort is stated as a date-ordered permutation. The order it gives transactions on the same day is not stated.
- Database: the `getAll`, `create` and `delete` services and the finance and subscription `update`s are modelled only through their mappers and payloads. Only the revenue `update` and the subscription `create` are modelled as whole calls.
- Forms: the revenue edit form showing today's date for an item without one (components/AddRevenueModal.tsx:38) is not modelled.
