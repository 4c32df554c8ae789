# Expense tracker client logic, modelled in Dafny

This project models the client-side logic of a React expense tracker. That
logic sits around spending limits and expense lists:

- **The application shell (`App.jsx`).**
  - It derives the current-month spend from the fetched expenses.
  - It raises the "limit exceeded" flag and the "approaching the limit"
    (80%) flag.
  - It lets the user dismiss the 80% warning for 24 hours, with the
    dismissal kept in browser storage.
  - It raises an alert when a flag becomes true.
  - It sweeps last month's dismissal away on a new month.
  - It resets its state on sign-out and toggles the colour theme.
- **The analytics dashboard.** It groups expenses by month and by category
  and shows a grand total.
- **The expense list.** It builds the filtered query path and paginates the
  result in pages of five.
- **The spending-limit panel.** It validates and sets a limit, asks the
  backend to check the limit, and shows the remaining amount.
- **The expenses page.** It holds the add form and the in-row edit state
  machine.
- **The stand-alone expense form.** It validates a submit and resets itself.
- **The dashboard.** It shows a greeting by hour and a user name taken from
  the e-mail.

## Representation

- **Amounts.** Amounts are integers (paise), so the 80% threshold is exact:
  `5 * spend >= 4 * limit`. `parseFloat` results are `Num = NaN | Finite(v)`.
  JavaScript's `NaN` comparisons, all false, are written out where the code
  relies on them.
- **Injected functions.** These are parameters of the functions and methods
  that use them, so the proofs hold for any implementation:
  - `parseFloat`
  - `new Date(...)` parsing, which gives the local year and month or `None`
    for an invalid date
  - `toISOString`
- **The clock.** "Now" is an `Instant`. It holds:
  - the epoch milliseconds
  - the UTC ISO string
  - the local year and month
  - the local hour
  - the local `yyyy-MM-dd` date
- **Storage.** Browser storage is a `map<string, string>`.
- **Toasts.** Toasts are `Event` values that the methods return.
- **Network and identity calls.** Their outcomes are parameters: `Ok` with
  the returned value, or `Err` with the message of the error thrown.
- **Mutable React state.** Components that change state step by step are
  classes whose fields are that state:
  - `Notifier.App` holds the shell's state and the `prev*` refs.
  - The other classes are `ExpenseList.ListState`, `LimitManager.Panel`,
    `ExpensesPage.Page` and `ExpenseForm.Form`.
- **Aggregation.** The analytics aggregation, which fills a dictionary in a
  loop, is the method `Analytics.Aggregate`. It is proved against the
  specification functions `GroupKeys` and `Acc`.

## Where the model follows the code

The model follows the code where it could be read another way:

- **Month keys.** The month of the dismissal key comes from `toISOString()`,
  so it is the UTC month (`App.jsx:97`). The month of the spend filter is the
  local month (`App.jsx:182-193`). The model keeps both, read off the same
  `Instant`, and never assumes they agree.
- **Partial updates.** A refresh that fails part-way keeps the state it had
  already set, such as the e-mail, the expenses and the limit (`App.jsx:171-202`).
- **Unreadable dismissal records.** When the stored record does not parse,
  `JSON.parse` throws inside the refresh and the catch block runs
  (`App.jsx:101-118`, `238-243`).
- **Sign-out.** Sign-out removes only the current month's dismissal and the
  last-month key (`App.jsx:302-304`).
- **Empty values.** The sweep treats an empty stored month like a missing
  one, as the falsy test does (`App.jsx:272`).
- **Amount parsing in the analytics.** The monthly and category sums use
  `parseFloat(expense.amount)`. A missing amount makes its group `NaN`, and
  the next present amount restarts the group, because `NaN || 0` is 0. Only
  the total uses `amount || 0` (`AnalyticsDashboard.jsx:35`, `58`, `178`).
  The "groups add up to the total" property is therefore proved for lists
  in which every amount is present.
- **The expense form's guard.** The guard `!amount || parseFloat(amount) <= 0`
  lets a non-numeric amount through as `NaN` (`ExpenseForm.jsx:63`). The
  model keeps this and states it as a lemma.

## Model

| member | source | states |
|---|---|---|
| Notifier.MonthSpendIsSumInMonth | frontend/src/App.jsx:180-194 | the spend is the sum of the amounts, missing ones as 0, of exactly the expenses whose date parses to the local month of now |
| Notifier.MonthSpendAppend | frontend/src/App.jsx:180-194 | an expense with an invalid date or from another month leaves the spend unchanged; one from this month adds its amount |
| Notifier.FlagsExclusive | frontend/src/App.jsx:201-213 | approaching and exceeded are never both true; without an active limit neither is; approaching means 80% <= spend < limit |
| Notifier.DismissalKeysDistinct | frontend/src/App.jsx:96-104 | dismissal keys of different months differ and never equal the last-month key or the theme key |
| Notifier.RecordRoundTrip | frontend/src/App.jsx:108-123 | the stored dismissal record decodes back to the timestamp that was written |
| Notifier.DismissalWindow | frontend/src/App.jsx:101-118 | no record means not dismissed; a record written at t means dismissed exactly while now - t < 24 h |
| Notifier.MonthSweepProperties | frontend/src/App.jsx:267-283 | after the sweep the stored month is the current key; a different stored month's dismissal is removed; the current month's dismissal and unrelated keys are untouched; the sweep is idempotent |
| Notifier.SignOutStore | frontend/src/App.jsx:302-304 | sign-out removes exactly the current month's dismissal and the last-month key, and keeps every other value |
| Notifier.SignOutKeepsTheme | frontend/src/App.jsx:302-304 | the stored theme survives sign-out |
| Notifier.ToggleThemeInvolution | frontend/src/App.jsx:138-140 | toggling swaps light and dark, so toggling twice is the identity on them, and always changes the theme |
| Notifier.App.constructor | frontend/src/App.jsx:81-93 | the initial state, with the stored theme (light by default) written back to storage |
| Notifier.App.Refresh | frontend/src/App.jsx:159-244 | the early exit changes nothing and returns false; each failure stage keeps the state set before it, sets unauthenticated, returns false and leaves every ref and the warning alone; a completed refresh sets the flags, fires each alert on its edge, overwrites the refs and returns the exceeded flag |
| Notifier.App.ApplyLimit | frontend/src/App.jsx:200-237 | the limit and the exceeded flag are set; an unreadable dismissal record in the approaching band throws into the catch path; otherwise the warning, the alerts and the refs settle |
| Notifier.App.Settle | frontend/src/App.jsx:204-237 | the 80% alert fires when the warning is active and its ref is false, the exceeded alert when exceeded and its ref is false; the exceeded ref takes the fresh flag, the 80% ref the pre-refresh state |
| Notifier.App.Fail | frontend/src/App.jsx:238-243 | the catch path sets unauthenticated, reports the error and returns false |
| Notifier.App.Dismiss | frontend/src/App.jsx:121-126 | writes only the current month's record with timestamp now, hides the warning, and the dismissal check then reads dismissed |
| Notifier.App.SweepMonth | frontend/src/App.jsx:267-283 | the store becomes the sweep of the old store for the current UTC month |
| Notifier.App.SignOut | frontend/src/App.jsx:285-310 | a failed sign-out changes nothing; a successful one resets the spend, the limit, the flags, the e-mail and every ref, and clears the two keys while keeping the theme |
| Notifier.App.ToggleTheme | frontend/src/App.jsx:128-140 | the theme toggles and is persisted under the theme key |
| AlertEdge.StepFresh | frontend/src/App.jsx:216-224 | an alert fires exactly when the flag is true and the remembered flag is false; the memory then holds the fresh flag |
| AlertEdge.StepAsWritten | frontend/src/App.jsx:216-234 | the same firing rule, but the memory keeps the state shown before the refresh |
| AlertEdge.FreshFiresOnRisingEdges | frontend/src/App.jsx:216-224 | over a run of refreshes the fresh rule fires exactly on rising edges |
| AlertEdge.AsWrittenComparesTwoBack | frontend/src/App.jsx:230-234 | over a run of refreshes the rule as written compares each flag with the one two refreshes back |
| AlertEdge.AsWrittenFiresTwice | frontend/src/App.jsx:234 | with approaching held over three refreshes the 80% alert fires on the first two |
| AlertEdge.FreshFiresOnceWhileHeld | frontend/src/App.jsx:216 | with the flag held true the fresh rule fires once, on the first refresh |
| Analytics.GroupKeysExact | frontend/src/components/Analytics/AnalyticsDashboard.jsx:33-38 | the group keys have no duplicates, contain the key of every expense, and each occurs in the list |
| Analytics.GroupKeysFirstOccurrence | frontend/src/components/Analytics/AnalyticsDashboard.jsx:57-61 | the keys come in the order of their first occurrence |
| Analytics.AccDefinedForKeys | frontend/src/components/Analytics/AnalyticsDashboard.jsx:33-36 | the dictionary holds an entry exactly for the keys that occur |
| Analytics.AccIsGroupSum | frontend/src/components/Analytics/AnalyticsDashboard.jsx:35 | with every amount present, each entry is the sum of its group's amounts |
| Analytics.AccRestartsAfterMissing | frontend/src/components/Analytics/AnalyticsDashboard.jsx:35 | a missing amount makes its group NaN and the next present amounts restart the group from 0 |
| Analytics.Aggregate | frontend/src/components/Analytics/AnalyticsDashboard.jsx:32-36 | the loop builds exactly the group keys in insertion order and the accumulated value of each |
| Analytics.SortStrings | frontend/src/components/Analytics/AnalyticsDashboard.jsx:38 | the sort is a permutation of its input |
| Analytics.SortStringsSorted | frontend/src/components/Analytics/AnalyticsDashboard.jsx:38 | the sort's output is in ascending order |
| Analytics.SortedDistinctAscending | frontend/src/components/Analytics/AnalyticsDashboard.jsx:38 | sorting distinct labels gives strictly ascending labels |
| Analytics.ColoursCycle | frontend/src/components/Analytics/AnalyticsDashboard.jsx:65-74 | one palette colour per label, colour i is palette[i mod 10], and any ten consecutive slices have different colours |
| Analytics.MonthlyData | frontend/src/components/Analytics/AnalyticsDashboard.jsx:31-52 | the labels are the sorted month prefixes and the values are aligned with them |
| Analytics.CategoryData | frontend/src/components/Analytics/AnalyticsDashboard.jsx:55-79 | the labels are the categories in first-occurrence order, with aligned amounts and cycling colours |
| Analytics.Render | frontend/src/components/Analytics/AnalyticsDashboard.jsx:176-183 | the placeholder shows exactly for an empty list; otherwise the charts hold both datasets and the total |
| Analytics.GroupsMakeTotal | frontend/src/components/Analytics/AnalyticsDashboard.jsx:176-179 | the group sums over all keys add up to the total |
| Analytics.SumOverPermutation | frontend/src/components/Analytics/AnalyticsDashboard.jsx:38 | reordering the labels does not change the sum over them |
| Analytics.ChartsAddUpToTotal | frontend/src/components/Analytics/AnalyticsDashboard.jsx:35-58 | with every amount present, both the monthly values and the category amounts sum to the total spent |
| ExpenseList.PathRoundTrip | frontend/src/components/Expenses/ExpenseList.jsx:23-38 | the built path parses back to the filters: category unless All, then start and end dates when non-empty, in that order |
| ExpenseList.BarePathIffNoFilter | frontend/src/components/Expenses/ExpenseList.jsx:36-38 | the path is bare `/expenses` exactly when no filter is set |
| ExpenseList.PageAtMostFive | frontend/src/components/Expenses/ExpenseList.jsx:108-110 | a page holds at most five expenses |
| ExpenseList.PageWindow | frontend/src/components/Expenses/ExpenseList.jsx:108-110 | page p shows the items from (p-1)*5 up to p*5, clamped to the list |
| ExpenseList.TotalPagesExact | frontend/src/components/Expenses/ExpenseList.jsx:110-111 | the page count is the ceiling of n/5, and pages past it are empty |
| ExpenseList.NavShownIffMoreThanOnePage | frontend/src/components/Expenses/ExpenseList.jsx:236-237 | the page navigation shows exactly when there are more than five expenses, and never without data |
| ExpenseList.PagesCoverList | frontend/src/components/Expenses/ExpenseList.jsx:110-111 | pages 1 to the page count, concatenated, give the list back |
| ExpenseList.ListState.constructor | frontend/src/components/Expenses/ExpenseList.jsx:11-15 | page 1 with no filters |
| ExpenseList.ListState.SetCategory | frontend/src/components/Expenses/ExpenseList.jsx:143-146 | the category changes, the page resets to 1, the dates are unchanged |
| ExpenseList.ListState.SetStartDate | frontend/src/components/Expenses/ExpenseList.jsx:160-163 | the start date changes, the page resets to 1, the rest is unchanged |
| ExpenseList.ListState.SetEndDate | frontend/src/components/Expenses/ExpenseList.jsx:173-176 | the end date changes, the page resets to 1, the rest is unchanged |
| ExpenseList.ListState.QueryPath | frontend/src/components/Expenses/ExpenseList.jsx:23-38 | the parameter list and the path built step by step are the path of the current filters |
| ExpenseList.ListState.ClickPrevious | frontend/src/components/Expenses/ExpenseList.jsx:242-243 | Previous does nothing on page 1 and otherwise goes back one page, staying within the pages |
| ExpenseList.ListState.ClickNext | frontend/src/components/Expenses/ExpenseList.jsx:265-266 | Next does nothing on the last page and otherwise goes forward one page, staying within the pages |
| ExpenseList.ListState.ClickPage | frontend/src/components/Expenses/ExpenseList.jsx:249-252 | the i-th page button selects page i + 1 |
| LimitManager.Remaining | frontend/src/components/SpendingLimits/SpendingLimitManager.jsx:106-107 | the remaining amount exists exactly when a limit is set, and is limit - spend |
| LimitManager.RemainingMatchesExceeded | frontend/src/components/SpendingLimits/SpendingLimitManager.jsx:106-123 | the panel's limit-set test agrees with the shell's active limit, and the red remaining amount agrees with the exceeded flag |
| LimitManager.InputValue | frontend/src/components/SpendingLimits/SpendingLimitManager.jsx:140 | typed text that parses to NaN or 0 clears the field; anything else is kept as parsed |
| LimitManager.InputNeverZeroOrNaN | frontend/src/components/SpendingLimits/SpendingLimitManager.jsx:140 | a number kept in the field is never 0 or NaN |
| LimitManager.CheckOnlyWithLimit | frontend/src/components/SpendingLimits/SpendingLimitManager.jsx:158-163 | the check button is usable only while a remaining amount is shown, which is when the application treats the limit as active, and for a signed-in user |
| LimitManager.Panel.constructor | frontend/src/components/SpendingLimits/SpendingLimitManager.jsx:10-12 | the field starts from the limit prop, or empty without one, and nothing is in progress |
| LimitManager.Panel.SyncFromProp | frontend/src/components/SpendingLimits/SpendingLimitManager.jsx:42-46 | a null prop leaves the field alone; a non-null prop ends up in the field |
| LimitManager.Panel.OnLimitInput | frontend/src/components/SpendingLimits/SpendingLimitManager.jsx:140 | the field becomes the coerced input |
| LimitManager.Panel.SetLimit | frontend/src/components/SpendingLimits/SpendingLimitManager.jsx:49-72 | an invalid limit is rejected with no request; a valid one is sent as setLimit with the parsed amount; the setting flag ends false on every path, so the button is enabled again whenever a user is signed in |
| LimitManager.Panel.CheckSpendingLimit | frontend/src/components/SpendingLimits/SpendingLimitManager.jsx:74-96 | sends checkLimit with the spend and e-mail, reports the backend's answer or the error, and the checking flag ends false |
| ExpensesPage.WithField | frontend/src/pages/ExpensesPage.jsx:19-22 | exactly the named field of the add form changes |
| ExpensesPage.ToCreate | frontend/src/pages/ExpensesPage.jsx:32-36 | the created record copies description and category, carries the parsed amount, and takes the UTC day of now for an empty date |
| ExpensesPage.EditCopy | frontend/src/pages/ExpensesPage.jsx:58-61 | the edit copy holds every field of the row, the listing's metadata (`createdAt`, `updatedAt`, `owner`, `__typename`) included, with the amount parsed |
| ExpensesPage.ToUpdate | frontend/src/pages/ExpensesPage.jsx:75-76 | the update sends only id, description, amount, category and date |
| ExpensesPage.EditThenSaveUnchanged | frontend/src/pages/ExpensesPage.jsx:58-76 | saving an untouched edit validates the row's own amount and sends the row's own fields back |
| ExpensesPage.Page.constructor | frontend/src/pages/ExpensesPage.jsx:15-17 | an empty add form with category Food and nothing being edited |
| ExpensesPage.Page.InputChange | frontend/src/pages/ExpensesPage.jsx:19-22 | one named field of the add form changes and the others are unchanged |
| ExpensesPage.Page.AddExpense | frontend/src/pages/ExpensesPage.jsx:24-56 | a NaN or non-positive amount is rejected with no request and no change; otherwise the record is sent, and on success the form resets and the refresh runs |
| ExpensesPage.Page.EditClick | frontend/src/pages/ExpensesPage.jsx:58-61 | sets the editing id and the edit copy |
| ExpensesPage.Page.EditInputChange | frontend/src/pages/ExpensesPage.jsx:63-66 | one named field of the edit data becomes the typed text and the others are unchanged |
| ExpensesPage.Page.SaveEdit | frontend/src/pages/ExpensesPage.jsx:68-97 | an invalid amount is rejected without leaving edit mode; otherwise the five fields are sent, and on success edit mode ends |
| ExpensesPage.Page.CancelEdit | frontend/src/pages/ExpensesPage.jsx:99-102 | clears the editing id and data |
| ExpenseForm.HandleSubmit | frontend/src/components/Expenses/ExpenseForm.jsx:61-75 | rejected exactly for an empty description, an empty amount or a parsed amount <= 0; the posted record copies description and category, parses the amount and keeps the date part of the ISO form |
| ExpenseForm.PostedAmountPositiveOrNaN | frontend/src/components/Expenses/ExpenseForm.jsx:63-70 | a posted amount is positive or NaN, never 0 or negative |
| ExpenseForm.NaNAmountGetsThrough | frontend/src/components/Expenses/ExpenseForm.jsx:63 | non-empty text that does not parse is posted as NaN |
| ExpenseForm.Form.constructor | frontend/src/components/Expenses/ExpenseForm.jsx:10-13 | empty fields, category Food, today's local date |
| ExpenseForm.Form.Submit | frontend/src/components/Expenses/ExpenseForm.jsx:40-75 | after a successful post the fields reset to empty, Food and today; otherwise they are unchanged |
| Dashboard.Greeting | frontend/src/pages/Dashboard.jsx:20-25 | Good Morning exactly before 12, Good Afternoon exactly from 12 to 17, Good Evening exactly from 18 |
| Dashboard.GreetingThroughTheDay | frontend/src/pages/Dashboard.jsx:20-25 | every hour gets one of the three greetings, and they only move forward through the day |
| Dashboard.UserName | frontend/src/pages/Dashboard.jsx:11-18 | the user name is the e-mail up to its first `@`, the whole e-mail without one, and User without an e-mail |

## Left out

- Network and identity calls are not modelled; their outcomes are parameters. These are Amplify configuration, `getCurrentUser`, the GraphQL client, `fetchAuthSession`, the REST helpers and `signOut`.
- The polling for configuration readiness (`App.jsx:253-263`), react-query caching and invalidation, and the `onExpenseAdded` callback are timer and library plumbing.
- The effect that re-runs the refresh when the warning flag changes is not modelled. Each `Refresh` call is one run; whether React schedules another one is not followed.
- Toasts, routing, JSX markup and the DOM theme class are not modelled. Toasts become `Event` values.
- Chart options, tooltips and `toFixed` formatting are presentation only.
- Floating-point amounts are not modelled. Amounts are integers in paise, and `parseFloat` is an injected function to `Num`.
- Date parsing is not modelled. `new Date(date)` and `toISOString` are injected functions, and "now" is an `Instant` given as a parameter.
- Notifier.EncodeRecord: the dismissal record stores its timestamp as decimal epoch milliseconds rather than an ISO date string. Only the age in milliseconds matters to the check (`App.jsx:110-112`).
- Notifier.DismissalState: in the client, a record that is valid JSON but whose timestamp does not parse gives a `NaN` age and so reads as dismissed. The model's record format has no such case: every record that does not decode throws.
- Analytics.CategoryData: `Object.keys` lists integer-like category names first, in numeric order. The model keeps insertion order for every name.
- Analytics.SortStrings: `sort()` compares UTF-16 code units, which the model reads as character order.
- ExpenseList.PathRoundTrip: query values are not URL-encoded, so the path parses back only when no filter value contains `&`.
- Deleting an expense (ExpenseList and ExpensesPage) is a network call followed by a refresh, with no client state to model.
- The list's loading and error views are not modelled.
- The browser's `required` attribute on the form inputs is not modelled; the handlers' own checks are.
- The edit row's display fallbacks (`|| ''`, `|| 'Other'`) are rendering only.
- `LoginForm`, `RegisterForm`, `ProfileSettingsPage`, `SpendingLimitsPage` and `AnalyticsPage` are not part of this model. Neither are the header, footer, layout and 3D scene, or the generated form declarations and configuration files.

## Findings

| source | as written | input that shows it | evidently intended | confidence | as-written member | corrected member |
|---|---|---|---|---|---|---|
| frontend/src/App.jsx:234 | the 80% ref stores the warning state read before the refresh, not the freshly computed one, so the next refresh compares against the state two refreshes back | spend held in the 80% band, not dismissed, over three refreshes from the initial state: the 80% alert fires on refreshes 1 and 2 | the alert fires only when the warning has just become active (`App.jsx:216`), that is once while it stays active | not executed | AlertEdge.AsWrittenFiresTwice | AlertEdge.FreshFiresOnceWhileHeld |

`Notifier.App.Settle` keeps the line as written for the 80% warning, so that
the class matches the client. The exceeded alert already uses the fresh
rule, `AlertEdge.StepFresh` (`App.jsx:233`). `AlertEdge.StepFresh` is the
corrected step for the 80% warning as well, and
`AlertEdge.FreshFiresOnRisingEdges` proves that it fires exactly on rising
edges.
