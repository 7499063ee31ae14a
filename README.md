# Money Coach — verified model of the app's logic

Money Coach is a single browser script (`app.js`) that keeps a monthly
budget and a list of expenses in the browser's local storage. When a new
expense is logged, it computes this week's spending statistics and sends
a coaching prompt built from them to a chat model. This project models,
in Dafny, the logic underneath the DOM code, and proves properties about
it:

- the persistence store: `loadData` fills in defaults, `saveData` writes
  only the fields it is given, and `resetAllData` clears everything
  (`storage.dfy`);
- the start-up gate and the validation of the setup and settings forms
  (`settings.dfy`);
- the validation of the expense form, and the `unshift` that puts the new
  record at the head of the stored list (`logging.dfy`, `expenses.dfy`);
- the week-to-date statistics of `analyzeSpendingContext`
  (`aggregation.dfy`);
- the prompt text of `buildCoachPrompt`, with its conditional coffee line
  (`prompt.dfy`);
- the relative-age text of `getTimeAgo`, and the 20-entry window of the
  history panel (`history.dfy`);
- `String.prototype.trim`, `startsWith`, and the decimal rendering of
  integers in template literals (`text.dfy`).

The browser storage is a `class Store` whose single field holds the three
optional entries. `Save` and `Clear` are methods stated against the pure
functions `Merge` and `Decode`, and the form handlers are methods that
modify the store. The computations are functions.

Time and locale are inputs rather than reads of the clock:
- `nowMs` is the current instant in milliseconds;
- `weekStart` is the instant of the Sunday midnight that opens the week;
- `weekday` is `getDay()`;
- `dateText` is the locale date string.

The user's answer to the reset confirmation is a parameter.

## Model

| member | source | states |
|---|---|---|
| Storage.Decode | app.js:6-13 | a missing entry loads as its default (empty key, zero budget, no expenses); a present entry loads as stored; an empty store loads as exactly the defaults |
| Storage.Merge | app.js:15-25 | a save writes exactly the fields present in its argument; every absent field keeps its previous value; saving nothing changes nothing |
| Storage.MergeIdempotent | app.js:15-25 | saving the same update twice equals saving it once |
| Storage.MergeTwice | app.js:15-25 | two saves in a row equal one save of the second update laid over the first |
| Storage.Store.constructor | app.js:6-13 | a fresh origin has no entries stored |
| Storage.Store.Save | app.js:15-25 | the stored entries become the old entries merged with the update |
| Storage.Store.Clear | app.js:109 | after `localStorage.clear()` no entry remains, and loading yields key `''`, budget 0 and an empty list |
| Settings.CheckSettings | app.js:56-67 | a form is accepted iff the trimmed key starts with `sk-` and the budget parses to a number above zero; an accepted form yields exactly the trimmed key and that budget; the key error is reported iff the key is bad, whatever the budget |
| Settings.OpensMainApp | app.js:33 | the start-up gate: a non-empty stored key and a budget above zero; `EmptyStoreShowsSetup` and `AcceptedSettingsOpenMainApp` state when it holds |
| Settings.EmptyStoreShowsSetup | app.js:33-38 | an empty store routes to the setup flow |
| Settings.AcceptedSettingsOpenMainApp | app.js:33 | from any stored state, saving accepted settings makes the next start-up open the dashboard, with exactly the accepted key and budget and the expense list unchanged |
| Settings.SubmitSettings | app.js:59-69 | a bad key gets the form's key alert and a bad budget the budget alert, and the store is unchanged after either; an accepted form saves key and budget only |
| Settings.SaveSetup | app.js:55-72 | no alert iff the form is accepted; the setup key alert iff the key is bad; the budget alert iff the key passes and the budget does not; a rejection leaves the store unchanged; on success the store holds the trimmed key and the budget, the expenses are unchanged, and the gate opens |
| Settings.UpdateSettings | app.js:87-105 | the same as `saveSetup`, with the settings form's own key alert and the same budget alert |
| Settings.ResetAllData | app.js:107-112 | when confirmed, the store is empty, loads as the defaults and routes to setup; when declined, the store is unchanged |
| Logging.CheckExpense | app.js:117-129 | accepted iff the description is not all whitespace and the amount is above zero; the description alert iff it is all whitespace; the amount alert iff the description passes and the amount does not; an accepted entry holds the trimmed, non-empty description |
| Logging.SaveWithNewExpense | app.js:142-144 | the stored list becomes the new record followed by the old list; key and budget are untouched |
| Logging.LogExpense | app.js:116-155 | rejected iff the form check fails, with its alert and the store unchanged; otherwise the record carries the clock's instant, is stored at the head of the old list, the key and budget are unchanged, and the prompt is built from the statistics of the updated list; positive amounts and newest-first order are kept when the clock has not gone back |
| Logging.PrependKeepsOrder | app.js:143 | prepending a positive record keeps all amounts positive; prepending one no older than the head keeps the list newest first |
| Logging.NewExpenseCounted | app.js:142-144 | because the statistics are computed after the prepend, the new record is counted: one more transaction, its amount added to the week and its category, and a coffee always produces the coffee line |
| Expenses.PrependKeepsNewestFirst | app.js:143 | `unshift` of a record no older than the head keeps timestamps non-increasing |
| Aggregation.OnOrAfter | app.js:221-224 | the week filter keeps only records dated on or after `weekStart`, and only records of the list |
| Aggregation.OfCategory | app.js:227 | the category filter keeps only records of that category, and only records of the list |
| Aggregation.OfCategoryOccurrences | app.js:227-228 | every record of the category occurs in the filtered list as often as in the whole list, and every other record not at all, so `categoryCount` and `coffeeCount` count exactly the week's records of their category |
| Aggregation.OnOrAfterIsSubsequence | app.js:221-224 | the week's records keep their list order |
| Aggregation.OfCategoryIsSubsequence | app.js:232-233 | the category's records keep their list order |
| Aggregation.OnOrAfterOccurrences | app.js:221-224 | every record dated in the week occurs in the week's list as often as in the whole list, and every other record not at all |
| Aggregation.NewestFirstWeekIsPrefix | app.js:221-224 | on a newest-first list the week's records are a prefix of it |
| Aggregation.OnOrAfterNone | app.js:221-224 | when every record predates `weekStart`, the week is empty |
| Aggregation.Total | app.js:231 | the `reduce` sum of the amounts; with positive whole amounts it is at least the number of records |
| Aggregation.TotalPositive | app.js:231 | with positive amounts a total is non-negative, and zero only for an empty list |
| Aggregation.SubsequenceTotal | app.js:231-234 | leaving records out never raises a total of positive amounts |
| Aggregation.Divisor | app.js:237 | `now.getDay() \|\| 7` lies in 1..7, so it is never zero |
| Aggregation.DaysElapsed | app.js:217 | the days from the week's Sunday through the reference day number 1 to 7; used only by the corrected projection of the finding below |
| Aggregation.AnalyzeSpendingContext | app.js:214-247 | `transactionCount` is the length of the week's list and `weekTotal` its sum; both counts are at most `transactionCount`; for coffee the category count is the coffee count; with positive amounts, `0 <= categoryTotal <= weekTotal`, and the week's total is zero iff the week is empty; the projection is the code's `weekTotal / (getDay() \|\| 7) * 30` |
| Aggregation.PrependedExpense | app.js:143 | prepending a record dated in the week adds one transaction and its amount to the week, to the coffee count when it is coffee, and to its own category; prepending an older record changes no statistic |
| Aggregation.ProjectionAsWritten | app.js:237 | `(weekTotal / (now.getDay() \|\| 7)) * 30`, the projection the statistics carry; its properties are stated by `ProjectionAsWrittenBounds` |
| Aggregation.ProjectionAsWrittenBounds | app.js:237 | the projection as written times the divisor is thirty times the week's total; for a non-negative total it lies between 30/7 of it (Sunday) and 30 times it (Monday) |
| Aggregation.ProjectionBounds | app.js:237 | the projection times the days elapsed is thirty times the week's total; for a non-negative total it lies between 30/7 and 30 times the total |
| Aggregation.ProjectionAsWrittenMisses | app.js:237 | the projection as written equals the daily-rate projection only when the week's total is zero |
| Aggregation.ProjectionAsWrittenExamples | app.js:237 | on Sunday, 700 projects to 3000 as written and 21000 at the daily rate; on Monday, 200 projects to 6000 as written and 3000 at the daily rate |
| Prompt.Round | app.js:262 | `Math.round` gives the integer within half of its argument, with halves rounded up |
| Prompt.PromptLines | app.js:250-263 | the lines `prompt +=` appends, in order; their layout is stated by `PromptLayout` |
| Prompt.PromptLayout | app.js:250-263 | the coffee line is present iff the category is `coffee` or the week's coffee count is above zero, and only directly after the category figures, with the week's count; the prompt has 10 lines, or 9 without the coffee line; it opens with the user's entry and closes with the rounded projection and the instruction |
| Prompt.Render | app.js:250-263 | every line but the instruction ends with a newline; the instruction is the fixed closing sentence |
| Prompt.JoinSnoc | app.js:251-263 | each `prompt +=` appends its line's text to the prompt so far |
| Prompt.JoinStartsWith | app.js:250 | the joined text opens with the first line's text |
| Prompt.BuildCoachPrompt | app.js:249-266 | the prompt opens with `User entry: "` followed by the description and ` ₹`, and ends with the instruction sentence |
| History.AgeOf | app.js:344-354 | under a minute (or in the future) is "just now"; under an hour is minutes; under a day is hours; under a week is days; anything older falls back to the date; each count is the floor of the elapsed time in its unit, between 1 and its bucket's bound |
| History.TimeAgo | app.js:349-354 | `Just now` for the first bucket, the date text for a week or more, and otherwise the count followed by ` min`, ` hour` or ` day` |
| History.TimeAgoPlural | app.js:350-352 | a count is written before its unit, and the unit takes the plural "s" iff the count is above one |
| History.Recent | app.js:312 | `slice(0, 20)` is the first `min(20, n)` records of the list |
| History.RecentNewestFirst | app.js:311-312 | on a newest-first list the window is newest first, and every shown record is at least as recent as every record left out |
| History.ExpenseHistory | app.js:303-337 | the placeholder appears iff the list is empty; otherwise there are 1 to 20 rows, the i-th describing the list's i-th record |
| Text.Trim | app.js:56 | the trimmed text neither starts nor ends with whitespace |
| Text.StripIsInnerSlice | app.js:56 | the stripped text is the slice of the input that starts where leading stripping stops |
| Text.StripDropsOnly | app.js:56 | everything stripped before and after that slice is in the stripped set |
| Text.StripEmptyIff | app.js:56 | a string strips to nothing iff all its characters are in the set |
| Text.StripIdempotent | app.js:56 | stripping twice is stripping once |
| Text.TrimEmptyIff | app.js:121 | a description trims to the empty string iff it is all whitespace |
| Text.TrimIdempotent | app.js:88 | trimming an already trimmed key changes nothing |
| Text.StartsWith | app.js:59 | `startsWith`: the prefix is no longer than the string and equals its first characters |
| Text.NatToString | app.js:255 | a count renders as decimal digits without a leading zero, and as one digit iff it is below 10 |
| Text.ParseNatToString | app.js:255 | reading the rendered digits back gives the count |
| Text.NatToStringInjective | app.js:259 | different counts render differently |
| Text.IntToString | app.js:250 | a negative amount renders as `-` followed by the digits of its magnitude |

## Findings

| source | as written | input that shows it | evidently intended | confidence | as-written member | corrected member |
|---|---|---|---|---|---|---|
| app.js:237 | the projection divides by `now.getDay() \|\| 7`, which counts Sunday as day 7. The week it averages over starts at Sunday midnight (app.js:216-218), so the divisor is never the number of days the week has run | Sunday, with 700 spent that day: the projection is 3000, while the daily rate times thirty is 21000. Monday, with 200 spent over Sunday and Monday: the projection is 6000, against 3000 | divide by the days elapsed since `weekStart`, `getDay() + 1` | medium; not executed | Aggregation.ProjectionAsWrittenMisses | Aggregation.ProjectionBounds |

`Aggregation.ProjectionAsWritten` is the code's formula.
`Aggregation.ProjectionAsWrittenExamples` evaluates it on the two inputs above.
`Aggregation.MonthlyProjection` is the corrected formula, and `Aggregation.ProjectionBounds` proves the daily-rate property for it.
`AnalyzeSpendingContext`, and so the prompt, keeps the code's formula. A week starting on Monday would be an equally plausible repair.

## Left out

- The DOM, `alert`/`confirm`, `location.reload` and the keyboard and click listeners (app.js:29-51, 76-85, 359-379) are UI plumbing. Alerts are modelled as returned strings; the confirmation is a boolean parameter.
- `getCoachResponse` (app.js:159-212) is left out: it is a network call to a third-party chat service, with its JSON handling and fallback message. The model stops at the prompt passed to it.
- Real `Date` arithmetic is left out: local midnight, `setDate`/`setHours`, `getDay`, time zones and daylight saving (app.js:215-218, 343). `weekStart`, `weekday` and `nowMs` are inputs, and ISO timestamps are their millisecond instants.
- Logging.LogExpense: `id` (`Date.now()`) and `timestamp` (`new Date()`) are both taken as the same instant `nowMs`, although app.js reads the clock separately for each.
- Locale formatting is left out: `toLocaleString`/`toLocaleDateString` (app.js:50, 102, 138, 298, 334, 354). The locale date text is a parameter.
- Amounts are whole rupees (`int`). The IEEE `parseFloat` amounts of app.js:118 and their floating-point sums are not modelled. Inputs that do not parse to a number arrive as `None`, which is the `NaN` case of the `!amount` and `!budget` checks.
- `JSON.stringify`/`JSON.parse` of the expense list and `parseInt` of the stored budget are not modelled; the store holds typed values. A malformed stored list makes `JSON.parse` throw at app.js:10 rather than fall back to defaults, and a typed store cannot hold one.
- `updateWeeklyStats` (app.js:280-301) is left out: it repeats the week filter, total and coffee count of `analyzeSpendingContext` and only differs in painting them.
- The category emoji and the HTML of each history row (app.js:315-336) are not modelled; a row keeps the category, description, age text and amount it shows.
- History.ExpenseHistory: every row is aged against one `nowMs`, where app.js reads the clock once per row.
- History.ExpenseHistory: a row older than a week shows the record's stored `date` text. app.js:354 formats the timestamp anew, which gives the same en-IN date for the same instant in the same time zone.
- Prompt.BuildCoachPrompt: its contract states only how the text opens and closes. The order and presence of the lines in between are stated on the line list by `PromptLayout`, and `Join` renders them in that order. The `prompt +=` steps are a concatenation function rather than an in-place accumulator.
- Text.Trim: strings are sequences of code points; UTF-16 surrogate pairs and characters outside the ECMAScript whitespace set are kept as they are.
