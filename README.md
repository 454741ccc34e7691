# ExpendiTrack client state and server responses, in Dafny

ExpendiTrack is a budget and expense tracker. Its React client keeps two stores:

- the budget store (`BudgetProvider`) holds the budget list, a chart snapshot and the error fields;
- the expense store (`ExpenseProvider`) holds the expense list, the error fields and an `updateCounter` that the charts watch.

The stores call thin service modules that normalise axios outcomes. A handful of chart and list views project the stores' data. A Spring server maps the services' exceptions to HTTP responses.

This project models that core and proves properties of it:

- **JavaScript values** (`js_values.dfy`). Objects are ordered property lists. `{...a, ...b}` is `Merge`, and `String(v)` is `JsString`.
- **String operations** (`text.dfy`). Prefix tests, ASCII lower-casing, integer rendering, and the first capture of `/"([^"]+)"/`.
- **List updates** (`records.dfy`). Append, merge-by-id and filter-by-id.
- **Error fields** (`error_mapping.dfy`). The classification rules and the `error`/`errorKey`/`dynamicErrorContent` transitions, with the invariant they keep.
- **Service modules** (`service_client.dfy`, `budget_service.dfy`, `chart_service.dfy`). Requests and result normalisation.
- **The two stores** (`budget_context.dfy`, `expense_context.dfy`). Each is a class.
  - Every callback is one atomic method.
  - The settled outcomes of the service calls it awaits are parameters.
  - It returns the service calls it issues, so "no remote call" reads `sent == []`.
  - Each method's `ensures` gives the whole new state as an update of the old state.
- **The views** (`budget_pie_chart.dfy`, `bar_chart.dfy`, `budget_bar_chart.dfy`, `data_list.dfy`, `pie_chart.dfy`). Pure projections plus a small class holding each view's flags, and one screen-selection function per view.
- **The controllers** (`http.dfy`, `budget_controller.dfy`, `expenses_controller.dfy`, `user_controller.dfy`). Total functions from a service outcome to a response, or to the exception propagating.
- **Cross-file properties** (`end_to_end.dfy`).
  - The server's invalid-input and duplicate-name responses reach the stores' classification tables.
  - The pie chart's error screen cannot show when it is driven by the budget store, given the store's list holds no `null`.
  - A cleared expense error comes back after a language change.

The translation function `t` is a field of type `(string, seq<Prop>) -> string` that a language change replaces. `t(key)` without parameters is `t(key, [])`. Network calls, the environment variable `REACT_APP_API_URL` and the services' outcomes are parameters.

Where the code and a plain reading of the design disagree, the model follows the code:

- `BudgetBarChart.js` calls a name `ChartService.js` never exports. That call throws synchronously, after `setLoading(true)` and before any promise exists, so the component's `.catch` never sees it. No request is sent and no error message is shown; the exception leaves the effect uncaught.
- `BarChart.js:21` and `BudgetPieChart.js:47` call their service and store functions without the user id those functions take. The model sends `undefined` there.

## Model

| member | source | states |
|---|---|---|
| Text.ToLower | frontend/src/contexts/ExpenseContext.js:91 | `toLowerCase` keeps the length and lower-cases each ASCII letter in place |
| Text.ToLowerConcat | frontend/src/contexts/ExpenseContext.js:91 | lower-casing distributes over concatenation |
| Text.NatToStringRoundTrip | frontend/src/services/BudgetService.js:17 | reading the decimal rendering of a natural number gives the number back |
| Text.IntToStringInjective | backend/src/main/java/BudgetTracker/Tracker/controller/ExpensesController.java:120 | distinct integers render as distinct strings |
| Text.FirstQuotedCorrect | frontend/src/contexts/BudgetContext.js:98-99 | the capture of `/"([^"]+)"/` is absent exactly when no quoted non-empty segment exists; otherwise it is the leftmost one |
| Text.QuotedNameOfMessage | frontend/src/contexts/BudgetContext.js:98-99 | in `p"x"q`, with no quote in `p` or `x` and `x` non-empty, the capture is `x` |
| JsValues.Lookup | frontend/src/contexts/BudgetContext.js:119 | `o[k]` is `undefined` without the key, otherwise the value of the first property named `k` |
| JsValues.MergeLookup | frontend/src/contexts/BudgetContext.js:89-92 | in `{...a, ...b}` the key takes `b`'s value if `b` has it, else `a`'s; the merge has a key iff one side has it |
| JsValues.MergeKeys | frontend/src/contexts/BudgetContext.js:119 | the keys of `{...a, ...b}` are `a`'s keys, then `b`'s keys not in `a`, in order |
| JsValues.Entries | frontend/src/components/DataList.js:19 | `Object.entries`: an object's properties, the indexed elements of an array or a string, nothing for a number or boolean |
| JsValues.TruthyNonArrayRendersNonEmpty | frontend/src/services/BudgetService.js:12 | a truthy value other than an array renders as a non-empty string |
| Records.Pluck | frontend/src/components/PieChart.js:6-9 | `list.map(r => r[field])`: same length, element `i` is field `field` of record `i` |
| Records.MergeWhereSpec | frontend/src/contexts/BudgetContext.js:118-120 | the merge keeps length and positions; non-matching records are untouched; matching ones become `{...record, ...patch}` |
| Records.MergedField | frontend/src/contexts/BudgetContext.js:119 | a matching record's field after the merge is the patch's value when the patch has it, else the old one |
| Records.RemoveWhereSpec | frontend/src/contexts/BudgetContext.js:141 | after the filter no record matches, every kept record comes from the list, every non-matching record is kept |
| Records.KeptInOrder | frontend/src/contexts/ExpenseContext.js:135 | a non-matching record keeps its place between the filtered prefix and suffix |
| Records.RemoveWhereConcat | frontend/src/contexts/BudgetContext.js:141 | filtering a concatenation filters each part |
| Records.RemoveWhereIdempotent | frontend/src/contexts/BudgetContext.js:141 | filtering twice by the same id equals filtering once |
| Records.RemoveWhereNoMatch | frontend/src/contexts/ExpenseContext.js:135 | with no matching record the filter returns the list unchanged |
| ErrorMapping.BudgetClassification | frontend/src/contexts/BudgetContext.js:97-106 | the key is one of four; the duplicate key and a name occur iff the message has the duplicate prefix; each table key occurs iff the message is exactly its table entry; otherwise the generic key |
| ErrorMapping.ExpenseClassification | frontend/src/contexts/ExpenseContext.js:83-94 | as for budgets, with a case-sensitive prefix test and a lookup of the lower-cased message |
| ErrorMapping.ExpenseClassificationIgnoresCase | frontend/src/contexts/ExpenseContext.js:91-92 | two non-duplicate messages that lower-case alike classify alike |
| ErrorMapping.ExtractNameSpec | frontend/src/contexts/BudgetContext.js:98-99 | the name is "Unknown" when no quoted segment exists, otherwise the leftmost one |
| ErrorMapping.OnFailure | frontend/src/contexts/BudgetContext.js:100-106 | the stored key is the classified one; a non-duplicate failure leaves the stored parameters as they were |
| ErrorMapping.BudgetLanguageChanged | frontend/src/contexts/BudgetContext.js:27-32 | re-renders the error only when a key and non-empty parameters are stored; key and parameters never change |
| ErrorMapping.ExpenseLanguageChanged | frontend/src/contexts/ExpenseContext.js:34-39 | re-renders the error whenever a key is stored; key and parameters never change |
| ErrorMapping.BudgetTransitionsKeepInvariant | frontend/src/contexts/BudgetContext.js:18-19 | every error transition keeps the key empty or a budget key, and the parameters empty or a single name, present only with a key |
| ErrorMapping.ExpenseTransitionsKeepInvariant | frontend/src/contexts/ExpenseContext.js:22-23 | the same invariant over the expense keys |
| ErrorMapping.ErrorKeyIsSticky | frontend/src/contexts/ExpenseContext.js:81 | no transition clears a stored key, so a language change after a reset shows the old error again |
| ServiceClient.ApiRoot | frontend/src/services/BudgetService.js:5 | the environment URL when set and non-empty, otherwise `http://localhost:8080` |
| ServiceClient.Settle | frontend/src/services/BudgetService.js:8-13 | the promise resolves exactly when axios did |
| ServiceClient.EmptyMessageOnlyFromArray | frontend/src/services/BudgetService.js:12 | with a non-empty fallback, an empty error message needs array data from the server |
| BudgetService.RequestShapes | frontend/src/services/BudgetService.js:5-47 | every URL starts with `API_URL`; create posts the data; update and delete share `API_URL/{id}`; the chart path is the list path plus `/names-and-amounts` |
| BudgetService.ListPathCarriesUserId | frontend/src/services/BudgetService.js:17 | for a numeric id the list URL ends in digits whose value is the id |
| BudgetService.FallbacksDistinct | frontend/src/services/BudgetService.js:12-50 | the five fallback messages are pairwise distinct |
| BudgetService.FallbackIdentifiesOperation | frontend/src/services/BudgetService.js:12-50 | two calls share a fallback iff they call the same service function |
| BudgetService.RejectionSources | frontend/src/services/BudgetService.js:7-52 | each function resolves iff axios did; a non-empty text body is the rejection message verbatim; an empty message means array data; a message equal to another operation's fallback came from the server |
| ChartService.ExpensesByCategoryRequest | frontend/src/services/ChartService.js:4-14 | a GET to `{root}/data/expenses-by-category` whose only parameter is `userId` |
| ChartService.ExpensesByCategoryCases | frontend/src/services/ChartService.js:13-20 | success (an empty map too) yields the body; truthy string data is the message; null data or no response gives the fallback |
| ErrorMapping.MessageOr | frontend/src/contexts/BudgetContext.js:53 | the message if non-empty, otherwise the generic text; never empty (the expense store's `ExpenseContext.js:58` is the same expression) |
| BudgetContext.ChartSnapshot | frontend/src/contexts/BudgetContext.js:58-69 | the array's elements on an array result, `[]` on anything else and on failure |
| Records.CreatePayloadSpec | frontend/src/contexts/BudgetContext.js:89-92 | the payload's `userId` is the current user's whatever the data said; every other field is the data's (the expense store builds the same payload at `ExpenseContext.js:75-78`) |
| BudgetContext.BudgetProvider.constructor | frontend/src/contexts/BudgetContext.js:11-19 | empty lists, empty error fields, form population off |
| BudgetContext.BudgetProvider.FetchBudgets | frontend/src/contexts/BudgetContext.js:44-56 | one list request; an array replaces the list; a non-array sets the shape error; a failure sets its message; nothing else changes |
| BudgetContext.BudgetProvider.FetchBudgetCategoriesForChart | frontend/src/contexts/BudgetContext.js:58-69 | one chart request; only the snapshot changes, to `ChartSnapshot` of the outcome |
| BudgetContext.BudgetProvider.OnUserId | frontend/src/contexts/BudgetContext.js:79-85 | without a user nothing happens; with one, the list and chart requests, in that order |
| BudgetContext.BudgetProvider.RecordFailure | frontend/src/contexts/BudgetContext.js:96-107 | only the error fields change, to `OnFailure` of the budget classification |
| BudgetContext.BudgetProvider.AddNewBudget | frontend/src/contexts/BudgetContext.js:87-109 | success appends the response, refreshes the chart and clears the error; failure changes only the error fields |
| BudgetContext.BudgetProvider.UpdateExistingBudget | frontend/src/contexts/BudgetContext.js:111-136 | a falsy id sets the missing-id error with no call; success merges the response into records with that `id` and refreshes the chart; failure changes only the error fields |
| BudgetContext.BudgetProvider.RemoveBudget | frontend/src/contexts/BudgetContext.js:138-148 | only a confirmed delete filters out that `id` and refreshes the chart; failure sets the message or the generic text |
| BudgetContext.BudgetProvider.SetError | frontend/src/contexts/BudgetContext.js:164 | replaces the displayed text only |
| BudgetContext.BudgetProvider.ResetError | frontend/src/contexts/BudgetContext.js:150 | clears the displayed text; key and parameters stay |
| BudgetContext.BudgetProvider.LanguageChanged | frontend/src/contexts/BudgetContext.js:27-39 | switches `t` and applies `BudgetLanguageChanged` to the error fields |
| BudgetContext.BudgetProvider.EnableFormPopulation | frontend/src/contexts/BudgetContext.js:71-73 | sets the form flag, nothing else |
| BudgetContext.BudgetProvider.DisableFormPopulation | frontend/src/contexts/BudgetContext.js:75-77 | clears the form flag, nothing else |
| ExpenseContext.UpdateNotDefinedIsUnexpected | frontend/src/contexts/ExpenseContext.js:105-124 | the ReferenceError of the missing import classifies as the generic key with no name |
| ExpenseContext.AsWrittenLosesEdit | frontend/src/contexts/ExpenseContext.js:107-109 | when a matching record's field differs from the submitted one, the intended merge changes the list |
| ExpenseContext.ExpenseProvider.constructor | frontend/src/contexts/ExpenseContext.js:14-24 | empty list, empty error fields, counter 0, empty log |
| ExpenseContext.ExpenseProvider.FetchExpenses | frontend/src/contexts/ExpenseContext.js:49-61 | one request; an array replaces the list; a non-array sets the shape error; a failure sets its message; the counter stays |
| ExpenseContext.ExpenseProvider.OnUserId | frontend/src/contexts/ExpenseContext.js:64-68 | without a user nothing happens; with one, one list request |
| ExpenseContext.ExpenseProvider.RecordFailure | frontend/src/contexts/ExpenseContext.js:82-96 | only the error fields change, to `OnFailure` of the expense classification |
| ExpenseContext.ExpenseProvider.Confirm | frontend/src/contexts/ExpenseContext.js:80-81 | the counter rises by one, the change is logged, the error is cleared |
| ExpenseContext.ExpenseProvider.AddNewExpense | frontend/src/contexts/ExpenseContext.js:71-97 | without a user nothing changes and nothing is sent; success appends the response and adds one to the counter; failure changes only the error fields |
| ExpenseContext.ExpenseProvider.UpdateExistingExpense | frontend/src/contexts/ExpenseContext.js:100-127 | the update as intended: merges the submitted data, not the response, into records with that `expensesId`, and adds one to the counter |
| ExpenseContext.ExpenseProvider.UpdateExistingExpenseAsWritten | frontend/src/contexts/ExpenseContext.js:100-127 | the update as written: no request, list and counter unchanged, the generic error shown |
| ExpenseContext.ExpenseProvider.RemoveExpense | frontend/src/contexts/ExpenseContext.js:130-142 | only a confirmed delete filters that `expensesId` out and adds one to the counter; failure sets the message |
| ExpenseContext.ExpenseProvider.SetError | frontend/src/contexts/ExpenseContext.js:160 | replaces the displayed text only |
| ExpenseContext.ExpenseProvider.ResetError | frontend/src/contexts/ExpenseContext.js:145 | clears the displayed text only |
| ExpenseContext.ExpenseProvider.ResetExpError | frontend/src/contexts/ExpenseContext.js:148 | clears the displayed text only |
| ExpenseContext.ExpenseProvider.LanguageChanged | frontend/src/contexts/ExpenseContext.js:34-46 | switches `t` and applies `ExpenseLanguageChanged` |
| BudgetPieChart.ChartOf | frontend/src/components/BudgetPieChart.js:14-16 | one label (`budgetDescription`) and one value (`budgetAmount`) per budget, in order |
| BudgetPieChart.Render | frontend/src/components/BudgetPieChart.js:58-70 | exactly one screen, in the order loading, error, no data, chart |
| BudgetPieChart.BudgetPieChartView.constructor | frontend/src/components/BudgetPieChart.js:7-10 | starts on the loading screen |
| BudgetPieChart.BudgetPieChartView.PrepareChartData | frontend/src/components/BudgetPieChart.js:13-39 | a non-empty list becomes the chart with both flags off; otherwise no-data with the chart kept |
| BudgetPieChart.BudgetPieChartView.BeginLoad | frontend/src/components/BudgetPieChart.js:43-45 | loading on, error cleared, no-data off |
| BudgetPieChart.BudgetPieChartView.LoadBudgets | frontend/src/components/BudgetPieChart.js:42-53 | loading ends; the screen is the load error, the chart or no data |
| BarChart.Project | frontend/src/components/BarChart.js:24-25 | labels and values are the entries' keys and values, parallel and in order |
| BarChart.ProjectMap | frontend/src/components/BarChart.js:23-26 | a map projects onto its keys and values; the empty map onto two empty series |
| BarChart.Render | frontend/src/components/BarChart.js:56-79 | loading, then error, then chart; there is no no-data screen |
| BarChart.AfterFetch | frontend/src/components/BarChart.js:22-48 | loading ends; truthy data replaces the chart, falsy data keeps it; only a rejection sets the error |
| BarChart.ErrorIsSticky | frontend/src/components/BarChart.js:44-48 | once set, the error is never cleared by later fetches, so the chart never returns after successes |
| BarChart.ErrorUnchangedBySuccesses | frontend/src/components/BarChart.js:22-43 | successful fetches leave the error as it was |
| BarChart.EffectRuns | frontend/src/components/BarChart.js:52-54 | the effect runs on mount and when the counter changed |
| BarChart.FetchOnEveryCounterChange | frontend/src/components/BarChart.js:52-54 | with strictly increasing counters, one fetch per render |
| BarChart.BarChartView.constructor | frontend/src/components/BarChart.js:11-13 | starts loading with no chart and no error |
| BarChart.BarChartView.BeginFetch | frontend/src/components/BarChart.js:20 | loading on before the request |
| BarChart.BarChartView.SettleFetch | frontend/src/components/BarChart.js:22-48 | the state becomes `AfterFetch` of the result |
| BarChart.BarChartView.FetchChartData | frontend/src/components/BarChart.js:19-49 | a request with an undefined user id, then `AfterFetch` of the normalised outcome |
| BarChart.BarChartView.OnRender | frontend/src/components/BarChart.js:52-54 | fetches exactly when the effect runs; otherwise nothing changes |
| BudgetBarChart.FetchChartDataAsWritten | frontend/src/components/BudgetBarChart.js:19-21 | the missing import throws past the `.catch`: only `loading` is set, no request is sent, and the exception escapes; the state given is the view's last before the throw |
| BudgetBarChart.FetchChartData | frontend/src/components/BudgetBarChart.js:19-49 | with an existing chart function, loading always ends and a rejection shows its message |
| BudgetBarChart.CounterDeps | frontend/src/components/BudgetBarChart.js:14 | the dependency the chart reads is `undefined` on every render |
| BudgetBarChart.NoRunAfterMount | frontend/src/components/BudgetBarChart.js:52-54 | after mount, an `undefined` dependency never triggers the effect again |
| BudgetBarChart.FetchesOnlyOnMount | frontend/src/components/BudgetBarChart.js:52-54 | over any number of renders the chart fetches exactly once |
| DataList.Transform | frontend/src/components/DataList.js:19-22 | one item per entry, `{string: key, int: value}`, in order |
| DataList.Outcome | frontend/src/components/DataList.js:11-29 | a network failure, a not-ok response, a parse failure or null data each give an error; an object gives its transformed entries |
| DataList.Render | frontend/src/components/DataList.js:32-52 | loading, then error, then the list, also when empty |
| DataList.DataListView.constructor | frontend/src/components/DataList.js:6-8 | starts loading with no items and no error |
| DataList.DataListView.Load | frontend/src/components/DataList.js:10-30 | fetches the fixed URL; success stores the items; failure stores the error; loading ends in both cases |
| PieChart.SeriesOf | frontend/src/components/PieChart.js:4-13 | labels are the `category`s and values the `amount`s, one per item, empty for no items |
| Http.Code | backend/src/main/java/BudgetTracker/Tracker/controller/BudgetController.java:56-64 | the 2xx statuses are OK and Created, the 4xx ones Bad Request and Not Found |
| Http.CodeInjective | backend/src/main/java/BudgetTracker/Tracker/controller/BudgetController.java:56-64 | distinct statuses have distinct codes |
| Http.PassThrough | backend/src/main/java/BudgetTracker/Tracker/controller/ExpensesController.java:71-89 | 200 with the service's result unchanged; an exception propagates |
| BudgetController.GetBudgetsByUserId | backend/src/main/java/BudgetTracker/Tracker/controller/BudgetController.java:36-39 | always 200 with the service's list |
| BudgetController.CreateBudget | backend/src/main/java/BudgetTracker/Tracker/controller/BudgetController.java:53-67 | 201 iff success; 400 iff duplicate (raw message) or invalid input (prefixed); 404 iff unknown user (prefixed); others propagate |
| BudgetController.UpdateBudget | backend/src/main/java/BudgetTracker/Tracker/controller/BudgetController.java:76-87 | 200 iff success; 400 as on create; 404 `User not found` iff unknown user; others propagate |
| BudgetController.DeleteBudget | backend/src/main/java/BudgetTracker/Tracker/controller/BudgetController.java:95-102 | 200 with the fixed confirmation iff success; 404 prefixed iff unknown budget; others propagate |
| BudgetController.UserNotFoundDiffers | backend/src/main/java/BudgetTracker/Tracker/controller/BudgetController.java:62-85 | an unknown user gets different 404 bodies on create and update |
| ExpensesController.CreateExpense | backend/src/main/java/BudgetTracker/Tracker/controller/ExpensesController.java:49-59 | 201 iff success; 400 iff duplicate (raw) or invalid input, invalid date or unknown budget (prefixed); never 404 or 500 |
| ExpensesController.GettersPassThrough | backend/src/main/java/BudgetTracker/Tracker/controller/ExpensesController.java:71-89 | the getters, and the one at lines 173-175, return the service's result unchanged |
| ExpensesController.UpdateExpense | backend/src/main/java/BudgetTracker/Tracker/controller/ExpensesController.java:114-126 | 200 iff success; 404 naming the id iff unknown expense; 400 prefixed iff invalid input or unknown budget; 500 otherwise; never propagates |
| ExpensesController.DeleteExpense | backend/src/main/java/BudgetTracker/Tracker/controller/ExpensesController.java:145-156 | 200 confirming the id iff success; 404 naming the id iff unknown expense; 500 otherwise |
| ExpensesController.MessagesIdentifyTheId | backend/src/main/java/BudgetTracker/Tracker/controller/ExpensesController.java:119-151 | each id-bearing message is equal for two ids iff the ids are equal |
| UserController.CreateUser | backend/src/main/java/BudgetTracker/Tracker/controller/UserController.java:27-38 | 201 iff success; 400 with the message for a duplicate user, with the fixed text for an integrity violation; others propagate |
| UserController.FindUser | backend/src/main/java/BudgetTracker/Tracker/controller/UserController.java:41-50 | always 200, never 404: the user when found, otherwise the fixed invitation |
| EndToEnd.ToAxios | frontend/src/services/BudgetService.js:8-13 | axios resolves exactly for 2xx, with the body as its data |
| EndToEnd.RejectedMessageArrivesIntact | frontend/src/services/BudgetService.js:12 | a non-empty text body rejects with exactly that text |
| EndToEnd.CreatedBudgetReachesStore | backend/src/main/java/BudgetTracker/Tracker/controller/BudgetController.java:55-56 | a created budget arrives as `createBudget`'s resolved value |
| EndToEnd.InvalidBudgetInputReachesKey | backend/src/main/java/BudgetTracker/Tracker/controller/BudgetController.java:59-61 | the prefixed 400 body reaches the store intact; it is the amount or description key iff the reason is theirs, otherwise the generic key |
| EndToEnd.InvalidExpenseInputReachesKey | backend/src/main/java/BudgetTracker/Tracker/controller/ExpensesController.java:55-57 | the expense store's amount and description keys are reached iff the lower-cased reason is theirs |
| EndToEnd.DuplicateNameReachesStore | backend/src/main/java/BudgetTracker/Tracker/controller/BudgetController.java:57-58 | a raw duplicate message naming `name` becomes the duplicate key with `name` as parameter |
| EndToEnd.LoadPieChart | frontend/src/components/BudgetPieChart.js:42-53 | driven by the store: a request for an undefined user, and never the error or loading screen afterwards |
| EndToEnd.StaleErrorReturns | frontend/src/contexts/ExpenseContext.js:34-46 | after a failed add, a successful add and a language change, the failure's error is shown again |

## Left out

- Network and environment. Axios, `fetch`, Spring wiring and `process.env` become parameters. Nothing is sent or received.
- Status codes on the client. Only the 2xx test for an axios response is modelled.
  - Axios's JSON parsing of a plain-text body is not modelled; a body that happens to be valid JSON would be parsed.
  - Spring's own 400 for an unparsable path variable (such as `undefined`) is not modelled.
- React scheduling. Each callback is one atomic transition; batching, scheduling and unmount races are out.
  - The chart refresh a budget mutation starts is modelled as settling inside the same transition. It touches only `chartData`, so the order of the two updates does not matter.
  - Callback identity and stale closures are out. In `BudgetContext.js:136,148` the update and remove callbacks do not list `userId` as a dependency, so they may refresh the chart for an outdated user. The model uses the current user.
  - The pie chart's effect depends on `prepareChartData`, which changes whenever the budget list does, so it reloads after every change to the list. The model runs one load at a time.
- i18n. `t` is an uninterpreted function. `i18n.on`/`off` subscription is modelled only by its handler's effect.
- JavaScript semantics outside the data used here.
  - Objects keep insertion order; integer-like keys are not moved to the front.
  - Spreading an array or a string into an object contributes no properties.
  - Reading a property of `null` or `undefined` gives `undefined` instead of throwing.
  - `===` between objects is structural.
  - Inherited keys such as `constructor` in the error tables are not found.
  - Lower-casing is ASCII only.
  - Numbers are integers.
- `ExpenseService.js` is not part of this model. The expense store's calls are recorded as `ExpenseCall` values, and its rejections are taken to carry the server's message the way the budget service's do.
- Chart.js options, colours, chart titles and JSX markup.
- `Header.js`, `Dashboard.js` and `DataController.java` hold markup, glue or pure delegation.
- The tests, and the grouping logic they exercise in a service class that is not part of this model.
- The `console.log` and `console.error` calls.
- BudgetContext.BudgetProvider.OnUserId: its contract states the requests and the new chart snapshot, not the list and error outcome. That outcome is `FetchBudgets`'s contract, applied to the list outcome.
- ExpenseContext.ExpenseProvider.OnUserId: its contract states the request only. The state it leaves is `FetchExpenses`'s contract.
- BudgetBarChart.FetchChartDataAsWritten: what React does with the exception that escapes the effect is not modelled. No error boundary exists, so React unmounts the root and the page goes blank; the loading screen the contract leaves is never actually shown.
- EndToEnd.LoadPieChart: it relies on reading a property of `null` giving `undefined`. A `null` in the store's list would make `budget.budgetDescription` throw inside `loadBudgets`'s `try` and reach the error screen.
- BudgetPieChart.BudgetPieChartView.LoadBudgets: `fetchFailed` is an input. Driven by the budget store it is always false (`EndToEnd.LoadPieChart`), because the store's fetch catches every rejection.

## Findings

| source | as written | input that shows it | evidently intended | confidence | as-written member | corrected member |
|---|---|---|---|---|---|---|
| frontend/src/contexts/ExpenseContext.js:105 | `updateExpense` is called but never imported (line 2), so a ReferenceError is raised inside the `try` and shown as the generic error | any `updateExistingExpense(id, data)` with a signed-in user, where a record with `expensesId === id` has a field that `data` changes | send the update, merge the submitted data into the matching records, add one to `updateCounter` | not executed | ExpenseContext.ExpenseProvider.UpdateExistingExpenseAsWritten | ExpenseContext.ExpenseProvider.UpdateExistingExpense |
| frontend/src/components/BudgetBarChart.js:3 | `getBudgetsByCategory` is not exported by `ChartService.js`; calling it throws synchronously after `setLoading(true)`, outside the promise chain | mounting the component | the fetch settles and loading ends, with the chart or an error | not executed | BudgetBarChart.FetchChartDataAsWritten | BudgetBarChart.FetchChartData |
| frontend/src/components/BudgetBarChart.js:14 | reads `updateCounter` from the budget store, which does not provide one (`BudgetContext.js:152-166`), so the dependency is always `undefined` | adding, updating or removing a budget after mount | the chart refetches on every confirmed change, as the expense chart does | not executed | BudgetBarChart.FetchesOnlyOnMount | BarChart.FetchOnEveryCounterChange |

`ExpenseContext.AsWrittenLosesEdit` shows that the as-written update loses the edit in the first row's case. `ExpenseContext.UpdateNotDefinedIsUnexpected` shows the generic message that appears instead.
