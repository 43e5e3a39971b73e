# Mixo Ads campaign dashboard: a Dafny model

This project models the core of the Mixo Ads dashboard, a single-page React
application. The application lists advertising campaigns, adds per-campaign
performance insights to them, shows summary statistics and a campaigns table,
and has a detail page for each campaign. The model covers these parts:

- **The data service** (`src/services/api.ts`), module `Api`:
  - the campaign and insights records;
  - the campaign/insights join (object spread);
  - the lookup by id over `Promise.all` of two requests;
  - the best-effort batch enrichment;
  - the wrapping of failures into `Error`s whose messages name the operation;
  - the retry policy of the shared HTTP client.

  Requests are not issued. The model receives how each awaited request
  settled (`Outcomes.Settled`), and `Outcomes.All2` models `Promise.all` over
  two of them.
- **The components**, modules `SummaryStatistics`, `CampaignDetails` and
  `CampaignsList`. Each is modelled as the values it computes from its
  campaigns:
  - the totals, the active count, the average CTR and the spend ratio;
  - the detail and metric lists, the budget breakdown and the progress-bar
    width (including the division by a zero budget);
  - the table rows and their links.

  The two identical copies of `getStatusBadgeColor` and `getStatusLabel` are
  modelled once, in `Presentation`.
- **The pages** (`DashboardPage.tsx`, `CampaignDetailsPage.tsx`). Each is
  modelled in two parts:
  - a class whose fields are the page's state variables;
  - a fetch method that changes them step by step, as the `async` handler
    does.

  A ghost log records every setter call and request in order (`Hooks.Effect`).
  Each method is proved against a pure `AfterFetch` function. `SelectView`
  models the chain of early returns that picks what the page renders.

Both pages import their `Error` component under the name `Error`. That name
hides JavaScript's global `Error` class inside the page files. The catch
blocks' `err instanceof Error` therefore never holds, and the stored message
is always the page's fallback string. The service's message (for example
"Failed to fetch campaign: Campaign not found") is never stored. The model
reproduces this behaviour, and `DashboardPage.FailedFetchShowsError` and
`CampaignDetailsPage.UnknownIdShowsGenericError` state it.

## Model

| member | source | states |
|---|---|---|
| Outcomes.All2 | src/services/api.ts:86-89 | `Promise.all` of two requests resolves exactly when both resolve, with both values in order; otherwise it rejects with the reason of a rejected request, and that is the only rejected one's reason when just one fails |
| Outcomes.Rethrow | src/services/api.ts:107-108 | a successful response passes unchanged; a failure becomes an `Error` whose message is the prefix followed by the original `Error`'s message, or "Unknown error" for anything else |
| Api.InsightsPath | src/services/api.ts:125 | the insights path is "/campaigns/", then the id unchanged, then "/insights" |
| Api.Merge | src/services/api.ts:97-106 | the spread keeps every base field of the campaign and sets all seven performance fields to the snapshot's values |
| Api.MergeDetermined | src/services/api.ts:139-148 | any campaign with the same base fields that carries the snapshot equals the merge, so the merge is fully specified by its two properties |
| Api.MergeIdempotent | src/services/api.ts:139-148 | merging the same insights twice gives the same campaign as merging once |
| Api.MergeLastWins | src/services/api.ts:139-148 | merging two snapshots in turn equals merging only the second |
| Api.ServiceFailuresNamed | src/services/api.ts:74-130 | `getCampaigns`, `getCampaignInsights` and `getAggregateInsights` return a success unchanged, and turn a failure into an `Error` with their own prefix followed by the underlying message |
| Api.Find | src/services/api.ts:91 | `find` returns a campaign exactly when one has the id; the result has that id and is the first such entry of the list |
| Api.GetCampaignById | src/services/api.ts:84-110 | resolves exactly when both requests succeed and the list holds the id; the result has the id, the base fields of the first match and the snapshot's metrics; a missing id rejects with "Failed to fetch campaign: Campaign not found"; a failed request rejects with the prefix followed by that request's own message (the first to fail when both do); every rejection is an `Error` with the "Failed to fetch campaign: " prefix |
| Api.EnrichOne | src/services/api.ts:136-152 | a campaign whose insights request fails is returned unchanged; otherwise it is merged with its snapshot |
| Api.EnrichCampaignsWithInsights | src/services/api.ts:133-159 | always resolves, with one entry per campaign in order, each with the same id and base fields; a failed request leaves its entry unchanged; a successful one fills in the snapshot; an outer failure returns the input list |
| Api.IdsOfSameIds | src/services/api.ts:135-155 | lists of equal length with the same id at each position have the same id sequence |
| Api.EnrichPreservesIds | src/services/api.ts:133-159 | enrichment keeps the ids and their order |
| Api.EnrichIsolated | src/services/api.ts:136-153 | the entry of campaign i depends only on campaign i and its own response, not on the other requests |
| Api.EnrichAllSucceeded | src/services/api.ts:135-155 | when every insights request succeeds, every returned campaign has all seven performance fields |
| Api.RetryCondition | src/services/api.ts:18-20 | a request is retried on a network or idempotent-request error, or on status 429, and otherwise not |
| Api.SendWithRetries | src/services/api.ts:15-21 | the client makes between 1 and retries+1 attempts; the outcome is the last attempt's; every attempt before it was retryable; stopping early means the last attempt was not retryable |
| Api.NonRetryableFailsAtOnce | src/services/api.ts:15-21 | a failure that is neither a network/idempotent error nor a 429 is reported after one attempt |
| Api.RateLimitedExhaustsRetries | src/services/api.ts:15-21 | a request rate-limited every time is tried 4 times and fails |
| Presentation.RateOrZero | src/components/CampaignDetails.tsx:36-38 | an absent rate shows the literal "0.00" between prefix and suffix; a present one is formatted to two decimals |
| Presentation.BadgeColor | src/components/CampaignDetails.tsx:8-21 | every status maps to one of four classes: success iff active, warning iff paused, danger iff draft, info for completed and any other string |
| Presentation.UpperChar | src/components/CampaignDetails.tsx:24 | a lower-case letter becomes its own capital (the same offset from 'A' as from 'a'); any other character is kept; the result is never a lower-case letter |
| Presentation.UpperCase | src/components/CampaignDetails.tsx:74 | upper-casing keeps the length and maps every character on its own |
| Presentation.UpperCaseAppend | src/components/CampaignDetails.tsx:74 | upper-casing a concatenation is concatenating the upper-cased parts |
| Presentation.UpperCaseIdempotent | src/components/CampaignDetails.tsx:74 | upper-casing twice is upper-casing once |
| Presentation.StatusLabel | src/components/CampaignsList.tsx:23-25 | the label has the status's length, its first character upper-cased and the rest unchanged; "" stays "" |
| Presentation.StatusLabelIdempotent | src/components/CampaignsList.tsx:23-25 | labelling a label changes nothing |
| Presentation.KnownStatusLabels | src/components/CampaignDetails.tsx:23-25 | the four statuses are labelled "Active", "Paused", "Completed" and "Draft" |
| Presentation.StatusBadge | src/components/CampaignsList.tsx:60-62 | a status badge has one of the four classes and a caption as long as the status |
| Presentation.Join | src/components/CampaignDetails.tsx:74 | joining no parts gives "", and joining one part gives that part |
| Presentation.UpperAll | src/components/CampaignDetails.tsx:74 | every part is upper-cased in place |
| Presentation.UpperCaseJoin | src/components/CampaignDetails.tsx:74 | upper-casing a joined string equals joining the upper-cased parts with the upper-cased separator |
| Presentation.PlatformsTextJoinsUppercased | src/components/CampaignDetails.tsx:74 | the platforms line is the upper-cased platform names joined by ", ", and contains no lower-case letter |
| SummaryStatistics.TotalAppend | src/components/SummaryStatistics.tsx:8-12 | a `reduce` sum over a concatenation is the sum of the two sums |
| SummaryStatistics.TotalMonotone | src/components/SummaryStatistics.tsx:8-12 | a sum of pointwise smaller terms is no larger |
| SummaryStatistics.TotalPointwise | src/components/SummaryStatistics.tsx:8-12 | sums of pointwise equal terms are equal |
| SummaryStatistics.ActiveOnes | src/components/SummaryStatistics.tsx:14 | the filter keeps exactly the active campaigns of the list, and no more entries than the list has |
| SummaryStatistics.ActiveOnesCounts | src/components/SummaryStatistics.tsx:14 | the filter keeps each active campaign as many times as the list holds it, and no other campaign |
| SummaryStatistics.ActiveOnesAppend | src/components/SummaryStatistics.tsx:14 | filtering two lists put together gives their filtered lists put together, in order |
| SummaryStatistics.ActiveCampaigns | src/components/SummaryStatistics.tsx:14 | the active count is at most the list length; it equals the length iff every campaign is active, and is 0 iff none is |
| SummaryStatistics.ActiveFullIff | src/components/SummaryStatistics.tsx:14 | the filter keeps the whole list exactly when every campaign is active |
| SummaryStatistics.AverageCtr | src/components/SummaryStatistics.tsx:13 | the average CTR is 0 without impressions, and otherwise the clicks as a percentage of impressions; it lies in [0, 100] when clicks do not exceed impressions |
| SummaryStatistics.SpendPercentage | src/components/SummaryStatistics.tsx:61 | for a positive budget, the spend is expressed as a percentage of it, at most 100 when the spend fits the budget |
| SummaryStatistics.SpendRatio | src/components/SummaryStatistics.tsx:61 | the spend-ratio tile shows "0%" exactly when the total budget is 0, and otherwise the percentage to one decimal |
| SummaryStatistics.Summarize | src/components/SummaryStatistics.tsx:8-14 | an empty list gives all zeros; the active count is at most the list length; the average CTR is 0 without impressions, and otherwise clicks per impression as a percentage |
| SummaryStatistics.SummarizeAppend | src/components/SummaryStatistics.tsx:8-14 | the five totals and the active count of a concatenated list are the sums of the parts' values; with `SummarizeSingle` this fixes them for every list |
| SummaryStatistics.SummarizeSingle | src/components/SummaryStatistics.tsx:8-14 | a one-campaign list totals that campaign's fields, with absent metrics as 0, and counts 1 active iff it is active |
| SummaryStatistics.AverageCtrIsPercentage | src/components/SummaryStatistics.tsx:13 | when no campaign has more clicks than impressions, the average CTR lies in [0, 100] |
| SummaryStatistics.SpendRatioAtMostHundred | src/components/SummaryStatistics.tsx:61 | when no campaign overspends, the spend ratio is at most 100% |
| SummaryStatistics.EnrichKeepsBudgetAndActive | src/services/api.ts:133-159 | enrichment does not change the total budget or the active count |
| SummaryStatistics.ActiveCountPointwise | src/components/SummaryStatistics.tsx:14 | lists with the same status at each position have the same active count |
| SummaryStatistics.EnrichedTotalSpent | src/components/SummaryStatistics.tsx:9 | after a fully successful enrichment, the total spent is the sum of the snapshots' spends |
| SummaryStatistics.StatTiles | src/components/SummaryStatistics.tsx:16-65 | there are eight tiles with their fixed titles in order: the active count; the budget and spent totals in thousands to one decimal; the impressions total in thousands with no decimals; the clicks and conversions totals; the average CTR of the totals to two decimals; and the spend ratio of the totals, which is "0%" exactly when the total budget is 0 |
| CampaignDetails.RemainingBudget | src/components/CampaignDetails.tsx:70 | remaining plus spent equals the budget; it is the budget when spend is absent, and negative exactly when the campaign overspends |
| CampaignDetails.SpendPercent | src/components/CampaignDetails.tsx:188 | 0 for a zero budget, otherwise spend as a percentage of budget; never negative, at most 100 when the spend fits and at least 100 when it does not |
| CampaignDetails.SpendPercentShown | src/components/CampaignDetails.tsx:187-189 | the "Spend %" value is "0%" exactly when the budget is 0, and otherwise the spend percentage to one decimal |
| CampaignDetails.ProgressWidth | src/components/CampaignDetails.tsx:171 | the width is NaN exactly when both budget and spend are 0; otherwise it lies in [0, 100]; it is 100 when the spend reaches the budget (Infinity capped when the budget is 0); below the budget it is the spend percentage |
| CampaignDetails.BudgetBreakdown | src/components/CampaignDetails.tsx:155-194 | the breakdown shows the budget, the spent amount and the remaining amount; the bar has the progress width and the "Spend %" value is the shown spend percentage; the bar is never wider than 100%; "Spend %" is "0%" exactly for a zero budget |
| CampaignDetails.Details | src/components/CampaignDetails.tsx:41-80 | nine entries with fixed titles in order, each showing its field: name, status badge, brand id, budget, daily budget, spent and remaining amounts, upper-cased platforms and creation date |
| CampaignDetails.Metrics | src/components/CampaignDetails.tsx:82-113 | six entries with fixed titles in order; absent counts show 0, absent rates show "0.00" |
| CampaignDetails.LookedUpCampaignShowsInsights | src/services/api.ts:96-106 | a campaign returned by the lookup shows the snapshot's own numbers in every metric and in "Spent", never a default |
| CampaignsList.LinkTarget | src/components/CampaignsList.tsx:72 | the link is "/campaign/" followed by the id unchanged |
| CampaignsList.LinkTargetInjective | src/components/CampaignsList.tsx:72 | different ids give different links |
| CampaignsList.RowOf | src/components/CampaignsList.tsx:53-80 | a row's key is the id and its link is the id's page; its badge has the status's class and label; it shows the name, the budget, the spend, impressions, clicks and conversions (0 when absent) and the CTR to two decimals ("0.00" when absent) |
| CampaignsList.Render | src/components/CampaignsList.tsx:27-30 | renders nothing exactly for an empty list, and otherwise one row per campaign in order |
| CampaignsList.DistinctIdsDistinctLinks | src/components/CampaignsList.tsx:57 | campaigns with distinct ids get rows with distinct keys and distinct links |
| CampaignsList.EnrichedRowShowsInsights | src/components/CampaignsList.tsx:64-69 | a campaign whose insights request succeeded shows its snapshot's spend, impressions, clicks, conversions and CTR in its row, never a default |
| CampaignsList.RowLinksToItsCampaign | src/components/CampaignsList.tsx:71-72 | the id in row i's link is campaign i's id |
| Hooks.Requests | src/pages/DashboardPage.tsx:14-30 | a log holds no more requests than steps |
| Hooks.RequestsOne | src/pages/DashboardPage.tsx:14-30 | a one-step log holds a request exactly when its step is one |
| Hooks.RequestsAppend | src/pages/DashboardPage.tsx:14-30 | the requests of a concatenated log are those of the first part followed by those of the second |
| DashboardPage.AfterFetch | src/pages/DashboardPage.tsx:14-30 | loading always ends false; on success the error is cleared and the list is the enriched list, with its ids in order; on failure the error is the fallback "Failed to fetch campaigns" and the previous list stays |
| DashboardPage.InsightRequests | src/services/api.ts:135-138 | one insights request per listed campaign, in list order, for that campaign's id; none when the outer step fails |
| DashboardPage.FetchEffects | src/pages/DashboardPage.tsx:14-30 | a fetch first sets loading, then clears the error, then requests the list; its last step switches loading off |
| DashboardPage.FetchRequestsInOrder | src/pages/DashboardPage.tsx:16-19 | no request is issued before loading is on and the error is cleared; a failed list request, or a failing enrichment, issues only the list request; otherwise one more request per campaign |
| DashboardPage.PrologueRequests | src/pages/DashboardPage.tsx:16-18 | the steps before the list is awaited issue exactly the list request |
| DashboardPage.AllRequests | src/services/api.ts:135-138 | a log made only of requests has one path per step |
| DashboardPage.SelectView | src/pages/DashboardPage.tsx:36-72 | loading exactly when loading is set; an error with retry exactly when not loading and the error is truthy, showing that error; the empty state exactly when neither holds and the list is empty; otherwise the overview of the list |
| DashboardPage.InitialViewIsLoading | src/pages/DashboardPage.tsx:10-12 | the first render shows the loading view |
| DashboardPage.FailedFetchShowsError | src/pages/DashboardPage.tsx:21-26 | a failed list request shows the retryable error view with "Failed to fetch campaigns", which differs from the service's own message |
| DashboardPage.SucceededFetchShowsList | src/pages/DashboardPage.tsx:50-71 | after a successful fetch the empty state shows exactly for an empty list; otherwise the overview shows the enriched list with the listed ids in order |
| DashboardPage.RetryRerunsFetch | src/pages/DashboardPage.tsx:45 | a retry that succeeds leaves no trace of the earlier failure, and a retry that fails again lands in the same state |
| DashboardPage.OverviewRendersRows | src/pages/DashboardPage.tsx:70-71 | in the overview the table has one row per campaign, and the active count is at most the row count |
| DashboardPage.Page.constructor | src/pages/DashboardPage.tsx:10-12 | the page starts loading, with no error and an empty list |
| DashboardPage.Page.FetchCampaigns | src/pages/DashboardPage.tsx:14-30 | the new state is `AfterFetch` of the old state; the log grows by exactly the fetch's steps, in order |
| CampaignDetailsPage.AfterFetch | src/pages/CampaignDetailsPage.tsx:14-35 | loading always ends false; a missing or empty id stores "Campaign ID not found" and keeps the campaign; with an id, the error is cleared exactly when both requests succeed and the list holds the id, and then the stored campaign is exactly the first listed campaign with that id merged with the snapshot; a failed lookup stores "Failed to fetch campaign" and keeps the previous campaign |
| CampaignDetailsPage.FetchEffects | src/pages/CampaignDetailsPage.tsx:14-35 | without an id: two steps, ending with loading off; with an id: six steps, starting with loading on and ending with loading off |
| CampaignDetailsPage.FetchRequests | src/pages/CampaignDetailsPage.tsx:15-24 | without an id no request is issued; with one, the list request and that id's insights request are issued, in that order, whatever their outcome |
| CampaignDetailsPage.PrologueRequests | src/services/api.ts:86-89 | the steps before the lookup is awaited issue the list request, then the insights request |
| CampaignDetailsPage.SelectView | src/pages/CampaignDetailsPage.tsx:41-64 | loading exactly when loading is set; a retryable error exactly when not loading and the error is truthy, showing it; "Campaign Not Found" exactly when neither holds and no campaign is held; otherwise the details of the held campaign |
| CampaignDetailsPage.InitialViewIsLoading | src/pages/CampaignDetailsPage.tsx:10-12 | the first render shows the loading view |
| CampaignDetailsPage.NotFoundUnreachable | src/pages/CampaignDetailsPage.tsx:55-62 | after any fetch the "Campaign Not Found" view is never shown: it is either an error or the details |
| CampaignDetailsPage.MissingIdShowsError | src/pages/CampaignDetailsPage.tsx:15-19 | a missing or empty id shows a retryable error with "Campaign ID not found", and a retry leaves the state unchanged |
| CampaignDetailsPage.UnknownIdShowsGenericError | src/pages/CampaignDetailsPage.tsx:26-31 | an id absent from the list shows "Failed to fetch campaign", although the service's message was "Failed to fetch campaign: Campaign not found" |
| CampaignDetailsPage.FoundShowsDetails | src/pages/CampaignDetailsPage.tsx:24-25 | a listed id shows the details of a campaign with that id, the base fields of the first listed campaign with that id and the snapshot's metrics, whatever the page held before |
| CampaignDetailsPage.FailureHidesPreviousCampaign | src/pages/CampaignDetailsPage.tsx:26-34 | a failed lookup keeps the previous campaign in state but shows the error view |
| CampaignDetailsPage.Page.constructor | src/pages/CampaignDetailsPage.tsx:9-12 | the page starts loading for its route id, with no error and no campaign |
| CampaignDetailsPage.Page.FetchCampaign | src/pages/CampaignDetailsPage.tsx:14-35 | the id is unchanged; the new state is `AfterFetch` of the old state for that id; the log grows by exactly the fetch's steps |
| CampaignDetailsPage.Page.ChangeId | src/pages/CampaignDetailsPage.tsx:37-39 | a new route id is stored and the fetch re-runs for it without resetting the state; the same id changes nothing |

## Left out

- The HTTP client's configuration is not modelled: the base URL and its environment override, the 30-second timeout, and the JSON header. Requests are inputs.
- `axiosRetry.exponentialDelay`, the wait between retries, is not modelled: the model has no clock.
- `axiosRetry.isNetworkOrIdempotentRequestError` belongs to a library and is a boolean input of `Api.RetryCondition`. `Api.SendWithRetries` models the library's documented retry policy, not its code.
- Api.SendWithRetries: is not connected to the service functions. Each service function receives the final outcome of its request, after any retries.
- Concurrency is not modelled: `Promise.all` is modelled by its outcome only. The `listSettlesFirst` flag chooses which of two rejections wins, and each insights request of the enrichment is an independent input. Responses that arrive after the page has moved on, and overlapping fetches, are not modelled.
- Api.EnrichCampaignsWithInsights: the outer `catch` (lines 156-158) is an input flag, `outerThrows`. A typed list of campaigns cannot make the outer step throw.
- Money and counts are non-negative whole numbers. JavaScript numbers (floating point, fractional amounts, NaN from malformed data) are not modelled, except for the division by a zero budget in `CampaignDetails.ProgressWidth`.
- Number formatting is recorded, not carried out: `toLocaleString`, `toFixed` and the `$…k` tiles. `Presentation.Shown` keeps the number together with the call applied to it. `formatDate` (`toLocaleDateString`) keeps the raw date string (`LongDate`).
- Presentation.UpperChar: upper-cases only the ASCII letters a-z. JavaScript's `toUpperCase` also upper-cases other lower-case letters ("é" becomes "É").
- Presentation.UpperCase: maps only the ASCII letters a-z. JavaScript's `toUpperCase` is Unicode-aware and can lengthen a string ("ß" becomes "SS"), so the length-preserving contract holds for ASCII input only.
- Presentation.StatusLabel: `charAt(0)` takes a UTF-16 code unit, and upper-casing is ASCII only, as for `Presentation.UpperCase`.
- JSX markup, CSS classes other than the badge classes, icons, colours and layout are not modelled. The static components `Loading`, `Error`, `EmptyState`, `NotFound` and `Layout` appear only as the view each page selects.
- Routing (`App.tsx`, `useParams`) is not modelled. The route parameter is the `id` field of `CampaignDetailsPage.Page`, and `ChangeId` models the effect's dependency on it.
- The empty-state button's `console.log` is not modelled, because it has no effect on state.
- Rendering between a state update and the effect that follows it (for example one render with a new id and the previous campaign) is not modelled. The model observes the state when a fetch has finished.
