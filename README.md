# PageSpeed reporter — a Dafny model

This project models the data-shaping core of `PageSpeedReporter` in
`script.py`. The reporter is meant to ask the PageSpeed Insights API for a
Lighthouse analysis of each URL, once for the desktop strategy and once for
mobile. As written it never sends a request: the HTTP client module is used
but never imported (see "## Findings"). The model takes each round trip's
outcome as an input, so it covers both the intended behaviour and the program
as written. Each successful analysis becomes a result record:

- the url and the strategy;
- the performance score as a percentage;
- six named lab metrics;
- a list of improvement opportunities from a fixed five-key allow-list.

Any failure inside the analysis collapses to "no result" and prints one
inline error line. For a URL with both results, the reporter prints a report.
In the opportunities table it shows only opportunities with a score below 1,
each coloured by a three-tier scale.

Modules:

- `Wrappers`: `Option` and `Result` with failure propagation.
- `Sequences`: the one order-preserving selection (`Filter`) that the
  allow-list walk, the opportunity table and the report count share, with
  its membership and concatenation lemmas.
- `Lighthouse`: the part of the response document the reporter reads:
  - every key it looks up is an optional field or a map entry;
  - the outcome of the HTTP round trip is a `Fetch` value, either a decoded
    document or the message of the exception that stopped it;
  - a failure (`Failure`) renders as the text `str(e)` shows: a `KeyError`
    shows its key in single quotes.
- `Analyzer`: `analyze_url`'s `try` body as the function `Analyze`, plus
  `_get_metric` and `_get_opportunities`. `_get_opportunities` is both a
  recursive specification (`OpportunitiesFrom`) and the loop that builds the
  list (`GetOpportunities`). `Complete` characterises exactly the documents
  that analyse successfully.
- `Display`: `get_score_color`, and the selection and text of the
  opportunity table rows (`display_opportunities`).
- `Reporter`: the side of the reporter that drives the run and changes state.
  - The class `PageSpeedReporter` holds the printed console lines and the
    progress bar's total and completed count. A ghost field `trace` records
    each `analyze_url` invocation (an analysis attempted) and each progress
    step, in order.
  - Its methods are `analyze_url`, the progress step, `display_report` and
    `analyze_urls`. One loop iteration is split out as `AnalyzeOneUrl`.
  - `RunLog` specifies the whole console output of a run and `RunPlan` its
    order of steps. Lemmas state which URLs are reported and what a report
    shows.

The HTTP round trip is an input: `AnalyzeUrls` takes, for every URL, what its
desktop and its mobile round trips yield.

## Model

| member | source | states |
|---|---|---|
| `Sequences.FilterMembers` | script.py:105-106 | An element is selected iff it occurs in the input and satisfies the test, and there are no more selected elements than inputs. This is the shared selection used at script.py:67-68, 105-106 and 126-127. |
| `Sequences.FilterAppend` | script.py:105-106 | Selecting from two lists in turn concatenates the selections, so the input order is kept. |
| `Analyzer.GetMetric` | script.py:50-55 | Succeeds iff the audit has `score` and `displayValue`, which are copied. `value` is `numericValue / 1000` when present, else 0. A failure names the first missing key, `score` before `displayValue`. |
| `Analyzer.GetMetrics` | script.py:34-41 | Definition; specified by `Analyzer.GetMetricsShape`. |
| `Analyzer.GetMetricsShape` | script.py:34-41 | The metric entries succeed iff every listed audit id is in `audits` and its metric succeeds. They then hold exactly one entry per listed name, in the listed order, each the `_get_metric` of its audit. |
| `Analyzer.RoundHalfEven` | script.py:33 | Python's `round`: the result is within 0.5 of the input, and a tie goes to the even neighbour. |
| `Analyzer.PercentInRange` | script.py:33 | For a score in 0..1, `round(score * 100)` lies in 0..100 and within 0.5 of `score * 100`. |
| `Analyzer.ToOpportunity` | script.py:69-76 | An entry exists iff the audit has `title`, `description` and `score`, which are copied. `numericValue` defaults to 0 and `displayValue` to the empty string. |
| `Analyzer.PresentKeysMembers` | script.py:67-68 | A key is selected iff it is on the allow-list and in `audits`. At most one key is selected per allow-list entry. |
| `Analyzer.OpportunitiesFrom` | script.py:66-77 | Definition; specified by `Analyzer.OpportunitiesSucceed`, `Analyzer.OpportunitiesShape` and `Analyzer.OpportunitiesAppend`. |
| `Analyzer.OpportunitiesSucceed` | script.py:66-77 | The walk succeeds iff every allow-listed audit that is present has the required fields. |
| `Analyzer.OpportunitiesShape` | script.py:66-77 | On success: one entry per present allow-listed key, in allow-list order, with entry i built from the i-th present key's audit. |
| `Analyzer.OpportunitiesAppend` | script.py:67-76 | Walking two key lists in turn concatenates their entries. The first failing entry aborts the walk. |
| `Analyzer.OpportunitiesIgnoreOtherAudits` | script.py:58-68 | Audits outside the allow-list never influence the opportunity list. |
| `Analyzer.OpportunitiesBounded` | script.py:58-77 | The opportunity list has at most five entries. |
| `Analyzer.GetOpportunities` | script.py:57-77 | The loop over the allow-list returns exactly the specified walk, including its failure. |
| `Analyzer.ReadLabData` | script.py:27-41 | Definition; specified by `Analyzer.AnalyzeOutcome` and `Analyzer.AnalyzeErrors`. |
| `Analyzer.Analyze` | script.py:22-44 | Definition; specified by `Analyzer.AnalyzeOutcome` and `Analyzer.AnalyzeErrors`. |
| `Analyzer.AnalyzeOutcome` | script.py:22-44 | An analysis succeeds iff the document is complete. A success echoes the url and the strategy, and its score is the rounded percentage of the performance score. It has exactly the six metrics, by name, in report order, each the `_get_metric` of its audit, and it carries the opportunity list of the audits. |
| `Analyzer.AnalyzeErrors` | script.py:23-28 | The failures before the metrics, in lookup order: a failed round trip carries its own message; a missing `lighthouseResult`, `audits` or `categories` names that key. |
| `Display.GetScoreColor` | script.py:79-84 | Green iff score ≥ 90, yellow iff 50 ≤ score < 90, red iff score < 50. |
| `Display.GetScoreColorMonotone` | script.py:79-84 | A higher score never gets a worse tier. |
| `Display.Savings` | script.py:108 | The suffix is empty iff `displayValue` is empty. Otherwise it is the "Potential savings" prefix followed by `displayValue`. |
| `Display.RowOf` | script.py:107-111 | Definition; specified by `Display.RowOfText` and `Display.DisplayOpportunities`. |
| `Display.OpportunityRow.Text` | script.py:110-111 | Definition; specified by `Display.RowOfText`. |
| `Display.RowOfText` | script.py:107-111 | A row's text starts with the title wrapped in the tier colour and ends with the description on its own indented line. There is nothing between the two iff `displayValue` is empty. |
| `Display.Actionable` | script.py:105-106 | Definition; specified by `Display.ActionableMembers`. |
| `Display.ActionableMembers` | script.py:105-106 | An opportunity is shown iff it is in the input and its score is below 1. No more rows than inputs. |
| `Display.ShownRows` | script.py:105-112 | Definition; specified by `Display.ShownRowsAreActionable` and `Display.DisplayOpportunities`. |
| `Display.ShownRowsAreActionable` | script.py:105-112 | Every row shown is the row of an input opportunity whose score is below 1. |
| `Display.DisplayOpportunities` | script.py:101-113 | The loop yields one row per opportunity with score below 1, in input order. Each row has the tier of `score * 100`, the title, the savings suffix and the description. |
| `Reporter.ErrorLines` | script.py:47 | Definition; specified by `Reporter.PageSpeedReporter.AnalyzeUrl` and `Reporter.UrlLogShape`. |
| `Reporter.UrlLog` | script.py:119-127 | Definition; specified by `Reporter.UrlLogShape`, `Reporter.SuccessfulUrlIsReported` and `Reporter.FailedUrlIsNotReported`. |
| `Reporter.RunLog` | script.py:119-127 | Definition; specified by `Reporter.RunLogAt`, `Reporter.ReportsBounded` and `Reporter.ReportsAreReportsOf`. |
| `Reporter.UrlPlan` | script.py:120-124 | Definition; specified by `Reporter.RunPlanOrder`. |
| `Reporter.RunPlan` | script.py:119-124 | Definition; specified by `Reporter.RunPlanOrder` and `Reporter.AdvanceFollowsEveryAnalysis`. |
| `Reporter.ReportOf` | script.py:129-147 | Definition; specified by `Reporter.ReportedRowsAreActionable`. |
| `Reporter.UrlLogShape` | script.py:120-127 | Per URL: one error line per failed call, and one report, carrying both results, exactly when both calls succeeded. |
| `Reporter.RunPlanOrder` | script.py:119-124 | A run takes four steps per URL, URL by URL: the desktop analysis, a progress step, the mobile analysis, a progress step. |
| `Reporter.AdvanceFollowsEveryAnalysis` | script.py:120-124 | Every analysis in a run is directly followed by a progress step. |
| `Reporter.RunLogAt` | script.py:119-127 | The output of URL i sits after that of URLs 0..i-1 and before that of the later URLs. |
| `Reporter.ReportsBounded` | script.py:126-127 | A run prints at most one report per URL. |
| `Reporter.ReportsAreReportsOf` | script.py:126-127 | Every printed report is what `display_report` prints for its URL and its two results. |
| `Reporter.ReportedRowsAreActionable` | script.py:129-147 | In every printed report, each opportunity row of the desktop or the mobile table is the row of an opportunity of that result with score below 1. |
| `Reporter.SuccessfulUrlIsReported` | script.py:126-127 | A URL whose two analyses both succeed is reported with both results. |
| `Reporter.CompleteRepliesAreReported` | script.py:22-44 | With a working HTTP client, a URL whose two documents are complete is reported, carrying both analyses. |
| `Reporter.FailedUrlIsNotReported` | script.py:126-127 | A URL with a failed analysis contributes no report, only its error lines. |
| `Reporter.PageSpeedReporter.constructor` | script.py:10-12 | A new reporter has printed nothing, attempted no analysis and has an empty progress bar. |
| `Reporter.PageSpeedReporter.AnalyzeUrl` | script.py:14-48 | One `analyze_url` invocation is recorded, and the progress bar is untouched. The result is the analysis, or none on failure. A failure prints exactly one error line with the url, the strategy and the failure's message; a success prints nothing. |
| `Reporter.PageSpeedReporter.AdvanceProgress` | script.py:121 | The completed count grows by one, the total stays, one progress step is recorded, and nothing is printed. |
| `Reporter.PageSpeedReporter.DisplayReport` | script.py:129-147 | Appends the report of the URL, whose two opportunity tables are those `display_opportunities` builds from the two results. Nothing else changes. |
| `Reporter.PageSpeedReporter.AnalyzeOneUrl` | script.py:119-127 | One URL, in this order: the desktop analysis, a progress step, the mobile analysis, a progress step; the completed count grows by two. Then the report is printed iff both succeeded. |
| `Reporter.PageSpeedReporter.AnalyzeUrls` | script.py:115-127 | The progress total is 2·len(urls) and the completed count ends there. The steps are exactly the run plan, with a progress step after every analysis. Each outcome is both analyses of its URL. The console gains exactly the specified run output. |
| `Reporter.AnalyzeAsWritten` | script.py:1-7 | As written, both analyses of every URL fail with the `NameError` message for `requests`. |
| `Reporter.FailingRunNeverReports` | script.py:46-48 | When every call fails that way, the run prints two error lines per URL, desktop first, and no report. |
| `Reporter.RunAsWrittenNeverReports` | script.py:23 | The run as written prints only error lines, two per URL, and never a report. |

## Left out

- The HTTP request, `raise_for_status` and JSON decoding are an input. A
  round trip is either a decoded document or the message of the exception
  that stopped it.
- `AnalyzeUrls` takes the round-trip results as a list with one desktop and
  one mobile reply per URL. It does not model a server whose answers depend
  on earlier calls.
- A JSON `null` score is not modelled. Scores are exact reals, and every
  listed key is either present or absent.
- Floating point is not modelled. `numericValue / 1000` and `score * 100` are
  exact real arithmetic; `round` is exact round-half-to-even on reals.
- `display_metrics` and the rest of the rendering in `display_report` are
  not modelled: Rich panels, tables, markup, the `.title()` of the strategy,
  and the `:.0f` formatting. A report is recorded as one console line
  carrying both results and the opportunity rows of each.
- The opportunity rows are records of their text parts. `OpportunityRow.Text`
  gives the row's markup, but no table layout is modelled.
- The message of an HTTP or decoding failure is an opaque string.
- `Progress` is only its total and completed count. The bar is local to
  `analyze_urls` in the source; the model keeps the two counts as fields of the
  reporter, reset at the start of every run. Its spinner, rendering and task
  description are not modelled.
- API key resolution is not modelled: `'API_KEY_HERE' or ...` always yields
  the literal, and the key is only sent over the network.
- The `ThreadPoolExecutor` import is unused and not modelled.
- The `__main__` block holds only fixed configuration and is not modelled.

## Findings

| source | as written | input that shows it | evidently intended | confidence | as-written member | corrected member |
|---|---|---|---|---|---|---|
| script.py:1-7, script.py:23 | The module `requests` is used but never imported. Every `analyze_url` call raises `NameError` inside the `try`, so every analysis prints `Error analyzing <url> (<strategy>): name 'requests' is not defined` and returns `None`. No report is ever printed. | `analyze_urls(['https://example.com'])`: two error lines, no report | `import requests`; with a working client, a URL whose two documents are complete is reported | not executed | `Reporter.RunAsWrittenNeverReports` | `Reporter.CompleteRepliesAreReported` |

The corrected model takes each HTTP round trip's result as an input to
`Reporter.PageSpeedReporter.AnalyzeUrls`. The as-written program is that same
model with every round trip failing as `ReplyAsWritten` says.
