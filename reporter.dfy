/**
 * The driving side of `PageSpeedReporter`: `analyze_url` with its catch-all
 * `except`, the `analyze_urls` loop with its progress counter, and the gate on
 * `display_report`. The console is the sequence of lines the reporter has
 * printed; the HTTP round trip of each analysis is an input.
 */
module Reporter {
  import opened Wrappers
  import opened Lighthouse
  import opened Analyzer
  import opened Display
  import opened Sequences

  /** What the two HTTP round trips for one URL yield, desktop first. */
  datatype UrlReplies = UrlReplies(desktop: Fetch, mobile: Fetch)

  /** What the two analyses of one URL came to. */
  datatype UrlOutcome = UrlOutcome(desktop: Result<AnalysisResult, Failure>, mobile: Result<AnalysisResult, Failure>)

  /** The steps of a run, in order: an `analyze_url` invocation, or one
      advance of the progress counter. */
  datatype Event = AnalyzeCall(url: string, strategy: Strategy) | Advance

  /** What the reporter prints: an inline error for a failed analysis, or the
      report of one URL with the opportunity rows of both results (the rest of
      the report's rendering is not modelled). */
  datatype ConsoleLine =
    | AnalysisError(url: string, strategy: Strategy, message: string)
    | Report(url: string, desktop: AnalysisResult, mobile: AnalysisResult,
             desktopRows: seq<OpportunityRow>, mobileRows: seq<OpportunityRow>)

  predicate IsReport(line: ConsoleLine) {
    line.Report?
  }

  /** The report `display_report` prints for one URL. */
  function ReportOf(url: string, desktop: AnalysisResult, mobile: AnalysisResult): ConsoleLine {
    Report(url, desktop, mobile, ShownRows(desktop.opportunities), ShownRows(mobile.opportunities))
  }

  function AnalyzePair(url: string, replies: UrlReplies): UrlOutcome {
    UrlOutcome(Analyze(url, Desktop, replies.desktop), Analyze(url, Mobile, replies.mobile))
  }

  /** `outcomes[j]` is what the two analyses of `urls[j]` came to, when their
      round trips yielded `replies[j]`. */
  ghost predicate Answers(urls: seq<string>, replies: seq<UrlReplies>, outcomes: seq<UrlOutcome>, j: int)
    requires 0 <= j < |outcomes| <= |urls| == |replies|
  {
    outcomes[j] == AnalyzePair(urls[j], replies[j])
  }

  /** Every outcome so far is the analysis of its URL and replies. */
  ghost predicate Analyzed(urls: seq<string>, replies: seq<UrlReplies>, outcomes: seq<UrlOutcome>) {
    && |outcomes| <= |urls| == |replies|
    && forall j :: 0 <= j < |outcomes| ==> Answers(urls, replies, outcomes, j)
  }

  /** Extending the lists by one URL, answered by one more pair of replies. */
  lemma AnalyzedSnoc(urls: seq<string>, replies: seq<UrlReplies>, outcomes: seq<UrlOutcome>,
                     url: string, reply: UrlReplies, outcome: UrlOutcome)
    requires Analyzed(urls, replies, outcomes) && |outcomes| == |urls|
    requires Analyzed([url], [reply], [outcome])
    ensures Analyzed(urls + [url], replies + [reply], outcomes + [outcome])
  {
    var u, r, o := urls + [url], replies + [reply], outcomes + [outcome];
    forall j | 0 <= j < |o|
      ensures Answers(u, r, o, j)
    {
      if j < |outcomes| {
        assert Answers(urls, replies, outcomes, j);
        assert o[j] == outcomes[j] && u[j] == urls[j] && r[j] == replies[j];
      } else {
        assert Answers([url], [reply], [outcome], 0);
      }
    }
  }

  /** The console output of one `analyze_url` call with the given outcome. */
  function ErrorLines(url: string, strategy: Strategy, outcome: Result<AnalysisResult, Failure>): seq<ConsoleLine> {
    match outcome
    case Ok(_) => []
    case Err(e) => [AnalysisError(url, strategy, e.Message())]
  }

  /** The console output of one iteration of the URL loop. */
  function UrlLog(url: string, outcome: UrlOutcome): seq<ConsoleLine> {
    ErrorLines(url, Desktop, outcome.desktop) + ErrorLines(url, Mobile, outcome.mobile) +
    (if outcome.desktop.Ok? && outcome.mobile.Ok? then [ReportOf(url, outcome.desktop.value, outcome.mobile.value)] else [])
  }

  /** The console output of the whole loop, given what each URL's analyses came to. */
  function RunLog(urls: seq<string>, outcomes: seq<UrlOutcome>): seq<ConsoleLine>
    requires |outcomes| == |urls|
  {
    if urls == [] then []
    else UrlLog(urls[0], outcomes[0]) + RunLog(urls[1..], outcomes[1..])
  }

  /** The steps of one iteration of the URL loop. */
  function UrlPlan(url: string): seq<Event> {
    [AnalyzeCall(url, Desktop), Advance, AnalyzeCall(url, Mobile), Advance]
  }

  /** The steps of the whole loop, in order. */
  function RunPlan(urls: seq<string>): seq<Event> {
    if urls == [] then []
    else UrlPlan(urls[0]) + RunPlan(urls[1..])
  }

  /** The reports among the printed lines. */
  function Reports(log: seq<ConsoleLine>): seq<ConsoleLine> {
    Filter(IsReport, log)
  }

  /** Per URL: one error line per failed call, and a report (carrying both
      results, after the errors) exactly when both calls succeeded. */
  lemma UrlLogShape(url: string, outcome: UrlOutcome)
    ensures Reports(UrlLog(url, outcome)) ==
              if outcome.desktop.Ok? && outcome.mobile.Ok?
              then [ReportOf(url, outcome.desktop.value, outcome.mobile.value)] else []
    ensures |UrlLog(url, outcome)| ==
              (if outcome.desktop.Ok? then 0 else 1) + (if outcome.mobile.Ok? then 0 else 1) +
              (if outcome.desktop.Ok? && outcome.mobile.Ok? then 1 else 0)
  {
    var desktopLines, mobileLines := ErrorLines(url, Desktop, outcome.desktop), ErrorLines(url, Mobile, outcome.mobile);
    var tail := if outcome.desktop.Ok? && outcome.mobile.Ok?
                then [ReportOf(url, outcome.desktop.value, outcome.mobile.value)] else [];
    FilterAppend(IsReport, desktopLines, mobileLines);
    FilterAppend(IsReport, desktopLines + mobileLines, tail);
    if outcome.desktop.Err? {
      FilterSingleton(IsReport, desktopLines[0]);
    }
    if outcome.mobile.Err? {
      FilterSingleton(IsReport, mobileLines[0]);
    }
    if tail != [] {
      FilterSingleton(IsReport, tail[0]);
    }
  }

  /** The loop's output over two URL lists run one after the other. */
  lemma {:induction false} RunLogAppend(a: seq<string>, b: seq<string>, oa: seq<UrlOutcome>, ob: seq<UrlOutcome>)
    requires |oa| == |a| && |ob| == |b|
    ensures RunLog(a + b, oa + ob) == RunLog(a, oa) + RunLog(b, ob)
  {
    if a == [] {
      assert a + b == b && oa + ob == ob;
    } else {
      assert (a + b)[0] == a[0] && (a + b)[1..] == a[1..] + b;
      assert (oa + ob)[0] == oa[0] && (oa + ob)[1..] == oa[1..] + ob;
      RunLogAppend(a[1..], b, oa[1..], ob);
    }
  }

  /** One more URL adds its own output at the end. */
  lemma RunLogSnoc(prefix: seq<string>, url: string, outcomes: seq<UrlOutcome>, outcome: UrlOutcome)
    requires |outcomes| == |prefix|
    ensures RunLog(prefix + [url], outcomes + [outcome]) == RunLog(prefix, outcomes) + UrlLog(url, outcome)
  {
    RunLogAppend(prefix, [url], outcomes, [outcome]);
    assert RunLog([url], [outcome]) == UrlLog(url, outcome) + RunLog([], []);
  }

  lemma {:induction false} RunPlanAppend(a: seq<string>, b: seq<string>)
    ensures RunPlan(a + b) == RunPlan(a) + RunPlan(b)
  {
    if a == [] {
      assert a + b == b;
    } else {
      assert (a + b)[0] == a[0] && (a + b)[1..] == a[1..] + b;
      RunPlanAppend(a[1..], b);
    }
  }

  /** One more URL adds its own steps at the end. */
  lemma RunPlanSnoc(prefix: seq<string>, url: string)
    ensures RunPlan(prefix + [url]) == RunPlan(prefix) + UrlPlan(url)
  {
    RunPlanAppend(prefix, [url]);
    assert RunPlan([url]) == UrlPlan(url) + RunPlan([]);
  }

  /** What one more iteration of the URL loop adds: its steps, its output,
      and its outcome. */
  lemma RunStep(urls: seq<string>, replies: seq<UrlReplies>, outcomes: seq<UrlOutcome>, i: nat, outcome: UrlOutcome)
    requires i == |outcomes| && i < |urls| == |replies|
    requires Analyzed(urls[..i], replies[..i], outcomes)
    requires Analyzed([urls[i]], [replies[i]], [outcome])
    ensures RunPlan(urls[..i + 1]) == RunPlan(urls[..i]) + UrlPlan(urls[i])
    ensures RunLog(urls[..i + 1], outcomes + [outcome]) == RunLog(urls[..i], outcomes) + UrlLog(urls[i], outcome)
    ensures Analyzed(urls[..i + 1], replies[..i + 1], outcomes + [outcome])
  {
    TakeSnoc(urls, i);
    TakeSnoc(replies, i);
    RunPlanSnoc(urls[..i], urls[i]);
    RunLogSnoc(urls[..i], urls[i], outcomes, outcome);
    AnalyzedSnoc(urls[..i], replies[..i], outcomes, urls[i], replies[i], outcome);
  }

  /** Four steps per URL. */
  lemma {:induction false} RunPlanLength(urls: seq<string>)
    ensures |RunPlan(urls)| == 4 * |urls|
  {
    if urls != [] {
      RunPlanLength(urls[1..]);
    }
  }

  /** The steps for URL i sit between the steps of the URLs before and after it. */
  lemma RunPlanAt(urls: seq<string>, i: nat)
    requires i < |urls|
    ensures RunPlan(urls) == RunPlan(urls[..i]) + UrlPlan(urls[i]) + RunPlan(urls[i + 1..])
  {
    var rest := urls[i..];
    assert urls == urls[..i] + rest;
    RunPlanAppend(urls[..i], rest);
    assert rest[0] == urls[i] && rest[1..] == urls[i + 1..];
  }

  /** The desktop analysis, a progress step, the mobile analysis, a progress
      step, URL by URL. */
  lemma RunPlanOrder(urls: seq<string>)
    ensures |RunPlan(urls)| == 4 * |urls|
    ensures forall i :: 0 <= i < |urls| ==>
              && RunPlan(urls)[4 * i] == AnalyzeCall(urls[i], Desktop)
              && RunPlan(urls)[4 * i + 1] == Advance
              && RunPlan(urls)[4 * i + 2] == AnalyzeCall(urls[i], Mobile)
              && RunPlan(urls)[4 * i + 3] == Advance
  {
    RunPlanLength(urls);
    forall i | 0 <= i < |urls|
      ensures RunPlan(urls)[4 * i] == AnalyzeCall(urls[i], Desktop) && RunPlan(urls)[4 * i + 1] == Advance
      ensures RunPlan(urls)[4 * i + 2] == AnalyzeCall(urls[i], Mobile) && RunPlan(urls)[4 * i + 3] == Advance
    {
      RunPlanAt(urls, i);
      RunPlanLength(urls[..i]);
      var before := RunPlan(urls[..i]);
      assert RunPlan(urls)[4 * i..4 * i + 4] == UrlPlan(urls[i]);
    }
  }

  /** The progress counter advances right after every analysis. */
  lemma {:induction false} AdvanceFollowsEveryAnalysis(urls: seq<string>)
    ensures forall k :: 0 <= k < |RunPlan(urls)| && RunPlan(urls)[k].AnalyzeCall? ==>
              k + 1 < |RunPlan(urls)| && RunPlan(urls)[k + 1] == Advance
  {
    if urls != [] {
      AdvanceFollowsEveryAnalysis(urls[1..]);
      var plan, rest := RunPlan(urls), RunPlan(urls[1..]);
      assert plan == UrlPlan(urls[0]) + rest;
      forall k | 4 <= k < |plan| && plan[k].AnalyzeCall?
        ensures k + 1 < |plan| && plan[k + 1] == Advance
      {
        assert plan[k] == rest[k - 4];
        assert k + 1 < |plan| ==> plan[k + 1] == rest[k - 3];
      }
    }
  }

  /** The output for URL i sits between the outputs of the URLs before and
      after it. */
  lemma RunLogAt(urls: seq<string>, outcomes: seq<UrlOutcome>, i: nat)
    requires |outcomes| == |urls| && i < |urls|
    ensures RunLog(urls, outcomes) ==
            RunLog(urls[..i], outcomes[..i]) + UrlLog(urls[i], outcomes[i]) + RunLog(urls[i + 1..], outcomes[i + 1..])
  {
    var rest, later := urls[i..], outcomes[i..];
    assert urls == urls[..i] + rest;
    assert outcomes == outcomes[..i] + later;
    RunLogAppend(urls[..i], rest, outcomes[..i], later);
    assert rest[0] == urls[i] && rest[1..] == urls[i + 1..];
    assert later[0] == outcomes[i] && later[1..] == outcomes[i + 1..];
  }

  /** There is at most one report per URL. */
  lemma {:induction false} ReportsBounded(urls: seq<string>, outcomes: seq<UrlOutcome>)
    requires |outcomes| == |urls|
    ensures |Reports(RunLog(urls, outcomes))| <= |urls|
  {
    if urls != [] {
      ReportsBounded(urls[1..], outcomes[1..]);
      UrlLogShape(urls[0], outcomes[0]);
      FilterAppend(IsReport, UrlLog(urls[0], outcomes[0]), RunLog(urls[1..], outcomes[1..]));
    }
  }

  /** Every printed report is the one `display_report` prints for its URL
      and results. */
  lemma {:induction false} ReportsAreReportsOf(urls: seq<string>, outcomes: seq<UrlOutcome>)
    requires |outcomes| == |urls|
    ensures forall line :: line in RunLog(urls, outcomes) && line.Report? ==>
              line == ReportOf(line.url, line.desktop, line.mobile)
  {
    if urls != [] {
      ReportsAreReportsOf(urls[1..], outcomes[1..]);
      assert RunLog(urls, outcomes) == UrlLog(urls[0], outcomes[0]) + RunLog(urls[1..], outcomes[1..]);
    }
  }

  /** A printed report shows only opportunities of its results that score
      below 1. */
  lemma ReportedRowsAreActionable(urls: seq<string>, outcomes: seq<UrlOutcome>)
    requires |outcomes| == |urls|
    ensures forall line, row :: line in RunLog(urls, outcomes) && line.Report? && row in line.desktopRows ==>
              exists o :: o in line.desktop.opportunities && o.score < 1.0 && row == RowOf(o)
    ensures forall line, row :: line in RunLog(urls, outcomes) && line.Report? && row in line.mobileRows ==>
              exists o :: o in line.mobile.opportunities && o.score < 1.0 && row == RowOf(o)
  {
    ReportsAreReportsOf(urls, outcomes);
    forall line | line in RunLog(urls, outcomes) && line.Report?
      ensures forall row :: row in line.desktopRows ==>
                exists o :: o in line.desktop.opportunities && o.score < 1.0 && row == RowOf(o)
      ensures forall row :: row in line.mobileRows ==>
                exists o :: o in line.mobile.opportunities && o.score < 1.0 && row == RowOf(o)
    {
      ShownRowsAreActionable(line.desktop.opportunities);
      ShownRowsAreActionable(line.mobile.opportunities);
    }
  }

  /** A URL whose two calls both succeed is reported, with both results. */
  lemma SuccessfulUrlIsReported(urls: seq<string>, outcomes: seq<UrlOutcome>, i: nat)
    requires |outcomes| == |urls| && i < |urls|
    requires outcomes[i].desktop.Ok? && outcomes[i].mobile.Ok?
    ensures ReportOf(urls[i], outcomes[i].desktop.value, outcomes[i].mobile.value) in RunLog(urls, outcomes)
  {
    RunLogAt(urls, outcomes, i);
    var log := UrlLog(urls[i], outcomes[i]);
    assert log[|log| - 1] == ReportOf(urls[i], outcomes[i].desktop.value, outcomes[i].mobile.value);
  }

  /** With a working HTTP client: a URL whose two replies are complete
      documents is reported, carrying both analyses. */
  lemma CompleteRepliesAreReported(urls: seq<string>, replies: seq<UrlReplies>, outcomes: seq<UrlOutcome>, i: nat)
    requires |outcomes| == |urls| && Analyzed(urls, replies, outcomes) && i < |urls|
    requires Complete(replies[i].desktop) && Complete(replies[i].mobile)
    ensures Analyze(urls[i], Desktop, replies[i].desktop).Ok? && Analyze(urls[i], Mobile, replies[i].mobile).Ok?
    ensures ReportOf(urls[i], Analyze(urls[i], Desktop, replies[i].desktop).value,
                     Analyze(urls[i], Mobile, replies[i].mobile).value) in RunLog(urls, outcomes)
  {
    assert Answers(urls, replies, outcomes, i);
    AnalyzeOutcome(urls[i], Desktop, replies[i].desktop);
    AnalyzeOutcome(urls[i], Mobile, replies[i].mobile);
    SuccessfulUrlIsReported(urls, outcomes, i);
  }

  /** A URL with a failed call is never reported: its part of the output
      holds only its error lines. */
  lemma FailedUrlIsNotReported(urls: seq<string>, outcomes: seq<UrlOutcome>, i: nat)
    requires |outcomes| == |urls| && i < |urls|
    requires outcomes[i].desktop.Err? || outcomes[i].mobile.Err?
    ensures Reports(UrlLog(urls[i], outcomes[i])) == []
    ensures RunLog(urls, outcomes) ==
            RunLog(urls[..i], outcomes[..i]) + UrlLog(urls[i], outcomes[i]) + RunLog(urls[i + 1..], outcomes[i + 1..])
  {
    RunLogAt(urls, outcomes, i);
    UrlLogShape(urls[i], outcomes[i]);
  }

  class PageSpeedReporter {
    /** Everything printed so far. */
    var console: seq<ConsoleLine>
    /** The progress bar of the current run: its total and how far it got. */
    var progressTotal: nat
    var progressCompleted: nat
    /** Every `analyze_url` invocation and progress step so far. */
    ghost var trace: seq<Event>

    constructor ()
      ensures console == [] && trace == []
      ensures progressTotal == 0 && progressCompleted == 0
    {
      console := [];
      progressTotal := 0;
      progressCompleted := 0;
      trace := [];
    }

    /** `analyze_url`: any failure prints one error line naming the url, the
        strategy and the message, and yields no result. */
    method AnalyzeUrl(url: string, strategy: Strategy, reply: Fetch) returns (r: Option<AnalysisResult>)
      modifies this
      ensures trace == old(trace) + [AnalyzeCall(url, strategy)]
      ensures progressTotal == old(progressTotal) && progressCompleted == old(progressCompleted)
      ensures r == Analyze(url, strategy, reply).ToOption()
      ensures console == old(console) + ErrorLines(url, strategy, Analyze(url, strategy, reply))
    {
      trace := trace + [AnalyzeCall(url, strategy)];
      var lab := ReadLabData(reply);
      if lab.Err? {
        console := console + [AnalysisError(url, strategy, lab.error.Message())];
        return None;
      }
      var opportunities := GetOpportunities(lab.value.audits);
      if opportunities.Err? {
        console := console + [AnalysisError(url, strategy, opportunities.error.Message())];
        return None;
      }
      r := Some(AnalysisResult(url, strategy, Percent(lab.value.performance), lab.value.metrics, opportunities.value));
    }

    /** `progress.update(task, advance=1)`. */
    method AdvanceProgress()
      modifies this
      ensures progressCompleted == old(progressCompleted) + 1 && progressTotal == old(progressTotal)
      ensures trace == old(trace) + [Advance]
      ensures console == old(console)
    {
      progressCompleted := progressCompleted + 1;
      trace := trace + [Advance];
    }

    /** `display_report`: prints the report of one URL, with the opportunity
        table of each result. */
    method DisplayReport(url: string, desktop: AnalysisResult, mobile: AnalysisResult)
      modifies this
      ensures trace == old(trace)
      ensures progressTotal == old(progressTotal) && progressCompleted == old(progressCompleted)
      ensures console == old(console) + [ReportOf(url, desktop, mobile)]
    {
      var desktopRows := DisplayOpportunities(desktop.opportunities);
      var mobileRows := DisplayOpportunities(mobile.opportunities);
      console := console + [Report(url, desktop, mobile, desktopRows, mobileRows)];
    }

    /** One iteration of the `analyze_urls` loop: desktop, then mobile, each
        followed by a progress step, then the report if both succeeded. */
    method AnalyzeOneUrl(url: string, replies: UrlReplies) returns (ghost outcome: UrlOutcome)
      modifies this
      ensures Analyzed([url], [replies], [outcome])
      ensures trace == old(trace) + UrlPlan(url)
      ensures progressTotal == old(progressTotal) && progressCompleted == old(progressCompleted) + 2
      ensures console == old(console) + UrlLog(url, outcome)
    {
      var desktop := AnalyzeUrl(url, Desktop, replies.desktop);
      AdvanceProgress();
      var mobile := AnalyzeUrl(url, Mobile, replies.mobile);
      AdvanceProgress();
      if desktop.Some? && mobile.Some? {
        DisplayReport(url, desktop.value, mobile.value);
      }
      outcome := AnalyzePair(url, replies);
      assert Answers([url], [replies], [outcome], 0);
    }

    /** `analyze_urls`: the URLs in order, with a progress bar whose total is
        two steps per URL. `replies[i]` is what the round trips for `urls[i]`
        yield; `outcomes[i]` is what its two analyses came to. */
    method AnalyzeUrls(urls: seq<string>, replies: seq<UrlReplies>) returns (ghost outcomes: seq<UrlOutcome>)
      requires |replies| == |urls|
      modifies this
      ensures progressTotal == 2 * |urls| && progressCompleted == progressTotal
      ensures trace == old(trace) + RunPlan(urls)
      ensures |outcomes| == |urls|
      ensures Analyzed(urls, replies, outcomes)
      ensures console == old(console) + RunLog(urls, outcomes)
    {
      progressTotal := |urls| * 2;
      progressCompleted := 0;
      outcomes := [];
      for i := 0 to |urls|
        invariant progressTotal == 2 * |urls| && progressCompleted == 2 * i && |outcomes| == i
        invariant Analyzed(urls[..i], replies[..i], outcomes)
        invariant trace == old(trace) + RunPlan(urls[..i])
        invariant console == old(console) + RunLog(urls[..i], outcomes)
      {
        var outcome := AnalyzeOneUrl(urls[i], replies[i]);
        RunStep(urls, replies, outcomes, i, outcome);
        outcomes := outcomes + [outcome];
      }
      assert urls[..|urls|] == urls && replies[..|urls|] == replies;
    }
  }

  // ---------------------------------------------------------------------
  // The HTTP client module is never imported, so every analysis, as
  // written, raises NameError inside the `try` and collapses to "no result".

  const RequestsUndefined: string := "name 'requests' is not defined"

  /** The outcome of every HTTP round trip as the program is written: none
      is ever sent. */
  function ReplyAsWritten(url: string, strategy: Strategy): Fetch {
    FetchFailed(RequestsUndefined)
  }

  function RepliesAsWritten(url: string): UrlReplies {
    UrlReplies(ReplyAsWritten(url, Desktop), ReplyAsWritten(url, Mobile))
  }

  /** What the two analyses of any URL come to as written. */
  const OutcomeAsWritten: UrlOutcome := UrlOutcome(Err(FetchError(RequestsUndefined)), Err(FetchError(RequestsUndefined)))

  /** As written, both analyses of every URL fail with the same message. */
  lemma AnalyzeAsWritten(url: string)
    ensures AnalyzePair(url, RepliesAsWritten(url)) == OutcomeAsWritten
  {
  }

  /** A run in which every analysis fails as written prints two error lines
      per URL, desktop first, and never a report. */
  lemma {:induction false} FailingRunNeverReports(urls: seq<string>, outcomes: seq<UrlOutcome>)
    requires |outcomes| == |urls|
    requires forall i :: 0 <= i < |urls| ==> outcomes[i] == OutcomeAsWritten
    ensures |RunLog(urls, outcomes)| == 2 * |urls|
    ensures forall i :: 0 <= i < |urls| ==>
              RunLog(urls, outcomes)[2 * i] == AnalysisError(urls[i], Desktop, RequestsUndefined) &&
              RunLog(urls, outcomes)[2 * i + 1] == AnalysisError(urls[i], Mobile, RequestsUndefined)
    ensures Reports(RunLog(urls, outcomes)) == []
  {
    if urls != [] {
      assert forall i :: 0 <= i < |urls[1..]| ==> outcomes[1..][i] == OutcomeAsWritten;
      FailingRunNeverReports(urls[1..], outcomes[1..]);
      var head := UrlLog(urls[0], outcomes[0]);
      var tail := RunLog(urls[1..], outcomes[1..]);
      assert head == [AnalysisError(urls[0], Desktop, RequestsUndefined), AnalysisError(urls[0], Mobile, RequestsUndefined)];
      var log := RunLog(urls, outcomes);
      assert log == head + tail;
      forall i | 1 <= i < |urls|
        ensures log[2 * i] == AnalysisError(urls[i], Desktop, RequestsUndefined)
        ensures log[2 * i + 1] == AnalysisError(urls[i], Mobile, RequestsUndefined)
      {
        assert log[2 * i] == tail[2 * (i - 1)] && log[2 * i + 1] == tail[2 * (i - 1) + 1];
        assert urls[1..][i - 1] == urls[i];
      }
      FilterAppend(IsReport, head, tail);
      assert Reports(head) == [] by {
        assert head == [head[0]] + [head[1]];
        FilterAppend(IsReport, [head[0]], [head[1]]);
        FilterSingleton(IsReport, head[0]);
        FilterSingleton(IsReport, head[1]);
      }
    }
  }

  /** As written, `analyze_urls` (whose outcomes are those of `AnalyzeUrls`)
      prints two error lines per URL and never a report. */
  lemma RunAsWrittenNeverReports(urls: seq<string>, replies: seq<UrlReplies>, outcomes: seq<UrlOutcome>)
    requires |outcomes| == |urls| && Analyzed(urls, replies, outcomes)
    requires forall i :: 0 <= i < |urls| ==> replies[i] == RepliesAsWritten(urls[i])
    ensures |RunLog(urls, outcomes)| == 2 * |urls|
    ensures forall i :: 0 <= i < |urls| ==>
              RunLog(urls, outcomes)[2 * i] == AnalysisError(urls[i], Desktop, RequestsUndefined) &&
              RunLog(urls, outcomes)[2 * i + 1] == AnalysisError(urls[i], Mobile, RequestsUndefined)
    ensures Reports(RunLog(urls, outcomes)) == []
  {
    forall i | 0 <= i < |urls|
      ensures outcomes[i] == OutcomeAsWritten
    {
      assert Answers(urls, replies, outcomes, i);
      AnalyzeAsWritten(urls[i]);
    }
    FailingRunNeverReports(urls, outcomes);
  }
}
