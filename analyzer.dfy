/**
 * The Analyzer: turns one decoded PageSpeed response into a normalised
 * analysis record (`analyze_url`, `_get_metric`, `_get_opportunities`).
 * Every lookup failure inside the source's `try` block is a `Failure`; the
 * caller collapses all of them into "no result".
 */
module Analyzer {
  import opened Wrappers
  import opened Lighthouse
  import opened Sequences

  /** The device context of a request. */
  datatype Strategy = Desktop | Mobile {
    function Name(): string {
      match this
      case Desktop => "desktop"
      case Mobile => "mobile"
    }
  }

  datatype MetricValue = MetricValue(score: real, value: real, displayValue: string)

  datatype NamedMetric = NamedMetric(name: string, metric: MetricValue)

  datatype Opportunity = Opportunity(
    title: string,
    description: string,
    score: real,
    numericValue: real,
    displayValue: string)

  datatype AnalysisResult = AnalysisResult(
    url: string,
    strategy: Strategy,
    score: int,
    metrics: seq<NamedMetric>,
    opportunities: seq<Opportunity>)

  /** The six reported metrics: display name and audit id, in report order. */
  const MetricAudits: seq<(string, string)> := [
    ("First Contentful Paint", "first-contentful-paint"),
    ("Speed Index", "speed-index"),
    ("Largest Contentful Paint", "largest-contentful-paint"),
    ("Time to Interactive", "interactive"),
    ("Total Blocking Time", "total-blocking-time"),
    ("Cumulative Layout Shift", "cumulative-layout-shift")
  ]

  /** The allow-list of opportunity audits, in report order. */
  const OpportunityKeys: seq<string> := [
    "render-blocking-resources",
    "unused-css-rules",
    "unused-javascript",
    "modern-image-formats",
    "offscreen-images"
  ]

  // ---------------------------------------------------------------------
  // Performance score

  /** Python's `round` on a number: the nearest integer, ties to even. */
  function RoundHalfEven(x: real): (n: int)
    ensures x - 0.5 <= n as real <= x + 0.5
    ensures (n as real - x == 0.5 || x - n as real == 0.5) ==> n % 2 == 0
  {
    var f := x.Floor;
    var d := x - f as real;
    if d < 0.5 then f
    else if d > 0.5 then f + 1
    else if f % 2 == 0 then f
    else f + 1
  }

  /** `round(score * 100)`: a 0..1 score as an integer percentage. */
  function Percent(score: real): int {
    RoundHalfEven(score * 100.0)
  }

  lemma PercentInRange(score: real)
    requires 0.0 <= score <= 1.0
    ensures 0 <= Percent(score) <= 100
    ensures Percent(score) as real - 0.5 <= score * 100.0 <= Percent(score) as real + 0.5
  {
  }

  // ---------------------------------------------------------------------
  // Metrics

  /** `_get_metric`: `score` and `displayValue` are required, `numericValue` is
      converted from milliseconds to seconds and defaults to 0. */
  function GetMetric(audit: Audit): (r: Result<MetricValue, Failure>)
    ensures r.Ok? <==> audit.score.Some? && audit.displayValue.Some?
    ensures r.Ok? ==> r.value.score == audit.score.value
    ensures r.Ok? ==> r.value.displayValue == audit.displayValue.value
    ensures r.Ok? && audit.numericValue.Some? ==> r.value.value * 1000.0 == audit.numericValue.value
    ensures r.Ok? && audit.numericValue.None? ==> r.value.value == 0.0
    ensures r.Err? ==> r.error == MissingKey(if audit.score.None? then "score" else "displayValue")
  {
    var score :- Field(audit.score, "score");
    var value := if audit.numericValue.Some? then audit.numericValue.value / 1000.0 else 0.0;
    var displayValue :- Field(audit.displayValue, "displayValue");
    Ok(MetricValue(score, value, displayValue))
  }

  /** The metric entries of the result dictionary, built in the order given. */
  function GetMetrics(audits: map<string, Audit>, specs: seq<(string, string)>): Result<seq<NamedMetric>, Failure> {
    if specs == [] then Ok([])
    else
      var audit :- Lookup(audits, specs[0].1);
      var metric :- GetMetric(audit);
      var rest :- GetMetrics(audits, specs[1..]);
      Ok([NamedMetric(specs[0].0, metric)] + rest)
  }

  /** The metrics succeed iff every listed audit is present with its required
      fields, and then yield one entry per listed name, in the listed order. */
  lemma {:induction false} GetMetricsShape(audits: map<string, Audit>, specs: seq<(string, string)>)
    ensures GetMetrics(audits, specs).Ok? <==>
            forall i :: 0 <= i < |specs| ==> specs[i].1 in audits && GetMetric(audits[specs[i].1]).Ok?
    ensures GetMetrics(audits, specs).Ok? ==>
            |GetMetrics(audits, specs).value| == |specs| &&
            forall i :: 0 <= i < |specs| ==>
              specs[i].1 in audits && GetMetric(audits[specs[i].1]).Ok? &&
              GetMetrics(audits, specs).value[i] == NamedMetric(specs[i].0, GetMetric(audits[specs[i].1]).value)
  {
    if specs != [] {
      GetMetricsShape(audits, specs[1..]);
      var r := GetMetrics(audits, specs);
      if r.Ok? {
        var rest := GetMetrics(audits, specs[1..]);
        assert rest.Ok?;
        assert r.value == [NamedMetric(specs[0].0, GetMetric(audits[specs[0].1]).value)] + rest.value;
        forall i | 1 <= i < |specs|
          ensures r.value[i] == NamedMetric(specs[i].0, GetMetric(audits[specs[i].1]).value)
        {
          assert specs[1..][i - 1] == specs[i];
        }
      } else {
        if specs[0].1 in audits && GetMetric(audits[specs[0].1]).Ok? {
          var j :| 0 <= j < |specs[1..]| && !(specs[1..][j].1 in audits && GetMetric(audits[specs[1..][j].1]).Ok?);
          assert specs[1..][j] == specs[j + 1];
        }
      }
    }
  }

  // ---------------------------------------------------------------------
  // Opportunities

  /** One opportunity entry: `title`, `description` and `score` are required;
      `numericValue` defaults to 0 and `displayValue` to the empty string. */
  function ToOpportunity(audit: Audit): (r: Result<Opportunity, Failure>)
    ensures r.Ok? <==> audit.title.Some? && audit.description.Some? && audit.score.Some?
    ensures r.Ok? ==> r.value.title == audit.title.value && r.value.description == audit.description.value
    ensures r.Ok? ==> r.value.score == audit.score.value
    ensures r.Ok? ==> r.value.numericValue == (if audit.numericValue.Some? then audit.numericValue.value else 0.0)
    ensures r.Ok? ==> r.value.displayValue == (if audit.displayValue.Some? then audit.displayValue.value else "")
  {
    var title :- Field(audit.title, "title");
    var description :- Field(audit.description, "description");
    var score :- Field(audit.score, "score");
    Ok(Opportunity(title, description, score, audit.numericValue.GetOr(0.0), audit.displayValue.GetOr("")))
  }

  /** The keys of `keys` that occur in `audits`, in the order of `keys`. */
  function PresentKeys(audits: map<string, Audit>, keys: seq<string>): seq<string> {
    Filter(k => k in audits, keys)
  }

  /** The opportunity list for the given allow-list, as the source's loop builds it. */
  function OpportunitiesFrom(audits: map<string, Audit>, keys: seq<string>): Result<seq<Opportunity>, Failure> {
    if keys == [] then Ok([])
    else if keys[0] in audits then
      var first :- ToOpportunity(audits[keys[0]]);
      var rest :- OpportunitiesFrom(audits, keys[1..]);
      Ok([first] + rest)
    else
      OpportunitiesFrom(audits, keys[1..])
  }

  function Opportunities(audits: map<string, Audit>): Result<seq<Opportunity>, Failure> {
    OpportunitiesFrom(audits, OpportunityKeys)
  }

  /** A present key is any key of the list that is in the map, and nothing else. */
  lemma PresentKeysMembers(audits: map<string, Audit>, keys: seq<string>)
    ensures forall k :: k in PresentKeys(audits, keys) <==> k in keys && k in audits
    ensures |PresentKeys(audits, keys)| <= |keys|
  {
    FilterMembers(k => k in audits, keys);
  }

  /** The list builder succeeds iff every selected audit has the required fields. */
  lemma {:induction false} OpportunitiesSucceed(audits: map<string, Audit>, keys: seq<string>)
    ensures OpportunitiesFrom(audits, keys).Ok? <==>
            forall k :: k in keys && k in audits ==> ToOpportunity(audits[k]).Ok?
  {
    if keys != [] {
      OpportunitiesSucceed(audits, keys[1..]);
      assert forall k :: k in keys <==> k == keys[0] || k in keys[1..];
    }
  }

  /** On success the builder yields one entry per present key, in allow-list order. */
  lemma {:induction false} OpportunitiesShape(audits: map<string, Audit>, keys: seq<string>)
    requires OpportunitiesFrom(audits, keys).Ok?
    ensures |OpportunitiesFrom(audits, keys).value| == |PresentKeys(audits, keys)|
    ensures forall i :: 0 <= i < |PresentKeys(audits, keys)| ==>
              PresentKeys(audits, keys)[i] in audits &&
              Ok(OpportunitiesFrom(audits, keys).value[i]) == ToOpportunity(audits[PresentKeys(audits, keys)[i]])
  {
    if keys != [] {
      var rest := OpportunitiesFrom(audits, keys[1..]);
      assert rest.Ok?;
      OpportunitiesShape(audits, keys[1..]);
      var ops, present := OpportunitiesFrom(audits, keys).value, PresentKeys(audits, keys);
      if keys[0] in audits {
        assert ops == [ToOpportunity(audits[keys[0]]).value] + rest.value;
        assert present == [keys[0]] + PresentKeys(audits, keys[1..]);
      } else {
        assert ops == rest.value;
        assert present == PresentKeys(audits, keys[1..]);
      }
    }
  }

  /** The builder over a concatenated key list is the concatenation of the
      builders, the first failure winning. */
  lemma {:induction false} OpportunitiesAppend(audits: map<string, Audit>, a: seq<string>, b: seq<string>)
    ensures OpportunitiesFrom(audits, a + b) ==
            if OpportunitiesFrom(audits, a).Err? then OpportunitiesFrom(audits, a)
            else if OpportunitiesFrom(audits, b).Err? then OpportunitiesFrom(audits, b)
            else Ok(OpportunitiesFrom(audits, a).value + OpportunitiesFrom(audits, b).value)
  {
    if a == [] {
      assert a + b == b;
      if OpportunitiesFrom(audits, b).Ok? {
        assert [] + OpportunitiesFrom(audits, b).value == OpportunitiesFrom(audits, b).value;
      }
    } else {
      assert (a + b)[1..] == a[1..] + b;
      OpportunitiesAppend(audits, a[1..], b);
      if a[0] in audits && ToOpportunity(audits[a[0]]).Ok? {
        var first := ToOpportunity(audits[a[0]]).value;
        if OpportunitiesFrom(audits, a[1..]).Ok? && OpportunitiesFrom(audits, b).Ok? {
          assert [first] + (OpportunitiesFrom(audits, a[1..]).value + OpportunitiesFrom(audits, b).value)
              == ([first] + OpportunitiesFrom(audits, a[1..]).value) + OpportunitiesFrom(audits, b).value;
        }
      }
    }
  }

  /** Audits outside the allow-list never influence the opportunity list. */
  lemma {:induction false} OpportunitiesIgnoreOtherAudits(a1: map<string, Audit>, a2: map<string, Audit>, keys: seq<string>)
    requires forall k :: k in keys ==> (k in a1 <==> k in a2)
    requires forall k :: k in keys && k in a1 ==> a1[k] == a2[k]
    ensures OpportunitiesFrom(a1, keys) == OpportunitiesFrom(a2, keys)
  {
    if keys != [] {
      OpportunitiesIgnoreOtherAudits(a1, a2, keys[1..]);
    }
  }

  /** At most one entry per allow-listed key. */
  lemma OpportunitiesBounded(audits: map<string, Audit>)
    ensures Opportunities(audits).Ok? ==> |Opportunities(audits).value| <= |OpportunityKeys|
  {
    if Opportunities(audits).Ok? {
      OpportunitiesShape(audits, OpportunityKeys);
      PresentKeysMembers(audits, OpportunityKeys);
    }
  }

  /** `_get_opportunities`: walks the allow-list and appends an entry per
      present key; a missing required field aborts the walk. */
  method GetOpportunities(audits: map<string, Audit>) returns (r: Result<seq<Opportunity>, Failure>)
    ensures r == Opportunities(audits)
  {
    var opportunities: seq<Opportunity> := [];
    for i := 0 to |OpportunityKeys|
      invariant OpportunitiesFrom(audits, OpportunityKeys[..i]) == Ok(opportunities)
    {
      var key := OpportunityKeys[i];
      OpportunitiesAppend(audits, OpportunityKeys[..i], [key]);
      assert OpportunityKeys[..i + 1] == OpportunityKeys[..i] + [key];
      assert [key][1..] == [];
      if key in audits {
        var entry := ToOpportunity(audits[key]);
        if entry.Err? {
          OpportunitiesAppend(audits, OpportunityKeys[..i + 1], OpportunityKeys[i + 1..]);
          assert OpportunityKeys[..i + 1] + OpportunityKeys[i + 1..] == OpportunityKeys;
          return Err(entry.error);
        }
        assert [entry.value] + [] == [entry.value];
        assert OpportunitiesFrom(audits, [key]) == Ok([entry.value]);
        opportunities := opportunities + [entry.value];
      } else {
        assert OpportunitiesFrom(audits, [key]) == Ok([]);
        assert opportunities + [] == opportunities;
      }
    }
    assert OpportunityKeys[..|OpportunityKeys|] == OpportunityKeys;
    r := Ok(opportunities);
  }

  // ---------------------------------------------------------------------
  // analyze_url

  /** What the source reads from the document before it builds the
      opportunity list: the audits, the performance score and the metrics. */
  datatype LabData = LabData(audits: map<string, Audit>, performance: real, metrics: seq<NamedMetric>)

  function ReadLabData(reply: Fetch): Result<LabData, Failure> {
    var response :- if reply.Fetched? then Ok(reply.data) else Err(FetchError(reply.message));
    var lighthouse :- Field(response.lighthouseResult, "lighthouseResult");
    var audits :- Field(lighthouse.audits, "audits");
    var categories :- Field(lighthouse.categories, "categories");
    var performance :- Lookup(categories, "performance");
    var score :- Field(performance.score, "score");
    var metrics :- GetMetrics(audits, MetricAudits);
    Ok(LabData(audits, score, metrics))
  }

  /** The whole body of the `try` block of `analyze_url`, for a given outcome
      of the HTTP round trip. */
  function Analyze(url: string, strategy: Strategy, reply: Fetch): Result<AnalysisResult, Failure> {
    var lab :- ReadLabData(reply);
    var opportunities :- Opportunities(lab.audits);
    Ok(AnalysisResult(url, strategy, Percent(lab.performance), lab.metrics, opportunities))
  }

  /** A document that has every key the analysis looks up. */
  predicate Complete(reply: Fetch) {
    && reply.Fetched?
    && reply.data.lighthouseResult.Some?
    && reply.data.lighthouseResult.value.audits.Some?
    && reply.data.lighthouseResult.value.categories.Some?
    && var audits := reply.data.lighthouseResult.value.audits.value;
       var categories := reply.data.lighthouseResult.value.categories.value;
       && "performance" in categories
       && categories["performance"].score.Some?
       && (forall i :: 0 <= i < |MetricAudits| ==>
             MetricAudits[i].1 in audits &&
             audits[MetricAudits[i].1].score.Some? && audits[MetricAudits[i].1].displayValue.Some?)
       && (forall k :: k in OpportunityKeys && k in audits ==>
             audits[k].title.Some? && audits[k].description.Some? && audits[k].score.Some?)
  }

  /** An analysis succeeds exactly on complete documents; a success echoes
      the url and strategy, carries the six metrics by name in fixed order,
      and the percentage of the performance score. */
  lemma AnalyzeOutcome(url: string, strategy: Strategy, reply: Fetch)
    ensures Analyze(url, strategy, reply).Ok? <==> Complete(reply)
    ensures Analyze(url, strategy, reply).Ok? ==>
            var r := Analyze(url, strategy, reply).value;
            var audits := reply.data.lighthouseResult.value.audits.value;
            && r.url == url && r.strategy == strategy
            && r.score == Percent(reply.data.lighthouseResult.value.categories.value["performance"].score.value)
            && |r.metrics| == |MetricAudits|
            && (forall i :: 0 <= i < |MetricAudits| ==>
                  && r.metrics[i].name == MetricAudits[i].0
                  && r.metrics[i].metric == GetMetric(audits[MetricAudits[i].1]).value)
            && r.opportunities == Opportunities(audits).value
  {
    if reply.Fetched? && reply.data.lighthouseResult.Some? && reply.data.lighthouseResult.value.audits.Some? {
      GetMetricsShape(reply.data.lighthouseResult.value.audits.value, MetricAudits);
      OpportunitiesSucceed(reply.data.lighthouseResult.value.audits.value, OpportunityKeys);
    }
  }

  /** The failures met before the metrics are read, each naming what stopped
      the analysis, in the order the source looks them up. */
  lemma AnalyzeErrors(url: string, strategy: Strategy, reply: Fetch)
    ensures reply.FetchFailed? ==> Analyze(url, strategy, reply) == Err(FetchError(reply.message))
    ensures reply.Fetched? && reply.data.lighthouseResult.None? ==>
              Analyze(url, strategy, reply) == Err(MissingKey("lighthouseResult"))
    ensures reply.Fetched? && reply.data.lighthouseResult.Some? && reply.data.lighthouseResult.value.audits.None? ==>
              Analyze(url, strategy, reply) == Err(MissingKey("audits"))
    ensures reply.Fetched? && reply.data.lighthouseResult.Some? && reply.data.lighthouseResult.value.audits.Some? &&
            reply.data.lighthouseResult.value.categories.None? ==>
              Analyze(url, strategy, reply) == Err(MissingKey("categories"))
  {
  }
}
