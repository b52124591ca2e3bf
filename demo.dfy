/**
 * The demo responder: a simulated structured answer drawn from fixed tables, with the same shape
 * as the live model's output. The random draws are nondeterministic choices within the bounds the
 * source draws from; the simulated delay is not modelled.
 */
module Demo {
  import opened Wrappers
  import opened Values
  import opened Text
  import OutputParser

  /** A canned hypothesis. */
  datatype DemoHypothesis = DemoHypothesis(title: string, confidence: string, summary: string, evidence: seq<string>, visualizationType: string)
  {
    function ToJson(): Json {
      Obj(map["title" := Str(title), "confidence" := Str(confidence), "summary" := Str(summary),
              "evidence" := Arr(StrList(evidence)), "visualization_type" := Str(visualizationType)])
    }
  }

  /** A canned data source. */
  datatype DemoSource = DemoSource(source: string, relevance: string, snippet: string)
  {
    function ToJson(): Json {
      Obj(map["source" := Str(source), "relevance" := Str(relevance), "snippet" := Str(snippet), "url" := Null])
    }
  }

  /** A canned methodology explanation. */
  datatype DemoExplanation = DemoExplanation(methodology: string, limitations: string, nextSteps: seq<string>)
  {
    function ToJson(): Json {
      Obj(map["methodology" := Str(methodology), "limitations" := Str(limitations), "next_steps" := Arr(StrList(nextSteps))])
    }
  }

  /** A list of strings as JSON. */
  function StrList(xs: seq<string>): (j: seq<Json>)
    ensures |j| == |xs| && forall k :: 0 <= k < |xs| ==> j[k] == Str(xs[k])
  {
    seq(|xs|, k requires 0 <= k < |xs| => Str(xs[k]))
  }

  /** `DEMO_HYPOTHESES` */
  const DemoHypotheses: seq<DemoHypothesis> := [
    DemoHypothesis(
      "Seasonal patterns detected in the data",
      "high",
      "Analysis reveals strong seasonal patterns with peaks in Q4 and troughs in Q1. This aligns with typical consumer behavior patterns and suggests planning should account for these cyclical variations.",
      ["Q4 metrics consistently 23% higher than annual average",
       "January shows 15% decline from December across all years",
       "Pattern consistent across 3+ years of historical data"],
      "chart"),
    DemoHypothesis(
      "Correlation between marketing spend and engagement",
      "medium",
      "There appears to be a moderate positive correlation between marketing investment and user engagement metrics, though other factors may be contributing.",
      ["R-squared value of 0.67 between spend and engagement",
       "Lag effect observed: engagement peaks 2-3 weeks after campaigns",
       "Some high-engagement periods occurred without increased spend"],
      "chart"),
    DemoHypothesis(
      "Anomaly detected in recent performance",
      "low",
      "Recent data shows deviation from expected patterns. Further investigation recommended to determine if this represents a trend change or temporary fluctuation.",
      ["Last 30 days show 8% variance from predicted values",
       "Similar anomalies in past resolved within 45 days",
       "External factors (market conditions) may be contributing"],
      "table")
  ]

  /** `DEMO_SEARCH_RESULTS` */
  const DemoSources: seq<DemoSource> := [
    DemoSource("Historical Dataset (2022-2024)", "high", "Primary data source containing 2.3M records across the analysis period."),
    DemoSource("Industry Benchmark Report", "medium", "Comparative data from industry peers showing similar seasonal patterns."),
    DemoSource("External Market Data", "low", "Supplementary economic indicators that may influence observed trends.")
  ]

  /** `DEMO_EXPLANATIONS` */
  const DemoExplanations: seq<DemoExplanation> := [
    DemoExplanation(
      "This analysis employed time-series decomposition to identify trend, seasonal, and residual components. Statistical significance was assessed using standard hypothesis testing with Î±=0.05.",
      "Analysis is based on available historical data only. External factors not captured in the dataset may influence results. Correlation does not imply causation.",
      ["Validate findings with domain experts",
       "Collect additional data points for higher confidence",
       "Design controlled experiment to test causal hypotheses",
       "Monitor key metrics over next quarter for trend confirmation"]),
    DemoExplanation(
      "Comparative analysis using cohort segmentation and statistical testing. Data was normalized to account for varying sample sizes across segments.",
      "Sample sizes vary across segments which may affect reliability of some comparisons. Self-selection bias may be present in certain cohorts.",
      ["Increase sample size for underrepresented segments",
       "Implement A/B testing for key hypotheses",
       "Review data collection methodology for potential biases"])
  ]

  /** `random.sample` positions: distinct indices below `size`. */
  predicate IsSample(idx: seq<nat>, size: nat) {
    && (forall k :: 0 <= k < |idx| ==> idx[k] < size)
    && (forall j, k :: 0 <= j < k < |idx| ==> idx[j] != idx[k])
  }

  /** The summary of the first hypothesis, prefixed with the start of the prompt. */
  function PrefixedSummary(prompt: string, summary: string): (s: string)
    ensures StartsWith(s, "Based on your query about '")
    ensures |s| >= |summary| && s[|s| - |summary|..] == summary
  {
    "Based on your query about '" + Take(prompt, 50) + "...': " + summary
  }

  /** A canned hypothesis, with or without the prefixed summary, passes the hypothesis checks of the schema. */
  lemma DemoHypothesisShaped(h: DemoHypothesis)
    requires OutputParser.IsConfidenceLevel(Str(h.confidence))
    ensures OutputParser.HypothesisShaped(h.ToJson())
  {
    var j := h.ToJson();
    assert "title" in j.fields && "confidence" in j.fields && "summary" in j.fields;
    assert j.fields["confidence"] == Str(h.confidence);
  }

  /** When every item is a dict, each gives one search result. */
  lemma {:induction false} SearchResultsAllParse(items: seq<Json>)
    requires forall k :: 0 <= k < |items| ==> items[k].Obj?
    ensures |OutputParser.SearchResultsOf(items)| == |items|
    decreases |items|
  {
    if items != [] {
      SearchResultsAllParse(items[..|items| - 1]);
    }
  }

  /**
   * A result made of shaped hypotheses, dictionary search results and a shaped explanation
   * passes the schema and parses fully, keeping every entry.
   */
  lemma ResultShapeParses(hs: seq<Json>, rs: seq<Json>, e: Json)
    requires forall k :: 0 <= k < |hs| ==> OutputParser.HypothesisShaped(hs[k])
    requires forall k :: 0 <= k < |rs| ==> rs[k].Obj?
    requires e.Obj? && "methodology" in e.fields && "limitations" in e.fields
    ensures var result := Obj(map["hypotheses" := Arr(hs), "search_results" := Arr(rs), "explanation" := e]);
      && OutputParser.ValidateSchema(result).Pass?
      && OutputParser.ParseSpec(result).isValid
      && |OutputParser.ParseSpec(result).hypotheses| == |hs|
      && |OutputParser.ParseSpec(result).searchResults| == |rs|
      && OutputParser.ParseSpec(result).explanation.Some?
  {
    var fields := map["hypotheses" := Arr(hs), "search_results" := Arr(rs), "explanation" := e];
    assert Get(fields, "explanation", Null) == e;
    assert OutputParser.SchemaValid(Obj(fields));
    assert Get(fields, "search_results", Arr([])) == Arr(rs);
    OutputParser.SchemaValidParsesFully(fields, rs);
    SearchResultsAllParse(rs);
  }

  /** The demo service: its three class-level tables. */
  datatype DemoService = DemoService(hypotheses: seq<DemoHypothesis>, sources: seq<DemoSource>, explanations: seq<DemoExplanation>)
  {
    /** What the tables provide: three hypotheses with distinct titles and valid confidence levels, three sources, two explanations. */
    predicate Valid() {
      && |hypotheses| == 3 && |sources| == 3 && |explanations| == 2
      && (forall k :: 0 <= k < |hypotheses| ==> OutputParser.IsConfidenceLevel(Str(hypotheses[k].confidence)))
      && (forall j, k :: 0 <= j < k < |hypotheses| ==> hypotheses[j].title != hypotheses[k].title)
    }

    /** The sampled hypotheses as JSON: only the first, a copy, gets the prefixed summary. */
    function HypothesesJson(prompt: string, idx: seq<nat>): (hs: seq<Json>)
      requires IsSample(idx, |hypotheses|)
      ensures |hs| == |idx|
      ensures forall k :: 1 <= k < |idx| ==> hs[k] == hypotheses[idx[k]].ToJson()
      ensures idx != [] ==> hs[0] == hypotheses[idx[0]].(summary := PrefixedSummary(prompt, hypotheses[idx[0]].summary)).ToJson()
    {
      seq(|idx|, k requires 0 <= k < |idx| =>
        var h := hypotheses[idx[k]];
        if k == 0 then h.(summary := PrefixedSummary(prompt, h.summary)).ToJson() else h.ToJson())
    }

    /** The sampled sources as JSON. */
    function SourcesJson(idx: seq<nat>): (rs: seq<Json>)
      requires IsSample(idx, |sources|)
      ensures |rs| == |idx| && forall k :: 0 <= k < |idx| ==> rs[k] == sources[idx[k]].ToJson()
    {
      seq(|idx|, k requires 0 <= k < |idx| => sources[idx[k]].ToJson())
    }

    /** The random draws of one call: the sampled positions, the explanation, the output tokens and the latency. */
    predicate ValidDraws(hIdx: seq<nat>, sIdx: seq<nat>, explanation: nat, outputTokens: int, elapsedMs: int) {
      && 1 <= |hIdx| <= 3 && IsSample(hIdx, |hypotheses|)
      && 1 <= |sIdx| <= 3 && IsSample(sIdx, |sources|)
      && explanation < |explanations|
      && 400 <= outputTokens <= 800
      && 800 <= elapsedMs <= 2500
    }

    /** The response for a prompt and a given set of draws. */
    function MockResponse(prompt: string, hIdx: seq<nat>, sIdx: seq<nat>, explanation: nat, outputTokens: int, elapsedMs: int): (r: LlmResponse)
      requires ValidDraws(hIdx, sIdx, explanation, outputTokens, elapsedMs)
      ensures r.result.Obj? && r.result.fields.Keys == {"hypotheses", "search_results", "explanation"}
      ensures r.result.fields["hypotheses"].Arr? && |r.result.fields["hypotheses"].items| == |hIdx|
      ensures r.result.fields["search_results"].Arr? && |r.result.fields["search_results"].items| == |sIdx|
      ensures r.result.fields["hypotheses"] == Arr(HypothesesJson(prompt, hIdx))
      ensures r.result.fields["search_results"] == Arr(SourcesJson(sIdx))
      ensures exists k :: 0 <= k < |explanations| && r.result.fields["explanation"] == explanations[k].ToJson()
      ensures r.inputTokens == Num(2 * WordCount(prompt)) && r.outputTokens == Num(outputTokens) && r.elapsedMs == elapsedMs
      ensures r.stopReason == Str("end_turn") && r.guardrailTrace == Null && r.demoMode
    {
      var result := Obj(map[
        "hypotheses" := Arr(HypothesesJson(prompt, hIdx)),
        "search_results" := Arr(SourcesJson(sIdx)),
        "explanation" := explanations[explanation].ToJson()]);
      LlmResponse(result, Num(2 * WordCount(prompt)), Num(outputTokens), Str("end_turn"), elapsedMs, Null, true)
    }

    /** `r` is the response for the prompt and some draws within the bounds. */
    ghost predicate IsMockResponse(prompt: string, r: LlmResponse) {
      exists hIdx: seq<nat>, sIdx: seq<nat>, explanation: nat, outputTokens: int, elapsedMs: int ::
        ValidDraws(hIdx, sIdx, explanation, outputTokens, elapsedMs)
        && r == MockResponse(prompt, hIdx, sIdx, explanation, outputTokens, elapsedMs)
    }

    /** `generate_mock_response`: each random draw is a choice within its bounds. */
    method GenerateMockResponse(prompt: string) returns (r: LlmResponse)
      requires Valid()
      ensures IsMockResponse(prompt, r)
      ensures r.result.Obj? && r.result.fields.Keys == {"hypotheses", "search_results", "explanation"}
      ensures exists k :: 0 <= k < |explanations| && r.result.fields["explanation"] == explanations[k].ToJson()
      ensures r.inputTokens == Num(2 * WordCount(prompt))
      ensures r.outputTokens.Num? && 400 <= r.outputTokens.n <= 800
      ensures 800 <= r.elapsedMs <= 2500
      ensures r.stopReason == Str("end_turn") && r.guardrailTrace == Null && r.demoMode
    {
      var numHypotheses :| 1 <= numHypotheses <= 3;
      assert IsSample([0, 1, 2][..numHypotheses], 3);
      var hIdx: seq<nat> :| |hIdx| == numHypotheses && IsSample(hIdx, |hypotheses|);

      var numResults :| 1 <= numResults <= 3;
      assert IsSample([0, 1, 2][..numResults], 3);
      var sIdx: seq<nat> :| |sIdx| == numResults && IsSample(sIdx, |sources|);

      var explanation :| 0 <= explanation < |explanations|;
      var outputTokens :| 400 <= outputTokens <= 800;
      var elapsedMs :| 800 <= elapsedMs <= 2500;
      assert ValidDraws(hIdx, sIdx, explanation, outputTokens, elapsedMs);
      r := MockResponse(prompt, hIdx, sIdx, explanation, outputTokens, elapsedMs);
    }

    /**
     * Every simulated response passes `validate_schema`, and `parse` of its result is valid with
     * 1 to 3 hypotheses, one per sampled entry, as many search results as were sampled, and an
     * explanation.
     */
    lemma MockResponseIsWellFormed(prompt: string, hIdx: seq<nat>, sIdx: seq<nat>, explanation: nat, outputTokens: int, elapsedMs: int)
      requires Valid()
      requires ValidDraws(hIdx, sIdx, explanation, outputTokens, elapsedMs)
      ensures var result := MockResponse(prompt, hIdx, sIdx, explanation, outputTokens, elapsedMs).result;
        && OutputParser.ValidateSchema(result).Pass?
        && OutputParser.ParseSpec(result).isValid
        && 1 <= |OutputParser.ParseSpec(result).hypotheses| <= 3
        && |OutputParser.ParseSpec(result).hypotheses| == |hIdx|
        && |OutputParser.ParseSpec(result).searchResults| == |sIdx|
        && OutputParser.ParseSpec(result).explanation.Some?
    {
      var hs := HypothesesJson(prompt, hIdx);
      var rs := SourcesJson(sIdx);
      forall k | 0 <= k < |hs| ensures OutputParser.HypothesisShaped(hs[k]) {
        var h := hypotheses[hIdx[k]];
        if k == 0 {
          DemoHypothesisShaped(h.(summary := PrefixedSummary(prompt, h.summary)));
        } else {
          DemoHypothesisShaped(h);
        }
      }
      var e := explanations[explanation].ToJson();
      assert "methodology" in e.fields && "limitations" in e.fields;
      ResultShapeParses(hs, rs, e);
    }

    /** Whatever `generate_mock_response` draws, its result passes the schema and parses with 1 to 3 hypotheses. */
    lemma GeneratedResponseIsWellFormed(prompt: string, r: LlmResponse)
      requires Valid()
      requires IsMockResponse(prompt, r)
      ensures OutputParser.ValidateSchema(r.result).Pass?
      ensures OutputParser.ParseSpec(r.result).isValid && 1 <= |OutputParser.ParseSpec(r.result).hypotheses| <= 3
    {
      var hIdx: seq<nat>, sIdx: seq<nat>, explanation: nat, outputTokens: int, elapsedMs: int :|
        ValidDraws(hIdx, sIdx, explanation, outputTokens, elapsedMs)
        && r == MockResponse(prompt, hIdx, sIdx, explanation, outputTokens, elapsedMs);
      MockResponseIsWellFormed(prompt, hIdx, sIdx, explanation, outputTokens, elapsedMs);
    }

    /** The sampled hypotheses are pairwise distinct. */
    lemma SampledHypothesesDistinct(prompt: string, hIdx: seq<nat>)
      requires Valid() && IsSample(hIdx, |hypotheses|)
      ensures forall j, k :: 0 <= j < k < |hIdx| ==> HypothesesJson(prompt, hIdx)[j] != HypothesesJson(prompt, hIdx)[k]
    {
      var hs := HypothesesJson(prompt, hIdx);
      forall j, k | 0 <= j < k < |hIdx| ensures hs[j] != hs[k] {
        var a := hypotheses[hIdx[j]];
        var b := hypotheses[hIdx[k]];
        assert a.title != b.title by {
          if hIdx[j] < hIdx[k] {
          } else {
            assert hIdx[k] < hIdx[j];
          }
        }
        assert hs[j].fields["title"] == Str(a.title);
        assert hs[k].fields["title"] == Str(b.title);
      }
    }
  }

  /** `DemoService` with its class tables. */
  const Default := DemoService(DemoHypotheses, DemoSources, DemoExplanations)

  /** The hypothesis table has three entries with distinct titles and valid confidence levels. */
  lemma DemoHypothesesValid()
    ensures |DemoHypotheses| == 3
    ensures forall k :: 0 <= k < |DemoHypotheses| ==> OutputParser.IsConfidenceLevel(Str(DemoHypotheses[k].confidence))
    ensures forall j, k :: 0 <= j < k < |DemoHypotheses| ==> DemoHypotheses[j].title != DemoHypotheses[k].title
  {
    var hs := DemoHypotheses;
    assert |hs[0].title| == 38 && |hs[1].title| == 50;
    assert hs[0].title[0] == 'S' && hs[2].title[0] == 'A';
    assert hs[0].confidence == "high" && hs[1].confidence == "medium" && hs[2].confidence == "low";
  }

  /** The class tables have the sizes, confidence levels and distinct titles the lemmas rely on. */
  lemma DefaultIsValid()
    ensures Default.Valid()
  {
    DemoHypothesesValid();
    assert |DemoSources| == 3 && |DemoExplanations| == 2;
  }
}
