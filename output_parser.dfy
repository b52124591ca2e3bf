/**
 * The tolerant parser that turns the model's structured output into hypotheses, search results
 * and an explanation; the stricter schema check; the derived counts of a result; and its
 * conversion back to a JSON dictionary.
 */
module OutputParser {
  import opened Wrappers
  import opened Values
  import opened Text

  /** A hypothesis. The dataclass does not check field types, so each field keeps the value it was given. */
  datatype Hypothesis = Hypothesis(title: Json, confidence: Json, summary: Json, evidence: Json, visualizationType: Json)

  /** A data source reference. */
  datatype SearchResult = SearchResult(source: Json, relevance: Json, snippet: Json, url: Json)

  /** The methodology explanation. */
  datatype Explanation = Explanation(methodology: Json, limitations: Json, nextSteps: Json)

  /** `Hypothesis.from_dict`: missing keys take conservative defaults. */
  function HypothesisFromDict(data: map<string, Json>): (h: Hypothesis)
    ensures "title" !in data ==> h.title == Str("Untitled")
    ensures "confidence" !in data ==> h.confidence == Str("low")
    ensures "summary" !in data ==> h.summary == Str("")
    ensures "evidence" !in data ==> h.evidence == Arr([])
    ensures "visualization_type" !in data ==> h.visualizationType == Str("none")
  {
    Hypothesis(
      Get(data, "title", Str("Untitled")),
      Get(data, "confidence", Str("low")),
      Get(data, "summary", Str("")),
      Get(data, "evidence", Arr([])),
      Get(data, "visualization_type", Str("none")))
  }

  /** `SearchResult.from_dict`. */
  function SearchResultFromDict(data: map<string, Json>): (r: SearchResult)
    ensures "source" !in data ==> r.source == Str("Unknown")
    ensures "relevance" !in data ==> r.relevance == Str("low")
    ensures "snippet" !in data ==> r.snippet == Str("")
    ensures "url" !in data ==> r.url == Null
  {
    SearchResult(
      Get(data, "source", Str("Unknown")),
      Get(data, "relevance", Str("low")),
      Get(data, "snippet", Str("")),
      Get(data, "url", Null))
  }

  /** `Explanation.from_dict`. */
  function ExplanationFromDict(data: map<string, Json>): (e: Explanation)
    ensures "methodology" !in data ==> e.methodology == Str("")
    ensures "limitations" !in data ==> e.limitations == Str("")
    ensures "next_steps" !in data ==> e.nextSteps == Arr([])
  {
    Explanation(
      Get(data, "methodology", Str("")),
      Get(data, "limitations", Str("")),
      Get(data, "next_steps", Arr([])))
  }

  /** The number of hypotheses whose confidence is the string `high`. */
  function HighCount(hs: seq<Hypothesis>): (n: nat)
    ensures n <= |hs|
    ensures n == 0 <==> forall k :: 0 <= k < |hs| ==> hs[k].confidence != Str("high")
    decreases |hs|
  {
    if hs == [] then 0
    else (if hs[0].confidence == Str("high") then 1 else 0) + HighCount(hs[1..])
  }

  /** An `AnalysisResult`. */
  datatype AnalysisResult = AnalysisResult(
    hypotheses: seq<Hypothesis>,
    searchResults: seq<SearchResult>,
    explanation: Option<Explanation>,
    rawResponse: Json,
    isValid: bool,
    errorMessage: string)
  {
    predicate HasHypotheses() { |hypotheses| > 0 }
    predicate HasSearchResults() { |searchResults| > 0 }
    function HypothesisCount(): nat { |hypotheses| }
    function HighConfidenceCount(): nat { HighCount(hypotheses) }
  }

  /** The derived counts agree with the lists: at most as many high-confidence hypotheses as hypotheses, and `has_hypotheses` iff there is one. */
  lemma DerivedCounts(r: AnalysisResult)
    ensures r.HighConfidenceCount() <= r.HypothesisCount() == |r.hypotheses|
    ensures r.HasHypotheses() <==> r.HypothesisCount() > 0
    ensures r.HasSearchResults() <==> |r.searchResults| > 0
    ensures !r.HasHypotheses() ==> r.HighConfidenceCount() == 0
  {
  }

  /** A result that reports an error and carries nothing. */
  function Invalid(raw: Json, message: string): AnalysisResult {
    AnalysisResult([], [], None, raw, false, message)
  }

  /**
   * What a `for` loop over a value visits. A list gives its items. A string gives its characters
   * and a dict its keys: all strings, which `from_dict` rejects, so the model visits nothing for
   * them. Any other value raises `TypeError`.
   */
  function Iterate(v: Json): (r: Result<seq<Json>, string>)
    ensures v.Arr? ==> r == Ok(v.items)
    ensures r.Err? <==> v.Null? || v.Bool? || v.Num? || v.Float?
  {
    match v
    case Arr(items) => Ok(items)
    case Str(_) => Ok([])
    case Obj(_) => Ok([])
    case _ => Err("'" + TypeName(v) + "' object is not iterable")
  }

  /** The hypotheses parsed from the items, in order; an item that is not a dict is skipped. */
  function HypothesesOf(items: seq<Json>): (hs: seq<Hypothesis>)
    ensures |hs| <= |items|
    decreases |items|
  {
    if items == [] then []
    else
      var last := items[|items| - 1];
      HypothesesOf(items[..|items| - 1]) + (if last.Obj? then [HypothesisFromDict(last.fields)] else [])
  }

  /** The search results parsed from the items, in order; an item that is not a dict is skipped. */
  function SearchResultsOf(items: seq<Json>): (rs: seq<SearchResult>)
    ensures |rs| <= |items|
    decreases |items|
  {
    if items == [] then []
    else
      var last := items[|items| - 1];
      SearchResultsOf(items[..|items| - 1]) + (if last.Obj? then [SearchResultFromDict(last.fields)] else [])
  }

  /** `parse`, stated as a function of the raw output. */
  function ParseSpec(raw: Json): (r: AnalysisResult)
    ensures r.rawResponse == raw
    ensures !Truthy(raw) ==> r == Invalid(raw, "Empty response from LLM")
    ensures r.isValid ==> raw.Obj? && r.errorMessage == ""
    ensures !r.isValid ==> r.hypotheses == [] && r.searchResults == [] && r.explanation.None?
  {
    if !Truthy(raw) then Invalid(raw, "Empty response from LLM")
    else if !raw.Obj? then Invalid(raw, "'" + TypeName(raw) + "' object has no attribute 'get'")
    else
      var hs := Iterate(Get(raw.fields, "hypotheses", Arr([])));
      var rs := Iterate(Get(raw.fields, "search_results", Arr([])));
      if hs.Err? then Invalid(raw, hs.error)
      else if rs.Err? then Invalid(raw, rs.error)
      else
        var e := Get(raw.fields, "explanation", Null);
        var explanation := if Truthy(e) && e.Obj? then Some(ExplanationFromDict(e.fields)) else None;
        AnalysisResult(HypothesesOf(hs.value), SearchResultsOf(rs.value), explanation, raw, true, "")
  }

  /** Python's message for `.get` on a `float`, as `ParseSpec` spells it. */
  lemma FloatNoGetMessage()
    ensures "'" + "float" + "' object has no attribute 'get'" == "'float' object has no attribute 'get'"
  { }

  /** Python's message for iterating a `float`, as `Iterate` spells it. */
  lemma FloatNotIterableMessage()
    ensures "'" + "float" + "' object is not iterable" == "'float' object is not iterable"
  { }

  /** A non-zero float payload fails at `raw_output.get`, with Python's message naming the type `float`. */
  lemma FloatPayloadMessage(x: real)
    requires x != 0.0
    ensures ParseSpec(Float(x)) == Invalid(Float(x), "'float' object has no attribute 'get'")
  {
    var raw := Float(x);
    assert Truthy(raw) && !raw.Obj?;
    assert TypeName(raw) == "float";
    FloatNoGetMessage();
  }

  /** A float under `hypotheses` fails when iterated, with Python's message naming the type `float`. */
  lemma FloatHypothesesMessage(raw: map<string, Json>)
    requires "hypotheses" in raw && raw["hypotheses"].Float?
    ensures ParseSpec(Obj(raw)) == Invalid(Obj(raw), "'float' object is not iterable")
  {
    var v := raw["hypotheses"];
    assert TypeName(v) == "float";
    FloatNotIterableMessage();
    assert Iterate(v) == Err("'float' object is not iterable");
  }

  /** `parse`: the items are visited in order, each one parsed or skipped, without aborting the rest. */
  method Parse(raw: Json) returns (result: AnalysisResult)
    ensures result == ParseSpec(raw)
  {
    if !Truthy(raw) {
      return Invalid(raw, "Empty response from LLM");
    }
    if !raw.Obj? {
      return Invalid(raw, "'" + TypeName(raw) + "' object has no attribute 'get'");
    }
    var rawHypotheses := Iterate(Get(raw.fields, "hypotheses", Arr([])));
    if rawHypotheses.Err? {
      return Invalid(raw, rawHypotheses.error);
    }
    var hypotheses := CollectHypotheses(rawHypotheses.value);

    var rawResults := Iterate(Get(raw.fields, "search_results", Arr([])));
    if rawResults.Err? {
      return Invalid(raw, rawResults.error);
    }
    var searchResults := CollectSearchResults(rawResults.value);

    var explanation: Option<Explanation> := None;
    var rawExplanation := Get(raw.fields, "explanation", Null);
    if Truthy(rawExplanation) && rawExplanation.Obj? {
      explanation := Some(ExplanationFromDict(rawExplanation.fields));
    }
    result := AnalysisResult(hypotheses, searchResults, explanation, raw, true, "");
  }

  /** The hypotheses loop of `parse`: every dict item becomes a hypothesis, anything else is skipped. */
  method CollectHypotheses(items: seq<Json>) returns (hypotheses: seq<Hypothesis>)
    ensures hypotheses == HypothesesOf(items)
  {
    hypotheses := [];
    var i := 0;
    while i < |items|
      invariant 0 <= i <= |items|
      invariant hypotheses == HypothesesOf(items[..i])
    {
      assert items[..i + 1][..i] == items[..i];
      if items[i].Obj? {
        hypotheses := hypotheses + [HypothesisFromDict(items[i].fields)];
      }
      i := i + 1;
    }
    assert items[..|items|] == items;
  }

  /** The search-results loop of `parse`: every dict entry becomes a result, anything else is skipped. */
  method CollectSearchResults(entries: seq<Json>) returns (searchResults: seq<SearchResult>)
    ensures searchResults == SearchResultsOf(entries)
  {
    searchResults := [];
    var j := 0;
    while j < |entries|
      invariant 0 <= j <= |entries|
      invariant searchResults == SearchResultsOf(entries[..j])
    {
      assert entries[..j + 1][..j] == entries[..j];
      if entries[j].Obj? {
        searchResults := searchResults + [SearchResultFromDict(entries[j].fields)];
      }
      j := j + 1;
    }
    assert entries[..|entries|] == entries;
  }

  /** Parsing a concatenation of item lists parses each part: a skipped item does not disturb the others. */
  lemma {:induction false} HypothesesOfAppend(a: seq<Json>, b: seq<Json>)
    ensures HypothesesOf(a + b) == HypothesesOf(a) + HypothesesOf(b)
    decreases |b|
  {
    if b == [] {
      assert a + b == a;
    } else {
      var init := b[..|b| - 1];
      assert (a + b)[..|a + b| - 1] == a + init;
      HypothesesOfAppend(a, init);
    }
  }

  /** One item parses to its hypothesis when it is a dict, and to nothing otherwise. */
  lemma HypothesesOfOne(x: Json)
    ensures HypothesesOf([x]) == if x.Obj? then [HypothesisFromDict(x.fields)] else []
  {
    assert [x][..0] == [];
  }

  /** When every item is a dict, each one gives the hypothesis at its own position. */
  lemma {:induction false} AllDictsParse(items: seq<Json>)
    requires forall k :: 0 <= k < |items| ==> items[k].Obj?
    ensures |HypothesesOf(items)| == |items|
    ensures forall k :: 0 <= k < |items| ==> HypothesesOf(items)[k] == HypothesisFromDict(items[k].fields)
    decreases |items|
  {
    if items != [] {
      AllDictsParse(items[..|items| - 1]);
    }
  }

  /** `parse` of a non-empty dict whose lists are lists is valid and holds the parsed items in order. */
  lemma ParseValidDict(raw: map<string, Json>, hs: seq<Json>, rs: seq<Json>)
    requires raw != map[]
    requires Get(raw, "hypotheses", Arr([])) == Arr(hs) && Get(raw, "search_results", Arr([])) == Arr(rs)
    ensures var r := ParseSpec(Obj(raw));
      && r.isValid
      && r.hypotheses == HypothesesOf(hs)
      && r.searchResults == SearchResultsOf(rs)
      && (r.explanation.Some? <==> Truthy(Get(raw, "explanation", Null)) && Get(raw, "explanation", Null).Obj?)
  {
  }

  // ---------------------------------------------------------------------------------------------
  // validate_schema
  // ---------------------------------------------------------------------------------------------

  /** The confidence levels a hypothesis may declare. */
  predicate IsConfidenceLevel(c: Json) {
    c == Str("high") || c == Str("medium") || c == Str("low")
  }

  /** The checks on hypothesis `i`, in the order the source makes them. */
  function CheckHypothesisSchema(i: nat, h: Json): (r: Outcome<string>)
    ensures r.Pass? <==> HypothesisShaped(h)
  {
    var at := "Hypothesis " + NatToString(i);
    if !h.Obj? then Fail(at + " must be an object")
    else if "title" !in h.fields then Fail(at + " missing required field: title")
    else if "confidence" !in h.fields then Fail(at + " missing required field: confidence")
    else if "summary" !in h.fields then Fail(at + " missing required field: summary")
    else if !IsConfidenceLevel(h.fields["confidence"]) then Fail(at + " has invalid confidence level")
    else Pass
  }

  /** A hypothesis the schema accepts. */
  predicate HypothesisShaped(h: Json) {
    h.Obj? && "title" in h.fields && "confidence" in h.fields && "summary" in h.fields
    && IsConfidenceLevel(h.fields["confidence"])
  }

  /** The hypotheses from `i` on, in order; the first that fails decides. */
  function CheckHypothesesFrom(items: seq<Json>, i: nat): (r: Outcome<string>)
    requires i <= |items|
    ensures r.Pass? <==> forall k :: i <= k < |items| ==> HypothesisShaped(items[k])
    ensures r.Fail? ==> exists k :: (i <= k < |items| && r == CheckHypothesisSchema(k, items[k])
      && forall j :: i <= j < k ==> HypothesisShaped(items[j]))
    decreases |items| - i
  {
    if i == |items| then Pass
    else
      var here := CheckHypothesisSchema(i, items[i]);
      if here.Fail? then here else CheckHypothesesFrom(items, i + 1)
  }

  /** The explanation is absent or falsy, or a dict with `methodology` and `limitations`. */
  predicate ExplanationShaped(e: Json) {
    !Truthy(e) || (e.Obj? && "methodology" in e.fields && "limitations" in e.fields)
  }

  /** The checks on a truthy explanation. */
  function CheckExplanationSchema(e: Json): (r: Outcome<string>)
    ensures r.Pass? <==> ExplanationShaped(e)
  {
    if !Truthy(e) then Pass
    else if !e.Obj? then Fail("explanation must be an object")
    else if "methodology" !in e.fields then Fail("explanation missing required field: methodology")
    else if "limitations" !in e.fields then Fail("explanation missing required field: limitations")
    else Pass
  }

  /** An output the schema accepts. */
  predicate SchemaValid(output: Json) {
    && output.Obj?
    && "hypotheses" in output.fields
    && output.fields["hypotheses"].Arr?
    && (forall k :: 0 <= k < |output.fields["hypotheses"].items| ==> HypothesisShaped(output.fields["hypotheses"].items[k]))
    && ExplanationShaped(Get(output.fields, "explanation", Null))
  }

  /** `validate_schema`: the first failing check decides; hypotheses are checked before the explanation. */
  function ValidateSchema(output: Json): (r: Outcome<string>)
    ensures r.Pass? <==> SchemaValid(output)
    ensures !output.Obj? ==> r == Fail("Output must be a dictionary")
    ensures output.Obj? && "hypotheses" !in output.fields ==> r == Fail("Missing required field: hypotheses")
    ensures output.Obj? && "hypotheses" in output.fields && !output.fields["hypotheses"].Arr? ==>
      r == Fail("hypotheses must be an array")
  {
    if !output.Obj? then Fail("Output must be a dictionary")
    else if "hypotheses" !in output.fields then Fail("Missing required field: hypotheses")
    else if !output.fields["hypotheses"].Arr? then Fail("hypotheses must be an array")
    else
      var hs := CheckHypothesesFrom(output.fields["hypotheses"].items, 0);
      if hs.Fail? then hs else CheckExplanationSchema(Get(output.fields, "explanation", Null))
  }

  /** The first malformed hypothesis is reported, whatever the explanation looks like. */
  lemma FirstBadHypothesisReported(output: map<string, Json>, items: seq<Json>, k: nat)
    requires "hypotheses" in output && output["hypotheses"] == Arr(items)
    requires k < |items| && !HypothesisShaped(items[k])
    requires forall j :: 0 <= j < k ==> HypothesisShaped(items[j])
    ensures ValidateSchema(Obj(output)) == CheckHypothesisSchema(k, items[k])
  {
    FirstBadHypothesisDecides(items, 0, k);
  }

  /** From `i` on, the first hypothesis that is not shaped decides the outcome. */
  lemma {:induction false} FirstBadHypothesisDecides(items: seq<Json>, i: nat, k: nat)
    requires i <= k < |items| && !HypothesisShaped(items[k])
    requires forall j :: i <= j < k ==> HypothesisShaped(items[j])
    ensures CheckHypothesesFrom(items, i) == CheckHypothesisSchema(k, items[k])
    decreases k - i
  {
    if i < k {
      assert CheckHypothesisSchema(i, items[i]).Pass? by {
        assert HypothesisShaped(items[i]);
      }
      FirstBadHypothesisDecides(items, i + 1, k);
    }
  }

  /**
   * An output the schema accepts parses as valid, with one hypothesis per listed item in order,
   * and with an explanation exactly when one is given; its `search_results`, which the schema does
   * not check, must be absent or a list.
   */
  lemma SchemaValidParsesFully(output: map<string, Json>, rs: seq<Json>)
    requires SchemaValid(Obj(output))
    requires Get(output, "search_results", Arr([])) == Arr(rs)
    ensures var items := output["hypotheses"].items;
      var r := ParseSpec(Obj(output));
      && r.isValid
      && |r.hypotheses| == |items|
      && (forall k :: 0 <= k < |items| ==> r.hypotheses[k] == HypothesisFromDict(items[k].fields))
      && (r.explanation.Some? <==> Truthy(Get(output, "explanation", Null)))
  {
    var items := output["hypotheses"].items;
    AllDictsParse(items);
    assert output != map[] by {
      assert "hypotheses" in output;
    }
  }

  // ---------------------------------------------------------------------------------------------
  // to_json
  // ---------------------------------------------------------------------------------------------

  /** One hypothesis as a JSON object. */
  function HypothesisJson(h: Hypothesis): Json {
    Obj(map["title" := h.title, "confidence" := h.confidence, "summary" := h.summary,
            "evidence" := h.evidence, "visualization_type" := h.visualizationType])
  }

  /** One search result as a JSON object. */
  function SearchResultJson(r: SearchResult): Json {
    Obj(map["source" := r.source, "relevance" := r.relevance, "snippet" := r.snippet, "url" := r.url])
  }

  /** The explanation as a JSON object, or `None`. */
  function ExplanationJson(e: Option<Explanation>): Json {
    match e
    case None => Null
    case Some(x) => Obj(map["methodology" := x.methodology, "limitations" := x.limitations, "next_steps" := x.nextSteps])
  }

  /** `to_json` */
  function ToJson(result: AnalysisResult): (j: Json)
    ensures j.Obj? && "hypotheses" in j.fields && "search_results" in j.fields && "meta" in j.fields
    ensures j.fields["hypotheses"].Arr? && |j.fields["hypotheses"].items| == |result.hypotheses|
    ensures forall k :: 0 <= k < |result.hypotheses| ==> j.fields["hypotheses"].items[k] == HypothesisJson(result.hypotheses[k])
    ensures j.fields["search_results"].Arr? && |j.fields["search_results"].items| == |result.searchResults|
    ensures forall k :: 0 <= k < |result.searchResults| ==>
      j.fields["search_results"].items[k] == SearchResultJson(result.searchResults[k])
    ensures var meta := j.fields["meta"];
      && meta.Obj? && "hypothesis_count" in meta.fields && "high_confidence_count" in meta.fields && "is_valid" in meta.fields
      && meta.fields["hypothesis_count"] == Num(result.HypothesisCount())
      && meta.fields["high_confidence_count"] == Num(result.HighConfidenceCount())
      && meta.fields["is_valid"] == Bool(result.isValid)
  {
    Obj(map[
      "hypotheses" := Arr(seq(|result.hypotheses|, k requires 0 <= k < |result.hypotheses| => HypothesisJson(result.hypotheses[k]))),
      "search_results" := Arr(seq(|result.searchResults|, k requires 0 <= k < |result.searchResults| => SearchResultJson(result.searchResults[k]))),
      "explanation" := ExplanationJson(result.explanation),
      "meta" := Obj(map[
        "hypothesis_count" := Num(result.HypothesisCount()),
        "high_confidence_count" := Num(result.HighConfidenceCount()),
        "is_valid" := Bool(result.isValid)])])
  }

  /** Every serialised hypothesis parses back to itself. */
  lemma {:induction false} HypothesesRoundTrip(hs: seq<Hypothesis>, items: seq<Json>)
    requires |items| == |hs| && forall k :: 0 <= k < |hs| ==> items[k] == HypothesisJson(hs[k])
    ensures HypothesesOf(items) == hs
    decreases |hs|
  {
    if hs != [] {
      var n := |hs| - 1;
      HypothesesRoundTrip(hs[..n], items[..n]);
      var h := hs[n];
      assert HypothesisFromDict(items[n].fields) == h;
      assert hs == hs[..n] + [h];
    }
  }

  /** Every serialised search result parses back to itself. */
  lemma {:induction false} SearchResultsRoundTrip(rs: seq<SearchResult>, items: seq<Json>)
    requires |items| == |rs| && forall k :: 0 <= k < |rs| ==> items[k] == SearchResultJson(rs[k])
    ensures SearchResultsOf(items) == rs
    decreases |rs|
  {
    if rs != [] {
      var n := |rs| - 1;
      SearchResultsRoundTrip(rs[..n], items[..n]);
      var r := rs[n];
      assert SearchResultFromDict(items[n].fields) == r;
      assert rs == rs[..n] + [r];
    }
  }

  /** Parsing what `to_json` produced gives back the same hypotheses, search results and explanation, as a valid result. */
  lemma ToJsonRoundTrip(result: AnalysisResult)
    ensures var back := ParseSpec(ToJson(result));
      && back.isValid
      && back.hypotheses == result.hypotheses
      && back.searchResults == result.searchResults
      && back.explanation == result.explanation
  {
    var j := ToJson(result);
    assert "meta" in j.fields;
    assert Truthy(j);
    HypothesesRoundTrip(result.hypotheses, j.fields["hypotheses"].items);
    SearchResultsRoundTrip(result.searchResults, j.fields["search_results"].items);
    assert j.fields["explanation"] == ExplanationJson(result.explanation);
    if result.explanation.Some? {
      var e := ExplanationJson(result.explanation);
      assert "methodology" in e.fields;
      assert ExplanationFromDict(e.fields) == result.explanation.value;
    }
  }
}
