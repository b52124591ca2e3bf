/**
 * The Bedrock client: how a Converse request is assembled from the caller's arguments and the
 * service defaults, and how the reply is interpreted. The network call itself (`client.converse`)
 * is an oracle parameter returning the reply or the exception boto3 raised; `json.loads` is an
 * oracle too. The elapsed time is an input.
 */
module Bedrock {
  import opened Wrappers
  import opened Values

  const DefaultGuardrailVersion := "DRAFT"
  const DefaultModelId := "anthropic.claude-3-sonnet-20240229-v1:0"
  const DefaultMaxTokens := 4096
  const ToolName := "submit_analysis"
  const ToolDescription := "Submit the structured analysis results. You must use this tool to provide your analysis."
  const BlockedMessage := "Content blocked by Bedrock Guardrails"
  const GuardrailIntervened := "guardrail_intervened"

  const DataAnalystSystemPrompt :=
    "You are an expert data analyst assistant. Your role is to:\n\n"
    + "1. Analyze data and generate hypotheses based on the information provided\n"
    + "2. Provide evidence-based insights with clear confidence levels\n"
    + "3. Be transparent about limitations and methodology\n"
    + "4. Suggest actionable next steps\n\n"
    + "Guidelines:\n"
    + "- Always cite specific evidence for your hypotheses\n"
    + "- Be conservative with confidence levels - use \"high\" only when strongly supported\n"
    + "- Consider alternative explanations\n"
    + "- Focus on actionable insights\n"
    + "- If data is insufficient, clearly state what additional information would help\n\n"
    + "You must respond using the provided analysis tool to structure your output."

  /** A schema property `{"type": t, "description": d}`. */
  function Described(t: string, d: string): Json {
    Obj(map["type" := Str(t), "description" := Str(d)])
  }

  function StrArr(xs: seq<string>): Json {
    Arr(seq(|xs|, i requires 0 <= i < |xs| => Str(xs[i])))
  }

  /** The JSON schema the structured call asks the model to fill in by default. */
  const AnalysisOutputSchema: Json := Obj(map[
    "type" := Str("object"),
    "properties" := Obj(map[
      "hypotheses" := Obj(map[
        "type" := Str("array"),
        "description" := Str("List of hypotheses generated from the analysis"),
        "items" := Obj(map[
          "type" := Str("object"),
          "properties" := Obj(map[
            "title" := Described("string", "Brief title for the hypothesis"),
            "confidence" := Obj(map["type" := Str("string"), "enum" := StrArr(["high", "medium", "low"]),
                                    "description" := Str("Confidence level in this hypothesis")]),
            "summary" := Described("string", "Detailed summary of the hypothesis"),
            "evidence" := Obj(map["type" := Str("array"), "items" := Obj(map["type" := Str("string")]),
                                  "description" := Str("List of evidence supporting this hypothesis")]),
            "visualization_type" := Obj(map["type" := Str("string"), "enum" := StrArr(["chart", "table", "text", "none"]),
                                            "description" := Str("Recommended visualization type")])]),
          "required" := StrArr(["title", "confidence", "summary", "evidence"])])]),
      "search_results" := Obj(map[
        "type" := Str("array"),
        "description" := Str("Relevant data sources or references"),
        "items" := Obj(map[
          "type" := Str("object"),
          "properties" := Obj(map[
            "source" := Described("string", "Name or identifier of the source"),
            "relevance" := Obj(map["type" := Str("string"), "enum" := StrArr(["high", "medium", "low"]),
                                   "description" := Str("Relevance to the query")]),
            "snippet" := Described("string", "Key excerpt or finding"),
            "url" := Described("string", "Optional URL or reference link")]),
          "required" := StrArr(["source", "relevance", "snippet"])])]),
      "explanation" := Obj(map[
        "type" := Str("object"),
        "description" := Str("Explanation of the analysis methodology"),
        "properties" := Obj(map[
          "methodology" := Described("string", "How the analysis was conducted"),
          "limitations" := Described("string", "Known limitations of this analysis"),
          "next_steps" := Obj(map["type" := Str("array"), "items" := Obj(map["type" := Str("string")]),
                                  "description" := Str("Recommended follow-up actions")])]),
        "required" := StrArr(["methodology", "limitations", "next_steps"])])]),
    "required" := StrArr(["hypotheses", "explanation"])])

  /**
   * The service's exceptions. Both are a `BedrockServiceError`; a guardrail block is the subclass
   * that also carries the guardrail trace. `message` is what `str(e)` gives.
   */
  datatype BedrockError =
    | GuardrailBlocked(message: string, guardrailResponse: Json)
    | ServiceFailure(message: string)

  /** What `client.converse` did: returned a reply, or raised `ClientError` or `BotoCoreError`. */
  datatype ConverseOutcome =
    | Replied(response: Json)
    | ClientError(errorResponse: Json, text: string)
    | BotoCoreError(text: string)

  /** The client oracle: the outcome of sending a request. */
  type Converse = map<string, Json> -> ConverseOutcome

  /** The `json.loads` oracle: the parsed value, or `None` for a `JSONDecodeError`. */
  type JsonLoads = string -> Option<Json>

  /** A Python `str` argument that is truthy: given and non-empty. */
  predicate Given(s: Option<string>) {
    s.Some? && s.value != ""
  }

  /** A Python `int` argument that is truthy: given and non-zero. */
  predicate GivenInt(n: Option<int>) {
    n.Some? && n.value != 0
  }

  /** The result of `invoke_with_guardrails`. */
  datatype TextReply = TextReply(
    content: string,
    inputTokens: Json,
    outputTokens: Json,
    stopReason: Json,
    elapsedMs: int,
    guardrailTrace: Json)

  // ---------------------------------------------------------------------------------------------
  // Request assembly
  // ---------------------------------------------------------------------------------------------

  /** `messages`: one user turn holding the prompt as its only text block. */
  function UserMessages(prompt: string): Json {
    Arr([Obj(map["role" := Str("user"), "content" := Arr([Obj(map["text" := Str(prompt)])])])])
  }

  function InferenceConfig(tokens: int): Json {
    Obj(map["maxTokens" := Num(tokens)])
  }

  function SystemBlocks(text: string): Json {
    Arr([Obj(map["text" := Str(text)])])
  }

  function GuardrailConfig(id: string, version: string): Json {
    Obj(map["guardrailIdentifier" := Str(id), "guardrailVersion" := Str(version), "trace" := Str("enabled")])
  }

  /** The single `submit_analysis` tool, which the model is forced to call. */
  function ToolConfig(schema: Json): Json {
    Obj(map[
      "tools" := Arr([Obj(map["toolSpec" := Obj(map[
        "name" := Str(ToolName),
        "description" := Str(ToolDescription),
        "inputSchema" := Obj(map["json" := schema])])])]),
      "toolChoice" := Obj(map["tool" := Obj(map["name" := Str(ToolName)])])])
  }

  /**
   * A configured service. The guardrail id, its version, the default model and token limit come
   * from the Django settings; `systemPrompt` and `analysisSchema` are the module's constants,
   * which `NewBedrockService` fills in.
   */
  datatype BedrockService = BedrockService(
    guardrailId: Option<string>,
    guardrailVersion: string,
    defaultModelId: string,
    defaultMaxTokens: int,
    systemPrompt: string,
    analysisSchema: Json)
  {
    /** `model_id or self.default_model_id`. */
    function EffectiveModel(modelId: Option<string>): (r: string)
      ensures Given(modelId) ==> r == modelId.value
      ensures !Given(modelId) ==> r == defaultModelId
    {
      if Given(modelId) then modelId.value else defaultModelId
    }

    /** `max_tokens or self.default_max_tokens`. */
    function EffectiveTokens(maxTokens: Option<int>): (r: int)
      ensures GivenInt(maxTokens) ==> r == maxTokens.value
      ensures !GivenInt(maxTokens) ==> r == defaultMaxTokens
    {
      if GivenInt(maxTokens) then maxTokens.value else defaultMaxTokens
    }

    /** `guardrail_id or self.guardrail_id`. */
    function EffectiveGuardrail(guardrailId: Option<string>): (r: Option<string>)
      ensures Given(guardrailId) ==> r == guardrailId
      ensures !Given(guardrailId) ==> r == this.guardrailId
    {
      if Given(guardrailId) then guardrailId else this.guardrailId
    }

    /** `output_schema or ANALYSIS_OUTPUT_SCHEMA`. */
    function EffectiveSchema(outputSchema: Json): (r: Json)
      ensures Truthy(outputSchema) ==> r == outputSchema
      ensures !Truthy(outputSchema) ==> r == analysisSchema
    {
      if Truthy(outputSchema) then outputSchema else analysisSchema
    }

    /** The request `invoke_with_guardrails` sends. */
    function GuardedRequest(prompt: string, systemPrompt: Option<string>, guardrailId: Option<string>,
                            modelId: Option<string>, maxTokens: Option<int>): (r: map<string, Json>)
      ensures r.Keys == {"modelId", "messages", "inferenceConfig"}
                        + (if Given(systemPrompt) then {"system"} else {})
                        + (if Given(EffectiveGuardrail(guardrailId)) then {"guardrailConfig"} else {})
      ensures r["modelId"] == Str(EffectiveModel(modelId))
      ensures r["messages"] == UserMessages(prompt)
      ensures r["inferenceConfig"] == InferenceConfig(EffectiveTokens(maxTokens))
      ensures "system" in r ==> r["system"] == SystemBlocks(systemPrompt.value)
      ensures "guardrailConfig" in r ==>
                r["guardrailConfig"] == GuardrailConfig(EffectiveGuardrail(guardrailId).value, guardrailVersion)
    {
      var base := map["modelId" := Str(EffectiveModel(modelId)), "messages" := UserMessages(prompt),
                      "inferenceConfig" := InferenceConfig(EffectiveTokens(maxTokens))];
      var withSystem := if Given(systemPrompt) then base["system" := SystemBlocks(systemPrompt.value)] else base;
      var gid := EffectiveGuardrail(guardrailId);
      if Given(gid) then withSystem["guardrailConfig" := GuardrailConfig(gid.value, guardrailVersion)] else withSystem
    }

    /** The request `invoke_structured` sends: always the analyst system prompt and the forced tool. */
    function StructuredRequest(prompt: string, outputSchema: Json, guardrailId: Option<string>,
                               modelId: Option<string>, maxTokens: Option<int>): (r: map<string, Json>)
      ensures r.Keys == {"modelId", "messages", "system", "toolConfig", "inferenceConfig"}
                        + (if Given(EffectiveGuardrail(guardrailId)) then {"guardrailConfig"} else {})
      ensures r["modelId"] == Str(EffectiveModel(modelId))
      ensures r["messages"] == UserMessages(prompt)
      ensures r["system"] == SystemBlocks(systemPrompt)
      ensures r["toolConfig"] == ToolConfig(EffectiveSchema(outputSchema))
      ensures r["inferenceConfig"] == InferenceConfig(EffectiveTokens(maxTokens))
      ensures "guardrailConfig" in r ==>
                r["guardrailConfig"] == GuardrailConfig(EffectiveGuardrail(guardrailId).value, guardrailVersion)
    {
      var base := map["modelId" := Str(EffectiveModel(modelId)), "messages" := UserMessages(prompt),
                      "system" := SystemBlocks(systemPrompt), "toolConfig" := ToolConfig(EffectiveSchema(outputSchema)),
                      "inferenceConfig" := InferenceConfig(EffectiveTokens(maxTokens))];
      var gid := EffectiveGuardrail(guardrailId);
      if Given(gid) then base["guardrailConfig" := GuardrailConfig(gid.value, guardrailVersion)] else base
    }

    /** Builds the `invoke_with_guardrails` request key by key. */
    method BuildGuardedRequest(prompt: string, systemPrompt: Option<string>, guardrailId: Option<string>,
                               modelId: Option<string>, maxTokens: Option<int>) returns (params: map<string, Json>)
      ensures params == GuardedRequest(prompt, systemPrompt, guardrailId, modelId, maxTokens)
    {
      var model := EffectiveModel(modelId);
      var tokens := EffectiveTokens(maxTokens);
      var gid := EffectiveGuardrail(guardrailId);
      params := map["modelId" := Str(model), "messages" := UserMessages(prompt), "inferenceConfig" := InferenceConfig(tokens)];
      if Given(systemPrompt) {
        params := params["system" := SystemBlocks(systemPrompt.value)];
      }
      if Given(gid) {
        params := params["guardrailConfig" := GuardrailConfig(gid.value, guardrailVersion)];
      }
    }

    /** Builds the `invoke_structured` request key by key. */
    method BuildStructuredRequest(prompt: string, outputSchema: Json, guardrailId: Option<string>,
                                  modelId: Option<string>, maxTokens: Option<int>) returns (params: map<string, Json>)
      ensures params == StructuredRequest(prompt, outputSchema, guardrailId, modelId, maxTokens)
    {
      var model := EffectiveModel(modelId);
      var tokens := EffectiveTokens(maxTokens);
      var gid := EffectiveGuardrail(guardrailId);
      var schema := EffectiveSchema(outputSchema);
      var toolConfig := ToolConfig(schema);
      params := map["modelId" := Str(model), "messages" := UserMessages(prompt), "system" := SystemBlocks(systemPrompt),
                    "toolConfig" := toolConfig, "inferenceConfig" := InferenceConfig(tokens)];
      if Given(gid) {
        params := params["guardrailConfig" := GuardrailConfig(gid.value, guardrailVersion)];
      }
    }

    /** `invoke_with_guardrails`: send the request, then interpret the outcome. */
    method InvokeWithGuardrails(prompt: string, systemPrompt: Option<string>, guardrailId: Option<string>,
                                modelId: Option<string>, maxTokens: Option<int>, converse: Converse, elapsedMs: int)
      returns (r: Result<TextReply, BedrockError>)
      ensures r == InterpretText(converse(GuardedRequest(prompt, systemPrompt, guardrailId, modelId, maxTokens)), elapsedMs)
    {
      var params := BuildGuardedRequest(prompt, systemPrompt, guardrailId, modelId, maxTokens);
      var outcome := converse(params);
      if !outcome.Replied? {
        r := Err(TransportFailure(outcome));
        return;
      }
      var response := outcome.response;
      var stopReason := StopReason(response);
      if stopReason == Str(GuardrailIntervened) {
        r := Err(GuardrailBlocked(BlockedMessage, BlockTrace(response)));
        return;
      }
      var text := CollectText(ContentBlocks(response));
      r := Ok(TextReply(text, InputTokens(response), OutputTokens(response), stopReason, elapsedMs, GuardrailTrace(response)));
    }

    /** `invoke_structured`: send the request with the forced tool, then interpret the outcome. */
    method InvokeStructured(prompt: string, outputSchema: Json, guardrailId: Option<string>,
                            modelId: Option<string>, maxTokens: Option<int>, converse: Converse, loads: JsonLoads,
                            elapsedMs: int)
      returns (r: Result<LlmResponse, BedrockError>)
      ensures r == InterpretStructured(converse(StructuredRequest(prompt, outputSchema, guardrailId, modelId, maxTokens)),
                                       loads, elapsedMs)
    {
      var params := BuildStructuredRequest(prompt, outputSchema, guardrailId, modelId, maxTokens);
      var outcome := converse(params);
      if !outcome.Replied? {
        r := Err(TransportFailure(outcome));
        return;
      }
      var response := outcome.response;
      var stopReason := StopReason(response);
      if stopReason == Str(GuardrailIntervened) {
        r := Err(GuardrailBlocked(BlockedMessage, BlockTrace(response)));
        return;
      }
      var result := SelectStructuredResult(ContentBlocks(response), loads);
      r := Ok(LlmResponse(result, InputTokens(response), OutputTokens(response), stopReason, elapsedMs,
                          GuardrailTrace(response), false));
    }
  }

  /** `BedrockService()` with the settings' values (or their fallbacks) and the module constants. */
  function NewBedrockService(guardrailId: Option<string>, guardrailVersion: Option<string>,
                             modelId: Option<string>, maxTokens: Option<int>): (s: BedrockService)
    ensures s.guardrailId == guardrailId
    ensures s.guardrailVersion == guardrailVersion.GetOr(DefaultGuardrailVersion)
    ensures s.defaultModelId == modelId.GetOr(DefaultModelId)
    ensures s.defaultMaxTokens == maxTokens.GetOr(DefaultMaxTokens)
    ensures s.systemPrompt == DataAnalystSystemPrompt && s.analysisSchema == AnalysisOutputSchema
  {
    BedrockService(guardrailId, guardrailVersion.GetOr(DefaultGuardrailVersion), modelId.GetOr(DefaultModelId),
                   maxTokens.GetOr(DefaultMaxTokens), DataAnalystSystemPrompt, AnalysisOutputSchema)
  }

  // ---------------------------------------------------------------------------------------------
  // Reading the reply
  // ---------------------------------------------------------------------------------------------

  /** `response.get('stopReason', '')`. */
  function StopReason(response: Json): Json {
    Lookup(response, "stopReason", Str(""))
  }

  predicate Intervened(response: Json) {
    StopReason(response) == Str(GuardrailIntervened)
  }

  /** `response.get('trace', {}).get('guardrail', {})`: the payload a block carries. */
  function BlockTrace(response: Json): Json {
    Lookup(Lookup(response, "trace", Obj(map[])), "guardrail", Obj(map[]))
  }

  /** `response.get('trace', {}).get('guardrail')`: the trace a normal reply carries. */
  function GuardrailTrace(response: Json): Json {
    Lookup(Lookup(response, "trace", Obj(map[])), "guardrail", Null)
  }

  /** `response['output']['message']['content']`, each level defaulting to empty. */
  function ContentBlocks(response: Json): seq<Json> {
    var content := Lookup(Lookup(Lookup(response, "output", Obj(map[])), "message", Obj(map[])), "content", Arr([]));
    if content.Arr? then content.items else []
  }

  function Usage(response: Json): Json {
    Lookup(response, "usage", Obj(map[]))
  }

  function InputTokens(response: Json): Json {
    Lookup(Usage(response), "inputTokens", Num(0))
  }

  function OutputTokens(response: Json): Json {
    Lookup(Usage(response), "outputTokens", Num(0))
  }

  /** `e.response['Error']['Message']`, falling back to `str(e)`. */
  function ClientErrorMessage(errorResponse: Json, text: string): string {
    var m := Lookup(Lookup(errorResponse, "Error", Obj(map[])), "Message", Str(text));
    if m.Str? then m.s else text
  }

  /** The `BedrockServiceError` a raised boto3 exception becomes. */
  function TransportFailure(outcome: ConverseOutcome): (e: BedrockError)
    requires !outcome.Replied?
    ensures e.ServiceFailure?
    ensures outcome.ClientError? ==> e.message == "Bedrock error: " + ClientErrorMessage(outcome.errorResponse, outcome.text)
    ensures outcome.BotoCoreError? ==> e.message == "AWS error: " + outcome.text
  {
    match outcome
    case ClientError(errorResponse, text) => ServiceFailure("Bedrock error: " + ClientErrorMessage(errorResponse, text))
    case BotoCoreError(text) => ServiceFailure("AWS error: " + text)
  }

  /** A content block with a `text` key. */
  predicate HasText(block: Json) {
    block.Obj? && "text" in block.fields
  }

  /** `block['text']`; boto3 always gives a string there. */
  function BlockText(block: Json): string {
    if HasText(block) && block.fields["text"].Str? then block.fields["text"].s else ""
  }

  /** The texts of the blocks that have one, concatenated in order. */
  function ConcatTexts(blocks: seq<Json>): (r: string)
    ensures (forall k :: 0 <= k < |blocks| ==> !HasText(blocks[k])) ==> r == ""
    decreases |blocks|
  {
    if blocks == [] then ""
    else ConcatTexts(blocks[..|blocks| - 1]) + (if HasText(blocks[|blocks| - 1]) then BlockText(blocks[|blocks| - 1]) else "")
  }

  /** The accumulation loop of `invoke_with_guardrails`. */
  method CollectText(blocks: seq<Json>) returns (text: string)
    ensures text == ConcatTexts(blocks)
  {
    text := "";
    var i := 0;
    while i < |blocks|
      invariant 0 <= i <= |blocks|
      invariant text == ConcatTexts(blocks[..i])
    {
      assert blocks[..i + 1][..i] == blocks[..i];
      if HasText(blocks[i]) {
        text := text + BlockText(blocks[i]);
      }
      i := i + 1;
    }
    assert blocks[..i] == blocks;
  }

  /** Appending one block appends its text, if it has one. */
  lemma ConcatTextsSnoc(blocks: seq<Json>, block: Json)
    ensures ConcatTexts(blocks + [block]) == ConcatTexts(blocks) + (if HasText(block) then BlockText(block) else "")
  {
    assert (blocks + [block])[..|blocks|] == blocks;
  }

  /** Splitting off the last element of `b` commutes with prefixing `a`. */
  lemma AppendLast<T>(a: seq<T>, b: seq<T>)
    requires b != []
    ensures b == b[..|b| - 1] + [b[|b| - 1]]
    ensures a + b == (a + b[..|b| - 1]) + [b[|b| - 1]]
  {
  }

  /** Regrouping a concatenation of three sequences; stated once so the text proofs need not rediscover it. */
  lemma AppendAssoc<T>(x: seq<T>, y: seq<T>, z: seq<T>)
    ensures (x + y) + z == x + (y + z)
  {
  }

  /** The text of a concatenation of block lists is the concatenation of their texts. */
  lemma {:induction false} ConcatTextsAppend(a: seq<Json>, b: seq<Json>)
    ensures ConcatTexts(a + b) == ConcatTexts(a) + ConcatTexts(b)
    decreases |b|
  {
    if b == [] {
      assert a + b == a;
    } else {
      var b', block := b[..|b| - 1], b[|b| - 1];
      AppendLast(a, b);
      ConcatTextsAppend(a, b');
      ConcatTextsSnoc(a + b', block);
      ConcatTextsSnoc(b', block);
      AppendAssoc(ConcatTexts(a), ConcatTexts(b'), if HasText(block) then BlockText(block) else "");
    }
  }

  /** The concatenation is made of each block's text in order: splitting the blocks splits the text. */
  lemma ConcatTextsCons(block: Json, rest: seq<Json>)
    ensures ConcatTexts([block] + rest) == (if HasText(block) then BlockText(block) else "") + ConcatTexts(rest)
  {
    ConcatTextsAppend([block], rest);
    assert [block][..0] == [];
  }

  /** A `toolUse` block naming `submit_analysis`. */
  predicate IsAnalysisToolUse(block: Json) {
    block.Obj? && "toolUse" in block.fields && Lookup(block.fields["toolUse"], "name", Null) == Str(ToolName)
  }

  /** `tool_use.get('input', {})`. */
  function ToolInput(block: Json): Json
    requires IsAnalysisToolUse(block)
  {
    Lookup(block.fields["toolUse"], "input", Obj(map[]))
  }

  /** A text block whose text `json.loads` accepts. */
  predicate ParsesAt(block: Json, loads: JsonLoads) {
    HasText(block) && loads(BlockText(block)).Some?
  }

  /** The index of the first `submit_analysis` tool call at or after `i`. */
  function FirstToolUseFrom(blocks: seq<Json>, i: nat): (r: Option<nat>)
    requires i <= |blocks|
    ensures r.Some? ==> i <= r.value < |blocks| && IsAnalysisToolUse(blocks[r.value])
    ensures r.Some? ==> forall j :: i <= j < r.value ==> !IsAnalysisToolUse(blocks[j])
    ensures r.None? <==> forall j :: i <= j < |blocks| ==> !IsAnalysisToolUse(blocks[j])
    decreases |blocks| - i
  {
    if i == |blocks| then None
    else if IsAnalysisToolUse(blocks[i]) then Some(i)
    else FirstToolUseFrom(blocks, i + 1)
  }

  /** The index of the first text block at or after `i` that parses. */
  function FirstParsedFrom(blocks: seq<Json>, loads: JsonLoads, i: nat): (r: Option<nat>)
    requires i <= |blocks|
    ensures r.Some? ==> i <= r.value < |blocks| && ParsesAt(blocks[r.value], loads)
    ensures r.Some? ==> forall j :: i <= j < r.value ==> !ParsesAt(blocks[j], loads)
    ensures r.None? <==> forall j :: i <= j < |blocks| ==> !ParsesAt(blocks[j], loads)
    decreases |blocks| - i
  {
    if i == |blocks| then None
    else if ParsesAt(blocks[i], loads) then Some(i)
    else FirstParsedFrom(blocks, loads, i + 1)
  }

  /** The input of the first `submit_analysis` tool use, or `null` when there is none. */
  function ToolChoice(blocks: seq<Json>): (r: Json)
    ensures (forall k :: 0 <= k < |blocks| ==> !IsAnalysisToolUse(blocks[k])) ==> r == Null
    ensures r != Null ==> exists k :: (0 <= k < |blocks| && IsAnalysisToolUse(blocks[k]) && r == ToolInput(blocks[k])
      && forall j :: 0 <= j < k ==> !IsAnalysisToolUse(blocks[j]))
  {
    match FirstToolUseFrom(blocks, 0)
    case Some(k) => ToolInput(blocks[k])
    case None => Null
  }

  /** The value parsed from the first text block that parses, or `null` when none does. */
  function TextChoice(blocks: seq<Json>, loads: JsonLoads): (r: Json)
    ensures (forall k :: 0 <= k < |blocks| ==> !ParsesAt(blocks[k], loads)) ==> r == Null
    ensures r != Null ==> exists k :: (0 <= k < |blocks| && ParsesAt(blocks[k], loads) && r == loads(BlockText(blocks[k])).value
      && forall j :: 0 <= j < k ==> !ParsesAt(blocks[j], loads))
  {
    match FirstParsedFrom(blocks, loads, 0)
    case Some(k) => loads(BlockText(blocks[k])).value
    case None => Null
  }

  /**
   * The structured result: the first `submit_analysis` input; if there is none (or it is an
   * explicit `null`), the first text block that parses; a falsy choice, or none, becomes `{}`.
   */
  function StructuredResult(blocks: seq<Json>, loads: JsonLoads): (r: Json)
    ensures Truthy(r) || r == Obj(map[])
    ensures r == Obj(map[]) || r == ToolChoice(blocks) || r == TextChoice(blocks, loads)
  {
    var chosen := if ToolChoice(blocks) != Null then ToolChoice(blocks) else TextChoice(blocks, loads);
    if Truthy(chosen) then chosen else Obj(map[])
  }

  /** The first scanning loop of `invoke_structured`: it stops at the first tool use. */
  method FindToolInput(blocks: seq<Json>) returns (structured: Json)
    ensures structured == ToolChoice(blocks)
  {
    structured := Null;
    var found := false;
    var i := 0;
    while i < |blocks| && !found
      invariant 0 <= i <= |blocks|
      invariant !found ==> structured == Null && forall j :: 0 <= j < i ==> !IsAnalysisToolUse(blocks[j])
      invariant found ==> FirstToolUseFrom(blocks, 0) == Some(i - 1) && structured == ToolInput(blocks[i - 1])
    {
      var block := blocks[i];
      if block.Obj? && "toolUse" in block.fields {
        var toolUse := block.fields["toolUse"];
        if Lookup(toolUse, "name", Null) == Str(ToolName) {
          structured := Lookup(toolUse, "input", Obj(map[]));
          found := true;
        }
      }
      i := i + 1;
    }
  }

  /** The second scanning loop of `invoke_structured`: it stops at the first text that parses. */
  method FindParsedText(blocks: seq<Json>, loads: JsonLoads) returns (structured: Json)
    ensures structured == TextChoice(blocks, loads)
  {
    structured := Null;
    var parsed := false;
    var i := 0;
    while i < |blocks| && !parsed
      invariant 0 <= i <= |blocks|
      invariant !parsed ==> structured == Null && forall j :: 0 <= j < i ==> !ParsesAt(blocks[j], loads)
      invariant parsed ==> FirstParsedFrom(blocks, loads, 0) == Some(i - 1)
                           && structured == loads(BlockText(blocks[i - 1])).value
    {
      var block := blocks[i];
      if block.Obj? && "text" in block.fields {
        var value := loads(BlockText(block));
        if value.Some? {
          structured := value.value;
          parsed := true;
        }
      }
      i := i + 1;
    }
  }

  /** The selection `invoke_structured` makes among the reply's content blocks. */
  method SelectStructuredResult(blocks: seq<Json>, loads: JsonLoads) returns (result: Json)
    ensures result == StructuredResult(blocks, loads)
  {
    var structured := FindToolInput(blocks);
    if structured == Null {
      structured := FindParsedText(blocks, loads);
    }
    result := if Truthy(structured) then structured else Obj(map[]);
  }

  /** How `invoke_with_guardrails` reads the outcome of the call. */
  function InterpretText(outcome: ConverseOutcome, elapsedMs: int): (r: Result<TextReply, BedrockError>)
    ensures outcome.Replied? && Intervened(outcome.response) ==>
              r == Err(GuardrailBlocked(BlockedMessage, BlockTrace(outcome.response)))
    ensures !outcome.Replied? ==> r.Err? && r.error.ServiceFailure?
    ensures r.Ok? <==> outcome.Replied? && !Intervened(outcome.response)
    ensures r.Ok? ==> r.value.content == ConcatTexts(ContentBlocks(outcome.response))
                      && r.value.stopReason == StopReason(outcome.response)
                      && r.value.guardrailTrace == GuardrailTrace(outcome.response)
  {
    match outcome
    case Replied(response) =>
      if Intervened(response) then Err(GuardrailBlocked(BlockedMessage, BlockTrace(response)))
      else Ok(TextReply(ConcatTexts(ContentBlocks(response)), InputTokens(response), OutputTokens(response),
                        StopReason(response), elapsedMs, GuardrailTrace(response)))
    case _ => Err(TransportFailure(outcome))
  }

  /** How `invoke_structured` reads the outcome of the call. */
  function InterpretStructured(outcome: ConverseOutcome, loads: JsonLoads, elapsedMs: int): (r: Result<LlmResponse, BedrockError>)
    ensures outcome.Replied? && Intervened(outcome.response) ==>
              r == Err(GuardrailBlocked(BlockedMessage, BlockTrace(outcome.response)))
    ensures !outcome.Replied? ==> r.Err? && r.error.ServiceFailure?
    ensures r.Ok? <==> outcome.Replied? && !Intervened(outcome.response)
    ensures r.Ok? ==> r.value.result == StructuredResult(ContentBlocks(outcome.response), loads)
                      && r.value.stopReason == StopReason(outcome.response)
                      && r.value.guardrailTrace == GuardrailTrace(outcome.response)
                      && !r.value.demoMode
  {
    match outcome
    case Replied(response) =>
      if Intervened(response) then Err(GuardrailBlocked(BlockedMessage, BlockTrace(response)))
      else Ok(LlmResponse(StructuredResult(ContentBlocks(response), loads), InputTokens(response), OutputTokens(response),
                          StopReason(response), elapsedMs, GuardrailTrace(response), false))
    case _ => Err(TransportFailure(outcome))
  }

  // ---------------------------------------------------------------------------------------------
  // Properties
  // ---------------------------------------------------------------------------------------------

  /** Guardrails are configured on a call exactly when the effective guardrail id is non-empty, in both entry points. */
  lemma GuardrailConfiguredIff(svc: BedrockService, prompt: string, systemPrompt: Option<string>, schema: Json,
                               guardrailId: Option<string>, modelId: Option<string>, maxTokens: Option<int>)
    ensures "guardrailConfig" in svc.GuardedRequest(prompt, systemPrompt, guardrailId, modelId, maxTokens)
            <==> Given(guardrailId) || Given(svc.guardrailId)
    ensures "guardrailConfig" in svc.StructuredRequest(prompt, schema, guardrailId, modelId, maxTokens)
            <==> Given(guardrailId) || Given(svc.guardrailId)
  {
  }

  /**
   * A `guardrail_intervened` reply is a block in both entry points, whatever the reply contains
   * otherwise: the carried payload is the guardrail trace and no result is produced.
   */
  lemma GuardrailBlockAlwaysRaises(response: Json, loads: JsonLoads, elapsedMs: int)
    requires Intervened(response)
    ensures InterpretText(Replied(response), elapsedMs) == Err(GuardrailBlocked(BlockedMessage, BlockTrace(response)))
    ensures InterpretStructured(Replied(response), loads, elapsedMs) == Err(GuardrailBlocked(BlockedMessage, BlockTrace(response)))
  {
  }

  /** A raised boto3 exception becomes the same `BedrockServiceError` in both entry points, never a block. */
  lemma TransportFailuresAgree(outcome: ConverseOutcome, loads: JsonLoads, elapsedMs: int)
    requires !outcome.Replied?
    ensures InterpretText(outcome, elapsedMs).Err? && InterpretStructured(outcome, loads, elapsedMs).Err?
    ensures InterpretText(outcome, elapsedMs).error == InterpretStructured(outcome, loads, elapsedMs).error
    ensures !InterpretText(outcome, elapsedMs).error.GuardrailBlocked?
  {
  }

  /**
   * Each token count is the usage section's entry when it has one and 0 when it does not, in
   * both entry points; a reply without a usage section reads as an empty one.
   */
  lemma MissingUsageIsZero(response: Json, loads: JsonLoads, elapsedMs: int)
    requires !Intervened(response) && Usage(response).Obj?
    ensures response.Obj? && "usage" !in response.fields ==> Usage(response) == Obj(map[])
    ensures var text := InterpretText(Replied(response), elapsedMs).value;
      var structured := InterpretStructured(Replied(response), loads, elapsedMs).value;
      && ("inputTokens" !in Usage(response).fields ==> text.inputTokens == Num(0) && structured.inputTokens == Num(0))
      && ("outputTokens" !in Usage(response).fields ==> text.outputTokens == Num(0) && structured.outputTokens == Num(0))
      && ("inputTokens" in Usage(response).fields ==>
            text.inputTokens == Usage(response).fields["inputTokens"] && structured.inputTokens == text.inputTokens)
      && ("outputTokens" in Usage(response).fields ==>
            text.outputTokens == Usage(response).fields["outputTokens"] && structured.outputTokens == text.outputTokens)
  {
  }

  /**
   * The first `submit_analysis` call wins: its (truthy) input is the result, whatever follows it
   * and whatever the text blocks say.
   */
  lemma ToolUsePreferred(blocks: seq<Json>, loads: JsonLoads, k: nat)
    requires k < |blocks| && IsAnalysisToolUse(blocks[k])
    requires forall j :: 0 <= j < k ==> !IsAnalysisToolUse(blocks[j])
    requires Truthy(ToolInput(blocks[k]))
    ensures StructuredResult(blocks, loads) == ToolInput(blocks[k])
  {
    FirstToolUseIs(blocks, 0, k);
  }

  /** Without a `submit_analysis` call, the first text block that parses (to a truthy value) is the result. */
  lemma TextFallback(blocks: seq<Json>, loads: JsonLoads, k: nat)
    requires forall j :: 0 <= j < |blocks| ==> !IsAnalysisToolUse(blocks[j])
    requires k < |blocks| && ParsesAt(blocks[k], loads)
    requires forall j :: 0 <= j < k ==> !ParsesAt(blocks[j], loads)
    requires Truthy(loads(BlockText(blocks[k])).value)
    ensures StructuredResult(blocks, loads) == loads(BlockText(blocks[k])).value
  {
    FirstParsedIs(blocks, loads, 0, k);
  }

  /** With neither a tool call nor parseable text, the result is `{}`. */
  lemma NothingUsableIsEmpty(blocks: seq<Json>, loads: JsonLoads)
    requires forall j :: 0 <= j < |blocks| ==> !IsAnalysisToolUse(blocks[j])
    requires forall j :: 0 <= j < |blocks| ==> !ParsesAt(blocks[j], loads)
    ensures StructuredResult(blocks, loads) == Obj(map[])
  {
  }

  /** A `submit_analysis` call whose input is an explicit `null` does not stop the text fallback. */
  lemma NullToolInputFallsBack(blocks: seq<Json>, loads: JsonLoads, k: nat)
    requires FirstToolUseFrom(blocks, 0).Some? && ToolInput(blocks[FirstToolUseFrom(blocks, 0).value]) == Null
    requires k < |blocks| && ParsesAt(blocks[k], loads)
    requires forall j :: 0 <= j < k ==> !ParsesAt(blocks[j], loads)
    requires Truthy(loads(BlockText(blocks[k])).value)
    ensures StructuredResult(blocks, loads) == loads(BlockText(blocks[k])).value
  {
    FirstParsedIs(blocks, loads, 0, k);
  }

  /** A block that is the first tool call at or after `i` is what `FirstToolUseFrom` finds. */
  lemma {:induction false} FirstToolUseIs(blocks: seq<Json>, i: nat, k: nat)
    requires i <= k < |blocks| && IsAnalysisToolUse(blocks[k])
    requires forall j :: i <= j < k ==> !IsAnalysisToolUse(blocks[j])
    ensures FirstToolUseFrom(blocks, i) == Some(k)
    decreases k - i
  {
    if i < k {
      FirstToolUseIs(blocks, i + 1, k);
    }
  }

  /** A block that is the first parseable text at or after `i` is what `FirstParsedFrom` finds. */
  lemma {:induction false} FirstParsedIs(blocks: seq<Json>, loads: JsonLoads, i: nat, k: nat)
    requires i <= k < |blocks| && ParsesAt(blocks[k], loads)
    requires forall j :: i <= j < k ==> !ParsesAt(blocks[j], loads)
    ensures FirstParsedFrom(blocks, loads, i) == Some(k)
    decreases k - i
  {
    if i < k {
      FirstParsedIs(blocks, loads, i + 1, k);
    }
  }
}
