/**
 * The `analyze` request handler: pick the input path by prompt mode, validate, dispatch to the
 * demo responder or the live model, and write the audit log. The audit log and the template
 * usage counters are the state it changes. Rendering of the HTML partials is reduced to the page
 * value the handler chooses; the Django request is reduced to the values the handler reads.
 */
module Views {
  import opened Wrappers
  import opened Values
  import opened Text
  import opened Models
  import Security
  import Forms
  import OutputParser
  import Demo
  import Bedrock

  const SelectTemplate := "Please select a template"
  const GuardrailBlockNotice := "Your request was blocked by content safety filters. Please rephrase your query."
  const ServiceErrorNotice := "An error occurred while processing your request. Please try again."
  const DemoPrefix := "[DEMO MODE] "
  const AuditPromptLength := 1000
  const UserAgentLength := 500
  const DemoResponseLength := 4900
  const LiveResponseLength := 5000

  /**
   * What the handler reads from the request: the user's superuser flag, the POST fields, the
   * `X-Forwarded-For`, `REMOTE_ADDR` and `User-Agent` headers, and what the template form's own
   * fields made of the POST data (their cleaned values and their errors).
   */
  datatype Request = Request(
    isSuperuser: bool,
    post: map<string, string>,
    forwardedFor: Option<string>,
    remoteAddr: Option<string>,
    userAgent: Option<string>,
    templateFields: map<string, FieldValue>,
    templateFieldErrors: seq<Forms.FormError>)
  {
    /** `request.POST.get(key)`. */
    function Post(key: string): Option<string> {
      if key in post then Some(post[key]) else None
    }
  }

  /**
   * The collaborators the handler calls but that are not modelled: the pattern search, `float()`,
   * the primary key conversion of `template_id`, `str()` of an error list and of a dict, the
   * Bedrock client and `json.loads`.
   */
  datatype Oracles = Oracles(
    search: Security.Matcher,
    floatOk: string -> bool,
    parseId: string -> Option<int>,
    showErrors: seq<Forms.FormError> -> string,
    show: Json -> string,
    converse: Bedrock.Converse,
    loads: Bedrock.JsonLoads)

  /** The response the handler renders. */
  datatype Page =
    | ErrorPage(error: string, isGuardrailBlock: bool)
    | FormErrorsPage(errors: seq<Forms.FormError>)
    | NotFound
    | ResultsPage(result: OutputParser.AnalysisResult, responseTimeMs: int, inputTokens: Json, outputTokens: Json, demoMode: bool)

  /** `get_client_ip`: the first `X-Forwarded-For` entry, stripped, when the header is non-empty; else `REMOTE_ADDR`. */
  function GetClientIp(forwardedFor: Option<string>, remoteAddr: Option<string>): (r: Option<string>)
    ensures !Bedrock.Given(forwardedFor) ==> r == remoteAddr
    ensures Bedrock.Given(forwardedFor) ==> r.Some? && ',' !in r.value
    ensures Bedrock.Given(forwardedFor) ==> forall c :: c in r.value ==> c in forwardedFor.value
    ensures Bedrock.Given(forwardedFor) && r.value != [] ==> !IsSpace(r.value[0]) && !IsSpace(r.value[|r.value| - 1])
    ensures Bedrock.Given(forwardedFor) && ',' !in forwardedFor.value ==> r == Some(Strip(forwardedFor.value))
  {
    if Bedrock.Given(forwardedFor) then
      var first := BeforeFirst(forwardedFor.value, ',');
      StripIsPiece(first);
      assert ',' !in forwardedFor.value ==> first == forwardedFor.value;
      Some(Strip(first))
    else remoteAddr
  }

  /** The address list `a, rest` yields `a` without its surrounding whitespace. */
  lemma ClientIpIsFirstEntry(first: string, rest: string, remoteAddr: Option<string>)
    requires ',' !in first
    ensures GetClientIp(Some(first + "," + rest), remoteAddr) == Some(Strip(first))
  {
    var s := first + "," + rest;
    BeforeFirstIsEntry(first, rest);
  }

  lemma {:induction false} BeforeFirstIsEntry(first: string, rest: string)
    requires ',' !in first
    ensures BeforeFirst(first + "," + rest, ',') == first
    decreases |first|
  {
    if first != [] {
      assert (first + "," + rest)[1..] == first[1..] + "," + rest;
      BeforeFirstIsEntry(first[1..], rest);
    }
  }

  /** The bypass holds when the settings allow it, the user is a superuser and the request asks for it. */
  function BypassGuardrails(settings: Settings, req: Request): (r: bool)
    ensures r ==> settings.bypassGuardrails && req.isSuperuser
    ensures r ==> req.Post("bypass") == Some("true")
  {
    settings.bypassGuardrails && req.isSuperuser && req.Post("bypass") == Some("true")
  }

  /** Free-text prompts are checked unless the mode is open and the bypass holds. */
  function SecurityCheckEnabled(mode: PromptMode, bypass: bool): (r: bool)
    ensures mode != Open ==> r
    ensures !bypass ==> r
  {
    mode != Open || !bypass
  }

  /**
   * The bypass is never refused at request time on account of production: settings saved through
   * the settings form with `DEBUG` off cannot have it on, but nothing else prevents it.
   */
  lemma ProductionSettingsNeverBypass(settings: Settings, req: Request, requested: bool)
    requires Forms.CleanBypassGuardrails(requested, false).Ok?
    requires settings.bypassGuardrails == Forms.CleanBypassGuardrails(requested, false).value
    ensures !BypassGuardrails(settings, req)
    ensures SecurityCheckEnabled(settings.promptMode, BypassGuardrails(settings, req))
  {
  }

  /** The free-text check is off exactly for a bypassing superuser in open mode. */
  lemma SecurityCheckOffIff(settings: Settings, req: Request)
    ensures !SecurityCheckEnabled(settings.promptMode, BypassGuardrails(settings, req)) <==>
      settings.promptMode == Open && settings.bypassGuardrails && req.isSuperuser && req.Post("bypass") == Some("true")
  {
  }

  /** The audit data every record starts from. */
  function BaseRecord(settings: Settings, req: Request, bypass: bool): (r: AuditRecord)
    ensures !r.wasFiltered && r.filterReason == "" && r.llmResponse == "" && r.responseTimeMs.None?
    ensures r.mode == settings.promptMode && r.bypassUsed == bypass && r.templateId.None?
    ensures r.userAgent == Take(req.userAgent.GetOr(""), UserAgentLength) && |r.userAgent| <= UserAgentLength
    ensures r.ipAddress == GetClientIp(req.forwardedFor, req.remoteAddr)
  {
    AuditRecord(
      prompt := "", renderedPrompt := "", mode := settings.promptMode, templateId := None,
      wasFiltered := false, filterReason := "", guardrailResponse := Null, llmResponse := "",
      responseTimeMs := None, inputTokens := Null, outputTokens := Null, bypassUsed := bypass,
      ipAddress := GetClientIp(req.forwardedFor, req.remoteAddr), userAgent := Take(req.userAgent.GetOr(""), UserAgentLength))
  }

  /** What the input stage decides before anything is dispatched. */
  datatype Intake =
    | Refused(page: Page)
    | Filtered(record: AuditRecord, page: Page)
    | Admitted(prompt: string, record: AuditRecord, templateId: Option<int>)

  /** The input stage as a function of the settings, the request and the template table. */
  function ExpectedIntake(settings: Settings, req: Request, store: map<int, Template>, svc: Security.SecurityService, o: Oracles): (r: Intake)
    ensures settings.promptMode == Constrained ==> !r.Filtered?
    ensures r.Admitted? ==> (r.templateId.Some? <==> settings.promptMode == Constrained)
    ensures r.Admitted? && r.templateId.Some? ==> r.templateId.value in store && store[r.templateId.value].isActive
    ensures r.Admitted? ==> && !r.record.wasFiltered && r.record.llmResponse == "" && r.record.renderedPrompt == r.prompt
                            && r.record.templateId == r.templateId && r.record.mode == settings.promptMode
                            && r.record.bypassUsed == BypassGuardrails(settings, req)
    ensures r.Filtered? ==> && r.record.wasFiltered && r.record.prompt == Take(req.Post("prompt").GetOr(""), AuditPromptLength)
                            && r.record.bypassUsed == BypassGuardrails(settings, req)
                            && SecurityCheckEnabled(settings.promptMode, BypassGuardrails(settings, req))
  {
    var bypass := BypassGuardrails(settings, req);
    var base := BaseRecord(settings, req, bypass);
    if settings.promptMode == Constrained then TemplateIntake(req, store, svc, o, base)
    else FreeTextIntake(settings.promptMode, req, svc, o, base, bypass)
  }

  /** Constrained mode: a template id must be given and name an active template whose form is valid. */
  function TemplateIntake(req: Request, store: map<int, Template>, svc: Security.SecurityService, o: Oracles, base: AuditRecord): (r: Intake)
    ensures !r.Filtered?
    ensures !Bedrock.Given(req.Post("template_id")) ==> r == Refused(ErrorPage(SelectTemplate, false))
    ensures r.Admitted? ==> r.templateId.Some? && r.templateId.value in store && store[r.templateId.value].isActive
    ensures r.Admitted? ==> req.templateFieldErrors == []
    ensures r.Admitted? ==> && r.record == base.(templateId := r.templateId, prompt := r.record.prompt, renderedPrompt := r.prompt)
                            && r.record.prompt == Take(req.Post("prompt").GetOr(""), AuditPromptLength)
    ensures Bedrock.Given(req.Post("template_id")) ==>
      var id := o.parseId(req.Post("template_id").value);
      && ((id.None? || id.value !in store || !store[id.value].isActive) ==> r == Refused(NotFound))
      && (id.Some? && id.value in store && store[id.value].isActive ==>
            var outcome := Forms.CleanOutcome(Some(store[id.value]), req.templateFields, svc, o.search, o.floatOk);
            && (r.Admitted? <==> outcome.Ok? && req.templateFieldErrors == [])
            && (r.Admitted? ==> r.prompt == outcome.value && r.templateId == id))
  {
    var rawId := req.Post("template_id");
    if !Bedrock.Given(rawId) then Refused(ErrorPage(SelectTemplate, false))
    else
      var id := o.parseId(rawId.value);
      if id.None? || id.value !in store || !store[id.value].isActive then Refused(NotFound)
      else
        var outcome := Forms.CleanOutcome(Some(store[id.value]), req.templateFields, svc, o.search, o.floatOk);
        if outcome.Err? || req.templateFieldErrors != [] then
          Refused(FormErrorsPage(req.templateFieldErrors + (if outcome.Err? then [outcome.error] else [])))
        else
          Admitted(outcome.value,
            base.(templateId := Some(id.value), prompt := Take(req.Post("prompt").GetOr(""), AuditPromptLength),
                  renderedPrompt := outcome.value),
            Some(id.value))
  }

  /** Guided and open mode: the prompt form, with the check switched off only for an open-mode bypass. */
  function FreeTextIntake(mode: PromptMode, req: Request, svc: Security.SecurityService, o: Oracles, base: AuditRecord, bypass: bool): (r: Intake)
    ensures r.Admitted? ==> r.templateId.None? && r.record == base.(prompt := r.prompt, renderedPrompt := r.prompt)
    ensures r.Admitted? ==> Forms.FieldMinLength <= |r.prompt| <= Forms.FieldMaxLength
    ensures var cleaned := Forms.PromptForm(SecurityCheckEnabled(mode, bypass), svc).Clean(o.search, req.Post("prompt"));
      && (r.Admitted? <==> cleaned.Ok?)
      && (r.Admitted? ==> r.prompt == cleaned.value)
      && (!r.Admitted? ==> r.page == ErrorPage(cleaned.error[0].message, false))
      && (r.Filtered? ==> r.record.filterReason == o.showErrors(cleaned.error))
    ensures r.Filtered? ==> && SecurityCheckEnabled(mode, bypass)
                            && r.record == base.(prompt := r.record.prompt, wasFiltered := true, filterReason := r.record.filterReason)
                            && r.record.prompt == Take(req.Post("prompt").GetOr(""), AuditPromptLength)
  {
    var raw := req.Post("prompt");
    var form := Forms.PromptForm(SecurityCheckEnabled(mode, bypass), svc);
    Forms.CleanSucceeds(form, o.search, raw);
    Forms.SecurityViolationIff(form, o.search, raw);
    var cleaned := form.Clean(o.search, raw);
    if cleaned.Err? then
      var page := ErrorPage(cleaned.error[0].message, false);
      if Forms.HasCode(cleaned.error, Forms.SecurityViolation) then
        Filtered(base.(prompt := Take(raw.GetOr(""), AuditPromptLength), wasFiltered := true,
                       filterReason := o.showErrors(cleaned.error)), page)
      else Refused(page)
    else Admitted(cleaned.value, base.(prompt := cleaned.value, renderedPrompt := cleaned.value), None)
  }

  /** The template table after the input stage: an admitted template has its usage counted once. */
  function UsageAfter(store: map<int, Template>, intake: Intake): (r: map<int, Template>)
    requires intake.Admitted? && intake.templateId.Some? ==> intake.templateId.value in store
    ensures r.Keys == store.Keys
    ensures forall id :: id in store && !(intake.Admitted? && intake.templateId == Some(id)) ==> r[id] == store[id]
    ensures intake.Admitted? && intake.templateId.Some? ==>
      var id := intake.templateId.value;
      r[id] == store[id].(usageCount := store[id].usageCount + 1)
  {
    if intake.Admitted? && intake.templateId.Some? then
      var id := intake.templateId.value;
      store[id := store[id].(usageCount := store[id].usageCount + 1)]
    else store
  }

  /** The audit record of a live call, by outcome. */
  function LiveRecord(base: AuditRecord, reply: Result<LlmResponse, Bedrock.BedrockError>, show: Json -> string): (r: AuditRecord)
    ensures r.wasFiltered <==> base.wasFiltered || reply.Err?
    ensures reply.Ok? ==> && r.llmResponse == Take(show(reply.value.result), LiveResponseLength)
                          && r.responseTimeMs == Some(reply.value.elapsedMs) && r.filterReason == base.filterReason
                          && r.inputTokens == reply.value.inputTokens && r.outputTokens == reply.value.outputTokens
                          && r.guardrailResponse == reply.value.guardrailTrace
    ensures reply.Err? ==> && r.llmResponse == base.llmResponse && r.responseTimeMs == base.responseTimeMs
                           && r.inputTokens == base.inputTokens && r.outputTokens == base.outputTokens
    ensures reply.Err? && reply.error.GuardrailBlocked? ==>
      r.filterReason == reply.error.message && r.guardrailResponse == reply.error.guardrailResponse
    ensures reply.Err? && reply.error.ServiceFailure? ==>
      r.filterReason == "Service error: " + reply.error.message && r.guardrailResponse == base.guardrailResponse
    ensures && r.prompt == base.prompt && r.renderedPrompt == base.renderedPrompt && r.templateId == base.templateId
            && r.mode == base.mode && r.bypassUsed == base.bypassUsed && r.ipAddress == base.ipAddress
  {
    match reply
    case Ok(response) =>
      base.(llmResponse := Take(show(response.result), LiveResponseLength), responseTimeMs := Some(response.elapsedMs),
            inputTokens := response.inputTokens, outputTokens := response.outputTokens,
            guardrailResponse := response.guardrailTrace)
    case Err(GuardrailBlocked(message, trace)) =>
      base.(wasFiltered := true, filterReason := message, guardrailResponse := trace)
    case Err(ServiceFailure(message)) =>
      base.(wasFiltered := true, filterReason := "Service error: " + message)
  }

  /** The page of a live call, by outcome. */
  function LivePage(reply: Result<LlmResponse, Bedrock.BedrockError>): (r: Page)
    ensures r.ResultsPage? <==> reply.Ok?
    ensures reply.Ok? ==> !r.demoMode && r.result == OutputParser.ParseSpec(reply.value.result) && r.responseTimeMs == reply.value.elapsedMs
    ensures reply.Err? ==> r.ErrorPage? && (r.isGuardrailBlock <==> reply.error.GuardrailBlocked?)
  {
    match reply
    case Ok(response) =>
      ResultsPage(OutputParser.ParseSpec(response.result), response.elapsedMs, response.inputTokens, response.outputTokens, false)
    case Err(GuardrailBlocked(_, _)) => ErrorPage(GuardrailBlockNotice, true)
    case Err(ServiceFailure(_)) => ErrorPage(ServiceErrorNotice, false)
  }

  /** The audit record of a demo answer: the prefixed, truncated result text, the latency and the token counts. */
  function DemoRecord(base: AuditRecord, response: LlmResponse, show: Json -> string): (r: AuditRecord)
    ensures r == base.(llmResponse := r.llmResponse, responseTimeMs := r.responseTimeMs,
                       inputTokens := r.inputTokens, outputTokens := r.outputTokens)
    ensures StartsWith(r.llmResponse, DemoPrefix) && |r.llmResponse| <= |DemoPrefix| + DemoResponseLength
    ensures r.responseTimeMs == Some(response.elapsedMs)
  {
    base.(llmResponse := DemoPrefix + Take(show(response.result), DemoResponseLength),
          responseTimeMs := Some(response.elapsedMs),
          inputTokens := response.inputTokens, outputTokens := response.outputTokens)
  }

  /** The page of a demo answer: the parse of the same result, marked as simulated. */
  function DemoPage(response: LlmResponse): (r: Page)
    ensures r.ResultsPage? && r.demoMode && r.result == OutputParser.ParseSpec(response.result)
    ensures r.responseTimeMs == response.elapsedMs && r.inputTokens == response.inputTokens && r.outputTokens == response.outputTokens
  {
    ResultsPage(OutputParser.ParseSpec(response.result), response.elapsedMs, response.inputTokens, response.outputTokens, true)
  }

  /**
   * For any simulated answer, the demo record keeps everything the intake recorded (prompt, mode,
   * template, address, bypass flag) and adds the prefixed response text, the drawn latency and the
   * token counts; the page shows the parse of that same answer, valid with 1 to 3 hypotheses.
   */
  lemma DemoDispatchFacts(demo: Demo.DemoService, prompt: string, base: AuditRecord, response: LlmResponse, show: Json -> string)
    requires demo.Valid() && demo.IsMockResponse(prompt, response)
    ensures var record := DemoRecord(base, response, show);
      && record == base.(llmResponse := record.llmResponse, responseTimeMs := record.responseTimeMs,
                         inputTokens := record.inputTokens, outputTokens := record.outputTokens)
      && StartsWith(record.llmResponse, DemoPrefix) && |record.llmResponse| <= |DemoPrefix| + DemoResponseLength
      && record.inputTokens == Num(2 * WordCount(prompt))
      && record.outputTokens.Num? && 400 <= record.outputTokens.n <= 800
      && record.responseTimeMs.Some? && 800 <= record.responseTimeMs.value <= 2500
    ensures var record := DemoRecord(base, response, show);
      var page := DemoPage(response);
      && page.ResultsPage? && page.demoMode && page.result.isValid && 1 <= |page.result.hypotheses| <= 3
      && page.result == OutputParser.ParseSpec(response.result)
      && Some(page.responseTimeMs) == record.responseTimeMs
      && page.inputTokens == record.inputTokens && page.outputTokens == record.outputTokens
  {
    var hIdx: seq<nat>, sIdx: seq<nat>, explanation: nat, outputTokens: int, elapsedMs: int :|
      demo.ValidDraws(hIdx, sIdx, explanation, outputTokens, elapsedMs)
      && response == demo.MockResponse(prompt, hIdx, sIdx, explanation, outputTokens, elapsedMs);
    demo.GeneratedResponseIsWellFormed(prompt, response);
    var text := DemoPrefix + Take(show(response.result), DemoResponseLength);
    assert text[..|DemoPrefix|] == DemoPrefix;
  }

  /**
   * A reply the guardrail intervened in is logged as filtered with the fixed reason and the
   * guardrail's trace, and the page says the request was blocked.
   */
  lemma LiveBlockRecorded(base: AuditRecord, response: Json, loads: Bedrock.JsonLoads, elapsedMs: int, show: Json -> string)
    requires Bedrock.Intervened(response)
    ensures var reply := Bedrock.InterpretStructured(Bedrock.Replied(response), loads, elapsedMs);
      var record := LiveRecord(base, reply, show);
      && record == base.(wasFiltered := true, filterReason := Bedrock.BlockedMessage, guardrailResponse := Bedrock.BlockTrace(response))
      && LivePage(reply) == ErrorPage(GuardrailBlockNotice, true)
  {
  }

  /**
   * A call the client raised on is logged as filtered with `Service error: ` before the service's
   * message, and the page is the generic error.
   */
  lemma LiveServiceErrorRecorded(base: AuditRecord, outcome: Bedrock.ConverseOutcome, loads: Bedrock.JsonLoads, elapsedMs: int, show: Json -> string)
    requires !outcome.Replied?
    ensures var reply := Bedrock.InterpretStructured(outcome, loads, elapsedMs);
      var record := LiveRecord(base, reply, show);
      && record == base.(wasFiltered := true, filterReason := record.filterReason)
      && (outcome.ClientError? ==>
            record.filterReason == "Service error: " + "Bedrock error: " + Bedrock.ClientErrorMessage(outcome.errorResponse, outcome.text))
      && (outcome.BotoCoreError? ==> record.filterReason == "Service error: " + "AWS error: " + outcome.text)
      && LivePage(reply) == ErrorPage(ServiceErrorNotice, false)
  {
  }

  /**
   * A normal reply is logged unfiltered with the start of the result's text, the reply's token
   * counts (zero when the usage section lacks them) and its guardrail trace.
   */
  lemma LiveSuccessRecorded(base: AuditRecord, response: Json, loads: Bedrock.JsonLoads, elapsedMs: int, show: Json -> string)
    requires !Bedrock.Intervened(response)
    ensures var reply := Bedrock.InterpretStructured(Bedrock.Replied(response), loads, elapsedMs);
      var record := LiveRecord(base, reply, show);
      var text := show(Bedrock.StructuredResult(Bedrock.ContentBlocks(response), loads));
      && record.wasFiltered == base.wasFiltered && record.filterReason == base.filterReason
      && |record.llmResponse| == (if |text| <= LiveResponseLength then |text| else LiveResponseLength)
      && record.llmResponse == text[..|record.llmResponse|]
      && record.responseTimeMs == Some(elapsedMs)
      && record.inputTokens == Bedrock.InputTokens(response) && record.outputTokens == Bedrock.OutputTokens(response)
      && record.guardrailResponse == Bedrock.GuardrailTrace(response)
      && LivePage(reply).ResultsPage? && !LivePage(reply).demoMode
  {
  }

  /**
   * The live call the handler makes sends the configured guardrail, whatever the bypass: the
   * request carries a guardrail configuration exactly when the service has a guardrail id.
   */
  lemma LiveCallKeepsDefaultGuardrail(bedrock: Bedrock.BedrockService, prompt: string, settings: Settings)
    ensures "guardrailConfig" in bedrock.StructuredRequest(prompt, Null, None, Some(settings.modelId), Some(settings.maxTokens))
            <==> Bedrock.Given(bedrock.guardrailId)
  {
  }

  /** Input that is refused never reaches the log; a free-text prompt is logged on refusal only for a security violation. */
  lemma FreeTextAuditIff(settings: Settings, req: Request, store: map<int, Template>, svc: Security.SecurityService, o: Oracles)
    requires settings.promptMode != Constrained
    ensures var intake := ExpectedIntake(settings, req, store, svc, o);
      var cleaned := Forms.PromptForm(SecurityCheckEnabled(settings.promptMode, BypassGuardrails(settings, req)), svc)
                       .Clean(o.search, req.Post("prompt"));
      && (intake.Filtered? <==> cleaned.Err? && Forms.HasCode(cleaned.error, Forms.SecurityViolation))
      && (intake.Admitted? <==> cleaned.Ok?)
      && (intake.Admitted? ==> intake.prompt == cleaned.value && intake.record.prompt == cleaned.value)
      && (intake.Filtered? ==> && intake.record.wasFiltered
                               && intake.record.prompt == Take(req.Post("prompt").GetOr(""), AuditPromptLength)
                               && intake.record.filterReason == o.showErrors(cleaned.error))
  {
  }

  /** A free-text prompt refused by the field's own rules (missing, too short, too long) is not logged. */
  lemma LengthFailureNotAudited(settings: Settings, req: Request, store: map<int, Template>, svc: Security.SecurityService, o: Oracles, raw: string)
    requires settings.promptMode != Constrained
    requires req.Post("prompt") == Some(raw)
    requires Forms.CleanPromptField(Some(raw)).Err?
    ensures ExpectedIntake(settings, req, store, svc, o).Refused?
  {
    var bypass := BypassGuardrails(settings, req);
    var form := Forms.PromptForm(SecurityCheckEnabled(settings.promptMode, bypass), svc);
    assert form.Clean(o.search, Some(raw)) == Err(Forms.CleanPromptField(Some(raw)).error);
    assert FreeTextIntake(settings.promptMode, req, svc, o, BaseRecord(settings, req, bypass), bypass).Refused?;
  }

  /** In constrained mode nothing is logged unless the template exists, is active and its form is valid. */
  lemma ConstrainedAuditOnlyWhenValid(settings: Settings, req: Request, store: map<int, Template>, svc: Security.SecurityService, o: Oracles)
    requires settings.promptMode == Constrained
    ensures var intake := ExpectedIntake(settings, req, store, svc, o);
      && !intake.Filtered?
      && (intake.Admitted? <==>
            Bedrock.Given(req.Post("template_id"))
            && var id := o.parseId(req.Post("template_id").value);
            && id.Some? && id.value in store && store[id.value].isActive
            && req.templateFieldErrors == []
            && Forms.CleanOutcome(Some(store[id.value]), req.templateFields, svc, o.search, o.floatOk).Ok?)
      && (intake.Admitted? ==>
            && intake.templateId == o.parseId(req.Post("template_id").value)
            && intake.prompt == Forms.CleanOutcome(Some(store[intake.templateId.value]), req.templateFields, svc, o.search, o.floatOk).value
            && intake.record.renderedPrompt == intake.prompt
            && intake.record.prompt == Take(req.Post("prompt").GetOr(""), AuditPromptLength))
  {
  }

  /** The handler's state: the audit log, the template table, the settings singleton and the Bedrock and demo services. */
  class AnalysisApp {
    var auditLog: seq<AuditRecord>
    const templates: TemplateStore
    const settingsStore: SettingsStore
    const bedrock: Bedrock.BedrockService
    const demo: Demo.DemoService
    const classifier: Security.SecurityService

    ghost predicate Valid()
      reads this, settingsStore
    {
      settingsStore.Valid() && demo.Valid()
    }

    /**
     * The handler's collaborators: the template table, the settings singleton, the `BedrockService()`
     * built from the Django settings, the demo tables (`Demo.Default`) and the classifier the forms
     * build (`Security.DefaultService`).
     */
    constructor (templates: TemplateStore, settingsStore: SettingsStore, bedrock: Bedrock.BedrockService,
                 demo: Demo.DemoService, classifier: Security.SecurityService)
      requires settingsStore.Valid() && demo.Valid()
      ensures Valid()
      ensures this.templates == templates && this.settingsStore == settingsStore && this.bedrock == bedrock
      ensures this.demo == demo && this.classifier == classifier && auditLog == []
    {
      this.templates := templates;
      this.settingsStore := settingsStore;
      this.bedrock := bedrock;
      this.demo := demo;
      this.classifier := classifier;
      auditLog := [];
    }

    /** `PromptAuditLog.objects.create`: one more record at the end of the log. */
    method CreateAudit(record: AuditRecord)
      modifies this
      ensures auditLog == old(auditLog) + [record]
    {
      auditLog := auditLog + [record];
    }

    /** The input stage: choose the path by mode and validate. */
    method TakeInput(settings: Settings, req: Request, o: Oracles) returns (intake: Intake)
      modifies this, templates
      ensures intake == ExpectedIntake(settings, req, old(templates.templates), classifier, o)
      ensures intake.Admitted? && intake.templateId.Some? ==> intake.templateId.value in old(templates.templates)
      ensures templates.templates == UsageAfter(old(templates.templates), intake)
      ensures auditLog == old(auditLog) + (if intake.Filtered? then [intake.record] else [])
    {
      var bypass := BypassGuardrails(settings, req);
      var audit := BaseRecord(settings, req, bypass);
      if settings.promptMode == Constrained {
        intake := TakeTemplateInput(req, o, audit);
      } else {
        intake := TakeFreeTextInput(settings.promptMode, req, o, audit, bypass);
      }
    }

    /** The template path: look the template up, validate its form, and count its use. */
    method TakeTemplateInput(req: Request, o: Oracles, audit: AuditRecord) returns (intake: Intake)
      modifies templates
      ensures intake == TemplateIntake(req, old(templates.templates), classifier, o, audit)
      ensures intake.Admitted? && intake.templateId.Some? ==> intake.templateId.value in old(templates.templates)
      ensures templates.templates == UsageAfter(old(templates.templates), intake)
      ensures !intake.Filtered?
    {
      ghost var store := templates.templates;
      var templateId := req.Post("template_id");
      if !Bedrock.Given(templateId) {
        return Refused(ErrorPage(SelectTemplate, false));
      }
      var id := o.parseId(templateId.value);
      if id.None? {
        return Refused(NotFound);
      }
      var template := templates.FindActive(id.value);
      if template.None? {
        return Refused(NotFound);
      }
      var valid := ValidateTemplateForm(template.value, classifier, req, o);
      if valid.Err? {
        return Refused(FormErrorsPage(valid.error));
      }
      var prompt := valid.value;
      var record := audit.(templateId := Some(id.value), prompt := Take(req.Post("prompt").GetOr(""), AuditPromptLength),
                           renderedPrompt := prompt);
      assert TemplateIntake(req, store, classifier, o, audit) == Admitted(prompt, record, Some(id.value));
      templates.IncrementUsage(id.value);
      intake := Admitted(prompt, record, Some(id.value));
    }

    /** `TemplatePromptForm(request.POST, template=template)`, `is_valid()` and `get_rendered_prompt()`. */
    static method ValidateTemplateForm(template: Template, svc: Security.SecurityService, req: Request, o: Oracles) returns (r: Result<string, seq<Forms.FormError>>)
      ensures var outcome := Forms.CleanOutcome(Some(template), req.templateFields, svc, o.search, o.floatOk);
        && (r.Ok? <==> req.templateFieldErrors == [] && outcome.Ok?)
        && (r.Ok? ==> r.value == outcome.value)
        && (r.Err? ==> r.error == req.templateFieldErrors + (if outcome.Err? then [outcome.error] else []))
    {
      var form := new Forms.TemplatePromptForm(Some(template), svc);
      var valid := form.IsValid(req.templateFields, req.templateFieldErrors, o.search, o.floatOk);
      if valid.Err? {
        return Err(valid.error);
      }
      r := Ok(PyStr(form.RenderedPrompt()));
    }

    /** The free-text path: a security violation is logged before the refusal; other refusals are not. */
    method TakeFreeTextInput(mode: PromptMode, req: Request, o: Oracles, audit: AuditRecord, bypass: bool)
      returns (intake: Intake)
      modifies this
      ensures intake == FreeTextIntake(mode, req, classifier, o, audit, bypass)
      ensures !intake.Admitted? || intake.templateId.None?
      ensures auditLog == old(auditLog) + (if intake.Filtered? then [intake.record] else [])
    {
      var form := Forms.PromptForm(SecurityCheckEnabled(mode, bypass), classifier);
      var cleaned := form.Clean(o.search, req.Post("prompt"));
      if cleaned.Err? {
        var page := ErrorPage(cleaned.error[0].message, false);
        if Forms.HasCode(cleaned.error, Forms.SecurityViolation) {
          var record := audit.(prompt := Take(req.Post("prompt").GetOr(""), AuditPromptLength), wasFiltered := true,
                               filterReason := o.showErrors(cleaned.error));
          CreateAudit(record);
          return Filtered(record, page);
        }
        return Refused(page);
      }
      var prompt := cleaned.value;
      intake := Admitted(prompt, audit.(prompt := prompt, renderedPrompt := prompt), None);
    }

    /** The demo dispatch: a simulated answer, parsed and logged with the demo prefix. */
    method DispatchDemo(prompt: string, audit: AuditRecord, o: Oracles) returns (page: Page)
      requires demo.Valid()
      modifies this
      ensures exists response :: (demo.IsMockResponse(prompt, response)
        && auditLog == old(auditLog) + [DemoRecord(audit, response, o.show)] && page == DemoPage(response))
      ensures |auditLog| == |old(auditLog)| + 1 && auditLog[..|old(auditLog)|] == old(auditLog)
      ensures var record := auditLog[|old(auditLog)|];
        && record == audit.(llmResponse := record.llmResponse, responseTimeMs := record.responseTimeMs,
                            inputTokens := record.inputTokens, outputTokens := record.outputTokens)
        && StartsWith(record.llmResponse, DemoPrefix) && |record.llmResponse| <= |DemoPrefix| + DemoResponseLength
        && record.inputTokens == Num(2 * WordCount(prompt))
        && record.responseTimeMs.Some? && 800 <= record.responseTimeMs.value <= 2500
      ensures page.ResultsPage? && page.demoMode && page.result.isValid && 1 <= |page.result.hypotheses| <= 3
    {
      var response := demo.GenerateMockResponse(prompt);
      DemoDispatchFacts(demo, prompt, audit, response, o.show);
      var result := OutputParser.Parse(response.result);
      var record := audit.(llmResponse := DemoPrefix + Take(o.show(response.result), DemoResponseLength),
                           responseTimeMs := Some(response.elapsedMs),
                           inputTokens := response.inputTokens, outputTokens := response.outputTokens);
      CreateAudit(record);
      assert auditLog[|old(auditLog)|] == record;
      page := ResultsPage(result, response.elapsedMs, response.inputTokens, response.outputTokens, true);
      assert record == DemoRecord(audit, response, o.show) && page == DemoPage(response);
    }

    /** The live dispatch: the structured call with the settings' model and token limit, logged by outcome. */
    method DispatchLive(settings: Settings, prompt: string, audit: AuditRecord, o: Oracles, elapsedMs: int) returns (page: Page)
      modifies this
      ensures var reply := Bedrock.InterpretStructured(
                o.converse(bedrock.StructuredRequest(prompt, Null, None, Some(settings.modelId), Some(settings.maxTokens))),
                o.loads, elapsedMs);
        && auditLog == old(auditLog) + [LiveRecord(audit, reply, o.show)]
        && page == LivePage(reply)
    {
      var reply := bedrock.InvokeStructured(prompt, Null, None, Some(settings.modelId), Some(settings.maxTokens),
                                            o.converse, o.loads, elapsedMs);
      match reply {
        case Ok(response) =>
          var result := OutputParser.Parse(response.result);
          var record := audit.(llmResponse := Take(o.show(response.result), LiveResponseLength),
                               responseTimeMs := Some(response.elapsedMs),
                               inputTokens := response.inputTokens, outputTokens := response.outputTokens,
                               guardrailResponse := response.guardrailTrace);
          CreateAudit(record);
          page := ResultsPage(result, response.elapsedMs, response.inputTokens, response.outputTokens, false);
        case Err(GuardrailBlocked(message, trace)) =>
          CreateAudit(audit.(wasFiltered := true, filterReason := message, guardrailResponse := trace));
          page := ErrorPage(GuardrailBlockNotice, true);
        case Err(ServiceFailure(message)) =>
          CreateAudit(audit.(wasFiltered := true, filterReason := "Service error: " + message));
          page := ErrorPage(ServiceErrorNotice, false);
      }
    }

    /**
     * `analyze`: load the settings, take the input, then dispatch. Refused input writes no record;
     * a filtered free-text prompt writes one and stops; admitted input writes exactly one record
     * whatever the dispatch outcome, after a template's usage has already been counted.
     */
    method Analyze(req: Request, o: Oracles, elapsedMs: int) returns (page: Page)
      requires Valid()
      modifies this, templates, settingsStore
      ensures Valid()
      ensures settingsStore.Current() == old(settingsStore.Current())
      ensures settingsStore.cache == Some(old(settingsStore.Current()))
      ensures old(settingsStore.cache).Some? ==> settingsStore.rows == old(settingsStore.rows)
      ensures old(settingsStore.cache).None? ==> settingsStore.rows == old(settingsStore.rows)[1 := old(settingsStore.Current())]
      ensures var settings := old(settingsStore.Current());
        var intake := ExpectedIntake(settings, req, old(templates.templates), classifier, o);
        && (intake.Admitted? && intake.templateId.Some? ==> intake.templateId.value in old(templates.templates))
        && templates.templates == UsageAfter(old(templates.templates), intake)
        && (intake.Refused? ==> page == intake.page && auditLog == old(auditLog))
        && (intake.Filtered? ==> page == intake.page && auditLog == old(auditLog) + [intake.record])
        && (intake.Admitted? ==> |auditLog| == |old(auditLog)| + 1 && auditLog[..|old(auditLog)|] == old(auditLog))
        && (intake.Admitted? && settings.demoMode ==>
              (exists response :: demo.IsMockResponse(intake.prompt, response)
                 && auditLog == old(auditLog) + [DemoRecord(intake.record, response, o.show)] && page == DemoPage(response))
              && StartsWith(auditLog[|old(auditLog)|].llmResponse, DemoPrefix)
              && page.ResultsPage? && page.demoMode && page.result.isValid)
        && (intake.Admitted? && !settings.demoMode ==>
              var reply := Bedrock.InterpretStructured(
                o.converse(bedrock.StructuredRequest(intake.prompt, Null, None, Some(settings.modelId), Some(settings.maxTokens))),
                o.loads, elapsedMs);
              auditLog == old(auditLog) + [LiveRecord(intake.record, reply, o.show)] && page == LivePage(reply))
    {
      var settings := settingsStore.GetSettings();
      var intake := TakeInput(settings, req, o);
      page := Dispatch(settings, intake, o, elapsedMs);
    }

    /** The stage after the input: stop with the intake's page, or dispatch an admitted prompt. */
    method Dispatch(settings: Settings, intake: Intake, o: Oracles, elapsedMs: int) returns (page: Page)
      requires demo.Valid()
      modifies this
      ensures !intake.Admitted? ==> page == intake.page && auditLog == old(auditLog)
      ensures intake.Admitted? ==> |auditLog| == |old(auditLog)| + 1 && auditLog[..|old(auditLog)|] == old(auditLog)
      ensures intake.Admitted? && settings.demoMode ==>
        (exists response :: demo.IsMockResponse(intake.prompt, response)
           && auditLog == old(auditLog) + [DemoRecord(intake.record, response, o.show)] && page == DemoPage(response))
        && StartsWith(auditLog[|old(auditLog)|].llmResponse, DemoPrefix)
        && page.ResultsPage? && page.demoMode && page.result.isValid
      ensures intake.Admitted? && !settings.demoMode ==>
        var reply := Bedrock.InterpretStructured(
          o.converse(bedrock.StructuredRequest(intake.prompt, Null, None, Some(settings.modelId), Some(settings.maxTokens))),
          o.loads, elapsedMs);
        auditLog == old(auditLog) + [LiveRecord(intake.record, reply, o.show)] && page == LivePage(reply)
    {
      if !intake.Admitted? {
        return intake.page;
      }
      if settings.demoMode {
        page := DispatchDemo(intake.prompt, intake.record, o);
      } else {
        page := DispatchLive(settings, intake.prompt, intake.record, o, elapsedMs);
      }
    }
  }
}
