# Prompt validation and analysis pipeline, modelled in Dafny

This project models the decision logic of the `llm_analysis` Django application: the part that
takes a user's analysis request and decides whether it may reach the language model, sends it
(or produces a simulated answer), reads the structured reply, and writes the audit trail.

- **Security** (`security.dfy`) covers `PromptSecurityService` and `InputValidator`.
  - The two declared rule tables (25 injection rules, 4 off-topic rules) are kept verbatim.
  - A first-match scan runs over each table, and `validate_prompt` runs injection before off-topic.
  - `sanitize_prompt` is modelled with its four substitutions written out, followed by `strip`.
  - The length bounds 10..10000 and the ordered checks on template variables are included.
  - Regular-expression search is an abstract matcher `search(pattern, text)` that returns the
    matched text or nothing, so every property holds for any regex engine.
- **Models** (`models.dfy`):
  - the `SystemSettings` singleton with its cache, as a class whose `save` and `get_settings`
    change rows and cache;
  - `PromptTemplate.render`, as a left fold of replace-all over the declared variables;
  - `increment_usage`, on a template table class;
  - the `PromptAuditLog` record and `prompt_preview`.
- **Forms** (`forms.py`):
  - The free-text `PromptForm`: the field's strip, required and length validators, then
    `clean_prompt`.
  - The `TemplatePromptForm`. Its `__init__` builds fields from the variable definitions and
    its `clean` stores `rendered_prompt`.
  - `clean_bypass_guardrails`, `clean_template` and `clean_variables`.
- **Output parser** (`output_parser.py`):
  - the `from_dict` defaults;
  - `parse`, with one loop per list that skips items that are not dicts;
  - `validate_schema`, which stops at the first failure;
  - the derived counts;
  - `to_json`, with a proof that `parse` gives back what `to_json` produced.
- **Demo** (`demo.py`): the canned tables and `generate_mock_response`.
  - The random draws are nondeterministic choices within their bounds.
  - The proofs show that every possible response passes the schema and parses with 1 to 3
    hypotheses.
- **Bedrock** (`bedrock.py`): how `invoke_with_guardrails` and `invoke_structured` build their
  requests and read the reply.
  - Each argument falls back to the service default when it is falsy.
  - The guardrail configuration is added only when a guardrail id is in force.
  - A guardrail intervention raises `GuardrailBlockedError`, and transport errors become
    `BedrockServiceError`.
  - The text content is concatenated in order.
  - For the structured result:
    - the first `submit_analysis` tool input wins;
    - otherwise the first text block that parses as JSON;
    - otherwise `{}`.
  - The client (`converse`) and `json.loads` are function parameters.
- **Views** (`views.py`): `get_client_ip` and the `analyze` handler.
  - `analyze` is a method of a class that holds the audit log, the template table, the settings
    singleton and the services.
  - Its contract states, for every request:
    - which input path runs;
    - how many audit records are appended and what they hold;
    - how the template usage counter changes;
    - which page is rendered.

### Behaviour kept as the code has it

The model follows the code where it differs from the code's own comments, help texts and tests:

- **Audit of refused input.** `PromptAuditLog` describes itself as the audit log "for all prompts
  submitted" (`models.py:148`). `analyze` writes no record in several cases:
  - when `template_id` is missing (`views.py:105-109`);
  - when the template does not exist or is inactive (`views.py:111`);
  - when the template form is invalid, including a security violation in the rendered
    template (`views.py:114-117`);
  - when a free-text prompt fails only the field or length rules (`views.py:134-144`).
  - `Views.ConstrainedAuditOnlyWhenValid` and `Views.LengthFailureNotAudited` state this.
- **When usage is counted.** `increment_usage` is called before dispatch, so a failed model call
  still counts as a use of the template (`views.py:125`).
  - `Views.AnalysisApp.Analyze` states this.
- **Bypass in production.** The settings field's help text says the bypass is "auto-disabled in
  production" (`models.py:37`). The request-time check does not look at the deployment at all
  (`views.py:87-91`).
  - Only the settings form refuses to save the bypass when `DEBUG` is off (`forms.py:177-186`).
  - `Views.ProductionSettingsNeverBypass` shows that such settings never bypass.
- **Guardrails under bypass.** The handler passes `guardrail_id=None` in both branches of the
  bypass test (`views.py:179-182`), so the service's default guardrail still applies
  (`bedrock.py:301`).
  - `Views.LiveCallKeepsDefaultGuardrail` states this.
- **"Ignore your instructions".** `test_validate_prompt_full_check` expects this prompt to be
  refused as critical (`tests.py:68-74`). No injection rule matches it, because the override rule
  needs one of previous/prior/above/earlier (`security.py:35`).
  - `Security.IgnoreYourInstructionsMissesOverrideRule` states that the override rule misses it.
- **The persona rule matches inside words.** The rule `(DAN|STAN|DUDE)` is an unanchored,
  case-insensitive search, so it flags ordinary words such as "standard" (`security.py:63`).
  - `Security.StandardIsFlaggedAsPersona` states this.
- **Blank optional number.** An optional `number` variable left blank reaches
  `validate_template_variables` as `None`. `float(None)` then fails, so the prompt is refused
  as "must be a number" (`security.py:287-291`).
  - `Security.OptionalBlankNumberRejected` states this.
- **`required` is read by truthiness.** A definition with `"required": "false"` (a string) is
  required, because only falsy values make it optional (`security.py:277-280`).
  - `Security.QuotedFalseStillRequired` states this.

## Model

| member | source | states |
|---|---|---|
| Security.ScanFrom | apps/llm_analysis/services/security.py:141-155 | from rule `i` on: safe (the default result) iff no later rule matches; otherwise the verdict of the first matching rule, with its reason, severity and matched text |
| Security.Scan | apps/llm_analysis/services/security.py:141-155 | a table scan is safe iff no rule matches, else it is the first hit's verdict; with a substring-reporting search the matched text occurs in the prompt |
| Security.LaterRulesNotConsulted | apps/llm_analysis/services/security.py:141-153 | once a rule matches, appending any rules to the table leaves the verdict unchanged |
| Security.ScanFromAgrees | apps/llm_analysis/services/security.py:141-155 | two searches that agree on every rule of a table give the same scan |
| Security.FirstHitUnique | apps/llm_analysis/services/security.py:141-153 | there is at most one first matching rule |
| Security.TableEntries | apps/llm_analysis/services/security.py:33-111 | the tables hold 25 injection and 4 off-topic rules; rule 0 is the critical instruction override, rule 11 the critical persona rule |
| Security.SecurityService.CheckOffTopic | apps/llm_analysis/services/security.py:157-184 | with the off-topic check disabled the result is safe without consulting any rule |
| Security.SecurityService.ValidatePrompt | apps/llm_analysis/services/security.py:186-208 | safe iff both checks are safe, then `(True, '', '')`; an unsafe injection verdict is returned with its reason and severity name |
| Security.ValidatePromptByRules | apps/llm_analysis/services/security.py:198-208 | safe iff no injection rule and (when enabled) no off-topic rule matches; the first injection hit decides; otherwise the first off-topic hit decides |
| Security.InjectionBeforeOffTopic | apps/llm_analysis/services/security.py:198-206 | when an injection rule matches, the result is unsafe and does not depend on what the off-topic rules would say |
| Security.StandardIsFlaggedAsPersona | apps/llm_analysis/services/security.py:63-64 | a prompt containing "standard" is unsafe, and unless an earlier rule hits it is a critical "Known jailbreak persona" |
| Security.NoQualifierWithoutAOrP | apps/llm_analysis/services/security.py:35 | a text without the letters a or p spells none of previous/prior/above/earlier |
| Security.IgnoreYourInstructionsMissesOverrideRule | apps/llm_analysis/services/security.py:35-36 | the override rule does not match "Ignore your instructions" |
| Security.BracketMarkerAt | apps/llm_analysis/services/security.py:224 | a `[ system ]` marker match at the start is non-empty and begins with `[` |
| Security.TagMarkerAt | apps/llm_analysis/services/security.py:225 | a `<system>`/`</system>` tag match at the start is non-empty and begins with `<` |
| Security.FilterBracketMarkers | apps/llm_analysis/services/security.py:224 | text without `[` is unchanged |
| Security.DropTagMarkers | apps/llm_analysis/services/security.py:225 | text without `<` is unchanged |
| Security.CollapseSpaceRuns | apps/llm_analysis/services/security.py:228 | text with no run of ten or more whitespace characters is unchanged |
| Security.DropControls | apps/llm_analysis/services/security.py:231 | the result keeps only characters of the input that are not control characters; input without them is unchanged |
| Security.Sanitize | apps/llm_analysis/services/security.py:210-233 | the sanitized prompt has no control character and no leading or trailing whitespace |
| Security.SanitizeKeepsCleanPrompt | apps/llm_analysis/services/security.py:223-233 | a prompt with no markers, long whitespace runs, control characters or outer whitespace is returned unchanged |
| Security.SecurityService.CheckForInjection | apps/llm_analysis/services/security.py:131-155 | safe (the default result) iff no injection rule matches; otherwise the verdict of the first matching rule |
| Security.ValidateLength | apps/llm_analysis/services/security.py:241-261 | passes iff 10 <= length <= 10000; the too-short message when below, the too-long message when above |
| Security.CheckDefinitionOutcome | apps/llm_analysis/services/security.py:275-296 | an absent variable fails iff it is required; a present one fails iff it is a `number` that does not convert or a string longer than `max_length`; every failure message names the variable |
| Security.ValidateVariablesFrom | apps/llm_analysis/services/security.py:275-298 | from definition `i` on: passes iff every definition's check passes; otherwise it is the failure of the first definition that fails |
| Security.ValidateTemplateVariables | apps/llm_analysis/services/security.py:264-298 | passes iff every definition's check passes; a failure is the first failing definition's message |
| Security.FirstFailureDecides | apps/llm_analysis/services/security.py:275-298 | when definition `k` is the first to fail, its failure is the outcome |
| Security.MissingRequiredVariableNamed | apps/llm_analysis/services/security.py:276-280 | the first definition that is required (by default, or by a truthy `required`) and whose name is absent gives "Missing required variable: <name>" |
| Security.UndeclaredVariablesIgnored | apps/llm_analysis/services/security.py:275-298 | adding a key that no definition declares does not change the outcome |
| Security.SameChecksSameOutcome | apps/llm_analysis/services/security.py:275-298 | two variable maps on which every definition's check agrees give the same outcome |
| Security.QuotedFalseStillRequired | apps/llm_analysis/services/security.py:276-280 | a definition whose `required` is the string `"false"` is still required: its absence gives "Missing required variable: <name>" |
| Security.PresentVariableChecks | apps/llm_analysis/services/security.py:282-296 | a present `number` variable that does not convert fails as "must be a number"; otherwise it fails iff it is a string longer than `max_length` (default 500) |
| Security.OptionalBlankNumberRejected | apps/llm_analysis/services/security.py:287-291 | an optional `number` variable whose value is `None` fails as "must be a number" |
| Text.StripSpec | apps/llm_analysis/forms.py:34 | `strip()` keeps one contiguous piece of the text, removes only whitespace around it, and leaves no whitespace at either end |
| Text.ReplaceAll | apps/llm_analysis/models.py:137 | replacing a pattern by itself, or in a text without the pattern's first character, changes nothing |
| Text.WordCount | apps/llm_analysis/services/demo.py:139 | `len(s.split())` is at most the length, and zero iff the text is all whitespace |
| Values.FalsyValues | apps/llm_analysis/services/output_parser.py:133 | falsy exactly for `None`, `False`, `0`, `0.0`, `''`, `[]` and `{}` |
| Text.Take | apps/llm_analysis/views.py:98 | a slice `[:n]` is a prefix of length min(n, len) |
| Models.SingletonClient | apps/llm_analysis/tests.py:193-204 | two `get_settings` calls give the same row, pk 1, in guided mode with the defaults; settings saved under pk 7 are read back as pk 1 |
| Models.SettingsStore.Current | apps/llm_analysis/models.py:69-76 | the settings in force always have primary key 1 |
| Models.SettingsStore.Save | apps/llm_analysis/models.py:62-67 | whatever its pk, the instance is stored as row 1, the cache entry is cleared, and it becomes the settings in force |
| Models.SettingsStore.GetSettings | apps/llm_analysis/models.py:69-76 | returns the cached instance when there is one; otherwise row 1, created with the defaults (guided, no bypass, demo on, 4096 tokens) when missing, and caches it; always pk 1 |
| Models.Template.Render | apps/llm_analysis/models.py:133-138 | a template text without `{` renders to itself, and so does any template when no declared variable has a value |
| Models.RenderStep | apps/llm_analysis/models.py:135-137 | one substitution leaves a text without `{` unchanged, and so does a value that is the placeholder itself |
| Models.RenderFrom | apps/llm_analysis/models.py:134-138 | the fold leaves a text without `{` unchanged, and leaves any text unchanged when none of the definitions has a value |
| Models.RenderIgnoresUndeclared | apps/llm_analysis/models.py:134-137 | a value under a name no variable declares does not change the rendered prompt |
| Models.RenderKeepsUnfilledPlaceholder | apps/llm_analysis/models.py:134-137 | a `{name}` placeholder with no supplied value survives rendering |
| Models.OtherPlaceholderUnchanged | apps/llm_analysis/models.py:137 | replacing `{name}` leaves a different placeholder `{m}` alone |
| Models.ReplaceFirstOfTwo | apps/llm_analysis/models.py:137 | in `pre{a}mid{b}`, replacing `{a}` changes nothing else |
| Models.ReplaceTrailing | apps/llm_analysis/models.py:137 | replacing a trailing `{b}` after brace-free text gives the text followed by the value |
| Models.RenderTwoPlaceholders | apps/llm_analysis/models.py:133-138 | a two-variable template renders to the full substitution with both values and keeps the second placeholder without its value |
| Models.RenderExamples | apps/llm_analysis/models.py:133-138 | `Analyze {dataset} for {metric}` renders to `Analyze Sales for revenue`, and to `Analyze Sales for {metric}` with only the dataset |
| Models.TemplateStore.FindActive | apps/llm_analysis/views.py:111 | finds a template iff the id exists and the template is active |
| Models.TemplateStore.IncrementUsage | apps/llm_analysis/models.py:140-143 | that template's `usage_count` goes up by exactly one; no other field or template changes |
| Models.PromptPreview | apps/llm_analysis/models.py:240-245 | prompts of at most 100 characters are unchanged; longer ones become their first 100 characters plus `...` (103 characters) |
| Forms.PromptValidatorErrors | apps/llm_analysis/forms.py:16-26 | the field's validators report nothing iff 10 <= length <= 10000 and there is no NUL; a short value reports `min_length`; never `security_violation` |
| Forms.CleanPromptField | apps/llm_analysis/forms.py:16-26 | the field accepts iff the prompt is present and its stripped form meets the bounds and has no NUL, and yields the stripped prompt; its errors never carry `security_violation` |
| Forms.PromptForm.CleanPrompt | apps/llm_analysis/forms.py:33-50 | returns the stripped prompt within the bounds; a length failure raises the validator's message; a `security_violation` is raised iff the check is on and the classifier refuses, naming the reason; with the check off only length decides |
| Forms.PromptForm.Clean | apps/llm_analysis/forms.py:33-50 | a refused prompt always reports at least one error |
| Forms.NewPromptForm | apps/llm_analysis/forms.py:28-31 | the form keeps the requested check flag and builds the default classifier |
| Forms.FieldEnforcesLength | apps/llm_analysis/forms.py:23-39 | after the field accepts a prompt, `validate_length` on it always passes |
| Forms.CleanSucceeds | apps/llm_analysis/forms.py:33-50 | a successful clean yields the stripped prompt within 10..10000, accepted by the classifier when the check is on |
| Forms.SecurityViolationIff | apps/llm_analysis/forms.py:42-48 | the errors carry `security_violation` iff the field accepts, the check is on and the classifier refuses; the message then names the reason |
| Forms.LengthFailureIsNotSecurityViolation | apps/llm_analysis/forms.py:36-39 | a prompt outside the bounds is refused without `security_violation`, whatever the classifier says |
| Forms.DisabledCheckOnlyLength | apps/llm_analysis/forms.py:41-50 | with the check disabled a prompt is accepted iff the field rules accept it |
| Forms.FieldFor | apps/llm_analysis/forms.py:67-115 | choice field iff type `select` with non-empty choices; textarea and decimal for their types; text otherwise; `required` defaults to true, `max_length` to 500 |
| Forms.SelectWithoutChoicesIsText | apps/llm_analysis/forms.py:76-115 | a `select` without choices falls through to a text field, 500 characters by default |
| Forms.FieldsAfterKeys | apps/llm_analysis/forms.py:64-115 | the form's fields are the hidden id field plus one per declared variable name |
| Forms.FieldsAfterKeepsBase | apps/llm_analysis/forms.py:57-65 | a base field no definition names is kept as it was |
| Forms.FieldsAfterLastWins | apps/llm_analysis/forms.py:67-115 | each declared name gets the field built from its last definition |
| Forms.PassedVariables | apps/llm_analysis/forms.py:124-128 | the variables passed on are exactly the declared names present in the cleaned data, with their cleaned values |
| Forms.CleanOutcome | apps/llm_analysis/forms.py:117-146 | no template gives "Template not found"; a success is the template rendered with the passed variables, after the variables passed and the classifier accepted |
| Forms.ValidationFailureStopsBeforeRender | apps/llm_analysis/forms.py:130-134 | a failing variable check raises its message and the outcome does not depend on the classifier |
| Forms.RenderedPromptSecurityIff | apps/llm_analysis/forms.py:136-143 | `clean` raises `security_violation` iff the variables pass and the classifier refuses the rendered prompt |
| Forms.UndeclaredFieldsIgnored | apps/llm_analysis/forms.py:124-128 | cleaned values under undeclared names (such as `template_id`) do not affect `clean` |
| Forms.TemplatePromptForm.constructor | apps/llm_analysis/forms.py:59-115 | the form keeps its template and classifier and its fields are the generated ones |
| Forms.TemplatePromptForm.RenderedPrompt | apps/llm_analysis/forms.py:148-150 | `''` when no rendered prompt has been stored (`Clean` states what a success stores) |
| Forms.TemplatePromptForm.Clean | apps/llm_analysis/forms.py:117-146 | the outcome is the form-level clean; on success `rendered_prompt` is stored and returned by `get_rendered_prompt`; on failure the cleaned data is untouched |
| Forms.TemplatePromptForm.IsValid | apps/llm_analysis/forms.py:117-146 | the form is valid iff no field error and `clean` succeeds; the errors are the field errors followed by `clean`'s |
| Forms.CleanBypassGuardrails | apps/llm_analysis/forms.py:177-186 | refuses iff the bypass is on and `DEBUG` is off, with the production message; otherwise returns the value unchanged |
| Forms.CleanTemplate | apps/llm_analysis/forms.py:222-233 | accepts the template text iff the classifier finds it safe; the refusal names the reason |
| Forms.CheckEntriesFrom | apps/llm_analysis/forms.py:241-249 | from entry `i` on: passes iff every entry is an object with an identifier `name`; otherwise the first bad entry's failure |
| Forms.CleanVariables | apps/llm_analysis/forms.py:235-251 | accepts iff the value is a list of objects each with an identifier `name`, returning it unchanged; a non-list gives "Variables must be a JSON array"; otherwise the first bad entry decides |
| Forms.IdentifiersAreBraceFree | apps/llm_analysis/forms.py:246 | an identifier contains no brace |
| Forms.AcceptedNamesAreBraceFree | apps/llm_analysis/forms.py:235-251 | every name in an accepted variable list is brace-free, so its placeholder is well delimited |
| OutputParser.HypothesisFromDict | apps/llm_analysis/services/output_parser.py:24-31 | missing keys default to title `Untitled`, confidence `low`, summary `''`, evidence `[]`, visualization `none` |
| OutputParser.SearchResultFromDict | apps/llm_analysis/services/output_parser.py:53-59 | missing keys default to source `Unknown`, relevance `low`, snippet `''`, url `None` |
| OutputParser.ExplanationFromDict | apps/llm_analysis/services/output_parser.py:80-85 | missing keys default to `''`, `''` and `[]` |
| OutputParser.HighCount | apps/llm_analysis/services/output_parser.py:110-112 | at most the number of hypotheses, and zero iff none has confidence `high` |
| OutputParser.DerivedCounts | apps/llm_analysis/services/output_parser.py:98-112 | `hypothesis_count` is the number of hypotheses, `high_confidence_count` is at most that, `has_hypotheses` iff the count is positive |
| OutputParser.Iterate | apps/llm_analysis/services/output_parser.py:143-144 | iterating a list gives its items; `None`, a bool, an int or a float raises |
| OutputParser.FloatPayloadMessage | apps/llm_analysis/services/output_parser.py:133-143 | a non-zero float payload is invalid with "'float' object has no attribute 'get'" |
| OutputParser.FloatHypothesesMessage | apps/llm_analysis/services/output_parser.py:142-144 | a float under `hypotheses` makes the result invalid with "'float' object is not iterable" |
| OutputParser.HypothesesOf | apps/llm_analysis/services/output_parser.py:142-148 | the parsed hypotheses are never more than the items |
| OutputParser.SearchResultsOf | apps/llm_analysis/services/output_parser.py:151-157 | the parsed search results are never more than the items |
| OutputParser.ParseSpec | apps/llm_analysis/services/output_parser.py:133-182 | the raw output is kept; a falsy payload gives "Empty response from LLM"; a valid result comes from a dict and has no error; an invalid one carries nothing |
| OutputParser.Parse | apps/llm_analysis/services/output_parser.py:123-182 | the parsing loops compute exactly `ParseSpec` |
| OutputParser.CollectHypotheses | apps/llm_analysis/services/output_parser.py:142-148 | the loop yields the in-order parses of the dict items, skipping the rest |
| OutputParser.CollectSearchResults | apps/llm_analysis/services/output_parser.py:151-157 | the loop yields the in-order parses of the dict entries, skipping the rest |
| OutputParser.HypothesesOfAppend | apps/llm_analysis/services/output_parser.py:144-148 | parsing a concatenation parses each part: a skipped item does not disturb the others |
| OutputParser.HypothesesOfOne | apps/llm_analysis/services/output_parser.py:144-148 | one item gives its hypothesis when it is a dict, and nothing otherwise |
| OutputParser.AllDictsParse | apps/llm_analysis/services/output_parser.py:144-148 | when every item is a dict, each gives the hypothesis at its own position |
| OutputParser.ParseValidDict | apps/llm_analysis/services/output_parser.py:140-174 | a non-empty dict whose lists are lists parses as valid with the parsed items in order, and an explanation iff the raw one is a truthy dict |
| OutputParser.CheckHypothesisSchema | apps/llm_analysis/services/output_parser.py:207-216 | one hypothesis passes iff it is a dict with title, confidence and summary and a valid confidence level |
| OutputParser.CheckHypothesesFrom | apps/llm_analysis/services/output_parser.py:206-216 | from hypothesis `i` on: passes iff every one is a dict with title, confidence, summary and a valid level; otherwise the first bad one's message |
| OutputParser.CheckExplanationSchema | apps/llm_analysis/services/output_parser.py:218-227 | passes iff the explanation is falsy or a dict with methodology and limitations |
| OutputParser.ValidateSchema | apps/llm_analysis/services/output_parser.py:185-229 | passes iff the output is schema-valid; non-dict, missing and non-list `hypotheses` give their messages; hypotheses are checked before the explanation |
| OutputParser.FirstBadHypothesisReported | apps/llm_analysis/services/output_parser.py:205-216 | the first malformed hypothesis is reported, whatever the explanation looks like |
| OutputParser.FirstBadHypothesisDecides | apps/llm_analysis/services/output_parser.py:206-216 | from `i` on, the first hypothesis that is not well formed decides |
| OutputParser.SchemaValidParsesFully | apps/llm_analysis/services/output_parser.py:140-174 | an output that passes the schema parses as valid with every hypothesis kept, in order, and the explanation set iff present |
| OutputParser.ToJson | apps/llm_analysis/services/output_parser.py:238-270 | hypotheses and search results keep their order and length; the meta counts equal the derived counts |
| OutputParser.HypothesesRoundTrip | apps/llm_analysis/services/output_parser.py:241-250 | serialised hypotheses parse back to themselves |
| OutputParser.SearchResultsRoundTrip | apps/llm_analysis/services/output_parser.py:251-259 | serialised search results parse back to themselves |
| OutputParser.ToJsonRoundTrip | apps/llm_analysis/services/output_parser.py:238-270 | parsing the output of `to_json` gives back the same hypotheses, search results and explanation, as a valid result |
| Demo.PrefixedSummary | apps/llm_analysis/services/demo.py:121 | the new summary starts with "Based on your query about '" and ends with the original summary |
| Demo.DemoHypothesisShaped | apps/llm_analysis/services/demo.py:21-55 | a canned hypothesis, with or without the prefix, passes the schema's hypothesis checks |
| Demo.ResultShapeParses | apps/llm_analysis/services/demo.py:130-135 | a result of well-formed hypotheses, dict sources and a full explanation passes the schema and parses with every item and the explanation |
| Demo.DemoService.HypothesesJson | apps/llm_analysis/services/demo.py:116-121 | one hypothesis per sampled position; only the first (a copy) gets the prefixed summary |
| Demo.DemoService.SourcesJson | apps/llm_analysis/services/demo.py:125 | one source per sampled position, unchanged |
| Demo.DemoService.MockResponse | apps/llm_analysis/services/demo.py:114-145 | the result holds exactly `hypotheses`, `search_results` and `explanation`: the sampled table hypotheses (`HypothesesJson`, only the first with the prefixed summary), the sampled sources (`SourcesJson`), and one entry of the explanations table; input tokens twice the word count; the drawn output tokens and latency; `end_turn`, no trace, demo on |
| Demo.DemoService.GenerateMockResponse | apps/llm_analysis/services/demo.py:100-144 | the response is the mock built from some valid draws (1-3 distinct hypotheses and sources, one explanation); its result has the three keys and its explanation is one of the explanations table; input tokens are twice the word count, output tokens 400..800, latency 800..2500, `end_turn`, no trace, demo on |
| Demo.DemoService.MockResponseIsWellFormed | apps/llm_analysis/services/demo.py:130-135 | for any valid draws the result passes the schema and parses as valid with as many hypotheses and sources as drawn |
| Demo.DemoService.GeneratedResponseIsWellFormed | apps/llm_analysis/services/demo.py:101-144 | whatever is drawn, the result passes the schema and parses as valid with 1 to 3 hypotheses |
| Demo.DemoService.SampledHypothesesDistinct | apps/llm_analysis/services/demo.py:116 | the sampled hypotheses are pairwise distinct |
| Demo.DemoHypothesesValid | apps/llm_analysis/services/demo.py:21-55 | three canned hypotheses with valid confidence levels and distinct titles |
| Demo.DefaultIsValid | apps/llm_analysis/services/demo.py:21-98 | the canned tables have 3 hypotheses, 3 sources and 2 explanations, with valid levels and distinct titles |
| Bedrock.BedrockService.EffectiveModel | apps/llm_analysis/services/bedrock.py:193 | the model argument when truthy, else the service default |
| Bedrock.BedrockService.EffectiveTokens | apps/llm_analysis/services/bedrock.py:194 | the token argument when truthy (non-zero), else the service default |
| Bedrock.BedrockService.EffectiveGuardrail | apps/llm_analysis/services/bedrock.py:195 | the guardrail argument when truthy, else the service's guardrail id |
| Bedrock.BedrockService.EffectiveSchema | apps/llm_analysis/services/bedrock.py:302 | the schema argument when truthy, else the analysis schema |
| Bedrock.BedrockService.GuardedRequest | apps/llm_analysis/services/bedrock.py:198-221 | keys are model, messages and inference config, plus `system` iff a system prompt is given and `guardrailConfig` iff a guardrail id is in force, each with its value |
| Bedrock.BedrockService.StructuredRequest | apps/llm_analysis/services/bedrock.py:305-344 | keys are model, messages, the analyst system prompt, the forced `submit_analysis` tool and inference config, plus `guardrailConfig` iff a guardrail id is in force |
| Bedrock.BedrockService.BuildGuardedRequest | apps/llm_analysis/services/bedrock.py:193-221 | building the request key by key gives exactly `GuardedRequest` |
| Bedrock.BedrockService.BuildStructuredRequest | apps/llm_analysis/services/bedrock.py:299-344 | building the request key by key gives exactly `StructuredRequest` |
| Bedrock.BedrockService.InvokeWithGuardrails | apps/llm_analysis/services/bedrock.py:166-268 | the outcome is the client's reply to the assembled request, read as `InterpretText` |
| Bedrock.BedrockService.InvokeStructured | apps/llm_analysis/services/bedrock.py:270-406 | the outcome is the client's reply to the assembled request, read as `InterpretStructured` |
| Bedrock.NewBedrockService | apps/llm_analysis/services/bedrock.py:150-159 | the guardrail id from settings, the version defaulting to `DRAFT`, the model and 4096 tokens as fallbacks |
| Bedrock.TransportFailure | apps/llm_analysis/services/bedrock.py:260-268 | a client error becomes a service error "Bedrock error: <message>", a botocore error "AWS error: <text>" |
| Bedrock.ConcatTexts | apps/llm_analysis/services/bedrock.py:238-244 | blocks without text give the empty string |
| Bedrock.CollectText | apps/llm_analysis/services/bedrock.py:238-244 | the loop yields the in-order concatenation of the blocks' texts |
| Bedrock.ConcatTextsAppend | apps/llm_analysis/services/bedrock.py:241-244 | the text of a concatenation of block lists is the concatenation of their texts |
| Bedrock.ConcatTextsCons | apps/llm_analysis/services/bedrock.py:241-244 | the text is the first block's text (if any) followed by the rest's |
| Bedrock.FirstToolUseFrom | apps/llm_analysis/services/bedrock.py:366-371 | the first `submit_analysis` tool use at or after `i`, or none iff there is none |
| Bedrock.FirstParsedFrom | apps/llm_analysis/services/bedrock.py:376-382 | the first text block at or after `i` that parses, or none iff there is none |
| Bedrock.FirstToolUseIs | apps/llm_analysis/services/bedrock.py:366-371 | a tool use with none before it at or after `i` is the one found |
| Bedrock.FirstParsedIs | apps/llm_analysis/services/bedrock.py:376-382 | a parseable text with none before it at or after `i` is the one found |
| Bedrock.ToolChoice | apps/llm_analysis/services/bedrock.py:365-371 | `null` when no block is a `submit_analysis` call; otherwise a non-null choice is the input of the first such call |
| Bedrock.TextChoice | apps/llm_analysis/services/bedrock.py:373-382 | `null` when no text block parses; otherwise a non-null choice is the parse of the first text that parses |
| Bedrock.StructuredResult | apps/llm_analysis/services/bedrock.py:365-388 | truthy or `{}`, and otherwise the tool choice or the text choice |
| Bedrock.FindToolInput | apps/llm_analysis/services/bedrock.py:365-371 | the first scan, with its `break`, yields the first tool use's input, or `None` |
| Bedrock.FindParsedText | apps/llm_analysis/services/bedrock.py:373-382 | the fallback scan yields the first parsed text, or `None` |
| Bedrock.SelectStructuredResult | apps/llm_analysis/services/bedrock.py:365-388 | the scans compute exactly `StructuredResult` |
| Bedrock.InterpretText | apps/llm_analysis/services/bedrock.py:228-258 | an intervention raises the block with the trace; a transport error is a service error; otherwise the content is the concatenated text, with stop reason and trace |
| Bedrock.InterpretStructured | apps/llm_analysis/services/bedrock.py:351-396 | an intervention raises the block with the trace; a transport error is a service error; otherwise the result is `StructuredResult` of the blocks |
| Bedrock.GuardrailConfiguredIff | apps/llm_analysis/services/bedrock.py:215-221 | both requests carry `guardrailConfig` iff the argument or the service default guardrail id is truthy |
| Bedrock.GuardrailBlockAlwaysRaises | apps/llm_analysis/services/bedrock.py:229-235 | a `guardrail_intervened` reply raises the block with the trace in both entry points, whatever else it holds |
| Bedrock.TransportFailuresAgree | apps/llm_analysis/services/bedrock.py:398-406 | a raised client exception gives the same service error in both entry points, never a block |
| Bedrock.MissingUsageIsZero | apps/llm_analysis/services/bedrock.py:247-253 | in both entry points each token count is the usage section's `inputTokens` / `outputTokens` entry when present and 0 when that key is missing, including when the whole usage section is missing |
| Bedrock.ToolUsePreferred | apps/llm_analysis/services/bedrock.py:366-371 | the first `submit_analysis` call's truthy input is the result, whatever follows |
| Bedrock.TextFallback | apps/llm_analysis/services/bedrock.py:373-382 | with no tool call, the first text block that parses (truthy) is the result |
| Bedrock.NothingUsableIsEmpty | apps/llm_analysis/services/bedrock.py:373-388 | with no tool call and no parseable text the result is `{}` |
| Bedrock.NullToolInputFallsBack | apps/llm_analysis/services/bedrock.py:370-379 | a tool call whose input is an explicit `null` does not stop the text fallback |
| Views.GetClientIp | apps/llm_analysis/views.py:37-42 | without a non-empty forwarded header, `REMOTE_ADDR`; a single-address header gives that address stripped; otherwise a comma-free, stripped piece of the header |
| Views.ClientIpIsFirstEntry | apps/llm_analysis/views.py:40-41 | for `a,rest` the address is `a` stripped (with GetClientIp's single-address clause, every non-empty header is covered) |
| Views.BypassGuardrails | apps/llm_analysis/views.py:87-91 | the bypass holds only for a superuser whose settings allow it and whose POST `bypass` is `'true'` |
| Views.SecurityCheckEnabled | apps/llm_analysis/views.py:129-132 | the free-text check is on in guided and constrained mode, and whenever there is no bypass |
| Views.BaseRecord | apps/llm_analysis/views.py:93-100 | a record that is not filtered, with no response or timing, the mode in force, the bypass flag, the address `GetClientIp` gives and the user agent's first 500 characters (`Take`) |
| Views.ExpectedIntake | apps/llm_analysis/views.py:102-148 | constrained input is never filtered; an admitted intake names a template iff the mode is constrained, and that template exists and is active; its record is unfiltered with the admitted prompt and the bypass flag; a filtered one is marked filtered, holds the first 1000 characters of the posted prompt, and only happens with the check on |
| Views.TemplateIntake | apps/llm_analysis/views.py:103-125 | no id gives "Please select a template"; an unparsable, unknown or inactive id gives not-found; never filtered; otherwise admitted iff no field error and `CleanOutcome` succeeds, with the rendered prompt `CleanOutcome` yields; the record adds the id, the first 1000 characters of the posted prompt and the rendered prompt |
| Views.FreeTextIntake | apps/llm_analysis/views.py:127-148 | admitted iff the form's clean succeeds, with the cleaned prompt (10..10000 characters, no template) as both the record's prompt and rendered prompt; otherwise the error page shows the first error; a filtered one only with the check on, with the first 1000 characters of the posted prompt and `str` of the errors as filter reason |
| Views.UsageAfter | apps/llm_analysis/views.py:125 | the same template ids; only an admitted template's usage goes up, by exactly one; nothing else changes |
| Views.LiveRecord | apps/llm_analysis/views.py:190-221 | filtered iff the intake record was or the call failed; a result gives the first 5000 characters of its text, its latency, token counts and guardrail trace; a block gives its message and guardrail response; a service error gives `Service error: ` plus its message; prompt, template, mode, address and bypass flag are kept |
| Views.LiveBlockRecorded | apps/llm_analysis/views.py:206-215 | an intervened reply is logged as filtered with `Content blocked by Bedrock Guardrails` and the guardrail trace, on the blocked error page |
| Views.LiveServiceErrorRecorded | apps/llm_analysis/views.py:217-225 | a raised client error is logged as filtered with `Service error: Bedrock error: ` or `Service error: AWS error: ` before the message, on the generic error page |
| Views.LiveSuccessRecorded | apps/llm_analysis/views.py:187-204 | a normal reply is logged unfiltered with the first min(5000, length) characters of the result's text, the latency, the reply's token counts and trace, on a non-demo results page |
| Views.LivePage | apps/llm_analysis/views.py:197-225 | a results page (not demo) of the parsed result iff the call succeeded; otherwise an error page, marked as a guardrail block iff the call was blocked |
| Views.DemoRecord | apps/llm_analysis/views.py:159-162 | the intake record with only the four response fields changed: the response starts with `[DEMO MODE] ` and is at most 4912 characters, with the drawn latency |
| Views.DemoPage | apps/llm_analysis/views.py:156-172 | a demo results page of the parsed result, with the response's latency and token counts |
| Views.DemoDispatchFacts | apps/llm_analysis/views.py:150-172 | for any mock response: the record keeps the intake record outside the response fields, is prefixed and bounded, with twice the word count as input tokens, 400..800 output tokens and 800..2500 ms; the page is valid with 1 to 3 hypotheses and shows the record's figures |
| Views.ProductionSettingsNeverBypass | apps/llm_analysis/views.py:87-91 | settings saved through the settings form with `DEBUG` off never bypass, and the free-text check stays on |
| Views.SecurityCheckOffIff | apps/llm_analysis/views.py:129-132 | the free-text check is off iff the mode is open, the settings allow bypass, the user is a superuser and POST `bypass` is `'true'` |
| Views.LiveCallKeepsDefaultGuardrail | apps/llm_analysis/views.py:179-185 | the handler's live request carries a guardrail configuration iff the service has a guardrail id, whatever the bypass |
| Views.FreeTextAuditIff | apps/llm_analysis/views.py:134-148 | a free-text request is logged on refusal iff the errors carry `security_violation`, with the first 1000 characters of the posted prompt and `str` of the errors; it is admitted iff the form is valid, with the cleaned prompt |
| Views.LengthFailureNotAudited | apps/llm_analysis/views.py:134-144 | a prompt the field rules refuse is refused without any record |
| Views.ConstrainedAuditOnlyWhenValid | apps/llm_analysis/views.py:103-125 | constrained input is never logged at intake; it is admitted iff the id is given and names an active template whose form is valid, and then the prompt is `CleanOutcome`'s rendered prompt and the record holds the first 1000 characters of the posted prompt |
| Views.AnalysisApp.CreateAudit | apps/llm_analysis/views.py:140 | one record is appended to the log |
| Views.AnalysisApp.TakeInput | apps/llm_analysis/views.py:83-148 | the intake is `ExpectedIntake`; the template table gains one use for an admitted template; the log gains a record only for a filtered prompt |
| Views.AnalysisApp.TakeTemplateInput | apps/llm_analysis/views.py:103-125 | the constrained intake, with that template's usage counted once before dispatch; never a record |
| Views.AnalysisApp.ValidateTemplateForm | apps/llm_analysis/views.py:112-119 | valid iff no field error and the form-level clean succeeds; the result is the rendered prompt, else all errors |
| Views.AnalysisApp.TakeFreeTextInput | apps/llm_analysis/views.py:127-148 | the free-text intake; a security violation is logged before the refusal, other refusals are not |
| Views.AnalysisApp.DispatchDemo | apps/llm_analysis/views.py:150-172 | for some mock response within the draw bounds, exactly one record, `DemoRecord` of the intake record, and the page `DemoPage` of the same response; hence `[DEMO MODE] `-prefixed and bounded, with the demo token and latency values, on a valid page with 1 to 3 hypotheses |
| Views.AnalysisApp.DispatchLive | apps/llm_analysis/views.py:174-225 | exactly one record per outcome (result, block with trace, service error) and the matching page |
| Views.AnalysisApp.Dispatch | apps/llm_analysis/views.py:150-225 | a refused or filtered intake ends with its page and no new record; an admitted one gets exactly one record by the demo or live path; in demo mode the record and page are those of some mock response |
| Views.AnalysisApp.Analyze | apps/llm_analysis/views.py:76-225 | with the settings in force: refused input writes nothing, a filtered prompt one record, admitted input exactly one record whatever the dispatch outcome, after the template's usage was counted; in demo mode that record and the page are those of some mock response; the settings in force are unchanged, and the singleton row is written only when the cache was empty |

## Left out

- Regular expressions: each injection and off-topic rule is searched by an abstract matcher (`Security.Matcher`), not by a regex engine. The persona rule's substring behaviour and the override rule's need for a qualifier are stated as conditions on that matcher. The four substitutions of `sanitize_prompt` are written out.
- Security.Scan: the matched text is shown to occur in the prompt only for a matcher that reports substrings, as `re` does; this is a condition, not a consequence of the model.
- `float()` conversion, `json.loads`, `int()` of `template_id`, and `str()` of an error list or a dict are function parameters. They are not modelled.
- A `template_id` that is not a number makes Django raise a server error. The model refuses it like an unknown id. Either way no record is written.
- The boto3 client (`converse`), `_create_client`, `check_connection` and the guardrail management service are not part of this model. They are foreign I/O.
- Wall-clock time and `time.sleep` are left out. `elapsed_ms` is a parameter of the live path, and the demo latency is a draw.
- Randomness is a nondeterministic choice within the stated bounds, not a generator.
- The settings cache has no timeout: the cache is an optional value with no clock.
- The Django field cleaning of the template form's own fields is an input to the model: the cleaned values and field errors a request carries. This cleaning covers choice, decimal and character fields. The free-text `prompt` field's cleaning is modelled.
- The `form.errors.as_text()` page is reduced to the list of errors it shows.
- Widgets, HTML rendering, messages, decorators, the other views, `analysis_home` and `handle_analysis_error` are left out, as are admin, migrations, URLs and settings.
- The `user` and `created_at` fields of the audit record are left out: the user is an external identity and the timestamp a clock.
- The template's `description` and the timestamps of every row are left out. They take no part in any decision.
- `Hypothesis.confidence_color`, `SearchResult.relevance_color` and `ResponseFormatter.to_markdown` are left out. They are display cosmetics.
- `DemoService.generate_demo_error` and `get_demo_banner_message` are left out. They return constant texts that `analyze` does not use.
- Logging is left out throughout.
- Models.TemplateStore.IncrementUsage: it is a single +1. The atomicity of the database `F()` expression under concurrent requests is not modelled.
- Bedrock.BlockText: a `text` value that is not a string is read as `''`. boto3 always returns a string there.
- Bedrock.BlockTrace: a `trace` value that is not a dict is read as empty. In the source, `.get` on it raises.
- Bedrock.ContentBlocks: an `output` or `message` that is not a dict, or a `content` that is not a list, is read as no blocks. In the source, `.get` on such an `output` or `message` raises `AttributeError`, and the `for` loop raises `TypeError` on a non-iterable `content` (it walks the characters of a string and the keys of a dict). Neither `except` clause of `analyze` catches these errors, so the request fails and no audit record is written. The model instead reports a reply with empty text or `{}` and logs it.
- Bedrock.HasText: a block that is not a dict has no text here. In the source, `'text' in block` tests substrings of a string block, membership in a list block, and raises for other values.
- Bedrock.IsAnalysisToolUse: a block that is not a dict, or a `toolUse` that is not a dict, is not a tool call here. In the source, the `in` test or `tool_use.get` raises for such values, with the same uncaught outcome.
- Bedrock.Usage: a `usage` value that is not a dict is read as empty, so both token counts are 0. In the source, `usage.get` raises `AttributeError`, which `analyze` does not catch.
- Bedrock.ClientErrorMessage: an `Error` value that is not a dict is read as empty. In the source, `.get` on it raises inside the `except` clause. A `Message` that is not a string is replaced by `str(e)`, whereas the source formats it as it is.
- Values.VarDef: `max_length` is an integer in the model. A non-integer value such as the string `"500"` makes the comparison at `security.py:295` raise `TypeError`; that error is not modelled.
- Values.Json: a float is a `real`, so Python's float rounding, infinities and NaN are not modelled.
- Text.IsSpace, Text.LowerChar and Forms.IsIdentifier cover Python's whitespace set, ASCII case folding and ASCII identifiers respectively. Unicode case folding and non-ASCII identifiers are not modelled.
