/**
 * The forms of the analysis pages: the free-text prompt form, the template form whose fields
 * are generated from the template's variable definitions, the settings form's refusal of the
 * guardrail bypass outside debug mode, and the template editor's checks of the template text
 * and of its variable list.
 */
module Forms {
  import opened Wrappers
  import opened Values
  import opened Text
  import opened Security
  import opened Models

  /** A `ValidationError`: its message and the code it was raised with, if any. */
  datatype FormError = FormError(message: string, code: Option<string>)

  /** The code the forms attach to a security refusal; the view looks for it. */
  const SecurityViolation := "security_violation"

  /** `has_error(field, code)` on the errors of one field. */
  predicate HasCode(errors: seq<FormError>, code: string) {
    exists k :: 0 <= k < |errors| && errors[k].code == Some(code)
  }

  // ---------------------------------------------------------------------------------------------
  // PromptForm
  // ---------------------------------------------------------------------------------------------

  /** The `min_length` and `max_length` of the `prompt` field. */
  const FieldMinLength := 10
  const FieldMaxLength := 10000

  /**
   * The validators Django installs on the `prompt` CharField, in order: minimum length, maximum
   * length, no NUL character. All of them run and every failure is reported.
   */
  function PromptValidatorErrors(v: string): (errors: seq<FormError>)
    ensures errors == [] <==> FieldMinLength <= |v| <= FieldMaxLength && '\0' !in v
    ensures |v| < FieldMinLength ==> errors != [] && errors[0].code == Some("min_length")
    ensures !HasCode(errors, SecurityViolation)
  {
    (if |v| < FieldMinLength then
       [FormError("Ensure this value has at least 10 characters (it has " + NatToString(|v|) + ").", Some("min_length"))]
     else [])
    + (if |v| > FieldMaxLength then
         [FormError("Ensure this value has at most 10000 characters (it has " + NatToString(|v|) + ").", Some("max_length"))]
       else [])
    + (if '\0' in v then [FormError("Null characters are not allowed.", Some("null_characters_not_allowed"))] else [])
  }

  /**
   * `CharField.clean` of the posted prompt (`None` when the key is absent): strip, then the
   * required check, then the validators.
   */
  function CleanPromptField(raw: Option<string>): (r: Result<string, seq<FormError>>)
    ensures r.Ok? <==> raw.Some? && FieldMinLength <= |Strip(raw.value)| <= FieldMaxLength && '\0' !in Strip(raw.value)
    ensures r.Ok? ==> r.value == Strip(raw.value)
    ensures r.Err? ==> r.error != [] && !HasCode(r.error, SecurityViolation)
  {
    var v := if raw.Some? then Strip(raw.value) else "";
    if v == [] then Err([FormError("This field is required.", Some("required"))])
    else
      var errors := PromptValidatorErrors(v);
      if errors != [] then Err(errors) else Ok(v)
  }

  /** The free-text form, with the security check switched on or off by the view. */
  datatype PromptForm = PromptForm(enableSecurityCheck: bool, securityService: SecurityService) {

    /**
     * `clean_prompt` on the value the field produced: strip, the length rule, then (when enabled)
     * the classifier, whose refusal carries the code `security_violation`.
     */
    function CleanPrompt(search: Matcher, value: string): (r: Result<string, FormError>)
      ensures r.Ok? ==> r.value == Strip(value) && ValidateLength(r.value).Pass?
      ensures r.Ok? && enableSecurityCheck ==> securityService.ValidatePrompt(search, r.value).isSafe
      ensures ValidateLength(Strip(value)).Fail? ==> r == Err(FormError(ValidateLength(Strip(value)).error, None))
      ensures (r.Err? && r.error.code == Some(SecurityViolation)) <==>
        ValidateLength(Strip(value)).Pass? && enableSecurityCheck && !securityService.ValidatePrompt(search, Strip(value)).isSafe
      ensures r.Err? && r.error.code == Some(SecurityViolation) ==>
        r.error.message == "Your prompt was blocked for security reasons: " + securityService.ValidatePrompt(search, Strip(value)).reason
      ensures !enableSecurityCheck ==> (r.Ok? <==> ValidateLength(Strip(value)).Pass?)
    {
      var prompt := Strip(value);
      var length := ValidateLength(prompt);
      if length.Fail? then Err(FormError(length.error, None))
      else if enableSecurityCheck && !securityService.ValidatePrompt(search, prompt).isSafe then
        Err(FormError("Your prompt was blocked for security reasons: " + securityService.ValidatePrompt(search, prompt).reason,
          Some(SecurityViolation)))
      else Ok(prompt)
    }

    /**
     * `is_valid` for the one field: the field's own cleaning, then `clean_prompt` only when that
     * succeeded. The result is the cleaned prompt or the errors recorded against `prompt`.
     */
    function Clean(search: Matcher, raw: Option<string>): (r: Result<string, seq<FormError>>)
      ensures r.Err? ==> r.error != []
    {
      var field := CleanPromptField(raw);
      if field.Err? then Err(field.error)
      else
        var hook := CleanPrompt(search, field.value);
        if hook.Err? then Err([hook.error]) else Ok(hook.value)
    }
  }

  /** `PromptForm(data, enable_security_check=...)`: the form builds a default classifier. */
  function NewPromptForm(enableSecurityCheck: bool): (f: PromptForm)
    ensures f.enableSecurityCheck == enableSecurityCheck && f.securityService == DefaultService
  {
    PromptForm(enableSecurityCheck, DefaultService)
  }

  /**
   * The field already enforces the bounds `validate_length` checks, so after it `clean_prompt`'s
   * own length rule always passes: the prompt it sees is stripped and between 10 and 10000 long.
   */
  lemma FieldEnforcesLength(raw: Option<string>)
    requires CleanPromptField(raw).Ok?
    ensures var v := CleanPromptField(raw).value;
      Strip(v) == v && ValidateLength(v).Pass?
  {
    StripSpec(raw.value);
    StripNoop(Strip(raw.value));
  }

  /** A successful clean yields the stripped prompt, within the bounds, accepted by the classifier when it is on. */
  lemma CleanSucceeds(form: PromptForm, search: Matcher, raw: Option<string>)
    ensures var r := form.Clean(search, raw);
      r.Ok? <==> (CleanPromptField(raw).Ok?
        && (form.enableSecurityCheck ==> form.securityService.ValidatePrompt(search, Strip(raw.value)).isSafe))
    ensures var r := form.Clean(search, raw);
      r.Ok? ==> r.value == Strip(raw.value) && FieldMinLength <= |r.value| <= FieldMaxLength
  {
    if CleanPromptField(raw).Ok? {
      FieldEnforcesLength(raw);
    }
  }

  /**
   * The prompt's errors carry `security_violation` exactly when the prompt passes the field rules,
   * the check is enabled and the classifier refuses it; the message then names the reason.
   */
  lemma SecurityViolationIff(form: PromptForm, search: Matcher, raw: Option<string>)
    ensures var r := form.Clean(search, raw);
      (r.Err? && HasCode(r.error, SecurityViolation)) <==>
        (CleanPromptField(raw).Ok? && form.enableSecurityCheck
          && !form.securityService.ValidatePrompt(search, Strip(raw.value)).isSafe)
    ensures var r := form.Clean(search, raw);
      r.Err? && HasCode(r.error, SecurityViolation) ==>
        r.error == [FormError("Your prompt was blocked for security reasons: "
          + form.securityService.ValidatePrompt(search, Strip(raw.value)).reason, Some(SecurityViolation))]
  {
    var r := form.Clean(search, raw);
    var field := CleanPromptField(raw);
    if field.Ok? {
      FieldEnforcesLength(raw);
      var hook := form.CleanPrompt(search, field.value);
      if hook.Err? {
        assert r.error == [hook.error];
        assert r.error[0].code == Some(SecurityViolation);
      }
    }
  }

  /** A prompt outside the length bounds is refused without the `security_violation` code, whatever the classifier says. */
  lemma LengthFailureIsNotSecurityViolation(form: PromptForm, search: Matcher, raw: string)
    requires |Strip(raw)| < FieldMinLength || |Strip(raw)| > FieldMaxLength
    ensures form.Clean(search, Some(raw)).Err?
    ensures !HasCode(form.Clean(search, Some(raw)).error, SecurityViolation)
  {
  }

  /** With the check disabled only the field rules decide. */
  lemma DisabledCheckOnlyLength(form: PromptForm, search: Matcher, raw: Option<string>)
    requires !form.enableSecurityCheck
    ensures form.Clean(search, raw).Ok? <==>
      raw.Some? && FieldMinLength <= |Strip(raw.value)| <= FieldMaxLength && '\0' !in Strip(raw.value)
  {
    CleanSucceeds(form, search, raw);
  }

  // ---------------------------------------------------------------------------------------------
  // TemplatePromptForm
  // ---------------------------------------------------------------------------------------------

  /** The kinds of field the template form creates. */
  datatype FieldKind =
    | HiddenInteger(initial: Option<int>)
    | ChoiceField(choices: seq<string>)
    | TextareaField(maxLength: int)
    | DecimalField
    | TextField(maxLength: int)

  /** A form field: its kind, whether it is required, its label (`None`: derived from the name by Django) and help text. */
  datatype FormField = FormField(kind: FieldKind, required: bool, caption: Option<string>, helpText: string)

  /** The field generated for one variable definition. */
  function FieldFor(def: VarDef): (f: FormField)
    ensures f.kind.ChoiceField? <==> def.TypeOr() == "select" && def.ChoicesOr() != []
    ensures f.kind.ChoiceField? ==> f.kind.choices == def.ChoicesOr()
    ensures f.kind.TextareaField? <==> def.TypeOr() == "textarea"
    ensures f.kind.DecimalField? <==> def.TypeOr() == "number"
    ensures f.kind.TextField? <==>
      def.TypeOr() != "textarea" && def.TypeOr() != "number" && !(def.TypeOr() == "select" && def.ChoicesOr() != [])
    ensures f.kind.TextareaField? || f.kind.TextField? ==> f.kind.maxLength == def.MaxLengthOr()
    ensures f.required == def.IsRequired()
    ensures f.caption == Some(def.fieldLabel.GetOr(def.name)) && f.helpText == def.helpText.GetOr("")
    ensures !f.kind.HiddenInteger?
  {
    var kind :=
      if def.TypeOr() == "select" && def.ChoicesOr() != [] then ChoiceField(def.ChoicesOr())
      else if def.TypeOr() == "textarea" then TextareaField(def.MaxLengthOr())
      else if def.TypeOr() == "number" then DecimalField
      else TextField(def.MaxLengthOr());
    FormField(kind, def.IsRequired(), Some(def.fieldLabel.GetOr(def.name)), def.helpText.GetOr(""))
  }

  /** A `select` without choices, or with the key absent, falls through to a text field limited to 500 characters by default. */
  lemma SelectWithoutChoicesIsText(def: VarDef)
    requires def.TypeOr() == "select" && def.ChoicesOr() == []
    ensures FieldFor(def).kind == TextField(def.MaxLengthOr())
    ensures def.maxLength.None? ==> FieldFor(def).kind == TextField(500)
  {
  }

  /** The hidden `template_id` field, with the template's id as its initial value when there is a template. */
  function BaseFields(template: Option<Template>): map<string, FormField> {
    map["template_id" := FormField(HiddenInteger(if template.Some? then Some(template.value.id) else None), true, None, "")]
  }

  /** The fields after the definitions have been added in order, a later name overwriting an earlier one. */
  function FieldsAfter(base: map<string, FormField>, defs: seq<VarDef>): map<string, FormField>
    decreases |defs|
  {
    if defs == [] then base
    else
      var last := defs[|defs| - 1];
      FieldsAfter(base, defs[..|defs| - 1])[last.name := FieldFor(last)]
  }

  /** The fields of a template form. */
  function TemplateFields(template: Option<Template>): map<string, FormField> {
    FieldsAfter(BaseFields(template), if template.Some? then template.value.variables else [])
  }

  /** No later definition has the same name as definition `k`. */
  predicate LastDeclaration(defs: seq<VarDef>, k: int)
    requires 0 <= k < |defs|
  {
    forall j :: k < j < |defs| ==> defs[j].name != defs[k].name
  }

  /** The fields are the base fields plus one per declared name. */
  lemma {:induction false} FieldsAfterKeys(base: map<string, FormField>, defs: seq<VarDef>)
    ensures FieldsAfter(base, defs).Keys == base.Keys + DeclaredNames(defs)
    decreases |defs|
  {
    if defs == [] {
      assert DeclaredNames(defs) == {};
    } else {
      FieldsAfterKeys(base, defs[..|defs| - 1]);
      DeclaredNamesSnoc(defs);
    }
  }

  /** A base field that no definition names is kept as it was. */
  lemma {:induction false} FieldsAfterKeepsBase(base: map<string, FormField>, defs: seq<VarDef>, n: string)
    requires n in base && n !in DeclaredNames(defs)
    ensures n in FieldsAfter(base, defs) && FieldsAfter(base, defs)[n] == base[n]
    decreases |defs|
  {
    if defs != [] {
      DeclaredNamesSnoc(defs);
      FieldsAfterKeepsBase(base, defs[..|defs| - 1], n);
    }
  }

  /** Each declared name gets the field of its last definition. */
  lemma {:induction false} FieldsAfterLastWins(base: map<string, FormField>, defs: seq<VarDef>, k: nat)
    requires k < |defs| && LastDeclaration(defs, k)
    ensures defs[k].name in FieldsAfter(base, defs) && FieldsAfter(base, defs)[defs[k].name] == FieldFor(defs[k])
    decreases |defs|
  {
    var init := defs[..|defs| - 1];
    if k < |defs| - 1 {
      assert defs[k] == init[k];
      assert LastDeclaration(init, k);
      FieldsAfterLastWins(base, init, k);
    }
  }

  /**
   * The variables `clean` passes on: for each definition whose name has a cleaned value, that
   * value under that name.
   */
  function PassedVariables(defs: seq<VarDef>, cleaned: map<string, FieldValue>): (variables: map<string, FieldValue>)
    ensures forall n :: n in variables <==> n in cleaned && n in DeclaredNames(defs)
    ensures forall n :: n in variables ==> variables[n] == cleaned[n]
    decreases |defs|
  {
    if defs == [] then map[]
    else
      var rest := PassedVariables(defs[1..], cleaned);
      DeclaredNamesCons(defs);
      if defs[0].name in cleaned then rest[defs[0].name := cleaned[defs[0].name]] else rest
  }

  /**
   * The form-level `clean` as a function of the template, the values the fields produced, the
   * classifier and the oracles: the rendered prompt, or the error it raises.
   */
  function CleanOutcome(template: Option<Template>, cleaned: map<string, FieldValue>, svc: SecurityService,
                        search: Matcher, floatOk: string -> bool): (r: Result<string, FormError>)
    ensures template.None? ==> r == Err(FormError("Template not found", None))
    ensures r.Ok? ==> (template.Some?
      && ValidateTemplateVariables(PassedVariables(template.value.variables, cleaned), template.value.variables, floatOk).Pass?
      && r.value == template.value.Render(PassedVariables(template.value.variables, cleaned))
      && svc.ValidatePrompt(search, r.value).isSafe)
  {
    if template.None? then Err(FormError("Template not found", None))
    else
      var t := template.value;
      var variables := PassedVariables(t.variables, cleaned);
      var check := ValidateTemplateVariables(variables, t.variables, floatOk);
      if check.Fail? then Err(FormError(check.error, None))
      else
        var rendered := t.Render(variables);
        var verdict := svc.ValidatePrompt(search, rendered);
        if !verdict.isSafe then
          Err(FormError("The rendered prompt was blocked for security reasons: " + verdict.reason, Some(SecurityViolation)))
        else Ok(rendered)
  }

  /**
   * A failing variable check raises its message (no code) before anything is rendered or
   * classified: the outcome is the same whatever the classifier's matcher does.
   */
  lemma ValidationFailureStopsBeforeRender(t: Template, cleaned: map<string, FieldValue>, svc: SecurityService,
                                           search: Matcher, other: Matcher, floatOk: string -> bool)
    requires ValidateTemplateVariables(PassedVariables(t.variables, cleaned), t.variables, floatOk).Fail?
    ensures CleanOutcome(Some(t), cleaned, svc, search, floatOk) ==
      Err(FormError(ValidateTemplateVariables(PassedVariables(t.variables, cleaned), t.variables, floatOk).error, None))
    ensures CleanOutcome(Some(t), cleaned, svc, search, floatOk) == CleanOutcome(Some(t), cleaned, svc, other, floatOk)
  {
  }

  /**
   * `clean` raises with the code `security_violation` exactly when there is a template, its
   * variables pass and the classifier refuses the rendered prompt.
   */
  lemma RenderedPromptSecurityIff(t: Template, cleaned: map<string, FieldValue>, svc: SecurityService,
                                  search: Matcher, floatOk: string -> bool)
    ensures var r := CleanOutcome(Some(t), cleaned, svc, search, floatOk);
      var variables := PassedVariables(t.variables, cleaned);
      (r.Err? && r.error.code == Some(SecurityViolation)) <==>
        (ValidateTemplateVariables(variables, t.variables, floatOk).Pass?
          && !svc.ValidatePrompt(search, t.Render(variables)).isSafe)
  {
  }

  /** Cleaned values under names no definition declares (such as `template_id`) do not affect `clean`. */
  lemma UndeclaredFieldsIgnored(t: Template, cleaned: map<string, FieldValue>, key: string, value: FieldValue,
                                svc: SecurityService, search: Matcher, floatOk: string -> bool)
    requires key !in DeclaredNames(t.variables)
    ensures CleanOutcome(Some(t), cleaned[key := value], svc, search, floatOk) == CleanOutcome(Some(t), cleaned, svc, search, floatOk)
  {
    var more := PassedVariables(t.variables, cleaned[key := value]);
    var same := PassedVariables(t.variables, cleaned);
    assert more.Keys == same.Keys;
    assert more == same;
  }

  /** The template form: its template, its classifier, its generated fields and its cleaned data. */
  class TemplatePromptForm {
    const template: Option<Template>
    const securityService: SecurityService
    var fields: map<string, FormField>
    var cleanedData: map<string, FieldValue>

    /**
     * `__init__`: the hidden id field, then one field per variable definition, in order.
     * `securityService` is the classifier `__init__` builds, `PromptSecurityService()`, which is
     * `DefaultService`; the caller hands it over so that reasoning about the form does not have to
     * carry the rule tables.
     */
    constructor (template: Option<Template>, securityService: SecurityService)
      ensures this.template == template && this.securityService == securityService
      ensures fields == TemplateFields(template)
      ensures cleanedData == map[]
    {
      this.template := template;
      this.securityService := securityService;
      var fs := BaseFields(template);
      if template.Some? {
        var defs := template.value.variables;
        var i := 0;
        while i < |defs|
          invariant 0 <= i <= |defs|
          invariant fs == FieldsAfter(BaseFields(template), defs[..i])
        {
          assert defs[..i + 1][..i] == defs[..i];
          fs := fs[defs[i].name := FieldFor(defs[i])];
          i := i + 1;
        }
        assert defs[..|defs|] == defs;
      } else {
        assert fs == FieldsAfter(BaseFields(template), []);
      }
      fields := fs;
      cleanedData := map[];
    }

    /** `get_rendered_prompt`: the stored rendered prompt, or the empty string. */
    function RenderedPrompt(): (p: FieldValue)
      reads this
      ensures "rendered_prompt" !in cleanedData ==> p == Text("")
    {
      if "rendered_prompt" in cleanedData then cleanedData["rendered_prompt"] else Text("")
    }

    /** `clean`: raises, leaving the cleaned data alone, or stores the rendered prompt under `rendered_prompt`. */
    method Clean(search: Matcher, floatOk: string -> bool) returns (r: Result<string, FormError>)
      modifies this
      ensures r == CleanOutcome(template, old(cleanedData), securityService, search, floatOk)
      ensures r.Ok? ==> cleanedData == old(cleanedData)["rendered_prompt" := Text(r.value)]
      ensures r.Ok? ==> RenderedPrompt() == Text(r.value)
      ensures r.Err? ==> cleanedData == old(cleanedData)
      ensures fields == old(fields)
    {
      if template.None? {
        return Err(FormError("Template not found", None));
      }
      var t := template.value;
      var variables := PassedVariables(t.variables, cleanedData);
      var check := ValidateTemplateVariables(variables, t.variables, floatOk);
      if check.Fail? {
        return Err(FormError(check.error, None));
      }
      var rendered := t.Render(variables);
      var verdict := securityService.ValidatePrompt(search, rendered);
      if !verdict.isSafe {
        return Err(FormError("The rendered prompt was blocked for security reasons: " + verdict.reason, Some(SecurityViolation)));
      }
      cleanedData := cleanedData["rendered_prompt" := Text(rendered)];
      r := Ok(rendered);
    }

    /**
     * `is_valid`: the per-field cleaning has produced `fieldValues` and `fieldErrors`; `clean`
     * then runs in every case, and the form is valid when nothing at all was raised.
     */
    method IsValid(fieldValues: map<string, FieldValue>, fieldErrors: seq<FormError>, search: Matcher, floatOk: string -> bool)
      returns (r: Result<string, seq<FormError>>)
      modifies this
      ensures var outcome := CleanOutcome(template, fieldValues, securityService, search, floatOk);
        && (r.Ok? <==> fieldErrors == [] && outcome.Ok?)
        && (r.Ok? ==> r.value == outcome.value && RenderedPrompt() == Text(r.value))
        && (r.Err? ==> r.error == fieldErrors + (if outcome.Err? then [outcome.error] else []))
      ensures fields == old(fields)
    {
      cleanedData := fieldValues;
      var outcome := Clean(search, floatOk);
      if outcome.Err? {
        r := Err(fieldErrors + [outcome.error]);
      } else if fieldErrors != [] {
        r := Err(fieldErrors);
      } else {
        r := Ok(outcome.value);
      }
    }
  }

  // ---------------------------------------------------------------------------------------------
  // SystemSettingsForm and PromptTemplateForm
  // ---------------------------------------------------------------------------------------------

  /** `clean_bypass_guardrails`: the bypass cannot be saved as on unless the deployment runs with `DEBUG`. */
  function CleanBypassGuardrails(bypass: bool, debug: bool): (r: Result<bool, FormError>)
    ensures r.Err? <==> bypass && !debug
    ensures r.Err? ==> r.error == FormError("Guardrails bypass cannot be enabled in production mode", None)
    ensures r.Ok? ==> r.value == bypass
    ensures !debug && r.Ok? ==> !r.value
  {
    if bypass && !debug then Err(FormError("Guardrails bypass cannot be enabled in production mode", None))
    else Ok(bypass)
  }

  /** `clean_template`: the template text itself must pass the classifier. */
  function CleanTemplate(svc: SecurityService, search: Matcher, text: string): (r: Result<string, FormError>)
    ensures r.Ok? <==> svc.ValidatePrompt(search, text).isSafe
    ensures r.Ok? ==> r.value == text
    ensures r.Err? ==> r.error.message == "Template contains potentially dangerous content: " + svc.ValidatePrompt(search, text).reason
  {
    var verdict := svc.ValidatePrompt(search, text);
    if !verdict.isSafe then Err(FormError("Template contains potentially dangerous content: " + verdict.reason, None))
    else Ok(text)
  }

  /** A character that may start a Python identifier (ASCII only). */
  predicate IsIdentifierStart(c: char) {
    ('a' <= c <= 'z') || ('A' <= c <= 'Z') || c == '_'
  }

  /** A character that may continue a Python identifier (ASCII only). */
  predicate IsIdentifierChar(c: char) {
    IsIdentifierStart(c) || ('0' <= c <= '9')
  }

  /** `str.isidentifier` on ASCII text. */
  predicate IsIdentifier(s: string) {
    s != [] && IsIdentifierStart(s[0]) && forall k :: 1 <= k < |s| ==> IsIdentifierChar(s[k])
  }

  /** Why `clean_variables` refuses: a validation error, or the `AttributeError` of calling `isidentifier` on a non-string. */
  datatype VariablesError = Invalid(message: string) | NameNotString(typeName: string)

  /** The checks `clean_variables` makes on one entry of the list. */
  function CheckVariableEntry(entry: Json): Outcome<VariablesError> {
    if !entry.Obj? then Fail(Invalid("Each variable must be a JSON object"))
    else if "name" !in entry.fields then Fail(Invalid("Each variable must have a \"name\" field"))
    else
      var name := entry.fields["name"];
      if !name.Str? then Fail(NameNotString(TypeName(name)))
      else if !IsIdentifier(name.s) then Fail(Invalid("Variable name \"" + name.s + "\" is not a valid identifier"))
      else Pass
  }

  /** An entry that passes is an object whose `name` is an identifier string. */
  predicate WellFormedEntry(entry: Json) {
    entry.Obj? && "name" in entry.fields && entry.fields["name"].Str? && IsIdentifier(entry.fields["name"].s)
  }

  /** The entries from `i` on, in order; the first that fails decides. */
  function CheckEntriesFrom(entries: seq<Json>, i: nat): (r: Outcome<VariablesError>)
    requires i <= |entries|
    ensures r.Pass? <==> forall k :: i <= k < |entries| ==> WellFormedEntry(entries[k])
    ensures r.Fail? ==> exists k :: (i <= k < |entries| && r == CheckVariableEntry(entries[k])
      && forall j :: i <= j < k ==> WellFormedEntry(entries[j]))
    decreases |entries| - i
  {
    if i == |entries| then Pass
    else
      var here := CheckVariableEntry(entries[i]);
      assert here.Pass? <==> WellFormedEntry(entries[i]);
      if here.Fail? then here else CheckEntriesFrom(entries, i + 1)
  }

  /** `clean_variables`: a list of objects, each with an identifier `name`; the first failure is reported. */
  function CleanVariables(variables: Json): (r: Result<Json, VariablesError>)
    ensures r.Ok? <==> variables.Arr? && forall k :: 0 <= k < |variables.items| ==> WellFormedEntry(variables.items[k])
    ensures r.Ok? ==> r.value == variables
    ensures !variables.Arr? ==> r == Err(Invalid("Variables must be a JSON array"))
    ensures variables.Arr? && r.Err? ==> exists k :: (0 <= k < |variables.items| && Fail(r.error) == CheckVariableEntry(variables.items[k])
      && forall j :: 0 <= j < k ==> WellFormedEntry(variables.items[j]))
  {
    if !variables.Arr? then Err(Invalid("Variables must be a JSON array"))
    else
      var check := CheckEntriesFrom(variables.items, 0);
      if check.Fail? then Err(check.error) else Ok(variables)
  }

  /** An identifier contains no brace, so an accepted variable name always makes a well-delimited placeholder. */
  lemma IdentifiersAreBraceFree(s: string)
    requires IsIdentifier(s)
    ensures BraceFree(s)
  {
    forall k | 0 <= k < |s| ensures s[k] != '{' && s[k] != '}' {
      assert IsIdentifierChar(s[k]);
    }
  }

  /** Every name in an accepted variable list is brace-free, as the rendering lemmas require. */
  lemma AcceptedNamesAreBraceFree(variables: Json)
    requires CleanVariables(variables).Ok?
    ensures forall k :: 0 <= k < |variables.items| ==> BraceFree(variables.items[k].fields["name"].s)
  {
    forall k | 0 <= k < |variables.items| ensures BraceFree(variables.items[k].fields["name"].s) {
      assert WellFormedEntry(variables.items[k]);
      IdentifiersAreBraceFree(variables.items[k].fields["name"].s);
    }
  }
}
