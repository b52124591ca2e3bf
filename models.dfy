/**
 * The persistent entities of the pipeline: the singleton system settings with their cache,
 * prompt templates (rendering and the usage counter) and the audit log record.
 */
module Models {
  import opened Wrappers
  import opened Values
  import opened Text

  /** `PromptMode` */
  datatype PromptMode = Constrained | Guided | Open {
    /** The value stored in the database. */
    function Value(): string {
      match this
      case Constrained => "constrained"
      case Guided => "guided"
      case Open => "open"
    }
  }

  /** A `SystemSettings` row (timestamps left out). */
  datatype Settings = Settings(
    pk: int,
    promptMode: PromptMode,
    bypassGuardrails: bool,
    demoMode: bool,
    maxTokens: nat,
    modelId: string)

  const DefaultModelId := "anthropic.claude-3-sonnet-20240229-v1:0"

  /** The row `get_or_create(pk=1)` creates: every field at its declared default. */
  const DefaultSettings := Settings(1, Guided, false, true, 4096, DefaultModelId)

  /**
   * The `SystemSettings` table together with the `'system_settings'` cache entry. Rows are keyed by
   * primary key; the cache holds the instance `get_settings` last loaded, or nothing.
   */
  class SettingsStore {
    var rows: map<int, Settings>
    var cache: Option<Settings>

    /** Every row is stored under its own key, and a cached instance is the stored singleton row. */
    ghost predicate Valid()
      reads this
    {
      && (forall k :: k in rows ==> rows[k].pk == k)
      && (cache.Some? ==> 1 in rows && cache.value == rows[1])
    }

    /** The settings in force: the singleton row, or the defaults it would be created with. */
    ghost function Current(): (s: Settings)
      reads this
      requires Valid()
      ensures s.pk == 1
    {
      if 1 in rows then rows[1] else DefaultSettings
    }

    constructor ()
      ensures Valid() && rows == map[] && cache == None
    {
      rows := map[];
      cache := None;
    }

    /** `SystemSettings.save`: whatever its pk, the instance is written as row 1 and the cache entry is deleted. */
    method Save(s: Settings)
      requires Valid()
      modifies this
      ensures Valid()
      ensures rows == old(rows)[1 := s.(pk := 1)] && cache == None
      ensures Current() == s.(pk := 1)
    {
      rows := rows[1 := s.(pk := 1)];
      cache := None;
    }

    /**
     * `SystemSettings.get_settings`: the cached instance if there is one; otherwise row 1, created
     * with the defaults when missing, which is then cached. Either way the settings in force.
     */
    method GetSettings() returns (s: Settings)
      requires Valid()
      modifies this
      ensures Valid()
      ensures s == old(Current()) && s == Current() && s.pk == 1
      ensures cache == Some(s)
      ensures old(cache).Some? ==> s == old(cache).value && rows == old(rows)
      ensures old(cache).None? ==> rows == old(rows)[1 := s]
      ensures old(1 !in rows) ==> s == DefaultSettings
    {
      match cache
      case Some(cached) =>
        s := cached;
      case None =>
        if 1 in rows {
          s := rows[1];
        } else {
          s := DefaultSettings;
          rows := rows[1 := s];
        }
        cache := Some(s);
    }
  }

  /**
   * Two `get_settings` calls on a fresh database give the same singleton, with pk 1 and the guided
   * default mode; settings saved under another pk are read back as row 1.
   */
  method SingletonClient() returns (first: Settings, second: Settings, saved: Settings)
    ensures first == second && first.pk == 1
    ensures first.promptMode == Guided && !first.bypassGuardrails && first.demoMode && first.maxTokens == 4096
    ensures saved.pk == 1 && saved.promptMode == Constrained
  {
    var store := new SettingsStore();
    first := store.GetSettings();
    second := store.GetSettings();
    store.Save(first.(promptMode := Constrained, pk := 7));
    saved := store.GetSettings();
  }

  /** A `PromptTemplate` row (description and timestamps left out). */
  datatype Template = Template(
    id: int,
    name: string,
    body: string,
    variables: seq<VarDef>,
    category: string,
    isActive: bool,
    usageCount: nat)
  {
    /** `render`: the template text with each declared variable substituted in declaration order. */
    function Render(values: map<string, FieldValue>): (r: string)
      ensures '{' !in body ==> r == body
      ensures (forall k :: 0 <= k < |variables| ==> variables[k].name !in values) ==> r == body
    {
      RenderFrom(body, variables, values)
    }
  }

  /** One iteration of `render`: every `{name}` replaced by `str(value)` when a value is supplied. */
  function RenderStep(prompt: string, def: VarDef, values: map<string, FieldValue>): (r: string)
    ensures '{' !in prompt ==> r == prompt
    ensures def.name in values && PyStr(values[def.name]) == Placeholder(def.name) ==> r == prompt
  {
    if def.name in values then ReplaceAll(prompt, Placeholder(def.name), PyStr(values[def.name])) else prompt
  }

  /** The left fold of `RenderStep` over the definitions. */
  function RenderFrom(prompt: string, defs: seq<VarDef>, values: map<string, FieldValue>): (r: string)
    ensures '{' !in prompt ==> r == prompt
    ensures (forall k :: 0 <= k < |defs| ==> defs[k].name !in values) ==> r == prompt
    decreases |defs|
  {
    if defs == [] then prompt else RenderFrom(RenderStep(prompt, defs[0], values), defs[1..], values)
  }

  /** Keys that no definition declares have no effect on rendering. */
  lemma {:induction false} RenderIgnoresUndeclared(prompt: string, defs: seq<VarDef>, values: map<string, FieldValue>, key: string, value: FieldValue)
    requires key !in DeclaredNames(defs)
    ensures RenderFrom(prompt, defs, values[key := value]) == RenderFrom(prompt, defs, values)
    decreases |defs|
  {
    if defs != [] {
      assert defs[0].name != key;
      assert DeclaredNames(defs[1..]) <= DeclaredNames(defs) by {
        forall n | n in DeclaredNames(defs[1..]) ensures n in DeclaredNames(defs) {
          var k :| 0 <= k < |defs[1..]| && defs[1..][k].name == n;
          assert defs[k + 1].name == n;
        }
      }
      RenderIgnoresUndeclared(RenderStep(prompt, defs[0], values), defs[1..], values, key, value);
    }
  }

  /**
   * A declared variable without a value keeps its placeholder: if `{name}` occurs in the text it
   * still occurs after rendering, provided the declared names are brace-free (identifiers are).
   */
  lemma {:induction false} RenderKeepsUnfilledPlaceholder(prompt: string, defs: seq<VarDef>, values: map<string, FieldValue>, name: string)
    requires name !in values && BraceFree(name)
    requires forall k :: 0 <= k < |defs| ==> BraceFree(defs[k].name)
    requires IsInfix(Placeholder(name), prompt)
    ensures IsInfix(Placeholder(name), RenderFrom(prompt, defs, values))
    decreases |defs|
  {
    if defs != [] {
      var next := RenderStep(prompt, defs[0], values);
      if defs[0].name in values {
        PlaceholderSurvivesReplace(prompt, name, defs[0].name, PyStr(values[defs[0].name]));
      }
      RenderKeepsUnfilledPlaceholder(next, defs[1..], values, name);
    }
  }

  /** A placeholder is left alone by the replacement of a different one. */
  lemma OtherPlaceholderUnchanged(m: string, name: string, rep: string)
    requires BraceFree(m) && BraceFree(name) && m != name
    ensures ReplaceAll(Placeholder(m), Placeholder(name), rep) == Placeholder(m)
  {
    var q := Placeholder(m);
    PlaceholdersDistinctAtStart(q, m, name);
    assert StartsWith(q, q);
    ReplaceAllNoBrace(q[1..], name, rep);
    assert q == [q[0]] + q[1..];
  }

  /** Regrouping a four-part concatenation to the right. */
  lemma Regroup(w: string, x: string, y: string, z: string)
    ensures w + x + y + z == w + (x + (y + z))
  {
  }

  /** In `pre{a}mid{b}` with brace-free `pre` and `mid`, replacing `{a}` touches nothing else. */
  lemma ReplaceFirstOfTwo(pre: string, a: string, mid: string, b: string, va: string)
    requires '{' !in pre && '{' !in mid
    requires BraceFree(a) && BraceFree(b) && a != b
    ensures ReplaceAll(pre + Placeholder(a) + mid + Placeholder(b), Placeholder(a), va)
      == pre + va + mid + Placeholder(b)
  {
    var pa, pb := Placeholder(a), Placeholder(b);
    var tail := mid + pb;
    Regroup(pre, pa, mid, pb);
    Regroup(pre, va, mid, pb);
    ReplaceAllSkipsPlainPrefix(mid, pb, a, va);
    OtherPlaceholderUnchanged(b, a, va);
    ReplaceAllLeadingPlaceholder(tail, a, va);
    ReplaceAllSkipsPlainPrefix(pre, pa + tail, a, va);
  }

  /** A trailing placeholder after brace-free text is the only one replaced. */
  lemma ReplaceTrailing(x: string, b: string, vb: string)
    requires '{' !in x
    ensures ReplaceAll(x + Placeholder(b), Placeholder(b), vb) == x + vb
  {
    var pb := Placeholder(b);
    assert x + pb == x + (pb + []);
    ReplaceAllSkipsPlainPrefix(x, pb + [], b, vb);
    ReplaceAllLeadingPlaceholder([], b, vb);
    assert vb + [] == vb;
  }

  /**
   * A two-variable template `pre{a}mid{b}` renders to `pre` + value of `a` + `mid` + value of `b`
   * when both values are supplied, and keeps `{b}` when only `a` is.
   */
  lemma RenderTwoPlaceholders(pre: string, a: string, mid: string, b: string, va: string, vb: string)
    requires '{' !in pre && '{' !in mid && '{' !in va
    requires BraceFree(a) && BraceFree(b) && a != b
    ensures var body := pre + Placeholder(a) + mid + Placeholder(b);
      && RenderFrom(body, [PlainVar(a), PlainVar(b)], map[a := Text(va), b := Text(vb)]) == pre + va + mid + vb
      && RenderFrom(body, [PlainVar(a), PlainVar(b)], map[a := Text(va)]) == pre + va + mid + Placeholder(b)
  {
    var body := pre + Placeholder(a) + mid + Placeholder(b);
    var defs := [PlainVar(a), PlainVar(b)];
    assert defs[1..] == [PlainVar(b)] && defs[1..][1..] == [];
    ReplaceFirstOfTwo(pre, a, mid, b, va);
    var step1 := pre + va + mid + Placeholder(b);
    ReplaceTrailing(pre + va + mid, b, vb);
    var full := map[a := Text(va), b := Text(vb)];
    assert RenderStep(body, defs[0], full) == step1;
    assert RenderStep(step1, defs[1], full) == pre + va + mid + vb;
    assert RenderFrom(body, defs, full) == RenderFrom(step1, defs[1..], full)
      == RenderFrom(pre + va + mid + vb, [], full);
    var partial := map[a := Text(va)];
    assert RenderStep(body, defs[0], partial) == step1;
    assert RenderStep(step1, defs[1], partial) == step1;
    assert RenderFrom(body, defs, partial) == RenderFrom(step1, defs[1..], partial)
      == RenderFrom(step1, [], partial);
  }

  /** `Analyze {dataset} for {metric}` renders to `Analyze Sales for revenue` with both values, and
      keeps `{metric}` when only `dataset` is supplied. */
  lemma RenderExamples(t: Template, full: map<string, FieldValue>, partial: map<string, FieldValue>)
    requires t.body == "Analyze {dataset} for {metric}"
    requires t.variables == [PlainVar("dataset"), PlainVar("metric")]
    requires full == map["dataset" := Text("Sales"), "metric" := Text("revenue")]
    requires partial == map["dataset" := Text("Sales")]
    ensures t.Render(full) == "Analyze Sales for revenue"
    ensures t.Render(partial) == "Analyze Sales for {metric}"
  {
    var pre, a, mid, b, va, vb := "Analyze ", "dataset", " for ", "metric", "Sales", "revenue";
    ExampleBraces();
    ExampleNames();
    ExampleBody();
    ExampleFull();
    ExamplePartial();
    RenderTwoPlaceholders(pre, a, mid, b, va, vb);
  }

  // Proof steps of RenderExamples: how the example strings decompose, one fact per lemma to keep the
  // string reasoning small.
  lemma ExampleBraces()
    ensures '{' !in "Analyze " && '{' !in " for " && '{' !in "Sales"
  {}

  lemma ExampleNames()
    ensures BraceFree("dataset") && BraceFree("metric") && "dataset" != "metric"
  {}

  lemma ExampleBody()
    ensures "Analyze " + Placeholder("dataset") + " for " + Placeholder("metric") == "Analyze {dataset} for {metric}"
  {}

  lemma ExampleFull()
    ensures "Analyze " + "Sales" + " for " + "revenue" == "Analyze Sales for revenue"
  {}

  lemma ExamplePartial()
    ensures "Analyze " + "Sales" + " for " + Placeholder("metric") == "Analyze Sales for {metric}"
  {}

  /** The `PromptTemplate` table. */
  class TemplateStore {
    var templates: map<int, Template>

    constructor (initial: map<int, Template>)
      ensures templates == initial
    {
      templates := initial;
    }

    /** `get_object_or_404(PromptTemplate, id=..., is_active=True)`, without the 404 response. */
    function FindActive(id: int): (t: Option<Template>)
      reads this
      ensures t.Some? <==> id in templates && templates[id].isActive
      ensures t.Some? ==> t.value == templates[id]
    {
      if id in templates && templates[id].isActive then Some(templates[id]) else None
    }

    /** `increment_usage`: that template's `usage_count` goes up by exactly one; nothing else changes. */
    method IncrementUsage(id: int)
      requires id in templates
      modifies this
      ensures templates.Keys == old(templates).Keys
      ensures templates[id] == old(templates)[id].(usageCount := old(templates)[id].usageCount + 1)
      ensures forall other :: other in templates && other != id ==> templates[other] == old(templates)[other]
    {
      var t := templates[id];
      templates := templates[id := t.(usageCount := t.usageCount + 1)];
    }
  }

  /** A `PromptAuditLog` row (user, timestamps left out). */
  datatype AuditRecord = AuditRecord(
    prompt: string,
    renderedPrompt: string,
    mode: PromptMode,
    templateId: Option<int>,
    wasFiltered: bool,
    filterReason: string,
    guardrailResponse: Json,
    llmResponse: string,
    responseTimeMs: Option<int>,
    inputTokens: Json,
    outputTokens: Json,
    bypassUsed: bool,
    ipAddress: Option<string>,
    userAgent: string)

  /** `prompt_preview`: the prompt, or its first 100 characters and `...` when it is longer. */
  function PromptPreview(prompt: string): (r: string)
    ensures |prompt| <= 100 ==> r == prompt
    ensures |prompt| > 100 ==> |r| == 103 && r[..100] == prompt[..100] && r[100..] == "..."
    ensures |r| <= 103
  {
    if |prompt| > 100 then prompt[..100] + "..." else prompt
  }
}
