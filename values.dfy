/**
 * The loosely typed values the pipeline passes around: JSON-like Python objects (LLM output,
 * variable definitions, request bodies), the values of cleaned form fields, template variable
 * definitions and the response dictionaries of the LLM services.
 */
module Values {
  import opened Wrappers
  import opened Text

  /** A Python value as produced by `json.loads` or boto3: dict keys are strings; numbers are `int` or `float`. */
  datatype Json =
    | Null
    | Bool(b: bool)
    | Num(n: int)
    | Float(x: real)
    | Str(s: string)
    | Arr(items: seq<Json>)
    | Obj(fields: map<string, Json>)

  /** Python truthiness: `None`, `False`, `0`, `0.0`, `''`, `[]` and `{}` are false. */
  predicate Truthy(j: Json) {
    match j
    case Null => false
    case Bool(b) => b
    case Num(n) => n != 0
    case Float(x) => x != 0.0
    case Str(s) => s != ""
    case Arr(xs) => xs != []
    case Obj(m) => m != map[]
  }

  /** The falsy values are exactly `None`, `False`, `0`, `0.0`, `''`, `[]` and `{}`. */
  lemma FalsyValues(j: Json)
    ensures !Truthy(j) <==> j in {Null, Bool(false), Num(0), Float(0.0), Str(""), Arr([]), Obj(map[])}
  {
  }

  /** `d.get(key, default)` on a dict. */
  function Get(m: map<string, Json>, key: string, default: Json): (r: Json)
    ensures key in m ==> r == m[key]
    ensures key !in m ==> r == default
  {
    if key in m then m[key] else default
  }

  /** `value.get(key, default)` on a value that boto3 always returns as a dict; any other shape counts as empty. */
  function Lookup(j: Json, key: string, default: Json): Json {
    if j.Obj? then Get(j.fields, key, default) else default
  }

  /** Python's name for the type of a value, as it appears in exception messages. */
  function TypeName(j: Json): string {
    match j
    case Null => "NoneType"
    case Bool(_) => "bool"
    case Num(_) => "int"
    case Float(_) => "float"
    case Str(_) => "str"
    case Arr(_) => "list"
    case Obj(_) => "dict"
  }

  /** The value of a cleaned form field: a `str` from a CharField or ChoiceField, a `Decimal` from a
      DecimalField (kept as its canonical text), an `int` from an IntegerField, or `None` for an
      optional number left blank. */
  datatype FieldValue = Text(s: string) | Decimal(digits: string) | Int(i: int) | NoValue

  /** `str(value)` of a cleaned field value. */
  function PyStr(v: FieldValue): string {
    match v
    case Text(s) => s
    case Decimal(d) => d
    case Int(i) => IntToString(i)
    case NoValue => "None"
  }

  /**
   * One entry of a template's `variables` list. Absent keys are `None` here; the readers below
   * apply the defaults the source applies with `dict.get`.
   */
  datatype VarDef = VarDef(
    name: string,
    fieldLabel: Option<string>,
    varType: Option<string>,
    required: Option<Json>,
    maxLength: Option<int>,
    choices: Option<seq<string>>,
    helpText: Option<string>)
  {
    /** `var.get('type', 'text')` */
    function TypeOr(): string { varType.GetOr("text") }
    /** `var.get('required', True)`, used for its truthiness: the string `"false"` counts as required. */
    predicate IsRequired() { required.None? || Truthy(required.value) }
    /** `var.get('max_length', 500)` */
    function MaxLengthOr(): int { maxLength.GetOr(500) }
    /** `var.get('choices', [])` */
    function ChoicesOr(): seq<string> { choices.GetOr([]) }
  }

  /** The names a list of definitions declares. */
  function DeclaredNames(defs: seq<VarDef>): (names: set<string>)
    ensures forall k :: 0 <= k < |defs| ==> defs[k].name in names
    ensures forall n :: n in names ==> exists k :: 0 <= k < |defs| && defs[k].name == n
  {
    set k | 0 <= k < |defs| :: defs[k].name
  }

  /** The names of a non-empty list: those of all but the last definition, and the last one's. */
  lemma DeclaredNamesSnoc(defs: seq<VarDef>)
    requires defs != []
    ensures DeclaredNames(defs) == DeclaredNames(defs[..|defs| - 1]) + {defs[|defs| - 1].name}
  {
    var init := defs[..|defs| - 1];
    forall n | n in DeclaredNames(defs) ensures n in DeclaredNames(init) + {defs[|defs| - 1].name} {
      var k :| 0 <= k < |defs| && defs[k].name == n;
      if k < |defs| - 1 {
        assert init[k].name == n;
      }
    }
    forall n | n in DeclaredNames(init) ensures n in DeclaredNames(defs) {
      var k :| 0 <= k < |init| && init[k].name == n;
      assert defs[k].name == n;
    }
  }

  /** The names of a non-empty list: the first definition's, and those of the rest. */
  lemma DeclaredNamesCons(defs: seq<VarDef>)
    requires defs != []
    ensures DeclaredNames(defs) == {defs[0].name} + DeclaredNames(defs[1..])
  {
    forall n | n in DeclaredNames(defs) ensures n in {defs[0].name} + DeclaredNames(defs[1..]) {
      var k :| 0 <= k < |defs| && defs[k].name == n;
      if k > 0 {
        assert defs[1..][k - 1].name == n;
      }
    }
    forall n | n in DeclaredNames(defs[1..]) ensures n in DeclaredNames(defs) {
      var k :| 0 <= k < |defs[1..]| && defs[1..][k].name == n;
      assert defs[k + 1].name == n;
    }
  }

  /** A definition that only names its variable: every other key takes its default. */
  function PlainVar(name: string): VarDef {
    VarDef(name, None, None, None, None, None, None)
  }

  /**
   * The dictionary both `BedrockService.invoke_structured` and `DemoService.generate_mock_response`
   * return: the structured result, the token usage, the stop reason, the latency, the guardrail
   * trace and whether the response was simulated.
   */
  datatype LlmResponse = LlmResponse(
    result: Json,
    inputTokens: Json,
    outputTokens: Json,
    stopReason: Json,
    elapsedMs: int,
    guardrailTrace: Json,
    demoMode: bool)
}
