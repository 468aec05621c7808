/**
 * The static action catalogue of backend/utils/actionRegistry.js: the
 * registry itself, its category list and per-category lookup, and the two
 * validators. The zod schemas the registry declares are modelled as a small
 * structural schema language over JSON-like values.
 */
module ActionRegistry {
  import opened Wrappers
  import opened JsText

  /** A JSON-like value; JavaScript numbers are modelled as integers. */
  datatype Value = Str(s: string) | Num(n: int) | Bool(b: bool) | Null | Arr(items: seq<Value>) | Obj(fields: map<string, Value>)

  /** The zod constructors the registry uses: `z.string()`, `z.number()`, `z.enum`, `z.array`, `z.object`. */
  datatype Schema = StringS | NumberS | EnumS(options: seq<string>) | ArrayS(item: Schema) | ObjectS(fields: seq<Field>)

  /** One key of a `z.object`; `optional` is `.optional()`. */
  datatype Field = Field(key: string, schema: Schema, optional: bool)

  /**
   * `schema.parse(v)` succeeds: a `z.object` needs every required key with a
   * conforming value, accepts a missing optional key, and ignores unknown keys.
   */
  predicate Conforms(v: Value, s: Schema)
    decreases s
  {
    match s
    case StringS => v.Str?
    case NumberS => v.Num?
    case EnumS(options) => v.Str? && v.s in options
    case ArrayS(item) => v.Arr? && forall i :: 0 <= i < |v.items| ==> Conforms(v.items[i], item)
    case ObjectS(fields) =>
      v.Obj? && forall f :: f in fields ==>
        (f.key in v.fields ==> Conforms(v.fields[f.key], f.schema)) && (f.key !in v.fields ==> f.optional)
  }

  /** A registry entry; an absent `inputSchema`/`outputSchema` is None. */
  datatype Action = Action(
    key: string,
    name: string,
    description: string,
    category: string,
    requiredInputs: seq<string>,
    inputSchema: Option<Schema>,
    outputSchema: Option<Schema>)

  /** `actionRegistry` (lines 19-114), in the object's key order. */
  const Registry: seq<Action> := [
    Action("pdf_to_text", "Convert PDF to Text", "Extract text content from a PDF document",
           "document_processing", ["file_path"], None, None),
    Action("extract_skills", "Extract Skills", "Extract skills and competencies from text",
           "text_analysis", ["text"], None, None),
    Action("summarize", "Summarize Text", "Generate a concise summary of the input text",
           "text_analysis", ["text", "max_length"], None, None),
    Action("analyze_sentiment", "Analyze Sentiment", "Analyze the sentiment of the input text",
           "text_analysis", ["text"], None, None),
    Action("process_document", "Process Document", "Process document with custom parameters",
           "document_processing", ["text", "parameters"], None, None),
    Action("analyze_content", "Content Analysis", "Analyze content for main topics, key points, and target audience",
           "analysis", ["text"],
           Some(ObjectS([Field("text", StringS, false), Field("contentType", StringS, true)])),
           Some(ObjectS([Field("main_topic", StringS, false), Field("key_points", ArrayS(StringS), false),
                         Field("target_audience", StringS, false), Field("content_type", StringS, false),
                         Field("reading_level", StringS, false), Field("word_count", NumberS, false)]))),
    Action("summarize_text", "Text Summarization", "Generate a summary of the text",
           "summarization", ["text"],
           Some(ObjectS([Field("text", StringS, false), Field("length", EnumS(["short", "medium", "long"]), true),
                         Field("contentType", StringS, true)])),
           Some(ObjectS([Field("summary", StringS, false), Field("key_points", ArrayS(StringS), false),
                         Field("length", StringS, false)])))
  ]

  /** The TypeError of `action.inputSchema.parse` / `action.outputSchema.parse` on an entry without that schema. */
  const UndefinedParse := "Cannot read properties of undefined (reading 'parse')"
  /** The ZodError a failed parse throws; its list of issues is not modelled. */
  const SchemaMismatch := "ZodError"

  /** `actionRegistry[key]`: keys are unique, so the first entry with the key is the one. */
  function Find(entries: seq<Action>, key: string): (r: Option<Action>)
    ensures r.None? <==> forall i :: 0 <= i < |entries| ==> entries[i].key != key
    ensures r.Some? ==> r.value.key == key && r.value in entries
  {
    if entries == [] then None
    else if entries[0].key == key then Some(entries[0])
    else Find(entries[1..], key)
  }

  /** The `category` of each entry, in order (`Object.values(actionRegistry)`). */
  function CategoriesOf(entries: seq<Action>): (r: seq<string>)
    ensures |r| == |entries|
    ensures forall i :: 0 <= i < |entries| ==> r[i] == entries[i].category
  {
    if entries == [] then [] else CategoriesOf(entries[..|entries| - 1]) + [entries[|entries| - 1].category]
  }

  /** A `Set` filled in order and turned into an array: each value once, at its first appearance. */
  function Dedup(xs: seq<string>): seq<string>
  {
    if xs == [] then []
    else
      var d := Dedup(xs[..|xs| - 1]);
      if xs[|xs| - 1] in d then d else d + [xs[|xs| - 1]]
  }

  /**
   * `Dedup` keeps one copy of every value and nothing else, and the values
   * of every prefix come first: the order is that of first appearance.
   */
  lemma {:induction false} DedupSpec(xs: seq<string>)
    ensures NoDuplicates(Dedup(xs))
    ensures forall x :: x in Dedup(xs) <==> x in xs
    ensures forall k :: 0 <= k <= |xs| ==> Dedup(xs[..k]) <= Dedup(xs)
  {
    if xs != [] {
      var p := xs[..|xs| - 1];
      DedupSpec(p);
      assert xs == p + [xs[|xs| - 1]];
      forall k | 0 <= k <= |xs| ensures Dedup(xs[..k]) <= Dedup(xs) {
        if k < |xs| {
          assert xs[..k] == p[..k];
        } else {
          assert xs[..k] == xs;
        }
      }
    }
  }

  /** The `forEach` of `getActionCategories` over a list of entries, adding each category to a `Set`. */
  method CollectCategories(entries: seq<Action>) returns (categories: seq<string>)
    ensures categories == Dedup(CategoriesOf(entries))
    ensures NoDuplicates(categories)
    ensures forall c :: c in categories <==> exists i :: 0 <= i < |entries| && entries[i].category == c
  {
    var seen: set<string> := {};
    categories := [];
    for i := 0 to |entries|
      invariant categories == Dedup(CategoriesOf(entries[..i]))
      invariant forall c :: c in seen <==> c in categories
    {
      assert entries[..i + 1][..i] == entries[..i];
      var c := entries[i].category;
      if c !in seen {
        seen := seen + {c};
        categories := categories + [c];
      }
    }
    assert entries[..|entries|] == entries;
    DedupSpec(CategoriesOf(entries));
    forall c ensures c in categories <==> exists i :: 0 <= i < |entries| && entries[i].category == c {
      if c in categories {
        var i :| 0 <= i < |CategoriesOf(entries)| && CategoriesOf(entries)[i] == c;
      }
    }
  }

  /**
   * `getActionCategories()` (lines 147-153): every category of the registry
   * exactly once, in order of first appearance.
   */
  method GetActionCategories() returns (categories: seq<string>)
    ensures categories == Dedup(CategoriesOf(Registry))
    ensures NoDuplicates(categories)
    ensures forall c :: c in categories <==> exists i :: 0 <= i < |Registry| && Registry[i].category == c
  {
    categories := CollectCategories(Registry);
  }

  /** `{ name, description }` of an entry, `name` being its key. */
  datatype ActionSummary = ActionSummary(name: string, description: string)

  function Summary(a: Action): ActionSummary
  {
    ActionSummary(a.key, a.description)
  }

  function Summaries(entries: seq<Action>): (r: seq<ActionSummary>)
    ensures |r| == |entries|
    ensures forall i :: 0 <= i < |entries| ==> r[i] == Summary(entries[i])
  {
    if entries == [] then [] else [Summary(entries[0])] + Summaries(entries[1..])
  }

  /** The filter/map of `getActionsByCategory` over a list of entries. */
  function ByCategory(entries: seq<Action>, category: string): seq<ActionSummary>
  {
    if entries == [] then []
    else (if entries[0].category == category then [Summary(entries[0])] else []) + ByCategory(entries[1..], category)
  }

  /**
   * The summaries of exactly the entries in the category, in registry order;
   * empty exactly when no entry has the category.
   */
  lemma {:induction false} ByCategorySpec(entries: seq<Action>, category: string)
    ensures var r := ByCategory(entries, category);
      && (forall s :: s in r <==> exists i :: 0 <= i < |entries| && entries[i].category == category && s == Summary(entries[i]))
      && Subseq(r, Summaries(entries))
      && (r == [] <==> forall i :: 0 <= i < |entries| ==> entries[i].category != category)
  {
    if entries != [] {
      var tail := entries[1..];
      ByCategorySpec(tail, category);
      var rest := ByCategory(tail, category);
      var r := ByCategory(entries, category);
      assert Summaries(entries) == [Summary(entries[0])] + Summaries(tail);
      if entries[0].category == category {
        assert r == [Summary(entries[0])] + rest;
        SubseqCons(Summary(entries[0]), rest, Summaries(tail));
      } else {
        assert r == rest;
        SubseqSkip(Summary(entries[0]), rest, Summaries(tail));
      }
      forall s ensures s in r <==> exists i :: 0 <= i < |entries| && entries[i].category == category && s == Summary(entries[i]) {
        if s in rest {
          var j :| 0 <= j < |tail| && tail[j].category == category && s == Summary(tail[j]);
          assert entries[j + 1] == tail[j];
        }
        if exists i :: 0 <= i < |entries| && entries[i].category == category && s == Summary(entries[i]) {
          var i :| 0 <= i < |entries| && entries[i].category == category && s == Summary(entries[i]);
          if i > 0 {
            assert tail[i - 1] == entries[i];
          }
        }
      }
      if r == [] {
        forall i | 0 <= i < |entries| ensures entries[i].category != category {
          if i > 0 {
            assert tail[i - 1] == entries[i];
          }
        }
      }
    }
  }

  /** `getActionsByCategory(category)` (lines 156-163). */
  function GetActionsByCategory(category: string): seq<ActionSummary>
  {
    ByCategory(Registry, category)
  }

  /** The first required key `inputs` lacks, if any. */
  function FirstMissing(required: seq<string>, inputs: map<string, Value>): (r: Option<nat>)
    ensures r.None? <==> forall j :: 0 <= j < |required| ==> required[j] in inputs
    ensures r.Some? ==> r.value < |required| && required[r.value] !in inputs
    ensures r.Some? ==> forall j :: 0 <= j < r.value ==> required[j] in inputs
  {
    if required == [] then None
    else if required[0] !in inputs then Some(0)
    else match FirstMissing(required[1..], inputs)
      case None => None
      case Some(k) => Some(k + 1)
  }

  /** `schema.parse(v); return true`, with an absent schema throwing the TypeError. */
  function Parse(schema: Option<Schema>, v: Value): (r: Result<bool>)
    ensures r.Ok? <==> schema.Some? && Conforms(v, schema.value)
    ensures r.Ok? ==> r.value
    ensures schema.None? ==> r == Err(UndefinedParse)
    ensures schema.Some? && !r.Ok? ==> r == Err(SchemaMismatch)
  {
    if schema.None? then Err(UndefinedParse)
    else if Conforms(v, schema.value) then Ok(true)
    else Err(SchemaMismatch)
  }

  function NotFound(actionName: string): string
  {
    "Action " + actionName + " not found in registry"
  }

  /** What `validateActionInputs` returns or throws (lines 117-133), over a list of entries. */
  function InputVerdictIn(entries: seq<Action>, actionName: string, inputs: map<string, Value>): Result<bool>
  {
    match Find(entries, actionName)
    case None => Err(NotFound(actionName))
    case Some(a) =>
      match FirstMissing(a.requiredInputs, inputs)
      case Some(k) => Err("Missing required input: " + a.requiredInputs[k] + " for action " + actionName)
      case None => Parse(a.inputSchema, Obj(inputs))
  }

  function InputVerdict(actionName: string, inputs: map<string, Value>): Result<bool>
  {
    InputVerdictIn(Registry, actionName, inputs)
  }

  /** The body of `validateActionInputs` over a list of entries. */
  method ValidateInputsIn(entries: seq<Action>, actionName: string, inputs: map<string, Value>) returns (r: Result<bool>)
    ensures r == InputVerdictIn(entries, actionName, inputs)
  {
    var action := Find(entries, actionName);
    if action.None? {
      return Err(NotFound(actionName));
    }
    var required := action.value.requiredInputs;
    for i := 0 to |required|
      invariant forall j :: 0 <= j < i ==> required[j] in inputs
    {
      if required[i] !in inputs {
        return Err("Missing required input: " + required[i] + " for action " + actionName);
      }
    }
    r := Parse(action.value.inputSchema, Obj(inputs));
  }

  /**
   * `validateActionInputs(actionName, inputs)`: find the entry, check the
   * required keys in order, then parse the inputs with the entry's schema.
   */
  method ValidateActionInputs(actionName: string, inputs: map<string, Value>) returns (r: Result<bool>)
    ensures r == InputVerdict(actionName, inputs)
  {
    r := ValidateInputsIn(Registry, actionName, inputs);
  }

  /**
   * The inputs are accepted exactly when the action exists, every required
   * key is present, and the entry's schema exists and accepts them; a
   * missing key is the first one in `requiredInputs` order.
   */
  lemma {:induction false} InputVerdictSpec(actionName: string, inputs: map<string, Value>)
    ensures var r := InputVerdict(actionName, inputs);
      var a := Find(Registry, actionName);
      && (r.Ok? <==> a.Some? && (forall j :: 0 <= j < |a.value.requiredInputs| ==> a.value.requiredInputs[j] in inputs)
                      && a.value.inputSchema.Some? && Conforms(Obj(inputs), a.value.inputSchema.value))
      && (a.None? ==> r == Err(NotFound(actionName)))
      && (a.Some? && FirstMissing(a.value.requiredInputs, inputs).Some? ==>
            var k := FirstMissing(a.value.requiredInputs, inputs).value;
            && r == Err("Missing required input: " + a.value.requiredInputs[k] + " for action " + actionName)
            && a.value.requiredInputs[k] !in inputs
            && forall j :: 0 <= j < k ==> a.value.requiredInputs[j] in inputs)
  {
  }

  /** An entry without an input schema never validates, whatever the inputs. */
  lemma {:induction false} NoSchemaNeverValidates(actionName: string, inputs: map<string, Value>)
    requires Find(Registry, actionName).Some? && Find(Registry, actionName).value.inputSchema.None?
    ensures InputVerdict(actionName, inputs).Err?
    ensures FirstMissing(Find(Registry, actionName).value.requiredInputs, inputs).None? ==>
      InputVerdict(actionName, inputs) == Err(UndefinedParse)
  {
  }

  /** `pdf_to_text` is such an entry: even with `file_path` present it fails at the parse. */
  lemma PdfToTextNeverValidates(inputs: map<string, Value>)
    ensures InputVerdict("pdf_to_text", inputs).Err?
    ensures "file_path" in inputs ==> InputVerdict("pdf_to_text", inputs) == Err(UndefinedParse)
  {
    assert Find(Registry, "pdf_to_text") == Some(Registry[0]);
  }

  /** `validateActionOutputs(actionName, outputs)` (lines 136-144). */
  function ValidateActionOutputs(actionName: string, outputs: Value): (r: Result<bool>)
    ensures Find(Registry, actionName).None? ==> r == Err(NotFound(actionName))
    ensures r.Ok? <==> Find(Registry, actionName).Some? && Find(Registry, actionName).value.outputSchema.Some?
                       && Conforms(outputs, Find(Registry, actionName).value.outputSchema.value)
  {
    match Find(Registry, actionName)
    case None => Err(NotFound(actionName))
    case Some(a) => Parse(a.outputSchema, outputs)
  }
}
