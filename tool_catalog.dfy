/** The static tool catalog of the direct chatbot, its dispatch table from tool
    name to tool function, and `execute_tool`, which looks a name up in that table
    and turns whatever the tool returned into result text.
 */
module ToolCatalog {
  import opened Messages

  /** One entry of `input_schema["properties"]`. */
  datatype Property = Property(name: string, kind: string, description: string, default: Option<int>)

  /** An `input_schema`: a JSON-schema object with its properties and required names. */
  datatype Schema = Schema(kind: string, properties: seq<Property>, required: seq<string>)

  /** One descriptor of the `tools` list: `{name, description, input_schema}`. */
  datatype ToolSpec = ToolSpec(name: string, description: string, inputSchema: Schema)

  /** The `tools` list sent to the model service on every call. */
  const Tools: seq<ToolSpec> := [
    ToolSpec(
      "search_papers",
      "Search for papers on arXiv based on a topic and store their information.",
      Schema("object",
        [ Property("topic", "string", "The topic to search for", None),
          Property("max_results", "integer", "Maximum number of results to retrieve", Some(5)) ],
        ["topic"])),
    ToolSpec(
      "extract_info",
      "Search for information about a specific paper across all topic directories.",
      Schema("object",
        [ Property("paper_id", "string", "The ID of the paper to look for", None) ],
        ["paper_id"]))
  ]

  /** What a tool function returns, by Python type: `None`, a list of strings,
      a dict, or any other value, which carries the text `str(result)`. */
  datatype ToolValue =
    | NoneValue
    | ListValue(items: seq<string>)
    | DictValue(dict: Dict)
    | OtherValue(str: string)

  /** A tool function, called as `f(**tool_args)`; its behaviour is not modelled. */
  type ToolFn = Args -> ToolValue

  /** `mapping_tool_function`, built from the two tool functions it refers to. */
  function MappingToolFunction(searchPapers: ToolFn, extractInfo: ToolFn): (m: map<string, ToolFn>)
    ensures m.Keys == {"search_papers", "extract_info"}
    ensures m["search_papers"] == searchPapers && m["extract_info"] == extractInfo
  {
    map["search_papers" := searchPapers, "extract_info" := extractInfo]
  }

  function CatalogNames(catalog: seq<ToolSpec>): set<string> {
    set t | t in catalog :: t.name
  }

  /** The catalog advertises exactly the names the dispatch table can execute,
      each once. */
  lemma CatalogMatchesTable(searchPapers: ToolFn, extractInfo: ToolFn)
    ensures CatalogNames(Tools) == MappingToolFunction(searchPapers, extractInfo).Keys
    ensures CatalogNames(Tools) == {"search_papers", "extract_info"}
    ensures forall i, j :: 0 <= i < j < |Tools| ==> Tools[i].name != Tools[j].name
  {
    assert Tools[0] in Tools && Tools[1] in Tools;
    assert forall t :: t in Tools ==> t == Tools[0] || t == Tools[1];
  }

  /** The text returned for a tool whose result is `None`. */
  const NoResultsMessage: string := "The operation completed, but didn't return any results."

  /** `sep.join(items)`. */
  function Join(items: seq<string>, sep: string): (r: string)
    ensures |items| == 0 ==> r == ""
    ensures |items| == 1 ==> r == items[0]
    ensures |items| > 0 ==> items[0] <= r
    decreases |items|
  {
    if |items| == 0 then ""
    else if |items| == 1 then items[0]
    else items[0] + sep + Join(items[1..], sep)
  }

  function TotalLength(items: seq<string>): nat
    decreases |items|
  {
    if |items| == 0 then 0 else |items[0]| + TotalLength(items[1..])
  }

  /** Joining one more item appends the separator and that item. */
  lemma {:induction false} JoinSnoc(items: seq<string>, x: string, sep: string)
    requires |items| > 0
    ensures Join(items + [x], sep) == Join(items, sep) + sep + x
    decreases |items|
  {
    if |items| == 1 {
      assert (items + [x])[1..] == [x];
    } else {
      assert (items + [x])[1..] == items[1..] + [x];
      JoinSnoc(items[1..], x, sep);
    }
  }

  /** The joined text holds every item and one separator between each two. */
  lemma {:induction false} JoinLength(items: seq<string>, sep: string)
    requires |items| > 0
    ensures |Join(items, sep)| == TotalLength(items) + (|items| - 1) * |sep|
    decreases |items|
  {
    if |items| > 1 {
      JoinLength(items[1..], sep);
    }
  }

  /** The result normalisation of `execute_tool`, case by case. */
  function Normalise(v: ToolValue): (c: Content)
    ensures v.NoneValue? ==> c == Plain(NoResultsMessage)
    ensures v.ListValue? ==> c == Plain(Join(v.items, ", "))
    ensures v.DictValue? ==> c == JsonText(v.dict)
    ensures v.OtherValue? ==> c == Plain(v.str)
  {
    match v
    case NoneValue => Plain(NoResultsMessage)
    case ListValue(items) => Plain(Join(items, ", "))
    case DictValue(d) => JsonText(d)
    case OtherValue(s) => Plain(s)
  }

  /** A one-element list comes back as that element alone; a longer list as
      its items separated by ", ". */
  lemma NormaliseList(items: seq<string>)
    requires |items| > 0
    ensures |items| == 1 ==> Normalise(ListValue(items)) == Plain(items[0])
    ensures Normalise(ListValue(items)).Plain?
    ensures |Normalise(ListValue(items)).text| == TotalLength(items) + 2 * (|items| - 1)
  {
    JoinLength(items, ", ");
  }

  /** `execute_tool(tool_name, tool_args)`: a name outside the table raises
      `KeyError`; otherwise the tool's value comes back normalised. */
  function ExecuteTool(table: map<string, ToolFn>, name: string, args: Args): (r: Result<Content, Error>)
    ensures r.Err? <==> name !in table
    ensures r.Err? ==> r.error == KeyError(name)
    ensures r.Ok? ==> r.value == Normalise(table[name](args))
  {
    if name in table then Ok(Normalise(table[name](args))) else Err(KeyError(name))
  }

  /** With the direct chatbot's table, a tool call succeeds exactly when the model
      named a tool the catalog advertises. */
  lemma ExecuteAdvertised(searchPapers: ToolFn, extractInfo: ToolFn, name: string, args: Args)
    ensures ExecuteTool(MappingToolFunction(searchPapers, extractInfo), name, args).Ok?
            <==> name in CatalogNames(Tools)
  {
    CatalogMatchesTable(searchPapers, extractInfo);
  }
}
