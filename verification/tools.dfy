/** The unified tool registry of `tools.py` and the handlers of its built-in
    tools.  A handler is one of the built-in kinds; the stores a handler
    reads and writes are the memory collections and the profile files, and
    the web search service is a parameter. */
module Tools {
  import opened Wrappers
  import opened Json
  import opened Text
  import opened Env
  import M = MemoryStore
  import P = Profiles

  /** The handler functions the module registers. */
  datatype Handler =
    | MemInsert | MemRetrieve | MemUpdate | MemDelete
    | UpdateImpression | UpdateMood | UpdateMemorySummary
    | WebSearch | WebFetch

  /** `ToolSpec`. */
  datatype ToolSpec = ToolSpec(name: string, description: string, schema: Json, handler: Handler)

  // ----- The registry -----

  function Names(ts: seq<ToolSpec>): (ns: seq<string>)
    ensures |ns| == |ts| && forall i :: 0 <= i < |ts| ==> ns[i] == ts[i].name
  {
    seq(|ts|, i requires 0 <= i < |ts| => ts[i].name)
  }

  /** `TOOLS[name]` when `name in TOOLS`. */
  function Lookup(ts: seq<ToolSpec>, name: string): Option<ToolSpec>
    decreases |ts|
  {
    if |ts| == 0 then None
    else if ts[0].name == name then Some(ts[0])
    else Lookup(ts[1..], name)
  }

  /** `TOOLS[tool.name] = tool`: a registered name keeps its position and
      takes the new spec, a new name goes last. */
  function Install(ts: seq<ToolSpec>, t: ToolSpec): seq<ToolSpec>
    decreases |ts|
  {
    if |ts| == 0 then [t]
    else if ts[0].name == t.name then [t] + ts[1..]
    else [ts[0]] + Install(ts[1..], t)
  }

  /** After a registration its name finds the new spec and every other name
      what it found before. */
  lemma {:induction false} InstallLookup(ts: seq<ToolSpec>, t: ToolSpec, q: string)
    ensures Lookup(Install(ts, t), q) == if q == t.name then Some(t) else Lookup(ts, q)
    decreases |ts|
  {
    if |ts| > 0 && ts[0].name != t.name {
      InstallLookup(ts[1..], t, q);
      assert ([ts[0]] + Install(ts[1..], t))[1..] == Install(ts[1..], t);
    } else if |ts| > 0 {
      assert ([t] + ts[1..])[1..] == ts[1..];
    }
  }

  lemma NamesCons(a: ToolSpec, r: seq<ToolSpec>)
    ensures Names([a] + r) == [a.name] + Names(r)
  {
    assert forall i :: 0 <= i < |r| + 1 ==> Names([a] + r)[i] == ([a.name] + Names(r))[i];
  }

  /** `name in TOOLS`: a name is listed exactly when looking it up finds a
      spec, and the spec found carries that name. */
  lemma {:induction false} NamesLookup(ts: seq<ToolSpec>, n: string)
    ensures n in Names(ts) <==> Lookup(ts, n).Some?
    ensures Lookup(ts, n).Some? ==> Lookup(ts, n).value.name == n
    decreases |ts|
  {
    if |ts| > 0 {
      assert ts == [ts[0]] + ts[1..];
      NamesCons(ts[0], ts[1..]);
      NamesLookup(ts[1..], n);
    }
  }

  /** A registration keeps the order of the names and appends a new one. */
  lemma {:induction false} InstallNames(ts: seq<ToolSpec>, t: ToolSpec)
    ensures Names(Install(ts, t)) == if t.name in Names(ts) then Names(ts) else Names(ts) + [t.name]
    decreases |ts|
  {
    if |ts| > 0 {
      assert ts == [ts[0]] + ts[1..];
      NamesCons(ts[0], ts[1..]);
      if ts[0].name == t.name {
        NamesCons(t, ts[1..]);
        assert t.name == Names(ts)[0];
      } else {
        InstallNames(ts[1..], t);
        NamesCons(ts[0], Install(ts[1..], t));
        assert (t.name in Names(ts)) == (t.name in Names(ts[1..]));
      }
    }
  }

  /** Registering a new name appends its spec. */
  lemma {:induction false} InstallFresh(ts: seq<ToolSpec>, t: ToolSpec)
    requires forall i :: 0 <= i < |ts| ==> ts[i].name != t.name
    ensures Install(ts, t) == ts + [t]
    decreases |ts|
  {
    if |ts| > 0 {
      InstallFresh(ts[1..], t);
      assert ts == [ts[0]] + ts[1..];
    }
  }

  /** One entry of `list_tools_for_prompt`. */
  function PromptEntry(t: ToolSpec): Json {
    JObj([("name", JStr(t.name)), ("description", JStr(t.description)), ("input_schema", t.schema)])
  }

  // ----- The built-in tools -----

  function Prop(ty: string): Json {
    JObj([("type", JStr(ty))])
  }

  function PropDefault(ty: string, default: Json): Json {
    JObj([("type", JStr(ty)), ("default", default)])
  }

  function Schema(props: Dict, required: seq<string>): Json {
    JObj([("type", JStr("object")), ("properties", JObj(props)),
          ("required", JArr(seq(|required|, i requires 0 <= i < |required| => JStr(required[i]))))])
  }

  const AgentProp: (string, Json) := ("agent_id", PropDefault("string", JStr("default")))

  const InsertTool := ToolSpec("memory.insert",
    "Insert durable memory items (facts, preferences, events) into the agent's memory store.",
    Schema([AgentProp, ("items", JObj([("type", JStr("array")), ("items", Prop("object"))]))], ["items"]),
    MemInsert)
  const RetrieveTool := ToolSpec("memory.retrieve",
    "Retrieve top-K relevant memories for a query.",
    Schema([AgentProp, ("query", Prop("string")), ("k", PropDefault("integer", JInt(6)))], ["query"]),
    MemRetrieve)
  const UpdateTool := ToolSpec("memory.update",
    "Update a memory item by ID (partial upsert).",
    Schema([AgentProp, ("memory_id", Prop("string")), ("patch", Prop("object"))], ["memory_id", "patch"]),
    MemUpdate)
  const DeleteTool := ToolSpec("memory.delete",
    "Delete a memory item by ID.",
    Schema([AgentProp, ("memory_id", Prop("string"))], ["memory_id"]),
    MemDelete)
  const ImpressionTool := ToolSpec("agent.update_impression",
    "Update the agent's impression of the user.",
    Schema([AgentProp, ("impression_of_user", Prop("string"))], ["impression_of_user"]),
    UpdateImpression)
  const MoodTool := ToolSpec("agent.update_mood",
    "Update the agent's current mood.",
    Schema([AgentProp, ("current_mood", Prop("string"))], ["current_mood"]),
    UpdateMood)
  const SummaryTool := ToolSpec("agent.update_memory_summary",
    "Replace the agent's memory summary text.",
    Schema([AgentProp, ("memory_summary", Prop("string"))], ["memory_summary"]),
    UpdateMemorySummary)
  const SearchTool := ToolSpec("duckduckgo.search",
    "Web search via the DuckDuckGo MCP server. Returns a ranked list of results.",
    Schema([("query", Prop("string")), ("k", PropDefault("integer", JInt(5)))], ["query"]),
    WebSearch)
  const FetchTool := ToolSpec("duckduckgo.fetch_content",
    "Fetch and return cleaned main content from a given URL via MCP DuckDuckGo.",
    Schema([("url", Prop("string"))], ["url"]),
    WebFetch)

  /** The registry once the module is loaded. */
  const Builtins: seq<ToolSpec> :=
    [InsertTool, RetrieveTool, UpdateTool, DeleteTool, ImpressionTool, MoodTool, SummaryTool, SearchTool, FetchTool]

  /** The nine built-in names, each with its own handler. */
  lemma BuiltinNames()
    ensures Names(Builtins) == ["memory.insert", "memory.retrieve", "memory.update", "memory.delete",
      "agent.update_impression", "agent.update_mood", "agent.update_memory_summary",
      "duckduckgo.search", "duckduckgo.fetch_content"]
    ensures forall i, j :: 0 <= i < j < |Builtins| ==>
      Builtins[i].name != Builtins[j].name && Builtins[i].handler != Builtins[j].handler
  {
  }

  /** Each registration of the module adds a new name. */
  lemma BuiltinStep(k: nat)
    requires k < |Builtins|
    ensures Install(Builtins[..k], Builtins[k]) == Builtins[..k + 1]
  {
    BuiltinNames();
    InstallFresh(Builtins[..k], Builtins[k]);
    assert Builtins[..k] + [Builtins[k]] == Builtins[..k + 1];
  }

  /** `TOOLS`, the module-level registry. */
  class Registry {
    var tools: seq<ToolSpec>

    /** The registry as the module's registrations, in order, leave it. */
    constructor ()
      ensures tools == Builtins
    {
      tools := [];
      new;
      var i := 0;
      while i < |Builtins|
        invariant 0 <= i <= |Builtins| && tools == Builtins[..i]
      {
        BuiltinStep(i);
        var _ := Register(Builtins[i]);
        i := i + 1;
      }
    }

    function Find(name: string): Option<ToolSpec>
      reads this
    {
      Lookup(tools, name)
    }

    /** `register`: the last registration of a name wins, and the tool is
        returned. */
    method Register(t: ToolSpec) returns (r: ToolSpec)
      modifies this
      ensures tools == Install(old(tools), t) && r == t
      ensures Find(t.name) == Some(t)
      ensures forall q :: q != t.name ==> Find(q) == old(Find(q))
    {
      InstallLookup(tools, t, t.name);
      forall q | q != t.name ensures Lookup(Install(tools, t), q) == Lookup(tools, q) {
        InstallLookup(tools, t, q);
      }
      tools := Install(tools, t);
      r := t;
    }

    /** `list_tools_for_prompt`: one entry per registered tool, in
        registration order, copied from its spec. */
    method ListToolsForPrompt() returns (out: seq<Json>)
      ensures |out| == |tools|
      ensures forall i :: 0 <= i < |tools| ==> out[i] == PromptEntry(tools[i])
    {
      out := [];
      var i := 0;
      while i < |tools|
        invariant 0 <= i <= |tools| && |out| == i
        invariant forall j :: 0 <= j < i ==> out[j] == PromptEntry(tools[j])
      {
        var t := tools[i];
        out := out + [JObj([("name", JStr(t.name)), ("description", JStr(t.description)), ("input_schema", t.schema)])];
        i := i + 1;
      }
    }
  }

  // ----- Reading a payload -----

  /** `payload.get(k, default)`: only a dictionary has `get`. */
  function PayloadGet(payload: Json, k: string, default: Json): (r: Result<Json>)
    ensures r.Ok? <==> payload.JObj?
    ensures payload.JObj? && !Has(payload.fields, k) ==> r == Ok(default)
    ensures payload.JObj? && Has(payload.fields, k) ==> Some(r.value) == Get(payload.fields, k)
  {
    if !payload.JObj? then Err(AttributeError)
    else
      GetHas(payload.fields, k);
      Ok(Get(payload.fields, k).GetOr(default))
  }

  /** `payload[k]`: a missing key raises `KeyError`, and a value that is not
      a dictionary cannot be indexed by a string. */
  function PayloadItem(payload: Json, k: string): (r: Result<Json>)
    ensures !payload.JObj? ==> r == Err(TypeError)
    ensures payload.JObj? ==> (r.Ok? <==> Has(payload.fields, k))
    ensures payload.JObj? && !Has(payload.fields, k) ==> r == Err(KeyError(k))
    ensures r.Ok? ==> Get(payload.fields, k) == Some(r.value)
  {
    if !payload.JObj? then Err(TypeError)
    else
      GetHas(payload.fields, k);
      match Get(payload.fields, k)
      case Some(v) => Ok(v)
      case None => Err(KeyError(k))
  }

  /** `os.path.join(root, agent_id)`: the identifier must be a string. */
  function AgentPath(raw: Json): Result<string> {
    if raw.JStr? then Ok(raw.s) else Err(TypeError)
  }

  /** `int(v)` on a JSON value: a float is truncated toward zero, a string
      is parsed as a decimal literal. */
  function PyInt(v: Json): (r: Result<int>)
    ensures v.JInt? ==> r == Ok(v.i)
    ensures v.JStr? ==> (r.Ok? <==> ParseInt(v.s).Some?)
    ensures v.JStr? && r.Ok? ==> ParseInt(v.s) == Some(r.value)
    ensures v.JBool? ==> r == Ok(if v.b then 1 else 0)
    ensures v.JFloat? && v.f >= 0.0 ==> r == Ok(v.f.Floor)
    ensures v.JFloat? && v.f < 0.0 ==> r == Ok(-((-v.f).Floor))
    ensures v.JNull? || v.JArr? || v.JObj? ==> r == Err(TypeError)
  {
    match v
    case JInt(n) => Ok(n)
    case JBool(b) => Ok(if b then 1 else 0)
    case JFloat(x) => Ok(if x >= 0.0 then x.Floor else -((-x).Floor))
    case JStr(s) => (match ParseInt(s) case Some(n) => Ok(n) case None => Err(ValueError("invalid literal for int()")))
    case _ => Err(TypeError)
  }

  /** `for it in items`: a list yields its items, a dictionary its keys and
      a string its characters; nothing else can be iterated. */
  function PyIter(v: Json): (r: Result<seq<Json>>)
    ensures r.Ok? <==> v.JArr? || v.JObj? || v.JStr?
    ensures v.JArr? ==> r == Ok(v.items)
  {
    match v
    case JArr(items) => Ok(items)
    case JObj(fields) => Ok(seq(|fields|, i requires 0 <= i < |fields| => JStr(fields[i].0)))
    case JStr(s) => Ok(seq(|s|, i requires 0 <= i < |s| => JStr([s[i]])))
    case _ => Err(TypeError)
  }

  const OkReply: Json := JObj([("ok", JBool(true))])
  const DefaultAgent: Json := JStr("default")

  // ----- What each handler does -----

  type Cols = map<string, M.Collection>
  type Files = map<string, P.ProfileFile>

  /** The web search service behind the DuckDuckGo tools. */
  datatype Web = Web(search: (Json, int) -> Result<Json>, fetch: Json -> Result<Json>)

  /** What a handler call draws from outside the stores: identifiers and
      clocks for new memories, the ranking of the vector database and the
      web service. */
  datatype Outside = Outside(stamps: nat -> FreshStamp, rank: M.Ranker, web: Web)

  /** `_mem_insert`. */
  function InsertOn(cols: Cols, payload: Json, stamps: nat -> FreshStamp): (Result<Json>, Cols) {
    match PayloadGet(payload, "agent_id", DefaultAgent)
    case Err(e) => (Err(e), cols)
    case Ok(raw) =>
      match PayloadItem(payload, "items")
      case Err(e) => (Err(e), cols)
      case Ok(items) =>
        match AgentPath(raw)
        case Err(e) => (Err(e), cols)
        case Ok(agent) =>
          var col := M.ColIn(cols, agent);
          match PyIter(items)
          case Err(e) => (Err(e), cols[agent := col])
          case Ok(its) =>
            match AllOk(M.PrepareSteps(its, stamps))
            case Err(e) => (Err(e), cols[agent := col])
            case Ok(ps) => (Ok(JObj([("ok", JBool(true)), ("ids", JArr(M.Ids(ps)))])), cols[agent := M.Store(col, ps)])
  }

  /** The arguments `_mem_retrieve` hands to the store: agent, query and
      number of results. */
  function RetrieveArgs(payload: Json): Result<(string, Json, int)> {
    ArgsOf(PayloadGet(payload, "agent_id", DefaultAgent), PayloadItem(payload, "query"),
           PayloadGet(payload, "k", JInt(6)))
  }

  /** The arguments from the three payload reads, in the order they are
      made. */
  function ArgsOf(agentRead: Result<Json>, queryRead: Result<Json>, kRead: Result<Json>): Result<(string, Json, int)> {
    var raw :- agentRead;
    var query :- queryRead;
    var kv :- kRead;
    var k :- PyInt(kv);
    var agent :- AgentPath(raw);
    Ok((agent, query, k))
  }

  /** `_mem_retrieve`: the store is queried without a filter. */
  function RetrieveOn(cols: Cols, payload: Json, rank: M.Ranker): (Result<Json>, Cols) {
    match RetrieveArgs(payload)
    case Err(e) => (Err(e), cols)
    case Ok((agent, query, k)) =>
      var col := M.ColIn(cols, agent);
      var hits := M.Hits(col, M.Answer(col, rank(col, query, M.NormalizeWhere(JNull)), k));
      (Ok(JObj([("ok", JBool(true)), ("results", JArr(hits))])), cols[agent := col])
  }

  /** `_mem_update`. */
  function UpdateOn(cols: Cols, payload: Json): (Result<Json>, Cols) {
    match PayloadGet(payload, "agent_id", DefaultAgent)
    case Err(e) => (Err(e), cols)
    case Ok(raw) =>
      match PayloadItem(payload, "memory_id")
      case Err(e) => (Err(e), cols)
      case Ok(id) =>
        var patch := Get(payload.fields, "patch").GetOr(JObj([]));
        match AgentPath(raw)
        case Err(e) => (Err(e), cols)
        case Ok(agent) =>
          var col := M.ColIn(cols, agent);
          if id !in col then (Ok(JObj([("ok", JBool(false))])), cols[agent := col])
          else if !patch.JObj? then (Err(M.PatchFault(patch)), cols[agent := col])
          else (Ok(JObj([("ok", JBool(true))])), cols[agent := col[id := M.Patched(col[id], patch.fields)]])
  }

  /** `_mem_delete`. */
  function DeleteOn(cols: Cols, payload: Json): (Result<Json>, Cols) {
    match PayloadGet(payload, "agent_id", DefaultAgent)
    case Err(e) => (Err(e), cols)
    case Ok(raw) =>
      match PayloadItem(payload, "memory_id")
      case Err(e) => (Err(e), cols)
      case Ok(id) =>
        match AgentPath(raw)
        case Err(e) => (Err(e), cols)
        case Ok(agent) => (Ok(OkReply), cols[agent := M.ColIn(cols, agent) - {id}])
  }

  /** The profile handlers: the agent's profile is read, one dumped field
      is set (when `value` is given) and the result is written to the file
      of the profile's own agent.  The value is stored as it comes: the
      profile object does not validate assignments. */
  function SetFieldOn(files: Files, raw: Json, field: string, value: Option<Json>): (Result<Json>, Files) {
    match AgentPath(raw)
    case Err(e) => (Err(e), files)
    case Ok(agent) =>
      match P.ReadFrom(files, agent)
      case Err(e) => (Err(e), files)
      case Ok(prof) =>
        var data := P.Dump(prof);
        var data' := match value case Some(v) => Put(data, field, v) case None => data;
        (Ok(OkReply), files[prof.agentId := P.Holds(JObj(data'))])
  }

  /** `_agent_update_impression`: the field is set only if the payload has
      it. */
  function ImpressionOn(files: Files, payload: Json): (Result<Json>, Files) {
    match PayloadGet(payload, "agent_id", DefaultAgent)
    case Err(e) => (Err(e), files)
    case Ok(raw) => SetFieldOn(files, raw, "impression_of_user", Get(payload.fields, "impression_of_user"))
  }

  /** `_agent_update_mood` and `_agent_update_mem_summary`: the new value is
      required. */
  function RequiredFieldOn(files: Files, payload: Json, field: string): (Result<Json>, Files) {
    match PayloadGet(payload, "agent_id", DefaultAgent)
    case Err(e) => (Err(e), files)
    case Ok(raw) =>
      match PayloadItem(payload, field)
      case Err(e) => (Err(e), files)
      case Ok(v) => SetFieldOn(files, raw, field, Some(v))
  }

  /** `_ddg_search`. */
  function SearchOn(payload: Json, web: Web): Result<Json> {
    var query :- PayloadItem(payload, "query");
    var kv :- PayloadGet(payload, "k", JInt(5));
    var k :- PyInt(kv);
    web.search(query, k)
  }

  /** `_ddg_fetch`. */
  function FetchOn(payload: Json, web: Web): Result<Json> {
    var url :- PayloadItem(payload, "url");
    web.fetch(url)
  }

  /** `handler(payload)`: the result and the stores afterwards. */
  function Effect(h: Handler, cols: Cols, files: Files, payload: Json, out: Outside): (Result<Json>, Cols, Files) {
    match h
    case MemInsert => var (r, c) := InsertOn(cols, payload, out.stamps); (r, c, files)
    case MemRetrieve => var (r, c) := RetrieveOn(cols, payload, out.rank); (r, c, files)
    case MemUpdate => var (r, c) := UpdateOn(cols, payload); (r, c, files)
    case MemDelete => var (r, c) := DeleteOn(cols, payload); (r, c, files)
    case UpdateImpression => var (r, f) := ImpressionOn(files, payload); (r, cols, f)
    case UpdateMood => var (r, f) := RequiredFieldOn(files, payload, "current_mood"); (r, cols, f)
    case UpdateMemorySummary => var (r, f) := RequiredFieldOn(files, payload, "memory_summary"); (r, cols, f)
    case WebSearch => (SearchOn(payload, out.web), cols, files)
    case WebFetch => (FetchOn(payload, out.web), cols, files)
  }

  // ----- Properties of the handlers -----

  /** The key a handler cannot do without, if any. */
  function RequiredKey(h: Handler): Option<string> {
    match h
    case MemInsert => Some("items")
    case MemRetrieve => Some("query")
    case MemUpdate => Some("memory_id")
    case MemDelete => Some("memory_id")
    case UpdateImpression => None
    case UpdateMood => Some("current_mood")
    case UpdateMemorySummary => Some("memory_summary")
    case WebSearch => Some("query")
    case WebFetch => Some("url")
  }

  /** A payload without a handler's required key raises `KeyError` for that
      key and changes nothing. */
  lemma MissingRequiredKey(h: Handler, cols: Cols, files: Files, d: Dict, out: Outside)
    requires RequiredKey(h).Some? && !Has(d, RequiredKey(h).value)
    ensures Effect(h, cols, files, JObj(d), out) == (Err(KeyError(RequiredKey(h).value)), cols, files)
  {
  }

  /** A payload that is not a dictionary raises and changes nothing. */
  lemma NotADictionary(h: Handler, cols: Cols, files: Files, payload: Json, out: Outside)
    requires !payload.JObj?
    ensures Effect(h, cols, files, payload, out).0.Err?
    ensures Effect(h, cols, files, payload, out).1 == cols && Effect(h, cols, files, payload, out).2 == files
  {
  }

  /** `memory.insert` answers with the store's identifiers, one per item,
      and leaves every other agent's collection alone. */
  lemma InsertReply(cols: Cols, payload: Json, stamps: nat -> FreshStamp)
    requires InsertOn(cols, payload, stamps).0.Ok?
    ensures var agent := AgentPath(PayloadGet(payload, "agent_id", DefaultAgent).value).value;
      var items := PyIter(PayloadItem(payload, "items").value).value;
      var ps := AllOk(M.PrepareSteps(items, stamps)).value;
      && InsertOn(cols, payload, stamps).0.value == JObj([("ok", JBool(true)), ("ids", JArr(M.Ids(ps)))])
      && |M.Ids(ps)| == |items|
      && InsertOn(cols, payload, stamps).1 == cols[agent := M.Store(M.ColIn(cols, agent), ps)]
  {
  }

  /** Binding one key of a payload does not change what the handlers read
      under another key. */
  lemma PutElsewhere(d: Dict, k: string, w: Json, q: string, default: Json)
    requires q != k
    ensures PayloadGet(JObj(Put(d, k, w)), q, default) == PayloadGet(JObj(d), q, default)
    ensures PayloadItem(JObj(Put(d, k, w)), q) == PayloadItem(JObj(d), q)
  {
    PutGet(d, k, w, q);
    GetHas(d, q);
    GetHas(Put(d, k, w), q);
  }

  lemma RetrieveArgsIgnoreWhere(d: Dict, w: Json)
    ensures RetrieveArgs(JObj(Put(d, "where", w))) == RetrieveArgs(JObj(d))
  {
    PutElsewhere(d, "where", w, "agent_id", DefaultAgent);
    PutElsewhere(d, "where", w, "query", JNull);
    PutElsewhere(d, "where", w, "k", JInt(6));
  }

  /** `memory.retrieve` ignores any filter in the payload. */
  lemma RetrieveIgnoresWhere(cols: Cols, d: Dict, w: Json, rank: M.Ranker)
    ensures RetrieveOn(cols, JObj(Put(d, "where", w)), rank) == RetrieveOn(cols, JObj(d), rank)
  {
    RetrieveArgsIgnoreWhere(d, w);
  }

  /** With only a query, `memory.retrieve` asks the default agent's
      collection for its six best answers, unfiltered. */
  lemma RetrieveDefaults(cols: Cols, d: Dict, q: Json, rank: M.Ranker)
    requires Get(d, "query") == Some(q) && !Has(d, "agent_id") && !Has(d, "k")
    ensures var col := M.ColIn(cols, "default");
      RetrieveOn(cols, JObj(d), rank) ==
        (Ok(JObj([("ok", JBool(true)), ("results", JArr(M.Hits(col, M.Answer(col, rank(col, q, JNull), 6))))])),
         cols["default" := col])
  {
    GetHas(d, "query");
    assert M.NormalizeWhere(JNull) == JNull;
  }

  /** `memory.update` answers with the store's boolean. */
  lemma UpdateReply(cols: Cols, payload: Json)
    requires UpdateOn(cols, payload).0.Ok?
    ensures var agent := AgentPath(PayloadGet(payload, "agent_id", DefaultAgent).value).value;
      var id := PayloadItem(payload, "memory_id").value;
      UpdateOn(cols, payload).0.value == JObj([("ok", JBool(id in M.ColIn(cols, agent)))])
  {
  }

  /** `memory.delete` always answers ok, and the identifier is gone. */
  lemma DeleteReply(cols: Cols, payload: Json)
    requires payload.JObj? && Has(payload.fields, "memory_id")
    requires AgentPath(Get(payload.fields, "agent_id").GetOr(DefaultAgent)).Ok?
    ensures var agent := Get(payload.fields, "agent_id").GetOr(DefaultAgent).s;
      && DeleteOn(cols, payload).0 == Ok(OkReply)
      && DeleteOn(cols, payload).1 == cols[agent := M.ColIn(cols, agent) - {Get(payload.fields, "memory_id").value}]
  {
  }

  /** Setting a profile field changes that dumped field alone, in the file
      of the profile's own agent. */
  lemma SetFieldWrites(files: Files, raw: Json, field: string, v: Json, k: string)
    requires SetFieldOn(files, raw, field, Some(v)).0.Ok?
    ensures var prof := P.ReadFrom(files, raw.s).value;
      var f := SetFieldOn(files, raw, field, Some(v)).1;
      && prof.agentId in f && f[prof.agentId].Holds? && f[prof.agentId].content.JObj?
      && Get(f[prof.agentId].content.fields, k) == (if k == field then Some(v) else Get(P.Dump(prof), k))
      && forall a :: a != prof.agentId && a in files ==> a in f && f[a] == files[a]
  {
    PutGet(P.Dump(P.ReadFrom(files, raw.s).value), field, v, k);
  }

  /** A new string value of a free-text field is what the agent's profile
      reads back; every other field keeps its value. */
  lemma SetFieldReadBack(files: Files, raw: Json, field: string, s: string)
    requires field == "impression_of_user" || field == "current_mood" || field == "memory_summary"
    requires SetFieldOn(files, raw, field, Some(JStr(s))).0.Ok?
    ensures var prof := P.ReadFrom(files, raw.s).value;
      P.ReadFrom(SetFieldOn(files, raw, field, Some(JStr(s))).1, prof.agentId) == Ok(P.SetText(prof, field, s))
  {
    P.SetTextValidates(P.ReadFrom(files, raw.s).value, field, s);
  }

  /** Without "impression_of_user" the profile is written back as read. */
  lemma ImpressionAbsent(files: Files, d: Dict)
    requires !Has(d, "impression_of_user") && ImpressionOn(files, JObj(d)).0.Ok?
    ensures var agent := Get(d, "agent_id").GetOr(DefaultAgent).s;
      var prof := P.ReadFrom(files, agent).value;
      && ImpressionOn(files, JObj(d)).1 == files[prof.agentId := P.Holds(JObj(P.Dump(prof)))]
      && P.ReadFrom(ImpressionOn(files, JObj(d)).1, prof.agentId) == Ok(prof)
  {
    GetHas(d, "impression_of_user");
    var agent := Get(d, "agent_id").GetOr(DefaultAgent).s;
    P.WriteThenRead(files, P.ReadFrom(files, agent).value);
  }

  // ----- The handlers -----

  /** The stores the handlers work on. */
  class Stores {
    const mem: M.MemoryStore
    const disk: P.ProfileDisk

    constructor (mem: M.MemoryStore, disk: P.ProfileDisk)
      ensures this.mem == mem && this.disk == disk
    {
      this.mem := mem;
      this.disk := disk;
    }

    /** Calls a handler on a payload. */
    method Call(h: Handler, payload: Json, out: Outside) returns (r: Result<Json>)
      modifies mem, disk
      ensures (r, mem.cols, disk.files) == Effect(h, old(mem.cols), old(disk.files), payload, out)
    {
      match h
      case MemInsert => r := MemInsertHandler(payload, out.stamps);
      case MemRetrieve => r := MemRetrieveHandler(payload, out.rank);
      case MemUpdate => r := MemUpdateHandler(payload);
      case MemDelete => r := MemDeleteHandler(payload);
      case UpdateImpression => r := ImpressionHandler(payload);
      case UpdateMood => r := RequiredFieldHandler(payload, "current_mood");
      case UpdateMemorySummary => r := RequiredFieldHandler(payload, "memory_summary");
      case WebSearch => r := SearchOn(payload, out.web);
      case WebFetch => r := FetchOn(payload, out.web);
    }

    /** `_mem_insert`. */
    method MemInsertHandler(payload: Json, stamps: nat -> FreshStamp) returns (r: Result<Json>)
      modifies mem
      ensures (r, mem.cols) == InsertOn(old(mem.cols), payload, stamps)
    {
      var raw := PayloadGet(payload, "agent_id", DefaultAgent);
      if raw.Err? {
        return Err(raw.error);
      }
      var items := PayloadItem(payload, "items");
      if items.Err? {
        return Err(items.error);
      }
      var agent := AgentPath(raw.value);
      if agent.Err? {
        return Err(agent.error);
      }
      var its := PyIter(items.value);
      if its.Err? {
        var _ := mem.Open(agent.value);
        return Err(its.error);
      }
      var ids := mem.UpsertMemories(agent.value, its.value, stamps);
      if ids.Err? {
        return Err(ids.error);
      }
      r := Ok(JObj([("ok", JBool(true)), ("ids", JArr(ids.value))]));
    }

    /** `_mem_retrieve`. */
    method MemRetrieveHandler(payload: Json, rank: M.Ranker) returns (r: Result<Json>)
      modifies mem
      ensures (r, mem.cols) == RetrieveOn(old(mem.cols), payload, rank)
    {
      var args := RetrieveArgs(payload);
      if args.Err? {
        return Err(args.error);
      }
      var (agent, query, k) := args.value;
      var res := mem.QueryMemories(agent, query, k, JNull, rank);
      r := Ok(JObj([("ok", JBool(true)), ("results", JArr(res.value))]));
    }

    /** `_mem_update`. */
    method MemUpdateHandler(payload: Json) returns (r: Result<Json>)
      modifies mem
      ensures (r, mem.cols) == UpdateOn(old(mem.cols), payload)
    {
      var raw := PayloadGet(payload, "agent_id", DefaultAgent);
      if raw.Err? {
        return Err(raw.error);
      }
      var id := PayloadItem(payload, "memory_id");
      if id.Err? {
        return Err(id.error);
      }
      var patch := Get(payload.fields, "patch").GetOr(JObj([]));
      var agent := AgentPath(raw.value);
      if agent.Err? {
        return Err(agent.error);
      }
      var ok := mem.UpdateMemory(agent.value, id.value, patch);
      if ok.Err? {
        return Err(ok.error);
      }
      r := Ok(JObj([("ok", JBool(ok.value))]));
    }

    /** `_mem_delete`. */
    method MemDeleteHandler(payload: Json) returns (r: Result<Json>)
      modifies mem
      ensures (r, mem.cols) == DeleteOn(old(mem.cols), payload)
    {
      var raw := PayloadGet(payload, "agent_id", DefaultAgent);
      if raw.Err? {
        return Err(raw.error);
      }
      var id := PayloadItem(payload, "memory_id");
      if id.Err? {
        return Err(id.error);
      }
      var agent := AgentPath(raw.value);
      if agent.Err? {
        return Err(agent.error);
      }
      mem.DeleteMemory(agent.value, id.value);
      r := Ok(OkReply);
    }

    /** Reads the agent's profile, sets one field of its dump and writes it
        back. */
    method SetField(raw: Json, field: string, value: Option<Json>) returns (r: Result<Json>)
      modifies disk
      ensures (r, disk.files) == SetFieldOn(old(disk.files), raw, field, value)
    {
      var agent := AgentPath(raw);
      if agent.Err? {
        return Err(agent.error);
      }
      var prof := disk.ReadProfile(agent.value);
      if prof.Err? {
        return Err(prof.error);
      }
      var data := P.Dump(prof.value);
      if value.Some? {
        data := Put(data, field, value.value);
      }
      disk.Write(prof.value.agentId, data);
      r := Ok(OkReply);
    }

    /** `_agent_update_impression`. */
    method ImpressionHandler(payload: Json) returns (r: Result<Json>)
      modifies disk
      ensures (r, disk.files) == ImpressionOn(old(disk.files), payload)
    {
      var raw := PayloadGet(payload, "agent_id", DefaultAgent);
      if raw.Err? {
        return Err(raw.error);
      }
      r := SetField(raw.value, "impression_of_user", Get(payload.fields, "impression_of_user"));
    }

    /** `_agent_update_mood` and `_agent_update_mem_summary`. */
    method RequiredFieldHandler(payload: Json, field: string) returns (r: Result<Json>)
      modifies disk
      ensures (r, disk.files) == RequiredFieldOn(old(disk.files), payload, field)
    {
      var raw := PayloadGet(payload, "agent_id", DefaultAgent);
      if raw.Err? {
        return Err(raw.error);
      }
      var v := PayloadItem(payload, field);
      if v.Err? {
        return Err(v.error);
      }
      r := SetField(raw.value, field, Some(v.value));
    }
  }
}
