/** One conversation turn of `session.py`: the system prompt, the inline
    `TOOL_CALL:` parser with its dispatch to the registered handlers, and
    the sequence of history writes and events of `run_turn`.  The language
    model, `json.loads` on the model's text, `str()` of a non-string value
    and the clock are parameters. */
module Session {
  import opened Wrappers
  import opened Json
  import opened Text
  import opened Env
  import H = History
  import T = Tools
  import P = Profiles

  /** `MAX_TURNS`: the history window, in user/assistant pairs. */
  const MaxTurns := 20
  const Marker := "TOOL_CALL:"
  /** The user text that stands for "no new user message". */
  const NoUser := "<none>"

  /** `str(v)`: a string is itself, anything else is rendered by `show`. */
  function PyStr(v: Json, show: Json -> string): string {
    if v.JStr? then v.s else show(v)
  }

  // ----- The system prompt -----

  /** The opening of `TOOL_HEADER`, up to the example call. */
  const ConventionLead := "TOOL CALLING CONVENTION:\n- To call ANY tool, emit ONE line exactly:\n  "
  /** The example call as the source writes it: the braces are doubled as
      for `str.format`, but the header is never formatted, so the model is
      shown `{{` and `}}`. */
  const ExampleAsWritten := "TOOL_CALL: {{" + "\"name\":\"<toolname>\",\"payload\":{{ ... JSON matching schema ... }}}}"
  /** The example call the doubling stands for. */
  const Example := "TOOL_CALL: {\"name\"" + ":\"<toolname>\",\"payload\":{ ... JSON matching schema ... }}"
  const ConventionRules := "\n- After tool results arrive (as a tool message), continue your answer.\n- If no tool is helpful, continue normally.\n\nAVAILABLE TOOLS:\n"

  const ToolHeaderAsWritten := ConventionLead + ExampleAsWritten + ConventionRules
  const ToolHeader := ConventionLead + Example + ConventionRules

  lemma {:induction false} ContainsMiddle(a: string, p: string, b: string)
    ensures Contains(a + p + b, p)
  {
    assert (a + p + b)[|a|..|a| + |p|] == p;
    assert OccursAt(a + p + b, p, |a|);
  }

  /** The header as written shows the model a call opening with `{{`, which
      is not how a JSON object starts. */
  lemma HeaderShowsDoubledBrace()
    ensures Contains(ToolHeaderAsWritten, "TOOL_CALL: {{")
    ensures !Contains("TOOL_CALL: {{", "TOOL_CALL: {\"")
  {
    var rest := "\"name\":\"<toolname>\",\"payload\":{{ ... JSON matching schema ... }}}}";
    ContainsMiddle(ConventionLead, "TOOL_CALL: {{", rest + ConventionRules);
    assert ConventionLead + "TOOL_CALL: {{" + (rest + ConventionRules) == ToolHeaderAsWritten;
    assert !OccursAt("TOOL_CALL: {{", "TOOL_CALL: {\"", 0) by {
      assert "TOOL_CALL: {{"[12] != "TOOL_CALL: {\""[12];
    }
  }

  /** The intended header shows a call opening with `{"name"`. */
  lemma HeaderShowsObject()
    ensures Contains(ToolHeader, "TOOL_CALL: {\"name\"")
  {
    var rest := ":\"<toolname>\",\"payload\":{ ... JSON matching schema ... }}";
    ContainsMiddle(ConventionLead, "TOOL_CALL: {\"name\"", rest + ConventionRules);
    assert ConventionLead + "TOOL_CALL: {\"name\"" + (rest + ConventionRules) == ToolHeader;
  }

  /** The date and time `datetime.now()` gives, already formatted. */
  datatype Clock = Clock(date: string, time: string)

  /** `SYS_HEADER.format(...)`. */
  function SysHeader(character: string, notes: string, clock: Clock): string {
    character + ".\nSystem-managed notes: " + notes + "\nCurrent date: " + clock.date +
    "\nCurrent time: " + clock.time + "\n"
  }

  /** The line `build_system_prompt` writes for one entry of the tool
      listing. */
  function ToolLine(t: T.ToolSpec, show: Json -> string): string {
    "- " + t.name + "\n  When: " + t.description + "\n  Input JSON schema: " + PyStr(t.schema, show)
  }

  function ToolLines(ts: seq<T.ToolSpec>, show: Json -> string): (ls: seq<string>)
    ensures |ls| == |ts|
  {
    seq(|ts|, i requires 0 <= i < |ts| => ToolLine(ts[i], show))
  }

  /** `build_system_prompt` as written: `profile["notes"]` is required. */
  function SystemPromptAsWritten(profile: Dict, clock: Clock, ts: seq<T.ToolSpec>, show: Json -> string): Result<string> {
    var character :- T.PayloadItem(JObj(profile), "character");
    var notes :- T.PayloadItem(JObj(profile), "notes");
    Ok(Join([SysHeader(PyStr(character, show), PyStr(notes, show), clock) + ToolHeaderAsWritten] + ToolLines(ts, show), "\n"))
  }

  /** `build_system_prompt` with the notes optional (empty when absent) and
      the example call undoubled. */
  function SystemPrompt(profile: Dict, clock: Clock, ts: seq<T.ToolSpec>, show: Json -> string): Result<string> {
    var character :- T.PayloadItem(JObj(profile), "character");
    var notes := Get(profile, "notes").GetOr(JStr(""));
    Ok(Join([SysHeader(PyStr(character, show), PyStr(notes, show), clock) + ToolHeader] + ToolLines(ts, show), "\n"))
  }

  /** The chat endpoint hands `run_turn` a dumped profile, which has no
      "notes": the prompt as written raises `KeyError` on every turn, while
      the corrected prompt is always built. */
  lemma NotesNeverPresent(p: P.AgentProfile, clock: Clock, ts: seq<T.ToolSpec>, show: Json -> string)
    ensures SystemPromptAsWritten(P.Dump(p), clock, ts, show) == Err(KeyError("notes"))
    ensures SystemPrompt(P.Dump(p), clock, ts, show).Ok?
  {
    var d := P.Dump(p);
    P.DumpGet(p);
    GetHas(d, "character");
    assert Keys(d) == P.FieldNames;
    GetHas(d, "notes");
  }

  /** The line of a listed tool, read back from its listing entry. */
  lemma EntryLine(t: T.ToolSpec, show: Json -> string)
    ensures var e := T.PromptEntry(t).fields;
      "- " + PyStr(GetNull(e, "name"), show) + "\n  When: " + PyStr(GetNull(e, "description"), show) +
      "\n  Input JSON schema: " + PyStr(GetNull(e, "input_schema"), show) == ToolLine(t, show)
  {
    var e := T.PromptEntry(t).fields;
    GetFirst(e, 0, "name");
    GetFirst(e, 1, "description");
    GetFirst(e, 2, "input_schema");
  }

  // ----- run_tool -----

  /** `assistant_output.split("TOOL_CALL:")[1:]`. */
  function Pieces(text: string): seq<string> {
    Split(text, Marker)[1..]
  }

  /** A fragment up to and including its last `}`, stripped; none when it
      has no `}`. */
  function Cut(piece: string): (r: Option<string>)
    ensures r.None? <==> forall j :: 0 <= j < |piece| ==> piece[j] != '}'
  {
    var e := RFind(piece, '}');
    if e < 0 then None else Some(Strip(piece[..e + 1]))
  }

  /** A fragment is cut after its last `}`, so a payload with nested braces
      is kept whole and trailing text without `}` is dropped. */
  lemma CutAtLastBrace(body: string, tail: string)
    requires |body| > 0 && body[|body| - 1] == '}'
    requires forall j :: 0 <= j < |tail| ==> tail[j] != '}'
    ensures Cut(body + tail) == Some(Strip(body))
  {
    var s := body + tail;
    var e := RFind(s, '}');
    assert s[|body| - 1] == '}';
    assert s[..e + 1] == body;
  }

  /** What one fragment asks for: nothing usable (it raises), a name no
      tool has, or a registered handler and its payload. */
  datatype Request = Broken | Unknown | Invoke(name: string, handler: T.Handler, payload: Json)

  /** One fragment read: cut, parsed, its "name" looked up, and "payload"
      taken (an empty dictionary when absent).  A name that is not a string
      is not in the registry, except that a list or a dictionary cannot be
      hashed and raises. */
  function Resolve(piece: string, ts: seq<T.ToolSpec>, parse: string -> Option<Json>): (r: Request)
    ensures r.Invoke? ==> T.Lookup(ts, r.name).Some? && T.Lookup(ts, r.name).value.handler == r.handler
  {
    match Cut(piece)
    case None => Broken
    case Some(text) =>
      match parse(text)
      case None => Broken
      case Some(spec) =>
        match T.PayloadItem(spec, "name")
        case Err(_) => Broken
        case Ok(name) =>
          if name.JArr? || name.JObj? then Broken
          else if !name.JStr? then Unknown
          else
            match T.Lookup(ts, name.s)
            case None => Unknown
            case Some(tool) => Invoke(name.s, tool.handler, Get(spec.fields, "payload").GetOr(JObj([])))
  }

  /** `handler(payload)`: the result and the stores afterwards.  A turn is
      stated for any such function; the host's handlers are `Tools.Effect`. */
  type Dispatch = (T.Handler, T.Cols, T.Files, Json, T.Outside) -> (Result<Json>, T.Cols, T.Files)

  /** What one fragment does. */
  datatype Step =
    | Failed(cols: T.Cols, files: T.Files)
    | Skipped
    | Called(out: (string, string), cols: T.Cols, files: T.Files)

  /** One fragment: a request for a registered handler calls it and
      outputs the tool's name with `str` of the result; anything that
      raises fails the fragment, keeping what a handler changed before
      raising; a name no tool has is skipped. */
  function StepOn(piece: string, ts: seq<T.ToolSpec>, cols: T.Cols, files: T.Files,
                  parse: string -> Option<Json>, show: Json -> string, dispatch: Dispatch, out: T.Outside): Step
  {
    StepReq(Resolve(piece, ts, parse), cols, files, show, dispatch, out)
  }

  /** What a fragment does once it is read. */
  function StepReq(req: Request, cols: T.Cols, files: T.Files, show: Json -> string, dispatch: Dispatch, out: T.Outside): Step {
    match req
    case Broken => Failed(cols, files)
    case Unknown => Skipped
    case Invoke(n, h, payload) =>
      var (r, c, f) := dispatch(h, cols, files, payload, out);
      if r.Err? then Failed(c, f) else Called((n, PyStr(r.value, show)), c, f)
  }

  /** The outputs of the fragments from `k` on, the stores afterwards, and
      whether a fragment failed. */
  datatype Run = Run(outs: seq<(string, string)>, cols: T.Cols, files: T.Files, stopped: bool)

  function Prepend(o: seq<(string, string)>, r: Run): Run {
    r.(outs := o + r.outs)
  }

  /** `run_tool` from fragment `k`: fragment `k` draws `outside(k)`. */
  function RunFrom(pieces: seq<string>, k: nat, ts: seq<T.ToolSpec>, cols: T.Cols, files: T.Files,
                   parse: string -> Option<Json>, show: Json -> string, dispatch: Dispatch, outside: nat -> T.Outside): Run
    requires k <= |pieces|
    decreases |pieces| - k
  {
    if k == |pieces| then Run([], cols, files, false)
    else match StepOn(pieces[k], ts, cols, files, parse, show, dispatch, outside(k))
      case Failed(c, f) => Run([], c, f, true)
      case Skipped => RunFrom(pieces, k + 1, ts, cols, files, parse, show, dispatch, outside)
      case Called(o, c, f) => Prepend([o], RunFrom(pieces, k + 1, ts, c, f, parse, show, dispatch, outside))
  }

  /** The run from request `k` once every fragment has been read. */
  function RunReqs(reqs: seq<Request>, k: nat, cols: T.Cols, files: T.Files,
                   show: Json -> string, dispatch: Dispatch, outside: nat -> T.Outside): Run
    requires k <= |reqs|
    decreases |reqs| - k
  {
    if k == |reqs| then Run([], cols, files, false)
    else match StepReq(reqs[k], cols, files, show, dispatch, outside(k))
      case Failed(c, f) => Run([], c, f, true)
      case Skipped => RunReqs(reqs, k + 1, cols, files, show, dispatch, outside)
      case Called(o, c, f) => Prepend([o], RunReqs(reqs, k + 1, c, f, show, dispatch, outside))
  }

  /** `reqs` are the fragments as read against the registry. */
  ghost predicate ReadAs(reqs: seq<Request>, pieces: seq<string>, ts: seq<T.ToolSpec>, parse: string -> Option<Json>) {
    |reqs| == |pieces| &&
    forall j {:trigger Resolve(pieces[j], ts, parse)} :: 0 <= j < |pieces| ==> reqs[j] == Resolve(pieces[j], ts, parse)
  }

  /** Reading every fragment first and then running the requests is the
      run over the fragments, since reading changes nothing. */
  lemma {:induction false} RunFromReqs(pieces: seq<string>, k: nat, ts: seq<T.ToolSpec>, cols: T.Cols, files: T.Files,
                                       parse: string -> Option<Json>, show: Json -> string, dispatch: Dispatch,
                                       outside: nat -> T.Outside, reqs: seq<Request>)
    requires k <= |pieces| && ReadAs(reqs, pieces, ts, parse)
    ensures RunFrom(pieces, k, ts, cols, files, parse, show, dispatch, outside) ==
      RunReqs(reqs, k, cols, files, show, dispatch, outside)
    decreases |pieces| - k
  {
    if k < |pieces| {
      var step := StepOn(pieces[k], ts, cols, files, parse, show, dispatch, outside(k));
      assert step == StepReq(reqs[k], cols, files, show, dispatch, outside(k));
      match step
      case Failed(c, f) =>
      case Skipped =>
        RunFromReqs(pieces, k + 1, ts, cols, files, parse, show, dispatch, outside, reqs);
      case Called(o, c, f) =>
        RunFromReqs(pieces, k + 1, ts, c, f, parse, show, dispatch, outside, reqs);
    }
  }

  /** Text without the marker produces nothing and calls no handler. */
  lemma NoMarkerNoCalls(text: string, ts: seq<T.ToolSpec>, cols: T.Cols, files: T.Files,
                        parse: string -> Option<Json>, show: Json -> string, dispatch: Dispatch, outside: nat -> T.Outside)
    requires !Contains(text, Marker)
    ensures RunFrom(Pieces(text), 0, ts, cols, files, parse, show, dispatch, outside) == Run([], cols, files, false)
  {
    SplitSingle(text, Marker);
  }

  /** Once a fragment fails, the fragments after it are never processed. */
  lemma {:induction false} StopIgnoresRest(pieces: seq<string>, m: nat, k: nat, ts: seq<T.ToolSpec>,
                                           cols: T.Cols, files: T.Files, parse: string -> Option<Json>,
                                           show: Json -> string, dispatch: Dispatch, outside: nat -> T.Outside)
    requires k <= m <= |pieces|
    requires RunFrom(pieces[..m], k, ts, cols, files, parse, show, dispatch, outside).stopped
    ensures RunFrom(pieces, k, ts, cols, files, parse, show, dispatch, outside) ==
      RunFrom(pieces[..m], k, ts, cols, files, parse, show, dispatch, outside)
    decreases m - k
  {
    assert pieces[..m][k] == pieces[k];
    match StepOn(pieces[k], ts, cols, files, parse, show, dispatch, outside(k))
    case Failed(c, f) =>
    case Skipped =>
      StopIgnoresRest(pieces, m, k + 1, ts, cols, files, parse, show, dispatch, outside);
    case Called(o, c, f) =>
      StopIgnoresRest(pieces, m, k + 1, ts, c, f, parse, show, dispatch, outside);
  }

  /** Every output names a registered tool, and there is at most one output
      per fragment. */
  lemma {:induction false} OutputsRegistered(pieces: seq<string>, k: nat, ts: seq<T.ToolSpec>,
                                             cols: T.Cols, files: T.Files, parse: string -> Option<Json>,
                                             show: Json -> string, dispatch: Dispatch, outside: nat -> T.Outside)
    requires k <= |pieces|
    ensures var run := RunFrom(pieces, k, ts, cols, files, parse, show, dispatch, outside);
      && |run.outs| <= |pieces| - k
      && forall j :: 0 <= j < |run.outs| ==> T.Lookup(ts, run.outs[j].0).Some?
    decreases |pieces| - k
  {
    if k < |pieces| {
      match StepOn(pieces[k], ts, cols, files, parse, show, dispatch, outside(k))
      case Failed(c, f) =>
      case Skipped =>
        OutputsRegistered(pieces, k + 1, ts, cols, files, parse, show, dispatch, outside);
      case Called(o, c, f) =>
        assert o.0 == Resolve(pieces[k], ts, parse).name;
        OutputsRegistered(pieces, k + 1, ts, c, f, parse, show, dispatch, outside);
    }
  }

  /** A fragment naming no registered tool asks for nothing. */
  lemma UnknownSkipped(piece: string, ts: seq<T.ToolSpec>, parse: string -> Option<Json>, d: Dict, n: string)
    requires Cut(piece).Some? && parse(Cut(piece).value) == Some(JObj(d))
    requires Get(d, "name") == Some(JStr(n)) && T.Lookup(ts, n).None?
    ensures Resolve(piece, ts, parse) == Unknown
  {
    GetHas(d, "name");
  }

  /** A fragment naming a registered tool asks for that tool's handler, on
      the payload or on an empty dictionary when there is none. */
  lemma KnownDispatched(piece: string, ts: seq<T.ToolSpec>, parse: string -> Option<Json>,
                        d: Dict, n: string, tool: T.ToolSpec, payload: Json)
    requires Cut(piece).Some? && parse(Cut(piece).value) == Some(JObj(d))
    requires Get(d, "name") == Some(JStr(n)) && T.Lookup(ts, n) == Some(tool)
    requires Get(d, "payload") == Some(payload) || (!Has(d, "payload") && payload == JObj([]))
    ensures Resolve(piece, ts, parse) == Invoke(n, tool.handler, payload)
  {
    GetHas(d, "name");
    GetHas(d, "payload");
  }

  /** A call whose text is not a JSON object, or an object without "name",
      raises and ends the tool phase. */
  lemma NamelessBroken(piece: string, ts: seq<T.ToolSpec>, parse: string -> Option<Json>, v: Json)
    requires Cut(piece).Some? && parse(Cut(piece).value) == Some(v)
    requires !v.JObj? || !Has(v.fields, "name")
    ensures Resolve(piece, ts, parse) == Broken
  {
  }

  // ----- run_turn -----

  /** A chat message as the model receives it. */
  datatype Message = Message(role: Json, content: Json)

  /** The language model: streamed tokens or one complete reply for a list
      of messages. */
  datatype Llm = Llm(stream: seq<Message> -> seq<string>, chat: seq<Message> -> string)

  /** What `run_turn` yields. */
  datatype Event = Token(data: string) | ToolUsed(name: string, result: string) | Done

  /** Records read back always hold "role" and "content". */
  function HistMessage(m: Dict): Message {
    Message(GetNull(m, "role"), GetNull(m, "content"))
  }

  /** The messages of the primary generation: the system prompt, the
      history window, then the user's text unless it is the "no message"
      marker. */
  function Prompt(sys: string, hist: seq<Dict>, userText: string): (msgs: seq<Message>)
    ensures |msgs| == 1 + |hist| + (if userText != NoUser then 1 else 0)
    ensures msgs[0] == Message(JStr("system"), JStr(sys))
    ensures forall i :: 0 <= i < |hist| ==> msgs[1 + i] == HistMessage(hist[i])
    ensures userText != NoUser ==> msgs[|msgs| - 1] == Message(JStr("user"), JStr(userText))
  {
    [Message(JStr("system"), JStr(sys))] + seq(|hist|, i requires 0 <= i < |hist| => HistMessage(hist[i])) +
    (if userText != NoUser then [Message(JStr("user"), JStr(userText))] else [])
  }

  /** `"".join(tokens)`. */
  function Concat(tokens: seq<string>): string
    decreases |tokens|
  {
    if |tokens| == 0 then "" else Concat(tokens[..|tokens| - 1]) + tokens[|tokens| - 1]
  }

  function TokenEvents(tokens: seq<string>): (es: seq<Event>)
    ensures |es| == |tokens| && forall i :: 0 <= i < |tokens| ==> es[i] == Token(tokens[i])
  {
    seq(|tokens|, i requires 0 <= i < |tokens| => Token(tokens[i]))
  }

  /** The text of a run of token events. */
  function EventText(es: seq<Event>): string
    decreases |es|
  {
    if |es| == 0 then ""
    else EventText(es[..|es| - 1]) + (if es[|es| - 1].Token? then es[|es| - 1].data else "")
  }

  lemma {:induction false} EventTextTokens(tokens: seq<string>)
    ensures EventText(TokenEvents(tokens)) == Concat(tokens)
    decreases |tokens|
  {
    if |tokens| > 0 {
      EventTextTokens(tokens[..|tokens| - 1]);
      assert TokenEvents(tokens)[..|tokens| - 1] == TokenEvents(tokens[..|tokens| - 1]);
    }
  }

  function ToolText(o: (string, string)): string {
    o.0 + " -> " + o.1
  }

  function ToolEvents(outs: seq<(string, string)>): (es: seq<Event>)
    ensures |es| == |outs| && forall i :: 0 <= i < |outs| ==> es[i] == ToolUsed(outs[i].0, outs[i].1)
  {
    seq(|outs|, i requires 0 <= i < |outs| => ToolUsed(outs[i].0, outs[i].1))
  }

  function ToolMessages(outs: seq<(string, string)>): (ms: seq<Message>)
    ensures |ms| == |outs| && forall i :: 0 <= i < |outs| ==> ms[i] == Message(JStr("tool"), JStr(ToolText(outs[i])))
  {
    seq(|outs|, i requires 0 <= i < |outs| => Message(JStr("tool"), JStr(ToolText(outs[i]))))
  }

  function ToolTurns(outs: seq<(string, string)>): (ts: seq<(string, string)>)
    ensures |ts| == |outs| && forall i :: 0 <= i < |outs| ==> ts[i] == ("tool", ToolText(outs[i]))
  {
    seq(|outs|, i requires 0 <= i < |outs| => ("tool", ToolText(outs[i])))
  }

  /** The lines `append_turn` adds for a list of (role, content) pairs, the
      i-th drawing `stamps(i)`. */
  function Written(turns: seq<(string, string)>, stamps: nat -> FreshStamp): (ls: seq<H.Line>)
    ensures |ls| == |turns|
  {
    seq(|turns|, i requires 0 <= i < |turns| => H.Parsed(JObj(H.NewRecord(turns[i].0, turns[i].1, None, stamps(i)))))
  }

  lemma WrittenSnoc(turns: seq<(string, string)>, t: (string, string), stamps: nat -> FreshStamp)
    ensures Written(turns + [t], stamps) ==
      Written(turns, stamps) + [H.Parsed(JObj(H.NewRecord(t.0, t.1, None, stamps(|turns|))))]
  {
    assert Written(turns + [t], stamps)[..|turns|] == Written(turns, stamps);
  }

  /** A turn's events, the (role, content) pairs it appends to the history,
      and the stores afterwards. */
  datatype TurnOut = TurnOut(events: seq<Event>, turns: seq<(string, string)>, cols: T.Cols, files: T.Files)

  /** Everything a turn's model and tools determine. */
  datatype Context = Context(llm: Llm, parse: string -> Option<Json>, show: Json -> string, outside: nat -> T.Outside)

  /** The primary generation: streamed tokens, or the whole reply as one
      token. */
  function Primary(llm: Llm, stream: bool, msgs: seq<Message>): seq<string> {
    if stream then llm.stream(msgs) else [llm.chat(msgs)]
  }

  /** The tool phase's outcome for the primary text. */
  function ToolPhase(text: string, allowTools: bool, ts: seq<T.ToolSpec>, cols: T.Cols, files: T.Files,
                     cx: Context, dispatch: Dispatch): Run {
    if allowTools then RunFrom(Pieces(text), 0, ts, cols, files, cx.parse, cx.show, dispatch, cx.outside)
    else Run([], cols, files, false)
  }

  /** What a turn adds after its primary reply. */
  datatype Tail = Tail(events: seq<Event>, turns: seq<(string, string)>)

  /** After the tool phase: per output a tool event and a "tool" record,
      then, when there was any output, the follow-up reply generated from
      `msgs` and the tool messages. */
  function FollowUp(llm: Llm, msgs: seq<Message>, outs: seq<(string, string)>): Tail {
    if |outs| == 0 then Tail([], [])
    else
      var follow := llm.chat(msgs + ToolMessages(outs));
      Tail(ToolEvents(outs) + [Token(follow)], ToolTurns(outs) + [("assistant", follow)])
  }

  /** A turn assembled from its parts: the primary generation's tokens
      for the prompt `msgs` and the tool phase's outcome. */
  function Assemble(userText: string, msgs: seq<Message>, primary: seq<string>, llm: Llm, run: Run): TurnOut {
    var text := Concat(primary);
    var tail := FollowUp(llm, msgs + [Message(JStr("assistant"), JStr(text))], run.outs);
    TurnOut(
      TokenEvents(primary) + tail.events + [Done],
      (if userText != NoUser then [("user", userText)] else []) + [("assistant", text)] + tail.turns,
      run.cols, run.files)
  }

  /** `run_turn` once the system prompt and the history window are known. */
  function TurnSpec(sys: string, hist: seq<Dict>, userText: string, allowTools: bool, stream: bool,
                    ts: seq<T.ToolSpec>, cols: T.Cols, files: T.Files, cx: Context, dispatch: Dispatch): TurnOut
  {
    var msgs := Prompt(sys, hist, userText);
    var primary := Primary(cx.llm, stream, msgs);
    Assemble(userText, msgs, primary, cx.llm, ToolPhase(Concat(primary), allowTools, ts, cols, files, cx, dispatch))
  }

  /** What `run_turn` does before its first event: the agent, the system
      prompt and the agent's log path.  An error here ends the turn with no
      event and no write. */
  function TurnStart(profile: Dict, clock: Clock, ts: seq<T.ToolSpec>, show: Json -> string): Result<string> {
    var raw := Get(profile, "agent_id").GetOr(T.DefaultAgent);
    var sys :- SystemPrompt(profile, clock, ts, show);
    var _ :- T.AgentPath(raw);
    Ok(sys)
  }

  /** The follow-up reply: the model's answer to the prompt, the primary
      reply as an assistant message, and one tool message per output. */
  function FollowUpText(llm: Llm, msgs: seq<Message>, primary: seq<string>, outs: seq<(string, string)>): string {
    llm.chat(msgs + [Message(JStr("assistant"), JStr(Concat(primary)))] + ToolMessages(outs))
  }

  /** The records of a turn: the user's message first (unless absent),
      then the primary reply, which is the text of the leading token
      events, then one "tool" record per tool output in order, and exactly
      one follow-up reply, `FollowUpText`, when there was any output. */
  lemma TurnRecords(userText: string, msgs: seq<Message>, primary: seq<string>, llm: Llm, run: Run)
    ensures var t := Assemble(userText, msgs, primary, llm, run);
      var u := if userText != NoUser then 1 else 0;
      var n := |run.outs|;
      && (userText != NoUser ==> t.turns[0] == ("user", userText))
      && |t.turns| == u + 1 + n + (if n > 0 then 1 else 0)
      && t.turns[u] == ("assistant", EventText(t.events[..|primary|]))
      && (forall i :: 0 <= i < n ==> t.turns[u + 1 + i] == ("tool", ToolText(run.outs[i])))
      && (n > 0 ==> t.turns[|t.turns| - 1] == ("assistant", FollowUpText(llm, msgs, primary, run.outs)))
  {
    var t := Assemble(userText, msgs, primary, llm, run);
    assert t.events[..|primary|] == TokenEvents(primary);
    EventTextTokens(primary);
  }

  /** The events of a turn: the primary tokens, one tool event per output
      in order, the follow-up reply `FollowUpText` as one token when there
      was any output, and a single `done` at the end. */
  lemma TurnEvents(userText: string, msgs: seq<Message>, primary: seq<string>, llm: Llm, run: Run)
    ensures var t := Assemble(userText, msgs, primary, llm, run);
      var n := |run.outs|;
      && |t.events| == |primary| + n + (if n > 0 then 1 else 0) + 1
      && (forall i :: 0 <= i < |primary| ==> t.events[i] == Token(primary[i]))
      && (forall i :: 0 <= i < n ==> t.events[|primary| + i] == ToolUsed(run.outs[i].0, run.outs[i].1))
      && t.events[|t.events| - 1] == Done
      && (n > 0 ==> t.events[|primary| + n] == Token(FollowUpText(llm, msgs, primary, run.outs)))
      && (forall i :: 0 <= i < |t.events| - 1 ==> !t.events[i].Done?)
  {
  }

  /** Without tools allowed, no handler runs and the stores are untouched. */
  lemma NoToolsNoEffect(text: string, ts: seq<T.ToolSpec>, cols: T.Cols, files: T.Files, cx: Context, dispatch: Dispatch)
    ensures ToolPhase(text, false, ts, cols, files, cx, dispatch) == Run([], cols, files, false)
  {
  }

  /** The primary generation sees at most `2 * MAX_TURNS` history records
      between the system prompt and the user's message. */
  lemma PromptWindow(sys: string, recs: seq<Dict>, userText: string)
    ensures var msgs := Prompt(sys, H.Window(recs, MaxTurns), userText);
      && |msgs| <= 2 + 2 * MaxTurns
      && msgs[0] == Message(JStr("system"), JStr(sys))
      && (userText != NoUser ==> msgs[|msgs| - 1] == Message(JStr("user"), JStr(userText)))
  {
  }

  /** The handlers' stores and the history log of the profile's agent: the
      state a turn reads and writes.  `history.py` picks the log file by
      agent_id (`<root>/<agent_id>/chat_history.jsonl`); the host is built
      with the log of the agent whose profile its turns receive, and that
      pairing is the caller's, not checked here. */
  class Host {
    const registry: T.Registry
    const stores: T.Stores
    const log: H.HistoryLog
    /** What calling a tool's handler does. */
    const dispatch: Dispatch

    constructor (registry: T.Registry, stores: T.Stores, log: H.HistoryLog)
      ensures this.registry == registry && this.stores == stores && this.log == log
      ensures Wired()
    {
      this.registry := registry;
      this.stores := stores;
      this.log := log;
      this.dispatch := T.Effect;
    }

    /** Marks a handler call the host makes, so that `Wired` is applied at
        those calls only.  It holds of everything; it exists as the trigger
        of `Wired`'s quantifier, so the verifier unfolds `Tools.Effect`
        only where a handler is actually called rather than at every
        mention of `dispatch`, which keeps the proofs of the tool loop
        small. */
    ghost predicate HandlerCall(h: T.Handler, c: T.Cols, f: T.Files, p: Json, o: T.Outside) {
      true
    }

    /** The host's handlers are the module's: `dispatch` computes what
        `Tools.Effect` does for every handler, store and payload. */
    ghost predicate Wired() {
      forall h, c, f, p, o {:trigger HandlerCall(h, c, f, p, o)} ::
        HandlerCall(h, c, f, p, o) ==> dispatch(h, c, f, p, o) == T.Effect(h, c, f, p, o)
    }

    /** `build_system_prompt`, over the tool listing. */
    method BuildSystemPrompt(profile: Dict, clock: Clock, show: Json -> string) returns (r: Result<string>)
      ensures r == SystemPrompt(profile, clock, registry.tools, show)
    {
      var character := T.PayloadItem(JObj(profile), "character");
      if character.Err? {
        return Err(character.error);
      }
      var notes := Get(profile, "notes").GetOr(JStr(""));
      var head := SysHeader(PyStr(character.value, show), PyStr(notes, show), clock) + ToolHeader;
      var entries := registry.ListToolsForPrompt();
      var lines := [head];
      var i := 0;
      while i < |entries|
        invariant 0 <= i <= |entries|
        invariant lines == [head] + ToolLines(registry.tools[..i], show)
      {
        var e := entries[i].fields;
        EntryLine(registry.tools[i], show);
        lines := lines + ["- " + PyStr(GetNull(e, "name"), show) + "\n  When: " + PyStr(GetNull(e, "description"), show) +
                          "\n  Input JSON schema: " + PyStr(GetNull(e, "input_schema"), show)];
        assert ToolLines(registry.tools[..i + 1], show) == ToolLines(registry.tools[..i], show) + [ToolLine(registry.tools[i], show)];
        i := i + 1;
      }
      assert registry.tools[..i] == registry.tools;
      r := Ok(Join(lines, "\n"));
    }

    /** One fragment of `run_tool`: `None` when it fails, otherwise the
        output it adds, if any. */
    method RunStep(piece: string, parse: string -> Option<Json>, show: Json -> string, out: T.Outside)
      returns (r: Option<Option<(string, string)>>)
      modifies stores.mem, stores.disk
      requires Wired()
      ensures match StepOn(piece, registry.tools, old(stores.mem.cols), old(stores.disk.files), parse, show, dispatch, out)
        case Failed(c, f) => r.None? && stores.mem.cols == c && stores.disk.files == f
        case Skipped => r == Some(None) && stores.mem.cols == old(stores.mem.cols) && stores.disk.files == old(stores.disk.files)
        case Called(o, c, f) => r == Some(Some(o)) && stores.mem.cols == c && stores.disk.files == f
    {
      match Resolve(piece, registry.tools, parse)
      case Broken =>
        r := None;
      case Unknown =>
        r := Some(None);
      case Invoke(name, handler, payload) =>
        assert HandlerCall(handler, stores.mem.cols, stores.disk.files, payload, out);
        var result := stores.Call(handler, payload, out);
        if result.Err? {
          r := None;
        } else {
          r := Some(Some((name, PyStr(result.value, show))));
        }
    }

    /** Fragment `i` of `run_tool`, stated as the step from the run at `i`
        to the run at `i + 1`. */
    method Advance(pieces: seq<string>, ghost reqs: seq<Request>, i: nat, parse: string -> Option<Json>,
                   show: Json -> string, outside: nat -> T.Outside)
      returns (r: Option<Option<(string, string)>>)
      requires i < |pieces| && Wired() && ReadAs(reqs, pieces, registry.tools, parse)
      modifies stores.mem, stores.disk
      ensures var rest := RunReqs(reqs, i, old(stores.mem.cols), old(stores.disk.files), show, dispatch, outside);
        var next := RunReqs(reqs, i + 1, stores.mem.cols, stores.disk.files, show, dispatch, outside);
        && (r.None? ==> rest == Run([], stores.mem.cols, stores.disk.files, true))
        && (r == Some(None) ==> rest == next)
        && (r.Some? && r.value.Some? ==> rest == Prepend([r.value.value], next))
    {
      r := RunStep(pieces[i], parse, show, outside(i));
      assert reqs[i] == Resolve(pieces[i], registry.tools, parse);
    }

    /** The loop of `run_tool` over its fragments, read as `reqs`: they run
        in order until one fails. */
    method RunPieces(pieces: seq<string>, ghost reqs: seq<Request>, parse: string -> Option<Json>,
                     show: Json -> string, outside: nat -> T.Outside)
      returns (outputs: seq<(string, string)>)
      modifies stores.mem, stores.disk
      requires Wired() && ReadAs(reqs, pieces, registry.tools, parse)
      ensures var run := RunReqs(reqs, 0, old(stores.mem.cols), old(stores.disk.files), show, dispatch, outside);
        outputs == run.outs && stores.mem.cols == run.cols && stores.disk.files == run.files
    {
      ghost var ts := registry.tools;
      ghost var total := RunReqs(reqs, 0, stores.mem.cols, stores.disk.files, show, dispatch, outside);
      ghost var rest := total;
      outputs := [];
      var i := 0;
      while i < |pieces|
        invariant 0 <= i <= |pieces| && registry.tools == ts
        invariant rest == RunReqs(reqs, i, stores.mem.cols, stores.disk.files, show, dispatch, outside)
        invariant total.outs == outputs + rest.outs
        invariant total.cols == rest.cols && total.files == rest.files && total.stopped == rest.stopped
      {
        var step := Advance(pieces, reqs, i, parse, show, outside);
        if step.None? {
          return;
        }
        ghost var next := RunReqs(reqs, i + 1, stores.mem.cols, stores.disk.files, show, dispatch, outside);
        if step.value.Some? {
          assert outputs + rest.outs == (outputs + [step.value.value]) + next.outs;
          outputs := outputs + [step.value.value];
        }
        rest := next;
        i := i + 1;
      }
    }

    /** `run_tool`: the fragments in order until one fails; the outputs so
        far are returned and nothing escapes. */
    method RunTool(text: string, parse: string -> Option<Json>, show: Json -> string, outside: nat -> T.Outside)
      returns (outputs: seq<(string, string)>)
      modifies stores.mem, stores.disk
      requires Wired()
      ensures var run := RunFrom(Pieces(text), 0, registry.tools, old(stores.mem.cols), old(stores.disk.files), parse, show, dispatch, outside);
        outputs == run.outs && stores.mem.cols == run.cols && stores.disk.files == run.files
    {
      var pieces := Split(text, Marker)[1..];
      ghost var ts := registry.tools;
      ghost var reqs := seq(|pieces|, j requires 0 <= j < |pieces| => Resolve(pieces[j], ts, parse));
      assert ReadAs(reqs, pieces, ts, parse);
      RunFromReqs(pieces, 0, ts, stores.mem.cols, stores.disk.files, parse, show, dispatch, outside, reqs);
      outputs := RunPieces(pieces, reqs, parse, show, outside);
    }

    /** `append_turn` for the turn's `from`-th record. */
    method Record(role: string, content: string, from: nat, ghost lines0: seq<H.Line>,
                  ghost turns0: seq<(string, string)>, appendStamps: nat -> FreshStamp)
      modifies log
      requires from == |turns0| && log.Lines() == lines0 + Written(turns0, appendStamps)
      ensures log.file == Some(lines0 + Written(turns0 + [(role, content)], appendStamps))
    {
      WrittenSnoc(turns0, (role, content), appendStamps);
      var rec := log.AppendTurn(role, content, None, appendStamps(from));
      assert lines0 + Written(turns0, appendStamps) + [H.Parsed(JObj(rec))] ==
        lines0 + (Written(turns0, appendStamps) + [H.Parsed(JObj(rec))]);
    }

    /** The tool phase's reporting: per output, in order, a "tool" record
        in the history, a tool message for the follow-up generation and a
        tool event. */
    method ReportTools(outs: seq<(string, string)>, from: nat, ghost lines0: seq<H.Line>,
                       ghost turns0: seq<(string, string)>, appendStamps: nat -> FreshStamp)
      returns (msgs: seq<Message>, evs: seq<Event>)
      modifies log
      requires from == |turns0| && log.file == Some(lines0 + Written(turns0, appendStamps))
      ensures log.file == Some(lines0 + Written(turns0 + ToolTurns(outs), appendStamps))
      ensures msgs == ToolMessages(outs) && evs == ToolEvents(outs)
    {
      msgs, evs := [], [];
      var k := 0;
      assert turns0 + ToolTurns(outs[..0]) == turns0;
      while k < |outs|
        invariant 0 <= k <= |outs|
        invariant log.file == Some(lines0 + Written(turns0 + ToolTurns(outs[..k]), appendStamps))
        invariant msgs == ToolMessages(outs[..k]) && evs == ToolEvents(outs[..k])
      {
        var line := outs[k].0 + " -> " + outs[k].1;
        ghost var turns := turns0 + ToolTurns(outs[..k]);
        Record("tool", line, from + k, lines0, turns, appendStamps);
        msgs := msgs + [Message(JStr("tool"), JStr(line))];
        evs := evs + [ToolUsed(outs[k].0, outs[k].1)];
        assert ToolTurns(outs[..k + 1]) == ToolTurns(outs[..k]) + [("tool", line)];
        assert turns0 + ToolTurns(outs[..k + 1]) == turns + [("tool", line)];
        assert log.file == Some(lines0 + Written(turns + [("tool", line)], appendStamps));
        assert ToolMessages(outs[..k + 1]) == ToolMessages(outs[..k]) + [Message(JStr("tool"), JStr(line))];
        assert ToolEvents(outs[..k + 1]) == ToolEvents(outs[..k]) + [ToolUsed(outs[k].0, outs[k].1)];
        k := k + 1;
      }
      assert outs[..k] == outs;
    }

    /** What follows the tool phase of `run_turn`, once the primary reply
        was recorded: the outputs are reported, and a follow-up reply is
        generated and recorded only when there are any. */
    method FollowUpRound(outs: seq<(string, string)>, msgs: seq<Message>, llm: Llm, from: nat,
                         ghost lines0: seq<H.Line>, ghost turns0: seq<(string, string)>, appendStamps: nat -> FreshStamp)
      returns (evs: seq<Event>)
      modifies log
      requires from == |turns0| && log.file == Some(lines0 + Written(turns0, appendStamps))
      ensures var tail := FollowUp(llm, msgs, outs);
        evs == tail.events && log.file == Some(lines0 + Written(turns0 + tail.turns, appendStamps))
    {
      if |outs| == 0 {
        assert turns0 + [] == turns0;
        return [];
      }
      var toolMsgs, toolEvs := ReportTools(outs, from, lines0, turns0, appendStamps);
      ghost var turns := turns0 + ToolTurns(outs);
      var follow := llm.chat(msgs + toolMsgs);
      Record("assistant", follow, from + |outs|, lines0, turns, appendStamps);
      assert turns + [("assistant", follow)] == turns0 + (ToolTurns(outs) + [("assistant", follow)]);
      evs := toolEvs + [Token(follow)];
    }

    /** `run_turn` once the system prompt is built and the history window
        read: the generations, the tool phase and the history records. */
    method Respond(sys: string, hist: seq<Dict>, userText: string, allowTools: bool, stream: bool, cx: Context,
                   appendStamps: nat -> FreshStamp)
      returns (events: seq<Event>)
      modifies log, stores.mem, stores.disk
      requires Wired()
      ensures var t := TurnSpec(sys, hist, userText, allowTools, stream, registry.tools,
                                old(stores.mem.cols), old(stores.disk.files), cx, dispatch);
        && events == t.events
        && log.file == Some(old(log.Lines()) + Written(t.turns, appendStamps))
        && stores.mem.cols == t.cols && stores.disk.files == t.files
    {
      ghost var lines0 := log.Lines();
      var messages := Prompt(sys, hist, userText);
      ghost var turns: seq<(string, string)> := [];
      assert lines0 + Written(turns, appendStamps) == lines0;
      var j := 0;
      if userText != NoUser {
        Record("user", userText, j, lines0, turns, appendStamps);
        turns := turns + [("user", userText)];
        j := j + 1;
      }
      var primary := Primary(cx.llm, stream, messages);
      var buffer := Concat(primary);
      Record("assistant", buffer, j, lines0, turns, appendStamps);
      turns := turns + [("assistant", buffer)];
      j := j + 1;
      assert turns == (if userText != NoUser then [("user", userText)] else []) + [("assistant", buffer)];
      var outs: seq<(string, string)> := [];
      if allowTools {
        outs := RunTool(buffer, cx.parse, cx.show, cx.outside);
      }
      var tail := FollowUpRound(outs, messages + [Message(JStr("assistant"), JStr(buffer))], cx.llm, j,
                                lines0, turns, appendStamps);
      events := TokenEvents(primary) + tail + [Done];
    }

    /** `run_turn`: the events it yields and what it writes.  `readStamps`
        are drawn while reading the history, `appendStamps(j)` by the j-th
        record appended.  A turn that raises before its first event writes
        nothing.  The system prompt is the corrected one of
        `BuildSystemPrompt`: as written, the prompt reads the profile's
        "notes", which no dumped profile has (`NotesNeverPresent`), and
        shows the tool header's doubled braces (`HeaderShowsDoubledBrace`). */
    method RunTurn(profile: Dict, userText: string, allowTools: bool, stream: bool, clock: Clock, cx: Context,
                   readStamps: nat -> FreshStamp, appendStamps: nat -> FreshStamp)
      returns (r: Result<seq<Event>>)
      modifies log, stores.mem, stores.disk
      requires Wired()
      ensures match TurnStart(profile, clock, registry.tools, cx.show)
        case Err(e) =>
          r == Err(e) && log.file == old(log.file)
          && stores.mem.cols == old(stores.mem.cols) && stores.disk.files == old(stores.disk.files)
        case Ok(sys) =>
          var hist := H.Window(H.Decode(old(log.Lines()), readStamps), MaxTurns);
          var t := TurnSpec(sys, hist, userText, allowTools, stream, registry.tools,
                            old(stores.mem.cols), old(stores.disk.files), cx, dispatch);
          && r == Ok(t.events)
          && log.file == Some(old(log.Lines()) + Written(t.turns, appendStamps))
          && stores.mem.cols == t.cols && stores.disk.files == t.files
    {
      var raw := Get(profile, "agent_id").GetOr(T.DefaultAgent);
      var sys := BuildSystemPrompt(profile, clock, cx.show);
      if sys.Err? {
        return Err(sys.error);
      }
      var agent := T.AgentPath(raw);
      if agent.Err? {
        return Err(agent.error);
      }
      var hist := log.LoadHistory(MaxTurns, readStamps);
      var events := Respond(sys.value, hist, userText, allowTools, stream, cx, appendStamps);
      r := Ok(events);
    }
  }
}
