# agent-with-memory, modelled in Dafny

A model of the core of the agent host: a chat service in which each agent
has a JSON profile, a line-per-record conversation history and a vector
memory, and in which the language model calls tools by writing
`TOOL_CALL: {"name": ..., "payload": ...}` lines into its reply.

The model covers:

- **History** (`history.dfy`): the `chat_history.jsonl` log of one agent as
  a list of lines; record normalisation (`_normalize_record`), reading
  (`_read_records`), the history window (`load_history`), appending,
  rewriting, patching and deleting records, and clearing the log.
- **Memory store** (`memory.dfy`): per-agent collections of a document
  and flat metadata per identifier; filter normalisation
  (`_normalize_where`), metadata flattening (`_flat_meta_only`), upsert,
  update, delete and query.
- **Profiles** (`profiles.dfy`): `AgentProfile` validation, `model_dump`,
  the profile files by agent, and reading, writing, listing (sorted),
  creating, updating and deleting profiles.
- **Tools** (`tools.dfy`): the registry `TOOLS` with `register` and
  `list_tools_for_prompt`, the nine built-in tools, and the handlers of
  the memory and profile tools over the stores.
- **Session** (`session.py` → `session.dfy`): the system prompt,
  `run_tool`'s inline call parser and dispatch, and `run_turn`'s events
  and history writes.
- **DuckDuckGo client** (`search.dfy`): which result blocks become
  search results and how they are numbered, the text handed to the
  model, the cut of fetched page text, and the rate limiter's queue.

Support modules: `Wrappers` (Option, Result and the exceptions raised),
`Json` (JSON values, and dictionaries as ordered lists of bindings,
since the order of a Python dict is observable), `Text` (Python's
`split`, `join`, `rfind`, `strip`, `str(int)`, `int(str)` and string
ordering) and `Env` (identifier and timestamp pairs).

Everything the code reaches outside itself is a parameter:
- the language model (`Session.Llm`);
- `json.loads` on the model's text, and `str()` of a non-string value;
- the clock;
- the stream of `uuid4().hex`/`utcnow()` pairs (`Env.FreshStamp`);
- the vector database's ranking (`MemoryStore.Ranker`);
- the web search service;
- the directory listing.

Files are maps from an agent to its content, where absence means "no file".

Where the tests disagree with the code, the model follows the code:
- `run_turn` yields no `used_tools` list;
- `run_turn` does not clear the history;
- the `memory.retrieve` handler does not pass the payload's `where` to
  the store;
- `_normalize_record` keeps every extra field of a raw record.

## Model

| member | source | states |
|---|---|---|
| Wrappers.AllOk | src/agent_host/app/memory/chroma_store.py:58-71 | a run of steps that may raise succeeds with one value per step |
| Wrappers.AllOkFirstError | src/agent_host/app/memory/chroma_store.py:58-71 | the run raises exactly when some step raises, and then with the first step's exception |
| Wrappers.AllOkStopped | src/agent_host/app/memory/chroma_store.py:58-71 | once a step has raised, the later steps change nothing |
| Wrappers.AllOkIndex | src/agent_host/app/memory/chroma_store.py:58-71 | when nothing raised, the i-th value is the i-th step's |
| Json.PutGet | src/agent_host/app/orchestrator/history.py:84-88 | after `d[k] = v`, `k` holds `v` and every other key keeps its value |
| Json.PutKeys | src/agent_host/app/orchestrator/history.py:84-88 | `d[k] = v` keeps the key order and appends a new key at the end |
| Json.UpdateGet | src/agent_host/app/agents/profiles.py:47-48 | after `d.update(patch)` a key holds the patch's value if the patch binds it, else its old value |
| Json.UpdateKeysPrefix | src/agent_host/app/agents/profiles.py:47-48 | `d.update(patch)` keeps the keys `d` had, in their positions |
| Json.WithoutGet | src/agent_host/app/memory/chroma_store.py:62 | dropping key `k` unbinds `k` and leaves every other key as it was |
| Text.Find | src/agent_host/app/orchestrator/session.py:43 | the result is the first position where the pattern occurs, or -1 when it does not occur |
| Text.SplitJoin | src/agent_host/app/orchestrator/session.py:43 | joining the pieces of a split with the separator gives the text back |
| Text.SplitSingle | src/agent_host/app/orchestrator/session.py:43 | a split yields one piece exactly when the separator does not occur |
| Text.SplitPiecesFree | src/agent_host/app/orchestrator/session.py:43 | no piece of a split contains the separator |
| Text.JoinConcat | src/agent_host/app/clients/duckduckgo.py:129 | joining two non-empty lists one after the other puts one separator between their joins |
| Text.RFind | src/agent_host/app/orchestrator/session.py:46 | the result is the last position of the character, or -1; no later position holds it |
| Text.StripLeft | src/agent_host/app/orchestrator/session.py:49 | the result is a suffix, starts with a non-space, and only spaces were removed |
| Text.StripRight | src/agent_host/app/orchestrator/session.py:49 | the result is a prefix, ends with a non-space, and only spaces were removed |
| Text.ParseIntToString | src/agent_host/app/orchestrator/tools.py:45 | `int(str(n)) == n` for every integer |
| Text.StrLeTotal | src/agent_host/app/agents/profiles.py:27 | any two strings are ordered one way or the other |
| Text.StrLeAntisymmetric | src/agent_host/app/agents/profiles.py:27 | two strings ordered both ways are equal |
| Text.StrLeTransitive | src/agent_host/app/agents/profiles.py:27 | the string order is transitive |
| History.BuiltCanonical | src/agent_host/app/orchestrator/history.py:18-24 | the five built fields are the record's canonical keys, in order, with a truthy id and timestamps |
| History.NormalizeIsCanonical | src/agent_host/app/orchestrator/history.py:15-28 | every record normalisation accepts is normalised |
| History.NormalizeFields | src/agent_host/app/orchestrator/history.py:15-28 | a raw record with role and content is accepted; each key holds its raw value, or the drawn default when missing or falsy |
| History.BuiltGet | src/agent_host/app/orchestrator/history.py:18-24 | the built fields bind exactly the five built keys, each with its value or default |
| History.AddMissingGet | src/agent_host/app/orchestrator/history.py:25-27 | after copying the extra fields a key holds the record's value if it had one, else the raw value |
| History.AddMissingPrefix | src/agent_host/app/orchestrator/history.py:25-27 | copying the extra fields keeps the built fields first, in order |
| History.AddMissingUnique | src/agent_host/app/orchestrator/history.py:25-27 | copying the extra fields binds no key twice |
| History.NormalizeCanonical | src/agent_host/app/orchestrator/history.py:15-28 | normalising a normalised record gives it back unchanged |
| History.Decode | src/agent_host/app/orchestrator/history.py:30-45 | reading a file yields at most one record per line |
| History.DecodeCanonical | src/agent_host/app/orchestrator/history.py:30-45 | everything read from a log is normalised, whatever the file holds |
| History.DecodeSnoc | src/agent_host/app/orchestrator/history.py:35-44 | reading one more line adds what that line yields after the earlier records |
| History.DecodeEncode | src/agent_host/app/orchestrator/history.py:71-76 | normalised records written and read back come back unchanged |
| History.DecodeAppend | src/agent_host/app/orchestrator/history.py:67-68 | appending a normalised record to a file adds exactly that record to what is read |
| History.TakeOkStopped | src/agent_host/app/orchestrator/history.py:74-76 | once a message is refused, `write_all` writes nothing after it |
| History.TakeOkRefused | src/agent_host/app/orchestrator/history.py:74-76 | when `write_all` stops early, the message it stopped at is refused |
| History.TakeOkAll | src/agent_host/app/orchestrator/history.py:74-76 | when every message is accepted, every normalised value is written in order |
| History.NormalizeAllIndex | src/agent_host/app/orchestrator/history.py:74-76 | the i-th record written is the normalisation of the i-th message |
| History.NormalizeAllRefused | src/agent_host/app/orchestrator/history.py:74-76 | the message `write_all` stops at is one normalisation refuses |
| History.RewriteThenRead | src/agent_host/app/orchestrator/history.py:71-76 | rewriting normalised records writes them as they are, and reading gives them back |
| History.Window | src/agent_host/app/orchestrator/history.py:51-55 | the window is a suffix: the last `2 * maxPairs` records when there are more, all records otherwise (with Python's negative-slice rule for a negative bound) |
| History.NewRecord | src/agent_host/app/orchestrator/history.py:57-66 | the appended record is normalised; it holds the role and content, one timestamp twice, and the given identifier or a fresh one |
| History.FirstWithIdSpec | src/agent_host/app/orchestrator/history.py:82-83 | the index found carries the identifier and no earlier record does; -1 means none does |
| History.PatchRecordGet | src/agent_host/app/orchestrator/history.py:84-88 | after a patch the identifier is unchanged, `updated_at` is the new time, and every other key holds the patch's value or its old one |
| History.PatchKeepsCanonical | src/agent_host/app/orchestrator/history.py:84-88 | a patch that keeps `created_at` truthy keeps a record normalised |
| History.PatchKeys | src/agent_host/app/orchestrator/history.py:84-88 | a patch keeps every key in its place and only appends new keys |
| History.UpdateFirstSpec | src/agent_host/app/orchestrator/history.py:81-93 | a record is updated exactly when one carries the identifier; only the first is patched and the others are unchanged |
| History.WithoutIdMembers | src/agent_host/app/orchestrator/history.py:98 | the filter keeps exactly the records without the identifier |
| History.WithoutIdConcat | src/agent_host/app/orchestrator/history.py:98 | the filter decides each record on its own (a list's filter is the concatenation of its parts' filters, a single record is kept exactly when it lacks the identifier), so the kept records keep their order and repeats |
| History.WithoutIdShrinks | src/agent_host/app/orchestrator/history.py:98-100 | the filter removes something exactly when some record carries the identifier |
| History.HistoryLog.constructor | src/agent_host/app/orchestrator/history.py:7-10 | a log starts without a file |
| History.HistoryLog.ReadRecords | src/agent_host/app/orchestrator/history.py:30-49 | the records read are the decoding of the file's lines; a missing file reads as none |
| History.HistoryLog.LoadHistory | src/agent_host/app/orchestrator/history.py:51-55 | the result is the window of the records read |
| History.HistoryLog.AppendTurn | src/agent_host/app/orchestrator/history.py:57-69 | the file gains exactly one line, the returned record, at its end |
| History.HistoryLog.WriteAll | src/agent_host/app/orchestrator/history.py:71-76 | the file holds the normalised messages up to the first refused one, which raises |
| History.HistoryLog.PatchFirst | src/agent_host/app/orchestrator/history.py:81-90 | the loop's result is the first-match update |
| History.HistoryLog.UpdateTurn | src/agent_host/app/orchestrator/history.py:78-93 | the file is rewritten with the patched records exactly when a record matched; the result says whether one did |
| History.HistoryLog.DeleteTurn | src/agent_host/app/orchestrator/history.py:95-102 | the file is rewritten without the matching records exactly when some record matched |
| History.HistoryLog.ClearHistory | src/agent_host/app/orchestrator/history.py:104-106 | the file exists and is empty |
| MemoryStore.NormalizeWhere | src/agent_host/app/memory/chroma_store.py:9-30 | a falsy filter becomes no filter, and nothing else does |
| MemoryStore.RequiredConjuncts | src/agent_host/app/memory/chroma_store.py:30 | splitting a filter into single-key filters loses and adds no binding |
| MemoryStore.NormalizeWhereSplits | src/agent_host/app/memory/chroma_store.py:26-30 | a filter on several plain keys becomes one `$and` whose conjuncts require exactly its bindings |
| MemoryStore.NormalizeWhereIdempotent | src/agent_host/app/memory/chroma_store.py:9-30 | normalising a normalised filter changes nothing |
| MemoryStore.FlatMetaKept | src/agent_host/app/memory/chroma_store.py:41-53 | the flat metadata binds no key twice, and keeps only allowed keys with primitive values from the input |
| MemoryStore.FlatMetaGet | src/agent_host/app/memory/chroma_store.py:41-53 | a key holds the input's value when the key is allowed and the value primitive, and is absent otherwise |
| MemoryStore.FlatMetaOfFlat | src/agent_host/app/memory/chroma_store.py:41-53 | metadata that is already flat comes back unchanged |
| MemoryStore.FlatMetaIdempotent | src/agent_host/app/memory/chroma_store.py:41-53 | flattening twice is flattening once |
| MemoryStore.FlatMetaOnly | src/agent_host/app/memory/chroma_store.py:41-53 | the loop computes the flat metadata |
| MemoryStore.PrepareItemSpec | src/agent_host/app/memory/chroma_store.py:58-71 | an item is accepted exactly when it is a dictionary with a text; its document is that text; its id is its own truthy id or a fresh one; its metadata has no "text", holds the id exactly when the id is primitive, and holds every other key's item value exactly when the key is allowed and the value primitive |
| MemoryStore.PreparedItem | src/agent_host/app/memory/chroma_store.py:58-73 | when the batch is accepted, each item was a dictionary with a text, stored with that text |
| MemoryStore.StoreOthers | src/agent_host/app/memory/chroma_store.py:72 | identifiers no item carries keep their entry, or their absence |
| MemoryStore.StoreLast | src/agent_host/app/memory/chroma_store.py:72 | an identifier carried by several items of one batch holds the last of them (last-wins is assumed of the database; see Left out) |
| MemoryStore.PatchedSpec | src/agent_host/app/memory/chroma_store.py:109-116 | the document becomes the patch's text if it has one; each metadata key holds the patch's value over the old one, flattened |
| MemoryStore.Answer | src/agent_host/app/memory/chroma_store.py:80-85 | the database answers at most `k` candidates, all stored in the collection |
| MemoryStore.QueryAfterDelete | src/agent_host/app/memory/chroma_store.py:75-102 | an identifier deleted is never returned by a later query |
| MemoryStore.ZipHits | src/agent_host/app/memory/chroma_store.py:86-98 | the loop zips the four parallel lists into hits; a shorter list raises IndexError |
| MemoryStore.MemoryStore.constructor | src/agent_host/app/memory/chroma_store.py:32-39 | no collection exists at first |
| MemoryStore.MemoryStore.Open | src/agent_host/app/memory/chroma_store.py:32-39 | opening creates a missing collection, empty, and changes nothing else |
| MemoryStore.MemoryStore.UpsertMemories | src/agent_host/app/memory/chroma_store.py:55-73 | an accepted batch is stored and its ids returned in item order; an item that raises leaves the collection as it was |
| MemoryStore.PatchFault | src/agent_host/app/memory/chroma_store.py:111-114 | a patch that is not a dictionary raises AttributeError exactly when it is a list without the item "text" or a string without the substring "text" (from `patch.items()`), and TypeError otherwise (from `in` on a scalar or from `patch["text"]`) |
| MemoryStore.MemoryStore.UpdateMemory | src/agent_host/app/memory/chroma_store.py:104-117 | an unknown id gives false and no write; a patch that is not a dictionary raises `PatchFault(patch)` with no write; otherwise the entry is patched and true returned |
| MemoryStore.MemoryStore.DeleteMemory | src/agent_host/app/memory/chroma_store.py:100-102 | the identifier's entry, if any, is gone and nothing else changes |
| MemoryStore.MemoryStore.QueryMemories | src/agent_host/app/memory/chroma_store.py:75-98 | the hits are the collection's entries the database ranks for the normalised filter; nothing is written |
| Profiles.StrItemsStrs | src/agent_host/app/models.py:51 | a list of strings dumped and read back is the same list |
| Profiles.DumpGet | src/agent_host/app/models.py:46-54 | each field of `model_dump()` holds the profile's value |
| Profiles.ValidateAgrees | src/agent_host/app/models.py:46-54 | data that binds every field as a profile's dump does validates to that profile |
| Profiles.ValidateDump | src/agent_host/app/models.py:46-54 | validating a dumped profile gives it back |
| Profiles.ValidateFields | src/agent_host/app/models.py:46-54 | a validated profile holds exactly the typed values of the data's fields |
| Profiles.SetTextValidates | src/agent_host/app/orchestrator/tools.py:121-143 | setting a free-text field of a dump to a string validates to the profile with that field set |
| Profiles.WriteThenRead | src/agent_host/app/agents/profiles.py:10-19 | writing a profile and reading it back gives the same profile |
| Profiles.MergeFields | src/agent_host/app/agents/profiles.py:47-49 | after a merge every field the patch binds holds the patch's value, the others the current one |
| Profiles.MergeUntouched | src/agent_host/app/agents/profiles.py:47-49 | a patch that binds no field leaves the profile as it was |
| Profiles.SortSpec | src/agent_host/app/agents/profiles.py:27 | `sorted` returns an ascending permutation of its input |
| Profiles.AscendingUnique | src/agent_host/app/agents/profiles.py:27 | two ascending arrangements of the same strings are the same list |
| Profiles.SortIgnoresOrder | src/agent_host/app/agents/profiles.py:27 | the directory's listing order does not matter |
| Profiles.WithProfile | src/agent_host/app/agents/profiles.py:27-30 | the names kept are exactly those listed that have a profile file |
| Profiles.WithProfileAscending | src/agent_host/app/agents/profiles.py:27-30 | the names kept from a sorted listing stay sorted |
| Profiles.ListFromSpec | src/agent_host/app/agents/profiles.py:22-31 | the profiles listed are those of the agents with a file, in sorted order; an unreadable one raises |
| Profiles.ProfileDisk.constructor | src/agent_host/app/agents/profiles.py:22-24 | no profile file exists at first |
| Profiles.ProfileDisk.Write | src/agent_host/app/agents/profiles.py:15-19 | the agent's file holds the data and nothing else changes |
| Profiles.ProfileDisk.WriteProfile | src/agent_host/app/agents/profiles.py:15-19 | the profile's own file holds its dump, which reads back as the profile |
| Profiles.ProfileDisk.ListProfiles | src/agent_host/app/agents/profiles.py:22-31 | the loop computes the listing |
| Profiles.ProfileDisk.CreateProfile | src/agent_host/app/agents/profiles.py:34-39 | an existing profile file raises FileExistsError and is not overwritten; otherwise the profile is written |
| Profiles.ProfileDisk.UpdateProfile | src/agent_host/app/agents/profiles.py:42-51 | a read failure or a patch changing `agent_id` raises without a write; otherwise the merged profile is written and returned |
| Profiles.ProfileDisk.DeleteProfile | src/agent_host/app/agents/profiles.py:54-59 | a missing profile raises FileNotFoundError; otherwise exactly its file is removed |
| Tools.NamesLookup | src/agent_host/app/orchestrator/tools.py:14-18 | a name is registered (`name in TOOLS`) exactly when looking it up finds a spec, and the spec found carries that name |
| Tools.InstallLookup | src/agent_host/app/orchestrator/tools.py:16-18 | after a registration its name finds the new spec and every other name what it found before |
| Tools.InstallNames | src/agent_host/app/orchestrator/tools.py:16-18 | a registration keeps the name order and appends a new name |
| Tools.InstallFresh | src/agent_host/app/orchestrator/tools.py:16-18 | registering a new name appends its spec |
| Tools.BuiltinNames | src/agent_host/app/orchestrator/tools.py:62-230 | the module registers nine distinct names, in this order, each with its own handler |
| Tools.BuiltinStep | src/agent_host/app/orchestrator/tools.py:62-230 | each registration of the module adds a new name |
| Tools.Registry.constructor | src/agent_host/app/orchestrator/tools.py:14-230 | the registry as the module's registrations leave it |
| Tools.Registry.Register | src/agent_host/app/orchestrator/tools.py:16-18 | the last registration of a name wins, every other name is unaffected, and the tool is returned |
| Tools.Registry.ListToolsForPrompt | src/agent_host/app/orchestrator/tools.py:20-29 | one entry per registered tool, in order, with its name, description and schema |
| Tools.PayloadGet | src/agent_host/app/orchestrator/tools.py:37 | `payload.get(k, d)` works only on a dictionary, giving the bound value or the default |
| Tools.PayloadItem | src/agent_host/app/orchestrator/tools.py:38 | `payload[k]` raises TypeError on a non-dictionary and KeyError for a missing key |
| Tools.PyInt | src/agent_host/app/orchestrator/tools.py:45 | `int(v)` keeps an integer, reads a boolean as 1 or 0, truncates a float toward zero, parses a string exactly when it is a signed run of digits and then gives the value `ParseInt` reads (the inverse of `str`, by `Text.ParseIntToString`), and raises TypeError on null, list and dictionary |
| Tools.PyIter | src/agent_host/app/memory/chroma_store.py:58 | iteration works on lists, dictionaries and strings only, and a list yields its items |
| Tools.MissingRequiredKey | src/agent_host/app/orchestrator/tools.py:36-205 | a payload without a handler's required key raises KeyError for it and changes no store |
| Tools.NotADictionary | src/agent_host/app/orchestrator/tools.py:36-205 | a payload that is not a dictionary raises and changes no store |
| Tools.InsertReply | src/agent_host/app/orchestrator/tools.py:36-40 | `memory.insert` answers ok with the store's ids |
| Tools.PutElsewhere | src/agent_host/app/orchestrator/tools.py:42-47 | binding one key of a payload does not change what the handlers read under another key |
| Tools.RetrieveArgsIgnoreWhere | src/agent_host/app/orchestrator/tools.py:42-46 | the arguments `memory.retrieve` hands to the store do not depend on `where` |
| Tools.RetrieveIgnoresWhere | src/agent_host/app/orchestrator/tools.py:42-47 | `memory.retrieve` gives the same answer with or without a `where` |
| Tools.RetrieveDefaults | src/agent_host/app/orchestrator/tools.py:42-47 | with only a query, `memory.retrieve` asks the default agent's collection for 6 hits without a filter |
| Tools.UpdateReply | src/agent_host/app/orchestrator/tools.py:49-54 | `memory.update` answers with the store's boolean |
| Tools.DeleteReply | src/agent_host/app/orchestrator/tools.py:56-60 | `memory.delete` answers ok, and the identifier is gone |
| Tools.SetFieldWrites | src/agent_host/app/orchestrator/tools.py:121-143 | setting a profile field changes that dumped field alone, in that agent's file alone |
| Tools.SetFieldReadBack | src/agent_host/app/orchestrator/tools.py:121-143 | a new string in a free-text field is what the agent's profile then reads |
| Tools.ImpressionAbsent | src/agent_host/app/orchestrator/tools.py:121-127 | without `impression_of_user` the profile is written back as read |
| Tools.Stores.constructor | src/agent_host/app/orchestrator/tools.py:33-34 | the handlers work on the given memory store and profile files |
| Tools.Stores.Call | src/agent_host/app/orchestrator/tools.py:36-205 | calling a handler yields its result and its stores afterwards |
| Tools.Stores.MemInsertHandler | src/agent_host/app/orchestrator/tools.py:36-40 | `_mem_insert` over the store |
| Tools.Stores.MemRetrieveHandler | src/agent_host/app/orchestrator/tools.py:42-47 | `_mem_retrieve` over the store |
| Tools.Stores.MemUpdateHandler | src/agent_host/app/orchestrator/tools.py:49-54 | `_mem_update` over the store; a patch that is not a dictionary raises the exception `MemoryStore.PatchFault` names |
| Tools.Stores.MemDeleteHandler | src/agent_host/app/orchestrator/tools.py:56-60 | `_mem_delete` over the store |
| Tools.Stores.SetField | src/agent_host/app/orchestrator/tools.py:121-143 | read the agent's profile, set one field, write it back |
| Tools.Stores.ImpressionHandler | src/agent_host/app/orchestrator/tools.py:121-127 | `_agent_update_impression` over the profile files |
| Tools.Stores.RequiredFieldHandler | src/agent_host/app/orchestrator/tools.py:129-143 | `_agent_update_mood` and `_agent_update_mem_summary` over the profile files |
| Session.HeaderShowsDoubledBrace | src/agent_host/app/orchestrator/session.py:14-21 | the tool header as written shows the model a call opening with `{{`, which is not the object the parser expects |
| Session.HeaderShowsObject | src/agent_host/app/orchestrator/session.py:14-21 | the corrected header shows a call opening with `{"name"` |
| Session.NotesNeverPresent | src/agent_host/app/orchestrator/session.py:23-30 | the as-written prompt raises KeyError("notes") for every dumped profile; the corrected one succeeds |
| Session.EntryLine | src/agent_host/app/orchestrator/session.py:32-33 | the line read from a listing entry is the tool's own line |
| Session.Cut | src/agent_host/app/orchestrator/session.py:46-47 | a fragment has no cut exactly when it has no `}` |
| Session.CutAtLastBrace | src/agent_host/app/orchestrator/session.py:46-49 | a fragment is cut after its last `}`, so nested braces are kept and a brace-free tail dropped |
| Session.Resolve | src/agent_host/app/orchestrator/session.py:47-53 | a fragment that asks for a call names a registered tool and its handler |
| Session.NoMarkerNoCalls | src/agent_host/app/orchestrator/session.py:37-58 | text without the marker produces nothing and calls no handler |
| Session.StopIgnoresRest | src/agent_host/app/orchestrator/session.py:42-56 | once a fragment fails, the fragments after it are never processed |
| Session.RunFromReqs | src/agent_host/app/orchestrator/session.py:42-56 | reading every fragment first and then running the requests gives the same run, since reading a fragment changes nothing |
| Session.OutputsRegistered | src/agent_host/app/orchestrator/session.py:44-54 | every output names a registered tool, and there is at most one output per fragment |
| Session.UnknownSkipped | src/agent_host/app/orchestrator/session.py:50-52 | a fragment naming no registered tool is skipped |
| Session.KnownDispatched | src/agent_host/app/orchestrator/session.py:50-53 | a fragment naming a registered tool calls that tool's handler on the payload, `{}` when absent |
| Session.NamelessBroken | src/agent_host/app/orchestrator/session.py:49-50 | a call that is not an object with a name fails |
| Session.EventTextTokens | src/agent_host/app/orchestrator/session.py:76-80 | the token events' text is the concatenation of the tokens |
| Session.WrittenSnoc | src/agent_host/app/orchestrator/session.py:72-103 | appending one more turn appends one line |
| Session.TurnRecords | src/agent_host/app/orchestrator/session.py:70-104 | the records of a turn: the user's text unless `<none>`, the primary reply, then with outputs one tool record each and the follow-up, whose text is the model's reply to the prompt, the primary reply and the tool messages (`Session.FollowUpText`) |
| Session.TurnEvents | src/agent_host/app/orchestrator/session.py:76-131 | the events of a turn: the primary tokens, one tool event per output and the follow-up reply `Session.FollowUpText` as one token, then done |
| Session.NoToolsNoEffect | src/agent_host/app/orchestrator/session.py:90 | without tools allowed, no handler runs and the stores are untouched |
| Session.PromptWindow | src/agent_host/app/orchestrator/session.py:65-69 | the primary generation sees at most `2 * MAX_TURNS` history records, the latest ones |
| Session.Host.constructor | src/agent_host/app/orchestrator/session.py:4-6 | the host holds the registry, the handlers' stores and the agent's log, and dispatches a call to the module's handlers (`Tools.Effect`) |
| Session.Host.BuildSystemPrompt | src/agent_host/app/orchestrator/session.py:23-34 | the prompt built over the tool listing is the corrected system prompt |
| Session.Host.RunStep | src/agent_host/app/orchestrator/session.py:45-54 | one fragment: fails, is skipped, or calls the handler and yields `(name, str(result))` |
| Session.Host.Advance | src/agent_host/app/orchestrator/session.py:44-54 | one pass of the loop takes the run at fragment `i` to the run at `i + 1`, or ends it when the fragment fails |
| Session.Host.RunPieces | src/agent_host/app/orchestrator/session.py:42-56 | the loop's outputs and the stores afterwards are those of running the read fragments in order until one fails |
| Session.Host.RunTool | src/agent_host/app/orchestrator/session.py:37-58 | the outputs and the stores afterwards are those of running the fragments in order until one fails |
| Session.Host.Record | src/agent_host/app/orchestrator/session.py:72 | one `append_turn` for the turn's next record |
| Session.Host.ReportTools | src/agent_host/app/orchestrator/session.py:93-96 | per output, in order, a tool record, a tool message and a tool event |
| Session.Host.FollowUpRound | src/agent_host/app/orchestrator/session.py:92-105 | with outputs, their reports and the follow-up reply; without, nothing |
| Session.Host.Respond | src/agent_host/app/orchestrator/session.py:67-131 | the events, records and stores of a turn once the prompt and history are known |
| Session.Host.RunTurn | src/agent_host/app/orchestrator/session.py:60-131 | a failing system prompt raises before any change; otherwise the turn over the history window, written to the log; the system prompt is the corrected one (`Session.Host.BuildSystemPrompt`, see "## Findings"), since the prompt as written raises KeyError("notes") for every profile the chat endpoint passes and shows the tool header's doubled braces |
| DuckDuckGo.Accept | src/agent_host/app/clients/duckduckgo.py:78-99 | a block is kept exactly when it has a title anchor whose link is not an advertisement |
| DuckDuckGo.AcceptedPrefix | src/agent_host/app/clients/duckduckgo.py:77-108 | the blocks accepted from a prefix of the page are a prefix of those accepted from the whole page |
| DuckDuckGo.CollectResults | src/agent_host/app/clients/duckduckgo.py:76-113 | the results are the first `max(max_results, 1)` accepted blocks, numbered from 1 |
| DuckDuckGo.ListingEntries | src/agent_host/app/clients/duckduckgo.py:123-129 | the four lines per result, joined, read as one entry per result |
| DuckDuckGo.FormatJoin | src/agent_host/app/clients/duckduckgo.py:123-129 | the heading line then the results' lines read as the heading, a blank line and the entries |
| DuckDuckGo.FormatResultsForLlm | src/agent_host/app/clients/duckduckgo.py:115-129 | no results give the fixed message; otherwise the heading with the count, a blank line and the entries |
| DuckDuckGo.Truncate | src/agent_host/app/clients/duckduckgo.py:163-164 | the first 8000 characters always survive and the result is at most 8000 plus the mark long; shorter text is unchanged, longer text ends with the mark right after its 8000th character |
| DuckDuckGo.TruncateIdempotent | src/agent_host/app/clients/duckduckgo.py:163-164 | cutting text that was already cut changes nothing |
| DuckDuckGo.Prune | src/agent_host/app/clients/duckduckgo.py:31-32 | the queue loses a prefix of entries older than the window, and its new head is within it |
| DuckDuckGo.PruneWithinWindow | src/agent_host/app/clients/duckduckgo.py:29-32 | in a time-ordered queue every entry kept is within the window |
| DuckDuckGo.PruneAscending | src/agent_host/app/clients/duckduckgo.py:31-32 | pruning keeps a queue in time order and keeps its newest entry |
| DuckDuckGo.AcquireKeepsOrder | src/agent_host/app/clients/duckduckgo.py:28-37 | a request stamped no earlier than the newest keeps the queue in time order |
| DuckDuckGo.RateLimiter.constructor | src/agent_host/app/clients/duckduckgo.py:24-26 | the limit is kept and the queue starts empty |
| DuckDuckGo.RateLimiter.Acquire | src/agent_host/app/clients/duckduckgo.py:28-37 | the queue is pruned; a full window waits until its oldest entry leaves it; the new stamp is queued; a limit of zero or less on an empty window raises IndexError |
| DuckDuckGo.Client.constructor | src/agent_host/app/clients/duckduckgo.py:50-52 | two distinct limiters: 30 searches and 20 fetches a minute |

## Left out

- HTTP: the search, fetch and chat requests are not modelled. The
  language model and the web search service are parameters.
- HTML parsing with BeautifulSoup, and `fetch_content`'s whitespace
  clean-up: a search result block arrives already parsed, and only the
  final 8000-character cut is modelled.
- The percent-decoding of a redirect target (`httpx.URL(...).decode()`)
  is a parameter of `DuckDuckGo.Accept`.
- Accept: the decoding of a redirect target is a total function. In
  src/agent_host/app/clients/duckduckgo.py:96 it sits outside the `try`,
  so an exception it raised would end the search; the model does not
  capture a search that fails there.
- CollectResults: as for `Accept`, the redirect decoding is assumed never
  to raise, so collecting the results always succeeds.
- `time.sleep` and `time.monotonic`: `RateLimiter.Acquire` returns the
  time it would sleep and takes the clock before and after the sleep as
  arguments.
- The `RuntimeError` wrapping of HTTP exceptions in `search` and
  `fetch_content`.
- `print` calls, logging, and the commented-out post-turn maintenance in
  `session.py`.
- RunTurn: the language model (`Session.Llm`) never fails. In
  src/agent_host/app/clients/llamacpp.py:66-71 a chat request raises on
  an HTTP error or an unexpected answer; `run_turn` would then stop
  part-way, with the user, the assistant and the tool records already
  appended and no follow-up record and no `done` event. The model does
  not give such a partial turn, and neither do `Respond` and
  `FollowUpRound`, which share the assumption.
- Concurrency: `run_turn` is an async generator. The model gives its
  events as one list, in order, and the history writes in their order.
  The interleaving of a write with the consumer reading an event is not
  modelled.
- Floating point: JSON floats are exact reals, so rounding and
  precision are not modelled.
- `Text.ParseInt` accepts optional sign and ASCII digits with
  surrounding whitespace. It does not model underscores or non-ASCII
  digits, which Python's `int()` also accepts.
- Pydantic validation: `Profiles.Validate` accepts exact JSON types
  only. Pydantic v2 does not turn a number into a string, and its lax
  conversions (bytes to a string, a tuple or a set to a list) have no
  JSON input, so nothing is lost for the values the model admits.
  Pydantic's error details are kept only as `ValidationError`.
- The vector database: embedding, ranking, the filter language and its
  validation are a `Ranker` parameter. What `col.upsert`, `col.get`,
  `col.update`, `col.delete` and `col.query` do is not defined by
  `chroma_store.py`; the lines below name the behaviour the model
  assumes of the database.
- StoreLast: that an identifier repeated within one batch keeps the
  last item is an assumption about the database, which may instead
  reject such a batch.
- Store: an upsert on an existing identifier replaces its document and
  its metadata whole, and any JSON value is accepted as an identifier or
  a document. The database's own validation (string identifiers, string
  documents, metadata types) is not modelled.
- UpsertMemories: an upsert never raises once every item was prepared;
  a rejection by the database is not modelled.
- Answer: a query asks the database for `k` results and gets at most `k`
  of the collection's entries; a `k` of zero or less is assumed to give
  an empty answer rather than raise.
- QueryMemories: the query never raises, whatever the filter or `k`,
  and the database's answer always holds parallel lists of one length,
  so the query as modelled always succeeds. The `IndexError` of lists of
  different lengths is modelled by `ZipHits` alone.
- Paths: `os.path.join`, directory creation, and the agent directory's
  `rmdir` in `delete_profile` are not modelled. Files are maps keyed by
  agent, and directories exist as needed.
- `json.loads` and `json.dumps` on file lines are abstracted. A line is
  blank, unparsable, or a parsed value. A record written is read back as
  the same parsed value.
- DecodeAppend: the log is assumed to end in a newline. A file is a list
  of whole lines, so a last line without its `\n` (left by a hand edit or
  an interrupted write) cannot be represented. In the source,
  `append_turn`'s `"a"` mode would join the new record to that line, and
  both records would be lost to `_read_records` as one unparsable line.
- AppendTurn: likewise assumes the file ends in a newline; the new record
  always becomes a line of its own.
- Handler callables: `ToolSpec.handler` is one of the module's nine
  built-in handlers. An arbitrary Python callable is not modelled.
- The DuckDuckGo tools' HTTP answer is the `Web` parameter.
- The FastAPI endpoints of `main.py` are not part of this model, except
  for what the chat endpoint hands to `run_turn`: a dumped profile.

## Findings

| source | as written | input that shows it | evidently intended | confidence | as-written member | corrected member |
|---|---|---|---|---|---|---|
| src/agent_host/app/orchestrator/session.py:27 | `build_system_prompt` reads `profile["notes"]`, but the chat endpoint (src/agent_host/app/main.py:31-35) passes `AgentProfile.model_dump()`, which has no `notes` field | any profile sent to `/chat`, e.g. one whose eight fields are all empty strings or lists | the notes are optional and render empty when absent | not executed | Session.NotesNeverPresent | Session.Host.BuildSystemPrompt |
| src/agent_host/app/orchestrator/session.py:16 | `TOOL_HEADER` is never passed to `format`, so its doubled braces reach the model literally: the example call reads `TOOL_CALL: {{"name":...}}` | any system prompt | the example shows a JSON object, `TOOL_CALL: {"name":...}` | not executed | Session.HeaderShowsDoubledBrace | Session.HeaderShowsObject |
