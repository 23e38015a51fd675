/** The agent profiles of `profiles.py`: one JSON file per agent, at
    `<root>/<agent_id>/profile.json`, holding the dumped fields of an
    `AgentProfile`. */
module Profiles {
  import opened Wrappers
  import opened Json
  import opened Text

  /** `AgentProfile` once validated. */
  datatype AgentProfile = AgentProfile(
    agentId: string,
    character: string,
    impressionOfUser: string,
    currentMood: string,
    capabilities: seq<string>,
    memoryPath: string,
    memorySummary: string,
    toolInstructions: string)

  /** The profile's fields in declaration order, as `model_dump` emits them. */
  const FieldNames: seq<string> := ["agent_id", "character", "impression_of_user", "current_mood",
                                    "capabilities", "memory_path", "memory_summary", "tool_instructions"]

  function Strs(ss: seq<string>): seq<Json> {
    seq(|ss|, i requires 0 <= i < |ss| => JStr(ss[i]))
  }

  /** `model_dump()`. */
  function Dump(p: AgentProfile): Dict {
    [ ("agent_id", JStr(p.agentId)), ("character", JStr(p.character)),
      ("impression_of_user", JStr(p.impressionOfUser)), ("current_mood", JStr(p.currentMood)),
      ("capabilities", JArr(Strs(p.capabilities))), ("memory_path", JStr(p.memoryPath)),
      ("memory_summary", JStr(p.memorySummary)), ("tool_instructions", JStr(p.toolInstructions)) ]
  }

  /** A string field: present and a string. */
  function StrField(data: Dict, k: string): Result<string> {
    match Get(data, k)
    case Some(JStr(s)) => Ok(s)
    case _ => Err(ValidationError)
  }

  /** The strings of a list of strings. */
  function StrItems(items: seq<Json>): (r: Option<seq<string>>)
    ensures r.Some? ==> |r.value| == |items|
    decreases |items|
  {
    if |items| == 0 then Some([])
    else if !items[0].JStr? then None
    else match StrItems(items[1..])
      case None => None
      case Some(rest) => Some([items[0].s] + rest)
  }

  /** A list-of-strings field. */
  function ListField(data: Dict, k: string): Result<seq<string>> {
    match Get(data, k)
    case Some(JArr(items)) =>
      (match StrItems(items) case Some(ss) => Ok(ss) case None => Err(ValidationError))
    case _ => Err(ValidationError)
  }

  /** `AgentProfile(**data)`: every field must be present with its type;
      other keys are ignored. */
  function Validate(data: Dict): Result<AgentProfile> {
    var agentId :- StrField(data, "agent_id");
    var character :- StrField(data, "character");
    var impression :- StrField(data, "impression_of_user");
    var mood :- StrField(data, "current_mood");
    var capabilities :- ListField(data, "capabilities");
    var memoryPath :- StrField(data, "memory_path");
    var summary :- StrField(data, "memory_summary");
    var instructions :- StrField(data, "tool_instructions");
    Ok(AgentProfile(agentId, character, impression, mood, capabilities, memoryPath, summary, instructions))
  }

  lemma {:induction false} StrItemsStrs(ss: seq<string>)
    ensures StrItems(Strs(ss)) == Some(ss)
    decreases |ss|
  {
    if |ss| > 0 {
      StrItemsStrs(ss[1..]);
      assert Strs(ss)[1..] == Strs(ss[1..]);
      assert [ss[0]] + ss[1..] == ss;
    }
  }

  /** A list whose items are all strings is the list of its strings. */
  lemma {:induction false} StrItemsInverse(items: seq<Json>)
    requires StrItems(items).Some?
    ensures Strs(StrItems(items).value) == items
    decreases |items|
  {
    if |items| > 0 {
      StrItemsInverse(items[1..]);
      var ss := StrItems(items).value;
      assert ss[1..] == StrItems(items[1..]).value;
      assert Strs(ss)[1..] == Strs(ss[1..]);
      assert items == [items[0]] + items[1..];
    }
  }

  /** Each field of the dump holds the profile's value. */
  lemma DumpGet(p: AgentProfile)
    ensures Get(Dump(p), "agent_id") == Some(JStr(p.agentId))
    ensures Get(Dump(p), "character") == Some(JStr(p.character))
    ensures Get(Dump(p), "impression_of_user") == Some(JStr(p.impressionOfUser))
    ensures Get(Dump(p), "current_mood") == Some(JStr(p.currentMood))
    ensures Get(Dump(p), "capabilities") == Some(JArr(Strs(p.capabilities)))
    ensures Get(Dump(p), "memory_path") == Some(JStr(p.memoryPath))
    ensures Get(Dump(p), "memory_summary") == Some(JStr(p.memorySummary))
    ensures Get(Dump(p), "tool_instructions") == Some(JStr(p.toolInstructions))
  {
    var d := Dump(p);
    GetFirst(d, 0, "agent_id");
    GetFirst(d, 1, "character");
    GetFirst(d, 2, "impression_of_user");
    GetFirst(d, 3, "current_mood");
    GetFirst(d, 4, "capabilities");
    GetFirst(d, 5, "memory_path");
    GetFirst(d, 6, "memory_summary");
    GetFirst(d, 7, "tool_instructions");
  }

  /** The data binds every field as the dump of `p` does. */
  predicate Agrees(data: Dict, p: AgentProfile) {
    forall k :: k in FieldNames ==> Get(data, k) == Get(Dump(p), k)
  }

  /** Data that agrees with a profile's dump on every field validates to
      that profile, whatever other keys it holds. */
  lemma ValidateAgrees(data: Dict, p: AgentProfile)
    requires Agrees(data, p)
    ensures Validate(data) == Ok(p)
  {
    DumpGet(p);
    StrItemsStrs(p.capabilities);
    assert Get(data, FieldNames[0]) == Get(Dump(p), FieldNames[0]);
    assert StrField(data, "agent_id") == Ok(p.agentId);
    assert Get(data, FieldNames[1]) == Get(Dump(p), FieldNames[1]);
    assert StrField(data, "character") == Ok(p.character);
    assert Get(data, FieldNames[2]) == Get(Dump(p), FieldNames[2]);
    assert StrField(data, "impression_of_user") == Ok(p.impressionOfUser);
    assert Get(data, FieldNames[3]) == Get(Dump(p), FieldNames[3]);
    assert StrField(data, "current_mood") == Ok(p.currentMood);
    assert Get(data, FieldNames[4]) == Get(Dump(p), FieldNames[4]);
    assert ListField(data, "capabilities") == Ok(p.capabilities);
    assert Get(data, FieldNames[5]) == Get(Dump(p), FieldNames[5]);
    assert StrField(data, "memory_path") == Ok(p.memoryPath);
    assert Get(data, FieldNames[6]) == Get(Dump(p), FieldNames[6]);
    assert StrField(data, "memory_summary") == Ok(p.memorySummary);
    assert Get(data, FieldNames[7]) == Get(Dump(p), FieldNames[7]);
    assert StrField(data, "tool_instructions") == Ok(p.toolInstructions);
  }

  /** Validating a dumped profile gives it back. */
  lemma ValidateDump(p: AgentProfile)
    ensures Validate(Dump(p)) == Ok(p)
  {
    ValidateAgrees(Dump(p), p);
  }

  /** A validated profile holds exactly the typed values of the data's
      fields, so its dump agrees with the data on every field. */
  lemma ValidateFields(data: Dict)
    requires Validate(data).Ok?
    ensures Agrees(data, Validate(data).value)
  {
    var p := Validate(data).value;
    DumpGet(p);
    StrItemsInverse(Get(data, "capabilities").value.items);
  }

  /** The free-text fields the agent's own tools may set. */
  function SetText(p: AgentProfile, field: string, s: string): AgentProfile {
    if field == "impression_of_user" then p.(impressionOfUser := s)
    else if field == "current_mood" then p.(currentMood := s)
    else if field == "memory_summary" then p.(memorySummary := s)
    else p
  }

  /** Setting a free-text field of the dump to a string and validating gives
      the profile with that field set. */
  lemma SetTextValidates(p: AgentProfile, field: string, s: string)
    requires field == "impression_of_user" || field == "current_mood" || field == "memory_summary"
    ensures Validate(Put(Dump(p), field, JStr(s))) == Ok(SetText(p, field, s))
  {
    var q := SetText(p, field, s);
    var data := Put(Dump(p), field, JStr(s));
    DumpGet(p);
    DumpGet(q);
    forall k | k in FieldNames ensures Get(data, k) == Get(Dump(q), k) {
      PutGet(Dump(p), field, JStr(s), k);
    }
    ValidateAgrees(data, q);
  }

  /** The content of a profile file: a JSON value, or text `json.load`
      rejects. */
  datatype ProfileFile = Garbled | Holds(content: Json)

  /** `read_profile` on the profile files by agent directory: a missing
      file, a file that does not parse, a value that is not an object and
      an object that does not validate all raise. */
  function ReadFrom(files: map<string, ProfileFile>, agentId: string): Result<AgentProfile> {
    if agentId !in files then Err(FileNotFoundError)
    else match files[agentId]
      case Garbled => Err(ValueError("invalid JSON"))
      case Holds(j) => if j.JObj? then Validate(j.fields) else Err(TypeError)
  }

  /** Writing a profile and reading it back gives the same profile. */
  lemma WriteThenRead(files: map<string, ProfileFile>, p: AgentProfile)
    ensures ReadFrom(files[p.agentId := Holds(JObj(Dump(p)))], p.agentId) == Ok(p)
  {
    ValidateDump(p);
  }

  /** `update_profile`'s merge: the dumped profile updated with the patch,
      validated again. */
  function Merge(current: AgentProfile, patch: Dict): Result<AgentProfile> {
    Validate(Update(Dump(current), patch))
  }

  /** After a merge every field the patch binds holds the patch's value and
      every other field is unchanged. */
  lemma MergeFields(current: AgentProfile, patch: Dict, k: string)
    requires Unique(patch) && Merge(current, patch).Ok? && k in FieldNames
    ensures Get(Dump(Merge(current, patch).value), k) ==
      if Has(patch, k) then Get(patch, k) else Get(Dump(current), k)
  {
    ValidateFields(Update(Dump(current), patch));
    UpdateGet(Dump(current), patch, k);
  }

  /** A patch that binds no field leaves the profile as it was. */
  lemma MergeUntouched(current: AgentProfile, patch: Dict)
    requires Unique(patch) && forall k :: k in FieldNames ==> !Has(patch, k)
    ensures Merge(current, patch) == Ok(current)
  {
    var d := Dump(current);
    forall k | k in FieldNames ensures Get(Update(d, patch), k) == Get(d, k) {
      UpdateGet(d, patch, k);
    }
    ValidateAgrees(Update(d, patch), current);
  }

  // ----- Listing -----

  /** Strings in ascending order. */
  predicate Ascending(s: seq<string>) {
    forall i, j :: 0 <= i < j < |s| ==> StrLe(s[i], s[j])
  }

  function Insert(x: string, s: seq<string>): (r: seq<string>)
    decreases |s|
  {
    if |s| == 0 then [x]
    else if StrLe(x, s[0]) then [x] + s
    else [s[0]] + Insert(x, s[1..])
  }

  /** `sorted`, on strings. */
  function Sort(s: seq<string>): seq<string>
    decreases |s|
  {
    if |s| == 0 then [] else Insert(s[0], Sort(s[1..]))
  }

  /** Inserting adds exactly one string. */
  lemma {:induction false} InsertMultiset(x: string, s: seq<string>)
    ensures multiset(Insert(x, s)) == multiset(s) + multiset{x}
    decreases |s|
  {
    if |s| > 0 {
      assert s == [s[0]] + s[1..];
      if !StrLe(x, s[0]) {
        InsertMultiset(x, s[1..]);
      }
    }
  }

  /** Inserting into an ascending list keeps it ascending. */
  lemma {:induction false} InsertAscending(x: string, s: seq<string>)
    requires Ascending(s)
    ensures Ascending(Insert(x, s))
    decreases |s|
  {
    if |s| > 0 {
      if StrLe(x, s[0]) {
        forall j | 1 < j < |s| + 1 ensures StrLe(x, ([x] + s)[j]) {
          StrLeTransitive(x, s[0], s[j - 1]);
        }
      } else {
        StrLeTotal(x, s[0]);
        assert Ascending(s[1..]);
        InsertAscending(x, s[1..]);
        var t := Insert(x, s[1..]);
        InsertMultiset(x, s[1..]);
        forall j | 0 <= j < |t| ensures StrLe(s[0], t[j]) {
          assert t[j] in multiset(t);
          if t[j] != x {
            assert t[j] in s[1..];
            HeadLeast(s, t[j]);
          }
        }
      }
    }
  }

  /** `sorted` returns its input in ascending order. */
  lemma {:induction false} SortSpec(s: seq<string>)
    ensures Ascending(Sort(s)) && multiset(Sort(s)) == multiset(s)
    decreases |s|
  {
    if |s| > 0 {
      SortSpec(s[1..]);
      InsertAscending(s[0], Sort(s[1..]));
      InsertMultiset(s[0], Sort(s[1..]));
      assert s == [s[0]] + s[1..];
    }
  }

  /** Every string of an ascending list is at least its head. */
  lemma HeadLeast(s: seq<string>, x: string)
    requires Ascending(s) && x in s
    ensures StrLe(s[0], x)
  {
    var i :| 0 <= i < |s| && s[i] == x;
    if i == 0 {
      StrLeReflexive(x);
    }
  }

  /** Two ascending arrangements of the same strings are the same list. */
  lemma {:induction false} AscendingUnique(a: seq<string>, b: seq<string>)
    requires Ascending(a) && Ascending(b) && multiset(a) == multiset(b)
    ensures a == b
    decreases |a|
  {
    if |a| > 0 {
      assert a == [a[0]] + a[1..];
      assert b == [b[0]] + b[1..] by {
        assert |b| == |multiset(b)| == |multiset(a)| == |a|;
      }
      assert multiset(a) == multiset{a[0]} + multiset(a[1..]);
      assert multiset(b) == multiset{b[0]} + multiset(b[1..]);
      if a[0] != b[0] {
        assert a[0] in multiset(b) && b[0] in multiset(a);
        HeadLeast(a, b[0]);
        HeadLeast(b, a[0]);
        StrLeAntisymmetric(a[0], b[0]);
      }
      assert multiset(a[1..]) == multiset(a) - multiset{a[0]};
      assert multiset(b[1..]) == multiset(b) - multiset{b[0]};
      assert Ascending(a[1..]) && Ascending(b[1..]);
      AscendingUnique(a[1..], b[1..]);
    }
  }

  /** The listing order of the directory does not matter. */
  lemma SortIgnoresOrder(a: seq<string>, b: seq<string>)
    requires multiset(a) == multiset(b)
    ensures Sort(a) == Sort(b)
  {
    SortSpec(a);
    SortSpec(b);
    AscendingUnique(Sort(a), Sort(b));
  }

  /** The names of the listing that have a profile file, in order. */
  function WithProfile(files: map<string, ProfileFile>, names: seq<string>): (r: seq<string>)
    ensures forall n :: n in r <==> n in names && n in files
    decreases |names|
  {
    if |names| == 0 then []
    else if names[0] in files then [names[0]] + WithProfile(files, names[1..])
    else WithProfile(files, names[1..])
  }

  lemma {:induction false} WithProfileAscending(files: map<string, ProfileFile>, names: seq<string>)
    requires Ascending(names)
    ensures Ascending(WithProfile(files, names))
    decreases |names|
  {
    if |names| > 0 {
      assert Ascending(names[1..]);
      WithProfileAscending(files, names[1..]);
      var t := WithProfile(files, names[1..]);
      forall j | 0 <= j < |t| ensures StrLe(names[0], t[j]) {
        assert t[j] in t;
        var m :| 0 <= m < |names[1..]| && names[1..][m] == t[j];
        assert names[m + 1] == t[j];
      }
    }
  }

  lemma WithProfileStep(files: map<string, ProfileFile>, names: seq<string>, i: nat)
    requires i < |names|
    ensures WithProfile(files, names[i..]) ==
      (if names[i] in files then [names[i]] else []) + WithProfile(files, names[i + 1..])
  {
    assert names[i..][1..] == names[i + 1..];
  }

  /** `list_profiles`: the profile of every listed agent that has a file, in
      sorted order; a profile that cannot be read raises. */
  function ListFrom(files: map<string, ProfileFile>, listing: seq<string>): Result<seq<AgentProfile>> {
    var names := WithProfile(files, Sort(listing));
    AllOk(seq(|names|, i requires 0 <= i < |names| => ReadFrom(files, names[i])))
  }

  /** When the listing shows every agent directory, the agents listed are
      exactly those with a profile file, in ascending order, and each entry
      is what reading that agent's profile gives. */
  lemma ListFromSpec(files: map<string, ProfileFile>, listing: seq<string>)
    requires forall n :: n in files ==> n in listing
    requires ListFrom(files, listing).Ok?
    ensures var names := WithProfile(files, Sort(listing));
      && Ascending(names)
      && (forall n :: n in names <==> n in files)
      && |ListFrom(files, listing).value| == |names|
      && forall i :: 0 <= i < |names| ==> ReadFrom(files, names[i]) == Ok(ListFrom(files, listing).value[i])
  {
    SortSpec(listing);
    var names := WithProfile(files, Sort(listing));
    WithProfileAscending(files, Sort(listing));
    forall n | n in files ensures n in Sort(listing) {
      assert n in multiset(listing);
    }
    var rs := seq(|names|, i requires 0 <= i < |names| => ReadFrom(files, names[i]));
    forall i | 0 <= i < |names| ensures ReadFrom(files, names[i]) == Ok(ListFrom(files, listing).value[i]) {
      AllOkIndex(rs, i);
    }
  }

  /** The profile files under the root, by agent directory name.  A missing
      root holds no files.  Agent identifiers are treated as plain directory
      names. */
  class ProfileDisk {
    var files: map<string, ProfileFile>

    constructor ()
      ensures files == map[]
    {
      files := map[];
    }

    /** `read_profile`. */
    function ReadProfile(agentId: string): Result<AgentProfile>
      reads this
    {
      ReadFrom(files, agentId)
    }

    /** Writes dumped profile fields to an agent's file, creating the
        directory if needed. */
    method Write(agentId: string, data: Dict)
      modifies this
      ensures files == old(files)[agentId := Holds(JObj(data))]
    {
      files := files[agentId := Holds(JObj(data))];
    }

    /** `write_profile`: the file of the profile's own agent. */
    method WriteProfile(p: AgentProfile)
      modifies this
      ensures files == old(files)[p.agentId := Holds(JObj(Dump(p)))]
      ensures ReadProfile(p.agentId) == Ok(p)
    {
      Write(p.agentId, Dump(p));
      WriteThenRead(old(files), p);
    }

    /** `list_profiles`, given the names the root directory lists. */
    method ListProfiles(listing: seq<string>) returns (r: Result<seq<AgentProfile>>)
      ensures r == ListFrom(files, listing)
    {
      var names := Sort(listing);
      ghost var fs := files;
      ghost var kept := WithProfile(fs, names);
      ghost var rs := seq(|kept|, i requires 0 <= i < |kept| => ReadFrom(fs, kept[i]));
      var out: seq<AgentProfile> := [];
      var i := 0;
      ghost var n := 0;
      while i < |names|
        invariant 0 <= i <= |names| && 0 <= n <= |kept|
        invariant WithProfile(fs, names[i..]) == kept[n..]
        invariant AllOk(rs[..n]) == Ok(out)
      {
        WithProfileStep(fs, names, i);
        if names[i] in files {
          assert kept[n] == names[i];
          assert kept[n + 1..] == WithProfile(fs, names[i + 1..]);
          var p := ReadProfile(names[i]);
          assert rs[n] == p;
          AllOkSnoc(rs, n);
          if p.Err? {
            AllOkStopped(rs, n + 1);
            return Err(p.error);
          }
          out := out + [p.value];
          n := n + 1;
        }
        i := i + 1;
      }
      assert rs[..n] == rs;
      r := Ok(out);
    }

    /** `create_profile`: an existing profile file is never overwritten. */
    method CreateProfile(p: AgentProfile) returns (r: Result<AgentProfile>)
      modifies this
      ensures p.agentId in old(files) ==> r == Err(FileExistsError) && files == old(files)
      ensures p.agentId !in old(files) ==>
        r == Ok(p) && files == old(files)[p.agentId := Holds(JObj(Dump(p)))]
    {
      if p.agentId in files {
        return Err(FileExistsError);
      }
      WriteProfile(p);
      r := Ok(p);
    }

    /** `update_profile`: the current profile is read, a patch that changes
        "agent_id" is refused, and the merged profile is validated, written
        under its own agent identifier and returned. */
    method UpdateProfile(agentId: string, patch: Dict) returns (r: Result<AgentProfile>)
      modifies this
      ensures var current := old(ReadProfile(agentId));
        if current.Err? then r == Err(current.error) && files == old(files)
        else if Has(patch, "agent_id") && Get(patch, "agent_id") != Some(JStr(agentId)) then
          r == Err(ValueError("agent_id cannot be modified")) && files == old(files)
        else
          r == Merge(current.value, patch)
          && (r.Err? ==> files == old(files))
          && (r.Ok? ==> files == old(files)[r.value.agentId := Holds(JObj(Dump(r.value)))])
    {
      var current := ReadProfile(agentId);
      if current.Err? {
        return Err(current.error);
      }
      if Has(patch, "agent_id") && Get(patch, "agent_id") != Some(JStr(agentId)) {
        return Err(ValueError("agent_id cannot be modified"));
      }
      var data := Update(Dump(current.value), patch);
      var updated := Validate(data);
      if updated.Err? {
        return updated;
      }
      WriteProfile(updated.value);
      r := updated;
    }

    /** `delete_profile`: a missing profile raises; otherwise its file is
        removed. */
    method DeleteProfile(agentId: string) returns (r: Result<()>)
      modifies this
      ensures agentId !in old(files) ==> r == Err(FileNotFoundError) && files == old(files)
      ensures agentId in old(files) ==> r == Ok(()) && files == old(files) - {agentId}
    {
      if agentId !in files {
        return Err(FileNotFoundError);
      }
      files := files - {agentId};
      r := Ok(());
    }
  }
}
