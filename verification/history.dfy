/** The per-agent conversation log, one JSON object per line in
    `<root>/<agent_id>/chat_history.jsonl`.  Every record read from or
    rewritten to the log is normalised: it gets a message identifier, a role,
    a content and two timestamps, and keeps every other field it had. */
module History {
  import opened Wrappers
  import opened Json
  import opened Env

  /** One line of the log file as `_read_records` sees it: a line that strips
      to nothing, a line `json.loads` rejects, or a parsed JSON value.
      Serialising a record with `json.dumps` and parsing it back yields the
      same value, so a written record is stored as its parsed form. */
  datatype Line = Blank | Unparsable(text: string) | Parsed(value: Json)

  /** The keys a normalised record starts with, in this order. */
  const BuiltKeys: seq<string> := ["message_id", "role", "content", "created_at", "updated_at"]

  /** The shape every record has after normalisation: the five built keys
      first, a truthy identifier and truthy timestamps, no key twice. */
  predicate Canonical(r: Dict) {
    && |r| >= 5
    && r[0].0 == "message_id" && r[1].0 == "role" && r[2].0 == "content"
    && r[3].0 == "created_at" && r[4].0 == "updated_at"
    && Truthy(r[0].1) && Truthy(r[3].1) && Truthy(r[4].1)
    && Unique(r)
  }

  /** Every record of the list is normalised. */
  predicate AllCanonical(recs: seq<Dict>) {
    forall i :: 0 <= i < |recs| ==> Canonical(recs[i])
  }

  /** The five built fields of a record: a missing or falsy identifier or
      creation time is replaced by a fresh one, and a missing or falsy
      update time falls back to the creation time. */
  function Built(raw: Dict, st: FreshStamp): Dict {
    var created := Or(GetNull(raw, "created_at"), JStr(st.now));
    [ ("message_id", Or(GetNull(raw, "message_id"), JStr(st.uuid))),
      ("role", GetNull(raw, "role")),
      ("content", GetNull(raw, "content")),
      ("created_at", created),
      ("updated_at", Or(GetNull(raw, "updated_at"), created)) ]
  }

  lemma BuiltCanonical(raw: Dict, st: FreshStamp)
    ensures |Built(raw, st)| == 5 && Canonical(Built(raw, st))
  {
  }

  /** Copies, in order, every binding of `rest` whose key `record` does not
      hold yet. */
  function AddMissing(record: Dict, rest: Dict): Dict
    decreases |rest|
  {
    if |rest| == 0 then record
    else if Has(record, rest[0].0) then AddMissing(record, rest[1..])
    else AddMissing(record + [rest[0]], rest[1..])
  }

  /** `_normalize_record`.  A value that is not an object, or an object
      without "role" or without "content", is refused. */
  function NormalizeRecord(raw: Json, st: FreshStamp): Result<Dict> {
    if !raw.JObj? then Err(TypeError)
    else if !Has(raw.fields, "role") || !Has(raw.fields, "content") then
      Err(ValueError("history records require role and content"))
    else
      Ok(AddMissing(Built(raw.fields, st), raw.fields))
  }

  /** Every record normalisation accepts comes out normalised. */
  lemma NormalizeIsCanonical(raw: Json, st: FreshStamp)
    requires NormalizeRecord(raw, st).Ok?
    ensures Canonical(NormalizeRecord(raw, st).value)
  {
    var b := Built(raw.fields, st);
    BuiltCanonical(raw.fields, st);
    AddMissingPrefix(b, raw.fields);
    AddMissingUnique(b, raw.fields);
    var r := AddMissing(b, raw.fields);
    assert forall i :: 0 <= i < 5 ==> r[i] == r[..|b|][i] == b[i];
  }

  lemma {:induction false} AddMissingPrefix(record: Dict, rest: Dict)
    ensures |AddMissing(record, rest)| >= |record|
    ensures AddMissing(record, rest)[..|record|] == record
    decreases |rest|
  {
    if |rest| > 0 && !Has(record, rest[0].0) {
      var r' := record + [rest[0]];
      AddMissingPrefix(r', rest[1..]);
      assert AddMissing(record, rest)[..|record|] == AddMissing(r', rest[1..])[..|r'|][..|record|];
    } else if |rest| > 0 {
      AddMissingPrefix(record, rest[1..]);
    }
  }

  lemma {:induction false} AddMissingUnique(record: Dict, rest: Dict)
    requires Unique(record)
    ensures Unique(AddMissing(record, rest))
    decreases |rest|
  {
    if |rest| > 0 {
      if Has(record, rest[0].0) {
        AddMissingUnique(record, rest[1..]);
      } else {
        var r' := record + [rest[0]];
        assert Unique(r') by {
          forall i | 0 <= i < |record| ensures record[i].0 != rest[0].0 {
            assert Keys(record)[i] == record[i].0;
          }
        }
        AddMissingUnique(r', rest[1..]);
      }
    }
  }

  /** A key of the result holds the record's value when the record had it,
      and otherwise the first value `rest` gives it. */
  lemma {:induction false} AddMissingGet(record: Dict, rest: Dict, k: string)
    ensures Get(AddMissing(record, rest), k) == if Has(record, k) then Get(record, k) else Get(rest, k)
    decreases |rest|
  {
    GetHas(record, k);
    if |rest| > 0 {
      if Has(record, rest[0].0) {
        AddMissingGet(record, rest[1..], k);
      } else {
        var r' := record + [rest[0]];
        AddMissingGet(r', rest[1..], k);
        GetAppend(record, rest[0].0, rest[0].1, k);
        assert Has(r', k) <==> Has(record, k) || k == rest[0].0 by {
          assert Keys(r') == Keys(record) + [rest[0].0];
        }
      }
    }
  }

  lemma {:induction false} AddMissingPresent(record: Dict, rest: Dict)
    requires forall i :: 0 <= i < |rest| ==> Has(record, rest[i].0)
    ensures AddMissing(record, rest) == record
    decreases |rest|
  {
    if |rest| > 0 {
      assert Has(record, rest[0].0);
      assert forall i :: 0 <= i < |rest[1..]| ==> rest[1..][i] == rest[i + 1];
      AddMissingPresent(record, rest[1..]);
    }
  }

  lemma {:induction false} AddMissingFresh(record: Dict, rest: Dict)
    requires Unique(record + rest)
    ensures AddMissing(record, rest) == record + rest
    decreases |rest|
  {
    if |rest| > 0 {
      assert !Has(record, rest[0].0) by {
        forall i | 0 <= i < |record| ensures Keys(record)[i] != rest[0].0 {
          assert (record + rest)[i] == record[i] && (record + rest)[|record|] == rest[0];
        }
      }
      assert (record + [rest[0]]) + rest[1..] == record + rest;
      AddMissingFresh(record + [rest[0]], rest[1..]);
    }
  }

  lemma {:induction false} AddMissingConcat(record: Dict, a: Dict, b: Dict)
    ensures AddMissing(record, a + b) == AddMissing(AddMissing(record, a), b)
    decreases |a|
  {
    if |a| == 0 {
      assert a + b == b;
    } else {
      assert (a + b)[0] == a[0] && (a + b)[1..] == a[1..] + b;
      if Has(record, a[0].0) {
        AddMissingConcat(record, a[1..], b);
      } else {
        AddMissingConcat(record + [a[0]], a[1..], b);
      }
    }
  }

  /** The built fields hold the five built keys and nothing else. */
  lemma BuiltGet(raw: Dict, st: FreshStamp, k: string)
    ensures Has(Built(raw, st), k) <==> k in BuiltKeys
    ensures Get(Built(raw, st), k) ==
      if k == "message_id" then Some(Or(GetNull(raw, "message_id"), JStr(st.uuid)))
      else if k == "role" then Some(GetNull(raw, "role"))
      else if k == "content" then Some(GetNull(raw, "content"))
      else if k == "created_at" then Some(Or(GetNull(raw, "created_at"), JStr(st.now)))
      else if k == "updated_at" then
        Some(Or(GetNull(raw, "updated_at"), Or(GetNull(raw, "created_at"), JStr(st.now))))
      else None
  {
    var b := Built(raw, st);
    GetHas(b, k);
    assert Keys(b) == BuiltKeys by {
      assert forall i :: 0 <= i < 5 ==> Keys(b)[i] == b[i].0;
    }
    GetAt(b, 0); GetAt(b, 1); GetAt(b, 2); GetAt(b, 3); GetAt(b, 4);
  }

  /** Normalisation keeps every field of the raw record and only fills in
      the identifier and the two timestamps when they are missing or
      falsy. */
  lemma NormalizeFields(raw: Dict, st: FreshStamp, k: string)
    requires Has(raw, "role") && Has(raw, "content")
    ensures NormalizeRecord(JObj(raw), st).Ok?
    ensures Get(NormalizeRecord(JObj(raw), st).value, k) ==
      if k == "message_id" then Some(Or(GetNull(raw, "message_id"), JStr(st.uuid)))
      else if k == "created_at" then Some(Or(GetNull(raw, "created_at"), JStr(st.now)))
      else if k == "updated_at" then
        Some(Or(GetNull(raw, "updated_at"), Or(GetNull(raw, "created_at"), JStr(st.now))))
      else Get(raw, k)
  {
    AddMissingGet(Built(raw, st), raw, k);
    BuiltGet(raw, st, k);
    GetHas(raw, "role"); GetHas(raw, "content");
  }

  /** The built fields of a normalised record are its first five
      bindings. */
  lemma BuiltOfCanonical(r: Dict, st: FreshStamp)
    requires Canonical(r)
    ensures Built(r, st) == r[..5]
  {
    GetAt(r, 0); GetAt(r, 1); GetAt(r, 2); GetAt(r, 3); GetAt(r, 4);
    forall i | 0 <= i < 5 ensures Built(r, st)[i] == r[..5][i] {
    }
  }

  /** Normalising a record that is already normalised gives it back
      unchanged, whatever identifier and time are drawn. */
  lemma NormalizeCanonical(r: Dict, st: FreshStamp)
    requires Canonical(r)
    ensures NormalizeRecord(JObj(r), st) == Ok(r)
  {
    assert Keys(r)[1] == "role" && Keys(r)[2] == "content";
    var head := r[..5];
    BuiltOfCanonical(r, st);
    assert r == head + r[5..];
    AddMissingConcat(head, head, r[5..]);
    assert forall i :: 0 <= i < |head| ==> Has(head, head[i].0) by {
      assert forall i :: 0 <= i < |head| ==> Keys(head)[i] == head[i].0;
    }
    AddMissingPresent(head, head);
    AddMissingFresh(head, r[5..]);
  }

  /** What one line contributes to `_read_records`: blank and unparsable
      lines, and values normalisation refuses, are skipped. */
  function ReadLine(line: Line, st: FreshStamp): seq<Dict> {
    if line.Parsed? then
      match NormalizeRecord(line.value, st)
      case Ok(r) => [r]
      case Err(_) => []
    else []
  }

  /** The records `_read_records` returns for the lines of a file, when the
      stamp drawn for line `i` is `stamp(i)`. */
  function Decode(lines: seq<Line>, stamp: nat -> FreshStamp): (recs: seq<Dict>)
    ensures |recs| <= |lines|
    decreases |lines|
  {
    if |lines| == 0 then []
    else
      var n := |lines| - 1;
      Decode(lines[..n], stamp) + ReadLine(lines[n], stamp(n))
  }

  /** Everything read from a log is normalised, whatever the file holds. */
  lemma {:induction false} DecodeCanonical(lines: seq<Line>, stamp: nat -> FreshStamp)
    ensures AllCanonical(Decode(lines, stamp))
    decreases |lines|
  {
    if |lines| > 0 {
      DecodeLast(lines, stamp);
      var init := lines[..|lines| - 1];
      var st := stamp(|lines| - 1);
      DecodeCanonical(init, stamp);
      var tail := ReadLine(lines[|lines| - 1], st);
      if |tail| > 0 {
        NormalizeIsCanonical(lines[|lines| - 1].value, st);
      }
      AllCanonicalConcat(Decode(init, stamp), tail);
    }
  }

  lemma {:induction false} AllCanonicalConcat(a: seq<Dict>, b: seq<Dict>)
    requires AllCanonical(a) && AllCanonical(b)
    ensures AllCanonical(a + b)
  {
    assert forall i :: 0 <= i < |a + b| ==> (a + b)[i] == if i < |a| then a[i] else b[i - |a|];
  }

  /** One unfolding of `Decode`: the last line is read after the others. */
  lemma DecodeLast(lines: seq<Line>, stamp: nat -> FreshStamp)
    requires |lines| > 0
    ensures Decode(lines, stamp) ==
      Decode(lines[..|lines| - 1], stamp) + ReadLine(lines[|lines| - 1], stamp(|lines| - 1))
  {
  }

  lemma DecodeSnoc(lines: seq<Line>, stamp: nat -> FreshStamp, i: nat)
    requires i < |lines|
    ensures Decode(lines[..i + 1], stamp) == Decode(lines[..i], stamp) + ReadLine(lines[i], stamp(i))
  {
    var l := lines[..i + 1];
    assert l[..i] == lines[..i];
    assert l[i] == lines[i];
    DecodeLast(l, stamp);
    assert Decode(l[..|l| - 1], stamp) == Decode(lines[..i], stamp);
    assert ReadLine(l[|l| - 1], stamp(|l| - 1)) == ReadLine(lines[i], stamp(i));
  }

  /** The lines `json.dumps` writes for a list of records. */
  function Encode(recs: seq<Dict>): (lines: seq<Line>)
    ensures |lines| == |recs|
    ensures forall i :: 0 <= i < |recs| ==> lines[i] == Parsed(JObj(recs[i]))
  {
    seq(|recs|, i requires 0 <= i < |recs| => Parsed(JObj(recs[i])))
  }

  /** Reading back normalised records that were written gives them back. */
  lemma {:induction false} DecodeEncode(recs: seq<Dict>, stamp: nat -> FreshStamp)
    requires AllCanonical(recs)
    ensures Decode(Encode(recs), stamp) == recs
    decreases |recs|
  {
    if |recs| > 0 {
      var l := Encode(recs);
      var n := |recs| - 1;
      DecodeLast(l, stamp);
      EncodePrefix(recs, n);
      assert Decode(l[..|l| - 1], stamp) == Decode(Encode(recs[..n]), stamp);
      DecodeEncode(recs[..n], stamp);
      assert l[|l| - 1] == Parsed(JObj(recs[n]));
      NormalizeCanonical(recs[n], stamp(n));
      assert ReadLine(l[|l| - 1], stamp(|l| - 1)) == [recs[n]];
      Snoc(recs);
    }
  }

  lemma Snoc<T>(s: seq<T>)
    requires |s| > 0
    ensures s == s[..|s| - 1] + [s[|s| - 1]]
  {
  }

  lemma EncodePrefix(recs: seq<Dict>, n: nat)
    requires n <= |recs|
    ensures Encode(recs)[..n] == Encode(recs[..n])
  {
  }

  /** Appending a normalised record to a file adds exactly that record to
      what is read back, after everything read before. */
  lemma DecodeAppend(lines: seq<Line>, stamp: nat -> FreshStamp, r: Dict)
    requires Canonical(r)
    ensures Decode(lines + [Parsed(JObj(r))], stamp) == Decode(lines, stamp) + [r]
  {
    var l := lines + [Parsed(JObj(r))];
    DecodeLast(l, stamp);
    assert l[..|l| - 1] == lines;
    assert l[|l| - 1] == Parsed(JObj(r));
    NormalizeCanonical(r, stamp(|lines|));
    assert ReadLine(l[|l| - 1], stamp(|l| - 1)) == [r];
  }

  /** `write_all`'s loop over the outcomes of normalising the messages in
      order: the records it writes before the first refusal, and whether it
      reached the end. */
  function TakeOk(rs: seq<Result<Dict>>): (r: (seq<Dict>, bool))
    ensures |r.0| <= |rs|
    ensures r.1 ==> |r.0| == |rs|
    decreases |rs|
  {
    if |rs| == 0 then ([], true)
    else
      var p := TakeOk(rs[..|rs| - 1]);
      if !p.1 || rs[|rs| - 1].Err? then (p.0, false)
      else (p.0 + [rs[|rs| - 1].value], true)
  }

  /** The outcome of normalising each message with its own stamp. */
  function Attempts(msgs: seq<Dict>, stamp: nat -> FreshStamp): (rs: seq<Result<Dict>>)
    ensures |rs| == |msgs|
  {
    seq(|msgs|, i requires 0 <= i < |msgs| => NormalizeRecord(JObj(msgs[i]), stamp(i)))
  }

  /** What `write_all` writes for a list of messages, when the stamp drawn
      for message `i` is `stamp(i)`, and whether it wrote them all. */
  function NormalizeAll(msgs: seq<Dict>, stamp: nat -> FreshStamp): (seq<Dict>, bool) {
    TakeOk(Attempts(msgs, stamp))
  }

  /** One more outcome: the loop goes on only when every earlier message was
      accepted. */
  lemma TakeOkSnoc(rs: seq<Result<Dict>>, i: nat)
    requires i < |rs|
    ensures var p := TakeOk(rs[..i]);
      TakeOk(rs[..i + 1]) ==
        if !p.1 || rs[i].Err? then (p.0, false) else (p.0 + [rs[i].value], true)
  {
    var l := rs[..i + 1];
    assert l[..|l| - 1] == rs[..i];
  }

  /** Once a message is refused, the later ones change nothing. */
  lemma {:induction false} TakeOkStopped(rs: seq<Result<Dict>>, k: nat)
    requires k <= |rs| && !TakeOk(rs[..k]).1
    ensures TakeOk(rs) == TakeOk(rs[..k])
    decreases |rs| - k
  {
    if k < |rs| {
      var init := rs[..|rs| - 1];
      assert init[..k] == rs[..k];
      TakeOkStopped(init, k);
    } else {
      assert rs[..k] == rs;
    }
  }

  /** The `i`-th record written is the `i`-th outcome, which was accepted. */
  lemma {:induction false} TakeOkIndex(rs: seq<Result<Dict>>, i: nat)
    requires i < |TakeOk(rs).0|
    ensures rs[i] == Ok(TakeOk(rs).0[i])
    decreases |rs|
  {
    var init := rs[..|rs| - 1];
    var p := TakeOk(init);
    if i < |p.0| {
      TakeOkIndex(init, i);
      assert init[i] == rs[i];
    }
  }

  /** When the loop stops early, the outcome it stopped at is a refusal. */
  lemma {:induction false} TakeOkRefused(rs: seq<Result<Dict>>)
    requires !TakeOk(rs).1
    ensures var n := |TakeOk(rs).0|; n < |rs| && rs[n].Err?
    decreases |rs|
  {
    var init := rs[..|rs| - 1];
    if !TakeOk(init).1 {
      TakeOkRefused(init);
      assert init[|TakeOk(init).0|] == rs[|TakeOk(init).0|];
    }
  }

  /** When every outcome is accepted the loop writes every value, in
      order. */
  lemma {:induction false} TakeOkAll(rs: seq<Result<Dict>>, vs: seq<Dict>)
    requires |vs| == |rs| && forall i :: 0 <= i < |rs| ==> rs[i] == Ok(vs[i])
    ensures TakeOk(rs) == (vs, true)
    decreases |rs|
  {
    if |rs| > 0 {
      var n := |rs| - 1;
      TakeOkAll(rs[..n], vs[..n]);
      assert vs == vs[..n] + [vs[n]];
    }
  }

  /** The `i`-th record written is the normalisation of the `i`-th message
      with the `i`-th stamp. */
  lemma NormalizeAllIndex(msgs: seq<Dict>, stamp: nat -> FreshStamp, i: nat)
    requires i < |NormalizeAll(msgs, stamp).0|
    ensures NormalizeRecord(JObj(msgs[i]), stamp(i)) == Ok(NormalizeAll(msgs, stamp).0[i])
  {
    TakeOkIndex(Attempts(msgs, stamp), i);
  }

  /** When `write_all` stops early, the message it stopped at is one
      normalisation refuses. */
  lemma NormalizeAllRefused(msgs: seq<Dict>, stamp: nat -> FreshStamp)
    requires !NormalizeAll(msgs, stamp).1
    ensures var n := |NormalizeAll(msgs, stamp).0|;
      n < |msgs| && NormalizeRecord(JObj(msgs[n]), stamp(n)).Err?
  {
    TakeOkRefused(Attempts(msgs, stamp));
  }

  /** Rewriting normalised records writes them unchanged, and reading the
      file back gives them again. */
  lemma RewriteThenRead(recs: seq<Dict>, writeStamps: nat -> FreshStamp, readStamps: nat -> FreshStamp)
    requires AllCanonical(recs)
    ensures NormalizeAll(recs, writeStamps) == (recs, true)
    ensures Decode(Encode(NormalizeAll(recs, writeStamps).0), readStamps) == recs
  {
    NormalizeAllCanonical(recs, writeStamps);
    DecodeEncode(recs, readStamps);
  }

  /** `write_all` writes normalised records as they are. */
  lemma NormalizeAllCanonical(recs: seq<Dict>, stamp: nat -> FreshStamp)
    requires AllCanonical(recs)
    ensures NormalizeAll(recs, stamp) == (recs, true)
  {
    var rs := Attempts(recs, stamp);
    forall i | 0 <= i < |recs| ensures rs[i] == Ok(recs[i]) {
      NormalizeCanonical(recs[i], stamp(i));
    }
    TakeOkAll(rs, recs);
  }

  lemma Cons<T>(s: seq<T>)
    requires |s| > 0
    ensures s == [s[0]] + s[1..]
  {
  }

  /** Python's normalisation of a slice start `i` for a list of length `n`. */
  function SliceStart(i: int, n: nat): (s: nat)
    ensures s <= n
  {
    if i < 0 then (if n + i < 0 then 0 else n + i)
    else if i > n then n else i
  }

  /** `load_history`'s cut: `records[-2 * maxPairs:]` when there are more than
      `2 * maxPairs` records.  A positive bound keeps the last `2 * maxPairs`
      records; zero keeps everything (the slice `[-0:]` is the whole list);
      a negative bound drops the first `-2 * maxPairs` records. */
  function Window<T>(records: seq<T>, maxPairs: int): (w: seq<T>)
    ensures |w| <= |records| && w == records[|records| - |w|..]
    ensures maxPairs > 0 ==> |w| == if |records| < 2 * maxPairs then |records| else 2 * maxPairs
    ensures maxPairs == 0 ==> w == records
    ensures maxPairs < 0 ==> |w| == if |records| < -2 * maxPairs then 0 else |records| + 2 * maxPairs
  {
    if |records| > 2 * maxPairs then records[SliceStart(-2 * maxPairs, |records|)..] else records
  }

  /** The record `append_turn` writes and returns.  An empty caller-given
      identifier is falsy and is replaced by a fresh one. */
  function NewRecord(role: string, content: string, messageId: Option<string>, st: FreshStamp): (r: Dict)
    ensures Canonical(r) && |r| == 5
    ensures Get(r, "role") == Some(JStr(role)) && Get(r, "content") == Some(JStr(content))
    ensures Get(r, "created_at") == Get(r, "updated_at") == Some(JStr(st.now))
    ensures Get(r, "message_id") ==
      Some(JStr(if messageId.Some? && |messageId.value| > 0 then messageId.value else st.uuid))
  {
    var id := if messageId.Some? && |messageId.value| > 0 then messageId.value else st.uuid;
    var r := [ ("message_id", JStr(id)), ("role", JStr(role)), ("content", JStr(content)),
               ("created_at", JStr(st.now)), ("updated_at", JStr(st.now)) ];
    GetAt(r, 0); GetAt(r, 1); GetAt(r, 2); GetAt(r, 3); GetAt(r, 4);
    r
  }

  /** `rec["message_id"] == message_id`. */
  predicate HasId(rec: Dict, id: string) {
    Get(rec, "message_id") == Some(JStr(id))
  }

  /** The index of the first record carrying the identifier, or -1. */
  function FirstWithId(recs: seq<Dict>, id: string): (i: int)
    ensures -1 <= i < |recs|
    decreases |recs|
  {
    if |recs| == 0 then -1
    else if HasId(recs[0], id) then 0
    else
      var j := FirstWithId(recs[1..], id);
      if j < 0 then -1 else j + 1
  }

  /** The index found carries the identifier and no earlier record does;
      -1 means no record carries it. */
  lemma {:induction false} FirstWithIdSpec(recs: seq<Dict>, id: string)
    ensures var i := FirstWithId(recs, id);
      && (i >= 0 ==> HasId(recs[i], id) && forall j :: 0 <= j < i ==> !HasId(recs[j], id))
      && (i < 0 ==> forall j :: 0 <= j < |recs| ==> !HasId(recs[j], id))
    decreases |recs|
  {
    if |recs| > 0 && !HasId(recs[0], id) {
      FirstWithIdSpec(recs[1..], id);
      assert forall j :: 1 <= j < |recs| ==> recs[1..][j - 1] == recs[j];
    }
  }

  lemma FirstWithIdIs(recs: seq<Dict>, id: string, i: nat)
    requires i < |recs| && HasId(recs[i], id)
    requires forall j :: 0 <= j < i ==> !HasId(recs[j], id)
    ensures FirstWithId(recs, id) == i
  {
    FirstWithIdSpec(recs, id);
  }

  /** The record after `update_turn` applied the patch: every patched key
      except "message_id" takes the patch's value, then "updated_at" takes
      the current time. */
  function PatchRecord(rec: Dict, patch: Dict, now: string): Dict {
    Put(Update(rec, Without(patch, "message_id")), "updated_at", JStr(now))
  }

  /** `update_turn` on the records it read: the first record with the
      identifier is patched, and whether one was found. */
  function UpdateFirst(recs: seq<Dict>, id: string, patch: Dict, now: string): (seq<Dict>, bool) {
    var i := FirstWithId(recs, id);
    if i < 0 then (recs, false) else (recs[i := PatchRecord(recs[i], patch, now)], true)
  }

  /** After a patch the record's identifier is unchanged, "updated_at" is
      the given time, each other key the patch binds holds the patch's value
      and every remaining key keeps its value. */
  lemma PatchRecordGet(rec: Dict, patch: Dict, now: string, k: string)
    requires Unique(patch)
    ensures Get(PatchRecord(rec, patch, now), k) ==
      if k == "updated_at" then Some(JStr(now))
      else if k != "message_id" && Has(patch, k) then Get(patch, k)
      else Get(rec, k)
  {
    var p := Without(patch, "message_id");
    WithoutUnique(patch, "message_id");
    UpdateGet(rec, p, k);
    WithoutGet(patch, "message_id", k);
    PutGet(Update(rec, p), "updated_at", JStr(now), k);
    GetHas(p, k);
    GetHas(patch, k);
  }

  /** A patch that leaves "created_at" truthy keeps a record normalised, so
      the rewrite after `update_turn` stores the patched record as it is. */
  lemma PatchKeepsCanonical(rec: Dict, patch: Dict, now: string)
    requires Canonical(rec) && Unique(patch) && |now| > 0
    requires Has(patch, "created_at") ==> Truthy(GetNull(patch, "created_at"))
    ensures Canonical(PatchRecord(rec, patch, now))
  {
    var r := PatchRecord(rec, patch, now);
    PatchKeys(rec, patch, now);
    GetAt(r, 0); GetAt(rec, 0); PatchRecordGet(rec, patch, now, "message_id");
    GetAt(r, 3); GetAt(rec, 3); PatchRecordGet(rec, patch, now, "created_at");
    GetAt(r, 4); PatchRecordGet(rec, patch, now, "updated_at");
  }

  /** A patch keeps every key of the record in its place and adds no key
      twice. */
  lemma PatchKeys(rec: Dict, patch: Dict, now: string)
    requires Unique(rec) && Has(rec, "updated_at")
    ensures var r := PatchRecord(rec, patch, now);
      |r| >= |rec| && Unique(r) && forall i :: 0 <= i < |rec| ==> r[i].0 == rec[i].0
  {
    var p := Without(patch, "message_id");
    var u := Update(rec, p);
    UpdateKeysPrefix(rec, p);
    UpdateUnique(rec, p);
    PutUnique(u, "updated_at", JStr(now));
    PutKeys(u, "updated_at", JStr(now));
    assert "updated_at" in Keys(u) by {
      var m :| 0 <= m < |rec| && Keys(rec)[m] == "updated_at";
      assert Keys(u)[..|rec|][m] == "updated_at";
    }
    forall i | 0 <= i < |rec| ensures u[i].0 == rec[i].0 {
      assert Keys(u)[..|rec|][i] == Keys(rec)[i];
    }
  }

  /** `update_turn` finds a record exactly when one carries the identifier;
      then it patches the first such record and no other. */
  lemma UpdateFirstSpec(recs: seq<Dict>, id: string, patch: Dict, now: string)
    ensures var (out, hit) := UpdateFirst(recs, id, patch, now);
      && (hit <==> exists i :: 0 <= i < |recs| && HasId(recs[i], id))
      && |out| == |recs|
      && (!hit ==> out == recs)
      && (hit ==> exists i :: (0 <= i < |recs| && HasId(recs[i], id)
                  && (forall j :: 0 <= j < i ==> !HasId(recs[j], id))
                  && out[i] == PatchRecord(recs[i], patch, now)
                  && (forall j :: 0 <= j < |recs| && j != i ==> out[j] == recs[j])))
  {
    FirstWithIdSpec(recs, id);
  }

  /** `delete_turn`'s filter: the records whose identifier differs. */
  function WithoutId(recs: seq<Dict>, id: string): (r: seq<Dict>)
    ensures |r| <= |recs|
    decreases |recs|
  {
    if |recs| == 0 then []
    else if HasId(recs[0], id) then WithoutId(recs[1..], id)
    else [recs[0]] + WithoutId(recs[1..], id)
  }

  /** The filter keeps exactly the records without the identifier. */
  lemma {:induction false} WithoutIdMembers(recs: seq<Dict>, id: string, x: Dict)
    ensures x in WithoutId(recs, id) <==> x in recs && !HasId(x, id)
    decreases |recs|
  {
    if |recs| > 0 {
      WithoutIdMembers(recs[1..], id, x);
      Cons(recs);
    }
  }

  /** The filter works record by record: it keeps or drops each one on its
      own, so the kept records stay in their order, repeats included. */
  lemma {:induction false} WithoutIdConcat(a: seq<Dict>, b: seq<Dict>, id: string)
    ensures WithoutId(a + b, id) == WithoutId(a, id) + WithoutId(b, id)
    ensures WithoutId([], id) == []
    ensures forall x :: WithoutId([x], id) == if HasId(x, id) then [] else [x]
    decreases |a|
  {
    if |a| > 0 {
      assert (a + b)[1..] == a[1..] + b;
      WithoutIdConcat(a[1..], b, id);
    } else {
      assert a + b == b;
    }
    forall x ensures WithoutId([x], id) == if HasId(x, id) then [] else [x] {
      assert [x][1..] == [];
    }
  }

  /** The filter removes something exactly when some record carries the
      identifier. */
  lemma {:induction false} WithoutIdShrinks(recs: seq<Dict>, id: string)
    ensures |WithoutId(recs, id)| < |recs| <==> exists i :: 0 <= i < |recs| && HasId(recs[i], id)
    decreases |recs|
  {
    if |recs| > 0 {
      WithoutIdShrinks(recs[1..], id);
      if exists i :: 0 <= i < |recs[1..]| && HasId(recs[1..][i], id) {
        var i :| 0 <= i < |recs[1..]| && HasId(recs[1..][i], id);
        assert HasId(recs[i + 1], id);
      }
      if exists i :: 0 <= i < |recs| && HasId(recs[i], id) {
        var i :| 0 <= i < |recs| && HasId(recs[i], id);
        if i > 0 {
          assert HasId(recs[1..][i - 1], id);
        }
      }
    }
  }

  /** The log file of one agent: absent until the first write.  The fresh
      identifiers and times a call would draw are passed in as stamp streams:
      `readStamps(i)` for the i-th line read and `writeStamps(i)` for the i-th message
      written.  A stamp is used only where a record lacks an identifier or a
      time. */
  class HistoryLog {
    var file: Option<seq<Line>>

    constructor ()
      ensures file == None
    {
      file := None;
    }

    /** A missing file reads as no lines. */
    function Lines(): seq<Line>
      reads this
    {
      file.GetOr([])
    }

    /** `_read_records`, which `load_all_turns` returns as it is. */
    method ReadRecords(readStamps: nat -> FreshStamp) returns (recs: seq<Dict>)
      ensures recs == Decode(Lines(), readStamps)
    {
      var lines := Lines();
      recs := [];
      var i := 0;
      while i < |lines|
        invariant 0 <= i <= |lines|
        invariant recs == Decode(lines[..i], readStamps)
      {
        DecodeSnoc(lines, readStamps, i);
        recs := recs + ReadLine(lines[i], readStamps(i));
        i := i + 1;
      }
      assert lines[..i] == lines;
    }

    /** `load_history`: the last `2 * maxPairs` records. */
    method LoadHistory(maxPairs: int, readStamps: nat -> FreshStamp) returns (recs: seq<Dict>)
      ensures recs == Window(Decode(Lines(), readStamps), maxPairs)
    {
      recs := ReadRecords(readStamps);
      if |recs| > 2 * maxPairs {
        recs := recs[SliceStart(-2 * maxPairs, |recs|)..];
      }
    }

    /** `append_turn`: one new line at the end of the file, created if it
        was missing. */
    method AppendTurn(role: string, content: string, messageId: Option<string>, st: FreshStamp)
      returns (rec: Dict)
      modifies this
      ensures rec == NewRecord(role, content, messageId, st)
      ensures file == Some(old(Lines()) + [Parsed(JObj(rec))])
    {
      rec := NewRecord(role, content, messageId, st);
      file := Some(Lines() + [Parsed(JObj(rec))]);
    }

    /** `write_all`: the file is truncated first, so a message normalisation
        refuses leaves the records before it written and raises. */
    method WriteAll(msgs: seq<Dict>, writeStamps: nat -> FreshStamp) returns (r: Result<()>)
      modifies this
      ensures var out := NormalizeAll(msgs, writeStamps);
        && file == Some(Encode(out.0))
        && (r.Ok? <==> out.1)
    {
      ghost var rs := Attempts(msgs, writeStamps);
      var written: seq<Dict> := [];
      file := Some([]);
      var i := 0;
      while i < |msgs|
        invariant 0 <= i <= |msgs|
        invariant TakeOk(rs[..i]) == (written, true)
        invariant file == Some(Encode(written))
      {
        TakeOkSnoc(rs, i);
        var rec := NormalizeRecord(JObj(msgs[i]), writeStamps(i));
        assert rec == rs[i];
        if rec.Err? {
          TakeOkStopped(rs, i + 1);
          r := Err(rec.error);
          return;
        }
        written := written + [rec.value];
        file := Some(Encode(written));
        i := i + 1;
      }
      assert rs[..i] == rs;
      r := Ok(());
    }

    /** `update_turn`'s loop: patch the first record with the identifier. */
    static method PatchFirst(recs: seq<Dict>, id: string, patch: Dict, now: string)
      returns (out: seq<Dict>, found: bool)
      ensures (out, found) == UpdateFirst(recs, id, patch, now)
    {
      out := recs;
      var i := 0;
      while i < |recs|
        invariant 0 <= i <= |recs|
        invariant forall j :: 0 <= j < i ==> !HasId(recs[j], id)
      {
        if HasId(recs[i], id) {
          out := recs[i := PatchRecord(recs[i], patch, now)];
          FirstWithIdIs(recs, id, i);
          return out, true;
        }
        i := i + 1;
      }
      FirstWithIdSpec(recs, id);
      found := false;
    }

    /** `update_turn`: read every record, patch the first one with the
        identifier, and rewrite the file only when one was found. */
    method UpdateTurn(id: string, patch: Dict, now: string,
                      readStamps: nat -> FreshStamp, writeStamps: nat -> FreshStamp) returns (found: bool)
      modifies this
      ensures var upd := UpdateFirst(Decode(old(Lines()), readStamps), id, patch, now);
        && found == upd.1
        && (found ==> file == Some(Encode(NormalizeAll(upd.0, writeStamps).0)))
        && (!found ==> file == old(file))
    {
      var recs := ReadRecords(readStamps);
      var patched;
      patched, found := PatchFirst(recs, id, patch, now);
      if found {
        var _ := WriteAll(patched, writeStamps);
      }
    }

    /** `delete_turn`: drop every record with the identifier and rewrite the
        file, unless nothing was dropped. */
    method DeleteTurn(id: string, readStamps: nat -> FreshStamp, writeStamps: nat -> FreshStamp)
      returns (found: bool)
      modifies this
      ensures var recs := Decode(old(Lines()), readStamps);
        var kept := WithoutId(recs, id);
        && (found <==> |kept| < |recs|)
        && (found ==> file == Some(Encode(NormalizeAll(kept, writeStamps).0)))
        && (!found ==> file == old(file))
    {
      var recs := ReadRecords(readStamps);
      var kept := WithoutId(recs, id);
      if |kept| == |recs| {
        return false;
      }
      var _ := WriteAll(kept, writeStamps);
      found := true;
    }

    /** `clear_history`: the file exists and is empty. */
    method ClearHistory()
      modifies this
      ensures file == Some([])
    {
      file := Some([]);
    }
  }
}
