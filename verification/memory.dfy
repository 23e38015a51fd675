/** The per-agent memory collections of `chroma_store.py`.  A collection is
    modelled as what the vector database stores: a document and a flat
    metadata dictionary per identifier.  Embeddings, ranking and the filter
    language are the database's own and stay abstract. */
module MemoryStore {
  import opened Wrappers
  import opened Json
  import opened Env
  import Text

  /** `ALLOWED_META_KEYS`: the only metadata keys the store keeps. */
  const AllowedMetaKeys: set<string> :=
    {"type", "date", "time", "tag", "memory_id", "salience", "created_at", "last_seen_at"}

  // ----- Filters -----

  /** One single-key filter per binding, in key order. */
  function Conjuncts(d: Dict): seq<Json> {
    seq(|d|, i requires 0 <= i < |d| => JObj([d[i]]))
  }

  /** The bindings a list of filters requires together, in order. */
  function Required(cs: seq<Json>): Dict {
    if |cs| == 0 then [] else (if cs[0].JObj? then cs[0].fields else []) + Required(cs[1..])
  }

  /** `_normalize_where`: a falsy filter is no filter; a value that is not a
      dictionary, a top-level "$and"/"$or" and a single-key filter pass
      through; several keys become a conjunction of single-key filters. */
  function NormalizeWhere(where: Json): (r: Json)
    ensures r == JNull <==> !Truthy(where)
  {
    if !Truthy(where) then JNull
    else if !where.JObj? then where
    else if Has(where.fields, "$and") || Has(where.fields, "$or") then where
    else if |where.fields| == 1 then where
    else JObj([("$and", JArr(Conjuncts(where.fields)))])
  }

  /** Splitting a filter into single-key filters loses and adds nothing. */
  lemma {:induction false} RequiredConjuncts(d: Dict)
    ensures Required(Conjuncts(d)) == d
    decreases |d|
  {
    if |d| > 0 {
      RequiredConjuncts(d[1..]);
      assert Conjuncts(d)[1..] == Conjuncts(d[1..]);
      assert [d[0]] + d[1..] == d;
    }
  }

  /** A filter on several plain keys becomes one "$and" whose conjuncts are
      single-key filters, one per key in key order, requiring together
      exactly what the filter required. */
  lemma NormalizeWhereSplits(where: Json)
    requires where.JObj? && |where.fields| > 1
    requires !Has(where.fields, "$and") && !Has(where.fields, "$or")
    ensures var r := NormalizeWhere(where);
      && r.JObj? && |r.fields| == 1 && r.fields[0].0 == "$and" && r.fields[0].1.JArr?
      && var cs := r.fields[0].1.items;
      && |cs| == |where.fields|
      && (forall i :: 0 <= i < |cs| ==> cs[i].JObj? && |cs[i].fields| == 1)
      && Required(cs) == where.fields
  {
    RequiredConjuncts(where.fields);
  }

  /** Normalising a normalised filter changes nothing. */
  lemma NormalizeWhereIdempotent(where: Json)
    ensures NormalizeWhere(NormalizeWhere(where)) == NormalizeWhere(where)
  {
    var r := NormalizeWhere(where);
    if r != where && r != JNull {
      assert Keys(r.fields) == ["$and"];
    }
  }

  // ----- Flat metadata -----

  /** A binding `_flat_meta_only` keeps: an allowed key with a value that is
      a string, a number, a boolean or None. */
  predicate Allowed(b: (string, Json)) {
    b.0 in AllowedMetaKeys && IsPrimitive(b.1)
  }

  /** `_flat_meta_only`: every kept binding is set, in order, in a new
      dictionary. */
  function FlatMeta(meta: Dict): Dict
    decreases |meta|
  {
    if |meta| == 0 then []
    else
      var c := FlatMeta(meta[..|meta| - 1]);
      var b := meta[|meta| - 1];
      if Allowed(b) then Put(c, b.0, b.1) else c
  }

  /** The flattened metadata binds no key twice, and each of its bindings is
      allowed and is a binding of the input. */
  lemma {:induction false} FlatMetaKept(meta: Dict)
    ensures Unique(FlatMeta(meta))
    ensures forall b :: b in FlatMeta(meta) ==> Allowed(b) && b in meta
    decreases |meta|
  {
    if |meta| > 0 {
      var init := meta[..|meta| - 1];
      var c := FlatMeta(init);
      var b := meta[|meta| - 1];
      FlatMetaKept(init);
      if Allowed(b) {
        PutUnique(c, b.0, b.1);
        forall x | x in Put(c, b.0, b.1) ensures Allowed(x) && x in meta {
          PutIn(c, b.0, b.1, x);
        }
      }
    }
  }

  /** In the flattened metadata a key holds the input's value when that
      binding is allowed, and nothing otherwise. */
  lemma {:induction false} FlatMetaGet(meta: Dict, k: string)
    requires Unique(meta)
    ensures var g := Get(meta, k);
      Get(FlatMeta(meta), k) == if g.Some? && Allowed((k, g.value)) then g else None
    decreases |meta|
  {
    if |meta| > 0 {
      var n := |meta| - 1;
      var init := meta[..n];
      var b := meta[n];
      assert Unique(init);
      FlatMetaGet(init, k);
      assert meta == init + [b];
      GetAppend(init, b.0, b.1, k);
      assert !Has(init, b.0) by {
        forall m | 0 <= m < |init| ensures Keys(init)[m] != b.0 {
          assert init[m] == meta[m];
        }
      }
      GetHas(init, k);
      if Allowed(b) {
        PutGet(FlatMeta(init), b.0, b.1, k);
      }
    }
  }

  /** Metadata that is already flat comes back unchanged. */
  lemma {:induction false} FlatMetaOfFlat(d: Dict)
    requires Unique(d) && forall b :: b in d ==> Allowed(b)
    ensures FlatMeta(d) == d
    decreases |d|
  {
    if |d| > 0 {
      var n := |d| - 1;
      var init := d[..n];
      assert Unique(init);
      assert forall b :: b in init ==> b in d;
      FlatMetaOfFlat(init);
      assert d[n] in d;
      assert d[n].0 !in Keys(init) by {
        forall m | 0 <= m < |init| ensures Keys(init)[m] != d[n].0 {
          assert init[m] == d[m];
        }
      }
      PutFresh(init, d[n].0, d[n].1);
      assert init + [d[n]] == d;
    }
  }

  /** Flattening twice is flattening once. */
  lemma FlatMetaIdempotent(meta: Dict)
    ensures FlatMeta(FlatMeta(meta)) == FlatMeta(meta)
  {
    FlatMetaKept(meta);
    FlatMetaOfFlat(FlatMeta(meta));
  }

  /** `_flat_meta_only`'s loop. */
  method FlatMetaOnly(meta: Dict) returns (clean: Dict)
    ensures clean == FlatMeta(meta)
  {
    clean := [];
    var i := 0;
    while i < |meta|
      invariant 0 <= i <= |meta|
      invariant clean == FlatMeta(meta[..i])
    {
      var (k, v) := meta[i];
      assert meta[..i + 1][..i] == meta[..i];
      if k in AllowedMetaKeys && IsPrimitive(v) {
        clean := Put(clean, k, v);
      }
      i := i + 1;
    }
    assert meta[..i] == meta;
  }

  // ----- Collections -----

  /** What the database stores for one identifier. */
  datatype Entry = Entry(doc: Json, meta: Dict)

  /** One collection: the entries by identifier. */
  type Collection = map<Json, Entry>

  /** One item of `upsert_memories`, ready to store: its identifier, its
      document and its metadata. */
  datatype Prepared = Prepared(id: Json, doc: Json, meta: Dict)

  /** The identifier `upsert_memories` gives an item: its own truthy
      "memory_id", or a fresh one. */
  function ItemId(it: Dict, st: FreshStamp): Json {
    Or(GetNull(it, "memory_id"), JStr(st.uuid))
  }

  /** One turn of `upsert_memories`' loop: the item is tagged with its
      identifier, its metadata is every other binding but "text", flattened,
      and its document is its "text".  An item that is not a dictionary, or
      has no "text", raises. */
  function PrepareItem(it: Json, st: FreshStamp): Result<Prepared> {
    if !it.JObj? then Err(AttributeError)
    else
      var id := ItemId(it.fields, st);
      var tagged := Put(it.fields, "memory_id", id);
      match Get(tagged, "text")
      case None => Err(KeyError("text"))
      case Some(doc) => Ok(Prepared(id, doc, FlatMeta(Without(tagged, "text"))))
  }

  /** An item is accepted exactly when it is a dictionary with a "text";
      then its document is that text, its identifier is truthy, its metadata
      never holds "text", it holds the identifier exactly when the
      identifier is a primitive value, and every other key holds the item's
      value when that key is allowed and the value primitive. */
  lemma PrepareItemSpec(it: Json, st: FreshStamp)
    requires it.JObj? ==> Unique(it.fields)
    ensures PrepareItem(it, st).Ok? <==> it.JObj? && Has(it.fields, "text")
    ensures PrepareItem(it, st).Ok? ==>
      var p := PrepareItem(it, st).value;
      && p.id == ItemId(it.fields, st) && Truthy(p.id)
      && Get(it.fields, "text") == Some(p.doc)
      && !Has(p.meta, "text")
      && Get(p.meta, "memory_id") == (if IsPrimitive(p.id) then Some(p.id) else None)
      && forall k :: k != "text" && k != "memory_id" ==>
           Get(p.meta, k) == (var g := Get(it.fields, k); if g.Some? && Allowed((k, g.value)) then g else None)
  {
    if it.JObj? {
      var id := ItemId(it.fields, st);
      var tagged := Put(it.fields, "memory_id", id);
      PutGet(it.fields, "memory_id", id, "text");
      PutGet(it.fields, "memory_id", id, "memory_id");
      GetHas(it.fields, "text");
      PutUnique(it.fields, "memory_id", id);
      var rest := Without(tagged, "text");
      WithoutUnique(tagged, "text");
      WithoutGet(tagged, "text", "text");
      WithoutGet(tagged, "text", "memory_id");
      FlatMetaGet(rest, "text");
      FlatMetaGet(rest, "memory_id");
      GetHas(FlatMeta(rest), "text");
      forall k | k != "text" && k != "memory_id"
        ensures var g := Get(it.fields, k);
          Get(FlatMeta(rest), k) == if g.Some? && Allowed((k, g.value)) then g else None
      {
        PutGet(it.fields, "memory_id", id, k);
        WithoutGet(tagged, "text", k);
        FlatMetaGet(rest, k);
      }
    }
  }

  /** The steps of `upsert_memories`' loop, the `i`-th item with the
      `i`-th fresh identifier. */
  function PrepareSteps(items: seq<Json>, stamps: nat -> FreshStamp): (rs: seq<Result<Prepared>>)
    ensures |rs| == |items|
  {
    seq(|items|, i requires 0 <= i < |items| => PrepareItem(items[i], stamps(i)))
  }

  /** When the whole batch is accepted, item `i` is a dictionary with a
      "text", and it is stored under its own truthy "memory_id" or the
      `i`-th fresh identifier, with that text as its document. */
  lemma PreparedItem(items: seq<Json>, stamps: nat -> FreshStamp, i: nat)
    requires AllOk(PrepareSteps(items, stamps)).Ok? && i < |items|
    ensures items[i].JObj? && Has(items[i].fields, "text")
    ensures var p := AllOk(PrepareSteps(items, stamps)).value[i];
      && p.id == ItemId(items[i].fields, stamps(i)) && Truthy(p.id)
      && Get(items[i].fields, "text") == Some(p.doc)
  {
    var rs := PrepareSteps(items, stamps);
    AllOkIndex(rs, i);
    assert rs[i] == PrepareItem(items[i], stamps(i));
    var it := items[i].fields;
    PutGet(it, "memory_id", ItemId(it, stamps(i)), "text");
    GetHas(it, "text");
  }

  /** The identifiers of prepared items, in order. */
  function Ids(ps: seq<Prepared>): (ids: seq<Json>)
    ensures |ids| == |ps|
  {
    seq(|ps|, i requires 0 <= i < |ps| => ps[i].id)
  }

  /** `col.upsert`: each prepared item in turn replaces what its identifier
      held. */
  function Store(col: Collection, ps: seq<Prepared>): Collection
    decreases |ps|
  {
    if |ps| == 0 then col else Store(col[ps[0].id := Entry(ps[0].doc, ps[0].meta)], ps[1..])
  }

  /** Identifiers no item carries keep their entry, or their absence. */
  lemma {:induction false} StoreOthers(col: Collection, ps: seq<Prepared>, id: Json)
    requires forall i :: 0 <= i < |ps| ==> ps[i].id != id
    ensures id in Store(col, ps) <==> id in col
    ensures id in col ==> Store(col, ps)[id] == col[id]
    decreases |ps|
  {
    if |ps| > 0 {
      StoreOthers(col[ps[0].id := Entry(ps[0].doc, ps[0].meta)], ps[1..], id);
    }
  }

  /** An identifier carried by an item holds the last such item's document
      and metadata. */
  lemma {:induction false} StoreLast(col: Collection, ps: seq<Prepared>, i: nat)
    requires i < |ps| && forall j :: i < j < |ps| ==> ps[j].id != ps[i].id
    ensures ps[i].id in Store(col, ps)
    ensures Store(col, ps)[ps[i].id] == Entry(ps[i].doc, ps[i].meta)
    decreases |ps|
  {
    var col' := col[ps[0].id := Entry(ps[0].doc, ps[0].meta)];
    if i == 0 {
      StoreOthers(col', ps[1..], ps[0].id);
    } else {
      StoreLast(col', ps[1..], i - 1);
    }
  }

  /** The entries one item's patch gives: the document is replaced when the
      patch has a "text", and the metadata is the stored metadata updated
      with the rest of the patch, flattened. */
  function Patched(e: Entry, patch: Dict): Entry {
    var doc := match Get(patch, "text") case Some(t) => t case None => e.doc;
    Entry(doc, FlatMeta(Update(e.meta, Without(patch, "text"))))
  }

  /** The exception `update_memory` raises for a patch that is not a
      dictionary.  `"text" in patch` tests membership in a list and a
      substring in a string, and raises TypeError for a number, a boolean or
      null; when the test holds, `patch["text"]` raises TypeError, and when
      it fails, `patch.items()` raises AttributeError. */
  function PatchFault(patch: Json): (e: Exc)
    requires !patch.JObj?
    ensures e == AttributeError <==>
      (patch.JArr? && JStr("text") !in patch.items) || (patch.JStr? && !Text.Contains(patch.s, "text"))
    ensures e == AttributeError || e == TypeError
  {
    match patch
    case JArr(items) => if JStr("text") in items then TypeError else AttributeError
    case JStr(s) => if Text.Find(s, "text") >= 0 then TypeError else AttributeError
    case _ => TypeError
  }

  /** After a patch the document is the patch's "text" if it has one, and a
      metadata key holds the patch's value if the patch binds it (except
      "text"), the old value otherwise, either kept only when allowed. */
  lemma PatchedSpec(e: Entry, patch: Dict, k: string)
    requires Unique(e.meta) && Unique(patch)
    ensures Has(patch, "text") ==> Get(patch, "text") == Some(Patched(e, patch).doc)
    ensures !Has(patch, "text") ==> Patched(e, patch).doc == e.doc
    ensures var g := if k != "text" && Has(patch, k) then Get(patch, k) else Get(e.meta, k);
      Get(Patched(e, patch).meta, k) == if g.Some? && Allowed((k, g.value)) then g else None
  {
    var rest := Without(patch, "text");
    WithoutUnique(patch, "text");
    UpdateUnique(e.meta, rest);
    FlatMetaGet(Update(e.meta, rest), k);
    UpdateGet(e.meta, rest, k);
    WithoutGet(patch, "text", k);
    GetHas(rest, k);
    GetHas(patch, k);
    GetHas(patch, "text");
  }

  /** The database's answer to a query: the candidates it ranks, best first,
      that the collection holds, at most `k` of them, each with its
      distance. */
  function Answer(col: Collection, ranked: seq<(Json, Json)>, k: int): (a: seq<(Json, Json)>)
    ensures |a| <= |ranked| && (k <= 0 ==> |a| == 0) && (k > 0 ==> |a| <= k)
    ensures forall i :: 0 <= i < |a| ==> a[i].0 in col && a[i] in ranked
    decreases |ranked|
  {
    if k <= 0 || |ranked| == 0 then []
    else if ranked[0].0 in col then [ranked[0]] + Answer(col, ranked[1..], k - 1)
    else Answer(col, ranked[1..], k)
  }

  /** How the database ranks the candidates for a query text under a
      normalised filter; only candidates the collection holds are
      answered. */
  type Ranker = (Collection, Json, Json) -> seq<(Json, Json)>

  /** One entry of `query_memories`' result. */
  function Hit(id: Json, doc: Json, meta: Json, dist: Json): Json {
    JObj([("memory_id", id), ("text", doc), ("metadata", meta), ("distance", dist)])
  }

  /** `query_memories`' loop over the parallel lists of the database's
      answer: the `i`-th identifier with the `i`-th document, metadata and
      distance, or IndexError when one of them is shorter than the
      identifiers. */
  function Zipped(ids: seq<Json>, docs: seq<Json>, metas: seq<Json>, dists: seq<Json>): Result<seq<Json>> {
    if |docs| < |ids| || |metas| < |ids| || |dists| < |ids| then Err(IndexError)
    else Ok(seq(|ids|, i requires 0 <= i < |ids| => Hit(ids[i], docs[i], metas[i], dists[i])))
  }

  method ZipHits(ids: seq<Json>, docs: seq<Json>, metas: seq<Json>, dists: seq<Json>)
    returns (r: Result<seq<Json>>)
    ensures r == Zipped(ids, docs, metas, dists)
  {
    var out: seq<Json> := [];
    var i := 0;
    while i < |ids|
      invariant 0 <= i <= |ids|
      invariant i <= |docs| && i <= |metas| && i <= |dists|
      invariant |out| == i
      invariant forall j :: 0 <= j < i ==> out[j] == Hit(ids[j], docs[j], metas[j], dists[j])
    {
      if i >= |docs| || i >= |metas| || i >= |dists| {
        return Err(IndexError);
      }
      out := out + [Hit(ids[i], docs[i], metas[i], dists[i])];
      i := i + 1;
    }
    assert out == seq(|ids|, j requires 0 <= j < |ids| => Hit(ids[j], docs[j], metas[j], dists[j]));
    r := Ok(out);
  }

  /** The hits of a query are the collection's own entries: identifier,
      document and metadata as stored. */
  function Hits(col: Collection, a: seq<(Json, Json)>): (hs: seq<Json>)
    requires forall i :: 0 <= i < |a| ==> a[i].0 in col
  {
    seq(|a|, i requires 0 <= i < |a| => Hit(a[i].0, col[a[i].0].doc, JObj(col[a[i].0].meta), a[i].1))
  }

  /** Nothing deleted is ever returned by a later query. */
  lemma QueryAfterDelete(col: Collection, id: Json, ranked: seq<(Json, Json)>, k: int)
    ensures var a := Answer(col - {id}, ranked, k);
      forall i :: 0 <= i < |a| ==> a[i].0 != id && a[i].0 in col
  {
  }

  /** An agent's collection; one not created yet reads as empty. */
  function ColIn(cols: map<string, Collection>, agent: string): Collection {
    if agent in cols then cols[agent] else map[]
  }

  /** The memory collections of every agent. */
  class MemoryStore {
    var cols: map<string, Collection>

    constructor ()
      ensures cols == map[]
    {
      cols := map[];
    }

    /** A collection not created yet reads as empty. */
    function Col(agent: string): Collection
      reads this
    {
      ColIn(cols, agent)
    }

    /** `get_collection_for_agent`: the collection is created if missing. */
    method Open(agent: string) returns (col: Collection)
      modifies this
      ensures col == old(Col(agent)) && cols == old(cols)[agent := col]
    {
      col := Col(agent);
      cols := cols[agent := col];
    }

    /** `upsert_memories`: every item is prepared, then the whole batch is
        written; an item that raises leaves the collection as it was.  The
        identifiers are returned in item order. */
    method UpsertMemories(agent: string, items: seq<Json>, stamps: nat -> FreshStamp)
      returns (r: Result<seq<Json>>)
      modifies this
      ensures match AllOk(PrepareSteps(items, stamps))
        case Err(e) => r == Err(e) && cols == old(cols)[agent := old(Col(agent))]
        case Ok(ps) => r == Ok(Ids(ps)) && cols == old(cols)[agent := Store(old(Col(agent)), ps)]
    {
      var col := Open(agent);
      ghost var rs := PrepareSteps(items, stamps);
      var ps: seq<Prepared> := [];
      var i := 0;
      while i < |items|
        invariant 0 <= i <= |items|
        invariant AllOk(rs[..i]) == Ok(ps)
        invariant cols == old(cols)[agent := col]
      {
        AllOkSnoc(rs, i);
        assert rs[i] == PrepareItem(items[i], stamps(i));
        if !items[i].JObj? {
          AllOkStopped(rs, i + 1);
          return Err(AttributeError);
        }
        var it := items[i].fields;
        var id := Or(GetNull(it, "memory_id"), JStr(stamps(i).uuid));
        it := Put(it, "memory_id", id);
        var meta := FlatMetaOnly(Without(it, "text"));
        var doc := Get(it, "text");
        if doc.None? {
          AllOkStopped(rs, i + 1);
          return Err(KeyError("text"));
        }
        ps := ps + [Prepared(id, doc.value, meta)];
        i := i + 1;
      }
      assert rs[..i] == rs;
      cols := cols[agent := Store(col, ps)];
      r := Ok(Ids(ps));
    }

    /** `update_memory`: an identifier the collection does not hold gives
        false and no write; otherwise the patch is applied and true is
        returned.  A patch that is not a dictionary raises `PatchFault`. */
    method UpdateMemory(agent: string, id: Json, patch: Json) returns (r: Result<bool>)
      modifies this
      ensures var col := old(Col(agent));
        if id !in col then r == Ok(false) && cols == old(cols)[agent := col]
        else if !patch.JObj? then r == Err(PatchFault(patch)) && cols == old(cols)[agent := col]
        else r == Ok(true) && cols == old(cols)[agent := col[id := Patched(col[id], patch.fields)]]
    {
      var col := Open(agent);
      if id !in col {
        return Ok(false);
      }
      if !patch.JObj? {
        return Err(PatchFault(patch));
      }
      var e := col[id];
      var doc := e.doc;
      var text := Get(patch.fields, "text");
      if text.Some? {
        doc := text.value;
      }
      var meta := FlatMetaOnly(Update(e.meta, Without(patch.fields, "text")));
      cols := cols[agent := col[id := Entry(doc, meta)]];
      r := Ok(true);
    }

    /** `delete_memory`: the identifier's entry, if any, is gone. */
    method DeleteMemory(agent: string, id: Json)
      modifies this
      ensures cols == old(cols)[agent := old(Col(agent)) - {id}]
    {
      var col := Open(agent);
      cols := cols[agent := col - {id}];
    }

    /** `query_memories`: the filter is normalised and handed to the
        database, whose answer is zipped into hits. */
    method QueryMemories(agent: string, query: Json, k: int, where: Json, rank: Ranker)
      returns (r: Result<seq<Json>>)
      modifies this
      ensures cols == old(cols)[agent := old(Col(agent))]
      ensures var col := old(Col(agent));
        r == Ok(Hits(col, Answer(col, rank(col, query, NormalizeWhere(where)), k)))
    {
      var col := Open(agent);
      var normalized := NormalizeWhere(where);
      var a := Answer(col, rank(col, query, normalized), k);
      var ids := seq(|a|, i requires 0 <= i < |a| => a[i].0);
      var docs := seq(|a|, i requires 0 <= i < |a| => col[a[i].0].doc);
      var metas := seq(|a|, i requires 0 <= i < |a| => JObj(col[a[i].0].meta));
      var dists := seq(|a|, i requires 0 <= i < |a| => a[i].1);
      r := ZipHits(ids, docs, metas, dists);
      ghost var hs := Hits(col, a);
      assert forall j :: 0 <= j < |ids| ==> hs[j] == Hit(ids[j], docs[j], metas[j], dists[j]);
      assert Zipped(ids, docs, metas, dists).value == hs;
    }
  }
}
