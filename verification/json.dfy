/** JSON values as the Python code sees them after `json.loads`, and the
    operations the code performs on dictionaries.  A dictionary is an ordered
    list of bindings: Python dictionaries keep insertion order, and the model
    depends on that order in several places. */
module Json {
  import opened Wrappers

  datatype Json =
    | JNull
    | JBool(b: bool)
    | JInt(i: int)
    | JFloat(f: real)
    | JStr(s: string)
    | JArr(items: seq<Json>)
    | JObj(fields: seq<(string, Json)>)

  type Dict = seq<(string, Json)>

  /** Python truthiness: None, False, 0, 0.0 and empty containers are false. */
  predicate Truthy(j: Json) {
    match j
    case JNull => false
    case JBool(b) => b
    case JInt(i) => i != 0
    case JFloat(f) => f != 0.0
    case JStr(s) => |s| > 0
    case JArr(items) => |items| > 0
    case JObj(fields) => |fields| > 0
  }

  /** Python's `a or b`. */
  function Or(a: Json, b: Json): Json {
    if Truthy(a) then a else b
  }

  /** `isinstance(v, (str, int, float, bool)) or v is None`. */
  predicate IsPrimitive(j: Json) {
    !j.JArr? && !j.JObj?
  }

  function Keys(d: Dict): (ks: seq<string>)
    ensures |ks| == |d|
    ensures forall i :: 0 <= i < |d| ==> ks[i] == d[i].0
  {
    if |d| == 0 then [] else [d[0].0] + Keys(d[1..])
  }

  /** No key is bound twice, as in every Python dictionary. */
  predicate Unique(d: Dict) {
    forall i, j :: 0 <= i < j < |d| ==> d[i].0 != d[j].0
  }

  /** `d[k]` when `k in d`. */
  function Get(d: Dict, k: string): Option<Json> {
    if |d| == 0 then None
    else if d[0].0 == k then Some(d[0].1)
    else Get(d[1..], k)
  }

  /** A lookup finds a value exactly for the keys the dictionary binds. */
  lemma {:induction false} GetHas(d: Dict, k: string)
    ensures Get(d, k).Some? <==> Has(d, k)
  {
    if |d| > 0 {
      GetHas(d[1..], k);
      assert Keys(d) == [d[0].0] + Keys(d[1..]);
    }
  }

  predicate Has(d: Dict, k: string) {
    k in Keys(d)
  }

  /** `d.get(k)`: the value, or None. */
  function GetNull(d: Dict, k: string): Json {
    Get(d, k).GetOr(JNull)
  }

  /** `d[k] = v`: an existing key keeps its position, a new key goes last. */
  function Put(d: Dict, k: string, v: Json): Dict {
    if |d| == 0 then [(k, v)]
    else if d[0].0 == k then [(k, v)] + d[1..]
    else [d[0]] + Put(d[1..], k, v)
  }

  /** After `d[k] = v`, `k` holds `v` and every other key what it held. */
  lemma {:induction false} PutGet(d: Dict, k: string, v: Json, q: string)
    ensures Get(Put(d, k, v), q) == if q == k then Some(v) else Get(d, q)
  {
    if |d| > 0 && d[0].0 != k {
      PutGet(d[1..], k, v, q);
      assert ([d[0]] + Put(d[1..], k, v))[1..] == Put(d[1..], k, v);
    } else if |d| > 0 {
      assert ([(k, v)] + d[1..])[1..] == d[1..];
    }
  }

  /** `d[k] = v` keeps the key order and appends a new key. */
  lemma {:induction false} PutKeys(d: Dict, k: string, v: Json)
    ensures Keys(Put(d, k, v)) == if k in Keys(d) then Keys(d) else Keys(d) + [k]
  {
    if |d| > 0 {
      assert Keys(d) == [d[0].0] + Keys(d[1..]);
      if d[0].0 == k {
        assert ([(k, v)] + d[1..])[1..] == d[1..];
      } else {
        PutKeys(d[1..], k, v);
        assert ([d[0]] + Put(d[1..], k, v))[1..] == Put(d[1..], k, v);
      }
    }
  }

  /** `d.update(patch)`, also `{**d, **patch}`. */
  function Update(d: Dict, patch: Dict): (r: Dict)
    decreases |patch|
  {
    if |patch| == 0 then d else Update(Put(d, patch[0].0, patch[0].1), patch[1..])
  }

  lemma {:induction false} PutUnique(d: Dict, k: string, v: Json)
    requires Unique(d)
    ensures Unique(Put(d, k, v))
  {
    var r := Put(d, k, v);
    PutKeys(d, k, v);
    forall i, j | 0 <= i < j < |r| ensures r[i].0 != r[j].0 {
      assert Keys(r)[i] == r[i].0 && Keys(r)[j] == r[j].0;
      if k !in Keys(d) {
        assert forall m :: 0 <= m < |d| ==> Keys(d)[m] == d[m].0;
      }
    }
  }

  /** After `d.update(patch)` a key the patch binds holds the patch's value
      and every other key holds what it held before. */
  lemma {:induction false} UpdateGet(d: Dict, patch: Dict, k: string)
    requires Unique(patch)
    ensures Get(Update(d, patch), k) == if Has(patch, k) then Get(patch, k) else Get(d, k)
    decreases |patch|
  {
    if |patch| > 0 {
      var d' := Put(d, patch[0].0, patch[0].1);
      assert Unique(patch[1..]);
      UpdateGet(d', patch[1..], k);
      PutGet(d, patch[0].0, patch[0].1, k);
      GetHas(patch, k);
      GetHas(patch[1..], k);
      if k == patch[0].0 {
        assert k !in Keys(patch[1..]) by {
          forall m | 0 <= m < |patch[1..]| ensures Keys(patch[1..])[m] != k {
            assert patch[1..][m] == patch[m + 1];
          }
        }
      }
    }
  }

  lemma {:induction false} UpdateUnique(d: Dict, patch: Dict)
    requires Unique(d)
    ensures Unique(Update(d, patch))
    decreases |patch|
  {
    if |patch| > 0 {
      PutUnique(d, patch[0].0, patch[0].1);
      UpdateUnique(Put(d, patch[0].0, patch[0].1), patch[1..]);
    }
  }

  /** Keys already present keep their position under `d.update(patch)`. */
  lemma {:induction false} UpdateKeysPrefix(d: Dict, patch: Dict)
    ensures |Update(d, patch)| >= |d|
    ensures Keys(Update(d, patch))[..|d|] == Keys(d)
    decreases |patch|
  {
    if |patch| > 0 {
      var d' := Put(d, patch[0].0, patch[0].1);
      var u := Update(d', patch[1..]);
      UpdateKeysPrefix(d', patch[1..]);
      assert u == Update(d, patch);
      PutKeys(d, patch[0].0, patch[0].1);
      assert Keys(d')[..|d|] == Keys(d) by {
        if patch[0].0 in Keys(d) {
          assert Keys(d') == Keys(d);
        } else {
          assert Keys(d') == Keys(d) + [patch[0].0];
        }
      }
      assert Keys(u)[..|d|] == Keys(u)[..|d'|][..|d|];
    }
  }

  /** In a dictionary without repeated keys, each binding is what a lookup
      of its key finds. */
  lemma {:induction false} GetAt(d: Dict, i: int)
    requires Unique(d) && 0 <= i < |d|
    ensures Get(d, d[i].0) == Some(d[i].1)
  {
    if i > 0 {
      assert d[1..][i - 1] == d[i];
      assert Unique(d[1..]);
      GetAt(d[1..], i - 1);
    }
  }

  /** A lookup finds the first binding of its key. */
  lemma {:induction false} GetFirst(d: Dict, i: int, k: string)
    requires 0 <= i < |d| && d[i].0 == k
    requires forall j :: 0 <= j < i ==> d[j].0 != k
    ensures Get(d, k) == Some(d[i].1)
  {
    if i > 0 {
      assert d[1..][i - 1] == d[i];
      GetFirst(d[1..], i - 1, k);
    }
  }

  lemma {:induction false} GetAppend(d: Dict, k: string, v: Json, q: string)
    ensures Get(d + [(k, v)], q) == if Has(d, q) then Get(d, q) else if q == k then Some(v) else None
  {
    if |d| > 0 {
      assert (d + [(k, v)])[1..] == d[1..] + [(k, v)];
      GetAppend(d[1..], k, v, q);
    }
  }

  /** `d[k] = v` for a key `d` does not bind yet appends the binding. */
  lemma {:induction false} PutFresh(d: Dict, k: string, v: Json)
    requires k !in Keys(d)
    ensures Put(d, k, v) == d + [(k, v)]
  {
    if |d| > 0 {
      assert Keys(d) == [d[0].0] + Keys(d[1..]);
      PutFresh(d[1..], k, v);
      assert [d[0]] + (d[1..] + [(k, v)]) == d + [(k, v)];
    }
  }

  /** Every binding after `d[k] = v` is the new one or one `d` had. */
  lemma {:induction false} PutIn(d: Dict, k: string, v: Json, b: (string, Json))
    requires b in Put(d, k, v)
    ensures b in d || b == (k, v)
  {
    if |d| > 0 && d[0].0 != k && b != d[0] {
      assert b in Put(d[1..], k, v);
      PutIn(d[1..], k, v, b);
    }
  }

  /** The bindings of `d` other than the one for `k`. */
  function Without(d: Dict, k: string): Dict
    decreases |d|
  {
    if |d| == 0 then []
    else if d[0].0 == k then Without(d[1..], k)
    else [d[0]] + Without(d[1..], k)
  }

  /** Dropping `k` unbinds `k` and leaves every other key as it was. */
  lemma {:induction false} WithoutGet(d: Dict, k: string, q: string)
    ensures Get(Without(d, k), q) == if q == k then None else Get(d, q)
    decreases |d|
  {
    if |d| > 0 {
      WithoutGet(d[1..], k, q);
      if d[0].0 != k {
        assert ([d[0]] + Without(d[1..], k))[1..] == Without(d[1..], k);
      }
    }
  }

  /** Dropping a key binds no key twice when the original did not. */
  lemma {:induction false} WithoutUnique(d: Dict, k: string)
    requires Unique(d)
    ensures Unique(Without(d, k))
    decreases |d|
  {
    if |d| > 0 {
      assert Unique(d[1..]);
      WithoutUnique(d[1..], k);
      if d[0].0 != k {
        var t := Without(d[1..], k);
        forall i | 0 <= i < |t| ensures t[i].0 != d[0].0 {
          GetAt(t, i);
          WithoutGet(d[1..], k, t[i].0);
          GetHas(d[1..], t[i].0);
          var m :| 0 <= m < |d[1..]| && Keys(d[1..])[m] == t[i].0;
          assert d[1..][m] == d[m + 1];
        }
      }
    }
  }

}
