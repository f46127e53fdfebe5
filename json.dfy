/**
 * JSON values as `json.loads` returns them, and the Python dict
 * operations the pipeline applies to parsed objects.
 *
 * A dict is an association list in insertion order (Python dicts keep
 * insertion order). Lookup and update act on the last binding of a key,
 * so a list that happens to repeat a key still behaves like the dict built
 * by inserting its pairs in order.
 */
module Json {
  import opened Wrappers

  /** JSON numbers are reals: Python compares `3 == 3.0`. */
  datatype Json =
    | JNull
    | JBool(b: bool)
    | JNum(n: real)
    | JStr(s: string)
    | JArr(items: seq<Json>)
    | JObj(fields: seq<(string, Json)>)

  type Dict = seq<(string, Json)>

  /** Python truthiness (`if value:`) of a parsed value. */
  predicate Truthy(v: Json) {
    match v
    case JNull => false
    case JBool(b) => b
    case JNum(n) => n != 0.0
    case JStr(s) => s != []
    case JArr(items) => items != []
    case JObj(fields) => fields != []
  }

  /** Python's `len(v)`, defined for strings, lists and dicts only. */
  function PyLen(v: Json): (r: Option<nat>)
    ensures r.Some? <==> (v.JStr? || v.JArr? || v.JObj?)
    ensures r.Some? ==> (r.value > 0 <==> Truthy(v))
  {
    match v
    case JStr(s) => Some(|s|)
    case JArr(items) => Some(|items|)
    case JObj(fields) => Some(|fields|)
    case _ => None
  }

  /** `k in d` */
  predicate HasKey(d: Dict, k: string) {
    d != [] && (d[|d| - 1].0 == k || HasKey(d[..|d| - 1], k))
  }

  /** `d.get(k)`: the value of the last binding of `k`. */
  function Get(d: Dict, k: string): (r: Option<Json>)
    ensures r.Some? <==> HasKey(d, k)
  {
    if d == [] then None
    else if d[|d| - 1].0 == k then Some(d[|d| - 1].1)
    else Get(d[..|d| - 1], k)
  }

  /** `d.get(k, default)` */
  function GetOr(d: Dict, k: string, default: Json): Json {
    Get(d, k).GetOr(default)
  }

  /** The key at each position, as Python's `list(d)` lists them. */
  function KeyList(d: Dict): (ks: seq<string>)
    ensures |ks| == |d|
    ensures forall i :: 0 <= i < |d| ==> ks[i] == d[i].0
  {
    seq(|d|, i requires 0 <= i < |d| => d[i].0)
  }

  lemma {:induction false} HasKeyAt(d: Dict, k: string)
    ensures HasKey(d, k) <==> exists i :: 0 <= i < |d| && d[i].0 == k
    decreases |d|
  {
    if d != [] {
      HasKeyAt(d[..|d| - 1], k);
      if HasKey(d[..|d| - 1], k) {
        var i :| 0 <= i < |d| - 1 && d[..|d| - 1][i].0 == k;
        assert d[i].0 == k;
      }
    }
  }

  /** Rebinds the last binding of `k`, which must exist. */
  function Replace(d: Dict, k: string, v: Json): (r: Dict)
    requires HasKey(d, k)
    ensures |r| == |d|
    ensures forall i :: 0 <= i < |d| ==> r[i].0 == d[i].0
    decreases |d|
  {
    if d[|d| - 1].0 == k then d[..|d| - 1] + [(k, v)]
    else Replace(d[..|d| - 1], k, v) + [d[|d| - 1]]
  }

  lemma {:induction false} ReplaceGet(d: Dict, k: string, v: Json, k': string)
    requires HasKey(d, k)
    ensures Get(Replace(d, k, v), k') == if k' == k then Some(v) else Get(d, k')
    decreases |d|
  {
    var r := Replace(d, k, v);
    assert r[..|r| - 1] == if d[|d| - 1].0 == k then d[..|d| - 1] else Replace(d[..|d| - 1], k, v);
    if d[|d| - 1].0 != k {
      ReplaceGet(d[..|d| - 1], k, v, k');
    }
  }

  /**
   * `d[k] = v`: an existing key keeps its position and takes the new value;
   * a new key is appended. Every other key keeps its value.
   */
  function Set(d: Dict, k: string, v: Json): (r: Dict)
    ensures Get(r, k) == Some(v)
    ensures forall k' :: k' != k ==> Get(r, k') == Get(d, k')
    ensures |r| == if HasKey(d, k) then |d| else |d| + 1
    ensures forall i :: 0 <= i < |d| ==> r[i].0 == d[i].0
    ensures !HasKey(d, k) ==> r[|d|] == (k, v)
  {
    if HasKey(d, k) then
      var r := Replace(d, k, v);
      ReplaceGet(d, k, v, k);
      forall k' | k' != k ensures Get(r, k') == Get(d, k') {
        ReplaceGet(d, k, v, k');
      }
      r
    else
      var r := d + [(k, v)];
      assert r[..|r| - 1] == d;
      r
  }

  /** `{**m, **r}`: `m` overlaid with `r`, the bindings of `r` winning. */
  function Overlay(m: Dict, r: Dict): Dict
    decreases |r|
  {
    if r == [] then m else Set(Overlay(m, r[..|r| - 1]), r[|r| - 1].0, r[|r| - 1].1)
  }

  /** Every key of the overlay reads from `r` when `r` has it, else from `m`. */
  lemma {:induction false} OverlayGet(m: Dict, r: Dict, k: string)
    ensures Get(Overlay(m, r), k) == if HasKey(r, k) then Get(r, k) else Get(m, k)
    decreases |r|
  {
    if r != [] {
      OverlayGet(m, r[..|r| - 1], k);
    }
  }

  /**
   * The overlay keeps every key of `m` at its position and only appends
   * keys that `r` binds.
   */
  lemma {:induction false} OverlayKeys(m: Dict, r: Dict)
    ensures |Overlay(m, r)| >= |m|
    ensures forall i :: 0 <= i < |m| ==> Overlay(m, r)[i].0 == m[i].0
    ensures forall i :: |m| <= i < |Overlay(m, r)| ==> HasKey(r, Overlay(m, r)[i].0)
    decreases |r|
  {
    if r != [] {
      var init := r[..|r| - 1];
      var (k, v) := r[|r| - 1];
      OverlayKeys(m, init);
      var o := Overlay(m, init);
      var o' := Set(o, k, v);
      assert Overlay(m, r) == o';
      forall i | |m| <= i < |o'| ensures HasKey(r, o'[i].0) {
        if i < |o| {
          assert HasKey(init, o[i].0);
          HasKeyPrefix(r, o[i].0);
        } else {
          assert o'[i] == (k, v);
        }
      }
    }
  }

  /** The binding at position `i` is the one `Get` reads when no later pair rebinds its key. */
  lemma {:induction false} GetAt(d: Dict, i: nat)
    requires i < |d|
    requires forall j :: i < j < |d| ==> d[j].0 != d[i].0
    ensures Get(d, d[i].0) == Some(d[i].1)
    decreases |d|
  {
    if i < |d| - 1 {
      GetAt(d[..|d| - 1], i);
    }
  }

  /** A key bound in all but the last pair is bound in the whole dict. */
  lemma HasKeyPrefix(d: Dict, k: string)
    requires d != [] && HasKey(d[..|d| - 1], k)
    ensures HasKey(d, k)
  {
  }

  /**
   * Python equality of two hashable values used as dict keys: numbers and
   * booleans compare by numeric value (`True == 1 == 1.0`), everything
   * else structurally.
   */
  function NumericKey(v: Json): Option<real> {
    match v
    case JNum(n) => Some(n)
    case JBool(b) => Some(if b then 1.0 else 0.0)
    case _ => None
  }

  predicate KeyEq(a: Json, b: Json) {
    if NumericKey(a).Some? && NumericKey(b).Some? then NumericKey(a) == NumericKey(b) else a == b
  }

  /** Lists and dicts raise TypeError when used as dict keys. */
  predicate Hashable(v: Json) {
    !v.JArr? && !v.JObj?
  }
}
