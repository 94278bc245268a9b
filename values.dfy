/**
  The documents, records and results the engine works on: deserialised JSON/YAML values.

  A Python dict is modelled as a sequence of (key, value) pairs, so that insertion order is kept.
  Keys are strings, as in JSON objects.  Dictionaries built by Python never repeat a key; all the
  operations below keep that property (`UniqueKeys`), and where a model value does repeat one, the
  LAST pair for a key is the one that counts, as in Python's `dict(pairs)`.
*/
module Values {
  import opened Wrappers

  datatype Value =
    | Null
    | Bool(b: bool)
    | Int(i: int)
    | Str(s: string)
    | List(items: seq<Value>)
    | Dict(fields: seq<(string, Value)>)
      /** One of the built-in functions an expression may call, by its Python name. */
    | Builtin(name: string)
      /** The `get(key, default=None)` helper, closed over the record it was made for. */
    | GetFn(env: seq<(string, Value)>)

  /** A record: the fields of one dict, in insertion order. */
  type Record = seq<(string, Value)>

  /** The keys of an association list, in order. */
  function Keys<V>(m: seq<(string, V)>): (ks: seq<string>)
    ensures |ks| == |m|
    ensures forall i :: 0 <= i < |m| ==> ks[i] == m[i].0
  {
    seq(|m|, i requires 0 <= i < |m| => m[i].0)
  }

  predicate UniqueKeys<V>(m: seq<(string, V)>) {
    forall i, j :: 0 <= i < j < |m| ==> m[i].0 != m[j].0
  }

  /** `d.get(k)`: the value bound to `k`. */
  function Lookup<V>(m: seq<(string, V)>, k: string): (r: Option<V>)
    ensures r.Some? <==> k in Keys(m)
    ensures r.Some? ==> (k, r.value) in m
  {
    if m == [] then None
    else if m[|m| - 1].0 == k then Some(m[|m| - 1].1)
    else Lookup(m[..|m| - 1], k)
  }

  /** `d[k] = v`: an existing key keeps its position, a new key goes last. */
  function Set<V>(m: seq<(string, V)>, k: string, v: V): (r: seq<(string, V)>)
    ensures Lookup(r, k) == Some(v)
    ensures forall k' :: k' != k ==> Lookup(r, k') == Lookup(m, k')
    ensures k in Keys(m) ==> Keys(r) == Keys(m)
    ensures k !in Keys(m) ==> Keys(r) == Keys(m) + [k]
  {
    if k in Keys(m) then Replace(m, k, v)
    else
      var r := m + [(k, v)];
      assert r[..|r| - 1] == m;
      r
  }

  /** Rebinds the last pair with key `k`, in place. */
  function Replace<V>(m: seq<(string, V)>, k: string, v: V): (r: seq<(string, V)>)
    requires k in Keys(m)
    ensures Lookup(r, k) == Some(v)
    ensures forall k' :: k' != k ==> Lookup(r, k') == Lookup(m, k')
    ensures Keys(r) == Keys(m)
  {
    var init, last := m[..|m| - 1], m[|m| - 1];
    assert Keys(m) == Keys(init) + [last.0];
    if last.0 == k then
      var r := init + [(k, v)];
      assert r[..|r| - 1] == init;
      r
    else
      var r := Replace(init, k, v) + [last];
      assert r[..|r| - 1] == Replace(init, k, v);
      r
  }

  lemma {:induction false} SetUnique<V>(m: seq<(string, V)>, k: string, v: V)
    requires UniqueKeys(m)
    ensures UniqueKeys(Set(m, k, v))
  {
    var r := Set(m, k, v);
    forall i, j | 0 <= i < j < |r| ensures r[i].0 != r[j].0 {
      assert r[i].0 == Keys(r)[i] && r[j].0 == Keys(r)[j];
      if k !in Keys(m) && j == |m| {
        assert Keys(m)[i] in Keys(m);
      } else {
        assert Keys(m)[i] == m[i].0 && Keys(m)[j] == m[j].0;
      }
    }
  }

  /** In a list without repeated keys, the lookup of the i-th key finds the i-th value. */
  lemma {:induction false} LookupUnique<V>(m: seq<(string, V)>, i: nat)
    requires UniqueKeys(m) && i < |m|
    ensures Lookup(m, m[i].0) == Some(m[i].1)
  {
    if i < |m| - 1 {
      assert m[|m| - 1].0 != m[i].0;
      LookupUnique(m[..|m| - 1], i);
    }
  }

  /** The elements of `s` in order, each kept only at its first occurrence. */
  function Dedup(s: seq<string>): (d: seq<string>)
    ensures forall x :: x in d <==> x in s
    ensures forall i, j :: 0 <= i < j < |d| ==> d[i] != d[j]
  {
    if s == [] then []
    else
      var d := Dedup(s[..|s| - 1]);
      if s[|s| - 1] in d then d else d + [s[|s| - 1]]
  }

  lemma {:induction false} DedupOfDistinct(s: seq<string>)
    requires forall i, j :: 0 <= i < j < |s| ==> s[i] != s[j]
    ensures Dedup(s) == s
  {
    if s != [] {
      DedupOfDistinct(s[..|s| - 1]);
      assert s[|s| - 1] !in s[..|s| - 1];
    }
  }

  /** The keys after setting one: the old keys and that key. */
  lemma {:induction false} SetHasKey<V>(m: seq<(string, V)>, k: string, v: V, j: string)
    ensures j in Keys(Set(m, k, v)) <==> j in Keys(m) || j == k
  {
  }

  /** A key is in an association list exactly when it is in its front or is its last key. */
  lemma {:induction false} KeysSnoc<V>(m: seq<(string, V)>, j: string)
    requires m != []
    ensures j in Keys(m) <==> j in Keys(m[..|m| - 1]) || j == m[|m| - 1].0
  {
    assert Keys(m) == Keys(m[..|m| - 1]) + [m[|m| - 1].0];
  }

  /** Setting a key never moves an existing key. */
  lemma {:induction false} SetKeysPrefix<V>(m: seq<(string, V)>, k: string, v: V, n: nat)
    requires n <= |m|
    ensures |m| <= |Set(m, k, v)|
    ensures Keys(Set(m, k, v))[..n] == Keys(m)[..n]
  {
    if k !in Keys(m) {
      assert Keys(Set(m, k, v))[..n] == (Keys(m) + [k])[..n];
    }
  }

  /** Assigning keys one after another leaves the distinct keys in order of first assignment. */
  lemma {:induction false} SetKeysDedup<V>(m: seq<(string, V)>, ks: seq<string>, k: string, v: V)
    requires Keys(m) == Dedup(ks)
    ensures Keys(Set(m, k, v)) == Dedup(ks + [k])
  {
    assert (ks + [k])[..|ks|] == ks;
  }

  /** Python `[dict, ...]`: the list value holding these records. */
  function RecordsValue(rs: seq<Record>): (v: Value)
    ensures v.List? && |v.items| == |rs|
    ensures forall i :: 0 <= i < |rs| ==> v.items[i] == Dict(rs[i])
  {
    List(seq(|rs|, i requires 0 <= i < |rs| => Dict(rs[i])))
  }
}
