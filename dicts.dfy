/** Insertion-ordered dictionaries with string keys, the model of a Python
    `dict` literal or a dictionary decoded from JSON: keys in insertion order,
    each with its value at the same position. */
module Dicts {
  import opened Wrappers

  predicate Distinct<T(==)>(s: seq<T>) {
    forall i, j :: 0 <= i < j < |s| ==> s[i] != s[j]
  }

  /** No element of `a` occurs in `b`. */
  predicate Apart<T(==)>(a: seq<T>, b: seq<T>) {
    forall i, j :: 0 <= i < |a| && 0 <= j < |b| ==> a[i] != b[j]
  }

  /** Two sequences without repetitions that share no element join into one
      without repetitions. */
  lemma DistinctJoin<T>(a: seq<T>, b: seq<T>)
    requires Distinct(a) && Distinct(b) && Apart(a, b)
    ensures Distinct(a + b)
  {
    forall i, j | 0 <= i < j < |a + b| ensures (a + b)[i] != (a + b)[j] {
      if j < |a| {
      } else if i >= |a| {
        assert (a + b)[i] == b[i - |a|] && (a + b)[j] == b[j - |a|];
      } else {
        assert (a + b)[j] == b[j - |a|];
      }
    }
  }

  /** The first position of `x` in `s`. */
  function IndexOf<T(==)>(s: seq<T>, x: T): (r: Option<nat>)
    ensures r.Some? ==> r.value < |s| && s[r.value] == x && x !in s[..r.value]
    ensures r.None? <==> x !in s
  {
    if |s| == 0 then None
    else if s[0] == x then Some(0)
    else match IndexOf(s[1..], x)
      case None => None
      case Some(k) => assert s[1..][..k] == s[1..k + 1]; Some(k + 1)
  }

  /** The last position of `x` in `s`. */
  function LastIndexOf<T(==)>(s: seq<T>, x: T): (r: Option<nat>)
    ensures r.Some? ==> r.value < |s| && s[r.value] == x && x !in s[r.value + 1..]
    ensures r.None? <==> x !in s
  {
    if |s| == 0 then None
    else if s[|s| - 1] == x then Some(|s| - 1)
    else
      var r := LastIndexOf(s[..|s| - 1], x);
      if r.Some? then assert s[r.value + 1..] == s[..|s| - 1][r.value + 1..] + [s[|s| - 1]]; r else r
  }

  /** In a sequence without repetitions the first and the last position of an
      element coincide. */
  lemma FirstIsLast<T>(s: seq<T>, x: T)
    requires Distinct(s) && x in s
    ensures IndexOf(s, x) == LastIndexOf(s, x)
  {
  }

  datatype Dict<V> = Dict(keys: seq<string>, vals: seq<V>) {

    /** What every Python dictionary satisfies: one value per key and no key
        twice. */
    ghost predicate Valid() {
      Shaped() && Distinct(keys)
    }

    /** One value per key. */
    predicate Shaped() {
      |keys| == |vals|
    }

    /** `d.get(k)`. */
    function Get(k: string): (r: Option<V>)
      requires |keys| == |vals|
      ensures r.Some? <==> k in keys
    {
      match IndexOf(keys, k)
      case None => None
      case Some(i) => Some(vals[i])
    }

    /** `d[k] = v`: an existing key keeps its position, a new key goes last. */
    function Put(k: string, v: V): (d: Dict<V>)
      requires Valid()
      ensures d.Valid()
      ensures k in keys ==> d.keys == keys
      ensures k !in keys ==> d.keys == keys + [k]
      ensures d.Get(k) == Some(v)
      ensures forall k' :: k' != k ==> d.Get(k') == Get(k')
      ensures k in keys ==> d.vals == vals[IndexOf(keys, k).value := v]
      ensures k !in keys ==> d.vals == vals + [v]
    {
      match IndexOf(keys, k)
      case Some(i) =>
        var d := Dict(keys, vals[i := v]);
        assert forall k' :: k' != k ==> d.Get(k') == Get(k') by {
          forall k' | k' != k ensures d.Get(k') == Get(k') {
            if k' in keys {
              var j := IndexOf(keys, k').value;
              assert j != i;
            }
          }
        }
        d
      case None =>
        var d := Dict(keys + [k], vals + [v]);
        assert IndexOf(d.keys, k) == Some(|keys|) by { assert d.keys[..|keys|] == keys; }
        assert forall k' :: k' != k ==> d.Get(k') == Get(k') by {
          forall k' | k' != k ensures d.Get(k') == Get(k') {
            if k' in keys {
              var j := IndexOf(keys, k').value;
              assert d.keys[..j] == keys[..j];
              assert IndexOf(d.keys, k') == Some(j);
            }
          }
        }
        d
    }
  }

  function Empty<V>(): (d: Dict<V>)
    ensures d.Valid() && d.keys == []
  {
    Dict([], [])
  }

  /** The key stored for `display` in the dictionary `{v: k for k, v in
      d.items()}`: a later key overwrites an earlier one with the same value,
      so it is the last key whose value is `display`. */
  function InverseGet(d: Dict<string>, display: string): (r: Option<string>)
    requires |d.keys| == |d.vals|
    ensures r.Some? <==> display in d.vals
    ensures r.Some? ==> exists i :: 0 <= i < |d.vals| && d.vals[i] == display && d.keys[i] == r.value && display !in d.vals[i + 1..]
  {
    match LastIndexOf(d.vals, display)
    case None => None
    case Some(i) => Some(d.keys[i])
  }
}
