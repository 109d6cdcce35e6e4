/** Python's insertion-ordered `dict` with string keys, as a sequence of entries. */
module Dicts {
  import opened Wrappers

  /** Entries in insertion order; a dict never holds the same key twice (`DistinctKeys`). */
  type Dict<V> = seq<(string, V)>

  function Keys<V>(d: Dict<V>): (ks: seq<string>)
    ensures |ks| == |d|
    ensures forall i :: 0 <= i < |d| ==> ks[i] == d[i].0
  {
    seq(|d|, i requires 0 <= i < |d| => d[i].0)
  }

  predicate DistinctKeys<V>(d: Dict<V>) {
    forall i, j :: 0 <= i < j < |d| ==> d[i].0 != d[j].0
  }

  /** `d.get(k)`. */
  function Get<V>(d: Dict<V>, k: string): (r: Option<V>)
    ensures r.Some? <==> k in Keys(d)
    ensures r.Some? ==> (k, r.value) in d
  {
    if |d| == 0 then None
    else if d[0].0 == k then Some(d[0].1)
    else Get(d[1..], k)
  }

  /** `d[k] = v`: an existing key keeps its place, a new key goes last. */
  function Put<V>(d: Dict<V>, k: string, v: V): (r: Dict<V>)
    ensures Keys(r) == if k in Keys(d) then Keys(d) else Keys(d) + [k]
  {
    if |d| == 0 then [(k, v)]
    else if d[0].0 == k then [(k, v)] + d[1..]
    else [d[0]] + Put(d[1..], k, v)
  }

  /** `del d[k]` (and a no-op when `k` is absent). */
  function Remove<V>(d: Dict<V>, k: string): (r: Dict<V>)
    ensures k !in Keys(r)
    ensures forall i :: 0 <= i < |r| ==> r[i] in d && r[i].0 != k
    ensures forall i :: 0 <= i < |d| && d[i].0 != k ==> d[i] in r
  {
    if |d| == 0 then []
    else if d[0].0 == k then Remove(d[1..], k)
    else [d[0]] + Remove(d[1..], k)
  }

  /** The mapping a dict denotes; two dicts compare equal in Python exactly when these agree. */
  function ToMap<V>(d: Dict<V>): (m: map<string, V>)
    ensures m.Keys == set k | k in Keys(d)
  {
    if |d| == 0 then map[] else ToMap(d[1..])[d[0].0 := d[0].1]
  }

  /** Python `==` on two dicts: same keys, same values, insertion order ignored. */
  predicate Same<V(==)>(a: Dict<V>, b: Dict<V>) {
    ToMap(a) == ToMap(b)
  }

  lemma {:induction false} PutAppends<V>(d: Dict<V>, k: string, v: V)
    requires k !in Keys(d)
    ensures Put(d, k, v) == d + [(k, v)]
  {
    if |d| > 0 {
      assert k != Keys(d)[0];
      assert Keys(d[1..]) == Keys(d)[1..];
      PutAppends(d[1..], k, v);
    }
  }

  lemma {:induction false} PutReplacesLast<V>(d: Dict<V>, k: string, v: V, w: V)
    requires k !in Keys(d)
    ensures Put(d + [(k, v)], k, w) == d + [(k, w)]
  {
    if |d| == 0 {
      assert d + [(k, v)] == [(k, v)];
    } else {
      assert k != Keys(d)[0];
      assert Keys(d[1..]) == Keys(d)[1..];
      assert (d + [(k, v)])[1..] == d[1..] + [(k, v)];
      PutReplacesLast(d[1..], k, v, w);
    }
  }

  lemma {:induction false} PutGet<V>(d: Dict<V>, k: string, v: V, k': string)
    ensures Get(Put(d, k, v), k') == if k' == k then Some(v) else Get(d, k')
  {
    if |d| > 0 && d[0].0 != k {
      PutGet(d[1..], k, v, k');
    }
  }

  /** A key appended last to a dict without it is found with its value. */
  lemma {:induction false} GetLast<V>(d: Dict<V>, k: string, v: V)
    requires k !in Keys(d)
    ensures Get(d + [(k, v)], k) == Some(v)
  {
    if |d| > 0 {
      assert k != Keys(d)[0];
      assert Keys(d[1..]) == Keys(d)[1..];
      assert (d + [(k, v)])[1..] == d[1..] + [(k, v)];
      GetLast(d[1..], k, v);
    }
  }

  /** The value of the first entry with a given key is what `Get` finds. */
  lemma {:induction false} GetAt<V>(d: Dict<V>, i: nat)
    requires i < |d|
    requires forall j :: 0 <= j < i ==> d[j].0 != d[i].0
    ensures Get(d, d[i].0) == Some(d[i].1)
  {
    if i > 0 {
      assert d[0].0 != d[i].0;
      assert forall j :: 0 <= j < i - 1 ==> d[1..][j] == d[j + 1];
      GetAt(d[1..], i - 1);
    }
  }

  /** `Get` on a literal dict of two, three or four entries with distinct keys. */
  lemma Get2<V>(a: string, x: V, b: string, y: V)
    requires a != b
    ensures Get([(a, x), (b, y)], a) == Some(x)
    ensures Get([(a, x), (b, y)], b) == Some(y)
  {
    GetAt([(a, x), (b, y)], 0);
    GetAt([(a, x), (b, y)], 1);
  }

  lemma Get3<V>(a: string, x: V, b: string, y: V, c: string, z: V)
    requires a != b && a != c && b != c
    ensures Get([(a, x), (b, y), (c, z)], a) == Some(x)
    ensures Get([(a, x), (b, y), (c, z)], b) == Some(y)
    ensures Get([(a, x), (b, y), (c, z)], c) == Some(z)
  {
    GetAt([(a, x), (b, y), (c, z)], 0);
    GetAt([(a, x), (b, y), (c, z)], 1);
    GetAt([(a, x), (b, y), (c, z)], 2);
  }

  lemma Get4<V>(a: string, x: V, b: string, y: V, c: string, z: V, e: string, w: V)
    requires a != b && a != c && a != e && b != c && b != e && c != e
    ensures Get([(a, x), (b, y), (c, z), (e, w)], b) == Some(y)
    ensures Get([(a, x), (b, y), (c, z), (e, w)], c) == Some(z)
    ensures Get([(a, x), (b, y), (c, z), (e, w)], e) == Some(w)
  {
    var d := [(a, x), (b, y), (c, z), (e, w)];
    assert d[1..] == [(b, y), (c, z), (e, w)];
    Get3(b, y, c, z, e, w);
  }

  /** A non-empty sequence is its head followed by its tail. */
  lemma HeadTail<T>(s: seq<T>)
    requires |s| > 0
    ensures [s[0]] + s[1..] == s
  {
  }
}
