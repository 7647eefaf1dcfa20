/**
 * A JavaScript object used as a dictionary: string keys in insertion order. Assigning to a key that
 * is already present keeps its place; a new key goes to the end (the order `Object.keys` and
 * `Object.entries` report for keys that are not integer-like).
 */
module Dict {
  import opened Wrappers

  type Dict<V> = seq<(string, V)>

  function Keys<V>(d: Dict<V>): (ks: seq<string>)
    ensures |ks| == |d| && forall i :: 0 <= i < |d| ==> ks[i] == d[i].0
  {
    seq(|d|, i requires 0 <= i < |d| => d[i].0)
  }

  ghost predicate DistinctKeys<V>(d: Dict<V>) {
    forall i, j :: 0 <= i < j < |d| ==> d[i].0 != d[j].0
  }

  /** `d[k]`, or None when `k` is not a key (`undefined`). */
  function Get<V(==)>(d: Dict<V>, k: string): (r: Option<V>)
    ensures r.Some? <==> k in Keys(d)
    ensures r.Some? ==> exists i :: 0 <= i < |d| && d[i] == (k, r.value)
  {
    if d == [] then None
    else if d[0].0 == k then Some(d[0].1)
    else
      var r := Get(d[1..], k);
      assert Keys(d) == [d[0].0] + Keys(d[1..]);
      if r.Some? then
        var i :| 0 <= i < |d[1..]| && d[1..][i] == (k, r.value);
        assert d[i + 1] == (k, r.value);
        r
      else r
  }

  /** `d[k] = v` on a copy. */
  function Put<V(==)>(d: Dict<V>, k: string, v: V): (r: Dict<V>)
    ensures Keys(r) == if k in Keys(d) then Keys(d) else Keys(d) + [k]
    ensures Get(r, k) == Some(v)
    ensures forall k' :: k' != k ==> Get(r, k') == Get(d, k')
  {
    if d == [] then
      assert Keys([(k, v)]) == [k];
      [(k, v)]
    else if d[0].0 == k then
      PutAtHead(d, k, v);
      [(k, v)] + d[1..]
    else
      var rest := Put(d[1..], k, v);
      PutBehindHead(d, k, v, rest);
      [d[0]] + rest
  }

  /** What `Put(d, k, v)` must return. */
  ghost predicate Written<V>(d: Dict<V>, k: string, v: V, r: Dict<V>) {
    && Keys(r) == (if k in Keys(d) then Keys(d) else Keys(d) + [k])
    && Get(r, k) == Some(v)
    && forall k' :: k' != k ==> Get(r, k') == Get(d, k')
  }

  lemma PutAtHead<V>(d: Dict<V>, k: string, v: V)
    requires d != [] && d[0].0 == k
    ensures Written(d, k, v, [(k, v)] + d[1..])
  {
    var tail := d[1..];
    assert d == [d[0]] + tail;
    ConsKeys(d[0], tail);
    ConsKeys((k, v), tail);
    forall k' | k' != k ensures Get([(k, v)] + tail, k') == Get(d, k') {
      ConsGet((k, v), tail, k');
      ConsGet(d[0], tail, k');
    }
    ConsGet((k, v), tail, k);
  }

  lemma PutBehindHead<V>(d: Dict<V>, k: string, v: V, rest: Dict<V>)
    requires d != [] && d[0].0 != k && Written(d[1..], k, v, rest)
    ensures Written(d, k, v, [d[0]] + rest)
  {
    var tail := d[1..];
    assert d == [d[0]] + tail;
    ConsKeys(d[0], tail);
    ConsKeys(d[0], rest);
    assert k in Keys(d) <==> k in Keys(tail);
    if k !in Keys(tail) {
      assert [d[0].0] + (Keys(tail) + [k]) == ([d[0].0] + Keys(tail)) + [k];
    }
    forall k' | k' != k ensures Get([d[0]] + rest, k') == Get(d, k') {
      ConsGet(d[0], rest, k');
      ConsGet(d[0], tail, k');
    }
    ConsGet(d[0], rest, k);
  }

  /** Lookups find the first entry with the key. */
  lemma {:induction false} GetFirst<V>(d: Dict<V>, i: nat)
    requires i < |d| && forall j :: 0 <= j < i ==> d[j].0 != d[i].0
    ensures Get(d, d[i].0) == Some(d[i].1)
  {
    if i > 0 {
      GetFirst(d[1..], i - 1);
    }
  }

  /** The keys of an entry in front of a dictionary. */
  lemma ConsKeys<V>(e: (string, V), d: Dict<V>)
    ensures Keys([e] + d) == [e.0] + Keys(d)
  {
    var r := [e] + d;
    assert forall i :: 1 <= i < |r| ==> r[i] == d[i - 1];
  }

  /** A lookup in front of a dictionary. */
  lemma ConsGet<V>(e: (string, V), d: Dict<V>, k: string)
    ensures Get([e] + d, k) == if e.0 == k then Some(e.1) else Get(d, k)
  {
    assert ([e] + d)[1..] == d;
  }

  /** Put keeps the keys distinct. */
  lemma PutDistinct<V>(d: Dict<V>, k: string, v: V)
    requires DistinctKeys(d)
    ensures DistinctKeys(Put(d, k, v))
  {
    var r := Put(d, k, v);
    forall i, j | 0 <= i < j < |r| ensures r[i].0 != r[j].0 {
      assert Keys(r)[i] == r[i].0 && Keys(r)[j] == r[j].0;
      if k !in Keys(d) && j == |d| {
        assert Keys(d)[i] == r[i].0;
      } else {
        assert Keys(d)[i] == r[i].0 && Keys(d)[j] == r[j].0;
      }
    }
  }

  /** Writing a key twice is writing it once with the second value. */
  lemma {:induction false} PutTwice<V>(d: Dict<V>, k: string, u: V, v: V)
    ensures Put(Put(d, k, u), k, v) == Put(d, k, v)
  {
    if d != [] && d[0].0 != k {
      PutTwice(d[1..], k, u, v);
      var once := Put(d[1..], k, u);
      assert ([d[0]] + once)[1..] == once;
    }
  }

  /** A lookup after a write. */
  lemma PutGet<V>(d: Dict<V>, k: string, v: V, k': string)
    ensures Get(Put(d, k, v), k') == if k' == k then Some(v) else Get(d, k')
  {
  }
}
