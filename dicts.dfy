/**
 * A Python dict with string keys: a list of entries in insertion order whose keys
 * are pairwise distinct. Assigning to an existing key keeps its position;
 * assigning to a new key appends it.
 */
module Dicts {
  import opened Wrappers

  type Dict<V> = seq<(string, V)>

  function Keys<V>(d: Dict<V>): (ks: seq<string>)
    ensures |ks| == |d|
    ensures forall i :: 0 <= i < |d| ==> ks[i] == d[i].0
  {
    if d == [] then [] else [d[0].0] + Keys(d[1..])
  }

  predicate DistinctKeys<V>(d: Dict<V>) {
    forall i, j :: 0 <= i < j < |d| ==> d[i].0 != d[j].0
  }

  /** d.get(k): the value of the entry whose key is k, if there is one. */
  function Get<V>(d: Dict<V>, k: string): (r: Option<V>)
    ensures r.None? <==> k !in Keys(d)
  {
    if d == [] then None
    else if d[0].0 == k then Some(d[0].1)
    else Get(d[1..], k)
  }

  lemma KeysCons<V>(entry: (string, V), d: Dict<V>)
    ensures Keys([entry] + d) == [entry.0] + Keys(d)
  {
  }

  lemma GetCons<V>(entry: (string, V), d: Dict<V>, k: string)
    ensures Get([entry] + d, k) == if entry.0 == k then Some(entry.1) else Get(d, k)
  {
    assert ([entry] + d)[1..] == d;
  }

  lemma DistinctCons<V>(entry: (string, V), d: Dict<V>)
    requires DistinctKeys(d) && entry.0 !in Keys(d)
    ensures DistinctKeys([entry] + d)
  {
    forall i, j | 0 <= i < j < |[entry] + d| ensures ([entry] + d)[i].0 != ([entry] + d)[j].0 {
      if i == 0 {
        assert ([entry] + d)[j].0 == Keys(d)[j - 1];
      }
    }
  }

  /** r is d with k set to v: what the assignment d[k] = v promises. */
  ghost predicate Assigned<V>(d: Dict<V>, k: string, v: V, r: Dict<V>) {
    && DistinctKeys(r)
    && Keys(r) == (if k in Keys(d) then Keys(d) else Keys(d) + [k])
    && Get(r, k) == Some(v)
    && forall k' :: k' != k ==> Get(r, k') == Get(d, k')
  }

  lemma AssignHead<V>(head: (string, V), tail: Dict<V>, k: string, v: V)
    requires DistinctKeys([head] + tail) && head.0 == k
    ensures Assigned([head] + tail, k, v, [(k, v)] + tail)
  {
    var d, r := [head] + tail, [(k, v)] + tail;
    assert DistinctKeys(tail) by {
      forall i, j | 0 <= i < j < |tail| ensures tail[i].0 != tail[j].0 {
        assert tail[i] == d[i + 1] && tail[j] == d[j + 1];
      }
    }
    KeysCons(head, tail);
    KeysCons((k, v), tail);
    DistinctCons((k, v), tail);
    forall k' | k' != k ensures Get(r, k') == Get(d, k') {
      GetCons((k, v), tail, k');
      GetCons(head, tail, k');
    }
    GetCons((k, v), tail, k);
  }

  lemma AssignCons<V>(head: (string, V), tail: Dict<V>, k: string, v: V, rest: Dict<V>)
    requires DistinctKeys([head] + tail) && head.0 != k
    requires Assigned(tail, k, v, rest)
    ensures Assigned([head] + tail, k, v, [head] + rest)
  {
    var d, r := [head] + tail, [head] + rest;
    KeysCons(head, tail);
    KeysCons(head, rest);
    assert head.0 !in Keys(tail) by {
      forall i | 0 <= i < |tail| ensures Keys(tail)[i] != head.0 {
        assert tail[i] == d[i + 1];
      }
    }
    assert k in Keys(d) <==> k in Keys(tail);
    if k !in Keys(tail) {
      assert Keys(r) == [head.0] + (Keys(tail) + [k]) == Keys(d) + [k];
    }
    DistinctCons(head, rest);
    forall k' ensures Get(r, k') == (if k' == head.0 then Some(head.1) else Get(rest, k'))
      && Get(d, k') == (if k' == head.0 then Some(head.1) else Get(tail, k'))
    {
      GetCons(head, rest, k');
      GetCons(head, tail, k');
    }
  }

  /** The entry k: v when there is a value, and no entry otherwise. */
  function Optional<V>(k: string, v: Option<V>): (d: Dict<V>)
    ensures DistinctKeys(d)
    ensures Keys(d) == if v.Some? then [k] else []
    ensures forall k' :: Get(d, k') == if k' == k then v else None
  {
    if v.Some? then [(k, v.value)] else []
  }

  /** d[k] = v */
  function Put<V>(d: Dict<V>, k: string, v: V): (r: Dict<V>)
    requires DistinctKeys(d)
    ensures DistinctKeys(r)
    ensures Keys(r) == if k in Keys(d) then Keys(d) else Keys(d) + [k]
    ensures Get(r, k) == Some(v)
    ensures forall k' :: k' != k ==> Get(r, k') == Get(d, k')
  {
    if d == [] then [(k, v)]
    else
      assert d == [d[0]] + d[1..];
      if d[0].0 == k then
        AssignHead(d[0], d[1..], k, v);
        [(k, v)] + d[1..]
      else
        assert DistinctKeys(d[1..]) by {
          forall i, j | 0 <= i < j < |d[1..]| ensures d[1..][i].0 != d[1..][j].0 {
            assert d[1..][i] == d[i + 1] && d[1..][j] == d[j + 1];
          }
        }
        var rest := Put(d[1..], k, v);
        AssignCons(d[0], d[1..], k, v, rest);
        [d[0]] + rest
  }

  /** if v is not None: d[k] = v */
  function PutIf<V>(d: Dict<V>, k: string, v: Option<V>): (r: Dict<V>)
    requires DistinctKeys(d)
    ensures DistinctKeys(r)
    ensures Keys(r) == if v.Some? && k !in Keys(d) then Keys(d) + [k] else Keys(d)
    ensures forall k' :: Get(r, k') == if k' == k && v.Some? then v else Get(d, k')
  {
    if v.Some? then Put(d, k, v.value) else d
  }

  /** The keys of ks that are not in known, in the order of ks. */
  function FreshKeys(known: seq<string>, ks: seq<string>): seq<string>
  {
    if ks == [] then []
    else (if ks[0] in known then [] else [ks[0]]) + FreshKeys(known, ks[1..])
  }

  /** The fresh keys are exactly the keys of ks that are not known. */
  lemma {:induction false} FreshKeysMembers(known: seq<string>, ks: seq<string>, k: string)
    ensures k in FreshKeys(known, ks) <==> k in ks && k !in known
  {
    if ks != [] {
      FreshKeysMembers(known, ks[1..], k);
      assert ks == [ks[0]] + ks[1..];
    }
  }

  /** A key that does not occur in ks makes no difference to which of ks are fresh. */
  lemma {:induction false} FreshKeysIgnores(known: seq<string>, x: string, ks: seq<string>)
    requires x !in ks
    ensures FreshKeys(known + [x], ks) == FreshKeys(known, ks)
  {
    if ks != [] {
      assert ks[0] in known + [x] <==> ks[0] in known;
      FreshKeysIgnores(known, x, ks[1..]);
    }
  }

  /** The fresh keys of [x] + rest: x itself when it is not known, then those of rest. */
  lemma FreshKeysCons(known: seq<string>, x: string, rest: seq<string>)
    ensures FreshKeys(known, [x] + rest) == (if x in known then [] else [x]) + FreshKeys(known, rest)
  {
    assert ([x] + rest)[0] == x && ([x] + rest)[1..] == rest;
  }

  /** Adding x to the known keys (as Put does) and then taking the fresh keys of the rest
      yields the known keys followed by the fresh keys of [x] + rest. */
  lemma FreshKeysStep(known: seq<string>, x: string, rest: seq<string>)
    requires x !in rest
    ensures var known' := if x in known then known else known + [x];
      known' + FreshKeys(known', rest) == known + FreshKeys(known, [x] + rest)
  {
    FreshKeysCons(known, x, rest);
    if x !in known {
      FreshKeysIgnores(known, x, rest);
      var f := FreshKeys(known, rest);
      assert (known + [x]) + f == known + ([x] + f);
    }
  }

  /** A mapping with distinct keys: its tail too, and its first key is not among the tail's. */
  lemma DistinctTail<V>(m: Dict<V>)
    requires m != [] && DistinctKeys(m)
    ensures DistinctKeys(m[1..]) && m[0].0 !in Keys(m[1..])
  {
    forall i, j | 0 <= i < j < |m[1..]| ensures m[1..][i].0 != m[1..][j].0 {
      assert m[1..][i] == m[i + 1] && m[1..][j] == m[j + 1];
    }
    forall i | 0 <= i < |m[1..]| ensures Keys(m[1..])[i] != m[0].0 {
      assert m[1..][i] == m[i + 1];
    }
  }

  /** d |= m: every entry of the mapping m, in m's order, assigned into d. */
  function Merge<V>(d: Dict<V>, m: Dict<V>): (r: Dict<V>)
    requires DistinctKeys(d) && DistinctKeys(m)
    ensures DistinctKeys(r)
    ensures Keys(d) <= Keys(r)
    ensures forall k :: Get(r, k) == if k in Keys(m) then Get(m, k) else Get(d, k)
    decreases |m|
  {
    if m == [] then d
    else
      assert m == [m[0]] + m[1..];
      assert DistinctKeys(m[1..]) by {
        forall i, j | 0 <= i < j < |m[1..]| ensures m[1..][i].0 != m[1..][j].0 {
          assert m[1..][i] == m[i + 1] && m[1..][j] == m[j + 1];
        }
      }
      var d' := Put(d, m[0].0, m[0].1);
      var r := Merge(d', m[1..]);
      MergeStep(d, m[0], m[1..], d', r);
      r
  }

  lemma MergeStep<V>(d: Dict<V>, head: (string, V), tail: Dict<V>, d': Dict<V>, r: Dict<V>)
    requires DistinctKeys(d) && DistinctKeys([head] + tail)
    requires d' == Put(d, head.0, head.1)
    requires Keys(d') <= Keys(r)
    requires forall k :: Get(r, k) == if k in Keys(tail) then Get(tail, k) else Get(d', k)
    ensures Keys(d) <= Keys(r)
    ensures forall k :: Get(r, k) == if k in Keys([head] + tail) then Get([head] + tail, k) else Get(d, k)
  {
    KeysCons(head, tail);
    assert head.0 !in Keys(tail) by {
      forall i | 0 <= i < |tail| ensures Keys(tail)[i] != head.0 {
        assert tail[i] == ([head] + tail)[i + 1];
      }
    }
    forall k ensures Get(r, k) == if k in Keys([head] + tail) then Get([head] + tail, k) else Get(d, k) {
      GetCons(head, tail, k);
      if k == head.0 {
        assert Get(r, k) == Get(d', k) == Some(head.1);
      } else {
        assert k in Keys([head] + tail) <==> k in Keys(tail);
        assert Get(d', k) == Get(d, k);
      }
    }
    assert Keys(d) <= Keys(d');
  }

  /** d |= m keeps d's keys where they were and appends the keys of m that d lacks, in m's order. */
  lemma {:induction false} MergeKeyOrder<V>(d: Dict<V>, m: Dict<V>)
    requires DistinctKeys(d) && DistinctKeys(m)
    ensures Keys(Merge(d, m)) == Keys(d) + FreshKeys(Keys(d), Keys(m))
    decreases |m|
  {
    if m != [] {
      DistinctTail(m);
      var d' := Put(d, m[0].0, m[0].1);
      assert Merge(d, m) == Merge(d', m[1..]);
      MergeKeyOrder(d', m[1..]);
      KeysCons(m[0], m[1..]);
      assert m == [m[0]] + m[1..];
      FreshKeysStep(Keys(d), m[0].0, Keys(m[1..]));
    }
  }
}
