/** PHP arrays with string keys, as used for request payloads, template
    parameters and usage maps: ordered association lists in which a key
    occurs at most once. */
module Assoc {
  import opened Wrappers

  /** The keys of `a`, in order (`array_keys`). */
  function Keys<V>(a: seq<(string, V)>): (ks: seq<string>)
    ensures |ks| == |a|
  {
    if a == [] then [] else [a[0].0] + Keys(a[1..])
  }

  lemma {:induction false} KeysAt<V>(a: seq<(string, V)>, i: nat)
    requires i < |a|
    ensures Keys(a)[i] == a[i].0
  {
    if i > 0 {
      KeysAt(a[1..], i - 1);
    }
  }

  /** A PHP array never holds the same key twice. */
  predicate DistinctKeys<V>(a: seq<(string, V)>) {
    forall i, j :: 0 <= i < j < |a| ==> a[i].0 != a[j].0
  }

  /** `$a[$k] ?? null`: the value stored under `k`, if any. */
  function Lookup<V>(a: seq<(string, V)>, k: string): (r: Option<V>)
    ensures r.Some? <==> k in Keys(a)
    ensures r.Some? ==> (k, r.value) in a
  {
    if a == [] then None
    else if a[0].0 == k then Some(a[0].1)
    else Lookup(a[1..], k)
  }

  /** In an array without duplicate keys, the value found under a key is the
      one stored at that key's position. */
  lemma {:induction false} LookupAt<V>(a: seq<(string, V)>, i: nat)
    requires DistinctKeys(a) && i < |a|
    ensures Lookup(a, a[i].0) == Some(a[i].1)
  {
    if i > 0 {
      assert a[0].0 != a[i].0;
      assert DistinctKeys(a[1..]) by {
        forall p, q | 0 <= p < q < |a[1..]| ensures a[1..][p].0 != a[1..][q].0 {
          assert a[1..][p] == a[p + 1] && a[1..][q] == a[q + 1];
        }
      }
      LookupAt(a[1..], i - 1);
    }
  }

  /** `$a[$k] = $v`: overwrites the value in place when `k` is present and
      appends a new entry otherwise. */
  function Put<V>(a: seq<(string, V)>, k: string, v: V): seq<(string, V)>
  {
    if a == [] then [(k, v)]
    else if a[0].0 == k then [(k, v)] + a[1..]
    else [a[0]] + Put(a[1..], k, v)
  }

  /** After `$a[$k] = $v`, `k` holds `v` and every other key is untouched. */
  lemma {:induction false} PutLookup<V>(a: seq<(string, V)>, k: string, v: V, k': string)
    ensures Lookup(Put(a, k, v), k') == if k' == k then Some(v) else Lookup(a, k')
  {
    if a != [] && a[0].0 != k {
      PutLookup(a[1..], k, v, k');
    }
  }

  /** `$a[$k] = $v` keeps the key order, and appends `k` when it is new. */
  lemma {:induction false} PutKeys<V>(a: seq<(string, V)>, k: string, v: V)
    ensures Keys(Put(a, k, v)) == if k in Keys(a) then Keys(a) else Keys(a) + [k]
  {
    if a != [] {
      var r := Put(a, k, v);
      if a[0].0 == k {
        assert r[1..] == a[1..];
      } else {
        PutKeys(a[1..], k, v);
        assert r[1..] == Put(a[1..], k, v);
        assert Keys(a) == [a[0].0] + Keys(a[1..]);
      }
    }
  }

  /** `$a[$k] = $v` never creates a second entry for a key. */
  lemma {:induction false} PutDistinct<V>(a: seq<(string, V)>, k: string, v: V)
    requires DistinctKeys(a)
    ensures DistinctKeys(Put(a, k, v))
  {
    PutKeys(a, k, v);
    var r := Put(a, k, v);
    forall i, j | 0 <= i < j < |r| ensures r[i].0 != r[j].0 {
      KeysAt(r, i);
      KeysAt(r, j);
      KeysAt(a, i);
      if j < |a| {
        KeysAt(a, j);
      }
    }
  }

  /** `array_merge($a, $b)` for string keys: the entries of `b` are put into
      `a` one after the other, so a key keeps its first position and takes
      its last value. */
  function Merge<V>(a: seq<(string, V)>, b: seq<(string, V)>): seq<(string, V)>
    decreases |b|
  {
    if b == [] then a else Merge(Put(a, b[0].0, b[0].1), b[1..])
  }

  /** The keys of `ks` that are not in `seen`, in the order of `ks`. */
  function Unseen(seen: seq<string>, ks: seq<string>): seq<string>
  {
    if ks == [] then []
    else (if ks[0] in seen then [] else [ks[0]]) + Unseen(seen, ks[1..])
  }

  lemma {:induction false} UnseenExtend(seen: seq<string>, x: string, ks: seq<string>)
    requires x !in ks
    ensures Unseen(seen + [x], ks) == Unseen(seen, ks)
  {
    if ks != [] {
      UnseenExtend(seen, x, ks[1..]);
    }
  }

  lemma DistinctTail<V>(a: seq<(string, V)>)
    requires DistinctKeys(a) && a != []
    ensures DistinctKeys(a[1..]) && a[0].0 !in Keys(a[1..])
  {
    forall p, q | 0 <= p < q < |a[1..]| ensures a[1..][p].0 != a[1..][q].0 {
      assert a[1..][p] == a[p + 1] && a[1..][q] == a[q + 1];
    }
    forall j | 0 <= j < |a[1..]| ensures Keys(a[1..])[j] != a[0].0 {
      KeysAt(a[1..], j);
    }
  }

  /** After `array_merge($a, $b)`, a key of `b` holds `b`'s value and every
      other key holds `a`'s: the later array wins. */
  lemma {:induction false} MergeLookup<V>(a: seq<(string, V)>, b: seq<(string, V)>, k: string)
    requires DistinctKeys(b)
    ensures Lookup(Merge(a, b), k) == if k in Keys(b) then Lookup(b, k) else Lookup(a, k)
    decreases |b|
  {
    if b != [] {
      DistinctTail(b);
      PutLookup(a, b[0].0, b[0].1, k);
      MergeLookup(Put(a, b[0].0, b[0].1), b[1..], k);
    }
  }

  /** After `array_merge($a, $b)`, the keys are those of `a` in their old
      positions followed by the keys of `b` that `a` lacks, in `b`'s order. */
  lemma {:induction false} MergeKeys<V>(a: seq<(string, V)>, b: seq<(string, V)>)
    requires DistinctKeys(b)
    ensures Keys(Merge(a, b)) == Keys(a) + Unseen(Keys(a), Keys(b))
    decreases |b|
  {
    if b != [] {
      var a', x := Put(a, b[0].0, b[0].1), b[0].0;
      DistinctTail(b);
      PutKeys(a, x, b[0].1);
      MergeKeys(a', b[1..]);
      assert Merge(a, b) == Merge(a', b[1..]);
      assert Keys(b) == [x] + Keys(b[1..]);
      UnseenStep(Keys(a), x, Keys(b[1..]), Keys(a'), Keys(Merge(a, b)));
    }
  }

  /** One step of `array_merge`'s key order. */
  lemma UnseenStep(ka: seq<string>, x: string, kb: seq<string>, ka': seq<string>, km: seq<string>)
    requires x !in kb
    requires ka' == if x in ka then ka else ka + [x]
    requires km == ka' + Unseen(ka', kb)
    ensures km == ka + Unseen(ka, [x] + kb)
  {
    UnseenCons(ka, [x] + kb);
    assert ([x] + kb)[1..] == kb;
    if x !in ka {
      UnseenExtend(ka, x, kb);
    }
  }

  lemma UnseenCons(seen: seq<string>, ks: seq<string>)
    requires ks != []
    ensures Unseen(seen, ks) == (if ks[0] in seen then [] else [ks[0]]) + Unseen(seen, ks[1..])
  {
  }

  /** `array_merge` of two PHP arrays is again a PHP array: no key twice. */
  lemma {:induction false} MergeDistinct<V>(a: seq<(string, V)>, b: seq<(string, V)>)
    requires DistinctKeys(a)
    ensures DistinctKeys(Merge(a, b))
    decreases |b|
  {
    if b != [] {
      PutDistinct(a, b[0].0, b[0].1);
      MergeDistinct(Put(a, b[0].0, b[0].1), b[1..]);
    }
  }

  /** An array literal whose keys, read off one by one, are `keys` and
      pairwise different. */
  lemma LiteralKeys<V>(base: seq<(string, V)>, keys: seq<string>)
    requires |base| == |keys| && forall i :: 0 <= i < |base| ==> base[i].0 == keys[i]
    requires forall i, j :: 0 <= i < j < |keys| ==> keys[i] != keys[j]
    ensures Keys(base) == keys && DistinctKeys(base)
  {
    forall i | 0 <= i < |base| ensures Keys(base)[i] == keys[i] {
      KeysAt(base, i);
    }
  }
}
