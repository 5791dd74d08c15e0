/**
 * JavaScript objects with string keys, as the panels use them for month
 * buckets and budget forms. An object is its list of entries in insertion
 * order, which is the order `Object.keys` and `Object.values` report for
 * keys that are not array indices ("2024-03", "Food", ...).
 */
module JsObjects {
  import opened Wrappers

  type Entries<V> = seq<(string, V)>

  /** No key occurs twice: what every JavaScript object satisfies. */
  predicate DistinctKeys<V>(o: Entries<V>) {
    o == [] || (o[0].0 !in KeySeq(o[1..]) && DistinctKeys(o[1..]))
  }

  /** `o[k]`, `None` standing for `undefined`. */
  function Lookup<V>(o: Entries<V>, k: string): (r: Option<V>)
    ensures r.Some? <==> k in KeySeq(o)
  {
    if o == [] then None
    else if o[0].0 == k then Some(o[0].1)
    else Lookup(o[1..], k)
  }

  /** `Object.keys(o)`. */
  function KeySeq<V>(o: Entries<V>): (ks: seq<string>)
    ensures |ks| == |o|
  {
    if o == [] then [] else [o[0].0] + KeySeq(o[1..])
  }

  /** The `i`-th key is the key of the `i`-th entry. */
  lemma {:induction false} KeySeqAt<V>(o: Entries<V>)
    ensures forall i | 0 <= i < |o| :: KeySeq(o)[i] == o[i].0
  {
    if o != [] {
      KeySeqAt(o[1..]);
      assert forall i | 1 <= i < |o| :: o[1..][i - 1] == o[i];
    }
  }

  /** Looking up a key in an object with one more entry in front. */
  lemma ConsLookup<V>(e: (string, V), rest: Entries<V>)
    ensures forall k :: Lookup([e] + rest, k) == if e.0 == k then Some(e.1) else Lookup(rest, k)
  {
    assert ([e] + rest)[1..] == rest;
  }

  /** The keys and the distinctness of an object with one more entry in front. */
  lemma ConsKeys<V>(e: (string, V), rest: Entries<V>)
    ensures KeySeq([e] + rest) == [e.0] + KeySeq(rest)
    ensures DistinctKeys([e] + rest) <==> e.0 !in KeySeq(rest) && DistinctKeys(rest)
  {
    assert ([e] + rest)[1..] == rest;
  }

  /** What `o[k] = v` promises of its result `r`. */
  ghost predicate IsSet<V>(o: Entries<V>, k: string, v: V, r: Entries<V>) {
    && Lookup(r, k) == Some(v)
    && (forall k' | k' != k :: Lookup(r, k') == Lookup(o, k'))
    && KeySeq(r) == (if Lookup(o, k).Some? then KeySeq(o) else KeySeq(o) + [k])
    && (DistinctKeys(o) ==> DistinctKeys(r))
  }

  /** Overwriting the first entry. */
  lemma SetFirst<V>(o: Entries<V>, k: string, v: V)
    requires o != [] && o[0].0 == k
    ensures IsSet(o, k, v, [(k, v)] + o[1..])
  {
    assert o == [o[0]] + o[1..];
    ConsLookup(o[0], o[1..]);
    ConsKeys(o[0], o[1..]);
    ConsLookup((k, v), o[1..]);
    ConsKeys((k, v), o[1..]);
  }

  /** Keeping the first entry in front of an object set further on. */
  lemma SetFurther<V>(o: Entries<V>, k: string, v: V, rest: Entries<V>)
    requires o != [] && o[0].0 != k && IsSet(o[1..], k, v, rest)
    ensures IsSet(o, k, v, [o[0]] + rest)
  {
    assert o == [o[0]] + o[1..];
    ConsLookup(o[0], o[1..]);
    ConsLookup(o[0], rest);
    SetFurtherKeys(o, k, v, rest);
  }

  lemma SetFurtherKeys<V>(o: Entries<V>, k: string, v: V, rest: Entries<V>)
    requires o != [] && o[0].0 != k
    requires Lookup(rest, k) == Some(v) && Lookup(o, k) == Lookup(o[1..], k)
    requires KeySeq(rest) == (if Lookup(o[1..], k).Some? then KeySeq(o[1..]) else KeySeq(o[1..]) + [k])
    requires DistinctKeys(o[1..]) ==> DistinctKeys(rest)
    ensures KeySeq([o[0]] + rest) == (if Lookup(o, k).Some? then KeySeq(o) else KeySeq(o) + [k])
    ensures DistinctKeys(o) ==> DistinctKeys([o[0]] + rest)
  {
    assert o == [o[0]] + o[1..];
    ConsKeys(o[0], o[1..]);
    ConsKeys(o[0], rest);
  }

  /** `o[k] = v`: an existing key keeps its place, a new key goes last. */
  function Set<V>(o: Entries<V>, k: string, v: V): (r: Entries<V>)
    ensures Lookup(r, k) == Some(v)
    ensures forall k' | k' != k :: Lookup(r, k') == Lookup(o, k')
    ensures KeySeq(r) == if Lookup(o, k).Some? then KeySeq(o) else KeySeq(o) + [k]
    ensures DistinctKeys(o) ==> DistinctKeys(r)
  {
    if o == [] then [(k, v)]
    else if o[0].0 == k then
      SetFirst(o, k, v);
      [(k, v)] + o[1..]
    else
      var rest := Set(o[1..], k, v);
      SetFurther(o, k, v, rest);
      [o[0]] + rest
  }

  /** Distinct keys, stated position by position. */
  lemma {:induction false} DistinctKeysAt<V>(o: Entries<V>)
    requires DistinctKeys(o)
    ensures forall i, j | 0 <= i < j < |o| :: o[i].0 != o[j].0
  {
    if o != [] {
      DistinctKeysAt(o[1..]);
      KeySeqAt(o[1..]);
      forall j | 0 < j < |o| ensures o[0].0 != o[j].0 {
        assert KeySeq(o[1..])[j - 1] == o[j].0;
      }
      forall i, j | 0 < i < j < |o| ensures o[i].0 != o[j].0 {
        assert o[1..][i - 1] == o[i] && o[1..][j - 1] == o[j];
      }
    }
  }

  /** With distinct keys, the entry at position `i` is what `o[key]` finds. */
  lemma {:induction false} LookupAt<V>(o: Entries<V>, i: nat)
    requires DistinctKeys(o) && i < |o|
    ensures Lookup(o, o[i].0) == Some(o[i].1)
  {
    if i > 0 {
      assert o[1..][i - 1] == o[i];
      KeySeqAt(o[1..]);
      LookupAt(o[1..], i - 1);
    }
  }

  /** `{ ...a, ...b }`: every entry of `b` written over `a`, in `b`'s order. */
  function Merge<V>(a: Entries<V>, b: Entries<V>): (r: Entries<V>)
    requires DistinctKeys(b)
    ensures forall k :: Lookup(r, k) == if Lookup(b, k).Some? then Lookup(b, k) else Lookup(a, k)
    ensures DistinctKeys(a) ==> DistinctKeys(r)
    decreases |b|
  {
    if b == [] then a
    else
      assert b == [b[0]] + b[1..];
      ConsLookup(b[0], b[1..]);
      ConsKeys(b[0], b[1..]);
      Merge(Set(a, b[0].0, b[0].1), b[1..])
  }

  /** `Object.values(o).reduce((s, v) => s + v, 0)`. */
  function SumValues(o: Entries<real>): real {
    if o == [] then 0.0 else o[0].1 + SumValues(o[1..])
  }

  /** Writing `v` at `k` replaces what `k` contributed to the sum by `v`. */
  lemma {:induction false} SumAfterSet(o: Entries<real>, k: string, v: real)
    requires DistinctKeys(o)
    ensures SumValues(Set(o, k, v)) == SumValues(o) - Lookup(o, k).GetOr(0.0) + v
  {
    if o != [] && o[0].0 != k {
      SumAfterSet(o[1..], k, v);
    }
  }

  /** The values at the keys `ks`, in that order, added up. */
  function SumAtKeys(o: Entries<real>, ks: seq<string>): real {
    if ks == [] then 0.0 else Lookup(o, ks[0]).GetOr(0.0) + SumAtKeys(o, ks[1..])
  }

  /** Taking one key out of the list takes its value out of the sum. */
  lemma {:induction false} SumAtKeysRemove(o: Entries<real>, ks: seq<string>, p: nat)
    requires p < |ks|
    ensures SumAtKeys(o, ks) == Lookup(o, ks[p]).GetOr(0.0) + SumAtKeys(o, ks[..p] + ks[p + 1..])
  {
    if p == 0 {
      assert ks[..0] + ks[1..] == ks[1..];
    } else {
      SumAtKeysRemove(o, ks[1..], p - 1);
      assert ks[..p] + ks[p + 1..] == [ks[0]] + (ks[1..][..p - 1] + ks[1..][p..]);
    }
  }

  /** Two objects that agree on the keys `ks` have the same sum at them. */
  lemma {:induction false} SumAtKeysAgree(a: Entries<real>, b: Entries<real>, ks: seq<string>)
    requires forall k | k in ks :: Lookup(a, k) == Lookup(b, k)
    ensures SumAtKeys(a, ks) == SumAtKeys(b, ks)
  {
    if ks != [] {
      SumAtKeysAgree(a, b, ks[1..]);
    }
  }

  /** Taking the element at `p` out of a list that holds one more `ks[p]` than `ts` leaves `ts`'s elements. */
  lemma MultisetRemoveAt(ks: seq<string>, p: nat, ts: seq<string>)
    requires p < |ks| && multiset(ks) == multiset([ks[p]] + ts)
    ensures multiset(ks[..p] + ks[p + 1..]) == multiset(ts)
  {
    var front, back, x := ks[..p], ks[p + 1..], [ks[p]];
    assert ks == front + x + back;
    assert multiset(ks) == multiset(front) + multiset(x) + multiset(back);
    assert multiset(x + ts) == multiset(x) + multiset(ts);
    assert multiset(front + back) == multiset(front) + multiset(back);
    assert multiset(front + back) == multiset(ks) - multiset(x);
    assert multiset(ts) == multiset(x + ts) - multiset(x);
  }

  /**
   * Adding up the values key by key, in any order of the keys, gives
   * `Object.values(o)` added up in insertion order.
   */
  lemma {:induction false} SumInAnyKeyOrder(o: Entries<real>, ks: seq<string>)
    requires DistinctKeys(o) && multiset(ks) == multiset(KeySeq(o))
    ensures SumAtKeys(o, ks) == SumValues(o)
  {
    if o == [] {
      assert |ks| == |multiset(ks)| == 0;
    } else {
      var k0 := o[0].0;
      assert KeySeq(o) == [k0] + KeySeq(o[1..]);
      assert k0 in multiset(ks);
      var p :| 0 <= p < |ks| && ks[p] == k0;
      var rest := ks[..p] + ks[p + 1..];
      MultisetRemoveAt(ks, p, KeySeq(o[1..]));
      SumAtKeysRemove(o, ks, p);
      forall k | k in rest ensures Lookup(o, k) == Lookup(o[1..], k) {
        assert k in multiset(KeySeq(o[1..]));
      }
      SumAtKeysAgree(o, o[1..], rest);
      SumInAnyKeyOrder(o[1..], rest);
    }
  }
}
