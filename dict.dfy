/** A JavaScript object used as a dictionary with string-like keys, and an FSDB record
    subtree: entries in insertion order, `obj[k] = v` keeps an existing key in place and
    appends a new one, `delete obj[k]` removes it. `Object.entries` and `for ... in`
    walk the entries in this order. */
module Dict {
  import opened Wrappers

  datatype Entry<K, V> = Entry(key: K, value: V)

  /** `Object.keys(d)` */
  function Keys<K, V>(d: seq<Entry<K, V>>): (ks: seq<K>)
    ensures |ks| == |d|
    ensures forall i :: 0 <= i < |d| ==> ks[i] == d[i].key
    decreases |d|
  {
    if d == [] then [] else [d[0].key] + Keys(d[1..])
  }

  /** A well-formed object has each key at most once. */
  predicate UniqueKeys<K(==), V>(d: seq<Entry<K, V>>) {
    forall i, j :: 0 <= i < j < |d| ==> d[i].key != d[j].key
  }

  /** `k in d` */
  predicate Has<K(==), V>(d: seq<Entry<K, V>>, k: K) {
    k in Keys(d)
  }

  /** `d[k]`, `undefined` being `None`. */
  function Find<K(==), V(==)>(d: seq<Entry<K, V>>, k: K): (r: Option<V>)
    ensures r.Some? <==> Has(d, k)
    ensures r.Some? ==> Entry(k, r.value) in d
    decreases |d|
  {
    if d == [] then None
    else if d[0].key == k then Some(d[0].value)
    else Find(d[1..], k)
  }

  /** `d[k] = v` */
  function Put<K(==,!new), V(==)>(d: seq<Entry<K, V>>, k: K, v: V): (r: seq<Entry<K, V>>)
    ensures |r| == if Has(d, k) then |d| else |d| + 1
    decreases |d|
  {
    if d == [] then [Entry(k, v)]
    else if d[0].key == k then [Entry(k, v)] + d[1..]
    else [d[0]] + Put(d[1..], k, v)
  }

  /** `delete d[k]` */
  function Remove<K(==,!new), V(==)>(d: seq<Entry<K, V>>, k: K): (r: seq<Entry<K, V>>)
    decreases |d|
  {
    if d == [] then []
    else if d[0].key == k then Remove(d[1..], k)
    else [d[0]] + Remove(d[1..], k)
  }

  /** The index of the first entry whose value satisfies `p`
      (`Object.entries(d).find(e => p(e[1]))`). */
  function FirstWhere<K, V>(d: seq<Entry<K, V>>, p: V -> bool): (r: Option<nat>)
    ensures r.Some? ==> r.value < |d| && p(d[r.value].value)
    ensures r.Some? ==> forall j :: 0 <= j < r.value ==> !p(d[j].value)
    ensures r.None? ==> forall j :: 0 <= j < |d| ==> !p(d[j].value)
    decreases |d|
  {
    if d == [] then None
    else if p(d[0].value) then Some(0)
    else match FirstWhere(d[1..], p)
      case None => None
      case Some(i) => Some(i + 1)
  }

  /** The entries whose key satisfies `p`, in order
      (`Object.entries(d).filter(e => p(e[0]))`). */
  function FilterKeys<K(==), V(==)>(d: seq<Entry<K, V>>, p: K -> bool): (r: seq<Entry<K, V>>)
    ensures forall i :: 0 <= i < |r| ==> r[i] in d && p(r[i].key)
    ensures forall i :: 0 <= i < |d| && p(d[i].key) ==> d[i] in r
    ensures |r| <= |d|
    decreases |d|
  {
    if d == [] then []
    else if p(d[0].key) then [d[0]] + FilterKeys(d[1..], p)
    else FilterKeys(d[1..], p)
  }

  /** In a well-formed object an entry found by position is the one `Find` returns. */
  lemma FindAt<K, V>(d: seq<Entry<K, V>>, i: nat)
    requires UniqueKeys(d) && i < |d|
    ensures Find(d, d[i].key) == Some(d[i].value)
    decreases |d|
  {
    if i > 0 {
      FindAt(d[1..], i - 1);
    }
  }

  /** The rest of a well-formed object is well formed and lacks its first key. */
  lemma UniqueKeysTail<K, V>(d: seq<Entry<K, V>>)
    requires UniqueKeys(d) && d != []
    ensures UniqueKeys(d[1..]) && !Has(d[1..], d[0].key)
  {
    forall m | 0 <= m < |d| - 1 ensures Keys(d[1..])[m] != d[0].key {
      assert Keys(d[1..])[m] == d[m + 1].key;
    }
  }

  lemma KeysCons<K, V>(e: Entry<K, V>, d: seq<Entry<K, V>>)
    ensures Keys([e] + d) == [e.key] + Keys(d)
  {
    assert ([e] + d)[1..] == d;
  }

  /** Setting a key keeps the key order; a new key goes last. */
  lemma {:induction false} PutKeys<K(!new), V>(d: seq<Entry<K, V>>, k: K, v: V)
    ensures Keys(Put(d, k, v)) == if Has(d, k) then Keys(d) else Keys(d) + [k]
    decreases |d|
  {
    if d == [] {
      assert Keys(Put(d, k, v)) == [k];
    } else if d[0].key == k {
      var r := Put(d, k, v);
      assert Keys(d)[0] == k;
      assert |r| == |d| && forall i :: 0 <= i < |d| ==> r[i].key == d[i].key;
      assert Keys(r) == Keys(d);
    } else {
      var rest := Put(d[1..], k, v);
      PutKeys(d[1..], k, v);
      assert Put(d, k, v) == [d[0]] + rest;
      KeysCons(d[0], rest);
      KeysCons(d[0], d[1..]);
      assert d == [d[0]] + d[1..];
      PutKeysHead(d, k);
      if Has(d[1..], k) {
        assert Keys(Put(d, k, v)) == [d[0].key] + Keys(d[1..]);
      } else {
        assert Keys(Put(d, k, v)) == [d[0].key] + (Keys(d[1..]) + [k]);
      }
    }
  }

  lemma PutKeysHead<K, V>(d: seq<Entry<K, V>>, k: K)
    requires d != [] && d[0].key != k
    ensures Has(d, k) == Has(d[1..], k)
  {
    KeysCons(d[0], d[1..]);
    assert d == [d[0]] + d[1..];
  }

  /** After `d[k] = v`, `d[k]` is `v` and every other key reads as before. */
  lemma {:induction false} PutFind<K(!new), V>(d: seq<Entry<K, V>>, k: K, v: V, k': K)
    ensures Find(Put(d, k, v), k') == if k' == k then Some(v) else Find(d, k')
    decreases |d|
  {
    if d != [] && d[0].key != k {
      PutFind(d[1..], k, v, k');
      assert Put(d, k, v)[1..] == Put(d[1..], k, v);
    }
  }

  /** After `delete d[k]`, `d[k]` is undefined and every other key reads as before. */
  lemma {:induction false} RemoveFind<K(!new), V>(d: seq<Entry<K, V>>, k: K, k': K)
    ensures Find(Remove(d, k), k') == if k' == k then None else Find(d, k')
    decreases |d|
  {
    if d != [] {
      RemoveFind(d[1..], k, k');
      if d[0].key != k {
        assert Remove(d, k)[1..] == Remove(d[1..], k);
      }
    }
  }

  lemma UniqueKeysOfKeys<K, V>(a: seq<Entry<K, V>>, b: seq<Entry<K, V>>)
    requires Keys(a) == Keys(b) && UniqueKeys(a)
    ensures UniqueKeys(b)
  {
    forall i, j | 0 <= i < j < |b| ensures b[i].key != b[j].key {
      assert Keys(a)[i] == b[i].key && Keys(a)[j] == b[j].key;
    }
  }

  /** `d[k] = v` keeps an object well formed. */
  lemma PutUnique<K(!new), V>(d: seq<Entry<K, V>>, k: K, v: V)
    requires UniqueKeys(d)
    ensures UniqueKeys(Put(d, k, v))
  {
    PutKeys(d, k, v);
    var r := Put(d, k, v);
    if Has(d, k) {
      UniqueKeysOfKeys(d, r);
    } else {
      forall i, j | 0 <= i < j < |r| ensures r[i].key != r[j].key {
        assert Keys(r)[i] == r[i].key && Keys(r)[j] == r[j].key;
        if j == |d| {
          assert Keys(d)[i] == r[i].key;
        } else {
          assert Keys(d)[i] == r[i].key && Keys(d)[j] == r[j].key;
        }
      }
    }
  }

  /** `delete d[k]` removes exactly `k` from the keys. */
  lemma {:induction false} RemoveHas<K(!new), V>(d: seq<Entry<K, V>>, k: K, k': K)
    ensures Has(Remove(d, k), k') <==> Has(d, k') && k' != k
    decreases |d|
  {
    if d != [] {
      RemoveHas(d[1..], k, k');
      var rest := Remove(d[1..], k);
      KeysCons(d[0], d[1..]);
      assert d == [d[0]] + d[1..];
      if d[0].key != k {
        KeysCons(d[0], rest);
        assert Remove(d, k) == [d[0]] + rest;
      }
    }
  }

  /** `delete d[k]` keeps only entries that were there. */
  lemma {:induction false} RemoveSubset<K(!new), V>(d: seq<Entry<K, V>>, k: K)
    ensures forall i :: 0 <= i < |Remove(d, k)| ==> Remove(d, k)[i] in d
    ensures |Remove(d, k)| <= |d|
    decreases |d|
  {
    if d != [] {
      RemoveSubset(d[1..], k);
      assert d == [d[0]] + d[1..];
    }
  }

  /** `delete d[k]` keeps an object well formed. */
  lemma {:induction false} RemoveUnique<K(!new), V>(d: seq<Entry<K, V>>, k: K)
    requires UniqueKeys(d)
    ensures UniqueKeys(Remove(d, k))
    decreases |d|
  {
    if d != [] {
      RemoveUnique(d[1..], k);
      if d[0].key != k {
        var rest := Remove(d[1..], k);
        RemoveSubset(d[1..], k);
        forall j | 0 <= j < |rest| ensures d[0].key != rest[j].key {
          var m :| 0 <= m < |d[1..]| && d[1..][m] == rest[j];
          assert d[m + 1] == rest[j];
        }
        assert Remove(d, k) == [d[0]] + rest;
      }
    }
  }

  /** Deleting a key that is not there changes nothing. */
  lemma {:induction false} RemoveAbsent<K(!new), V>(d: seq<Entry<K, V>>, k: K)
    requires !Has(d, k)
    ensures Remove(d, k) == d
    decreases |d|
  {
    if d != [] {
      KeysCons(d[0], d[1..]);
      assert d == [d[0]] + d[1..];
      RemoveAbsent(d[1..], k);
    }
  }

  /** In a well-formed object, deleting the first key leaves the other entries. */
  lemma RemoveFirst<K(!new), V>(d: seq<Entry<K, V>>)
    requires UniqueKeys(d) && d != []
    ensures Remove(d, d[0].key) == d[1..] && UniqueKeys(d[1..])
  {
    UniqueKeysTail(d);
    RemoveAbsent(d[1..], d[0].key);
  }
}
