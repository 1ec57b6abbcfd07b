/** `PersistentStoreAdapter` (`service/persistentStore.ts`): a view of a key-value store
    under a prefix. Each key is the prefix without its trailing dots, then a dot and the
    key when the key is not empty. The delegate store is modelled by `MapStore`, a map
    from keys to values; a missing key reads as `None` (`undefined`). */
module PersistentStore {
  import opened Wrappers
  import opened Text

  /** `s.replace(/\.+$/g, "")`: the string without the dots it ends with. */
  function StripTrailingDots(s: string): (r: string)
    ensures |r| <= |s| && r == s[..|r|]
    ensures r == [] || r[|r| - 1] != '.'
    ensures forall i :: |r| <= i < |s| ==> s[i] == '.'
    decreases |s|
  {
    if |s| > 0 && s[|s| - 1] == '.' then StripTrailingDots(s[..|s| - 1]) else s
  }

  /** The adapter's `key`: an empty key addresses the prefix itself. */
  function Key(prefix: string, key: string): string {
    StripTrailingDots(prefix) + (if key != "" then "." + key else "")
  }

  /** `key("")` is the prefix without its trailing dots. */
  lemma KeyOfEmpty(prefix: string)
    ensures Key(prefix, "") == StripTrailingDots(prefix) && (Key(prefix, "") == [] || Key(prefix, "")[|Key(prefix, "")| - 1] != '.')
  {
  }

  /** Dots at the end of the prefix make no difference: "a" and "a.." address the same
      keys. */
  lemma {:induction false} TrailingDotsIgnored(prefix: string, n: nat, key: string)
    ensures Key(prefix + Repeat('.', n), key) == Key(prefix, key)
    decreases n
  {
    var longer := prefix + Repeat('.', n);
    if n > 0 {
      assert longer[|longer| - 1] == '.';
      assert longer[..|longer| - 1] == prefix + Repeat('.', n - 1);
      TrailingDotsIgnored(prefix, n - 1, key);
    } else {
      assert longer == prefix;
    }
  }

  /** Distinct keys under one prefix are distinct keys of the delegate. */
  lemma KeyInjective(prefix: string, k1: string, k2: string)
    requires k1 != k2
    ensures Key(prefix, k1) != Key(prefix, k2)
  {
    var p := StripTrailingDots(prefix);
    if k1 != "" && k2 != "" {
      assert Key(prefix, k1)[|p| + 1..] == k1;
      assert Key(prefix, k2)[|p| + 1..] == k2;
    }
  }

  /** What a map store holds at `key`. */
  function Lookup<V>(data: map<string, V>, key: string): Option<V> {
    if key in data then Some(data[key]) else None
  }

  /** Through the adapter, a set value is read back, and a delete forgets its own key and
      no other. */
  lemma SetThenGet<V>(data: map<string, V>, prefix: string, key: string, value: V, other: string)
    ensures Lookup(data[Key(prefix, key) := value], Key(prefix, key)) == Some(value)
    ensures Lookup(data - {Key(prefix, key)}, Key(prefix, key)) == None
    ensures other != key ==>
      && Lookup(data[Key(prefix, key) := value], Key(prefix, other)) == Lookup(data, Key(prefix, other))
      && Lookup(data - {Key(prefix, key)}, Key(prefix, other)) == Lookup(data, Key(prefix, other))
  {
    if other != key {
      KeyInjective(prefix, key, other);
    }
  }

  /** A delegate store holding a map. */
  class MapStore<V> {
    var data: map<string, V>

    constructor ()
      ensures data == map[]
    {
      data := map[];
    }

    method Get(key: string) returns (r: Option<V>)
      ensures r == Lookup(data, key)
    {
      r := if key in data then Some(data[key]) else None;
    }

    method Set(key: string, value: V)
      modifies this
      ensures data == old(data)[key := value]
    {
      data := data[key := value];
    }

    method Delete(key: string)
      modifies this
      ensures data == old(data) - {key}
    {
      data := data - {key};
    }
  }

  /** `PersistentStoreAdapter`: every call goes to the delegate with the formatted key. */
  class Adapter<V> {
    const delegate: MapStore<V>
    const prefix: string

    constructor (delegate: MapStore<V>, prefix: string)
      ensures this.delegate == delegate && this.prefix == prefix
    {
      this.delegate := delegate;
      this.prefix := prefix;
    }

    method Get(key: string) returns (r: Option<V>)
      ensures r == Lookup(delegate.data, Key(prefix, key))
    {
      r := delegate.Get(Key(prefix, key));
    }

    method Set(key: string, value: V)
      modifies delegate
      ensures delegate.data == old(delegate.data)[Key(prefix, key) := value]
    {
      delegate.Set(Key(prefix, key), value);
    }

    method Delete(key: string)
      modifies delegate
      ensures delegate.data == old(delegate.data) - {Key(prefix, key)}
    {
      delegate.Delete(Key(prefix, key));
    }
  }
}
