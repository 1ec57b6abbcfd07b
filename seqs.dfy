/** The array methods the modelled code uses: `find`/`findIndex`, `filter`, `some` and `slice`. */
module Seqs {
  import opened Wrappers

  /** `s.findIndex(p)`, `None` standing for -1: the first position satisfying `p`. */
  function First<T>(s: seq<T>, p: T -> bool): (r: Option<nat>)
    ensures r.Some? ==> r.value < |s| && p(s[r.value])
    ensures r.Some? ==> forall j :: 0 <= j < r.value ==> !p(s[j])
    ensures r.None? ==> forall j :: 0 <= j < |s| ==> !p(s[j])
    decreases |s|
  {
    if s == [] then None
    else if p(s[0]) then Some(0)
    else match First(s[1..], p)
      case None => None
      case Some(i) => Some(i + 1)
  }

  /** `s.filter(p)` */
  function Filter<T>(s: seq<T>, p: T -> bool): (r: seq<T>)
    ensures |r| <= |s|
    ensures forall i :: 0 <= i < |r| ==> p(r[i]) && r[i] in s
    ensures forall i :: 0 <= i < |s| && p(s[i]) ==> s[i] in r
    decreases |s|
  {
    if s == [] then []
    else if p(s[0]) then [s[0]] + Filter(s[1..], p)
    else Filter(s[1..], p)
  }

  /** Filtering a concatenation filters each part in turn, so `filter` keeps order. */
  lemma {:induction false} FilterAppend<T>(s: seq<T>, t: seq<T>, p: T -> bool)
    ensures Filter(s + t, p) == Filter(s, p) + Filter(t, p)
    decreases |s|
  {
    if s != [] {
      FilterAppend(s[1..], t, p);
      assert (s + t)[1..] == s[1..] + t;
    } else {
      assert s + t == t;
    }
  }

  /** `s.some(p)` */
  predicate Any<T>(s: seq<T>, p: T -> bool)
    decreases |s|
  {
    s != [] && (p(s[0]) || Any(s[1..], p))
  }

  /** `some` holds exactly when some element satisfies the test. */
  lemma {:induction false} AnyIff<T>(s: seq<T>, p: T -> bool)
    ensures Any(s, p) <==> exists i :: 0 <= i < |s| && p(s[i])
    decreases |s|
  {
    if s != [] {
      AnyIff(s[1..], p);
      if exists i :: 0 <= i < |s| && p(s[i]) {
        var i :| 0 <= i < |s| && p(s[i]);
        if i > 0 {
          assert s[1..][i - 1] == s[i];
        }
      }
      if exists i :: 0 <= i < |s| - 1 && p(s[1..][i]) {
        var i :| 0 <= i < |s| - 1 && p(s[1..][i]);
        assert s[i + 1] == s[1..][i];
      }
    }
  }

  /** Concatenation is associative; stated once so that proofs about long
      concatenations need not rediscover it. */
  lemma AppendAssoc<T>(a: seq<T>, b: seq<T>, c: seq<T>)
    ensures (a + b) + c == a + (b + c)
  {
  }

  /** A bound of `slice`: a negative one counts from the end; both are clamped to the
      sequence. */
  function SliceBound(length: nat, i: int): (r: nat)
    ensures r <= length
    ensures 0 <= i <= length ==> r == i
  {
    if i < 0 then (if length + i < 0 then 0 else length + i)
    else if i > length then length
    else i
  }

  /** `s.slice(start, end)` */
  function Slice<T>(s: seq<T>, start: int, end: int): seq<T> {
    var a, b := SliceBound(|s|, start), SliceBound(|s|, end);
    if a < b then s[a..b] else []
  }

  /** A window of at most `size` elements from a non-negative `start`: it holds the
      elements from `start` on, as many as there are up to `size`. */
  lemma SliceWindow<T>(s: seq<T>, start: int, size: nat)
    requires start >= 0
    ensures var w := Slice(s, start, start + size);
      && |w| == (if start >= |s| then 0 else if |s| - start < size then |s| - start else size)
      && forall i :: 0 <= i < |w| ==> w[i] == s[start + i]
  {
  }
}
