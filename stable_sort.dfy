/** Stable sorting of keyed elements: the part of `list.sort(key=...)` the
    merge step relies on. Elements are `(key, item)` pairs, the key being
    computed once per element before sorting, as CPython does. */
module StableSort {

  /** Keys never decrease from left to right. */
  predicate SortedByKey<T>(s: seq<(int, T)>)
  {
    forall i, j :: 0 <= i < j < |s| ==> s[i].0 <= s[j].0
  }

  /** The elements of `s` whose key is `k`, in their order in `s`. */
  function WithKey<T>(s: seq<(int, T)>, k: int): seq<(int, T)>
  {
    if s == [] then []
    else (if s[0].0 == k then [s[0]] else []) + WithKey(s[1..], k)
  }

  /** `x` goes in front of the first element with a strictly greater key,
      so after every element with an equal key. */
  function Insert<T>(x: (int, T), s: seq<(int, T)>): seq<(int, T)>
  {
    if s == [] then [x]
    else if s[0].0 > x.0 then [x] + s
    else [s[0]] + Insert(x, s[1..])
  }

  /** Insertion sort, inserting elements from first to last. */
  function Sort<T>(s: seq<(int, T)>): seq<(int, T)>
  {
    if s == [] then [] else Insert(s[|s| - 1], Sort(s[..|s| - 1]))
  }

  /** Insertion adds `x` and nothing else. */
  lemma {:induction false} InsertPermutes<T>(x: (int, T), s: seq<(int, T)>)
    ensures |Insert(x, s)| == |s| + 1
    ensures multiset(Insert(x, s)) == multiset(s) + multiset{x}
  {
    if s != [] && s[0].0 <= x.0 {
      InsertPermutes(x, s[1..]);
      assert s == [s[0]] + s[1..];
    }
  }

  /** Every key of a sequence is at least `lo`. */
  predicate KeysFrom<T>(s: seq<(int, T)>, lo: int)
  {
    forall i :: 0 <= i < |s| ==> lo <= s[i].0
  }

  lemma {:induction false} InsertKeysFrom<T>(x: (int, T), s: seq<(int, T)>, lo: int)
    requires KeysFrom(s, lo) && lo <= x.0
    ensures KeysFrom(Insert(x, s), lo)
  {
    InsertPermutes(x, s);
    forall i | 0 <= i < |Insert(x, s)|
      ensures lo <= Insert(x, s)[i].0
    {
      var e := Insert(x, s)[i];
      assert e in multiset(Insert(x, s));
      if e != x {
        assert e in multiset(s);
        var j :| 0 <= j < |s| && s[j] == e;
      }
    }
  }

  /** Insertion keeps a sequence sorted. */
  lemma {:induction false} InsertSorted<T>(x: (int, T), s: seq<(int, T)>)
    requires SortedByKey(s)
    ensures SortedByKey(Insert(x, s))
  {
    if s != [] && s[0].0 <= x.0 {
      var r := Insert(x, s[1..]);
      InsertSorted(x, s[1..]);
      InsertKeysFrom(x, s[1..], s[0].0);
      assert Insert(x, s) == [s[0]] + r;
      forall i, j | 0 <= i < j < |[s[0]] + r|
        ensures ([s[0]] + r)[i].0 <= ([s[0]] + r)[j].0
      {
        if i > 0 {
          assert ([s[0]] + r)[i] == r[i - 1];
        }
        assert ([s[0]] + r)[j] == r[j - 1];
      }
    } else if s != [] {
      assert Insert(x, s) == [x] + s;
    }
  }

  /** The sort is ordered by key and a permutation of its input. */
  lemma {:induction false} SortSorted<T>(s: seq<(int, T)>)
    ensures SortedByKey(Sort(s))
    ensures |Sort(s)| == |s|
    ensures multiset(Sort(s)) == multiset(s)
  {
    if s != [] {
      var init := s[..|s| - 1];
      SortSorted(init);
      InsertSorted(s[|s| - 1], Sort(init));
      InsertPermutes(s[|s| - 1], Sort(init));
      assert s == init + [s[|s| - 1]];
    }
  }

  lemma {:induction false} WithKeyAppend<T>(s: seq<(int, T)>, x: (int, T), k: int)
    ensures WithKey(s + [x], k) == WithKey(s, k) + (if x.0 == k then [x] else [])
  {
    if s != [] {
      assert (s + [x])[1..] == s[1..] + [x];
      WithKeyAppend(s[1..], x, k);
    }
  }

  /** Inserting into a sorted sequence puts `x` after every element with its
      key, so each key's elements keep their order. */
  lemma {:induction false} WithKeyInsert<T>(x: (int, T), s: seq<(int, T)>, k: int)
    requires SortedByKey(s)
    ensures WithKey(Insert(x, s), k) == WithKey(s, k) + (if x.0 == k then [x] else [])
  {
    if s == [] {
    } else if s[0].0 > x.0 {
      if x.0 == k {
        assert forall e :: e in s ==> e.0 > k;
        WithKeyNone(s, k);
      }
    } else {
      assert Insert(x, s) == [s[0]] + Insert(x, s[1..]);
      assert SortedByKey(s[1..]);
      WithKeyInsert(x, s[1..], k);
    }
  }

  lemma {:induction false} WithKeyNone<T>(s: seq<(int, T)>, k: int)
    requires forall e :: e in s ==> e.0 != k
    ensures WithKey(s, k) == []
  {
    if s != [] {
      assert s[0] in s;
      assert forall e :: e in s[1..] ==> e in s;
      WithKeyNone(s[1..], k);
    }
  }

  /** Stability: the elements sharing a key come out in their input order. */
  lemma {:induction false} SortStable<T>(s: seq<(int, T)>, k: int)
    ensures WithKey(Sort(s), k) == WithKey(s, k)
  {
    if s != [] {
      var init := s[..|s| - 1];
      SortStable(init, k);
      SortSorted(init);
      WithKeyInsert(s[|s| - 1], Sort(init), k);
      assert s == init + [s[|s| - 1]];
      WithKeyAppend(init, s[|s| - 1], k);
    }
  }

  lemma {:induction false} WithKeyMember<T>(s: seq<(int, T)>, k: int, e: (int, T))
    ensures e in WithKey(s, k) <==> e in s && e.0 == k
  {
    if s != [] {
      WithKeyMember(s[1..], k, e);
      assert s == [s[0]] + s[1..];
    }
  }

  /** The first element of a sequence heads the elements with its key. */
  lemma FirstWithKey<T>(s: seq<(int, T)>)
    requires s != []
    ensures WithKey(s, s[0].0) == [s[0]] + WithKey(s[1..], s[0].0)
  {
  }

  /** Removing the same first element from both sides keeps every key's
      elements equal. */
  lemma {:induction false} WithKeyTails<T>(a: seq<(int, T)>, b: seq<(int, T)>, k: int)
    requires a != [] && b != [] && a[0] == b[0]
    requires WithKey(a, k) == WithKey(b, k)
    ensures WithKey(a[1..], k) == WithKey(b[1..], k)
  {
    var p := if a[0].0 == k then [a[0]] else [];
    assert WithKey(a, k) == p + WithKey(a[1..], k);
    assert WithKey(b, k) == p + WithKey(b[1..], k);
    assert WithKey(a[1..], k) == WithKey(a, k)[|p|..];
    assert WithKey(b[1..], k) == WithKey(b, k)[|p|..];
  }

  /** In a sorted sequence no element with key `k` comes before one of a
      smaller key, so the first element's key is the least. */
  lemma {:induction false} LeastKey<T>(s: seq<(int, T)>, k: int)
    requires SortedByKey(s) && s != [] && WithKey(s, k) != []
    ensures s[0].0 <= k
  {
    var e := WithKey(s, k)[0];
    WithKeyMember(s, k, e);
    var i :| 0 <= i < |s| && s[i] == e;
  }

  /** Uniqueness: two sorted sequences whose elements of each key appear in
      the same order are equal. So any stable sort by key (CPython's
      timsort among them) produces exactly `Sort`. */
  lemma {:induction false} SortedUnique<T>(a: seq<(int, T)>, b: seq<(int, T)>)
    requires SortedByKey(a) && SortedByKey(b)
    requires forall k :: WithKey(a, k) == WithKey(b, k)
    ensures a == b
    decreases |a|
  {
    if a == [] {
      if b != [] {
        FirstWithKey(b);
      }
    } else if b == [] {
      FirstWithKey(a);
    } else {
      var ka, kb := a[0].0, b[0].0;
      FirstWithKey(a);
      FirstWithKey(b);
      assert WithKey(a, kb) == WithKey(b, kb);
      assert WithKey(b, ka) == WithKey(a, ka);
      LeastKey(a, kb);
      LeastKey(b, ka);
      assert a[0] == WithKey(a, ka)[0] == WithKey(b, ka)[0] == b[0];
      forall k
        ensures WithKey(a[1..], k) == WithKey(b[1..], k)
      {
        WithKeyTails(a, b, k);
      }
      assert SortedByKey(a[1..]) && SortedByKey(b[1..]);
      SortedUnique(a[1..], b[1..]);
    }
  }

  /** `Insert` spelled out for a sorted sequence: `x` lands at the index `j`
      that splits keys not above `x`'s from keys above it. */
  lemma {:induction false} InsertAt<T>(x: (int, T), s: seq<(int, T)>, j: nat)
    requires j <= |s|
    requires forall t :: 0 <= t < j ==> s[t].0 <= x.0
    requires j < |s| ==> s[j].0 > x.0
    ensures Insert(x, s) == s[..j] + [x] + s[j..]
  {
    if j > 0 {
      InsertAt(x, s[1..], j - 1);
      assert s[1..][..j - 1] == s[1..j];
      assert s[..j] == [s[0]] + s[1..j];
    }
  }

  /** A sequence that agrees with `sorted` before `j`, holds `x` at `j` and
      agrees with `sorted` shifted one place right after `j`. */
  lemma Shifted<T>(b: seq<(int, T)>, sorted: seq<(int, T)>, x: (int, T), j: nat)
    requires j <= |sorted| && |b| == |sorted| + 1
    requires forall t :: 0 <= t < j ==> b[t] == sorted[t]
    requires b[j] == x
    requires forall t :: j < t < |b| ==> b[t] == sorted[t - 1]
    ensures b == sorted[..j] + [x] + sorted[j..]
  {
  }

  /** Keys up to a position whose key is at most `x`'s are at most `x`'s
      in a sorted sequence. */
  lemma SortedBelow<T>(s: seq<(int, T)>, x: (int, T), j: nat)
    requires SortedByKey(s) && j <= |s|
    requires j > 0 ==> s[j - 1].0 <= x.0
    ensures forall t :: 0 <= t < j ==> s[t].0 <= x.0
  {
  }

  /** The inner loop of insertion sort: from `i` leftwards, every element
      whose key is above `x`'s moves one place right; `j` is the gap left
      behind. */
  method ShiftGreater<T>(a: array<(int, T)>, i: nat, x: (int, T)) returns (j: nat)
    requires i < a.Length
    modifies a
    ensures j <= i
    ensures j > 0 ==> old(a[j - 1]).0 <= x.0
    ensures forall t :: j <= t < i ==> old(a[t]).0 > x.0
    ensures forall t :: 0 <= t < j ==> a[t] == old(a[t])
    ensures forall t :: j < t <= i ==> a[t] == old(a[t - 1])
    ensures forall t :: i < t < a.Length ==> a[t] == old(a[t])
  {
    j := i;
    while j > 0 && a[j - 1].0 > x.0
      invariant 0 <= j <= i
      invariant forall t :: j <= t < i ==> old(a[t]).0 > x.0
      invariant forall t :: 0 <= t < j ==> a[t] == old(a[t])
      invariant forall t :: j < t <= i ==> a[t] == old(a[t - 1])
      invariant forall t :: i < t < a.Length ==> a[t] == old(a[t])
    {
      a[j] := a[j - 1];
      j := j - 1;
    }
  }

  /** One insertion step: `a[i]` moves left past the greater keys of the
      sorted prefix `a[..i]`, which shift one place right. */
  method InsertStep<T>(a: array<(int, T)>, i: nat)
    requires i < a.Length && SortedByKey(a[..i])
    modifies a
    ensures a[..i + 1] == Insert(old(a[i]), old(a[..i]))
    ensures forall t :: i < t < a.Length ==> a[t] == old(a[t])
  {
    ghost var sorted := a[..i];
    var x := a[i];
    var j := ShiftGreater(a, i, x);
    a[j] := x;
    SortedBelow(sorted, x, j);
    InsertAt(x, sorted, j);
    Shifted(a[..i + 1], sorted, x, j);
  }

  /** In-place insertion sort. */
  method InsertionSort<T>(a: array<(int, T)>)
    modifies a
    ensures a[..] == Sort(old(a[..]))
  {
    ghost var input := a[..];
    var i := 0;
    while i < a.Length
      invariant 0 <= i <= a.Length
      invariant a[..i] == Sort(input[..i])
      invariant forall t :: i <= t < a.Length ==> a[t] == input[t]
    {
      SortSorted(input[..i]);
      InsertStep(a, i);
      assert input[..i + 1][..i] == input[..i];
      i := i + 1;
    }
    assert input[..a.Length] == input;
  }
}
