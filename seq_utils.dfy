/** Sequence helpers shared by the core: the `Array.prototype` operations it
    relies on (filter, findIndex, a stable sort, `String.includes`) and the
    ASCII part of `String.prototype.toLowerCase`. */
module SeqUtils {

  // ---------------------------------------------------------------- filter

  /** `r` is `s` with some elements left out, the rest in their order. */
  predicate IsSubsequence<T(==,!new)>(r: seq<T>, s: seq<T>)
  {
    if |r| == 0 then true
    else if |s| == 0 then false
    else (r[0] == s[0] && IsSubsequence(r[1..], s[1..])) || IsSubsequence(r, s[1..])
  }

  lemma {:induction false} SubsequenceOfSelf<T(!new)>(s: seq<T>)
    ensures IsSubsequence(s, s)
  {
    if |s| > 0 {
      SubsequenceOfSelf(s[1..]);
    }
  }

  lemma {:induction false} SubsequenceTail<T(!new)>(r: seq<T>, s: seq<T>)
    requires |s| > 0 && IsSubsequence(r, s[1..])
    ensures IsSubsequence(r, s)
  {
  }

  /** A subsequence of a subsequence is a subsequence. */
  lemma {:induction false} SubsequenceTransitive<T(!new)>(a: seq<T>, b: seq<T>, c: seq<T>)
    requires IsSubsequence(a, b) && IsSubsequence(b, c)
    ensures IsSubsequence(a, c)
    ensures forall x :: x in a ==> x in c
    decreases |c|
  {
    if |a| == 0 {
    } else if |c| > 0 {
      if |b| > 0 && b[0] == c[0] && IsSubsequence(b[1..], c[1..]) {
        if a[0] == b[0] && IsSubsequence(a[1..], b[1..]) {
          SubsequenceTransitive(a[1..], b[1..], c[1..]);
          assert a == [a[0]] + a[1..];
        } else {
          SubsequenceTransitive(a, b[1..], c[1..]);
        }
      } else {
        SubsequenceTransitive(a, b, c[1..]);
      }
    }
  }

  /** `s.filter(p)`: the elements of `s` satisfying `p`, in their order. */
  function Filter<T(==,!new)>(s: seq<T>, p: T -> bool): (r: seq<T>)
    ensures |r| <= |s|
    ensures forall x :: x in r <==> x in s && p(x)
    ensures IsSubsequence(r, s)
  {
    if |s| == 0 then []
    else
      var rest := Filter(s[1..], p);
      if p(s[0]) then
        assert ([s[0]] + rest)[1..] == rest;
        [s[0]] + rest
      else rest
  }

  /** Filtering keeps every satisfying element as often as it occurs. */
  lemma {:induction false} FilterMultiplicity<T(!new)>(s: seq<T>, p: T -> bool)
    ensures forall x :: multiset(Filter(s, p))[x] == if p(x) then multiset(s)[x] else 0
  {
    if |s| > 0 {
      assert s == [s[0]] + s[1..];
      FilterMultiplicity(s[1..], p);
    }
  }

  /** Filtering distributes over concatenation, which fixes the order of the result. */
  lemma {:induction false} FilterConcat<T(!new)>(a: seq<T>, b: seq<T>, p: T -> bool)
    ensures Filter(a + b, p) == Filter(a, p) + Filter(b, p)
  {
    if |a| == 0 {
      assert a + b == b;
    } else {
      assert (a + b)[1..] == a[1..] + b;
      FilterConcat(a[1..], b, p);
    }
  }

  /** Filtering with a predicate every element satisfies changes nothing. */
  lemma {:induction false} FilterKeepsAll<T(!new)>(s: seq<T>, p: T -> bool)
    requires forall i :: 0 <= i < |s| ==> p(s[i])
    ensures Filter(s, p) == s
  {
    if |s| > 0 {
      FilterKeepsAll(s[1..], p);
    }
  }

  /** `s.slice(0, n)`: the first `n` elements, or all of them. */
  function TakeAtMost<T>(s: seq<T>, n: nat): (r: seq<T>)
    ensures |r| == (if |s| <= n then |s| else n)
    ensures r == s[..|r|]
  {
    if |s| <= n then s else s[..n]
  }

  // ------------------------------------------------------------- findIndex

  /** `s.findIndex(p)`: the first index whose element satisfies `p`, or -1. */
  function FindIndex<T(!new)>(s: seq<T>, p: T -> bool): (r: int)
    ensures -1 <= r < |s|
    ensures r >= 0 ==> p(s[r]) && forall j :: 0 <= j < r ==> !p(s[j])
    ensures r == -1 <==> forall j :: 0 <= j < |s| ==> !p(s[j])
  {
    if |s| == 0 then -1
    else if p(s[0]) then 0
    else
      var k := FindIndex(s[1..], p);
      if k == -1 then -1 else k + 1
  }

  // ----------------------------------------------------------------- count

  /** Number of elements of `s` whose key is below `k`. */
  function CountKeyBelow<T(!new)>(s: seq<T>, key: T -> int, k: int): nat
  {
    if |s| == 0 then 0 else (if key(s[0]) < k then 1 else 0) + CountKeyBelow(s[1..], key, k)
  }

  lemma {:induction false} CountKeyBelowConcat<T(!new)>(a: seq<T>, b: seq<T>, key: T -> int, k: int)
    ensures CountKeyBelow(a + b, key, k) == CountKeyBelow(a, key, k) + CountKeyBelow(b, key, k)
  {
    if |a| == 0 {
      assert a + b == b;
    } else {
      assert (a + b)[1..] == a[1..] + b;
      CountKeyBelowConcat(a[1..], b, key, k);
    }
  }

  /** Replacing an element by one of the same key keeps every count. */
  lemma CountKeyBelowUpdate<T(!new)>(s: seq<T>, i: int, y: T, key: T -> int, k: int)
    requires 0 <= i < |s| && key(y) == key(s[i])
    ensures CountKeyBelow(s[i := y], key, k) == CountKeyBelow(s, key, k)
  {
    var front, back := s[..i], s[i + 1..];
    assert s == (front + [s[i]]) + back;
    assert s[i := y] == (front + [y]) + back;
    CountKeyBelowConcat(front + [s[i]], back, key, k);
    CountKeyBelowConcat(front, [s[i]], key, k);
    CountKeyBelowConcat(front + [y], back, key, k);
    CountKeyBelowConcat(front, [y], key, k);
  }

  lemma {:induction false} CountKeyBelowBounds<T(!new)>(s: seq<T>, key: T -> int, k: int)
    ensures (forall i :: 0 <= i < |s| ==> key(s[i]) < k) ==> CountKeyBelow(s, key, k) == |s|
    ensures (forall i :: 0 <= i < |s| ==> key(s[i]) >= k) ==> CountKeyBelow(s, key, k) == 0
    ensures CountKeyBelow(s, key, k) <= |s|
  {
    if |s| > 0 {
      CountKeyBelowBounds(s[1..], key, k);
    }
  }

  // ------------------------------------------------------- stable ordering

  /** Ascending by `key` (non-strict). */
  predicate SortedByKey<T(!new)>(s: seq<T>, key: T -> int)
  {
    forall i, j :: 0 <= i < j < |s| ==> key(s[i]) <= key(s[j])
  }

  /** No two elements share a key. */
  predicate DistinctKeys<T(!new)>(s: seq<T>, key: T -> int)
  {
    forall i, j :: 0 <= i < j < |s| ==> key(s[i]) != key(s[j])
  }

  /** Inserts `x` before the first element whose key is not below `x`'s, so
      `x` precedes the elements of equal key already in `s`. */
  function Insert<T(!new)>(x: T, s: seq<T>, key: T -> int): (r: seq<T>)
    ensures |r| == |s| + 1
    ensures multiset(r) == multiset(s) + multiset{x}
  {
    if |s| == 0 then [x]
    else if key(x) <= key(s[0]) then [x] + s
    else
      assert s == [s[0]] + s[1..];
      [s[0]] + Insert(x, s[1..], key)
  }

  lemma {:induction false} InsertSorted<T(!new)>(x: T, s: seq<T>, key: T -> int)
    requires SortedByKey(s, key)
    ensures SortedByKey(Insert(x, s, key), key)
  {
    if |s| > 0 && key(x) > key(s[0]) {
      var t := Insert(x, s[1..], key);
      InsertSorted(x, s[1..], key);
      forall j | 0 <= j < |t| ensures key(s[0]) <= key(t[j]) {
        assert t[j] in multiset(t);
        assert t[j] == x || t[j] in multiset(s[1..]);
      }
      var r := [s[0]] + t;
      forall i, j | 0 <= i < j < |r| ensures key(r[i]) <= key(r[j]) {
        if i > 0 {
          assert r[i] == t[i - 1] && r[j] == t[j - 1];
        } else {
          assert r[j] == t[j - 1];
        }
      }
    }
  }

  /** A stable sort ascending by `key`, as `Array.prototype.sort` with the
      comparator `(a, b) => key(a) - key(b)`; a descending sort is this one on
      the negated key. */
  function SortByKey<T(!new)>(s: seq<T>, key: T -> int): (r: seq<T>)
    ensures |r| == |s|
    ensures SortedByKey(r, key)
    ensures multiset(r) == multiset(s)
  {
    if |s| == 0 then []
    else
      assert s == [s[0]] + s[1..];
      var t := SortByKey(s[1..], key);
      InsertSorted(s[0], t, key);
      Insert(s[0], t, key)
  }

  /** The filter of elements whose key is `k`. */
  function HasKey<T>(key: T -> int, k: int): T -> bool
  {
    (y: T) => key(y) == k
  }

  /** `x` goes in front of every element of its own key. */
  lemma {:induction false} InsertStable<T(!new)>(x: T, s: seq<T>, key: T -> int, k: int)
    ensures Filter(Insert(x, s, key), HasKey(key, k)) == (if key(x) == k then [x] else []) + Filter(s, HasKey(key, k))
  {
    if |s| == 0 {
    } else if key(x) <= key(s[0]) {
      assert ([x] + s)[1..] == s;
    } else {
      var t := Insert(x, s[1..], key);
      InsertStable(x, s[1..], key, k);
      assert ([s[0]] + t)[1..] == t;
    }
  }

  /** Stability: for every key, the elements with that key appear in the
      sorted sequence in the order they had. */
  lemma {:induction false} SortStable<T(!new)>(s: seq<T>, key: T -> int, k: int)
    ensures Filter(SortByKey(s, key), HasKey(key, k)) == Filter(s, HasKey(key, k))
  {
    if |s| > 0 {
      SortStable(s[1..], key, k);
      InsertStable(s[0], SortByKey(s[1..], key), key, k);
    }
  }

  lemma {:induction false} InsertCount<T(!new)>(x: T, s: seq<T>, key: T -> int, k: int)
    ensures CountKeyBelow(Insert(x, s, key), key, k) == CountKeyBelow(s, key, k) + (if key(x) < k then 1 else 0)
  {
    if |s| > 0 && key(x) > key(s[0]) {
      InsertCount(x, s[1..], key, k);
    }
  }

  /** Sorting keeps the number of elements with a key below `k`. */
  lemma {:induction false} SortCount<T(!new)>(s: seq<T>, key: T -> int, k: int)
    ensures CountKeyBelow(SortByKey(s, key), key, k) == CountKeyBelow(s, key, k)
  {
    if |s| > 0 {
      SortCount(s[1..], key, k);
      InsertCount(s[0], SortByKey(s[1..], key), key, k);
    }
  }

  lemma {:induction false} InsertDistinct<T(!new)>(x: T, s: seq<T>, key: T -> int)
    requires DistinctKeys(s, key)
    requires forall j :: 0 <= j < |s| ==> key(s[j]) != key(x)
    ensures DistinctKeys(Insert(x, s, key), key)
  {
    if |s| == 0 {
    } else if key(x) <= key(s[0]) {
      var r := [x] + s;
      forall i, j | 0 <= i < j < |r| ensures key(r[i]) != key(r[j]) {
        assert r[j] == s[j - 1];
        if i > 0 {
          assert r[i] == s[i - 1];
        }
      }
    } else {
      var t := Insert(x, s[1..], key);
      InsertDistinct(x, s[1..], key);
      forall j | 0 <= j < |t| ensures key(t[j]) != key(s[0]) {
        assert t[j] in multiset(t);
        if t[j] != x {
          assert t[j] in multiset(s[1..]);
          var m :| 0 <= m < |s[1..]| && s[1..][m] == t[j];
          assert s[1..][m] == s[m + 1];
        }
      }
      var r := [s[0]] + t;
      forall i, j | 0 <= i < j < |r| ensures key(r[i]) != key(r[j]) {
        assert r[j] == t[j - 1];
        if i > 0 {
          assert r[i] == t[i - 1];
        }
      }
    }
  }

  /** Sorting keeps the keys distinct. */
  lemma {:induction false} SortDistinct<T(!new)>(s: seq<T>, key: T -> int)
    requires DistinctKeys(s, key)
    ensures DistinctKeys(SortByKey(s, key), key)
  {
    if |s| > 0 {
      SortDistinct(s[1..], key);
      var t := SortByKey(s[1..], key);
      forall j | 0 <= j < |t| ensures key(t[j]) != key(s[0]) {
        assert t[j] in multiset(t);
        assert t[j] in multiset(s[1..]);
        var m :| 0 <= m < |s[1..]| && s[1..][m] == t[j];
        assert s[1..][m] == s[m + 1];
      }
      InsertDistinct(s[0], SortByKey(s[1..], key), key);
    }
  }

  /** In a list of distinct keys, the element at index `k` is among the
      first `n` exactly when `k < n`. */
  lemma TakeDistinct<T(!new)>(s: seq<T>, key: T -> int, k: nat, n: nat)
    requires DistinctKeys(s, key) && k < |s|
    ensures s[k] in TakeAtMost(s, n) <==> k < n
  {
    var r := TakeAtMost(s, n);
    if k < n {
      assert r[k] == s[k];
    } else {
      forall m | 0 <= m < |r| ensures r[m] != s[k] {
        assert r[m] == s[m] && m < k;
        assert key(s[m]) != key(s[k]);
      }
    }
  }

  /** After a sort by distinct keys, a member is among the first `n`
      elements exactly when fewer than `n` elements have a smaller key. */
  lemma SortedMemberInPrefix<T(!new)>(u: seq<T>, key: T -> int, x: T, keyOfX: int, n: nat)
    requires DistinctKeys(u, key)
    requires x in u && key(x) == keyOfX
    ensures x in TakeAtMost(SortByKey(u, key), n) <==> CountKeyBelow(u, key, keyOfX) < n
  {
    var r := SortByKey(u, key);
    SortDistinct(u, key);
    SortCount(u, key, keyOfX);
    assert x in multiset(r);
    var i :| 0 <= i < |r| && r[i] == x;
    IndexIsCountBelow(r, key, i);
    TakeDistinct(r, key, i, n);
  }

  /** In a list sorted by distinct keys, an element's index is the number of
      elements whose key is below its own. */
  lemma IndexIsCountBelow<T(!new)>(r: seq<T>, key: T -> int, i: int)
    requires SortedByKey(r, key) && DistinctKeys(r, key)
    requires 0 <= i < |r|
    ensures CountKeyBelow(r, key, key(r[i])) == i
  {
    var k := key(r[i]);
    assert r == r[..i] + r[i..];
    forall j | 0 <= j < |r[..i]| ensures key(r[..i][j]) < k {
      assert r[..i][j] == r[j];
    }
    forall j | 0 <= j < |r[i..]| ensures key(r[i..][j]) >= k {
      assert r[i..][j] == r[i + j];
    }
    CountKeyBelowConcat(r[..i], r[i..], key, k);
    CountKeyBelowBounds(r[..i], key, k);
    CountKeyBelowBounds(r[i..], key, k);
  }

  // ---------------------------------------------------------------- strings

  /** `toLowerCase` on one character, for the ASCII letters only. */
  function LowerChar(c: char): (d: char)
    ensures 'A' <= c <= 'Z' ==> d as int == c as int + 32
    ensures !('A' <= c <= 'Z') ==> d == c
  {
    if 'A' <= c <= 'Z' then (c as int + 32) as char else c
  }

  function Lower(s: string): (r: string)
    ensures |r| == |s| && forall i :: 0 <= i < |s| ==> r[i] == LowerChar(s[i])
  {
    seq(|s|, i requires 0 <= i < |s| => LowerChar(s[i]))
  }

  /** `hay.startsWith(needle)` */
  predicate StartsWith(hay: string, needle: string)
  {
    |needle| <= |hay| && hay[..|needle|] == needle
  }

  /** `hay.includes(needle)` */
  predicate Contains(hay: string, needle: string)
  {
    StartsWith(hay, needle) || (|hay| > 0 && Contains(hay[1..], needle))
  }

  /** The elements at indices below `i`. */
  function PrefixElements<T(!new)>(s: seq<T>, i: nat): (r: set<T>)
    requires i <= |s|
    ensures forall x :: x in r <==> x in s[..i]
  {
    set k | 0 <= k < i :: s[k]
  }

  /** One more index adds one more element. */
  lemma PrefixElementsStep<T(!new)>(s: seq<T>, i: nat)
    requires i < |s|
    ensures PrefixElements(s, i + 1) == PrefixElements(s, i) + {s[i]}
  {
    assert s[..i + 1] == s[..i] + [s[i]];
  }
}
