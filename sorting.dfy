/**
 * Python's `sorted(s, key=key, reverse=True)` and `list.sort(key=key, reverse=True)`:
 * a stable sort into non-increasing key order. Python keeps equal-key elements in their
 * input order even with `reverse=True`, and so does SortDesc.
 * Also the ascending sort that `statistics.median` applies to its data.
 */
module Sorting {
  import opened Seqs

  /** Non-increasing order of keys. */
  ghost predicate SortedDesc<T>(s: seq<T>, key: T -> real) {
    forall i, j :: 0 <= i < j < |s| ==> key(s[i]) >= key(s[j])
  }

  /** The elements of `s` whose key is `k`, in their order in `s`. */
  function WithKey<T>(s: seq<T>, key: T -> real, k: real): seq<T>
    decreases |s|
  {
    if s == [] then []
    else (if key(s[0]) == k then [s[0]] else []) + WithKey(s[1..], key, k)
  }

  /** Stability: every class of equal keys appears in the same relative order in `r` as in `s`. */
  ghost predicate StableWrt<T>(r: seq<T>, s: seq<T>, key: T -> real) {
    forall k :: WithKey(r, key, k) == WithKey(s, key, k)
  }

  /** Puts `x` before the first element whose key is not greater than its own. */
  function InsertDesc<T>(x: T, ys: seq<T>, key: T -> real): seq<T>
    decreases |ys|
  {
    if ys == [] || key(ys[0]) <= key(x) then [x] + ys
    else [ys[0]] + InsertDesc(x, ys[1..], key)
  }

  /** Insertion sort from the back: the head is inserted in front of every element of equal key. */
  function SortDesc<T>(s: seq<T>, key: T -> real): seq<T>
    decreases |s|
  {
    if s == [] then [] else InsertDesc(s[0], SortDesc(s[1..], key), key)
  }

  /** The first `n` elements of the stable descending sort (`sorted(...)[:n]`). */
  function TopDesc<T>(s: seq<T>, key: T -> real, n: nat): seq<T> {
    Take(SortDesc(s, key), n)
  }

  lemma {:induction false} WithKeyConcat<T>(a: seq<T>, b: seq<T>, key: T -> real, k: real)
    ensures WithKey(a + b, key, k) == WithKey(a, key, k) + WithKey(b, key, k)
    decreases |a|
  {
    if a == [] {
      assert a + b == b;
    } else {
      var h := if key(a[0]) == k then [a[0]] else [];
      assert (a + b)[0] == a[0];
      assert (a + b)[1..] == a[1..] + b;
      assert WithKey(a + b, key, k) == h + WithKey(a[1..] + b, key, k);
      WithKeyConcat(a[1..], b, key, k);
      assert WithKey(a, key, k) == h + WithKey(a[1..], key, k);
    }
  }

  lemma {:induction false} InsertDescCount<T>(x: T, ys: seq<T>, key: T -> real)
    ensures multiset(InsertDesc(x, ys, key)) == multiset(ys) + multiset{x}
    ensures |InsertDesc(x, ys, key)| == |ys| + 1
    decreases |ys|
  {
    if ys != [] && key(ys[0]) > key(x) {
      InsertDescCount(x, ys[1..], key);
      assert ys == [ys[0]] + ys[1..];
    }
  }

  lemma {:induction false} InsertDescSorted<T>(x: T, ys: seq<T>, key: T -> real)
    requires SortedDesc(ys, key)
    ensures SortedDesc(InsertDesc(x, ys, key), key)
    decreases |ys|
  {
    if ys != [] && key(ys[0]) > key(x) {
      var rest := InsertDesc(x, ys[1..], key);
      InsertDescSorted(x, ys[1..], key);
      InsertDescCount(x, ys[1..], key);
      forall j | 0 <= j < |rest| ensures key(rest[j]) <= key(ys[0]) {
        assert rest[j] in multiset(rest);
        if rest[j] != x {
          assert rest[j] in multiset(ys[1..]);
          var m :| 0 <= m < |ys[1..]| && ys[1..][m] == rest[j];
          assert ys[m + 1] == rest[j];
        }
      }
    }
  }

  lemma {:induction false} InsertDescWithKey<T>(x: T, ys: seq<T>, key: T -> real, k: real)
    ensures WithKey(InsertDesc(x, ys, key), key, k) == WithKey([x], key, k) + WithKey(ys, key, k)
    decreases |ys|
  {
    if ys == [] || key(ys[0]) <= key(x) {
      WithKeyConcat([x], ys, key, k);
    } else {
      var rest := InsertDesc(x, ys[1..], key);
      assert InsertDesc(x, ys, key) == [ys[0]] + rest;
      InsertDescWithKey(x, ys[1..], key, k);
      assert ys == [ys[0]] + ys[1..];
      WithKeyConcat([ys[0]], rest, key, k);
      WithKeyConcat([ys[0]], ys[1..], key, k);
      WithKeySingle(x, key, k);
      WithKeySingle(ys[0], key, k);
    }
  }

  lemma WithKeySingle<T>(y: T, key: T -> real, k: real)
    ensures WithKey([y], key, k) == if key(y) == k then [y] else []
  {
    assert [y][1..] == [];
  }

  /** SortDesc returns a permutation of its input, sorted by non-increasing key, and is stable. */
  lemma {:induction false} SortDescCorrect<T>(s: seq<T>, key: T -> real)
    ensures |SortDesc(s, key)| == |s|
    ensures multiset(SortDesc(s, key)) == multiset(s)
    ensures SortedDesc(SortDesc(s, key), key)
    ensures StableWrt(SortDesc(s, key), s, key)
    decreases |s|
  {
    if s != [] {
      SortDescCorrect(s[1..], key);
      InsertDescCount(s[0], SortDesc(s[1..], key), key);
      InsertDescSorted(s[0], SortDesc(s[1..], key), key);
      assert s == [s[0]] + s[1..];
      forall k ensures WithKey(SortDesc(s, key), key, k) == WithKey(s, key, k) {
        InsertDescWithKey(s[0], SortDesc(s[1..], key), key, k);
        WithKeyConcat([s[0]], s[1..], key, k);
      }
    }
  }

  /** Mapping a projection over the sorted sequence is sorting the projected sequence. */
  lemma {:induction false} SortDescMap<A, B>(f: A -> B, s: seq<A>, keyA: A -> real, keyB: B -> real)
    requires forall x :: keyA(x) == keyB(f(x))
    ensures Map(f, SortDesc(s, keyA)) == SortDesc(Map(f, s), keyB)
    decreases |s|
  {
    if s != [] {
      SortDescMap(f, s[1..], keyA, keyB);
      assert Map(f, s)[1..] == Map(f, s[1..]);
      InsertDescMap(f, s[0], SortDesc(s[1..], keyA), keyA, keyB);
    }
  }

  lemma {:induction false} InsertDescMap<A, B>(f: A -> B, x: A, ys: seq<A>, keyA: A -> real, keyB: B -> real)
    requires forall x :: keyA(x) == keyB(f(x))
    ensures Map(f, InsertDesc(x, ys, keyA)) == InsertDesc(f(x), Map(f, ys), keyB)
    decreases |ys|
  {
    if ys != [] && keyA(ys[0]) > keyA(x) {
      InsertDescMap(f, x, ys[1..], keyA, keyB);
      assert Map(f, ys)[1..] == Map(f, ys[1..]);
    }
  }

  lemma {:induction false} WithKeyPrefix<T>(s: seq<T>, key: T -> real, k: real, n: nat)
    requires n <= |s|
    ensures WithKey(s, key, k) == WithKey(s[..n], key, k) + WithKey(s[n..], key, k)
  {
    assert s == s[..n] + s[n..];
    WithKeyConcat(s[..n], s[n..], key, k);
  }

  /**
   * The first `n` of the stable descending sort: the right length, sorted and drawn from `s`.
   */
  lemma TopDescShape<T>(s: seq<T>, key: T -> real, n: nat)
    ensures |TopDesc(s, key, n)| == Min(n, |s|)
    ensures SortedDesc(TopDesc(s, key, n), key)
    ensures multiset(TopDesc(s, key, n)) <= multiset(s)
  {
    var r := SortDesc(s, key);
    SortDescCorrect(s, key);
    var m := Min(n, |s|);
    assert r == r[..m] + r[m..];
    assert multiset(r) == multiset(r[..m]) + multiset(r[m..]);
  }

  /** No element left out of the top `n` has a larger key than one kept. */
  lemma TopDescIsTop<T>(s: seq<T>, key: T -> real, n: nat)
    ensures forall x, y :: x in multiset(s) - multiset(TopDesc(s, key, n)) && y in TopDesc(s, key, n)
              ==> key(x) <= key(y)
  {
    var r := SortDesc(s, key);
    SortDescCorrect(s, key);
    var m := Min(n, |s|);
    var t := TopDesc(s, key, n);
    assert t == r[..m];
    assert r == r[..m] + r[m..];
    assert multiset(r) == multiset(r[..m]) + multiset(r[m..]);
    forall x, y | x in multiset(s) - multiset(t) && y in t ensures key(x) <= key(y) {
      assert x in multiset(r[m..]);
      var a :| 0 <= a < |r[m..]| && r[m..][a] == x;
      var b :| 0 <= b < |t| && t[b] == y;
      assert r[m + a] == x && r[b] == y;
    }
  }

  /**
   * Ties are cut stably: of each class of equal keys, a prefix (in input order) is kept.
   * On sequences `<=` is the prefix relation.
   */
  lemma TopDescStable<T>(s: seq<T>, key: T -> real, n: nat)
    ensures forall k :: WithKey(TopDesc(s, key, n), key, k) <= WithKey(s, key, k)
  {
    var r := SortDesc(s, key);
    SortDescCorrect(s, key);
    var m := Min(n, |s|);
    var t := TopDesc(s, key, n);
    assert t == r[..m];
    forall k ensures WithKey(t, key, k) <= WithKey(s, key, k) {
      WithKeyPrefix(r, key, k, m);
    }
  }

  /** The head of a non-empty descending sort has the greatest key, and comes from `s`. */
  lemma SortDescHead<T>(s: seq<T>, key: T -> real)
    requires s != []
    ensures SortDesc(s, key) != [] && SortDesc(s, key)[0] in s
    ensures forall x :: x in s ==> key(x) <= key(SortDesc(s, key)[0])
  {
    SortDescCorrect(s, key);
    var r := SortDesc(s, key);
    assert r[0] in multiset(r);
    forall x | x in s ensures key(x) <= key(r[0]) {
      assert x in multiset(r);
      var i :| 0 <= i < |r| && r[i] == x;
    }
  }

  /** The first element of `s` with key `k` heads the class of that key. */
  lemma {:induction false} WithKeyFirst<T>(s: seq<T>, key: T -> real, k: real)
    requires WithKey(s, key, k) != []
    ensures exists i :: 0 <= i < |s| && s[i] == WithKey(s, key, k)[0] && key(s[i]) == k
              && forall j :: 0 <= j < i ==> key(s[j]) != k
    decreases |s|
  {
    if key(s[0]) != k {
      WithKeyFirst(s[1..], key, k);
      var i :| 0 <= i < |s[1..]| && s[1..][i] == WithKey(s[1..], key, k)[0] && key(s[1..][i]) == k
              && forall j :: 0 <= j < i ==> key(s[1..][j]) != k;
      assert s[i + 1] == s[1..][i];
      forall j | 0 <= j < i + 1 ensures key(s[j]) != k {
        if j > 0 { assert s[j] == s[1..][j - 1]; }
      }
    }
  }

  /** The head of the descending sort also heads the class of its key in `s`. */
  lemma SortDescHeadClass<T>(s: seq<T>, key: T -> real)
    requires s != []
    ensures SortDesc(s, key) != []
    ensures WithKey(s, key, key(SortDesc(s, key)[0])) != []
    ensures WithKey(s, key, key(SortDesc(s, key)[0]))[0] == SortDesc(s, key)[0]
  {
    var sorted := SortDesc(s, key);
    SortDescCorrect(s, key);
    var K := key(sorted[0]);
    assert WithKey(sorted, key, K) == [sorted[0]] + WithKey(sorted[1..], key, K);
    assert WithKey(s, key, K) == WithKey(sorted, key, K);
  }

  /** The head of the stable descending sort is the first element with the greatest key. */
  lemma SortDescHeadFirst<T>(s: seq<T>, key: T -> real)
    requires s != []
    ensures exists k :: 0 <= k < |s| && SortDesc(s, key)[0] == s[k]
              && (forall j :: 0 <= j < |s| ==> key(s[j]) <= key(s[k]))
              && (forall j :: 0 <= j < k ==> key(s[j]) < key(s[k]))
  {
    var k := SortDescHeadIndex(s, key);
  }

  /** The position in `s` of the head of its descending sort. */
  lemma SortDescHeadIndex<T>(s: seq<T>, key: T -> real) returns (k: nat)
    requires s != []
    ensures k < |s| && SortDesc(s, key)[0] == s[k]
    ensures forall j :: 0 <= j < |s| ==> key(s[j]) <= key(s[k])
    ensures forall j :: 0 <= j < k ==> key(s[j]) < key(s[k])
  {
    SortDescHeadClass(s, key);
    SortDescHead(s, key);
    var h := SortDesc(s, key)[0];
    WithKeyFirst(s, key, key(h));
    k :| 0 <= k < |s| && s[k] == WithKey(s, key, key(h))[0] && key(s[k]) == key(h)
         && forall j :: 0 <= j < k ==> key(s[j]) != key(h);
    forall j | 0 <= j < |s| ensures key(s[j]) <= key(s[k]) {
      assert s[j] in s;
    }
  }

  // ---------------------------------------------------------------------------
  // Ascending sort of integers, as `statistics.median` sorts its data.
  // ---------------------------------------------------------------------------

  ghost predicate SortedAsc(s: seq<int>) {
    forall i, j :: 0 <= i < j < |s| ==> s[i] <= s[j]
  }

  function InsertAsc(x: int, ys: seq<int>): seq<int>
    decreases |ys|
  {
    if ys == [] || x <= ys[0] then [x] + ys else [ys[0]] + InsertAsc(x, ys[1..])
  }

  function SortAsc(s: seq<int>): seq<int>
    decreases |s|
  {
    if s == [] then [] else InsertAsc(s[0], SortAsc(s[1..]))
  }

  lemma {:induction false} InsertAscCount(x: int, ys: seq<int>)
    ensures multiset(InsertAsc(x, ys)) == multiset(ys) + multiset{x}
    ensures |InsertAsc(x, ys)| == |ys| + 1
    decreases |ys|
  {
    if ys != [] && x > ys[0] {
      InsertAscCount(x, ys[1..]);
      assert ys == [ys[0]] + ys[1..];
    }
  }

  lemma {:induction false} InsertAscSorted(x: int, ys: seq<int>)
    requires SortedAsc(ys)
    ensures SortedAsc(InsertAsc(x, ys))
    decreases |ys|
  {
    if ys != [] && x > ys[0] {
      var rest := InsertAsc(x, ys[1..]);
      InsertAscSorted(x, ys[1..]);
      InsertAscCount(x, ys[1..]);
      {
        forall j | 0 <= j < |rest| ensures ys[0] <= rest[j] {
          assert rest[j] in multiset(rest);
          if rest[j] != x {
            assert rest[j] in multiset(ys[1..]);
            var m :| 0 <= m < |ys[1..]| && ys[1..][m] == rest[j];
            assert ys[m + 1] == rest[j];
          }
        }
      }
    }
  }

  /** SortAsc returns an ascending permutation of its input. */
  lemma {:induction false} SortAscCorrect(s: seq<int>)
    ensures |SortAsc(s)| == |s|
    ensures multiset(SortAsc(s)) == multiset(s)
    ensures SortedAsc(SortAsc(s))
    decreases |s|
  {
    if s != [] {
      SortAscCorrect(s[1..]);
      InsertAscCount(s[0], SortAsc(s[1..]));
      InsertAscSorted(s[0], SortAsc(s[1..]));
      assert s == [s[0]] + s[1..];
    }
  }

  lemma SortedAscHeadMin(a: seq<int>, x: int)
    requires SortedAsc(a) && x in multiset(a)
    ensures a[0] <= x
  {
    var i :| 0 <= i < |a| && a[i] == x;
  }

  lemma SortedAscTail(a: seq<int>)
    requires SortedAsc(a) && a != []
    ensures SortedAsc(a[1..])
  {
    forall i, j | 0 <= i < j < |a[1..]| ensures a[1..][i] <= a[1..][j] {
      assert a[1..][i] == a[i + 1] && a[1..][j] == a[j + 1];
    }
  }

  lemma MultisetTail(s: seq<int>)
    requires s != []
    ensures multiset(s[1..]) == multiset(s) - multiset{s[0]}
  {
    assert s == [s[0]] + s[1..];
  }

  /** Two ascending sequences with the same elements are equal: the sorted order is unique. */
  lemma {:induction false} SortedAscUnique(a: seq<int>, b: seq<int>)
    requires SortedAsc(a) && SortedAsc(b) && multiset(a) == multiset(b)
    ensures a == b
    decreases |a|
  {
    if a != [] {
      assert |b| == |multiset(b)| == |multiset(a)| == |a|;
      assert a[0] in multiset(a) && b[0] in multiset(b);
      SortedAscHeadMin(a, b[0]);
      SortedAscHeadMin(b, a[0]);
      assert a == [a[0]] + a[1..];
      assert b == [b[0]] + b[1..];
      assert a[0] == b[0];
      MultisetTail(a);
      MultisetTail(b);
      SortedAscTail(a);
      SortedAscTail(b);
      SortedAscUnique(a[1..], b[1..]);
    }
  }
}
