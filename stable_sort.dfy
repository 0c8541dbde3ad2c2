/**
 * `xs.sort(key=key, reverse=True)` on dates: Python's sort is stable, also
 * with `reverse=True`, so items with equal keys keep their original order.
 * The sort is given here as an insertion sort; `SortedDescUnique` shows that
 * the result is the only sequence that is sorted, stable and a permutation,
 * so any stable descending sort returns exactly this.
 */
module StableSort {
  import opened Dates

  /** Later keys first; equal keys in any order. */
  predicate SortedDesc<T>(s: seq<T>, key: T -> Date) {
    forall i, j :: 0 <= i < j < |s| ==> !Before(key(s[i]), key(s[j]))
  }

  /** The items whose key is `k`, in their order in `s`. */
  function WithKey<T>(s: seq<T>, key: T -> Date, k: Date): seq<T>
  {
    if s == [] then []
    else if key(s[0]) == k then [s[0]] + WithKey(s[1..], key, k)
    else WithKey(s[1..], key, k)
  }

  /** Inserts `x` in front of the first item whose key is not later than its
      own, i.e. in front of every item with an equal key. */
  function InsertDesc<T>(x: T, s: seq<T>, key: T -> Date): seq<T>
  {
    if s == [] || !Before(key(x), key(s[0])) then [x] + s
    else [s[0]] + InsertDesc(x, s[1..], key)
  }

  function SortDesc<T>(s: seq<T>, key: T -> Date): seq<T>
  {
    if s == [] then [] else InsertDesc(s[0], SortDesc(s[1..], key), key)
  }

  lemma {:induction false} InsertDescSorted<T>(x: T, s: seq<T>, key: T -> Date)
    requires SortedDesc(s, key)
    ensures SortedDesc(InsertDesc(x, s, key), key)
    ensures multiset(InsertDesc(x, s, key)) == multiset([x] + s)
    ensures |InsertDesc(x, s, key)| == |s| + 1
  {
    if s == [] || !Before(key(x), key(s[0])) {
      var r := [x] + s;
      forall i, j | 0 <= i < j < |r| ensures !Before(key(r[i]), key(r[j])) {
        if i == 0 {
          BeforeIsStrictTotalOrder(key(r[j]), key(s[0]), key(x));
        }
      }
    } else {
      var t := InsertDesc(x, s[1..], key);
      InsertDescSorted(x, s[1..], key);
      var r := [s[0]] + t;
      assert multiset([x] + s) == multiset([s[0]]) + multiset([x] + s[1..]) by {
        assert [x] + s == [x] + [s[0]] + s[1..];
        assert [s[0]] + ([x] + s[1..]) == [s[0]] + [x] + s[1..];
      }
      forall i, j | 0 <= i < j < |r| ensures !Before(key(r[i]), key(r[j])) {
        if i == 0 {
          assert r[j] in multiset([x] + s[1..]);
          assert r[j] == x || r[j] in s[1..];
          if r[j] != x {
            var q :| 0 <= q < |s[1..]| && s[1..][q] == r[j];
            assert s[q + 1] == r[j];
          }
        }
      }
    }
  }

  /** The sorted sequence is sorted by key, latest first, and has exactly
      the items of the input. */
  lemma {:induction false} SortDescSpec<T>(s: seq<T>, key: T -> Date)
    ensures SortedDesc(SortDesc(s, key), key)
    ensures multiset(SortDesc(s, key)) == multiset(s)
    ensures |SortDesc(s, key)| == |s|
  {
    if s != [] {
      SortDescSpec(s[1..], key);
      InsertDescSorted(s[0], SortDesc(s[1..], key), key);
      assert s == [s[0]] + s[1..];
    }
  }

  lemma {:induction false} WithKeyAppend<T>(a: seq<T>, b: seq<T>, key: T -> Date, k: Date)
    ensures WithKey(a + b, key, k) == WithKey(a, key, k) + WithKey(b, key, k)
  {
    if a == [] {
      assert a + b == b;
    } else {
      WithKeyAppend(a[1..], b, key, k);
      assert (a + b)[1..] == a[1..] + b;
    }
  }

  lemma {:induction false} InsertDescStable<T>(x: T, s: seq<T>, key: T -> Date, k: Date)
    ensures WithKey(InsertDesc(x, s, key), key, k) == WithKey([x] + s, key, k)
  {
    if s != [] && Before(key(x), key(s[0])) {
      InsertDescStable(x, s[1..], key, k);
      WithKeyAppend([s[0]], InsertDesc(x, s[1..], key), key, k);
      WithKeyAppend([s[0]], [x] + s[1..], key, k);
      WithKeyAppend([x], s, key, k);
      WithKeyAppend([x], s[1..], key, k);
      WithKeyAppend([s[0]], s[1..], key, k);
      assert s == [s[0]] + s[1..];
      assert WithKey([x], key, k) == if key(x) == k then [x] else [];
      assert WithKey([s[0]], key, k) == if key(s[0]) == k then [s[0]] else [];
    }
  }

  /** Stability: for every key, the items with that key come out in the
      order they went in. */
  lemma {:induction false} SortDescStable<T>(s: seq<T>, key: T -> Date, k: Date)
    ensures WithKey(SortDesc(s, key), key, k) == WithKey(s, key, k)
  {
    if s != [] {
      SortDescStable(s[1..], key, k);
      InsertDescStable(s[0], SortDesc(s[1..], key), key, k);
      WithKeyAppend([s[0]], SortDesc(s[1..], key), key, k);
      WithKeyAppend([s[0]], s[1..], key, k);
      assert s == [s[0]] + s[1..];
    }
  }

  lemma {:induction false} WithKeyNonEmpty<T>(s: seq<T>, key: T -> Date, k: Date)
    ensures WithKey(s, key, k) != [] <==> exists j :: 0 <= j < |s| && key(s[j]) == k
    ensures WithKey(s, key, k) != [] && key(s[0]) == k ==> WithKey(s, key, k)[0] == s[0]
  {
    if s != [] {
      WithKeyNonEmpty(s[1..], key, k);
      if exists j :: 0 <= j < |s| && key(s[j]) == k {
        var j :| 0 <= j < |s| && key(s[j]) == k;
        if j > 0 { assert key(s[1..][j - 1]) == k; }
      }
      if exists j :: 0 <= j < |s[1..]| && key(s[1..][j]) == k {
        var j :| 0 <= j < |s[1..]| && key(s[1..][j]) == k;
        assert key(s[j + 1]) == k;
      }
    }
  }

  /** Two sequences that are both sorted latest-first and agree, key by key,
      on the order of their items are the same sequence. So the result of a
      stable descending sort is fully determined by its input. */
  lemma {:induction false} SortedDescUnique<T>(a: seq<T>, b: seq<T>, key: T -> Date)
    requires SortedDesc(a, key) && SortedDesc(b, key)
    requires forall k :: WithKey(a, key, k) == WithKey(b, key, k)
    ensures a == b
    decreases |a|
  {
    if a == [] {
      if b != [] {
        WithKeyNonEmpty(b, key, key(b[0]));
      }
    } else if b == [] {
      WithKeyNonEmpty(a, key, key(a[0]));
    } else {
      var ka, kb := key(a[0]), key(b[0]);
      WithKeyNonEmpty(a, key, ka);
      WithKeyNonEmpty(b, key, ka);
      WithKeyNonEmpty(a, key, kb);
      WithKeyNonEmpty(b, key, kb);
      var jb :| 0 <= jb < |b| && key(b[jb]) == ka;
      var ja :| 0 <= ja < |a| && key(a[ja]) == kb;
      assert jb == 0 || !Before(kb, ka);
      assert ja == 0 || !Before(ka, kb);
      BeforeIsStrictTotalOrder(ka, kb, ka);
      assert ka == kb;
      assert a[0] == WithKey(a, key, ka)[0] == WithKey(b, key, ka)[0] == b[0];
      forall k ensures WithKey(a[1..], key, k) == WithKey(b[1..], key, k) {
        WithKeyAppend([a[0]], a[1..], key, k);
        WithKeyAppend([b[0]], b[1..], key, k);
        assert a == [a[0]] + a[1..];
        assert b == [b[0]] + b[1..];
        var h := WithKey([a[0]], key, k);
        assert WithKey(a, key, k) == h + WithKey(a[1..], key, k);
        assert WithKey(b, key, k) == h + WithKey(b[1..], key, k);
        assert (h + WithKey(a[1..], key, k))[|h|..] == WithKey(a[1..], key, k);
        assert (h + WithKey(b[1..], key, k))[|h|..] == WithKey(b[1..], key, k);
      }
      SortedDescUnique(a[1..], b[1..], key);
    }
  }
}
