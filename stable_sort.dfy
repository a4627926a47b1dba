/**
 * `Array.prototype.sort` with a numeric comparator `(a, b) => key(a) - key(b)`.
 * ECMAScript requires that sort to be stable, so it is modelled by a stable
 * insertion sort: the result is ordered by key, is a permutation of the input,
 * and keeps the input order among elements with equal keys.
 */
module StableSort {

  /** Keys never decrease from left to right. */
  predicate SortedBy<T>(s: seq<T>, key: T -> int) {
    forall i, j :: 0 <= i < j < |s| ==> key(s[i]) <= key(s[j])
  }

  /** The elements of `s` whose key is `t`, in the order they have in `s`. */
  function AtKey<T>(s: seq<T>, key: T -> int, t: int): seq<T>
  {
    if s == [] then []
    else (if key(s[0]) == t then [s[0]] else []) + AtKey(s[1..], key, t)
  }

  lemma {:induction false} AtKeyAppend<T>(a: seq<T>, b: seq<T>, key: T -> int, t: int)
    ensures AtKey(a + b, key, t) == AtKey(a, key, t) + AtKey(b, key, t)
  {
    if a == [] {
      assert a + b == b;
    } else {
      var head := if key(a[0]) == t then [a[0]] else [];
      calc {
        AtKey(a + b, key, t);
        head + AtKey((a + b)[1..], key, t);
        { assert (a + b)[1..] == a[1..] + b; }
        head + AtKey(a[1..] + b, key, t);
        { AtKeyAppend(a[1..], b, key, t); }
        head + (AtKey(a[1..], key, t) + AtKey(b, key, t));
        (head + AtKey(a[1..], key, t)) + AtKey(b, key, t);
      }
    }
  }

  lemma AtKeySingleton<T>(y: T, key: T -> int, t: int)
    ensures AtKey([y], key, t) == if key(y) == t then [y] else []
  {
    assert [y][1..] == [];
  }

  lemma SwapDisjointHeads<T>(a: seq<T>, b: seq<T>, c: seq<T>)
    requires a == [] || b == []
    ensures a + (b + c) == b + (a + c)
  {
    if a == [] {
      assert a + (b + c) == b + c == b + (a + c);
    } else {
      assert a + (b + c) == a + c == b + (a + c);
    }
  }

  /** Puts `x` in front of the first element of `s` whose key is not smaller than its own. */
  function InsertBy<T>(x: T, s: seq<T>, key: T -> int): seq<T> {
    if s == [] || key(x) <= key(s[0]) then [x] + s
    else [s[0]] + InsertBy(x, s[1..], key)
  }

  /** The stable sort of `s` by `key`. */
  function SortBy<T>(s: seq<T>, key: T -> int): seq<T> {
    if s == [] then []
    else InsertBy(s[0], SortBy(s[1..], key), key)
  }

  /** Inserting adds `x` and loses nothing. */
  lemma {:induction false} InsertByPermutes<T>(x: T, s: seq<T>, key: T -> int)
    ensures multiset(InsertBy(x, s, key)) == multiset(s) + multiset{x}
  {
    if s != [] && key(x) > key(s[0]) {
      InsertByPermutes(x, s[1..], key);
      assert s == [s[0]] + s[1..];
    }
  }

  /** Sorting is a permutation. */
  lemma {:induction false} SortByPermutes<T>(s: seq<T>, key: T -> int)
    ensures multiset(SortBy(s, key)) == multiset(s)
  {
    if s != [] {
      SortByPermutes(s[1..], key);
      InsertByPermutes(s[0], SortBy(s[1..], key), key);
      assert s == [s[0]] + s[1..];
    }
  }

  /** Every element of `InsertBy(x, s, key)` is `x` or an element of `s`. */
  lemma InsertByElements<T>(x: T, s: seq<T>, key: T -> int, y: T)
    requires y in InsertBy(x, s, key)
    ensures y == x || y in s
  {
    InsertByPermutes(x, s, key);
    assert y in multiset(InsertBy(x, s, key));
  }

  lemma {:induction false} InsertBySorted<T>(x: T, s: seq<T>, key: T -> int)
    requires SortedBy(s, key)
    ensures SortedBy(InsertBy(x, s, key), key)
  {
    if s == [] || key(x) <= key(s[0]) {
      var r := [x] + s;
      forall i, j | 0 <= i < j < |r| ensures key(r[i]) <= key(r[j]) {
        if i == 0 && j > 1 {
          assert key(s[0]) <= key(s[j - 1]);
        }
      }
    } else {
      var rest := InsertBy(x, s[1..], key);
      InsertBySorted(x, s[1..], key);
      forall j | 0 <= j < |rest| ensures key(s[0]) <= key(rest[j]) {
        InsertByElements(x, s[1..], key, rest[j]);
        if rest[j] != x {
          var k :| 0 <= k < |s[1..]| && s[1..][k] == rest[j];
          assert s[k + 1] == rest[j];
        }
      }
      var r := [s[0]] + rest;
      assert InsertBy(x, s, key) == r;
      forall i, j | 0 <= i < j < |r| ensures key(r[i]) <= key(r[j]) {
        if i > 0 {
          assert r[i] == rest[i - 1] && r[j] == rest[j - 1];
        }
      }
    }
  }

  lemma {:induction false} InsertByAtKey<T>(x: T, s: seq<T>, key: T -> int, t: int)
    ensures AtKey(InsertBy(x, s, key), key, t) == AtKey([x] + s, key, t)
  {
    if s != [] && key(s[0]) < key(x) {
      var hs, hx, tail := AtKey([s[0]], key, t), AtKey([x], key, t), AtKey(s[1..], key, t);
      assert AtKey(InsertBy(x, s, key), key, t) == hs + (hx + tail) by {
        var rest := InsertBy(x, s[1..], key);
        assert InsertBy(x, s, key) == [s[0]] + rest;
        AtKeyAppend([s[0]], rest, key, t);
        InsertByAtKey(x, s[1..], key, t);
        AtKeyAppend([x], s[1..], key, t);
      }
      assert AtKey([x] + s, key, t) == hx + (hs + tail) by {
        AtKeyAppend([x], s, key, t);
        AtKeyAppend([s[0]], s[1..], key, t);
        assert [s[0]] + s[1..] == s;
      }
      // key(s[0]) < key(x): at most one of the two singletons has key t
      assert hs == [] || hx == [] by {
        AtKeySingleton(s[0], key, t);
        AtKeySingleton(x, key, t);
      }
      SwapDisjointHeads(hs, hx, tail);
    }
  }

  lemma {:induction false} SortBySorted<T>(s: seq<T>, key: T -> int)
    ensures SortedBy(SortBy(s, key), key)
  {
    if s != [] {
      SortBySorted(s[1..], key);
      InsertBySorted(s[0], SortBy(s[1..], key), key);
    }
  }

  lemma {:induction false} SortByAtKey<T>(s: seq<T>, key: T -> int, t: int)
    ensures AtKey(SortBy(s, key), key, t) == AtKey(s, key, t)
  {
    if s != [] {
      var r := SortBy(s[1..], key);
      var head := AtKey([s[0]], key, t);
      assert SortBy(s, key) == InsertBy(s[0], r, key);
      assert AtKey(SortBy(s, key), key, t) == head + AtKey(r, key, t) by {
        InsertByAtKey(s[0], r, key, t);
        AtKeyAppend([s[0]], r, key, t);
      }
      SortByAtKey(s[1..], key, t);
      assert AtKey(s, key, t) == head + AtKey(s[1..], key, t) by {
        AtKeyAppend([s[0]], s[1..], key, t);
        assert [s[0]] + s[1..] == s;
      }
    }
  }

  /**
   * The sort's contract: a permutation of the input, ordered by key, and for
   * every key the elements carrying it appear in their input order.
   */
  lemma SortByIsStableSort<T>(s: seq<T>, key: T -> int)
    ensures multiset(SortBy(s, key)) == multiset(s)
    ensures SortedBy(SortBy(s, key), key)
    ensures forall t :: AtKey(SortBy(s, key), key, t) == AtKey(s, key, t)
  {
    SortByPermutes(s, key);
    SortBySorted(s, key);
    forall t ensures AtKey(SortBy(s, key), key, t) == AtKey(s, key, t) {
      SortByAtKey(s, key, t);
    }
  }

  /** Input that is already ordered by key comes back unchanged. */
  lemma {:induction false} SortBySortedInput<T>(s: seq<T>, key: T -> int)
    requires SortedBy(s, key)
    ensures SortBy(s, key) == s
  {
    if s != [] {
      SortBySortedInput(s[1..], key);
      assert [s[0]] + s[1..] == s;
    }
  }

  /** Two elements with different keys come out in key order whichever arrived first. */
  lemma SortPair<T>(a: T, b: T, key: T -> int)
    requires key(a) < key(b)
    ensures SortBy([a] + [b], key) == [a, b]
    ensures SortBy([b] + [a], key) == [a, b]
  {
    assert [a] + [b] == [a, b];
    assert [b] + [a] == [b, a];
    assert [a, b][1..] == [b] && [b, a][1..] == [a];
    assert [b][1..] == [] && [a][1..] == [];
    assert SortBy([b], key) == [b];
    assert SortBy([a], key) == [a];
    assert InsertBy(b, [], key) == [b];
    assert InsertBy(b, [a], key) == [a] + [b];
  }
}
