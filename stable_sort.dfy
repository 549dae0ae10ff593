/**
 * The sort `computeTop10` applies (index.js:34-38): `Array.prototype.sort` with
 * the comparator `(a, b) => key(b) - key(a)`, i.e. highest key first. Since
 * ECMA-262's 2019 edition that sort is stable, so elements with equal keys
 * keep their input order. It is modelled as a stable insertion sort.
 */
module StableSort {

  /** Highest key first. */
  ghost predicate Descending<T>(s: seq<T>, key: T -> real) {
    forall i, j :: 0 <= i < j < |s| ==> key(s[i]) >= key(s[j])
  }

  /** The elements of `s` whose key is `k`, in the order of `s`. */
  function WithKey<T>(s: seq<T>, key: T -> real, k: real): (r: seq<T>)
    ensures |r| <= |s|
  {
    if s == [] then [] else (if key(s[0]) == k then [s[0]] else []) + WithKey(s[1..], key, k)
  }

  /**
   * Places `x` before the first element of `s` whose key is not above its own;
   * `x` therefore goes ahead of the elements of `s` with an equal key.
   */
  function Insert<T>(x: T, s: seq<T>, key: T -> real): (r: seq<T>)
    ensures |r| == |s| + 1
    ensures multiset(r) == multiset(s) + multiset{x}
  {
    if s == [] || key(x) >= key(s[0]) then [x] + s
    else
      assert s == [s[0]] + s[1..];
      [s[0]] + Insert(x, s[1..], key)
  }

  /** Stable sort by `key`, highest first. */
  function Sort<T>(s: seq<T>, key: T -> real): (r: seq<T>)
    ensures |r| == |s|
    ensures multiset(r) == multiset(s)
  {
    if s == [] then []
    else
      assert s == [s[0]] + s[1..];
      Insert(s[0], Sort(s[1..], key), key)
  }

  lemma WithKeyCons<T>(x: T, s: seq<T>, key: T -> real, k: real)
    ensures WithKey([x] + s, key, k) == (if key(x) == k then [x] else []) + WithKey(s, key, k)
  {
    assert ([x] + s)[1..] == s;
  }

  lemma {:induction false} WithKeyAppend<T>(a: seq<T>, b: seq<T>, key: T -> real, k: real)
    ensures WithKey(a + b, key, k) == WithKey(a, key, k) + WithKey(b, key, k)
    decreases |a|
  {
    if a == [] {
      assert a + b == b;
    } else {
      assert a + b == [a[0]] + (a[1..] + b);
      WithKeyCons(a[0], a[1..] + b, key, k);
      WithKeyAppend(a[1..], b, key, k);
      WithKeyCons(a[0], a[1..], key, k);
      assert a == [a[0]] + a[1..];
    }
  }

  lemma {:induction false} InsertMembers<T>(x: T, s: seq<T>, key: T -> real)
    ensures forall y :: y in Insert(x, s, key) ==> y == x || y in s
    decreases |s|
  {
    if s != [] && key(x) < key(s[0]) {
      InsertMembers(x, s[1..], key);
    }
  }

  lemma {:induction false} InsertDescending<T>(x: T, s: seq<T>, key: T -> real)
    requires Descending(s, key)
    ensures Descending(Insert(x, s, key), key)
    decreases |s|
  {
    if s != [] && key(x) < key(s[0]) {
      var t := Insert(x, s[1..], key);
      InsertDescending(x, s[1..], key);
      InsertMembers(x, s[1..], key);
      forall j | 0 <= j < |t| ensures key(s[0]) >= key(t[j]) {
        var y := t[j];
        assert y in t;
        if y != x {
          var m :| 0 <= m < |s| - 1 && s[1..][m] == y;
          assert s[1 + m] == y;
        }
      }
      assert Insert(x, s, key) == [s[0]] + t;
    }
  }

  /** Inserting keeps every class of equal keys in order, with `x` at its head. */
  lemma {:induction false} InsertStable<T>(x: T, s: seq<T>, key: T -> real, k: real)
    ensures WithKey(Insert(x, s, key), key, k) == WithKey([x] + s, key, k)
    decreases |s|
  {
    if s != [] && key(x) < key(s[0]) {
      var y, rest := s[0], s[1..];
      assert s == [y] + rest;
      var hx := if key(x) == k then [x] else [];
      var hy := if key(y) == k then [y] else [];
      assert hy + hx == hx + hy;
      calc {
        WithKey(Insert(x, s, key), key, k);
        { assert Insert(x, s, key) == [y] + Insert(x, rest, key); }
        WithKey([y] + Insert(x, rest, key), key, k);
        { WithKeyCons(y, Insert(x, rest, key), key, k); }
        hy + WithKey(Insert(x, rest, key), key, k);
        { InsertStable(x, rest, key, k); }
        hy + WithKey([x] + rest, key, k);
        { WithKeyCons(x, rest, key, k); }
        hy + (hx + WithKey(rest, key, k));
        hx + (hy + WithKey(rest, key, k));
        { WithKeyCons(y, rest, key, k); }
        hx + WithKey(s, key, k);
        { WithKeyCons(x, s, key, k); }
        WithKey([x] + s, key, k);
      }
    }
  }

  /** The sort orders by key, highest first. */
  lemma {:induction false} SortDescending<T>(s: seq<T>, key: T -> real)
    ensures Descending(Sort(s, key), key)
  {
    if s != [] {
      SortDescending(s[1..], key);
      InsertDescending(s[0], Sort(s[1..], key), key);
    }
  }

  /** The sort is stable: for every key, the elements with that key appear in their input order. */
  lemma {:induction false} SortStable<T>(s: seq<T>, key: T -> real, k: real)
    ensures WithKey(Sort(s, key), key, k) == WithKey(s, key, k)
  {
    if s != [] {
      SortStable(s[1..], key, k);
      InsertStable(s[0], Sort(s[1..], key), key, k);
      WithKeyCons(s[0], Sort(s[1..], key), key, k);
      WithKeyCons(s[0], s[1..], key, k);
      assert s == [s[0]] + s[1..];
    }
  }

  lemma InsertAhead<T>(x: T, s: seq<T>, key: T -> real)
    requires s == [] || key(x) >= key(s[0])
    ensures Insert(x, s, key) == [x] + s
  {
  }

  lemma InsertBehind<T>(x: T, s: seq<T>, key: T -> real)
    requires s != [] && key(x) < key(s[0])
    ensures Insert(x, s, key) == [s[0]] + Insert(x, s[1..], key)
  {
  }

  lemma SortCons<T>(s: seq<T>, key: T -> real)
    requires s != []
    ensures Sort(s, key) == Insert(s[0], Sort(s[1..], key), key)
  {
  }

  /** The stable sort of one, two and three elements, worked out. */
  lemma SortOne<T>(c: T, key: T -> real)
    ensures Sort([c], key) == [c]
  {
    assert [c][1..] == [];
    SortCons([c], key);
    InsertAhead(c, [], key);
  }

  lemma SortTwo<T>(b: T, c: T, key: T -> real)
    requires key(b) >= key(c)
    ensures Sort([b, c], key) == [b, c]
  {
    assert [b, c][1..] == [c];
    SortOne(c, key);
    SortCons([b, c], key);
    InsertAhead(b, [c], key);
  }

  lemma SortThree<T>(a: T, b: T, c: T, key: T -> real)
    requires key(a) < key(b) && key(a) >= key(c) && key(b) >= key(c)
    ensures Sort([a, b, c], key) == [b, a, c]
  {
    assert [a, b, c][1..] == [b, c];
    SortTwo(b, c, key);
    SortCons([a, b, c], key);
    InsertBehind(a, [b, c], key);
    assert [b, c][1..] == [c];
    InsertAhead(a, [c], key);
  }

  /**
   * In a descending sequence, what a prefix of length `n` leaves out has a key
   * no higher than the prefix's last element; nothing is left out when `n` covers it all.
   */
  lemma PrefixIsTop<T>(s: seq<T>, key: T -> real, n: nat)
    requires Descending(s, key) && n <= |s|
    ensures forall x :: x in multiset(s) - multiset(s[..n]) ==> n < |s| && 0 < n ==> key(x) <= key(s[n - 1])
    ensures n == |s| ==> multiset(s) - multiset(s[..n]) == multiset{}
  {
    assert s == s[..n] + s[n..];
    assert multiset(s) - multiset(s[..n]) == multiset(s[n..]);
    forall x | x in multiset(s[n..]) && 0 < n ensures key(x) <= key(s[n - 1]) {
      var m :| 0 <= m < |s[n..]| && s[n..][m] == x;
      assert s[n + m] == x;
    }
  }

  /** A prefix holds, with multiplicity, only elements of the whole. */
  lemma PrefixAmong<T>(s: seq<T>, n: nat)
    requires n <= |s|
    ensures multiset(s[..n]) <= multiset(s)
  {
    assert s == s[..n] + s[n..];
  }
}
