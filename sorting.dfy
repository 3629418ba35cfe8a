/** Python's `sorted(xs, key=...)`: a stable sort by `<` on the keys. */
module Sorting {

  /** A sort key: a number (int and float compare as reals) or a string. */
  datatype Key = NumKey(x: real) | TextKey(s: string)

  /** Python's `<` on two strings: lexicographic by code point. */
  predicate LexLess(s: string, t: string)
    decreases |s|
  {
    if s == [] then t != []
    else t != [] && (s[0] < t[0] || (s[0] == t[0] && LexLess(s[1..], t[1..])))
  }

  /** `<` on keys; numbers are ordered before strings only so that the order is total
      (the callers never compare a number with a string). */
  predicate Less(a: Key, b: Key)
  {
    match (a, b)
    case (NumKey(x), NumKey(y)) => x < y
    case (TextKey(s), TextKey(t)) => LexLess(s, t)
    case (NumKey(_), TextKey(_)) => true
    case (TextKey(_), NumKey(_)) => false
  }

  lemma {:induction false} LexLessIrreflexive(s: string)
    ensures !LexLess(s, s)
    decreases |s|
  {
    if s != [] { LexLessIrreflexive(s[1..]); }
  }

  lemma {:induction false} LexLessTransitive(s: string, t: string, u: string)
    requires LexLess(s, t) && LexLess(t, u)
    ensures LexLess(s, u)
    decreases |s|
  {
    if s != [] && t != [] && u != [] && s[0] == t[0] == u[0] {
      LexLessTransitive(s[1..], t[1..], u[1..]);
    }
  }

  lemma {:induction false} LexLessTotal(s: string, t: string)
    ensures s == t || LexLess(s, t) || LexLess(t, s)
    decreases |s|
  {
    if s != [] && t != [] && s[0] == t[0] {
      LexLessTotal(s[1..], t[1..]);
      if s[1..] == t[1..] {
        assert s == [s[0]] + s[1..] && t == [t[0]] + t[1..];
      }
    }
  }

  /** `Less` is a strict total order on keys. */
  lemma LessIsStrictTotalOrder(a: Key, b: Key, c: Key)
    ensures !Less(a, a)
    ensures Less(a, b) && Less(b, c) ==> Less(a, c)
    ensures a == b || Less(a, b) || Less(b, a)
  {
    if a.TextKey? { LexLessIrreflexive(a.s); }
    if a.TextKey? && b.TextKey? && c.TextKey? && Less(a, b) && Less(b, c) {
      LexLessTransitive(a.s, b.s, c.s);
    }
    if a.TextKey? && b.TextKey? { LexLessTotal(a.s, b.s); }
  }

  /** No later element has a key smaller than an earlier one. */
  ghost predicate SortedBy<T>(s: seq<T>, key: T -> Key)
  {
    forall i, j :: 0 <= i < j < |s| ==> !Less(key(s[j]), key(s[i]))
  }

  /** Insert `x` before the first element whose key is greater than its own. */
  function Insert<T>(x: T, s: seq<T>, key: T -> Key): (r: seq<T>)
    ensures multiset(r) == multiset(s) + multiset{x}
    ensures |r| == |s| + 1
  {
    if s == [] || Less(key(x), key(s[0])) then [x] + s
    else
      assert s == [s[0]] + s[1..];
      [s[0]] + Insert(x, s[1..], key)
  }

  /** `sorted(s, key=key)`: insertion sort, taking the elements in their input order. */
  function SortBy<T>(s: seq<T>, key: T -> Key): (r: seq<T>)
    ensures multiset(r) == multiset(s)
    ensures |r| == |s|
  {
    if s == [] then []
    else
      var n := |s| - 1;
      assert s == s[..n] + [s[n]];
      Insert(s[n], SortBy(s[..n], key), key)
  }

  lemma {:induction false} InsertSorted<T>(x: T, s: seq<T>, key: T -> Key)
    requires SortedBy(s, key)
    ensures SortedBy(Insert(x, s, key), key)
    decreases |s|
  {
    var r := Insert(x, s, key);
    if s == [] {
    } else if Less(key(x), key(s[0])) {
      forall j | 0 <= j < |s|
        ensures !Less(key(s[j]), key(x))
      {
        LessIsStrictTotalOrder(key(s[j]), key(x), key(s[0]));
        LessIsStrictTotalOrder(key(s[0]), key(s[0]), key(s[0]));
      }
    } else {
      InsertSorted(x, s[1..], key);
      var t := Insert(x, s[1..], key);
      forall j | 0 <= j < |t|
        ensures !Less(key(t[j]), key(s[0]))
      {
        assert t[j] in multiset(t);
        if t[j] != x {
          assert t[j] in multiset(s[1..]);
          var m :| 0 <= m < |s[1..]| && s[1..][m] == t[j];
          assert s[m + 1] == t[j];
        }
      }
      assert r == [s[0]] + t;
    }
  }

  /** Python's `sorted` result is in non-decreasing key order. */
  lemma {:induction false} SortBySorted<T>(s: seq<T>, key: T -> Key)
    ensures SortedBy(SortBy(s, key), key)
    decreases |s|
  {
    if s != [] {
      var n := |s| - 1;
      SortBySorted(s[..n], key);
      InsertSorted(s[n], SortBy(s[..n], key), key);
    }
  }

  /** The elements of `s` whose key equals `k`, in their order in `s`. */
  function WithKey<T>(s: seq<T>, key: T -> Key, k: Key): seq<T>
  {
    if s == [] then []
    else WithKey(s[..|s| - 1], key, k) + (if key(s[|s| - 1]) == k then [s[|s| - 1]] else [])
  }

  lemma {:induction false} WithKeyAppend<T>(a: seq<T>, b: seq<T>, key: T -> Key, k: Key)
    ensures WithKey(a + b, key, k) == WithKey(a, key, k) + WithKey(b, key, k)
    decreases |b|
  {
    if b == [] {
      assert a + b == a;
    } else {
      var n := |b| - 1;
      assert (a + b)[..|a + b| - 1] == a + b[..n];
      WithKeyAppend(a, b[..n], key, k);
    }
  }

  lemma WithKeySingle<T>(x: T, key: T -> Key, k: Key)
    ensures WithKey([x], key, k) == if key(x) == k then [x] else []
  {
    assert [x][..0] == [];
  }

  lemma {:induction false} InsertStable<T>(x: T, s: seq<T>, key: T -> Key, k: Key)
    requires SortedBy(s, key)
    ensures WithKey(Insert(x, s, key), key, k) == WithKey(s, key, k) + (if key(x) == k then [x] else [])
    decreases |s|
  {
    WithKeySingle(x, key, k);
    if s == [] {
      assert Insert(x, s, key) == [x];
    } else if Less(key(x), key(s[0])) {
      InsertFrontStable(x, s, key, k);
    } else {
      var t := Insert(x, s[1..], key);
      assert Insert(x, s, key) == [s[0]] + t;
      SortedTail(s, key);
      InsertStable(x, s[1..], key, k);
      ConsStable(s, t, key, k, if key(x) == k then [x] else []);
    }
  }

  lemma ConsStable<T>(s: seq<T>, t: seq<T>, key: T -> Key, k: Key, e: seq<T>)
    requires s != [] && WithKey(t, key, k) == WithKey(s[1..], key, k) + e
    ensures WithKey([s[0]] + t, key, k) == WithKey(s, key, k) + e
  {
    WithKeyAppend([s[0]], t, key, k);
    WithKeyAppend([s[0]], s[1..], key, k);
    assert [s[0]] + s[1..] == s;
  }

  lemma InsertFrontStable<T>(x: T, s: seq<T>, key: T -> Key, k: Key)
    requires SortedBy(s, key) && s != [] && Less(key(x), key(s[0]))
    ensures WithKey([x] + s, key, k) == WithKey(s, key, k) + (if key(x) == k then [x] else [])
  {
    WithKeySingle(x, key, k);
    WithKeyAppend([x], s, key, k);
    if key(x) == k {
      NoneWithKey(s, key, k);
    }
  }

  lemma SortedTail<T>(s: seq<T>, key: T -> Key)
    requires SortedBy(s, key) && s != []
    ensures SortedBy(s[1..], key)
  {
    forall i, j | 0 <= i < j < |s| - 1
      ensures !Less(key(s[1..][j]), key(s[1..][i]))
    {
      assert s[1..][j] == s[j + 1] && s[1..][i] == s[i + 1];
    }
  }

  /** In a sorted sequence whose first key is greater than `k`, no key equals `k`. */
  lemma NoneWithKey<T>(s: seq<T>, key: T -> Key, k: Key)
    requires SortedBy(s, key) && s != [] && Less(k, key(s[0]))
    ensures WithKey(s, key, k) == []
  {
    forall j | 0 <= j < |s|
      ensures key(s[j]) != k
    {
      LessIsStrictTotalOrder(k, k, k);
    }
    NoKeyNoElement(s, key, k);
  }

  lemma {:induction false} NoKeyNoElement<T>(s: seq<T>, key: T -> Key, k: Key)
    requires forall j :: 0 <= j < |s| ==> key(s[j]) != k
    ensures WithKey(s, key, k) == []
    decreases |s|
  {
    if s != [] { NoKeyNoElement(s[..|s| - 1], key, k); }
  }

  /** Python's sort is stable: elements with equal keys keep their input order. */
  lemma {:induction false} SortByStable<T>(s: seq<T>, key: T -> Key, k: Key)
    ensures WithKey(SortBy(s, key), key, k) == WithKey(s, key, k)
    decreases |s|
  {
    if s != [] {
      var n := |s| - 1;
      SortByStable(s[..n], key, k);
      SortBySorted(s[..n], key);
      InsertStable(s[n], SortBy(s[..n], key), key, k);
    }
  }
}
