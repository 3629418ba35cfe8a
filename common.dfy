/** Python built-ins and exceptions the invoice tool relies on, stated once for every module. */
module Common {

  datatype Option<+T> = None | Some(value: T)

  /** The Python exceptions that the modelled code can raise. */
  datatype Error =
    | IndexError             // indexing an empty list (`chars[0]`, `lst[0]`, `pages[0]`)
    | KeyError(key: string)  // reading a missing dictionary key
    | AttributeError         // calling `.group` on a failed `re.search`
    | AssertionError         // a failed `assert` statement
    | TypeError              // an operator applied to a value of the wrong type
    | ValueError(arg: string) // a failed `int()`/`float()` conversion, or `getk`

  datatype Result<+T> = Ok(value: T) | Err(error: Error)

  /** Index of the first element that satisfies `p`: the early-return scan of `find`. */
  function FirstIndex<T>(s: seq<T>, p: T -> bool): (r: Option<nat>)
    ensures r.Some? ==> r.value < |s| && p(s[r.value])
    ensures r.Some? ==> forall j :: 0 <= j < r.value ==> !p(s[j])
    ensures r.None? <==> forall j :: 0 <= j < |s| ==> !p(s[j])
  {
    if s == [] then None
    else if p(s[0]) then Some(0)
    else match FirstIndex(s[1..], p)
      case None => None
      case Some(i) => Some(i + 1)
  }

  /** `find(obj_list, callback)`: the first element accepted by the callback, or None. */
  function Find<T>(s: seq<T>, p: T -> bool): (r: Option<T>)
    ensures r.None? <==> forall j :: 0 <= j < |s| ==> !p(s[j])
    ensures r.Some? ==> exists i :: 0 <= i < |s| && s[i] == r.value && p(s[i]) && forall j :: 0 <= j < i ==> !p(s[j])
  {
    match FirstIndex(s, p)
    case None => None
    case Some(i) => Some(s[i])
  }

  /** Concatenation of a sequence of sequences (`reduce` over `[*t, *d]`, `"".join`). */
  function Flatten<T>(ss: seq<seq<T>>): seq<T>
  {
    if ss == [] then [] else Flatten(ss[..|ss| - 1]) + ss[|ss| - 1]
  }

  /** A non-empty sequence is its head followed by its tail. */
  lemma ConsSplit<T>(s: seq<T>)
    requires s != []
    ensures s == [s[0]] + s[1..]
  {
  }

  /** Concatenation is associative. */
  lemma ConcatAssoc<T>(a: seq<T>, b: seq<T>, c: seq<T>)
    ensures a + b + c == a + (b + c)
  {
  }

  /** Appending one element keeps the prefix and puts the element last. */
  lemma AppendLast<T>(a: seq<T>, x: T)
    ensures (a + [x])[..|a|] == a && (a + [x])[|a|] == x
  {
  }

  /** A non-empty sequence counts its last element once more than its other elements do. */
  lemma MultisetLast<T>(s: seq<T>, x: T)
    requires s != []
    ensures multiset(s)[x] == multiset(s[..|s| - 1])[x] + (if x == s[|s| - 1] then 1 else 0)
  {
    assert s == s[..|s| - 1] + [s[|s| - 1]];
  }

  lemma {:induction false} FlattenAppend<T>(a: seq<seq<T>>, b: seq<seq<T>>)
    ensures Flatten(a + b) == Flatten(a) + Flatten(b)
    decreases |b|
  {
    if b == [] {
      assert a + b == a;
    } else {
      var n := |b| - 1;
      assert (a + b)[..|a + b| - 1] == a + b[..n];
      FlattenAppend(a, b[..n]);
    }
  }

  /** Python's `sub in s` on strings: `sub` occurs as a contiguous slice of `s`. */
  predicate Contains<T(==)>(s: seq<T>, sub: seq<T>)
    decreases |s|
  {
    sub <= s || (|s| > 0 && Contains(s[1..], sub))
  }

  /** `sub` occurs in `s` starting at position `i`. */
  predicate OccursAt<T(==)>(s: seq<T>, sub: seq<T>, i: int)
  {
    0 <= i <= |s| - |sub| && s[i..i + |sub|] == sub
  }

  /** The recursive search agrees with the slice-based definition of a substring. */
  lemma {:induction false} ContainsAt<T>(s: seq<T>, sub: seq<T>)
    ensures Contains(s, sub) <==> exists i :: OccursAt(s, sub, i)
    decreases |s|
  {
    if sub <= s {
      assert OccursAt(s, sub, 0);
    } else if |s| > 0 {
      ContainsAt(s[1..], sub);
      if i :| OccursAt(s, sub, i) {
        assert i != 0;
        OccursShift(s, sub, i);
      }
      if i :| OccursAt(s[1..], sub, i) {
        OccursShift(s, sub, i + 1);
      }
    }
  }

  /** An occurrence past the first position is an occurrence in the tail, one place earlier. */
  lemma OccursShift<T>(s: seq<T>, sub: seq<T>, i: int)
    requires |s| > 0 && i >= 1
    ensures OccursAt(s, sub, i) <==> OccursAt(s[1..], sub, i - 1)
  {
    if i <= |s| - |sub| {
      assert s[1..][i - 1..i - 1 + |sub|] == s[i..i + |sub|];
    }
  }

  /** `s.split(c, 1)` when `c in s`: the text before the first `c` and the text after it. */
  function Split1<T(==)>(s: seq<T>, c: T): (r: (seq<T>, seq<T>))
    requires c in s
    ensures r.0 + [c] + r.1 == s
    ensures c !in r.0
  {
    var k := IndexOf(s, c);
    assert s[..k] + [c] + s[k + 1..] == s;
    (s[..k], s[k + 1..])
  }

  /** `s.index(c)`: the position of the first occurrence of an element known to occur. */
  function IndexOf<T(==)>(s: seq<T>, c: T): (i: nat)
    requires c in s
    ensures i < |s| && s[i] == c && c !in s[..i]
  {
    if s[0] == c then 0 else 1 + IndexOf(s[1..], c)
  }

  /** The first `Some` that `f` gives along `xs`: a search over groups that stops at the
      first group with a hit. */
  function FirstSome<S, T>(xs: seq<S>, f: S -> Option<T>): Option<T>
  {
    if xs == [] then None
    else match f(xs[0])
      case Some(t) => Some(t)
      case None => FirstSome(xs[1..], f)
  }

  lemma {:induction false} FirstSomeNone<S, T>(xs: seq<S>, f: S -> Option<T>)
    ensures FirstSome(xs, f).None? <==> forall i :: 0 <= i < |xs| ==> f(xs[i]).None?
    decreases |xs|
  {
    if xs != [] && f(xs[0]).None? {
      FirstSomeNone(xs[1..], f);
      assert forall i :: 1 <= i < |xs| ==> xs[i] == xs[1..][i - 1];
    }
  }

  lemma {:induction false} FirstSomeFirst<S, T>(xs: seq<S>, f: S -> Option<T>)
    requires FirstSome(xs, f).Some?
    ensures exists i :: (0 <= i < |xs| && f(xs[i]) == FirstSome(xs, f) &&
      forall j :: 0 <= j < i ==> f(xs[j]).None?)
    decreases |xs|
  {
    if f(xs[0]).None? {
      var rest := xs[1..];
      FirstSomeFirst(rest, f);
      var i :| 0 <= i < |rest| && f(rest[i]) == FirstSome(rest, f) &&
        forall j :: 0 <= j < i ==> f(rest[j]).None?;
      assert forall j :: 1 <= j <= i ==> rest[j - 1] == xs[j];
      assert f(xs[i + 1]) == FirstSome(xs, f);
    } else {
      assert f(xs[0]) == FirstSome(xs, f);
    }
  }

  /** The search stops at the first group with a hit. */
  lemma {:induction false} FirstSomeAt<S, T>(xs: seq<S>, f: S -> Option<T>, i: nat)
    requires i < |xs| && f(xs[i]).Some?
    requires forall j :: 0 <= j < i ==> f(xs[j]).None?
    ensures FirstSome(xs, f) == f(xs[i])
    decreases i
  {
    if i > 0 {
      assert forall j :: 0 <= j < i - 1 ==> xs[1..][j] == xs[j + 1];
      FirstSomeAt(xs[1..], f, i - 1);
    }
  }
}
