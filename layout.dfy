/** Geometry of a page: glyph boxes merged into words (`merge_line_chars`) and fragment
    lines merged into logical lines (`merge_lines`). Coordinates are reals. */
module Layout {
  import opened Common
  import opened Sorting

  /** A glyph box: its text and horizontal extent. */
  datatype Char = Char(text: string, x0: real, x1: real)

  /** A line of text. The PDF library's fragment lines and the merged lines share this shape. */
  datatype TextLine = TextLine(text: string, x0: real, x1: real, top: real, bottom: real, chars: seq<Char>)

  /** A run of characters of one line separated by gaps below the tolerance. */
  datatype WordGroup = WordGroup(text: string, x0: real, x1: real, chars: seq<Char>)

  function Abs(x: real): real { if x < 0.0 then -x else x }

  /** `"".join([c["text"] for c in cs])` */
  function TextOf(cs: seq<Char>): string
  {
    if cs == [] then [] else TextOf(cs[..|cs| - 1]) + cs[|cs| - 1].text
  }

  lemma {:induction false} TextOfAppend(a: seq<Char>, b: seq<Char>)
    ensures TextOf(a + b) == TextOf(a) + TextOf(b)
    decreases |b|
  {
    if b == [] {
      assert a + b == a;
    } else {
      var n := |b| - 1;
      assert (a + b)[..|a + b| - 1] == a + b[..n];
      TextOfAppend(a, b[..n]);
    }
  }

  // ---------------------------------------------------------------------------
  // merge_line_chars

  /** A new group starts at character `i`: its gap to the previous character's `x1`
      (to `seed` for the first character) is not below the tolerance. */
  predicate SplitsAt(cs: seq<Char>, seed: real, tol: real, i: nat)
    requires i < |cs|
  {
    cs[i].x0 - (if i == 0 then seed else cs[i - 1].x1) >= tol
  }

  /** The character groups the first loop of `merge_line_chars` builds: `char_groups` with the
      open group `lst` appended, after scanning `cs` with `prev_x1` seeded by `seed`. */
  function Grouping(cs: seq<Char>, seed: real, tol: real): (g: seq<seq<Char>>)
    ensures |g| >= 1
    decreases |cs|
  {
    if cs == [] then [[]]
    else
      var n := |cs| - 1;
      var g := Grouping(cs[..n], seed, tol);
      if SplitsAt(cs, seed, tol, n) then g + [[cs[n]]]
      else g[..|g| - 1] + [g[|g| - 1] + [cs[n]]]
  }

  /** One more character: it opens a new group or joins the open group `lst`. */
  lemma GroupingExtend(cs: seq<Char>, i: nat, seed: real, tol: real, groups: seq<seq<Char>>, lst: seq<Char>)
    requires i < |cs| && groups + [lst] == Grouping(cs[..i], seed, tol)
    ensures SplitsAt(cs, seed, tol, i) ==> groups + [lst] + [[cs[i]]] == Grouping(cs[..i + 1], seed, tol)
    ensures !SplitsAt(cs, seed, tol, i) ==> groups + [lst + [cs[i]]] == Grouping(cs[..i + 1], seed, tol)
  {
    assert cs[..i + 1][..i] == cs[..i];
    AppendLast(groups, lst);
  }

  /** Position in the character sequence at which group `k` begins. */
  function Offset(g: seq<seq<Char>>, k: nat): nat
    requires k <= |g|
  {
    |Flatten(g[..k])|
  }

  /** Positions at which some group after the first begins. */
  function Starts(g: seq<seq<Char>>): set<nat>
  {
    set k: nat | 1 <= k < |g| :: Offset(g, k)
  }

  /** Positions at which the gap law demands a new group. */
  function SplitPositions(cs: seq<Char>, seed: real, tol: real): set<nat>
  {
    set i: nat | i < |cs| && SplitsAt(cs, seed, tol, i)
  }

  lemma SplitsAtPrefix(cs: seq<Char>, seed: real, tol: real, n: nat, i: nat)
    requires i < n <= |cs|
    ensures SplitsAt(cs[..n], seed, tol, i) == SplitsAt(cs, seed, tol, i)
  {
  }

  /** Every group after the first is non-empty. */
  ghost predicate TailNonEmpty(g: seq<seq<Char>>)
  {
    forall k :: 1 <= k < |g| ==> g[k] != []
  }

  lemma {:induction false} GroupingFlatten(cs: seq<Char>, seed: real, tol: real)
    ensures Flatten(Grouping(cs, seed, tol)) == cs
    decreases |cs|
  {
    var g := Grouping(cs, seed, tol);
    if cs == [] {
      assert g[..0] == [];
    } else {
      var n := |cs| - 1;
      var h := Grouping(cs[..n], seed, tol);
      GroupingFlatten(cs[..n], seed, tol);
      assert cs == cs[..n] + [cs[n]];
      if SplitsAt(cs, seed, tol, n) {
        assert g == h + [[cs[n]]];
        assert g[..|g| - 1] == h;
      } else {
        JoinFlatten(h, cs[n]);
      }
    }
  }

  lemma {:induction false} GroupingTailNonEmpty(cs: seq<Char>, seed: real, tol: real)
    ensures TailNonEmpty(Grouping(cs, seed, tol))
    decreases |cs|
  {
    if cs != [] {
      var n := |cs| - 1;
      GroupingTailNonEmpty(cs[..n], seed, tol);
    }
  }

  lemma {:induction false} GroupingFirst(cs: seq<Char>, seed: real, tol: real)
    ensures Grouping(cs, seed, tol)[0] == [] <==> cs == [] || SplitsAt(cs, seed, tol, 0)
    decreases |cs|
  {
    if cs != [] {
      var n := |cs| - 1;
      var h := Grouping(cs[..n], seed, tol);
      var g := Grouping(cs, seed, tol);
      var m := |h|;
      GroupingFirst(cs[..n], seed, tol);
      if SplitsAt(cs, seed, tol, n) {
        assert g == h + [[cs[n]]];
        assert g[0] == h[0];
        if n == 0 {
          assert h == [[]];
        } else {
          SplitsAtPrefix(cs, seed, tol, n, 0);
        }
      } else {
        assert g == h[..m - 1] + [h[m - 1] + [cs[n]]];
        if m == 1 {
          assert g[0] != [];
          if n > 0 {
            GroupingFlatten(cs[..n], seed, tol);
            assert h[..0] == [];
            assert Flatten(h) == h[0];
            SplitsAtPrefix(cs, seed, tol, n, 0);
          }
        } else {
          assert g[0] == h[0];
          assert n > 0;
          SplitsAtPrefix(cs, seed, tol, n, 0);
        }
      }
    }
  }

  lemma {:induction false} GroupingStarts(cs: seq<Char>, seed: real, tol: real)
    ensures Starts(Grouping(cs, seed, tol)) == SplitPositions(cs, seed, tol)
    decreases |cs|
  {
    if cs == [] {
      assert SplitPositions(cs, seed, tol) == {};
    } else {
      var n := |cs| - 1;
      var h := Grouping(cs[..n], seed, tol);
      GroupingStarts(cs[..n], seed, tol);
      SplitPositionsPrefix(cs, seed, tol);
      if SplitsAt(cs, seed, tol, n) {
        GroupingFlatten(cs[..n], seed, tol);
        SplitStarts(h, cs[n]);
      } else {
        JoinStarts(h, cs[n]);
      }
    }
  }

  lemma SplitPositionsPrefix(cs: seq<Char>, seed: real, tol: real)
    requires cs != []
    ensures SplitPositions(cs, seed, tol) ==
      SplitPositions(cs[..|cs| - 1], seed, tol) + (if SplitsAt(cs, seed, tol, |cs| - 1) then {|cs| - 1} else {})
  {
    var n := |cs| - 1;
    forall i: nat | i < n
      ensures SplitsAt(cs[..n], seed, tol, i) == SplitsAt(cs, seed, tol, i)
    {
      SplitsAtPrefix(cs, seed, tol, n, i);
    }
  }

  lemma SplitStarts(h: seq<seq<Char>>, c: Char)
    requires |h| >= 1
    ensures Starts(h + [[c]]) == Starts(h) + {|Flatten(h)|}
  {
    var g := h + [[c]];
    forall k: nat | k <= |h|
      ensures Offset(g, k) == Offset(h, k)
    {
      assert g[..k] == h[..k];
    }
    assert g[..|h|] == h;
    forall x | x in Starts(g)
      ensures x in Starts(h) + {|Flatten(h)|}
    {
      var k: nat :| 1 <= k < |g| && Offset(g, k) == x;
      if k < |h| { assert x in Starts(h); }
    }
    forall x | x in Starts(h) + {|Flatten(h)|}
      ensures x in Starts(g)
    {
      if x in Starts(h) {
        var k: nat :| 1 <= k < |h| && Offset(h, k) == x;
        assert Offset(g, k) == x;
      } else {
        assert Offset(g, |h|) == x;
      }
    }
  }

  lemma JoinFlatten(h: seq<seq<Char>>, c: Char)
    requires |h| >= 1
    ensures Flatten(h[..|h| - 1] + [h[|h| - 1] + [c]]) == Flatten(h) + [c]
  {
    var m := |h|;
    var g := h[..m - 1] + [h[m - 1] + [c]];
    assert g[..|g| - 1] == h[..m - 1];
  }

  lemma JoinStarts(h: seq<seq<Char>>, c: Char)
    requires |h| >= 1
    ensures Starts(h[..|h| - 1] + [h[|h| - 1] + [c]]) == Starts(h)
  {
    var m := |h|;
    var g := h[..m - 1] + [h[m - 1] + [c]];
    forall k: nat | k < m
      ensures Offset(g, k) == Offset(h, k)
    {
      assert g[..k] == h[..k];
    }
    forall x | x in Starts(g)
      ensures x in Starts(h)
    {
      var k: nat :| 1 <= k < |g| && Offset(g, k) == x;
      assert Offset(h, k) == x;
    }
    forall x | x in Starts(h)
      ensures x in Starts(g)
    {
      var k: nat :| 1 <= k < |h| && Offset(h, k) == x;
      assert Offset(g, k) == x;
    }
  }

  /** One dictionary of the result: the group's text, its first `x0` and its last `x1`. */
  function MakeWord(lst: seq<Char>): WordGroup
    requires lst != []
  {
    WordGroup(TextOf(lst), lst[0].x0, lst[|lst| - 1].x1, lst)
  }

  /** What `merge_line_chars(chars, x_tolerance)` returns or raises. */
  function WordsOf(chars: seq<Char>, tol: real): (r: Result<seq<WordGroup>>)
    ensures r.Err? ==> r.error == IndexError
    ensures r.Ok? ==> chars != []
  {
    if chars == [] then Err(IndexError)
    else
      var g := Grouping(chars, chars[0].x1, tol);
      if exists k :: 0 <= k < |g| && g[k] == [] then Err(IndexError)
      else Ok(seq(|g|, k requires 0 <= k < |g| => MakeWord(g[k])))
  }

  /** `merge_line_chars`: split a line's characters into words at gaps of at least `tol`. */
  method MergeLineChars(chars: seq<Char>, tol: real) returns (r: Result<seq<WordGroup>>)
    ensures r == WordsOf(chars, tol)
  {
    if chars == [] {
      return Err(IndexError);
    }
    var charGroups := GroupChars(chars, tol);
    r := MakeWords(charGroups);
  }

  /** The first loop of `merge_line_chars`: a new group starts wherever the gap to the
      previous character reaches the tolerance. */
  method GroupChars(chars: seq<Char>, tol: real) returns (charGroups: seq<seq<Char>>)
    requires chars != []
    ensures charGroups == Grouping(chars, chars[0].x1, tol)
  {
    charGroups := [];
    var lst: seq<Char> := [];
    var prevX1 := chars[0].x1;
    var i := 0;
    while i < |chars|
      invariant 0 <= i <= |chars|
      invariant prevX1 == if i == 0 then chars[0].x1 else chars[i - 1].x1
      invariant charGroups + [lst] == Grouping(chars[..i], chars[0].x1, tol)
    {
      var c := chars[i];
      GroupingExtend(chars, i, chars[0].x1, tol, charGroups, lst);
      if c.x0 - prevX1 < tol {
        lst := lst + [c];
      } else {
        charGroups := charGroups + [lst];
        lst := [c];
      }
      prevX1 := c.x1;
      i := i + 1;
    }
    assert chars[..|chars|] == chars;
    charGroups := charGroups + [lst];
  }

  /** The second loop of `merge_line_chars`: one word per group; an empty group fails at
      its first character. */
  method MakeWords(charGroups: seq<seq<Char>>) returns (r: Result<seq<WordGroup>>)
    ensures r == if exists k :: 0 <= k < |charGroups| && charGroups[k] == [] then Err(IndexError)
                 else Ok(seq(|charGroups|, k requires 0 <= k < |charGroups| => MakeWord(charGroups[k])))
  {
    var groups: seq<WordGroup> := [];
    var k := 0;
    while k < |charGroups|
      invariant 0 <= k <= |charGroups|
      invariant forall j :: 0 <= j < k ==> charGroups[j] != []
      invariant |groups| == k
      invariant forall j :: 0 <= j < k ==> groups[j] == MakeWord(charGroups[j])
    {
      var l := charGroups[k];
      if l == [] {
        assert charGroups[k] == [];
        return Err(IndexError);
      }
      groups := groups + [MakeWord(l)];
      k := k + 1;
    }
    assert groups == seq(|charGroups|, j requires 0 <= j < |charGroups| => MakeWord(charGroups[j]));
    r := Ok(groups);
  }


  /** `merge_line_chars` fails exactly on an empty line, or when the first character's own
      width is already not below the tolerance (the empty first group reaches `lst[0]`). */
  lemma WordsFail(chars: seq<Char>, tol: real)
    ensures WordsOf(chars, tol).Err? <==> chars == [] || chars[0].x0 - chars[0].x1 >= tol
  {
    if chars != [] {
      var g := Grouping(chars, chars[0].x1, tol);
      GroupingFirst(chars, chars[0].x1, tol);
      GroupingTailNonEmpty(chars, chars[0].x1, tol);
      if chars[0].x0 - chars[0].x1 >= tol {
        assert g[0] == [];
      } else {
        assert forall k :: 0 <= k < |g| ==> g[k] != [];
      }
    }
  }

  /** On success every character lands in exactly one word, in order, and each word's `x0`,
      `x1` and text come from its first character, its last character and their texts. */
  lemma WordsShape(chars: seq<Char>, tol: real)
    requires WordsOf(chars, tol).Ok?
    ensures var ws := WordsOf(chars, tol).value;
      && Flatten(WordChars(ws)) == chars
      && (forall k :: 0 <= k < |ws| ==> ws[k].chars != [])
      && (forall k :: 0 <= k < |ws| ==>
            ws[k].x0 == ws[k].chars[0].x0 && ws[k].x1 == ws[k].chars[|ws[k].chars| - 1].x1
            && ws[k].text == TextOf(ws[k].chars))
  {
    var g := Grouping(chars, chars[0].x1, tol);
    GroupingFlatten(chars, chars[0].x1, tol);
    MadeWords(g);
  }

  /** Words made from non-empty groups keep the groups as their characters. */
  lemma MadeWords(g: seq<seq<Char>>)
    requires forall k :: 0 <= k < |g| ==> g[k] != []
    ensures var ws := seq(|g|, k requires 0 <= k < |g| => MakeWord(g[k]));
      && WordChars(ws) == g
      && (forall k :: 0 <= k < |ws| ==> ws[k].chars != [])
      && (forall k :: 0 <= k < |ws| ==>
            ws[k].x0 == ws[k].chars[0].x0 && ws[k].x1 == ws[k].chars[|ws[k].chars| - 1].x1
            && ws[k].text == TextOf(ws[k].chars))
  {
    var ws := seq(|g|, k requires 0 <= k < |g| => MakeWord(g[k]));
    assert WordChars(ws) == g;
  }

  /** The gap law: on success a word begins at character `i > 0` exactly when
      `chars[i].x0 - chars[i-1].x1 >= tol`, so two neighbours share a word iff their gap is
      strictly below the tolerance. */
  lemma WordsGapLaw(chars: seq<Char>, tol: real)
    requires WordsOf(chars, tol).Ok?
    ensures WordStarts(WordsOf(chars, tol).value) ==
      set i: nat | 0 < i < |chars| && chars[i].x0 - chars[i - 1].x1 >= tol
  {
    var ws := WordsOf(chars, tol).value;
    var g := Grouping(chars, chars[0].x1, tol);
    assert WordChars(ws) == g;
    WordsFail(chars, tol);
    GroupingStarts(chars, chars[0].x1, tol);
    assert !SplitsAt(chars, chars[0].x1, tol, 0);
    assert SplitPositions(chars, chars[0].x1, tol) ==
      set i: nat | 0 < i < |chars| && chars[i].x0 - chars[i - 1].x1 >= tol;
  }

  /** The characters of each word. */
  function WordChars(ws: seq<WordGroup>): (r: seq<seq<Char>>)
    ensures |r| == |ws| && forall k :: 0 <= k < |ws| ==> r[k] == ws[k].chars
  {
    seq(|ws|, k requires 0 <= k < |ws| => ws[k].chars)
  }

  /** Character positions at which a word other than the first begins. */
  function WordStarts(ws: seq<WordGroup>): set<nat>
  {
    Starts(WordChars(ws))
  }

  /** With a larger tolerance no new word boundary appears (monotonic in the tolerance):
      for the grouping, and for the words whenever both tolerances give words. */
  lemma WordsMonotonic(chars: seq<Char>, small: real, large: real)
    requires chars != [] && small <= large
    ensures Starts(Grouping(chars, chars[0].x1, large)) <= Starts(Grouping(chars, chars[0].x1, small))
    ensures WordsOf(chars, small).Ok? && WordsOf(chars, large).Ok? ==>
      WordStarts(WordsOf(chars, large).value) <= WordStarts(WordsOf(chars, small).value)
  {
    GroupingStarts(chars, chars[0].x1, large);
    GroupingStarts(chars, chars[0].x1, small);
    if WordsOf(chars, small).Ok? && WordsOf(chars, large).Ok? {
      WordsGapLaw(chars, small);
      WordsGapLaw(chars, large);
    }
  }

  /** Joining the words' texts gives back the line's text (`parse_total_line` matches this). */
  lemma {:induction false} WordsText(chars: seq<Char>, tol: real)
    requires WordsOf(chars, tol).Ok?
    ensures Flatten(WordTexts(WordsOf(chars, tol).value)) == TextOf(chars)
  {
    var ws := WordsOf(chars, tol).value;
    var g := Grouping(chars, chars[0].x1, tol);
    GroupingFlatten(chars, chars[0].x1, tol);
    GroupTexts(g, ws);
  }

  /** `[x["text"] for x in word_char_groups]` */
  function WordTexts(ws: seq<WordGroup>): (r: seq<string>)
    ensures |r| == |ws| && forall k :: 0 <= k < |ws| ==> r[k] == ws[k].text
  {
    seq(|ws|, k requires 0 <= k < |ws| => ws[k].text)
  }

  lemma {:induction false} GroupTexts(g: seq<seq<Char>>, ws: seq<WordGroup>)
    requires |ws| == |g| && forall k :: 0 <= k < |g| ==> ws[k].text == TextOf(g[k])
    ensures Flatten(WordTexts(ws)) == TextOf(Flatten(g))
    decreases |g|
  {
    if g != [] {
      var n := |g| - 1;
      GroupTexts(g[..n], ws[..n]);
      assert WordTexts(ws)[..n] == WordTexts(ws[..n]);
      TextOfAppend(Flatten(g[..n]), g[n]);
    }
  }

  // ---------------------------------------------------------------------------
  // merge_lines

  /** The vertical centre `(top + bottom) / 2` a fragment line is clustered by. */
  function Center(l: TextLine): real { (l.top + l.bottom) / 2.0 }

  /** `abs(y - k) <= y_tolerance` */
  predicate Near(y: real, tol: real, k: real) { Abs(y - k) <= tol }

  /** The `defaultdict` of `merge_lines`: its keys in insertion order and the lines under each. */
  datatype Clusters = Clusters(keys: seq<real>, members: map<real, seq<TextLine>>)

  /** Keys are distinct, they are exactly the dictionary's keys, and no cluster is empty. */
  ghost predicate WellFormed(c: Clusters)
  {
    && (forall i, j :: 0 <= i < j < |c.keys| ==> c.keys[i] != c.keys[j])
    && (forall k :: k in c.members <==> k in c.keys)
    && (forall k :: k in c.members ==> c.members[k] != [])
  }

  /** The first key, in insertion order, within the tolerance of `y` (the `for k in data` scan). */
  function NearKey(keys: seq<real>, y: real, tol: real): Option<nat>
  {
    FirstIndex(keys, k => Near(y, tol, k))
  }

  /** One iteration of the first loop: the line joins the first near key, or else goes under
      its own centre (a new key unless that exact centre is already a key). */
  function Place(c: Clusters, line: TextLine, tol: real): (d: Clusters)
    requires WellFormed(c)
    ensures WellFormed(d)
  {
    var y := Center(line);
    match NearKey(c.keys, y, tol)
    case Some(i) => Clusters(c.keys, c.members[c.keys[i] := c.members[c.keys[i]] + [line]])
    case None =>
      if y in c.members then Clusters(c.keys, c.members[y := c.members[y] + [line]])
      else Clusters(c.keys + [y], c.members[y := [line]])
  }

  /** The dictionary after the first loop of `merge_lines` has placed every line. */
  function Cluster(lines: seq<TextLine>, tol: real): (c: Clusters)
    ensures WellFormed(c)
  {
    if lines == [] then Clusters([], map[])
    else Place(Cluster(lines[..|lines| - 1], tol), lines[|lines| - 1], tol)
  }

  /** Keys are pairwise more than `tol` apart. */
  ghost predicate Separated(keys: seq<real>, tol: real)
  {
    forall i, j :: 0 <= i < |keys| && 0 <= j < |keys| && i != j ==> Abs(keys[i] - keys[j]) > tol
  }

  /** A new key is only created when no existing key is within the tolerance, so all cluster
      keys are pairwise more than `y_tolerance` apart. */
  lemma {:induction false} ClusterSeparated(lines: seq<TextLine>, tol: real)
    ensures Separated(Cluster(lines, tol).keys, tol)
    decreases |lines|
  {
    if lines != [] {
      var n := |lines| - 1;
      ClusterSeparated(lines[..n], tol);
      PlaceSeparated(Cluster(lines[..n], tol), lines[n], tol);
    }
  }

  /** Placing one line keeps the keys separated. */
  lemma PlaceSeparated(c: Clusters, line: TextLine, tol: real)
    requires WellFormed(c) && Separated(c.keys, tol)
    ensures Separated(Place(c, line, tol).keys, tol)
  {
    var y := Center(line);
    if NearKey(c.keys, y, tol).None? && y !in c.members {
      var ks := c.keys + [y];
      forall i, j | 0 <= i < |ks| && 0 <= j < |ks| && i != j
        ensures Abs(ks[i] - ks[j]) > tol
      {
        if i == |c.keys| {
          assert !Near(y, tol, c.keys[j]);
        } else if j == |c.keys| {
          assert !Near(y, tol, c.keys[i]);
        }
      }
    }
  }

  /** All clustered lines, cluster by cluster in the order of `keys`. */
  function Gathered(keys: seq<real>, members: map<real, seq<TextLine>>): seq<TextLine>
    requires forall i :: 0 <= i < |keys| ==> keys[i] in members
  {
    if keys == [] then []
    else Gathered(keys[..|keys| - 1], members) + members[keys[|keys| - 1]]
  }

  /** Changing the lines under a key that is not listed leaves the gathered lines alone. */
  lemma {:induction false} GatheredUntouched(keys: seq<real>, members: map<real, seq<TextLine>>, k: real, v: seq<TextLine>)
    requires forall i :: 0 <= i < |keys| ==> keys[i] in members
    requires k !in keys
    ensures Gathered(keys, members[k := v]) == Gathered(keys, members)
    decreases |keys|
  {
    if keys != [] {
      GatheredUntouched(keys[..|keys| - 1], members, k, v);
    }
  }

  /** Appending a line under a listed key adds exactly that line to the gathered lines. */
  lemma {:induction false} GatheredAppend(keys: seq<real>, members: map<real, seq<TextLine>>, k: real, line: TextLine)
    requires forall i :: 0 <= i < |keys| ==> keys[i] in members
    requires forall i, j :: 0 <= i < j < |keys| ==> keys[i] != keys[j]
    requires k in keys
    ensures multiset(Gathered(keys, members[k := members[k] + [line]])) == multiset(Gathered(keys, members)) + multiset{line}
    decreases |keys|
  {
    var n := |keys| - 1;
    var pre := keys[..n];
    var m := members[k := members[k] + [line]];
    assert Gathered(keys, m) == Gathered(pre, m) + m[keys[n]];
    assert Gathered(keys, members) == Gathered(pre, members) + members[keys[n]];
    if keys[n] == k {
      assert forall i :: 0 <= i < n ==> pre[i] != k;
      GatheredUntouched(pre, members, k, members[k] + [line]);
    } else {
      assert k in pre;
      GatheredAppend(pre, members, k, line);
    }
  }

  /** Placing a line adds exactly that line to the gathered clusters. */
  lemma PlacePartition(c: Clusters, line: TextLine, tol: real)
    requires WellFormed(c)
    ensures multiset(Gathered(Place(c, line, tol).keys, Place(c, line, tol).members)) ==
      multiset(Gathered(c.keys, c.members)) + multiset{line}
  {
    var y := Center(line);
    match NearKey(c.keys, y, tol)
    case Some(i) =>
      GatheredAppend(c.keys, c.members, c.keys[i], line);
    case None =>
      if y in c.members {
        GatheredAppend(c.keys, c.members, y, line);
      } else {
        var ks := c.keys + [y];
        var m := c.members[y := [line]];
        assert ks[..|c.keys|] == c.keys;
        assert Gathered(ks, m) == Gathered(c.keys, m) + [line];
        GatheredUntouched(c.keys, c.members, y, [line]);
      }
  }

  /** Every input line lies in exactly one cluster: the clusters together hold exactly the
      input lines, each as often as it occurs. */
  lemma {:induction false} ClusterPartition(lines: seq<TextLine>, tol: real)
    ensures multiset(Gathered(Cluster(lines, tol).keys, Cluster(lines, tol).members)) == multiset(lines)
    decreases |lines|
  {
    if lines != [] {
      var n := |lines| - 1;
      ClusterPartition(lines[..n], tol);
      assert lines == lines[..n] + [lines[n]];
      PlacePartition(Cluster(lines[..n], tol), lines[n], tol);
    }
  }

  function LineKey(l: TextLine): Key { NumKey(l.x0) }
  function CharKey(c: Char): Key { NumKey(c.x0) }
  function RealKey(x: real): Key { NumKey(x) }

  /** `reduce(lambda t, d: [*t, *d["chars"]], lst, [])` */
  function AllChars(ls: seq<TextLine>): seq<Char>
  {
    if ls == [] then [] else AllChars(ls[..|ls| - 1]) + ls[|ls| - 1].chars
  }

  /** `min([d["top"] for d in lst])` */
  function MinTop(ls: seq<TextLine>): (m: real)
    requires ls != []
    ensures forall i :: 0 <= i < |ls| ==> m <= ls[i].top
    ensures exists i :: 0 <= i < |ls| && ls[i].top == m
  {
    if |ls| == 1 then ls[0].top
    else
      var m := MinTop(ls[..|ls| - 1]);
      if ls[|ls| - 1].top < m then ls[|ls| - 1].top else m
  }

  /** `max([d["bottom"] for d in lst])` */
  function MaxBottom(ls: seq<TextLine>): (m: real)
    requires ls != []
    ensures forall i :: 0 <= i < |ls| ==> ls[i].bottom <= m
    ensures exists i :: 0 <= i < |ls| && ls[i].bottom == m
  {
    if |ls| == 1 then ls[0].bottom
    else
      var m := MaxBottom(ls[..|ls| - 1]);
      if ls[|ls| - 1].bottom > m then ls[|ls| - 1].bottom else m
  }

  /** The merged line `item` built from one cluster's member lines. */
  function BuildLine(members: seq<TextLine>): TextLine
    requires members != []
  {
    var lst := SortBy(members, LineKey);
    var chars := SortBy(AllChars(lst), CharKey);
    TextLine(TextOf(chars), lst[0].x0, lst[|lst| - 1].x1, MinTop(lst), MaxBottom(lst), chars)
  }

  /** The merged lines for the clusters under `ks`, in that order. */
  function EmitLines(ks: seq<real>, members: map<real, seq<TextLine>>): (r: seq<TextLine>)
    requires forall i :: 0 <= i < |ks| ==> ks[i] in members && members[ks[i]] != []
    ensures |r| == |ks|
  {
    if ks == [] then []
    else EmitLines(ks[..|ks| - 1], members) + [BuildLine(members[ks[|ks| - 1]])]
  }

  /** Emitting one more key appends that key's merged line. */
  lemma EmitLinesNext(ks: seq<real>, members: map<real, seq<TextLine>>, k: nat)
    requires k < |ks| && forall i :: 0 <= i < |ks| ==> ks[i] in members && members[ks[i]] != []
    ensures EmitLines(ks[..k + 1], members) == EmitLines(ks[..k], members) + [BuildLine(members[ks[k]])]
  {
    assert ks[..k + 1][..k] == ks[..k];
  }

  /** The cluster keys in ascending order (`sorted(data.keys())`). */
  function SortedKeys(lines: seq<TextLine>, tol: real): (ks: seq<real>)
    ensures multiset(ks) == multiset(Cluster(lines, tol).keys)
    ensures forall i :: 0 <= i < |ks| ==> ks[i] in Cluster(lines, tol).members && Cluster(lines, tol).members[ks[i]] != []
  {
    var c := Cluster(lines, tol);
    var ks := SortBy(c.keys, RealKey);
    RearrangedKeysIn(c, ks);
    ks
  }

  /** A rearrangement of the keys only names non-empty clusters. */
  lemma RearrangedKeysIn(c: Clusters, ks: seq<real>)
    requires WellFormed(c) && multiset(ks) == multiset(c.keys)
    ensures forall i :: 0 <= i < |ks| ==> ks[i] in c.members && c.members[ks[i]] != []
  {
    forall i | 0 <= i < |ks|
      ensures ks[i] in c.members && c.members[ks[i]] != []
    {
      assert ks[i] in multiset(ks);
    }
  }

  /** What `merge_lines(lines, y_tolerance)` returns. */
  function MergedLines(lines: seq<TextLine>, tol: real): seq<TextLine>
  {
    var c := Cluster(lines, tol);
    EmitLines(SortedKeys(lines, tol), c.members)
  }

  /** The `for k in data` scan: the position of the first key within the tolerance of
      `y`, or the number of keys when there is none. */
  method FirstNear(keys: seq<real>, y: real, tol: real) returns (j: nat)
    ensures j <= |keys|
    ensures NearKey(keys, y, tol) == if j < |keys| then Some(j) else None
  {
    j := 0;
    while j < |keys| && !Near(y, tol, keys[j])
      invariant 0 <= j <= |keys|
      invariant forall m :: 0 <= m < j ==> !Near(y, tol, keys[m])
    {
      j := j + 1;
    }
  }

  /** One more line placed. */
  lemma ClusterNext(lines: seq<TextLine>, i: nat, tol: real)
    requires i < |lines|
    ensures Cluster(lines[..i + 1], tol) == Place(Cluster(lines[..i], tol), lines[i], tol)
  {
    assert lines[..i + 1][..i] == lines[..i];
  }

  /** The first loop of `merge_lines`: each line joins the first key, in insertion order,
      within the tolerance of its centre, or else is filed under its own centre. */
  method ClusterLines(lines: seq<TextLine>, tol: real) returns (keys: seq<real>, members: map<real, seq<TextLine>>)
    ensures Clusters(keys, members) == Cluster(lines, tol)
  {
    keys, members := [], map[];
    ghost var c := Cluster([], tol);
    var i := 0;
    while i < |lines|
      invariant 0 <= i <= |lines|
      invariant c == Cluster(lines[..i], tol)
      invariant keys == c.keys && members == c.members
    {
      var line := lines[i];
      var y := Center(line);
      var j := FirstNear(keys, y, tol);
      if j < |keys| {
        members := members[keys[j] := members[keys[j]] + [line]];
      } else if y in members {
        members := members[y := members[y] + [line]];
      } else {
        keys := keys + [y];
        members := members[y := [line]];
      }
      ClusterNext(lines, i, tol);
      c := Place(c, line, tol);
      i := i + 1;
    }
    assert lines[..i] == lines;
  }

  /** `merge_lines`: cluster the lines by vertical centre, then emit one merged line per
      cluster in ascending key order. */
  method MergeLines(lines: seq<TextLine>, tol: real) returns (merged: seq<TextLine>)
    ensures merged == MergedLines(lines, tol)
  {
    var keys, members := ClusterLines(lines, tol);
    var ks := SortBy(keys, RealKey);
    assert ks == SortedKeys(lines, tol);
    merged := EmitSorted(ks, members);
  }

  /** The second loop of `merge_lines`: one merged line per key, in the order of `ks`. */
  method EmitSorted(ks: seq<real>, members: map<real, seq<TextLine>>) returns (merged: seq<TextLine>)
    requires forall i :: 0 <= i < |ks| ==> ks[i] in members && members[ks[i]] != []
    ensures merged == EmitLines(ks, members)
  {
    merged := [];
    var k := 0;
    while k < |ks|
      invariant 0 <= k <= |ks|
      invariant merged == EmitLines(ks[..k], members)
    {
      EmitLinesNext(ks, members, k);
      merged := merged + [BuildLine(members[ks[k]])];
      k := k + 1;
    }
    assert ks[..k] == ks;
  }

  /** Each line sits under a key equal to its own centre or within the tolerance of it. */
  lemma {:induction false} ClusterMembersNear(lines: seq<TextLine>, tol: real)
    ensures forall k, l :: k in Cluster(lines, tol).members && l in Cluster(lines, tol).members[k] ==>
      Center(l) == k || Near(Center(l), tol, k)
    decreases |lines|
  {
    if lines != [] {
      ClusterMembersNear(lines[..|lines| - 1], tol);
    }
  }

  /** Each value of a sequence without repeats occurs once in its multiset. */
  lemma {:induction false} DistinctCount<T>(t: seq<T>, x: T)
    requires forall i, j :: 0 <= i < j < |t| ==> t[i] != t[j]
    ensures multiset(t)[x] <= 1
    decreases |t|
  {
    if t != [] {
      var n := |t| - 1;
      assert t == t[..n] + [t[n]];
      DistinctCount(t[..n], x);
      if t[n] == x {
        assert forall i :: 0 <= i < n ==> t[..n][i] != x;
        assert x !in t[..n];
      }
    }
  }

  /** A rearrangement of a sequence without repeats has no repeats. */
  lemma DistinctPermutation<T>(s: seq<T>, t: seq<T>)
    requires multiset(s) == multiset(t)
    requires forall i, j :: 0 <= i < j < |t| ==> t[i] != t[j]
    ensures forall i, j :: 0 <= i < j < |s| ==> s[i] != s[j]
  {
    forall i, j | 0 <= i < j < |s|
      ensures s[i] != s[j]
    {
      DistinctCount(t, s[i]);
      assert s == s[..i] + [s[i]] + s[i + 1..j] + [s[j]] + s[j + 1..];
      assert multiset(s)[s[i]] >= multiset([s[i]] + s[i + 1..j] + [s[j]])[s[i]];
    }
  }

  /** The merged lines come out in strictly ascending order of their cluster keys, and
      consecutive keys are more than the tolerance apart. */
  lemma MergedKeysAscending(lines: seq<TextLine>, tol: real)
    ensures forall i, j :: 0 <= i < j < |SortedKeys(lines, tol)| ==>
      SortedKeys(lines, tol)[i] < SortedKeys(lines, tol)[j] &&
      SortedKeys(lines, tol)[j] - SortedKeys(lines, tol)[i] > tol
  {
    var c := Cluster(lines, tol);
    SortBySorted(c.keys, RealKey);
    ClusterSeparated(lines, tol);
    SortedSeparated(SortedKeys(lines, tol), c.keys, tol);
  }

  /** Sorting pairwise separated keys puts them in strictly ascending order with gaps above
      the tolerance. */
  lemma SortedSeparated(ks: seq<real>, keys: seq<real>, tol: real)
    requires multiset(ks) == multiset(keys) && SortedBy(ks, RealKey) && Separated(keys, tol)
    requires forall i, j :: 0 <= i < j < |keys| ==> keys[i] != keys[j]
    ensures forall i, j :: 0 <= i < j < |ks| ==> ks[i] < ks[j] && ks[j] - ks[i] > tol
  {
    DistinctPermutation(ks, keys);
    forall i, j | 0 <= i < j < |ks|
      ensures ks[i] < ks[j] && ks[j] - ks[i] > tol
    {
      assert ks[i] in multiset(keys) && ks[j] in multiset(keys);
      var a :| 0 <= a < |keys| && keys[a] == ks[i];
      var b :| 0 <= b < |keys| && keys[b] == ks[j];
      assert !Less(RealKey(ks[j]), RealKey(ks[i]));
    }
  }

  /** One merged line per cluster, built from that cluster's member lines. */
  lemma {:induction false} EmitLinesAt(ks: seq<real>, members: map<real, seq<TextLine>>, i: nat)
    requires forall m :: 0 <= m < |ks| ==> ks[m] in members && members[ks[m]] != []
    requires i < |ks|
    ensures EmitLines(ks, members)[i] == BuildLine(members[ks[i]])
    decreases |ks|
  {
    if i < |ks| - 1 {
      EmitLinesAt(ks[..|ks| - 1], members, i);
    }
  }

  /** The rows of `merge_lines`' result, as the clusters produce them. */
  lemma MergedLinesShape(lines: seq<TextLine>, tol: real)
    ensures |MergedLines(lines, tol)| == |Cluster(lines, tol).keys|
    ensures forall i :: 0 <= i < |MergedLines(lines, tol)| ==>
      MergedLines(lines, tol)[i] == BuildLine(Cluster(lines, tol).members[SortedKeys(lines, tol)[i]])
    ensures lines == [] <==> MergedLines(lines, tol) == []
  {
    var c := Cluster(lines, tol);
    var ks := SortedKeys(lines, tol);
    forall i | 0 <= i < |ks|
      ensures MergedLines(lines, tol)[i] == BuildLine(c.members[ks[i]])
    {
      EmitLinesAt(ks, c.members, i);
    }
    if lines != [] {
      ClusterPartition(lines, tol);
      assert lines[0] in multiset(lines);
    }
  }

  lemma {:induction false} AllCharsAppend(a: seq<TextLine>, b: seq<TextLine>)
    ensures AllChars(a + b) == AllChars(a) + AllChars(b)
    decreases |b|
  {
    if b == [] {
      assert a + b == a;
    } else {
      var n := |b| - 1;
      assert (a + b)[..|a + b| - 1] == a + b[..n];
      AllCharsAppend(a, b[..n]);
    }
  }

  lemma {:induction false} AllCharsInsert(x: TextLine, s: seq<TextLine>)
    ensures multiset(AllChars(Insert(x, s, LineKey))) == multiset(AllChars(s)) + multiset(x.chars)
    decreases |s|
  {
    if s == [] || Less(LineKey(x), LineKey(s[0])) {
      AllCharsCons(x, s);
    } else {
      var t := Insert(x, s[1..], LineKey);
      assert Insert(x, s, LineKey) == [s[0]] + t;
      AllCharsInsert(x, s[1..]);
      AllCharsCons(s[0], t);
      AllCharsCons(s[0], s[1..]);
      ConsSplit(s);
    }
  }

  /** The characters of a line followed by more lines. */
  lemma AllCharsCons(h: TextLine, t: seq<TextLine>)
    ensures AllChars([h] + t) == h.chars + AllChars(t)
  {
    AllCharsAppend([h], t);
    assert AllChars([h]) == h.chars by {
      assert [h][..0] == [];
    }
  }


  /** Sorting the member lines does not change which characters they hold. */
  lemma {:induction false} AllCharsSorted(s: seq<TextLine>)
    ensures multiset(AllChars(SortBy(s, LineKey))) == multiset(AllChars(s))
    decreases |s|
  {
    if s != [] {
      var n := |s| - 1;
      AllCharsSorted(s[..n]);
      AllCharsInsert(s[n], SortBy(s[..n], LineKey));
    }
  }

  /** A merged line holds exactly the characters of its member lines, ordered by `x0`. */
  lemma BuildLineChars(members: seq<TextLine>)
    requires members != []
    ensures SortedBy(BuildLine(members).chars, CharKey)
    ensures multiset(BuildLine(members).chars) == multiset(AllChars(members))
  {
    SortBySorted(AllChars(SortBy(members, LineKey)), CharKey);
    AllCharsSorted(members);
  }

  /** In a sorted rearrangement of the members, the first and last have the extreme `x0`. */
  lemma SortedExtremes(lst: seq<TextLine>, members: seq<TextLine>)
    requires lst != [] && multiset(lst) == multiset(members) && SortedBy(lst, LineKey)
    ensures forall j :: 0 <= j < |members| ==> lst[0].x0 <= members[j].x0 <= lst[|lst| - 1].x0
  {
    var last := |lst| - 1;
    forall j | 0 <= j < |members|
      ensures lst[0].x0 <= members[j].x0 <= lst[last].x0
    {
      assert members[j] in multiset(lst);
      var m :| 0 <= m < |lst| && lst[m] == members[j];
      if m < last { assert !Less(LineKey(lst[last]), LineKey(lst[m])); }
      if 0 < m { assert !Less(LineKey(lst[m]), LineKey(lst[0])); }
    }
  }

  /** A merged line starts at the smallest member `x0` and ends at the `x1` of a member with
      the largest `x0` (which need not be the largest `x1`). */
  lemma BuildLineSpan(members: seq<TextLine>)
    requires members != []
    ensures forall i :: 0 <= i < |members| ==> BuildLine(members).x0 <= members[i].x0
    ensures exists i :: 0 <= i < |members| && members[i].x0 == BuildLine(members).x0
    ensures exists i :: (0 <= i < |members| && members[i].x1 == BuildLine(members).x1 &&
      forall j :: 0 <= j < |members| ==> members[j].x0 <= members[i].x0)
  {
    var lst := SortBy(members, LineKey);
    var last := |lst| - 1;
    assert BuildLine(members).x0 == lst[0].x0 && BuildLine(members).x1 == lst[last].x1;
    SortBySorted(members, LineKey);
    SortedExtremes(lst, members);
    assert lst[0] in multiset(members);
    assert lst[last] in multiset(members);
    var a :| 0 <= a < |members| && members[a] == lst[last];
    assert members[a].x1 == BuildLine(members).x1;
  }

  /** A merged line spans from the smallest member `top` to the largest member `bottom`. */
  lemma BuildLineHeight(members: seq<TextLine>)
    requires members != []
    ensures forall i :: 0 <= i < |members| ==> BuildLine(members).top <= members[i].top
    ensures exists i :: 0 <= i < |members| && members[i].top == BuildLine(members).top
    ensures forall i :: 0 <= i < |members| ==> members[i].bottom <= BuildLine(members).bottom
    ensures exists i :: 0 <= i < |members| && members[i].bottom == BuildLine(members).bottom
  {
    var lst := SortBy(members, LineKey);
    var r := BuildLine(members);
    var t :| 0 <= t < |lst| && lst[t].top == r.top;
    var b :| 0 <= b < |lst| && lst[b].bottom == r.bottom;
    assert lst[t] in multiset(members) && lst[b] in multiset(members);
    forall j | 0 <= j < |members|
      ensures r.top <= members[j].top && members[j].bottom <= r.bottom
    {
      assert members[j] in multiset(lst);
      var m :| 0 <= m < |lst| && lst[m] == members[j];
    }
  }
}
