/** The command-line run over a directory of invoices: the cache-or-extract loop, the query
    filter, duplicate detection, the cache prune, the sort and the table cells. Listing the
    files, reading and writing the cache file and extracting one PDF are inputs. */
module Batch {
  import opened Common
  import opened Sorting
  import opened Records

  // ---------------------------------------------------------------------------
  // getk

  /** `[i for i in ks if k in i]` */
  function Matching(ks: seq<string>, k: string): (r: seq<string>)
    ensures |r| <= |ks|
    ensures forall i :: 0 <= i < |r| ==> r[i] in ks && Contains(r[i], k)
    ensures forall x :: x in ks && Contains(x, k) ==> x in r
  {
    if ks == [] then []
    else Matching(ks[..|ks| - 1], k) + (if Contains(ks[|ks| - 1], k) then [ks[|ks| - 1]] else [])
  }

  /** `getk`: the one key that contains `k`; ValueError unless exactly one does. */
  function GetK(ks: seq<string>, k: string): (r: Result<string>)
    ensures r.Err? ==> r.error == ValueError(k)
  {
    var a := Matching(ks, k);
    if |a| != 1 then Err(ValueError(k)) else Ok(a[0])
  }

  /** Position `i` is the only one whose key contains `k`. */
  ghost predicate OnlyMatch(ks: seq<string>, k: string, i: int)
  {
    0 <= i < |ks| && Contains(ks[i], k) &&
    forall j :: 0 <= j < |ks| && Contains(ks[j], k) ==> j == i
  }

  lemma {:induction false} MatchingNone(ks: seq<string>, k: string)
    ensures Matching(ks, k) == [] <==> forall j :: 0 <= j < |ks| ==> !Contains(ks[j], k)
    decreases |ks|
  {
    if ks != [] {
      MatchingNone(ks[..|ks| - 1], k);
    }
  }

  lemma {:induction false} MatchingOne(ks: seq<string>, k: string)
    ensures |Matching(ks, k)| == 1 <==> exists i :: OnlyMatch(ks, k, i)
    ensures forall i :: OnlyMatch(ks, k, i) ==> Matching(ks, k) == [ks[i]]
    decreases |ks|
  {
    if ks != [] {
      var n := |ks| - 1;
      var p := ks[..n];
      MatchingOne(p, k);
      MatchingNone(p, k);
      if Contains(ks[n], k) {
        if Matching(p, k) == [] {
          assert OnlyMatch(ks, k, n);
        } else {
          var j :| 0 <= j < n && Contains(p[j], k);
          assert ks[j] == p[j];
          TwoMatches(ks, k);
        }
      } else {
        OnlyMatchPrefix(ks, k);
        if i :| OnlyMatch(p, k, i) {
          assert OnlyMatch(ks, k, i);
        }
      }
    }
  }

  /** When the last key and an earlier one both contain `k`, no key is the only match. */
  lemma TwoMatches(ks: seq<string>, k: string)
    requires ks != [] && Contains(ks[|ks| - 1], k)
    requires exists j :: 0 <= j < |ks| - 1 && Contains(ks[j], k)
    ensures forall i :: !OnlyMatch(ks, k, i)
  {
  }

  /** When the last key does not contain `k`, the only match is the prefix's only match. */
  lemma OnlyMatchPrefix(ks: seq<string>, k: string)
    requires ks != [] && !Contains(ks[|ks| - 1], k)
    ensures forall i :: OnlyMatch(ks, k, i) <==> OnlyMatch(ks[..|ks| - 1], k, i)
  {
    var p := ks[..|ks| - 1];
    assert forall j :: 0 <= j < |p| ==> p[j] == ks[j];
  }

  /** `getk` succeeds exactly when one key contains `k`, and then returns that key. */
  lemma GetKUnique(ks: seq<string>, k: string)
    ensures GetK(ks, k).Ok? <==> exists i :: OnlyMatch(ks, k, i)
    ensures forall i :: OnlyMatch(ks, k, i) ==> GetK(ks, k) == Ok(ks[i])
  {
    MatchingOne(ks, k);
  }

  // ---------------------------------------------------------------------------
  // query

  /** The conversions the equality branch of `query` applies to the condition's text:
      `int(v)`, and the comparison `round(float(v), 2) == round(x, 2)`. None is the
      ValueError of a text that does not convert. */
  datatype Conversions = Conversions(parseInt: string -> Option<int>, sameFloat: (string, real) -> Option<bool>)

  /** `k~v`: `v in data[k]`, a substring test that needs `data[k]` to be a string. */
  function Tilde(data: Record, cond: string): (r: Result<bool>)
    requires '~' in cond
    ensures r.Ok? <==> Split1(cond, '~').0 in data && data[Split1(cond, '~').0].Str?
    ensures r.Err? ==> r.error == KeyError(Split1(cond, '~').0) || r.error == TypeError
  {
    var (k, v) := Split1(cond, '~');
    if k !in data then Err(KeyError(k))
    else match data[k]
      case Str(s) => Ok(Contains(s, v))
      case _ => Err(TypeError)
  }

  /** `k=v`: compare by the type of `data[k]`. */
  function Equals(data: Record, cond: string, conv: Conversions): (r: Result<bool>)
    requires '=' in cond
    ensures Split1(cond, '=').0 !in data ==> r == Err(KeyError(Split1(cond, '=').0))
    ensures r.Err? ==> r.error == KeyError(Split1(cond, '=').0) || r.error == ValueError(Split1(cond, '=').1)
    ensures Split1(cond, '=').0 in data && data[Split1(cond, '=').0].Str? ==>
      r == Ok(data[Split1(cond, '=').0].s == Split1(cond, '=').1)
  {
    var (k, v) := Split1(cond, '=');
    if k !in data then Err(KeyError(k))
    else match data[k]
      case Int(i) =>
        (match conv.parseInt(v)
         case None => Err(ValueError(v))
         case Some(n) => Ok(n == i))
      case Float(x) =>
        (match conv.sameFloat(v, x)
         case None => Err(ValueError(v))
         case Some(b) => Ok(b))
      case Str(s) => Ok(v == s)
  }

  /** One condition of `query`: the `~` test, then (unless it held) the `=` test. */
  function CondResult(data: Record, cond: string, conv: Conversions): Result<bool>
  {
    var t := if '~' in cond then Tilde(data, cond) else Ok(false);
    match t
    case Err(e) => Err(e)
    case Ok(true) => Ok(true)
    case Ok(false) => if '=' in cond then Equals(data, cond, conv) else Ok(false)
  }

  /** `query`: true at the first condition that holds, false when none does. */
  function Query(data: Record, conds: seq<string>, conv: Conversions): Result<bool>
  {
    if conds == [] then Ok(false)
    else match CondResult(data, conds[0], conv)
      case Err(e) => Err(e)
      case Ok(true) => Ok(true)
      case Ok(false) => Query(data, conds[1..], conv)
  }

  /** Condition `i` is the first that holds, every earlier one failing without error. */
  ghost predicate FirstHolds(data: Record, conds: seq<string>, conv: Conversions, i: int)
  {
    0 <= i < |conds| && CondResult(data, conds[i], conv) == Ok(true) &&
    forall j :: 0 <= j < i ==> CondResult(data, conds[j], conv) == Ok(false)
  }

  /** When `query` holds, the condition that made it hold. */
  lemma {:induction false} QueryWitness(data: Record, conds: seq<string>, conv: Conversions) returns (i: nat)
    requires Query(data, conds, conv) == Ok(true)
    ensures FirstHolds(data, conds, conv, i)
    decreases |conds|
  {
    if CondResult(data, conds[0], conv) == Ok(true) {
      i := 0;
    } else {
      var rest := conds[1..];
      var k := QueryWitness(data, rest, conv);
      i := k + 1;
      assert forall j :: 1 <= j <= i ==> conds[j] == rest[j - 1];
    }
  }

  /** The first condition that holds makes `query` hold. */
  lemma {:induction false} QueryFound(data: Record, conds: seq<string>, conv: Conversions, i: nat)
    requires FirstHolds(data, conds, conv, i)
    ensures Query(data, conds, conv) == Ok(true)
    decreases i
  {
    if i > 0 {
      var rest := conds[1..];
      assert forall j :: 0 <= j < i - 1 ==> rest[j] == conds[j + 1];
      assert CondResult(data, conds[0], conv) == Ok(false);
      QueryFound(data, rest, conv, i - 1);
    }
  }

  /** `query` holds iff some condition holds, every earlier one having failed without error. */
  lemma QueryAny(data: Record, conds: seq<string>, conv: Conversions)
    ensures Query(data, conds, conv) == Ok(true) <==> exists i :: FirstHolds(data, conds, conv, i)
  {
    if Query(data, conds, conv) == Ok(true) {
      var i := QueryWitness(data, conds, conv);
    }
    if i :| FirstHolds(data, conds, conv, i) {
      QueryFound(data, conds, conv, i);
    }
  }

  /** `query` is false iff every condition fails without error; an empty list gives false. */
  lemma {:induction false} QueryNone(data: Record, conds: seq<string>, conv: Conversions)
    ensures Query(data, conds, conv) == Ok(false) <==>
      forall i :: 0 <= i < |conds| ==> CondResult(data, conds[i], conv) == Ok(false)
    decreases |conds|
  {
    if conds != [] && CondResult(data, conds[0], conv) == Ok(false) {
      var rest := conds[1..];
      QueryNone(data, rest, conv);
      assert forall i :: 1 <= i < |conds| ==> conds[i] == rest[i - 1];
    }
  }

  /** A `k~v` condition holds iff `data[k]` is a string in which `v` occurs; a `k=v`
      condition on a string field holds iff the field equals `v`; and a condition with
      both `~` and `=` falls back to the equality test when the substring test fails. */
  lemma CondMeaning(data: Record, cond: string, conv: Conversions)
    ensures '~' in cond && '=' !in cond ==>
      var (k, v) := Split1(cond, '~');
      (CondResult(data, cond, conv) == Ok(true) <==>
        k in data && data[k].Str? && exists i :: OccursAt(data[k].s, v, i))
    ensures '=' in cond && '~' !in cond ==>
      var (k, v) := Split1(cond, '=');
      (k in data && data[k].Str? ==> (CondResult(data, cond, conv) == Ok(true) <==> data[k].s == v))
    ensures '~' in cond && '=' in cond && Tilde(data, cond) == Ok(false) ==>
      CondResult(data, cond, conv) == Equals(data, cond, conv)
    ensures '~' !in cond && '=' !in cond ==> CondResult(data, cond, conv) == Ok(false)
  {
    if '~' in cond {
      var (k, v) := Split1(cond, '~');
      if k in data && data[k].Str? {
        ContainsAt(data[k].s, v);
      }
    }
  }

  // ---------------------------------------------------------------------------
  // the cache-or-extract loop

  /** One PDF found under the target directory: its path and its path relative to the
      directory (the cache key). */
  datatype Source = Source(path: string, relpath: string)

  /** The command-line options the loop reads. */
  datatype Options = Options(conds: seq<string>, remake: bool, conv: Conversions)

  /** The loop's state: the cache, the relpaths seen, the numbers seen among kept records,
      the kept records with a duplicate flag each (the printed warning), and the total. */
  datatype Progress = Progress(cache: map<string, Record>, current: set<string>, numbers: set<Value>,
                               records: seq<Record>, duplicate: seq<bool>, total: Value)

  function Start(cache: map<string, Record>): Progress
  {
    Progress(cache, {}, {}, [], [], Int(0))
  }

  /** The record for one file: the cached one unless the cache is being remade or lacks
      the relpath; otherwise a fresh extraction with `relpath` added. */
  function Fetch(cache: map<string, Record>, src: Source, remake: bool, extract: string -> Result<Record>): (r: Result<Record>)
    ensures r.Err? ==> (remake || src.relpath !in cache) && extract(src.path) == Err(r.error)
  {
    if !remake && src.relpath in cache then Ok(cache[src.relpath])
    else match extract(src.path)
      case Err(e) => Err(e)
      case Ok(d) => Ok(d["relpath" := Str(src.relpath)])
  }

  /** A cache hit is used unchanged; a fresh record carries its relpath. */
  lemma FetchLaw(cache: map<string, Record>, src: Source, remake: bool, extract: string -> Result<Record>)
    ensures !remake && src.relpath in cache ==> Fetch(cache, src, remake, extract) == Ok(cache[src.relpath])
    ensures (remake || src.relpath !in cache) && extract(src.path).Ok? ==>
      var r := Fetch(cache, src, remake, extract);
      r.Ok? && "relpath" in r.value && r.value["relpath"] == Str(src.relpath) &&
      forall k :: k in extract(src.path).value && k != "relpath" ==> k in r.value && r.value[k] == extract(src.path).value[k]
  {
  }

  /** A record that passed the filter: the duplicate check, the total and the append. */
  function Admit(b: Progress, info: Record): (r: Result<Progress>)
    ensures r.Ok? <==> "number" in info && "total" in info && (b.total.Str? <==> info["total"].Str?)
    ensures "number" !in info ==> r == Err(KeyError("number"))
    ensures "number" in info && "total" !in info ==> r == Err(KeyError("total"))
  {
    if "number" !in info then Err(KeyError("number"))
    else
      var seen := info["number"] in b.numbers;
      if "total" !in info then Err(KeyError("total"))
      else match Add(b.total, info["total"])
        case Err(e) => Err(e)
        case Ok(t) => Ok(Progress(b.cache, b.current, b.numbers + {info["number"]},
                                  b.records + [info], b.duplicate + [seen], t))
  }

  /** One iteration of the loop in `main`. */
  function Step(b: Progress, src: Source, opts: Options, extract: string -> Result<Record>): Result<Progress>
  {
    match Fetch(b.cache, src, opts.remake, extract)
    case Err(e) => Err(e)
    case Ok(info) =>
      var b1 := b.(cache := b.cache[src.relpath := info], current := b.current + {src.relpath});
      if opts.conds == [] then Admit(b1, info)
      else match Query(info, opts.conds, opts.conv)
        case Err(e) => Err(e)
        case Ok(keep) => if keep then Admit(b1, info) else Ok(b1)
  }

  /** The loop over all files, stopping at the first error. */
  function Scan(b: Progress, files: seq<Source>, opts: Options, extract: string -> Result<Record>): Result<Progress>
  {
    if files == [] then Ok(b)
    else match Scan(b, files[..|files| - 1], opts, extract)
      case Err(e) => Err(e)
      case Ok(b1) => Step(b1, files[|files| - 1], opts, extract)
  }

  /** One more file: the scan so far, then one step. */
  lemma ScanNext(b: Progress, files: seq<Source>, i: nat, opts: Options, extract: string -> Result<Record>)
    requires i < |files|
    ensures Scan(b, files[..i + 1], opts, extract) ==
      match Scan(b, files[..i], opts, extract)
      case Err(e) => Err(e)
      case Ok(b1) => Step(b1, files[i], opts, extract)
  {
    assert files[..i + 1][..i] == files[..i];
  }

  /** An error ends the loop: once the files up to some point fail, the whole run fails
      with the same error. */
  lemma {:induction false} ScanStops(b: Progress, files: seq<Source>, n: nat, opts: Options, extract: string -> Result<Record>)
    requires n <= |files| && Scan(b, files[..n], opts, extract).Err?
    ensures Scan(b, files, opts, extract) == Scan(b, files[..n], opts, extract)
    decreases |files| - n
  {
    if n < |files| {
      assert files[..n + 1][..n] == files[..n];
      ScanStops(b, files, n + 1, opts, extract);
    } else {
      assert files[..n] == files;
    }
  }

  /** The loop of `main`: fetch or extract each file's record, cache it, filter it, flag a
      repeated number and keep it. */
  method Collect(cache: map<string, Record>, files: seq<Source>, opts: Options, extract: string -> Result<Record>)
    returns (r: Result<Progress>)
    ensures r == Scan(Start(cache), files, opts, extract)
  {
    var p := Start(cache);
    var i := 0;
    while i < |files|
      invariant 0 <= i <= |files|
      invariant Scan(Start(cache), files[..i], opts, extract) == Ok(p)
    {
      ScanNext(Start(cache), files, i, opts, extract);
      var next := Visit(p, files[i], opts, extract);
      if next.Err? {
        ScanStops(Start(cache), files, i + 1, opts, extract);
        return Err(next.error);
      }
      p := next.value;
      i := i + 1;
    }
    assert files[..i] == files;
    return Ok(p);
  }

  /** The body of the loop of `main` for one file: fetch or extract its record, cache it,
      filter it, flag a repeated number and keep it. `Step` is its specification; this
      method takes the statements in the source's order. */
  method Visit(b: Progress, src: Source, opts: Options, extract: string -> Result<Record>)
    returns (r: Result<Progress>)
    ensures r == Step(b, src, opts, extract)
  {
    var cached := b.cache;
    var current := b.current + {src.relpath};
    var info: Record;
    if !opts.remake && src.relpath in cached {
      info := cached[src.relpath];
      assert cached[src.relpath := info] == cached;
    } else {
      var extracted := extract(src.path);
      if extracted.Err? {
        return Err(extracted.error);
      }
      info := extracted.value["relpath" := Str(src.relpath)];
      cached := cached[src.relpath := info];
    }
    assert Fetch(b.cache, src, opts.remake, extract) == Ok(info);
    var keep := true;
    if opts.conds != [] {
      var q := Query(info, opts.conds, opts.conv);
      if q.Err? {
        return Err(q.error);
      }
      keep := q.value;
    }
    var numbers, records, duplicate, total := b.numbers, b.records, b.duplicate, b.total;
    if keep {
      if "number" !in info {
        return Err(KeyError("number"));
      }
      duplicate := duplicate + [info["number"] in numbers];
      numbers := numbers + {info["number"]};
      if "total" !in info {
        return Err(KeyError("total"));
      }
      var t := Add(total, info["total"]);
      if t.Err? {
        return Err(t.error);
      }
      total := t.value;
      records := records + [info];
    }
    return Ok(Progress(cached, current, numbers, records, duplicate, total));
  }

  /** The state after a kept record `info`: appended, its number added, flagged iff the
      number was already seen. */
  ghost predicate Kept(b: Progress, b2: Progress, info: Record)
  {
    "number" in info && b2.records == b.records + [info] &&
    b2.duplicate == b.duplicate + [info["number"] in b.numbers] &&
    b2.numbers == b.numbers + {info["number"]}
  }

  /** The filter of `main`: no conditions, or the query holds. */
  predicate Passes(info: Record, opts: Options)
  {
    opts.conds == [] || Query(info, opts.conds, opts.conv) == Ok(true)
  }

  /** One iteration stores the fetched record under its relpath and notes the relpath; a
      record that passes the filter is kept, and one that does not leaves the kept records,
      their flags and the numbers seen alone. */
  lemma StepLaw(b: Progress, src: Source, opts: Options, extract: string -> Result<Record>)
    requires Step(b, src, opts, extract).Ok?
    ensures var b2 := Step(b, src, opts, extract).value;
      var f := Fetch(b.cache, src, opts.remake, extract);
      f.Ok? && b2.cache == b.cache[src.relpath := f.value] && b2.current == b.current + {src.relpath} &&
      (Passes(f.value, opts) ==> Kept(b, b2, f.value)) &&
      (!Passes(f.value, opts) ==> b2.records == b.records && b2.duplicate == b.duplicate && b2.numbers == b.numbers)
  {
  }

  /** The records the loop keeps, in file order, when each file is fetched against the
      cache `c0`: those whose fetch succeeds and that pass the filter. */
  function Selected(c0: map<string, Record>, files: seq<Source>, opts: Options,
                    extract: string -> Result<Record>): seq<Record>
  {
    if files == [] then []
    else
      var f := Fetch(c0, files[|files| - 1], opts.remake, extract);
      Selected(c0, files[..|files| - 1], opts, extract) + (if f.Ok? && Passes(f.value, opts) then [f.value] else [])
  }

  /** With distinct relpaths, the loop keeps exactly the selected records, in file order:
      every passing record is kept and nothing else is. */
  lemma {:induction false} ScanRecords(b: Progress, files: seq<Source>, opts: Options, extract: string -> Result<Record>)
    requires Scan(b, files, opts, extract).Ok?
    requires DistinctPaths(files)
    ensures Scan(b, files, opts, extract).value.records == b.records + Selected(b.cache, files, opts, extract)
    decreases |files|
  {
    if files != [] {
      var n := |files| - 1;
      ScanRecords(b, files[..n], opts, extract);
      ScanEntries(b, files[..n], opts, extract);
      var b1 := Scan(b, files[..n], opts, extract).value;
      EntriesFresh(b.cache, b1.cache, files, opts.remake, extract);
      StepLaw(b1, files[n], opts, extract);
    }
  }

  /** From the empty start, the loop keeps exactly the records selected against the cache
      read from disk. */
  lemma SelectedRecords(cache: map<string, Record>, files: seq<Source>, opts: Options,
                        extract: string -> Result<Record>)
    requires Scan(Start(cache), files, opts, extract).Ok?
    requires DistinctPaths(files)
    ensures Scan(Start(cache), files, opts, extract).value.records == Selected(cache, files, opts, extract)
  {
    ScanRecords(Start(cache), files, opts, extract);
    assert [] + Selected(cache, files, opts, extract) == Selected(cache, files, opts, extract);
  }

  /** The relpaths of the listed files. */
  function RelPaths(files: seq<Source>): set<string>
  {
    set i | 0 <= i < |files| :: files[i].relpath
  }

  lemma RelPathsLast(files: seq<Source>)
    requires files != []
    ensures RelPaths(files) == RelPaths(files[..|files| - 1]) + {files[|files| - 1].relpath}
  {
    var n := |files| - 1;
    assert forall i :: 0 <= i < n ==> files[..n][i] == files[i];
  }

  /** After the loop the relpaths seen are exactly the listed files', and the cache holds
      its old keys plus those. */
  lemma {:induction false} ScanKeys(b: Progress, files: seq<Source>, opts: Options, extract: string -> Result<Record>)
    requires Scan(b, files, opts, extract).Ok?
    ensures Scan(b, files, opts, extract).value.current == b.current + RelPaths(files)
    ensures Scan(b, files, opts, extract).value.cache.Keys == b.cache.Keys + RelPaths(files)
    decreases |files|
  {
    if files != [] {
      var n := |files| - 1;
      ScanKeys(b, files[..n], opts, extract);
      StepLaw(Scan(b, files[..n], opts, extract).value, files[n], opts, extract);
      RelPathsLast(files);
    }
  }

  /** `c` holds the keys of `c0` and the listed relpaths; every listed file's entry in `c` is what `Fetch` gives for it against `c0`, and every
      other key of `c0` keeps its entry. */
  ghost predicate EntriesFrom(c0: map<string, Record>, c: map<string, Record>, files: seq<Source>, remake: bool,
                              extract: string -> Result<Record>)
  {
    c.Keys == c0.Keys + RelPaths(files) &&
    (forall i :: 0 <= i < |files| ==>
      files[i].relpath in c && Fetch(c0, files[i], remake, extract) == Ok(c[files[i].relpath])) &&
    (forall k :: k in c0 && k !in RelPaths(files) ==> k in c && c[k] == c0[k])
  }

  /** The next file's relpath is new, so fetching it sees the original cache's entry. */
  lemma EntriesFresh(c0: map<string, Record>, c1: map<string, Record>, files: seq<Source>, remake: bool,
                     extract: string -> Result<Record>)
    requires files != [] && forall i, j :: 0 <= i < j < |files| ==> files[i].relpath != files[j].relpath
    requires EntriesFrom(c0, c1, files[..|files| - 1], remake, extract)
    ensures files[|files| - 1].relpath !in RelPaths(files[..|files| - 1])
    ensures Fetch(c1, files[|files| - 1], remake, extract) == Fetch(c0, files[|files| - 1], remake, extract)
  {
    var n := |files| - 1;
    var p := files[..n];
    var rp := files[n].relpath;
    assert forall i :: 0 <= i < n ==> p[i] == files[i] && p[i].relpath != rp;
    assert rp in c1 <==> rp in c0;
  }

  /** Storing the next file's record extends `EntriesFrom` by that file. */
  lemma EntriesStep(c0: map<string, Record>, c1: map<string, Record>, files: seq<Source>, remake: bool,
                    extract: string -> Result<Record>)
    requires files != [] && forall i, j :: 0 <= i < j < |files| ==> files[i].relpath != files[j].relpath
    requires EntriesFrom(c0, c1, files[..|files| - 1], remake, extract)
    requires Fetch(c1, files[|files| - 1], remake, extract).Ok?
    ensures EntriesFrom(c0, c1[files[|files| - 1].relpath := Fetch(c1, files[|files| - 1], remake, extract).value],
                        files, remake, extract)
  {
    var n := |files| - 1;
    var rp := files[n].relpath;
    RelPathsLast(files);
    EntriesFresh(c0, c1, files, remake, extract);
    var v := Fetch(c1, files[n], remake, extract).value;
    EntriesListed(c0, c1[rp := v], files, remake, extract);
  }

  /** The listed part of `EntriesFrom`, one file more. */
  lemma EntriesListed(c0: map<string, Record>, c2: map<string, Record>, files: seq<Source>, remake: bool,
                      extract: string -> Result<Record>)
    requires files != []
    requires var n := |files| - 1;
      forall i :: 0 <= i < n ==> files[..n][i].relpath in c2 && Fetch(c0, files[..n][i], remake, extract) == Ok(c2[files[..n][i].relpath])
    requires files[|files| - 1].relpath in c2
    requires Fetch(c0, files[|files| - 1], remake, extract) == Ok(c2[files[|files| - 1].relpath])
    ensures forall i :: 0 <= i < |files| ==>
      files[i].relpath in c2 && Fetch(c0, files[i], remake, extract) == Ok(c2[files[i].relpath])
  {
    var n := |files| - 1;
    forall i | 0 <= i < n
      ensures files[i].relpath in c2 && Fetch(c0, files[i], remake, extract) == Ok(c2[files[i].relpath])
    {
      assert files[i] == files[..n][i];
    }
  }

  /** With distinct relpaths, each file's cache entry after the loop is what `Fetch` gave
      for it against the original cache, and entries for other keys are untouched. */
  lemma {:induction false} ScanEntries(b: Progress, files: seq<Source>, opts: Options, extract: string -> Result<Record>)
    requires Scan(b, files, opts, extract).Ok?
    requires DistinctPaths(files)
    ensures EntriesFrom(b.cache, Scan(b, files, opts, extract).value.cache, files, opts.remake, extract)
    decreases |files|
  {
    if files != [] {
      var n := |files| - 1;
      ScanEntries(b, files[..n], opts, extract);
      var b1 := Scan(b, files[..n], opts, extract).value;
      StepLaw(b1, files[n], opts, extract);
      EntriesStep(b.cache, b1.cache, files, opts.remake, extract);
    }
  }

  /** Every kept record has a number; the numbers seen are exactly the kept records'
      numbers; and a record is flagged as a duplicate iff an earlier kept record has the
      same number. With a non-empty filter, every kept record satisfies the query. */
  lemma {:induction false} ScanDuplicates(files: seq<Source>, cache: map<string, Record>, opts: Options, extract: string -> Result<Record>)
    requires Scan(Start(cache), files, opts, extract).Ok?
    ensures var b := Scan(Start(cache), files, opts, extract).value;
      |b.duplicate| == |b.records| &&
      (forall i :: 0 <= i < |b.records| ==> "number" in b.records[i]) &&
      b.numbers == (set i | 0 <= i < |b.records| :: b.records[i]["number"]) &&
      (forall i :: 0 <= i < |b.records| ==>
        (b.duplicate[i] <==> exists j :: 0 <= j < i && b.records[j]["number"] == b.records[i]["number"])) &&
      (opts.conds != [] ==> forall i :: 0 <= i < |b.records| ==> Query(b.records[i], opts.conds, opts.conv) == Ok(true))
    decreases |files|
  {
    if files != [] {
      var n := |files| - 1;
      ScanDuplicates(files[..n], cache, opts, extract);
      var b1 := Scan(Start(cache), files[..n], opts, extract).value;
      var b := Scan(Start(cache), files, opts, extract).value;
      StepLaw(b1, files[n], opts, extract);
      var info := Fetch(b1.cache, files[n], opts.remake, extract).value;
      if Passes(info, opts) {
        KeptNumbers(b1, b, info);
      }
    }
  }

  /** Keeping one record extends the numbers-seen and duplicate-flag laws. */
  lemma KeptNumbers(b1: Progress, b: Progress, info: Record)
    requires Kept(b1, b, info) && |b1.duplicate| == |b1.records|
    requires forall i :: 0 <= i < |b1.records| ==> "number" in b1.records[i]
    requires b1.numbers == (set i | 0 <= i < |b1.records| :: b1.records[i]["number"])
    requires forall i :: 0 <= i < |b1.records| ==>
      (b1.duplicate[i] <==> exists j :: 0 <= j < i && b1.records[j]["number"] == b1.records[i]["number"])
    ensures |b.duplicate| == |b.records|
    ensures forall i :: 0 <= i < |b.records| ==> "number" in b.records[i]
    ensures b.numbers == (set i | 0 <= i < |b.records| :: b.records[i]["number"])
    ensures forall i :: 0 <= i < |b.records| ==>
      (b.duplicate[i] <==> exists j :: 0 <= j < i && b.records[j]["number"] == b.records[i]["number"])
  {
    var m := |b1.records|;
    assert forall i :: 0 <= i < m ==> b.records[i] == b1.records[i] && b.duplicate[i] == b1.duplicate[i];
    assert b.records[m] == info;
    assert (set i | 0 <= i < |b.records| :: b.records[i]["number"]) ==
      (set i | 0 <= i < m :: b1.records[i]["number"]) + {info["number"]};
    if info["number"] in b1.numbers {
      var j :| 0 <= j < m && b1.records[j]["number"] == info["number"];
      assert b.records[j]["number"] == b.records[m]["number"];
    }
  }

  // ---------------------------------------------------------------------------
  // prune

  /** `for k in list(cached_data.keys()): if k not in current: del cached_data[k]` */
  method Prune(cache: map<string, Record>, current: set<string>) returns (pruned: map<string, Record>)
    ensures pruned.Keys == cache.Keys * current
    ensures forall k :: k in pruned ==> pruned[k] == cache[k]
  {
    pruned := cache;
    var todo := cache.Keys;
    while todo != {}
      invariant todo <= cache.Keys
      invariant pruned.Keys == (cache.Keys - todo) * current + todo
      invariant forall k :: k in pruned ==> pruned[k] == cache[k]
      decreases todo
    {
      var k :| k in todo;
      if k !in current {
        pruned := pruned - {k};
      }
      todo := todo - {k};
    }
  }

  // ---------------------------------------------------------------------------
  // sort

  /** The sort key of a record under field `key` (a field it is known to have). */
  function FieldKey(key: string): Record -> Key
  {
    r => if key in r then KeyOf(r[key]) else TextKey([])
  }

  /** `records[::-1]` */
  function Reverse<T>(s: seq<T>): (r: seq<T>)
    ensures |r| == |s|
  {
    if s == [] then [] else [s[|s| - 1]] + Reverse(s[..|s| - 1])
  }

  /** Position `i` of the reversal holds position `|s| - 1 - i` of the original. */
  lemma {:induction false} ReverseIndex<T>(s: seq<T>, i: nat)
    requires i < |s|
    ensures Reverse(s)[i] == s[|s| - 1 - i]
    decreases |s|
  {
    if i > 0 {
      var n := |s| - 1;
      ReverseIndex(s[..n], i - 1);
    }
  }

  lemma ReverseAt<T>(s: seq<T>)
    ensures forall i :: 0 <= i < |s| ==> Reverse(s)[i] == s[|s| - 1 - i]
  {
    forall i | 0 <= i < |s|
      ensures Reverse(s)[i] == s[|s| - 1 - i]
    {
      ReverseIndex(s, i);
    }
  }

  /** The field a sort option names and whether it asks for descending order. */
  function SortField(sortKey: string): (r: (string, bool))
    ensures r.1 <==> sortKey != [] && sortKey[|sortKey| - 1] == '-'
    ensures (if r.1 then r.0 + "-" else r.0) == sortKey
  {
    if |sortKey| > 0 && sortKey[|sortKey| - 1] == '-' then (sortKey[..|sortKey| - 1], true)
    else (sortKey, false)
  }

  /** `sorted(records, key=lambda d: d[key])`, reversed for a trailing `-`. Every key is
      read before any comparison (KeyError for a record without the field); Python's `<`
      between a string and a number raises TypeError, and a sort cannot order a list
      holding both without comparing across them. An empty option leaves the order. */
  function SortRecords(records: seq<Record>, sortKey: string): (r: Result<seq<Record>>)
    ensures r.Ok? ==> |r.value| == |records|
    ensures r.Err? ==> sortKey != [] && (r.error == KeyError(SortField(sortKey).0) || r.error == TypeError)
  {
    if sortKey == [] then Ok(records)
    else
      var (key, desc) := SortField(sortKey);
      if exists i :: 0 <= i < |records| && key !in records[i] then Err(KeyError(key))
      else if (exists i :: 0 <= i < |records| && records[i][key].Str?) &&
              (exists j :: 0 <= j < |records| && !records[j][key].Str?) then Err(TypeError)
      else
        var asc := SortBy(records, FieldKey(key));
        Ok(if desc then Reverse(asc) else asc)
  }

  /** A sort that succeeds gives the stable ascending order, reversed for a trailing `-`. */
  lemma SortRecordsOk(records: seq<Record>, sortKey: string)
    requires sortKey != [] && SortRecords(records, sortKey).Ok?
    ensures SortRecords(records, sortKey).value ==
      var asc := SortBy(records, FieldKey(SortField(sortKey).0));
      if SortField(sortKey).1 then Reverse(asc) else asc
  {
  }

  /** The sorted records are a permutation of the input, ordered by the field; descending
      is exactly the reverse of the stable ascending sort. */
  lemma SortRecordsLaw(records: seq<Record>, sortKey: string)
    requires sortKey != [] && SortRecords(records, sortKey).Ok?
    ensures multiset(SortRecords(records, sortKey).value) == multiset(records)
    ensures !SortField(sortKey).1 ==> SortedBy(SortRecords(records, sortKey).value, FieldKey(SortField(sortKey).0))
    ensures SortField(sortKey).1 ==>
      SortRecords(records, sortKey).value == Reverse(SortBy(records, FieldKey(SortField(sortKey).0))) &&
      forall i, j :: 0 <= i < j < |records| ==>
        var r := SortRecords(records, sortKey).value;
        !Less(FieldKey(SortField(sortKey).0)(r[i]), FieldKey(SortField(sortKey).0)(r[j]))
  {
    var key := SortField(sortKey).0;
    var asc := SortBy(records, FieldKey(key));
    SortRecordsOk(records, sortKey);
    SortBySorted(records, FieldKey(key));
    if SortField(sortKey).1 {
      ReverseMultiset(asc);
      ReverseDescending(asc, FieldKey(key));
    }
  }

  /** The reverse of an ascending sequence never has a smaller key before a larger one. */
  lemma ReverseDescending<T>(asc: seq<T>, key: T -> Key)
    requires SortedBy(asc, key)
    ensures forall i, j :: 0 <= i < j < |asc| ==> !Less(key(Reverse(asc)[i]), key(Reverse(asc)[j]))
  {
    ReverseAt(asc);
  }

  lemma {:induction false} ReverseMultiset<T>(s: seq<T>)
    ensures multiset(Reverse(s)) == multiset(s)
    decreases |s|
  {
    if s != [] {
      var n := |s| - 1;
      ReverseMultiset(s[..n]);
      assert multiset(Reverse(s)) == multiset{s[n]} + multiset(Reverse(s[..n]));
      assert multiset(s) == multiset(s[..n]) + multiset{s[n]} by {
        assert s == s[..n] + [s[n]];
      }
    }
  }

  /** Sorting fails exactly when a record lacks the field, or when the field is a string in
      some record and a number in another. */
  lemma SortRecordsErrors(records: seq<Record>, sortKey: string)
    requires sortKey != []
    ensures var key := SortField(sortKey).0;
      SortRecords(records, sortKey) == Err(KeyError(key)) <==>
        exists i :: 0 <= i < |records| && key !in records[i]
    ensures var key := SortField(sortKey).0;
      SortRecords(records, sortKey) == Err(TypeError) <==>
        (forall i :: 0 <= i < |records| ==> key in records[i]) &&
        (exists i, j :: 0 <= i < |records| && 0 <= j < |records| && records[i][key].Str? && !records[j][key].Str?)
  {
  }

  // ---------------------------------------------------------------------------
  // table rows

  /** The columns shown by default, in order. */
  const COLUMNS: seq<(string, bool)> := [
    ("relpath", true), ("type", true), ("uid", true), ("date", true), ("total", true),
    ("buyer", true), ("buyer_id", false), ("seller", false), ("seller_id", false)]

  /** `[d["key"] for d in COLUMNS if d["shown"]]` */
  function ShownKeys(cols: seq<(string, bool)>): seq<string>
  {
    if cols == [] then []
    else ShownKeys(cols[..|cols| - 1]) + (if cols[|cols| - 1].1 then [cols[|cols| - 1].0] else [])
  }

  /** `args.keys or [...]`: the requested columns, or the shown ones when none are given. */
  function ColumnKeys(keys: seq<string>): seq<string>
  {
    if keys != [] then keys else ShownKeys(COLUMNS)
  }

  /** The default table shows path, type, uid, date, total and buyer. */
  lemma DefaultColumns()
    ensures ColumnKeys([]) == ["relpath", "type", "uid", "date", "total", "buyer"]
  {
    var c := COLUMNS;
    assert ShownKeys(c[..1]) == ["relpath"] by { assert c[..1][..0] == []; }
    assert ShownKeys(c[..2]) == ["relpath", "type"] by { assert c[..2][..1] == c[..1]; }
    assert ShownKeys(c[..3]) == ["relpath", "type", "uid"] by { assert c[..3][..2] == c[..2]; }
    assert ShownKeys(c[..4]) == ["relpath", "type", "uid", "date"] by { assert c[..4][..3] == c[..3]; }
    assert ShownKeys(c[..5]) == ["relpath", "type", "uid", "date", "total"] by { assert c[..5][..4] == c[..4]; }
    assert ShownKeys(c[..6]) == ["relpath", "type", "uid", "date", "total", "buyer"] by { assert c[..6][..5] == c[..5]; }
    assert ShownKeys(c[..7]) == ShownKeys(c[..6]) by { assert c[..7][..6] == c[..6]; }
    assert ShownKeys(c[..8]) == ShownKeys(c[..7]) by { assert c[..8][..7] == c[..7]; }
    assert ShownKeys(c) == ShownKeys(c[..8]) by { assert c[..8] == c[..|c| - 1]; }
  }

  /** `record.get(k, "--错误--") or ""`: a missing field shows "--错误--", a present but
      falsy one (empty text, zero) shows the empty string, and any other value shows as
      itself, so a cell is never a falsy value other than "". */
  function Cell(record: Record, k: string): (c: Value)
    ensures k !in record ==> c == Str("--错误--")
    ensures k in record && !Truthy(record[k]) ==> c == Str("")
    ensures k in record && Truthy(record[k]) ==> c == record[k]
    ensures Truthy(c) || c == Str("")
  {
    var v := if k in record then record[k] else Str("--错误--");
    if Truthy(v) then v else Str("")
  }

  /** One table row. */
  function Row(record: Record, keys: seq<string>): (r: seq<Value>)
    ensures |r| == |keys| && forall j :: 0 <= j < |keys| ==> r[j] == Cell(record, keys[j])
  {
    if keys == [] then [] else Row(record, keys[..|keys| - 1]) + [Cell(record, keys[|keys| - 1])]
  }

  /** The row loop of `main`: one row per record, in record order. */
  method TableRows(records: seq<Record>, keys: seq<string>) returns (rows: seq<seq<Value>>)
    ensures |rows| == |records|
    ensures forall i :: 0 <= i < |records| ==> rows[i] == Row(records[i], keys)
  {
    rows := [];
    var i := 0;
    while i < |records|
      invariant 0 <= i <= |records|
      invariant |rows| == i
      invariant forall m :: 0 <= m < i ==> rows[m] == Row(records[m], keys)
    {
      var row: seq<Value> := [];
      var j := 0;
      while j < |keys|
        invariant 0 <= j <= |keys|
        invariant row == Row(records[i], keys[..j])
      {
        assert keys[..j + 1][..j] == keys[..j];
        row := row + [Cell(records[i], keys[j])];
        j := j + 1;
      }
      assert keys[..j] == keys;
      rows := rows + [row];
      i := i + 1;
    }
  }

  // ---------------------------------------------------------------------------
  // main

  /** What a run shows: the records in table order, their duplicate flags in loop order, the
      total and the table rows. */
  datatype Report = Report(records: seq<Record>, duplicate: seq<bool>, total: Value, rows: seq<seq<Value>>)

  /** The body of `main` on the listed files, the cache read from disk, the options, the
      sort option, the requested columns and the per-file extraction. `written` is the cache
      handed to `cache.write`: the prune and the write come before the sort, so a failing
      sort still leaves the pruned cache written, while a failing loop writes nothing. */
  method Run(cache: map<string, Record>, files: seq<Source>, opts: Options, sortKey: string,
             keys: seq<string>, extract: string -> Result<Record>)
    returns (written: Option<map<string, Record>>, r: Result<Report>)
    ensures written.None? <==> Scan(Start(cache), files, opts, extract).Err?
    ensures written.Some? ==>
      var b := Scan(Start(cache), files, opts, extract).value;
      written.value.Keys == RelPaths(files) &&
      forall k :: k in written.value ==> k in b.cache && written.value[k] == b.cache[k]
    ensures written.Some? && DistinctPaths(files) ==> Refreshed(cache, written.value, files, opts.remake, extract)
    ensures r.Err? <==> (Scan(Start(cache), files, opts, extract).Err? ||
                         SortRecords(Scan(Start(cache), files, opts, extract).value.records, sortKey).Err?)
    ensures r.Err? ==> r.error == (if Scan(Start(cache), files, opts, extract).Err?
                                   then Scan(Start(cache), files, opts, extract).error
                                   else SortRecords(Scan(Start(cache), files, opts, extract).value.records, sortKey).error)
    ensures r.Ok? ==>
      var b := Scan(Start(cache), files, opts, extract).value;
      SortRecords(b.records, sortKey) == Ok(r.value.records) &&
      r.value.duplicate == b.duplicate && r.value.total == b.total &&
      |r.value.rows| == |r.value.records| &&
      forall i :: 0 <= i < |r.value.records| ==> r.value.rows[i] == Row(r.value.records[i], ColumnKeys(keys))
    ensures r.Ok? && DistinctPaths(files) ==> SortRecords(Selected(cache, files, opts, extract), sortKey) == Ok(r.value.records)
  {
    var collected := Collect(cache, files, opts, extract);
    if collected.Err? {
      return None, Err(collected.error);
    }
    var b := collected.value;
    ScanKeys(Start(cache), files, opts, extract);
    var pruned := Prune(b.cache, b.current);
    assert pruned.Keys == RelPaths(files);
    written := Some(pruned);
    if DistinctPaths(files) {
      ScanEntries(Start(cache), files, opts, extract);
      PrunedRefreshed(cache, b.cache, pruned, files, opts.remake, extract);
      SelectedRecords(cache, files, opts, extract);
    }
    r := Finish(b, sortKey, keys);
  }

  /** No two listed files share a relative path. */
  ghost predicate DistinctPaths(files: seq<Source>)
  {
    forall i, j :: 0 <= i < j < |files| ==> files[i].relpath != files[j].relpath
  }

  /** Every listed file has the entry a fetch against the original cache `c0` gives it. */
  ghost predicate Refreshed(c0: map<string, Record>, c: map<string, Record>, files: seq<Source>, remake: bool,
                            extract: string -> Result<Record>)
  {
    forall i :: 0 <= i < |files| ==>
      files[i].relpath in c && Fetch(c0, files[i], remake, extract) == Ok(c[files[i].relpath])
  }

  /** Pruning down to the listed files keeps their refreshed entries. */
  lemma PrunedRefreshed(c0: map<string, Record>, c: map<string, Record>, pruned: map<string, Record>,
                        files: seq<Source>, remake: bool, extract: string -> Result<Record>)
    requires EntriesFrom(c0, c, files, remake, extract)
    requires pruned.Keys == RelPaths(files) && forall k :: k in pruned ==> k in c && pruned[k] == c[k]
    ensures Refreshed(c0, pruned, files, remake, extract)
  {
    forall i | 0 <= i < |files|
      ensures files[i].relpath in pruned && Fetch(c0, files[i], remake, extract) == Ok(pruned[files[i].relpath])
    {
      assert files[i].relpath in RelPaths(files);
    }
  }

  /** The rest of `main` once the cache is written: sort the kept records and lay out
      their cells. */
  method Finish(b: Progress, sortKey: string, keys: seq<string>) returns (r: Result<Report>)
    ensures r.Err? <==> SortRecords(b.records, sortKey).Err?
    ensures r.Err? ==> r == Err(SortRecords(b.records, sortKey).error)
    ensures r.Ok? ==>
      SortRecords(b.records, sortKey) == Ok(r.value.records) &&
      r.value.duplicate == b.duplicate && r.value.total == b.total &&
      |r.value.rows| == |r.value.records| &&
      forall i :: 0 <= i < |r.value.records| ==> r.value.rows[i] == Row(r.value.records[i], ColumnKeys(keys))
  {
    var sorted := SortRecords(b.records, sortKey);
    if sorted.Err? {
      return Err(sorted.error);
    }
    var rows := TableRows(sorted.value, ColumnKeys(keys));
    return Ok(Report(sorted.value, b.duplicate, b.total, rows));
  }
}
