/** One invoice PDF: type inference, the per-type profile, the header and total anchors,
    the three text zones and the fields assigned from them. The label regexes are given as
    matchers (`Patterns`); the pages arrive as lists of fragment lines. */
module Extractor {
  import opened Common
  import opened Records
  import opened Layout

  /** The label patterns of the extractor, one matcher per regex; each returns the capture
      groups of the first match, or None when `re.search` finds nothing. */
  datatype Patterns = Patterns(
    typeDesc: string -> Option<string>,                 // `([一-龥]+)增值税电子普通发票`, group 0
    electronicGeneral: string -> bool,                  // `电子发票\s*[(（]普通发票[）)]`
    totalAmounts: string -> Option<(string, string)>,   // amount in words, amount in figures
    toFloat: string -> Option<real>,                    // `float(...)`; None is a ValueError
    number: string -> Option<string>,                   // 发票号码
    date: string -> Option<(string, string, string)>,   // 开票日期: year, month, day
    code: string -> Option<string>,                     // 发票代码
    buyerName: string -> Option<string>,                // 名称 (type 1 buyer)
    buyerId: string -> Option<string>,                  // 纳税人识别号 (type 1 buyer)
    phone: string -> Option<string>,                    // the text after 电话
    maskedContact: string -> Option<string>,            // contact before the 27-symbol cipher
    sellerNameOrder: string -> Option<(string, string)>, // seller name, order number
    sellerId: string -> Option<string>,                 // 纳税人识别号 (type 1 seller)
    contact: string -> Option<string>,                  // the text after a colon
    partyNames: string -> Option<(string, string)>,     // type 2: buyer and seller names
    partyIds: string -> Option<(string, string)>)       // type 2: buyer and seller tax ids

  const TYPE1_MARKER: string := "增值税电子普通发票"
  const GENERAL_MARKER: string := "普通发票"
  const TYPE2_DESC: string := "电子发票(普通发票)"
  const HEADER_MARKER: string := "税率"
  const TOTAL_MARKER: string := "价税合计"

  // ---------------------------------------------------------------------------
  // construction

  /** `os.path.basename`: the text after the last `/`. */
  function Basename(path: string): (b: string)
    ensures '/' !in b
    ensures exists k :: 0 <= k <= |path| && path[k..] == b && (k == 0 || path[k - 1] == '/')
  {
    if path == [] then
      assert path[0..] == [];
      []
    else if path[|path| - 1] == '/' then
      assert path[|path|..] == [];
      []
    else
      var b := Basename(path[..|path| - 1]);
      var k :| 0 <= k <= |path| - 1 && path[..|path| - 1][k..] == b && (k == 0 || path[..|path| - 1][k - 1] == '/');
      assert path[k..] == b + [path[|path| - 1]];
      b + [path[|path| - 1]]
  }

  /** The record a new extractor starts with. */
  function InitialData(path: string): (d: Record)
    ensures d.Keys == {"path", "file"}
  {
    map["path" := Str(path), "file" := Str(Basename(path))]
  }

  // ---------------------------------------------------------------------------
  // infer_type and get_type_conf

  /** The line settles the type: the type-1 marker, or a general-invoice line that also
      matches the electronic pattern. Other general-invoice lines are only logged. */
  predicate Decides(text: string, pat: Patterns)
  {
    Contains(text, TYPE1_MARKER) || (Contains(text, GENERAL_MARKER) && pat.electronicGeneral(text))
  }

  /** The type and description a deciding line gives. */
  function TypeFrom(text: string, pat: Patterns): (r: Result<(int, string)>)
    requires Decides(text, pat)
    ensures r.Ok? ==> r.value.0 == 1 || r.value.0 == 2
    ensures r.Err? ==> r.error == AttributeError
  {
    if Contains(text, TYPE1_MARKER) then
      match pat.typeDesc(text)
      case None => Err(AttributeError)
      case Some(desc) => Ok((1, desc))
    else Ok((2, TYPE2_DESC))
  }

  /** `infer_type` over the raw lines of page 0: the first deciding line sets the type; with
      none, reading the unset `type` raises KeyError. */
  function Classify(lines: seq<TextLine>, pat: Patterns): (r: Result<(int, string)>)
    ensures r.Ok? ==> r.value.0 == 1 || r.value.0 == 2
    ensures r.Err? ==> r.error == KeyError("type") || r.error == AttributeError
  {
    if lines == [] then Err(KeyError("type"))
    else if Decides(lines[0].text, pat) then TypeFrom(lines[0].text, pat)
    else Classify(lines[1..], pat)
  }

  /** The type comes from the first deciding line, and only a missing one raises KeyError. */
  lemma {:induction false} ClassifyFirstMatch(lines: seq<TextLine>, pat: Patterns)
    ensures Classify(lines, pat) == Err(KeyError("type")) <==>
      forall i :: 0 <= i < |lines| ==> !Decides(lines[i].text, pat)
    ensures forall i :: (0 <= i < |lines| && Decides(lines[i].text, pat) &&
      (forall j :: 0 <= j < i ==> !Decides(lines[j].text, pat))) ==>
      Classify(lines, pat) == TypeFrom(lines[i].text, pat)
    decreases |lines|
  {
    if lines != [] && !Decides(lines[0].text, pat) {
      ClassifyFirstMatch(lines[1..], pat);
      assert forall i :: 1 <= i < |lines| ==> lines[i] == lines[1..][i - 1];
    }
  }

  /** The type-1 marker contains the general marker, yet a type-1 line is never taken for
      type 2: the type-1 test comes first. */
  lemma Type1Wins(text: string, pat: Patterns)
    requires Contains(text, TYPE1_MARKER)
    ensures Contains(text, GENERAL_MARKER)
    ensures TypeFrom(text, pat).Ok? ==> TypeFrom(text, pat).value.0 == 1
  {
    ContainsAt(text, TYPE1_MARKER);
    var i :| OccursAt(text, TYPE1_MARKER, i);
    assert OccursAt(text, GENERAL_MARKER, i + 5) by {
      assert text[i + 5..i + 9] == TYPE1_MARKER[5..9];
    }
    ContainsAt(text, GENERAL_MARKER);
  }

  /** `get_type_conf`: the tolerances of one invoice type. */
  datatype TypeProfile = TypeProfile(lineYTolerance: real, headerXTolerance: real, totalXTolerance: real)

  /** The profile table: only types 1 and 2 have one; both split header and total words at a
      gap of 20, and type 2 merges lines within 4 units where type 1 allows 2. */
  function TypeConf(kind: int): (r: Option<TypeProfile>)
    ensures r.Some? <==> kind == 1 || kind == 2
    ensures r.Some? ==> r.value.headerXTolerance == r.value.totalXTolerance == 20.0
    ensures kind == 1 ==> r.Some? && r.value.lineYTolerance == 2.0
    ensures kind == 2 ==> r.Some? && r.value.lineYTolerance == 4.0
  {
    if kind == 1 then Some(TypeProfile(2.0, 20.0, 20.0))
    else if kind == 2 then Some(TypeProfile(4.0, 20.0, 20.0))
    else None
  }

  // ---------------------------------------------------------------------------
  // anchors

  predicate IsHeaderLine(l: TextLine) { Contains(l.text, HEADER_MARKER) }
  predicate IsTotalLine(l: TextLine) { Contains(l.text, TOTAL_MARKER) }

  /** The first total line of one page, merged with tolerance `tol`. */
  function PageTotal(page: seq<TextLine>, tol: real): Option<TextLine>
  {
    Find(MergedLines(page, tol), IsTotalLine)
  }

  /** `PageTotal` at a fixed tolerance, as a function of the page. */
  function PageTotalAt(tol: real): seq<TextLine> -> Option<TextLine>
  {
    page => PageTotal(page, tol)
  }

  /** The first total line on the given pages, searched in page order. */
  function TotalOnPages(pages: seq<seq<TextLine>>, tol: real): Option<TextLine>
  {
    FirstSome(pages, PageTotalAt(tol))
  }

  /** The total line: the first on page 0, otherwise the first on the later pages. */
  function TotalAnchor(mainLines: seq<TextLine>, later: seq<seq<TextLine>>, tol: real): Option<TextLine>
  {
    match Find(mainLines, IsTotalLine)
    case Some(t) => Some(t)
    case None => TotalOnPages(later, tol)
  }

  /** Later pages are searched in page order: a total is found there only when some page has
      a total line, and it is the first total line of the first such page. */
  lemma TotalOnPagesFirst(pages: seq<seq<TextLine>>, tol: real)
    ensures TotalOnPages(pages, tol).None? <==> forall p :: 0 <= p < |pages| ==> PageTotal(pages[p], tol).None?
    ensures TotalOnPages(pages, tol).Some? ==> exists p :: (0 <= p < |pages| &&
      PageTotal(pages[p], tol) == TotalOnPages(pages, tol) &&
      forall q :: 0 <= q < p ==> PageTotal(pages[q], tol).None?)
  {
    FirstSomeNone(pages, PageTotalAt(tol));
    if TotalOnPages(pages, tol).Some? {
      FirstSomeFirst(pages, PageTotalAt(tol));
    }
  }

  // ---------------------------------------------------------------------------
  // zones

  /** Which accumulator a page-0 line goes to. */
  datatype Zone = Above | Between | Below | Nowhere

  /** The `if`/`elif` chain of the zone split. */
  function ZoneOf(bottom: real, headerTop: real, totalTop: real): (z: Zone)
    ensures z == Above <==> bottom < headerTop
    ensures z == Between <==> headerTop < bottom < totalTop
    ensures z == Below <==> headerTop < bottom && totalTop <= bottom
    ensures z == Nowhere <==> bottom == headerTop
  {
    if bottom < headerTop then Above
    else if headerTop < bottom < totalTop then Between
    else if bottom > headerTop then Below
    else Nowhere
  }

  /** The zone the chain sends each line to. */
  function LineZone(headerTop: real, totalTop: real): TextLine -> Zone
  {
    (l: TextLine) => ZoneOf(l.bottom, headerTop, totalTop)
  }

  /** The lines that `zoneOf` sends to `z`, in order. */
  function Pick(lines: seq<TextLine>, zoneOf: TextLine -> Zone, z: Zone): seq<TextLine>
  {
    if lines == [] then []
    else Pick(lines[..|lines| - 1], zoneOf, z) + (if zoneOf(lines[|lines| - 1]) == z then [lines[|lines| - 1]] else [])
  }

  /** The lines of zone `z`, in their order on the page. */
  function ZoneLines(lines: seq<TextLine>, headerTop: real, totalTop: real, z: Zone): seq<TextLine>
  {
    Pick(lines, LineZone(headerTop, totalTop), z)
  }

  /** Each line's text followed by a newline, concatenated. */
  function Texts(lines: seq<TextLine>): string
  {
    if lines == [] then [] else Texts(lines[..|lines| - 1]) + (lines[|lines| - 1].text + "\n")
  }

  /** The accumulated text `s1`, `s2` or `s3` of zone `z`. */
  function ZoneText(lines: seq<TextLine>, headerTop: real, totalTop: real, z: Zone): string
  {
    Texts(ZoneLines(lines, headerTop, totalTop, z))
  }

  /** A zone holds exactly the page lines that the chain sends to it. */
  lemma {:induction false} ZoneLinesMembers(lines: seq<TextLine>, headerTop: real, totalTop: real, z: Zone)
    ensures forall l :: l in ZoneLines(lines, headerTop, totalTop, z) <==>
      l in lines && ZoneOf(l.bottom, headerTop, totalTop) == z
    decreases |lines|
  {
    if lines != [] {
      var n := |lines| - 1;
      ZoneLinesMembers(lines[..n], headerTop, totalTop, z);
      assert lines == lines[..n] + [lines[n]];
    }
  }

  /** How often `x` occurs among the lines of zone `z`: once more than among the earlier
      lines when `x` is the last line and belongs there. */
  lemma PickCount(lines: seq<TextLine>, zoneOf: TextLine -> Zone, z: Zone, x: TextLine)
    requires lines != []
    ensures var l := lines[|lines| - 1];
      multiset(Pick(lines, zoneOf, z))[x] ==
        multiset(Pick(lines[..|lines| - 1], zoneOf, z))[x] + (if zoneOf(l) == z && x == l then 1 else 0)
  {
  }

  /** Sorting lines into four zones loses and duplicates none of them: each line occurs in
      the four zones together as often as among the lines. */
  lemma {:induction false} PickPartition(lines: seq<TextLine>, zoneOf: TextLine -> Zone, x: TextLine)
    ensures multiset(Pick(lines, zoneOf, Above))[x] + multiset(Pick(lines, zoneOf, Between))[x] +
      multiset(Pick(lines, zoneOf, Below))[x] + multiset(Pick(lines, zoneOf, Nowhere))[x] == multiset(lines)[x]
    decreases |lines|
  {
    if lines != [] {
      var n := |lines| - 1;
      PickPartition(lines[..n], zoneOf, x);
      PickCount(lines, zoneOf, Above, x);
      PickCount(lines, zoneOf, Between, x);
      PickCount(lines, zoneOf, Below, x);
      PickCount(lines, zoneOf, Nowhere, x);
      MultisetLast(lines, x);
    }
  }

  /** Every line goes to exactly one of the three zones or to none: the zones and the
      discarded lines together are the page's lines, each once. */
  lemma ZonePartition(lines: seq<TextLine>, headerTop: real, totalTop: real)
    ensures multiset(ZoneLines(lines, headerTop, totalTop, Above)) +
      multiset(ZoneLines(lines, headerTop, totalTop, Between)) +
      multiset(ZoneLines(lines, headerTop, totalTop, Below)) +
      multiset(ZoneLines(lines, headerTop, totalTop, Nowhere)) == multiset(lines)
  {
    forall x {
      PickPartition(lines, LineZone(headerTop, totalTop), x);
    }
  }

  /** One step of the zone loop: the next line's text is appended to its own zone only. */
  lemma ZoneStep(lines: seq<TextLine>, i: nat, headerTop: real, totalTop: real, z: Zone)
    requires i < |lines|
    ensures ZoneText(lines[..i + 1], headerTop, totalTop, z) ==
      ZoneText(lines[..i], headerTop, totalTop, z) +
      (if ZoneOf(lines[i].bottom, headerTop, totalTop) == z then lines[i].text + "\n" else [])
  {
    assert lines[..i + 1][..i] == lines[..i];
    var zl := ZoneLines(lines[..i], headerTop, totalTop, z);
    if ZoneOf(lines[i].bottom, headerTop, totalTop) == z {
      assert (zl + [lines[i]])[..|zl|] == zl;
    } else {
      assert zl + [] == zl;
    }
  }

  // ---------------------------------------------------------------------------
  // fields

  /** The concatenated word texts of a line split at `tol`. */
  function JoinedWords(chars: seq<Char>, tol: real): (r: Result<string>)
    ensures r.Ok? <==> WordsOf(chars, tol).Ok?
  {
    match WordsOf(chars, tol)
    case Err(e) => Err(e)
    case Ok(ws) => Ok(Flatten(WordTexts(ws)))
  }

  /** The words only regroup the characters: the text matched for the total is the line's
      own character text, whatever the tolerance. */
  lemma JoinedWordsText(chars: seq<Char>, tol: real)
    requires WordsOf(chars, tol).Ok?
    ensures JoinedWords(chars, tol) == Ok(TextOf(chars))
  {
    WordsText(chars, tol);
  }

  /** `parse_total_line`: `total_zh` and `total` from the total line's text; a failed match
      leaves the record alone, an unparsable amount raises ValueError. */
  function TotalFields(data: Record, total: TextLine, tol: real, pat: Patterns): (r: Result<Record>)
    ensures r.Ok? ==> forall k :: k in data && k != "total" && k != "total_zh" ==> k in r.value && r.value[k] == data[k]
    ensures r.Ok? ==> forall k :: k in r.value && k != "total_zh" && k != "total" ==> k in data
    ensures WordsOf(total.chars, tol).Err? ==> r == Err(IndexError)
    ensures WordsOf(total.chars, tol).Ok? ==>
      match pat.totalAmounts(TextOf(total.chars))
      case None => r == Ok(data)
      case Some(m) =>
        match pat.toFloat(m.1)
        case None => r == Err(ValueError(m.1))
        case Some(x) => r.Ok? && "total_zh" in r.value && r.value["total_zh"] == Str(m.0) &&
                        "total" in r.value && r.value["total"] == Float(x)
  {
    match JoinedWords(total.chars, tol)
    case Err(e) => Err(e)
    case Ok(text) =>
      JoinedWordsText(total.chars, tol);
      match pat.totalAmounts(text)
      case None => Ok(data)
      case Some(m) =>
        match pat.toFloat(m.1)
        case None => Err(ValueError(m.1))
        case Some(x) => Ok(data["total_zh" := Str(m.0)]["total" := Float(x)])
  }

  /** `key` is present in `d` exactly when it is in `data`, with the same value. */
  ghost predicate Untouched(data: Record, d: Record, key: string)
  {
    (key in d <==> key in data) && (key in data ==> d[key] == data[key])
  }

  /** `key` holds the matched group when the pattern matched, and is untouched otherwise. */
  ghost predicate Assigned(data: Record, d: Record, key: string, m: Option<string>)
  {
    match m
    case Some(v) => key in d && d[key] == Str(v)
    case None => Untouched(data, d, key)
  }

  /** Two keys hold the two matched groups when the pattern matched, and are untouched
      otherwise. */
  ghost predicate PairAssigned(data: Record, d: Record, key1: string, key2: string, m: Option<(string, string)>)
  {
    match m
    case Some(v) => key1 in d && d[key1] == Str(v.0) && key2 in d && d[key2] == Str(v.1)
    case None => Untouched(data, d, key1) && Untouched(data, d, key2)
  }

  /** The contact field after a `电话` search: "-" without the label, else the second
      pattern's group, or untouched when that pattern fails. */
  ghost predicate ContactSet(data: Record, d: Record, key: string, s: string, phone: string -> Option<string>,
                             contact: string -> Option<string>)
  {
    match phone(s)
    case None => key in d && d[key] == Str("-")
    case Some(ss) => Assigned(data, d, key, contact(ss))
  }

  /** `extract_common`: `number` and `date` from the upper zone. */
  function CommonFields(data: Record, s1: string, pat: Patterns): (d: Record)
    ensures "number" in d <==> "number" in data || pat.number(s1).Some?
    ensures pat.number(s1).Some? ==> d["number"] == Str(pat.number(s1).value)
    ensures pat.number(s1).None? ==> Untouched(data, d, "number")
    ensures "date" in d <==> "date" in data || pat.date(s1).Some?
    ensures pat.date(s1).Some? ==>
      var ymd := pat.date(s1).value;
      d["date"] == Str(ymd.0 + ymd.1 + ymd.2)
    ensures pat.date(s1).None? ==> Untouched(data, d, "date")
    ensures forall k :: k in data && k != "number" && k != "date" ==> k in d && d[k] == data[k]
    ensures forall k :: k in d && k != "number" && k != "date" ==> k in data
  {
    var d1 := match pat.number(s1)
      case Some(n) => data["number" := Str(n)]
      case None => data;
    match pat.date(s1)
    case Some(ymd) => d1["date" := Str(ymd.0 + ymd.1 + ymd.2)]
    case None => d1
  }

  /** The contact after `电话`: the matcher's text, nothing when the second pattern fails
      (the error is only logged), and "-" when there is no phone label. */
  function ContactField(data: Record, key: string, s: string, phone: string -> Option<string>,
                        contact: string -> Option<string>): (d: Record)
    ensures forall k :: k in data && k != key ==> k in d && d[k] == data[k]
    ensures forall k :: k in d && k != key ==> k in data
    ensures ContactSet(data, d, key, s, phone, contact)
  {
    match phone(s)
    case None => data[key := Str("-")]
    case Some(ss) =>
      match contact(ss)
      case Some(c) => data[key := Str(c)]
      case None => data
  }

  /** A field set from a one-group match, when it matches. */
  function SetIf(data: Record, key: string, m: Option<string>): (d: Record)
    ensures forall k :: k in data && k != key ==> k in d && d[k] == data[k]
    ensures forall k :: k in d && k != key ==> k in data
    ensures key in d <==> key in data || m.Some?
    ensures m.Some? ==> d[key] == Str(m.value)
    ensures Assigned(data, d, key, m)
  {
    match m
    case Some(v) => data[key := Str(v)]
    case None => data
  }

  /** Two fields set from a two-group match, when it matches. */
  function SetPair(data: Record, key1: string, key2: string, m: Option<(string, string)>): (d: Record)
    requires key1 != key2
    ensures forall k :: k in data && k != key1 && k != key2 ==> k in d && d[k] == data[k]
    ensures forall k :: k in d && k != key1 && k != key2 ==> k in data
    ensures PairAssigned(data, d, key1, key2, m)
  {
    match m
    case Some(v) => data[key1 := Str(v.0)][key2 := Str(v.1)]
    case None => data
  }

  /** Three updates, the first confined to `ka` and `kb` and the others to their own key,
      together change no other key, and a key is untouched by the updates after its own. */
  lemma FrameThrough(data: Record, d1: Record, d2: Record, d3: Record, ka: string, kb: string, k2: string, k3: string)
    requires forall k :: k in data && k != ka && k != kb ==> k in d1 && d1[k] == data[k]
    requires forall k :: k in d1 && k != ka && k != kb ==> k in data
    requires forall k :: k in d1 && k != k2 ==> k in d2 && d2[k] == d1[k]
    requires forall k :: k in d2 && k != k2 ==> k in d1
    requires forall k :: k in d2 && k != k3 ==> k in d3 && d3[k] == d2[k]
    requires forall k :: k in d3 && k != k3 ==> k in d2
    ensures forall k :: k in data && k != ka && k != kb && k != k2 && k != k3 ==> k in d3 && d3[k] == data[k]
    ensures forall k :: k in d3 && k != ka && k != kb && k != k2 && k != k3 ==> k in data
    ensures ka != k2 && ka != k3 ==> Untouched(d1, d3, ka)
    ensures kb != k2 && kb != k3 ==> Untouched(d1, d3, kb)
    ensures k2 != k3 ==> Untouched(d2, d3, k2)
    ensures k3 != ka && k3 != kb && k3 != k2 ==> Untouched(data, d2, k3)
  {
  }

  /** A key assigned from a match stays so through later updates that leave it alone. */
  lemma AssignedThrough(data: Record, d1: Record, d: Record, key: string, m: Option<string>)
    requires Assigned(data, d1, key, m) && Untouched(d1, d, key)
    ensures Assigned(data, d, key, m)
  {
  }

  /** Two keys assigned from a match stay so through later updates that leave them alone. */
  lemma PairAssignedThrough(data: Record, d1: Record, d: Record, key1: string, key2: string,
                            m: Option<(string, string)>)
    requires PairAssigned(data, d1, key1, key2, m) && Untouched(d1, d, key1) && Untouched(d1, d, key2)
    ensures PairAssigned(data, d, key1, key2, m)
  {
  }

  /** Two keys assigned from a match against a record that still had them as `data` had
      them are assigned against `data`. */
  lemma PairAssignedFrom(data: Record, d1: Record, d: Record, key1: string, key2: string,
                         m: Option<(string, string)>)
    requires Untouched(data, d1, key1) && Untouched(data, d1, key2) && PairAssigned(d1, d, key1, key2, m)
    ensures PairAssigned(data, d, key1, key2, m)
  {
  }

  /** A contact set against a record that still had the key as `data` had it is set
      against `data`. */
  lemma ContactThrough(data: Record, d2: Record, d: Record, key: string, s: string,
                       phone: string -> Option<string>, contact: string -> Option<string>)
    requires Untouched(data, d2, key) && ContactSet(d2, d, key, s, phone, contact)
    ensures ContactSet(data, d, key, s, phone, contact)
  {
  }

  /** The buyer's fields of `extract_for_type_1`, from the upper zone. */
  function Type1Buyer(data: Record, s1: string, pat: Patterns): (d: Record)
    ensures forall k :: k in data && k != "buyer" && k != "buyer_id" && k != "buyer_contact" ==> k in d && d[k] == data[k]
    ensures forall k :: k in d && k != "buyer" && k != "buyer_id" && k != "buyer_contact" ==> k in data
    ensures Assigned(data, d, "buyer", pat.buyerName(s1))
    ensures Assigned(data, d, "buyer_id", pat.buyerId(s1))
    ensures ContactSet(data, d, "buyer_contact", s1, pat.phone, pat.maskedContact)
  {
    assert "buyer" != "buyer_id" && "buyer" != "buyer_contact" && "buyer_id" != "buyer_contact";
    var d1 := SetIf(data, "buyer", pat.buyerName(s1));
    var d2 := SetIf(d1, "buyer_id", pat.buyerId(s1));
    var d3 := ContactField(d2, "buyer_contact", s1, pat.phone, pat.maskedContact);
    FrameThrough(data, d1, d2, d3, "buyer", "buyer", "buyer_id", "buyer_contact");
    AssignedThrough(data, d1, d3, "buyer", pat.buyerName(s1));
    AssignedThrough(data, d2, d3, "buyer_id", pat.buyerId(s1));
    ContactThrough(data, d2, d3, "buyer_contact", s1, pat.phone, pat.maskedContact);
    d3
  }

  /** The seller's fields of `extract_for_type_1`, from the lower zone. */
  function Type1Seller(data: Record, s3: string, pat: Patterns): (d: Record)
    ensures forall k :: k in data && k != "seller" && k != "order_number" && k != "seller_id" && k != "seller_contact" ==> k in d && d[k] == data[k]
    ensures forall k :: k in d && k != "seller" && k != "order_number" && k != "seller_id" && k != "seller_contact" ==> k in data
    ensures PairAssigned(data, d, "seller", "order_number", pat.sellerNameOrder(s3))
    ensures Assigned(data, d, "seller_id", pat.sellerId(s3))
    ensures ContactSet(data, d, "seller_contact", s3, pat.phone, pat.contact)
  {
    assert "seller" != "order_number" && "seller" != "seller_id" && "seller" != "seller_contact";
    assert "order_number" != "seller_id" && "order_number" != "seller_contact" && "seller_id" != "seller_contact";
    var d1 := SetPair(data, "seller", "order_number", pat.sellerNameOrder(s3));
    var d2 := SetIf(d1, "seller_id", pat.sellerId(s3));
    var d3 := ContactField(d2, "seller_contact", s3, pat.phone, pat.contact);
    FrameThrough(data, d1, d2, d3, "seller", "order_number", "seller_id", "seller_contact");
    PairAssignedThrough(data, d1, d3, "seller", "order_number", pat.sellerNameOrder(s3));
    AssignedThrough(data, d2, d3, "seller_id", pat.sellerId(s3));
    ContactThrough(data, d2, d3, "seller_contact", s3, pat.phone, pat.contact);
    d3
  }

  /** The party fields of a type-1 invoice are neither `code` nor `number`. */
  lemma PartyKeysDistinct()
    ensures "code" != "buyer" && "code" != "buyer_id" && "code" != "buyer_contact"
    ensures "number" != "buyer" && "number" != "buyer_id" && "number" != "buyer_contact"
    ensures "code" != "seller" && "code" != "order_number" && "code" != "seller_id" && "code" != "seller_contact"
    ensures "number" != "seller" && "number" != "order_number" && "number" != "seller_id" && "number" != "seller_contact"
    ensures "number" != "code"
  {
    assert "number"[0] != "seller"[0];
  }

  /** The field assignments of `extract_for_type_1` before `uid`. */
  function Type1Assignments(data: Record, s1: string, s3: string, pat: Patterns): (d: Record)
    ensures "code" in d <==> "code" in data || pat.code(s1).Some?
    ensures "code" in d ==> d["code"] == SetIf(data, "code", pat.code(s1))["code"]
    ensures "number" in d <==> "number" in data
    ensures "number" in d ==> d["number"] == data["number"]
  {
    PartyKeysDistinct();
    var d0 := SetIf(data, "code", pat.code(s1));
    var d1 := Type1Buyer(d0, s1, pat);
    var d2 := Type1Seller(d1, s3, pat);
    assert "code" in d2 <==> "code" in d1;
    assert "code" in d1 <==> "code" in d0;
    assert "number" in d2 <==> "number" in d1;
    assert "number" in d1 <==> "number" in d0;
    d2
  }

  /** `data["uid"] = data["code"] + data["number"]`, with Python's lookup and `+` errors. */
  function Type1Uid(d: Record): (r: Result<Record>)
    ensures r.Ok? <==> "code" in d && "number" in d && (d["code"].Str? <==> d["number"].Str?)
    ensures r.Ok? ==> "uid" in r.value && Add(d["code"], d["number"]) == Ok(r.value["uid"])
    ensures r.Ok? ==> forall k :: k in d && k != "uid" ==> k in r.value && r.value[k] == d[k]
    ensures "code" !in d ==> r == Err(KeyError("code"))
  {
    if "code" !in d then Err(KeyError("code"))
    else if "number" !in d then Err(KeyError("number"))
    else match Add(d["code"], d["number"])
      case Err(e) => Err(e)
      case Ok(v) => Ok(d["uid" := v])
  }

  /** `extract_for_type_1`. */
  function Type1Fields(data: Record, s1: string, s3: string, pat: Patterns): (r: Result<Record>)
    ensures r.Ok? ==> "uid" in r.value
  {
    Type1Uid(Type1Assignments(data, s1, s3, pat))
  }

  /** For a type-1 invoice whose record has no code yet and a textual number if any, `uid`
      is the code followed by the number, and a missing code or number is a KeyError. */
  lemma Type1UidLaw(data: Record, s1: string, s3: string, pat: Patterns)
    requires "code" !in data
    requires "number" in data ==> data["number"].Str?
    ensures Type1Fields(data, s1, s3, pat).Ok? <==> pat.code(s1).Some? && "number" in data
    ensures pat.code(s1).None? ==> Type1Fields(data, s1, s3, pat) == Err(KeyError("code"))
    ensures Type1Fields(data, s1, s3, pat).Ok? ==>
      Type1Fields(data, s1, s3, pat).value["uid"] == Str(pat.code(s1).value + data["number"].s)
  {
    var d := Type1Assignments(data, s1, s3, pat);
    if pat.code(s1).Some? {
      assert d["code"] == Str(pat.code(s1).value);
    }
  }

  /** Both tax ids from the one capture group of `type2_pattern_ids`, when it matches. */
  function SetIds(data: Record, m: Option<(string, string)>): (d: Record)
    ensures forall k :: k in data && k != "buyer_id" && k != "seller_id" ==> k in d && d[k] == data[k]
    ensures forall k :: k in d && k != "buyer_id" && k != "seller_id" ==> k in data
    ensures m.Some? ==> "buyer_id" in d && "seller_id" in d && d["buyer_id"] == Str(m.value.0) && d["seller_id"] == Str(m.value.0)
    ensures m.None? ==> Untouched(data, d, "buyer_id") && Untouched(data, d, "seller_id")
  {
    match m
    case Some(v) => data["buyer_id" := Str(v.0)]["seller_id" := Str(v.0)]
    case None => data
  }

  /** The fields `extract_for_type_2` sets before the tax ids: `code` and `order_number`
      are "-", and the two party names come from one match. */
  function Type2Names(data: Record, s1: string, pat: Patterns): (d: Record)
    ensures Untouched(data, d, "number") && Untouched(data, d, "buyer_id") && Untouched(data, d, "seller_id")
    ensures "code" in d && d["code"] == Str("-") && "order_number" in d && d["order_number"] == Str("-")
    ensures PairAssigned(data, d, "buyer", "seller", pat.partyNames(s1))
  {
    var d1 := data["code" := Str("-")]["order_number" := Str("-")];
    match pat.partyNames(s1)
    case Some(v) => d1["buyer" := Str(v.0)]["seller" := Str(v.1)]
    case None => d1
  }

  /** The fields `extract_for_type_2` sets before `uid`. */
  function Type2Assignments(data: Record, s1: string, pat: Patterns): (d: Record)
    ensures "number" in d <==> "number" in data
    ensures "number" in d ==> d["number"] == data["number"]
    ensures "code" in d && d["code"] == Str("-") && "order_number" in d && d["order_number"] == Str("-")
    ensures pat.partyIds(s1).Some? ==>
      "buyer_id" in d && "seller_id" in d && d["seller_id"] == d["buyer_id"] == Str(pat.partyIds(s1).value.0)
    ensures pat.partyIds(s1).None? ==> Untouched(data, d, "buyer_id") && Untouched(data, d, "seller_id")
    ensures PairAssigned(data, d, "buyer", "seller", pat.partyNames(s1))
  {
    var d2 := Type2Names(data, s1, pat);
    var d := SetIds(d2, pat.partyIds(s1));
    assert "number" != "buyer_id" && "number" != "seller_id" && "code" != "buyer_id" && "code" != "seller_id";
    assert "order_number" != "buyer_id" && "order_number" != "seller_id";
    assert "buyer" != "buyer_id" && "buyer" != "seller_id" && "seller" != "buyer_id" && "seller" != "seller_id";
    PairAssignedThrough(data, d2, d, "buyer", "seller", pat.partyNames(s1));
    d
  }

  /** `extract_for_type_2`: `code` and `order_number` are "-", the seller's tax id is taken
      from the buyer's capture group, and `uid` is the number. */
  function Type2Fields(data: Record, s1: string, pat: Patterns): (r: Result<Record>)
    ensures r.Ok? <==> "number" in data
    ensures "number" !in data ==> r == Err(KeyError("number"))
    ensures r.Ok? ==> "uid" in r.value && r.value["uid"] == data["number"]
    ensures r.Ok? ==> "code" in r.value && r.value["code"] == Str("-")
    ensures r.Ok? ==> "order_number" in r.value && r.value["order_number"] == Str("-")
    ensures r.Ok? && pat.partyIds(s1).Some? ==> ("buyer_id" in r.value && "seller_id" in r.value &&
      r.value["seller_id"] == r.value["buyer_id"] == Str(pat.partyIds(s1).value.0))
    ensures r.Ok? ==> "number" in r.value && r.value["number"] == data["number"]
    ensures r.Ok? ==> PairAssigned(data, r.value, "buyer", "seller", pat.partyNames(s1))
  {
    var d := Type2Assignments(data, s1, pat);
    if "number" !in d then Err(KeyError("number")) else Ok(d["uid" := d["number"]])
  }

  /** `getattr(self, f"extract_for_type_{type}")()` */
  function TypeFields(kind: int, data: Record, s1: string, s3: string, pat: Patterns): (r: Result<Record>)
    ensures kind != 1 && kind != 2 ==> r == Err(AttributeError)
    ensures r.Ok? ==> (kind == 1 || kind == 2) && "uid" in r.value
  {
    if kind == 1 then Type1Fields(data, s1, s3, pat)
    else if kind == 2 then Type2Fields(data, s1, pat)
    else Err(AttributeError)
  }

  // ---------------------------------------------------------------------------
  // parse

  /** What `parse` leaves in the extractor when it succeeds. */
  datatype Parsed = Parsed(data: Record, itemHeaders: seq<string>, zones: Zones)

  /** The three accumulated zone texts `s1`, `s2`, `s3`. */
  datatype Zones = Zones(s1: string, s2: string, s3: string)

  /** The accumulators after the zone loop: each zone's text appended to what it held. */
  function Appended(acc: Zones, mainLines: seq<TextLine>, headerTop: real, totalTop: real): Zones
  {
    Zones(acc.s1 + ZoneText(mainLines, headerTop, totalTop, Above),
          acc.s2 + ZoneText(mainLines, headerTop, totalTop, Between),
          acc.s3 + ZoneText(mainLines, headerTop, totalTop, Below))
  }

  /** The record fields `parse` fills once the anchors are found: the total, the common
      fields and the type's own fields. */
  function Fields(data: Record, kind: int, total: TextLine, tol: real, s1: string, s3: string, pat: Patterns): (r: Result<Record>)
    ensures TotalFields(data, total, tol, pat).Err? ==> r == Err(TotalFields(data, total, tol, pat).error)
    ensures r.Ok? ==> (kind == 1 || kind == 2) && "uid" in r.value
  {
    match TotalFields(data, total, tol, pat)
    case Err(e) => Err(e)
    case Ok(d1) => TypeFields(kind, CommonFields(d1, s1, pat), s1, s3, pat)
  }

  /** The `uid` of a filled record: code followed by number for type 1; the number, with
      "-" as code and order number, for type 2. */
  ghost predicate UidLaw(kind: int, r: Record)
  {
    && (kind == 1 ==>
         "code" in r && "number" in r && r["code"].Str? && r["number"].Str? &&
         "uid" in r && r["uid"] == Str(r["code"].s + r["number"].s))
    && (kind == 2 ==>
         "number" in r && "uid" in r && r["uid"] == r["number"] &&
         "code" in r && r["code"] == Str("-") && "order_number" in r && r["order_number"] == Str("-"))
  }

  /** Starting from a record without code or number, a filled type-1 record has `uid` equal
      to its code followed by its number, and a type-2 record has the number as `uid` and
      "-" as code and order number. */
  lemma FieldsUid(data: Record, kind: int, total: TextLine, tol: real, s1: string, s3: string, pat: Patterns)
    requires "code" !in data && "number" !in data
    requires Fields(data, kind, total, tol, s1, s3, pat).Ok?
    ensures kind == 1 || kind == 2
    ensures UidLaw(kind, Fields(data, kind, total, tol, s1, s3, pat).value)
  {
    var d1 := TotalFields(data, total, tol, pat).value;
    var d2 := CommonFields(d1, s1, pat);
    assert "code" !in d1 && "number" !in d1 by {
      assert "code" != "total_zh" && "code" != "total";
      assert "number" != "total_zh" && "number" != "total";
    }
    assert "code" !in d2 by {
      assert "code" != "number" && "code" != "date";
    }
    if kind == 1 {
      var a := Type1Assignments(d2, s1, s3, pat);
      assert "code" in a ==> a["code"] == Str(pat.code(s1).value);
      assert "number" in a ==> a["number"] == Str(pat.number(s1).value);
    }
  }

  /** `parse` once page 0 is merged: find the header (first) and the total anchors, split
      the header into words, then fill the record from the total line and the zones. The
      header words are split before the total is searched for. */
  function ParseLines(data: Record, kind: int, conf: TypeProfile, acc: Zones, mainLines: seq<TextLine>,
                      later: seq<seq<TextLine>>, pat: Patterns): Result<Parsed>
  {
    match Find(mainLines, IsHeaderLine)
    case None => Err(AssertionError)
    case Some(header) =>
      match WordsOf(header.chars, conf.headerXTolerance)
      case Err(e) => Err(e)
      case Ok(ws) =>
        match TotalAnchor(mainLines, later, conf.lineYTolerance)
        case None => Err(AssertionError)
        case Some(total) =>
          var z := Appended(acc, mainLines, header.top, total.top);
          match Fields(data, kind, total, conf.totalXTolerance, z.s1, z.s3, pat)
          case Err(e) => Err(e)
          case Ok(d) => Ok(Parsed(d, WordTexts(ws), z))
  }

  /** `parse`: page 0 merged with the type's line tolerance; no page is an IndexError. */
  function Parse(data: Record, kind: int, conf: TypeProfile, acc: Zones, pages: seq<seq<TextLine>>, pat: Patterns): Result<Parsed>
  {
    if pages == [] then Err(IndexError)
    else ParseLines(data, kind, conf, acc, MergedLines(pages[0], conf.lineYTolerance), pages[1..], pat)
  }

  /** The record `__enter__` and `parse` build before `parse` starts: path, file name and
      the inferred type. */
  function Entered(path: string, t: (int, string)): (d: Record)
    ensures "code" !in d && "number" !in d
  {
    InitialData(path)["type" := Int(t.0)]["type_desc" := Str(t.1)]
  }

  /** `__enter__` then `parse`, as `extract_info` runs them on one file. */
  function Extraction(path: string, pages: seq<seq<TextLine>>, pat: Patterns): Result<Record>
  {
    if pages == [] then Err(IndexError)
    else match Classify(pages[0], pat)
      case Err(e) => Err(e)
      case Ok(t) =>
        match TypeConf(t.0)
        case None => Err(TypeError)
        case Some(conf) =>
          match Parse(Entered(path, t), t.0, conf, Zones("", "", ""), pages, pat)
          case Err(e) => Err(e)
          case Ok(p) => Ok(p.data)
  }

  /** The uid law of `Fields`, carried through `parse`. */
  lemma ParseUid(data: Record, kind: int, conf: TypeProfile, acc: Zones, pages: seq<seq<TextLine>>, pat: Patterns)
    requires "code" !in data && "number" !in data
    requires Parse(data, kind, conf, acc, pages, pat).Ok?
    ensures UidLaw(kind, Parse(data, kind, conf, acc, pages, pat).value.data)
  {
    var mainLines := MergedLines(pages[0], conf.lineYTolerance);
    var header := Find(mainLines, IsHeaderLine).value;
    var total := TotalAnchor(mainLines, pages[1..], conf.lineYTolerance).value;
    var z := Appended(acc, mainLines, header.top, total.top);
    assert Parse(data, kind, conf, acc, pages, pat) == ParseLines(data, kind, conf, acc, mainLines, pages[1..], pat);
    assert ParseLines(data, kind, conf, acc, mainLines, pages[1..], pat).value.data ==
      Fields(data, kind, total, conf.totalXTolerance, z.s1, z.s3, pat).value;
    FieldsUid(data, kind, total, conf.totalXTolerance, z.s1, z.s3, pat);
  }

  /** An extracted record's `uid` follows the type that `infer_type` found: code followed
      by number for type 1; the number, with "-" as code and order number, for type 2. */
  lemma ExtractionUid(path: string, pages: seq<seq<TextLine>>, pat: Patterns)
    requires Extraction(path, pages, pat).Ok?
    ensures pages != [] && Classify(pages[0], pat).Ok?
    ensures UidLaw(Classify(pages[0], pat).value.0, Extraction(path, pages, pat).value)
  {
    var t := Classify(pages[0], pat).value;
    var conf := TypeConf(t.0).value;
    ParseUid(Entered(path, t), t.0, conf, Zones("", "", ""), pages, pat);
  }

  // ---------------------------------------------------------------------------
  // the extractor object

  /** What `parse` does when the profile may be missing: `type_conf[...]` on None raises
      TypeError before anything else. */
  function ParseWith(data: Record, kind: int, conf: Option<TypeProfile>, acc: Zones, pages: seq<seq<TextLine>>, pat: Patterns): (r: Result<Parsed>)
    ensures conf.None? ==> r == Err(TypeError)
    ensures conf.Some? && pages == [] ==> r == Err(IndexError)
  {
    match conf
    case None => Err(TypeError)
    case Some(c) => Parse(data, kind, c, acc, pages, pat)
  }

  /** One invoice being extracted: the record it fills, the inferred type and profile, the
      header words and the three zone texts of page 0. */
  class Extractor {
    const path: string
    const pat: Patterns
    var pages: seq<seq<TextLine>>
    var data: Record
    var kind: int
    var conf: Option<TypeProfile>
    var itemHeaders: seq<string>
    var s1: string
    var s2: string
    var s3: string

    /** `__init__`: the record starts with the path and the file name; the zones are empty. */
    constructor (path: string, pat: Patterns)
      ensures this.path == path && this.pat == pat
      ensures data == InitialData(path)
      ensures pages == [] && itemHeaders == [] && s1 == [] && s2 == [] && s3 == []
    {
      this.path := path;
      this.pat := pat;
      pages := [];
      data := map["path" := Str(path), "file" := Str(Basename(path))];
      kind := 0;
      conf := None;
      itemHeaders := [];
      s1, s2, s3 := [], [], [];
    }

    /** `infer_type`: scan the raw lines of page 0 until one settles the type. With none, the
        result is whatever `type` the record already holds. */
    method InferType() returns (r: Result<Value>)
      modifies this`data
      ensures pages == [] ==> r == Err(IndexError) && data == old(data)
      ensures pages != [] ==> match Classify(pages[0], pat)
        case Ok(t) => r == Ok(Int(t.0)) && data == old(data)["type" := Int(t.0)]["type_desc" := Str(t.1)]
        case Err(AttributeError) => r == Err(AttributeError) && data == old(data)["type" := Int(1)]
        case Err(_) => (data == old(data) &&
          r == (if "type" in old(data) then Ok(old(data)["type"]) else Err(KeyError("type"))))
    {
      if pages == [] {
        return Err(IndexError);
      }
      var lines := pages[0];
      var i := 0;
      while i < |lines|
        invariant 0 <= i <= |lines|
        invariant data == old(data)
        invariant Classify(lines, pat) == Classify(lines[i..], pat)
      {
        var text := lines[i].text;
        assert lines[i..][0] == lines[i] && lines[i..][1..] == lines[i + 1..];
        if Contains(text, TYPE1_MARKER) {
          var mt := pat.typeDesc(text);
          data := data["type" := Int(1)];
          if mt.None? {
            return Err(AttributeError);
          }
          data := data["type_desc" := Str(mt.value)];
          return Ok(Int(1));
        } else if Contains(text, GENERAL_MARKER) {
          if pat.electronicGeneral(text) {
            data := data["type" := Int(2)]["type_desc" := Str(TYPE2_DESC)];
            return Ok(Int(2));
          }
        }
        i := i + 1;
      }
      if "type" !in data {
        return Err(KeyError("type"));
      }
      return Ok(data["type"]);
    }

    /** `__enter__`: open the pages, infer the type and look up its profile. */
    method Enter(pages: seq<seq<TextLine>>) returns (err: Option<Error>)
      requires "type" !in data
      modifies this`pages, this`data, this`kind, this`conf
      ensures this.pages == pages
      ensures pages == [] ==> err == Some(IndexError)
      ensures pages != [] ==> match Classify(pages[0], pat)
        case Ok(t) => err == None && kind == t.0 && conf == TypeConf(t.0) &&
          data == old(data)["type" := Int(t.0)]["type_desc" := Str(t.1)]
        case Err(e) => err == Some(e)
    {
      this.pages := pages;
      var r := InferType();
      match r
      case Err(e) =>
        return Some(e);
      case Ok(v) =>
        kind := v.i;
        conf := TypeConf(kind);
        return None;
    }

    /** `parse_header_line`: the texts of the header line's words. */
    method ParseHeaderLine(line: TextLine, tol: real) returns (err: Option<Error>)
      modifies this`itemHeaders
      ensures match WordsOf(line.chars, tol)
        case Err(e) => err == Some(e) && itemHeaders == old(itemHeaders)
        case Ok(ws) => err == None && itemHeaders == WordTexts(ws)
    {
      var groups := MergeLineChars(line.chars, tol);
      match groups
      case Err(e) =>
        return Some(e);
      case Ok(ws) =>
        itemHeaders := seq(|ws|, k requires 0 <= k < |ws| => ws[k].text);
        return None;
    }

    /** The total anchor of `parse`: page 0's lines first, then each later page in turn,
        stopping at the first page with a total line. */
    method FindTotalLine(mainLines: seq<TextLine>, tol: real) returns (total: Option<TextLine>)
      requires pages != []
      ensures total == TotalAnchor(mainLines, pages[1..], tol)
    {
      total := Find(mainLines, IsTotalLine);
      if total.Some? {
        return;
      }
      ghost var later := pages[1..];
      var p := 1;
      while p < |pages|
        invariant 1 <= p <= |pages|
        invariant FirstSome(later, PageTotalAt(tol)) == FirstSome(later[p - 1..], PageTotalAt(tol))
        invariant total.None?
      {
        var lines := MergeLines(pages[p], tol);
        total := Find(lines, IsTotalLine);
        assert later[p - 1..][0] == pages[p] && later[p - 1..][1..] == later[p..];
        assert PageTotalAt(tol)(pages[p]) == total;
        if total.Some? {
          return;
        }
        p := p + 1;
      }
      assert later[p - 1..] == [];
    }

    /** `parse_total_line`: `total_zh` and `total` from the words of the total line. */
    method ParseTotalLine(line: TextLine, tol: real) returns (err: Option<Error>)
      modifies this`data
      ensures match TotalFields(old(data), line, tol, pat)
        case Err(e) => err == Some(e)
        case Ok(d) => err == None && data == d
    {
      var groups := MergeLineChars(line.chars, tol);
      if groups.Err? {
        return Some(groups.error);
      }
      var text := Flatten(WordTexts(groups.value));
      var mt := pat.totalAmounts(text);
      if mt.Some? {
        data := data["total_zh" := Str(mt.value.0)];
        var x := pat.toFloat(mt.value.1);
        if x.None? {
          return Some(ValueError(mt.value.1));
        }
        data := data["total" := Float(x.value)];
      }
      return None;
    }

    /** The zone loop of `parse`: each page-0 line's text goes to `s1`, `s2` or `s3`, or
        nowhere, by the `if`/`elif` chain. */
    method SplitZones(mainLines: seq<TextLine>, header: TextLine, total: TextLine)
      modifies this`s1, this`s2, this`s3
      ensures s1 == old(s1) + ZoneText(mainLines, header.top, total.top, Above)
      ensures s2 == old(s2) + ZoneText(mainLines, header.top, total.top, Between)
      ensures s3 == old(s3) + ZoneText(mainLines, header.top, total.top, Below)
    {
      var i := 0;
      while i < |mainLines|
        invariant 0 <= i <= |mainLines|
        invariant s1 == old(s1) + ZoneText(mainLines[..i], header.top, total.top, Above)
        invariant s2 == old(s2) + ZoneText(mainLines[..i], header.top, total.top, Between)
        invariant s3 == old(s3) + ZoneText(mainLines[..i], header.top, total.top, Below)
      {
        var line := mainLines[i];
        ZoneStep(mainLines, i, header.top, total.top, Above);
        ZoneStep(mainLines, i, header.top, total.top, Between);
        ZoneStep(mainLines, i, header.top, total.top, Below);
        if line.bottom < header.top {
          ConcatAssoc(old(s1), ZoneText(mainLines[..i], header.top, total.top, Above), line.text + "\n");
          s1 := s1 + (line.text + "\n");
        } else if header.top < line.bottom < total.top {
          ConcatAssoc(old(s2), ZoneText(mainLines[..i], header.top, total.top, Between), line.text + "\n");
          s2 := s2 + (line.text + "\n");
        } else if line.bottom > header.top {
          ConcatAssoc(old(s3), ZoneText(mainLines[..i], header.top, total.top, Below), line.text + "\n");
          s3 := s3 + (line.text + "\n");
        }
        i := i + 1;
      }
      assert mainLines[..i] == mainLines;
    }

    /** `extract_common` */
    method ExtractCommon()
      modifies this`data
      ensures data == CommonFields(old(data), s1, pat)
    {
      var mt := pat.number(s1);
      if mt.Some? {
        data := data["number" := Str(mt.value)];
      }
      var dt := pat.date(s1);
      if dt.Some? {
        data := data["date" := Str(dt.value.0 + dt.value.1 + dt.value.2)];
      }
    }

    /** The buyer's part of `extract_for_type_1`. */
    method ExtractBuyer()
      modifies this`data
      ensures data == Type1Buyer(old(data), s1, pat)
    {
      data := SetIf(data, "buyer", pat.buyerName(s1));
      data := SetIf(data, "buyer_id", pat.buyerId(s1));
      var rs := pat.phone(s1);
      if rs.Some? {
        var m := pat.maskedContact(rs.value);
        if m.Some? {
          data := data["buyer_contact" := Str(m.value)];
        }
      } else {
        data := data["buyer_contact" := Str("-")];
      }
    }

    /** The seller's part of `extract_for_type_1`. */
    method ExtractSeller()
      modifies this`data
      ensures data == Type1Seller(old(data), s3, pat)
    {
      data := SetPair(data, "seller", "order_number", pat.sellerNameOrder(s3));
      data := SetIf(data, "seller_id", pat.sellerId(s3));
      var rs := pat.phone(s3);
      if rs.Some? {
        var m := pat.contact(rs.value);
        if m.Some? {
          data := data["seller_contact" := Str(m.value)];
        }
      } else {
        data := data["seller_contact" := Str("-")];
      }
    }

    /** `extract_for_type_1` */
    method ExtractForType1() returns (err: Option<Error>)
      modifies this`data
      ensures match Type1Fields(old(data), s1, s3, pat)
        case Err(e) => err == Some(e)
        case Ok(d) => err == None && data == d
    {
      ghost var filled := Type1Assignments(data, s1, s3, pat);
      data := SetIf(data, "code", pat.code(s1));
      ExtractBuyer();
      ExtractSeller();
      assert data == filled;
      err := AssignUid();
    }

    /** The last line of `extract_for_type_1`: `uid` from code and number. */
    method AssignUid() returns (err: Option<Error>)
      modifies this`data
      ensures match Type1Uid(old(data))
        case Err(e) => err == Some(e)
        case Ok(d) => err == None && data == d
    {
      if "code" !in data {
        return Some(KeyError("code"));
      }
      if "number" !in data {
        return Some(KeyError("number"));
      }
      var uid := Add(data["code"], data["number"]);
      if uid.Err? {
        return Some(uid.error);
      }
      data := data["uid" := uid.value];
      return None;
    }

    /** `extract_for_type_2` */
    method ExtractForType2() returns (err: Option<Error>)
      modifies this`data
      ensures match Type2Fields(old(data), s1, pat)
        case Err(e) => err == Some(e)
        case Ok(d) => err == None && data == d
    {
      data := data["code" := Str("-")];
      data := data["order_number" := Str("-")];
      data := SetPair(data, "buyer", "seller", pat.partyNames(s1));
      var mt := pat.partyIds(s1);
      if mt.Some? {
        data := data["buyer_id" := Str(mt.value.0)];
        data := data["seller_id" := Str(mt.value.0)];
      }
      if "number" !in data {
        return Some(KeyError("number"));
      }
      data := data["uid" := data["number"]];
      return None;
    }

    /** The part of `parse` after the anchors: total fields, zone loop, common fields and
        the type's own fields. */
    method Fill(mainLines: seq<TextLine>, header: TextLine, total: TextLine, c: TypeProfile) returns (err: Option<Error>)
      modifies this`data, this`s1, this`s2, this`s3
      ensures var z := Appended(Zones(old(s1), old(s2), old(s3)), mainLines, header.top, total.top);
        match Fields(old(data), kind, total, c.totalXTolerance, z.s1, z.s3, pat)
        case Err(e) => err == Some(e)
        case Ok(d) => err == None && data == d && s1 == z.s1 && s2 == z.s2 && s3 == z.s3
    {
      err := ParseTotalLine(total, c.totalXTolerance);
      if err.Some? {
        return;
      }
      SplitZones(mainLines, header, total);
      ExtractCommon();
      if kind == 1 {
        err := ExtractForType1();
      } else if kind == 2 {
        err := ExtractForType2();
      } else {
        err := Some(AttributeError);
      }
    }

    /** `parse` once page 0 is merged: the anchors, the header words, then `Fill`.
        `ParseLines` is its specification; this method mutates the fields in the source's
        order. */
    method ParseMain(mainLines: seq<TextLine>, c: TypeProfile) returns (r: Result<Record>)
      requires pages != []
      modifies this`data, this`itemHeaders, this`s1, this`s2, this`s3
      ensures match ParseLines(old(data), kind, c, Zones(old(s1), old(s2), old(s3)), mainLines, pages[1..], pat)
        case Err(e) => r == Err(e)
        case Ok(p) => (r == Ok(p.data) && data == p.data && itemHeaders == p.itemHeaders &&
          s1 == p.zones.s1 && s2 == p.zones.s2 && s3 == p.zones.s3)
    {
      ghost var spec := ParseLines(data, kind, c, Zones(s1, s2, s3), mainLines, pages[1..], pat);
      var header := Find(mainLines, IsHeaderLine);
      if header.None? {
        assert spec == Err(AssertionError);
        return Err(AssertionError);
      }
      var err := ParseHeaderLine(header.value, c.headerXTolerance);
      if err.Some? {
        assert spec == Err(err.value);
        return Err(err.value);
      }
      var total := FindTotalLine(mainLines, c.lineYTolerance);
      if total.None? {
        assert spec == Err(AssertionError);
        return Err(AssertionError);
      }
      ghost var z := Appended(Zones(old(s1), old(s2), old(s3)), mainLines, header.value.top, total.value.top);
      ghost var fields := Fields(old(data), kind, total.value, c.totalXTolerance, z.s1, z.s3, pat);
      assert spec == (match fields
        case Err(e) => Err(e)
        case Ok(d) => Ok(Parsed(d, itemHeaders, z)));
      err := Fill(mainLines, header.value, total.value, c);
      if err.Some? {
        return Err(err.value);
      }
      return Ok(data);
    }

    /** `parse`: on success the record, the header words and the zone texts are those of
        the specification, the zone texts appended to what the accumulators held. */
    method Parse() returns (r: Result<Record>)
      modifies this`data, this`itemHeaders, this`s1, this`s2, this`s3
      ensures match ParseWith(old(data), kind, conf, Zones(old(s1), old(s2), old(s3)), pages, pat)
        case Err(e) => r == Err(e)
        case Ok(p) => (r == Ok(p.data) && data == p.data && itemHeaders == p.itemHeaders &&
          s1 == p.zones.s1 && s2 == p.zones.s2 && s3 == p.zones.s3)
    {
      if conf.None? {
        return Err(TypeError);
      }
      var c := conf.value;
      if pages == [] {
        return Err(IndexError);
      }
      var mainLines := MergeLines(pages[0], c.lineYTolerance);
      r := ParseMain(mainLines, c);
    }
  }

  /** `extract_info`: open the file, infer its type, parse it. */
  method ExtractInfo(path: string, pages: seq<seq<TextLine>>, pat: Patterns) returns (r: Result<Record>)
    ensures r == Extraction(path, pages, pat)
  {
    var x := new Extractor(path, pat);
    var err := x.Enter(pages);
    if err.Some? {
      return Err(err.value);
    }
    r := x.Parse();
  }
}
