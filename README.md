# fapiao — a verified model of the invoice extractor and its batch driver

`fapiao` reads Chinese electronic invoices (PDF) from a directory. It tabulates them and totals their amounts.
This project models two parts of it in Dafny and proves their laws.

- **The layout logic of `extractor.py`.** It merges fragment lines into logical lines (`merge_lines`) and splits a line's glyphs into words (`merge_line_chars`). `parse` finds the header and total anchors and splits page 0 into three text zones. `infer_type` settles the invoice type and `get_type_conf` gives its tolerances. `extract_for_type_1/2` assign the fields, including `uid` and the `"-"` defaults.
- **The batch logic of `main.py`.** It uses the cache or extracts each file, filters the records with `query` and flags repeated invoice numbers. It prunes the cache, sorts (reversed for a trailing `-`) and lays out the table cells. `getk` looks up a unique key.

Modules, one file each:

- `Common` (`common.dfy`): Option, Result and the Python error kinds; `find` (`Find`); substring search (`Contains`); `str.split(c, 1)` (`Split1`).
- `Sorting` (`sorting.dfy`): Python's `<` on numbers and strings, and `sorted(key=...)` as a stable insertion sort. It is proved sorted, a permutation and stable.
- `Records` (`records.dfy`): the record as a map from field names to Python values; truthiness; Python `+`.
- `Layout` (`layout.dfy`): `merge_line_chars` and `merge_lines`.
  - Each is a pure specification function (`WordsOf`, `MergedLines`) plus a method with the source's loops, proved equal to it.
  - The laws are lemmas about the specification functions.
- `Extractor` (`extractor.dfy`): the `Extractor` class.
  - Its fields are what the source mutates: `data`, the zone strings `s1`/`s2`/`s3`, `item_headers`, the type and its profile.
  - Methods follow the source's methods. Each is proved against a specification function: `Classify`, `ParseLines`, `Fields`, `Type1Fields`, `Type2Fields`, `Extraction`.
- `Batch` (`batch.dfy`): `getk`, `query` and the body of `main`.
  - The loop is `Collect`, specified by the fold `Scan`.
  - The rest of `main` is `Prune`, `SortRecords` and `TableRows`, with `Run` putting it together.

What the model takes as inputs:

- **Label regexes.** They become the matchers of `Extractor.Patterns`; each yields the capture groups of the first match, or nothing. The substring tests (`"税率" in text`, `"普通发票" in text`, `k in i`, `v in data[k]`) are modelled exactly.
- **Pages.** PDF pages arrive as sequences of fragment lines with real coordinates.
- **`extract_info`.** In the batch it is the parameter `extract`. `Extractor.ExtractInfo` models it for one file.
- **The listed files and the cache.** They are the parameters `files` and `cache` of `Batch.Run`.
- **`int(v)` and the rounded float comparison.** They are the abstract `Batch.Conversions`.

## Model

| member | source | states |
|---|---|---|
| `Common.Find` | extractor.py:9-13 | Returns the first element satisfying the predicate: None iff no element does, otherwise an element at some index with no earlier match |
| `Common.FirstIndex` | extractor.py:9-13 | The index form of `find`: the first position satisfying the predicate, None iff there is none |
| `Common.ContainsAt` | main.py:38 | The recursive substring test agrees with "`sub` occurs as a contiguous slice of `s` at some position" |
| `Common.Split1` | main.py:37 | `cond.split(c, 1)`: the two parts and `c` rebuild `cond`, and the first part does not contain `c` |
| `Sorting.LessIsStrictTotalOrder` | main.py:128 | The `<` that `sorted` uses (numbers among themselves, strings lexicographically) is irreflexive, transitive and total |
| `Sorting.SortBy` | main.py:128 | `sorted(records, key=...)` returns a permutation of its input |
| `Sorting.SortBySorted` | main.py:128 | The sorted sequence has no later element with a key smaller than an earlier one |
| `Sorting.SortByStable` | main.py:128 | Python's sort is stable: the elements sharing a key keep their input order |
| `Records.Add` | main.py:113 | Python `+`: defined iff both operands are strings or both numbers; two strings concatenate |
| `Records.KeyOf` | main.py:128 | A record value's sort key is textual exactly when the value is a string |
| `Layout.MergeLineChars` | extractor.py:217-241 | The method with the source's two loops returns exactly `WordsOf(chars, tol)`, including the IndexError cases |
| `Layout.GroupChars` | extractor.py:219-229 | The first loop (`prev_x1`, `lst`, `char_groups`) yields `Grouping(chars, chars[0].x1, tol)` |
| `Layout.Grouping` | extractor.py:217-241 | The groups of the first loop of `merge_line_chars`, given by its body: glyphs in order, a new group where the gap from `prev_x1` reaches the tolerance. Its contract: there is always at least the open group `lst`; `GroupingFlatten`, `GroupingFirst` and `WordsGapLaw` state its laws |
| `Layout.MakeWords` | extractor.py:231-241 | The second loop makes one word per group and fails with IndexError iff some group is empty |
| `Layout.WordsOf` | extractor.py:217-241 | The specification of `merge_line_chars`, given by its body: group at gaps of at least `tol` from the seed `chars[0].x1`, then one word per group. Its contract adds that every failure is IndexError and that success needs a non-empty line |
| `Layout.WordsFail` | extractor.py:219-238 | `merge_line_chars` fails (IndexError) iff the input is empty or the first glyph's own gap `x0 - x1` reaches the tolerance, which leaves the first group empty |
| `Layout.WordsShape` | extractor.py:219-238 | On success the words' glyphs concatenate back to the input; every word is non-empty; `x0` is the first glyph's, `x1` the last glyph's, and the text is the glyphs' texts joined |
| `Layout.WordsGapLaw` | extractor.py:221-228 | A word begins at glyph `i > 0` exactly when `chars[i].x0 - chars[i-1].x1 >= tol`: neighbours share a word iff the gap is strictly below the tolerance |
| `Layout.WordsText` | extractor.py:231-241 | Joining the words' texts gives the line's glyph texts joined, so the split loses no text |
| `Layout.WordsMonotonic` | extractor.py:221-228 | A larger tolerance splits at a subset of the positions a smaller one does: for the groups, and for the words' start positions (`WordStarts`) whenever both tolerances give words |
| `Layout.GroupingFlatten` | extractor.py:219-229 | Concatenating the groups in order gives back exactly the input glyphs |
| `Layout.GroupingFirst` | extractor.py:219-229 | The first group is empty exactly when the input is empty or glyph 0 already splits from the seed `prev_x1` |
| `Layout.FirstNear` | extractor.py:192-195 | The `for k in data` scan stops at the first key, in insertion order, within the tolerance, or reports none |
| `Layout.Place` | extractor.py:191-197 | One iteration of the first loop of `merge_lines`, given by its body: the line joins the first key in insertion order within the tolerance, else its own centre. Its contract: the dictionary stays well formed, with distinct keys, every key holding lines, and keys matching the dictionary's domain |
| `Layout.Cluster` | extractor.py:189-197 | The dictionary after the first loop, given by its body as `Place` over every line in order; its contract is the same well-formedness |
| `Layout.ClusterLines` | extractor.py:189-197 | The first loop of `merge_lines` (the `for`/`else` over a `defaultdict`) builds exactly the clusters `Cluster(lines, tol)` |
| `Layout.ClusterSeparated` | extractor.py:189-197 | All cluster keys are pairwise more than `y_tolerance` apart |
| `Layout.ClusterPartition` | extractor.py:189-197 | Every input line is in exactly one cluster: the clusters' lines are a permutation of the input |
| `Layout.ClusterMembersNear` | extractor.py:191-197 | Each line sits under its own centre or under a key within the tolerance of its centre |
| `Layout.MergeLines` | extractor.py:187-214 | The method with the source's loops returns exactly `MergedLines(lines, tol)` |
| `Layout.EmitSorted` | extractor.py:199-214 | The second loop appends one merged line per key, in the order given |
| `Layout.MergedKeysAscending` | extractor.py:200 | Clusters are emitted in strictly ascending key order, consecutive keys more than the tolerance apart |
| `Layout.MergedLinesShape` | extractor.py:199-214 | One output line per cluster, the i-th built from the i-th smallest key's members; empty input gives empty output |
| `Layout.BuildLine` | extractor.py:201-211 | The merged line of one cluster, given by its body: members sorted by `x0`, glyphs concatenated and sorted by `x0`, text joined, `x0`/`x1` of the first and last member, extreme `top`/`bottom`. It has no contract of its own; `BuildLineChars`, `BuildLineSpan` and `BuildLineHeight` state its properties |
| `Layout.MergedLines` | extractor.py:187-214 | The specification of `merge_lines`, given by its body: `BuildLine` over each cluster of `Cluster` in ascending key order. It has no contract of its own; `MergedLinesShape` and `MergedKeysAscending` state its properties |
| `Layout.BuildLineChars` | extractor.py:201-210 | A merged line's glyphs are sorted by `x0` and are a permutation of its members' glyphs |
| `Layout.BuildLineSpan` | extractor.py:201-207 | `x0` is the least member `x0`; `x1` is the `x1` of a member with the greatest `x0` |
| `Layout.BuildLineHeight` | extractor.py:208-209 | `top` is the minimum of the members' tops and `bottom` the maximum of their bottoms |
| `Extractor.Basename` | extractor.py:25 | `os.path.basename`: a suffix of the path with no `/`, starting after a `/` or at the start |
| `Extractor.Extractor.constructor` | extractor.py:21-34 | The record holds exactly `path` and `file` (the basename); header words, pages and the three zone strings start empty |
| `Extractor.InitialData` | extractor.py:21-34 | The record a new extractor starts with holds exactly the keys `path` and `file` |
| `Extractor.Classify` | extractor.py:163-178 | The specification of `infer_type`, given by its body: the first deciding line of page 0 settles the type. Its contract: a type is always 1 or 2, and every failure is KeyError("type") or AttributeError |
| `Extractor.ClassifyFirstMatch` | extractor.py:163-178 | The type comes from the first line that settles it; KeyError("type") iff no line does |
| `Extractor.Type1Wins` | extractor.py:166-171 | A type-1 line also contains "普通发票", yet is always classified as type 1 because that test comes first |
| `Extractor.Extractor.InferType` | extractor.py:163-178 | The scan sets `type` and `type_desc` from the first deciding line as `Classify` says. No page gives IndexError. A type-1 line whose description fails to match leaves `type` 1 and raises AttributeError. With no deciding line the record is unchanged and the result is its existing `type`, or KeyError |
| `Extractor.Extractor.Enter` | extractor.py:36-40 | `__enter__` stores the pages, infers the type and looks up its profile; no page gives IndexError, and an inference error is returned |
| `Extractor.TypeConf` | extractor.py:244-256 | The profile exists only for types 1 and 2: line tolerance 2 for type 1, 4 for type 2, header and total tolerance 20 for both |
| `Extractor.TotalOnPagesFirst` | extractor.py:66-72 | The search over later pages finds nothing iff no page has a total line, else the total line of the first page, in page order, that has one |
| `Extractor.TotalAnchor` | extractor.py:66-73 | The total anchor, given by its body: the first total line of page 0, else the first on the later pages. It has no contract of its own; `FindTotalLine` is proved equal to it and `TotalOnPagesFirst` states the later-page search |
| `Extractor.Extractor.FindTotalLine` | extractor.py:66-72 | The search loop returns the first page-0 total line, otherwise the first on the later pages |
| `Extractor.ZoneOf` | extractor.py:76-82 | The `if/elif` chain: above iff `bottom < header.top`; between iff `header.top < bottom < total.top`; below iff `header.top < bottom` and `total.top <= bottom`; nowhere (dropped) iff `bottom == header.top` |
| `Extractor.ZoneLinesMembers` | extractor.py:76-82 | A zone holds exactly the lines of page 0 that the chain sends there |
| `Extractor.ZonePartition` | extractor.py:76-82 | The zones `s1`, `s2`, `s3` and the dropped lines together are a permutation of the page-0 lines, so each line lands in at most one of `s1`/`s2`/`s3` |
| `Extractor.PickPartition` | extractor.py:76-82 | Per line value, its counts in the four zones add up to its count in the input |
| `Extractor.Extractor.SplitZones` | extractor.py:76-82 | The zone loop appends each zone's lines, in their original order and each followed by a newline, to `s1`, `s2` and `s3` |
| `Extractor.Extractor.ParseHeaderLine` | extractor.py:89-91 | The header words are the texts of the header line's words, or the word split's IndexError |
| `Extractor.JoinedWordsText` | extractor.py:94-95 | The joined total-line text is the line's glyph text |
| `Extractor.Extractor.ParseTotalLine` | extractor.py:93-101 | The method leaves the record `TotalFields` gives, or returns its error |
| `Extractor.TotalFields` | extractor.py:93-101 | Read against the line's glyph text: an unsplittable line is IndexError; no amount match leaves the record unchanged; an unparsable amount is ValueError; a match stores the amount in words as `total_zh` and the parsed amount as `total`. A success changes no other key |
| `Extractor.CommonFields` | extractor.py:103-109 | `number` is present iff it was or the number pattern matches `s1`, and then holds the captured digits; `date` is present iff it was or the date pattern matches, and then holds year, month and day concatenated; a pattern that does not match leaves its key untouched; no other key changes |
| `Extractor.Extractor.ExtractCommon` | extractor.py:103-109 | The method leaves the record `CommonFields` describes |
| `Extractor.Extractor.ExtractBuyer` | extractor.py:116-129 | The buyer block leaves exactly the record `Type1Buyer` gives, so only `buyer`, `buyer_id` and `buyer_contact` change |
| `Extractor.Extractor.ExtractSeller` | extractor.py:131-144 | The seller block leaves exactly the record `Type1Seller` gives, so only `seller`, `order_number`, `seller_id` and `seller_contact` change |
| `Extractor.Type1Buyer` | extractor.py:116-129 | `buyer` and `buyer_id` hold their patterns' groups when they match and are untouched otherwise; `buyer_contact` is `"-"` without the phone label, the masked-contact group when that matches after the label, and untouched when it does not; no other key changes |
| `Extractor.Type1Seller` | extractor.py:131-144 | `seller` and `order_number` hold the two groups of one match, or are both untouched; `seller_id` holds its group or is untouched; `seller_contact` is `"-"` without the phone label, the contact group when that matches after the label, and untouched when it does not; no other key changes |
| `Extractor.ContactField` | extractor.py:121-129 | Without the phone label the contact is `"-"`; after the label, the contact pattern's group when it matches on the rest of the line, and the key is untouched when it does not; no other key changes |
| `Extractor.Type1Assignments` | extractor.py:111-144 | Before `uid`: `code` is present iff it was or the code pattern matched, with the matched value; `number` is untouched |
| `Extractor.Type1Uid` | extractor.py:146 | `uid = code + number` succeeds iff both are present and `+` is defined on them (both strings or both numbers); `uid` is then their sum and nothing else changes; a missing `code` gives KeyError("code") |
| `Extractor.Type1UidLaw` | extractor.py:111-146 | For a record without a code and with a textual number if any, type 1 succeeds iff the code pattern matches and `number` is set; then `uid` is the code text followed by the number text; no code match gives KeyError("code") |
| `Extractor.Type1Fields` | extractor.py:111-146 | `extract_for_type_1`, given by its body as the assignments then `uid`. Its contract: a success always holds `uid`; `Type1UidLaw` states the uid law and its KeyError |
| `Extractor.Extractor.ExtractForType1` | extractor.py:111-146 | The method ends in the state `Type1Fields` gives, or with its error |
| `Extractor.Extractor.AssignUid` | extractor.py:146 | The `uid` assignment step, with its KeyError and TypeError cases |
| `Extractor.Type2Assignments` | extractor.py:148-158 | `code` and `order_number` become `"-"`; `buyer` and `seller` hold the two groups of one name match, or are both untouched; when the id pattern matches, `buyer_id` and `seller_id` both hold capture group 1, otherwise both are untouched; `number` is untouched |
| `Extractor.Type2Names` | extractor.py:150-155 | `code` and `order_number` become `"-"`, the party names hold the two groups of one match or are untouched, and `number` and both tax ids are untouched |
| `Extractor.Type2Fields` | extractor.py:148-160 | Type 2 succeeds iff `number` is set, and otherwise fails with KeyError("number"); on success `uid` equals the unchanged `number`, `code` and `order_number` are `"-"`, `buyer` and `seller` hold the name match's two groups (or are untouched), and a matched id line sets `seller_id` equal to `buyer_id` |
| `Extractor.Extractor.ExtractForType2` | extractor.py:148-160 | The method ends in the state `Type2Fields` gives, or with KeyError("number") |
| `Extractor.TypeFields` | extractor.py:85 | The `getattr` dispatch on the type: any type other than 1 or 2 gives AttributeError, and a successful dispatch always leaves a `uid` |
| `Extractor.Fields` | extractor.py:84-85 | The fields `parse` fills after the zones: total line, common fields, then the typed fields. Its contract: a total-line error is returned as is, and a success has type 1 or 2 and holds `uid`; `FieldsUid` states the uid law |
| `Extractor.FieldsUid` | extractor.py:84-85 | For a record without code or number, a successful fill has type 1 or 2 and its `uid` obeys that type's law: code text then number text for type 1; the number, with `"-"` code and order number, for type 2 |
| `Extractor.Extractor.Fill` | extractor.py:74-85 | Total line, zone split, common and typed fields leave exactly the record and zones that `Fields` and `Appended` give, or return their error |
| `Extractor.Extractor.ParseMain` | extractor.py:56-87 | Anchors (AssertionError when missing), header words, total line, zones and fields, exactly as `ParseLines` specifies |
| `Extractor.ParseLines` | extractor.py:56-87 | The specification of `parse` on merged page-0 lines, given by its body: header anchor (AssertionError), header words, total anchor (AssertionError), zones, then `Fields`. It has no contract of its own; `ParseMain` is proved equal to it and `ParseUid` states its uid law |
| `Extractor.Parse` | extractor.py:74-87 | `parse` on pages, given by its body: no page is IndexError, else `ParseLines` on page 0 merged with the profile's line tolerance. It has no contract of its own; `Extractor.Extractor.Parse` is proved equal to it through `ParseWith` |
| `Extractor.ParseWith` | extractor.py:74-87 | `parse` when the profile may be missing: no profile is TypeError (`type_conf[...]` on None), before the IndexError for no page |
| `Extractor.Extractor.Parse` | extractor.py:54-87 | `parse` leaves exactly the record, header words and zones that `ParseWith` gives for the pages, or returns its error |
| `Extractor.ParseUid` | extractor.py:54-87 | For a record without code or number, every record `parse` returns obeys the uid law of its type |
| `Extractor.ExtractionUid` | main.py:75-78 | A successful extraction had a classified first page, and its `uid` obeys the law of the inferred type |
| `Extractor.Extraction` | main.py:75-78 | The specification of `extract_info`, given by its body: no page is IndexError, then `Classify`, `TypeConf` (TypeError for no profile) and `Parse`. It has no contract of its own; `ExtractInfo` is proved equal to it and `ExtractionUid` states its uid law |
| `Extractor.ExtractInfo` | main.py:75-78 | `extract_info` (construct, enter, parse) returns exactly `Extraction(path, pages)` |
| `Batch.GetK` | main.py:29-30 | Every failure is ValueError(k) |
| `Batch.Matching` | main.py:28 | `[i for i in ks if k in i]`: every result is a key containing `k`, every key containing `k` is in the result, and there are no more results than keys |
| `Batch.MatchingNone` | main.py:28 | No key matches iff no key contains `k` |
| `Batch.GetKUnique` | main.py:27-31 | `getk` succeeds iff exactly one key contains `k`, and then returns that key |
| `Batch.QueryAny` | main.py:34-52 | `query` is true iff some condition holds and every earlier one evaluated false without raising |
| `Batch.QueryWitness` | main.py:34-52 | A true `query` has a first condition that holds, after conditions that evaluated false |
| `Batch.QueryFound` | main.py:34-52 | A condition that holds after conditions that were all false makes `query` true |
| `Batch.QueryNone` | main.py:34-52 | `query` is false iff every condition is false without error; the empty list gives false |
| `Batch.CondMeaning` | main.py:36-50 | `k~v` holds iff `data[k]` is a string containing `v`; `k=v` on a string holds iff equal; with both markers a failed `~` falls to `=`; with neither, false |
| `Batch.Tilde` | main.py:36-39 | `k~v` evaluates iff `data[k]` exists and is a string; every failure is KeyError(k) or TypeError |
| `Batch.Equals` | main.py:40-50 | `k=v`: a missing key is KeyError(k); every failure is KeyError(k) or ValueError(v), never TypeError; on a string it is the equality of `v` and the value |
| `Batch.CondResult` | main.py:36-50 | One condition, given by its body: the `~` test, then the `=` test unless `~` held. It has no contract of its own; `CondMeaning` states its meaning |
| `Batch.Query` | main.py:34-52 | The specification of `query`, given by its body: conditions in order, true at the first that holds, an error at the first that raises, false at the end. It has no contract of its own; `QueryAny`, `QueryNone`, `QueryWitness` and `QueryFound` state its meaning |
| `Batch.FetchLaw` | main.py:98-103 | A cache hit without `remake` is used unchanged; otherwise the fresh record gets `relpath` and keeps every other field |
| `Batch.Fetch` | main.py:98-103 | The cache hit or the fresh extraction. Its contract: it fails only on a miss (or with `remake`), with the extraction's own error |
| `Batch.Admit` | main.py:108-114 | The duplicate check, total and append for a kept record. Its contract: it succeeds iff the record has a `number` and a `total` that `+` accepts against the running total; otherwise KeyError("number") comes before KeyError("total") |
| `Batch.Step` | main.py:95-114 | One iteration of the loop, given by its body as `Fetch`, the cache store, `Query` and `Admit`. It has no contract of its own; `Visit` is proved equal to it |
| `Batch.Passes` | main.py:105-106 | The filter of the loop, given by its body: no conditions, or `query` is true |
| `Batch.StepLaw` | main.py:95-114 | One iteration stores the fetched record under its relpath and notes the relpath; a record that passes the filter is kept (appended, its number added, flagged iff already seen), and one that does not leaves the records, flags and numbers unchanged |
| `Batch.Scan` | main.py:94-114 | The loop as a left fold of `Step`, stopping at the first error. It has no contract of its own; `Collect` is proved equal to it, and `ScanKeys`, `ScanEntries` and `ScanDuplicates` state its laws |
| `Batch.Visit` | main.py:94-114 | One loop iteration (fetch, store, filter, duplicate flag, total, append) gives exactly `Step` |
| `Batch.Collect` | main.py:93-114 | The loop gives exactly `Scan` over the files, stopping at the first error |
| `Batch.ScanStops` | main.py:94-114 | Once the files up to some point raise, the whole loop raises that error |
| `Batch.ScanKeys` | main.py:93-103 | After the loop, the current set is the listed relpaths and the cache's keys are the old keys plus those relpaths |
| `Batch.ScanEntries` | main.py:98-103 | With distinct relpaths, each listed file's entry is what fetching it against the cache read at the start gives; unlisted entries are unchanged |
| `Batch.ScanDuplicates` | main.py:105-114 | Only kept records enter `numbers`, which is exactly their numbers; a record is flagged iff an earlier kept record has its number; every kept record satisfies the query. `ScanRecords` states the converse, that every passing record is kept |
| `Batch.Selected` | main.py:94-114 | The records the loop should keep, given by its body: in file order, each file's record fetched against the original cache when it succeeds and passes the filter. It has no contract of its own; `ScanRecords` and `SelectedRecords` tie the loop to it |
| `Batch.ScanRecords` | main.py:94-114 | With distinct relpaths, the loop's records are the starting records followed by exactly the selected ones: every passing record is kept, in file order, and nothing else is |
| `Batch.SelectedRecords` | main.py:88-114 | From the empty start, the loop's records are exactly `Selected` against the cache read from disk |
| `Batch.KeptNumbers` | main.py:108-114 | Keeping one more record preserves those duplicate and number laws |
| `Batch.Prune` | main.py:116-119 | The prune loop leaves exactly the keys in the current set, with their entries unchanged |
| `Batch.ReverseAt` | main.py:129-130 | `records[::-1]` holds at position `i` the original's position `n - 1 - i` |
| `Batch.Reverse` | main.py:129-130 | `records[::-1]`, given by its body; its contract keeps the length, and `ReverseAt` and `ReverseMultiset` state its laws |
| `Batch.ReverseMultiset` | main.py:129-130 | Reversal is a permutation |
| `Batch.SortRecordsLaw` | main.py:122-130 | For a non-empty sort key, the sorted records are a permutation, non-decreasing by the field; with `-` they are exactly the reverse of the stable ascending sort, non-increasing |
| `Batch.SortRecordsErrors` | main.py:122-130 | KeyError iff some record lacks the field; TypeError iff all have it and strings are mixed with numbers |
| `Batch.SortField` | main.py:123-127 | The sort option names a field and asks for descending order iff it ends in `-`; the field followed by that `-` gives back the option |
| `Batch.SortRecords` | main.py:122-130 | The sort step: an empty option leaves the order; every failure has a non-empty option and is KeyError for the field or TypeError; a success keeps the number of records |
| `Batch.DefaultColumns` | main.py:11-24 | Without `-k` the columns are relpath, type, uid, date, total, buyer |
| `Batch.Cell` | main.py:136 | A missing key gives "--错误--", a falsy value gives "", otherwise the value itself, so a cell is never falsy except "" |
| `Batch.Row` | main.py:136 | One cell per requested key, in order |
| `Batch.TableRows` | main.py:133-136 | The loop builds one row per record, each the record's cells |
| `Batch.Finish` | main.py:122-136 | After the cache is written: the sorted records with their rows, or exactly the sort's error |
| `Batch.Run` | main.py:81-136 | A cache is written iff the loop succeeds, even when the sort then fails. Its keys are exactly the listed relpaths, with entries from the loop; with distinct relpaths, each file's entry is its fetched record. The result fails iff the loop or the sort fails, with that error; on success the records are the loop's records sorted, the rows follow them, and with distinct relpaths the records are exactly the passing records (`Selected`) sorted |

## Left out

- pdfplumber (`pdfplumber.open`, `extract_text_lines`, `close`): the pages are a parameter. The `__exit__` resource handling is not modelled.
- The Python regex engine. Each label pattern is an abstract matcher in `Extractor.Patterns`. Their concrete patterns, and `has_password`, are not part of this model.
- `float(...)` on the total amount is the abstract `toFloat`, None standing for ValueError.
  - The `float` branch of `query` (`round(float(v), 2) == round(x, 2)`) is the abstract `sameFloat`.
  - `int(v)` is the abstract `parseInt`.
- Batch.Run: the running total is exact addition over reals, not IEEE floating point. The final `round(total, 2)` is display only.
- `cache.py` (shelve and file I/O): the cache read at the start is the parameter `cache` and the cache handed to `cache.write` is the `written` result of `Batch.Run`.
- `listfiles` (`os.walk`): the listed files are the parameter `files`, each with its path and relpath.
- Batch.ScanEntries: the entry-by-entry cache law assumes distinct relpaths, which `os.walk` provides but the model does not derive.
- Batch.ScanRecords: the law that every passing record is kept, and the `Selected` clause of Batch.Run, assume distinct relpaths for the same reason.
- `rename`, PrettyTable rendering, argparse, `--show-zh`, `print` and `log_error` are left out. The "duplicate invoice" message is modelled as the `duplicate` flags of `Progress`.
- Extractor.Extractor.Enter requires that `type` is not yet in the record. `__init__` never sets it, so every source call meets this.
- `Extractor.get_page_lines` is not modelled as its own method; `Parse` and `FindTotalLine` call `MergeLines` where it is called.
- Equality of a Python int and float that compare equal (`1 == 1.0`) is not modelled. Numbers in the `numbers` set are compared as `Value`s, so `Int(1)` and `Float(1.0)` are distinct.
- The `getattr` dispatch on the type is a branch on the type tag. A type other than 1 or 2 cannot occur after `Classify`, but `Fill` answers AttributeError for it as `getattr` would.
- `merge_lines` gives a merged line the `x1` of its member with the greatest `x0`, not the greatest `x1`; the model follows the code.
- The model also follows the code where it sets the type-2 `seller_id` from the buyer's capture group.
