/** The participant lookup helpers: identifier normalisation, the directory index keyed by
    lower-cased identifier, the business-card row matcher and document-type extraction, the
    business-card line scanner, and the two searches the check route runs. */
module ParticipantUtils {
  import opened Text
  import opened Seqs
  import opened PeppolIds

  // ---------------------------------------------------------------------------------------------
  // Identifier normalisation

  /** The country prefixes `normalizeParticipantId` strips, in the order it tries them. */
  const CountryCodes: seq<string> := ["BE", "NL", "PL", "FR", "DE", "IT", "ES", "GB", "US", "TR"]

  /** `/^[A-Z0-9]+$/.test(s)`. */
  predicate UpperAlnum(s: string) {
    |s| > 0 && forall k :: 0 <= k < |s| ==> IsUpperAscii(s[k]) || IsDigit(s[k])
  }

  /** The identifier with its country prefix removed: when its first two characters, upper-cased,
      are one of the codes and the rest, upper-cased, is a non-empty run of letters and digits. */
  function Normalize(id: string): string {
    if |id| > 2 && Upper(id[..2]) in CountryCodes && UpperAlnum(Upper(id[2..])) then id[2..] else id
  }

  /** `normalizeParticipantId`: the loop over the country codes with its early return. */
  method NormalizeParticipantId(participantId: string) returns (r: string)
    ensures r == Normalize(participantId)
  {
    if participantId == "" {
      return participantId;
    }
    var upperId := Upper(participantId);
    for i := 0 to |CountryCodes|
      invariant forall j :: 0 <= j < i ==>
        !(StartsWith(upperId, CountryCodes[j]) && |upperId| > 2 && UpperAlnum(upperId[2..]))
    {
      var code := CountryCodes[i];
      if StartsWith(upperId, code) && |upperId| > 2 {
        var remaining := upperId[2..];
        if UpperAlnum(remaining) {
          assert upperId[..2] == Upper(participantId[..2]);
          assert remaining == Upper(participantId[2..]);
          return participantId[2..];
        }
      }
    }
    if |participantId| > 2 && Upper(participantId[..2]) in CountryCodes {
      var j :| 0 <= j < |CountryCodes| && CountryCodes[j] == Upper(participantId[..2]);
      assert upperId[..2] == CountryCodes[j];
      assert Upper(participantId[2..]) == upperId[2..];
    }
    r := participantId;
  }

  /** Normalisation changes an identifier exactly when it is longer than two characters, starts
      with one of the codes in either case, and continues with ASCII letters and digits only;
      then it drops exactly those two characters. */
  lemma NormalizeChanges(id: string)
    ensures Normalize(id) != id <==>
      (|id| > 2 && Upper(id[..2]) in CountryCodes
       && forall k :: 2 <= k < |id| ==> IsLetter(id[k]) || IsDigit(id[k]))
    ensures Normalize(id) != id ==> Normalize(id) == id[2..]
  {
    if |id| > 2 {
      var rest := Upper(id[2..]);
      assert forall k :: 2 <= k < |id| ==> rest[k - 2] == UpperChar(id[k]);
      if UpperAlnum(rest) {
        forall k | 2 <= k < |id| ensures IsLetter(id[k]) || IsDigit(id[k]) {
          assert rest[k - 2] == UpperChar(id[k]);
        }
      }
      if forall k :: 2 <= k < |id| ==> IsLetter(id[k]) || IsDigit(id[k]) {
        forall k | 0 <= k < |rest| ensures IsUpperAscii(rest[k]) || IsDigit(rest[k]) {
          assert rest[k] == UpperChar(id[k + 2]);
        }
      }
    }
  }

  /** The result is a suffix of the input, at most two characters shorter, and non-empty whenever
      it differs from the input: one call removes at most one prefix, so the loader's check that
      a changed identifier is non-empty never fails. */
  lemma NormalizeSuffix(id: string)
    ensures EndsWith(id, Normalize(id)) && |Normalize(id)| + 2 >= |id|
    ensures Normalize(id) != id ==> |Normalize(id)| > 0
  {
  }

  /** Normalisation is not idempotent: a second call strips a second prefix. */
  lemma NormalizeNotIdempotent()
    ensures Normalize("BEBE1") == "BE1" && Normalize("BE1") == "1"
  {
    assert Upper("BE") == "BE";
    assert Upper("BE1") == "BE1";
    assert UpperAlnum("BE1");
    assert "BEBE1"[..2] == "BE" && "BEBE1"[2..] == "BE1";
    assert Upper("1") == "1";
    assert "BE1"[..2] == "BE" && "BE1"[2..] == "1";
  }

  /** Normalisation commutes with lower-casing, since it tests the upper-cased text. */
  lemma NormalizeLower(id: string)
    ensures Normalize(Lower(id)) == Lower(Normalize(id))
  {
    var l := Lower(id);
    if |id| > 2 {
      assert Upper(l[..2]) == Upper(id[..2]) by {
        assert forall k :: 0 <= k < 2 ==> UpperChar(LowerChar(id[k])) == UpperChar(id[k]);
      }
      assert Upper(l[2..]) == Upper(id[2..]) by {
        assert forall k :: 2 <= k < |id| ==> UpperChar(LowerChar(id[k])) == UpperChar(id[k]);
      }
      LowerSlice(id, 2, |id|);
    }
  }

  // ---------------------------------------------------------------------------------------------
  // Directory index

  const DirectoryPrefix: string := "iso6523-actorid-upis::"

  /** The scheme and identifier of a directory participant id
      `iso6523-actorid-upis::scheme:identifier`: the id must split on `::` into exactly two parts
      and its second part must split on `:` into a non-empty scheme and identifier. */
  function ParseDirectoryId(participantId: string): Option<(string, string)> {
    if !StartsWith(participantId, DirectoryPrefix) then None
    else
      var parts := Split(participantId, "::");
      if |parts| == 2 then SplitPid(parts[1]) else None
  }

  /** A parsed directory id has non-empty, colon-free scheme and identifier. */
  lemma ParseDirectoryIdSound(participantId: string)
    requires ParseDirectoryId(participantId).Some?
    ensures var (scheme, id) := ParseDirectoryId(participantId).value;
      scheme != "" && id != "" && ':' !in scheme && ':' !in id
  {
    var parts := Split(participantId, "::");
    SplitPidSound(parts[1]);
  }

  /** Every id written as the directory writes it is accepted and gives its parts back. */
  lemma ParseDirectoryIdRoundTrip(scheme: string, id: string)
    requires scheme != "" && id != "" && ':' !in scheme && ':' !in id
    ensures ParseDirectoryId(DirectoryPrefix + FullPid(scheme, id)) == Some((scheme, id))
  {
    var tail := FullPid(scheme, id);
    var s := DirectoryPrefix + tail;
    assert StartsWith(s, DirectoryPrefix);
    forall j: nat | j < 20 ensures !OccursAt(s, "::", j) {
      assert s[j] == DirectoryPrefix[j];
      assert s[j..j + 2][0] == s[j];
    }
    assert OccursAt(s, "::", 20);
    assert IndexOf(s, "::") == Some(20);
    assert s[..20] == "iso6523-actorid-upis";
    assert s[22..] == tail;
    forall j: nat | j + 2 <= |tail| ensures !OccursAt(tail, "::", j) {
      if j < |scheme| {
        assert tail[j..j + 2][0] == tail[j] == scheme[j];
      } else {
        assert tail[j..j + 2][1] == tail[j + 1] == id[j - |scheme|];
      }
    }
    SplitNoSep(tail, "::");
    SplitPidRoundTrip(scheme, id);
  }

  /** One directory entry; `originalId` is always the identifier itself, so it is not stored. */
  datatype DirEntry = DirEntry(scheme: string, participantId: string, fullId: string, isNormalized: bool)

  /** The (key, entry) pushes one directory row makes, in order: the entry under its lower-cased
      identifier, then, when normalisation changed the identifier, a normalised entry under the
      lower-cased normalised identifier. */
  function RowPushes(participantId: string): seq<(string, DirEntry)> {
    match ParseDirectoryId(participantId)
    case None => []
    case Some((scheme, id)) =>
      var original := (Lower(id), DirEntry(scheme, id, participantId, false));
      var n := Normalize(id);
      if n != id && |n| > 0 then [original, (Lower(n), DirEntry(scheme, id, participantId, true))]
      else [original]
  }

  type Index = map<string, seq<DirEntry>>

  /** `participants.get(key)`, with a missing key read as an empty bucket. */
  function Bucket(m: Index, key: string): seq<DirEntry> {
    if key in m then m[key] else []
  }

  /** `if (!m.has(key)) m.set(key, []); m.get(key).push(entry)`. */
  function Push(m: Index, p: (string, DirEntry)): Index {
    m[p.0 := Bucket(m, p.0) + [p.1]]
  }

  function PushAll(m: Index, ps: seq<(string, DirEntry)>): Index
    decreases |ps|
  {
    if ps == [] then m else PushAll(Push(m, ps[0]), ps[1..])
  }

  /** The index `loadParticipantList` builds from the directory rows. */
  function DirectoryIndex(rows: seq<string>): Index {
    if rows == [] then map[] else PushAll(DirectoryIndex(rows[..|rows| - 1]), RowPushes(rows[|rows| - 1]))
  }

  /** All pushes of all rows, in row order. */
  function AllPushes(rows: seq<string>): seq<(string, DirEntry)> {
    if rows == [] then [] else AllPushes(rows[..|rows| - 1]) + RowPushes(rows[|rows| - 1])
  }

  /** The entries pushed under `key`, in push order. */
  function EntriesUnder(ps: seq<(string, DirEntry)>, key: string): seq<DirEntry> {
    if ps == [] then []
    else (if ps[0].0 == key then [ps[0].1] else []) + EntriesUnder(ps[1..], key)
  }

  lemma {:induction false} EntriesUnderAppend(a: seq<(string, DirEntry)>, b: seq<(string, DirEntry)>, key: string)
    ensures EntriesUnder(a + b, key) == EntriesUnder(a, key) + EntriesUnder(b, key)
  {
    if a != [] {
      assert (a + b)[1..] == a[1..] + b;
      EntriesUnderAppend(a[1..], b, key);
    } else {
      assert a + b == b;
    }
  }

  lemma {:induction false} EntriesUnderMember(ps: seq<(string, DirEntry)>, key: string, e: DirEntry)
    ensures e in EntriesUnder(ps, key) <==> (key, e) in ps
  {
    if ps != [] {
      EntriesUnderMember(ps[1..], key, e);
      assert ps == [ps[0]] + ps[1..];
    }
  }

  lemma {:induction false} PushAllBucket(m: Index, ps: seq<(string, DirEntry)>, key: string)
    ensures Bucket(PushAll(m, ps), key) == Bucket(m, key) + EntriesUnder(ps, key)
    ensures key in PushAll(m, ps) <==> key in m || EntriesUnder(ps, key) != []
    decreases |ps|
  {
    if ps != [] {
      PushAllBucket(Push(m, ps[0]), ps[1..], key);
    }
  }

  /** Each bucket of the index holds exactly the entries pushed under its key, in the order the
      rows came, and a key is present exactly when something was pushed under it. */
  lemma {:induction false} DirectoryIndexBucket(rows: seq<string>, key: string)
    ensures Bucket(DirectoryIndex(rows), key) == EntriesUnder(AllPushes(rows), key)
    ensures key in DirectoryIndex(rows) <==> EntriesUnder(AllPushes(rows), key) != []
  {
    if rows != [] {
      var init := rows[..|rows| - 1];
      DirectoryIndexBucket(init, key);
      PushAllBucket(DirectoryIndex(init), RowPushes(rows[|rows| - 1]), key);
      EntriesUnderAppend(AllPushes(init), RowPushes(rows[|rows| - 1]), key);
    }
  }

  lemma {:induction false} AllPushesMember(rows: seq<string>, p: (string, DirEntry))
    ensures p in AllPushes(rows) <==> exists i :: 0 <= i < |rows| && p in RowPushes(rows[i])
  {
    if rows != [] {
      var init := rows[..|rows| - 1];
      AllPushesMember(init, p);
      if p in AllPushes(rows) && p !in AllPushes(init) {
        assert p in RowPushes(rows[|rows| - 1]);
      }
      if i :| 0 <= i < |rows| && p in RowPushes(rows[i]) {
        if i < |rows| - 1 {
          assert rows[i] == init[i];
        }
      }
    }
  }

  /** An entry sits in bucket `key` exactly when some directory row pushed it under that key. */
  lemma DirectoryIndexMember(rows: seq<string>, key: string, e: DirEntry)
    ensures e in Bucket(DirectoryIndex(rows), key) <==>
      exists i :: 0 <= i < |rows| && (key, e) in RowPushes(rows[i])
  {
    DirectoryIndexBucket(rows, key);
    EntriesUnderMember(AllPushes(rows), key, e);
    AllPushesMember(rows, (key, e));
  }

  /** `loadParticipantList`: one pass over the directory rows, pushing each accepted row under
      its lower-cased identifier and, when normalisation changes it, under the normalised one. */
  method LoadParticipantList(rows: seq<string>) returns (participants: Index)
    ensures participants == DirectoryIndex(rows)
  {
    participants := map[];
    for i := 0 to |rows|
      invariant participants == DirectoryIndex(rows[..i])
    {
      assert rows[..i + 1][..i] == rows[..i];
      var participantId := rows[i];
      if StartsWith(participantId, DirectoryPrefix) {
        var parts := Split(participantId, "::");
        if |parts| == 2 {
          match SplitPid(parts[1])
          case None =>
          case Some((scheme, id)) =>
            ghost var before := participants;
            var originalKey := Lower(id);
            participants := Push(participants, (originalKey, DirEntry(scheme, id, participantId, false)));
            var normalizedId := NormalizeParticipantId(id);
            if normalizedId != id && |normalizedId| > 0 {
              var normalizedKey := Lower(normalizedId);
              participants := Push(participants, (normalizedKey, DirEntry(scheme, id, participantId, true)));
            }
            AcceptedRowPushes(before, participantId, scheme, id);
        }
      }
    }
    assert rows[..|rows|] == rows;
  }

  lemma AcceptedRowPushes(m: Index, participantId: string, scheme: string, id: string)
    requires ParseDirectoryId(participantId) == Some((scheme, id))
    ensures var m1 := Push(m, (Lower(id), DirEntry(scheme, id, participantId, false)));
      PushAll(m, RowPushes(participantId)) ==
        if Normalize(id) != id && |Normalize(id)| > 0
        then Push(m1, (Lower(Normalize(id)), DirEntry(scheme, id, participantId, true)))
        else m1
  {
    var a := (Lower(id), DirEntry(scheme, id, participantId, false));
    var b := (Lower(Normalize(id)), DirEntry(scheme, id, participantId, true));
    assert RowPushes(participantId) == if Normalize(id) != id && |Normalize(id)| > 0 then [a, b] else [a];
    assert [a, b][1..] == [b];
    assert PushAll(m, [a]) == PushAll(Push(m, a), []);
    assert PushAll(m, [a, b]) == PushAll(Push(m, a), [b]);
  }

  /** What one accepted row contributes: its entry under its own lower-cased identifier, and a
      normalised entry exactly when normalisation changes the identifier. */
  lemma RowPushesAccepted(participantId: string)
    requires ParseDirectoryId(participantId).Some?
    ensures var (scheme, id) := ParseDirectoryId(participantId).value;
      (Lower(id), DirEntry(scheme, id, participantId, false)) in RowPushes(participantId)
      && ((Lower(Normalize(id)), DirEntry(scheme, id, participantId, true)) in RowPushes(participantId)
          <==> Normalize(id) != id)
  {
    var (scheme, id) := ParseDirectoryId(participantId).value;
    NormalizeSuffix(id);
  }

  // ---------------------------------------------------------------------------------------------
  // Matching a business-card row

  /** The four-way test of `processRow`: the row's identifier or its normalised form equals the
      searched identifier or its normalised form, ignoring ASCII case. */
  predicate IsMatch(rowId: string, searchId: string) {
    var r, s := Lower(rowId), Lower(searchId);
    var nr, ns := Lower(Normalize(rowId)), Lower(Normalize(searchId));
    r == s || r == ns || nr == s || nr == ns
  }

  lemma LowerIdempotent(s: string)
    ensures Lower(Lower(s)) == Lower(s)
  {
  }

  /** Matching ignores the case of either identifier and is symmetric. */
  lemma IsMatchCaseInsensitive(rowId: string, searchId: string)
    ensures IsMatch(rowId, searchId) == IsMatch(Lower(rowId), searchId) == IsMatch(rowId, Lower(searchId))
    ensures IsMatch(rowId, searchId) == IsMatch(searchId, rowId)
  {
    NormalizeLower(rowId);
    NormalizeLower(searchId);
    LowerIdempotent(rowId);
    LowerIdempotent(searchId);
    LowerIdempotent(Normalize(rowId));
    LowerIdempotent(Normalize(searchId));
  }

  /** The purpose of the rule: an identifier with a country prefix matches the bare identifier,
      in both directions. */
  lemma PrefixedMatchesBare(code: string, bare: string)
    requires code in CountryCodes && |bare| > 0
    requires forall k :: 0 <= k < |bare| ==> IsLetter(bare[k]) || IsDigit(bare[k])
    ensures IsMatch(code + bare, bare) && IsMatch(bare, code + bare)
  {
    var id := code + bare;
    assert id[..2] == code && id[2..] == bare;
    assert Upper(code) == code;
    assert forall k :: 2 <= k < |id| ==> id[k] == bare[k - 2];
    NormalizeChanges(id);
  }

  // ---------------------------------------------------------------------------------------------
  // Document types of a business-card row

  /** A document type as `processRow` reports it: the extracted short name and the cleaned line. */
  datatype DocType = DocType(shortName: string, longName: string)

  /** The name of one document-type line before trimming: the pattern cascade on the cleaned
      line, or the whole cleaned line when it holds no `::`. */
  function LineShortName(line: string): string {
    var clean := CleanLine(line);
    match LineName(clean)
    case Some(n) => n
    case None => clean
  }

  function DocOfLine(line: string): DocType {
    DocType(Trim(LineShortName(line)), CleanLine(line))
  }

  /** A line passes both filters: it is not blank, it holds the document-identifier marker, and
      its trimmed short name is neither empty nor "2.1". */
  predicate KeptDocLine(line: string) {
    |Trim(line)| > 0 && Contains(line, DocIdMarker)
    && var n := Trim(LineShortName(line)); n != "" && n != "2.1"
  }

  /** The filter, map and filter chain of `processRow` over the lines of a row. */
  function RowDocTypes(documentTypes: string): seq<DocType> {
    FilterMap(Split(documentTypes, "\n"), KeptDocLine, DocOfLine)
  }

  /** A kept line's short name is non-empty and not "2.1", and its long name still carries the
      marker, so its short name is always the pattern cascade's result: the whole-line fallback
      is never taken. */
  lemma KeptDocLineSpec(line: string)
    requires KeptDocLine(line)
    ensures var d := DocOfLine(line);
      d.shortName != "" && d.shortName != "2.1" && Contains(d.longName, DocIdMarker)
      && LineName(d.longName).Some? && d.shortName == Trim(LineName(d.longName).value)
  {
    MarkedLineHasName(line);
  }

  /** Each reported type comes from a kept line of the row; its short name is non-empty and
      not "2.1", and its long name carries the marker. */
  lemma RowDocTypesSpec(documentTypes: string, d: DocType)
    requires d in RowDocTypes(documentTypes)
    ensures d.shortName != "" && d.shortName != "2.1" && Contains(d.longName, DocIdMarker)
      && LineName(d.longName).Some? && d.shortName == Trim(LineName(d.longName).value)
  {
    var lines := Split(documentTypes, "\n");
    FilterMapMember(lines, KeptDocLine, DocOfLine, d);
    var i :| 0 <= i < |lines| && KeptDocLine(lines[i]) && d == DocOfLine(lines[i]);
    KeptDocLineSpec(lines[i]);
  }

  /** A row being assembled from the business-card export; a missing field is empty. */
  datatype CardRow = CardRow(scheme: string, participantId: string, documentTypes: string, names: string)

  /** What `processRow` resolves with. The supported types are the keys set to `true`. */
  datatype Details = Details(companyName: string, scheme: string, participantId: string,
                             allDocumentTypes: seq<DocType>, supportedDocumentTypes: set<string>,
                             rawDocumentTypes: string)

  function SupportedKeys(docs: seq<DocType>): set<string> {
    set d | d in docs :: Lower(d.shortName)
  }

  /** The value `processRow` resolves with, or `None` when it resolves nothing. */
  function RowDetails(row: CardRow, searchId: string): Option<Details> {
    if row.participantId == "" || row.documentTypes == "" || !IsMatch(row.participantId, searchId) then None
    else
      var docs := RowDocTypes(row.documentTypes);
      Some(Details(if row.names == "" then "Unknown" else row.names, row.scheme, row.participantId,
                   docs, SupportedKeys(docs), row.documentTypes))
  }

  /** `docTypes.forEach(doc => supportedDocumentTypes[doc.shortName.toLowerCase()] = true)`. */
  method FillSupported(docs: seq<DocType>) returns (supported: set<string>)
    ensures forall k :: k in supported <==> exists d :: d in docs && Lower(d.shortName) == k
  {
    supported := {};
    for i := 0 to |docs|
      invariant forall k :: k in supported <==> exists j :: 0 <= j < i && Lower(docs[j].shortName) == k
    {
      supported := supported + {Lower(docs[i].shortName)};
    }
  }

  /** `processRow`: skip a row without identifier or document types, otherwise run the four-way
      match and, on a match, extract the document types. */
  method ProcessRow(row: CardRow, searchParticipantId: string) returns (r: Option<Details>)
    ensures r == RowDetails(row, searchParticipantId)
  {
    if row.participantId == "" || row.documentTypes == "" {
      return None;
    }
    var normalizedRowId := NormalizeParticipantId(row.participantId);
    var normalizedSearchId := NormalizeParticipantId(searchParticipantId);
    var isMatch :=
      Lower(row.participantId) == Lower(searchParticipantId) ||
      Lower(row.participantId) == Lower(normalizedSearchId) ||
      Lower(normalizedRowId) == Lower(searchParticipantId) ||
      Lower(normalizedRowId) == Lower(normalizedSearchId);
    if !isMatch {
      return None;
    }
    assert isMatch == IsMatch(row.participantId, searchParticipantId);
    var docTypes := RowDocTypes(row.documentTypes);
    var supported := FillSupported(docTypes);
    assert supported == SupportedKeys(docTypes);
    r := Some(Details(if row.names == "" then "Unknown" else row.names, row.scheme, row.participantId,
                      docTypes, supported, row.documentTypes));
  }

  /** A resolved row always matches the searched identifier, has an identifier, falls back to
      "Unknown" only for a missing company name, and keys its supported types by lower-cased short
      name. */
  lemma RowDetailsSpec(row: CardRow, searchId: string)
    ensures RowDetails(row, searchId).Some? <==>
      row.participantId != "" && row.documentTypes != "" && IsMatch(row.participantId, searchId)
    ensures RowDetails(row, searchId).Some? ==>
      var d := RowDetails(row, searchId).value;
      d.participantId == row.participantId && d.companyName != ""
      && (forall k :: k in d.supportedDocumentTypes <==>
            exists t :: t in d.allDocumentTypes && Lower(t.shortName) == k)
  {
  }

  // ---------------------------------------------------------------------------------------------
  // The business-card line scanner

  /** How a card's header line starts, and how its document-type field starts. */
  const HeaderStart: string := "\"iso6523-actorid-upis::"
  const DocTypesStart: string := "\"busdox-docid-qns::"

  const EmptyRow: CardRow := CardRow("", "", "", "")

  /** The scanner's variables: `currentRow`, `isInDocumentTypes`, and the first value passed to
      `resolve`, which is the one the promise keeps. */
  datatype ScanState = ScanState(row: CardRow, inDocTypes: bool, found: Option<Details>)

  function Resolve(found: Option<Details>, r: Option<Details>): Option<Details> {
    if found.Some? then found else r
  }

  lemma PrefixHasSeparator(pid: string)
    requires StartsWith(pid, DirectoryPrefix)
    ensures |Split(pid, "::")| >= 2
  {
    assert pid[20..22] == DirectoryPrefix[20..22];
    ContainsAt(pid, "::", 20);
  }

  /** `participantId.split('::')[1].split(':')` for a header's first field. */
  function HeaderIdParts(pid: string): seq<string>
    requires StartsWith(pid, DirectoryPrefix)
  {
    PrefixHasSeparator(pid);
    Split(Split(pid, "::")[1], ":")
  }

  /** A header line, first part: flush the previous row and start a new one from the first two
      `;` fields; the document-type field is left to `HeaderDocTypes`. */
  function HeaderRow(st: ScanState, t: string, searchId: string): ScanState {
    var found := if st.row.participantId != "" then Resolve(st.found, RowDetails(st.row, searchId)) else st.found;
    var parts := Split(t, ";");
    var pid := StripQuotes(parts[0]);
    var ids := if StartsWith(pid, DirectoryPrefix) then HeaderIdParts(pid) else [];
    var row := if |ids| == 2 then CardRow(ids[0], ids[1], "", "") else EmptyRow;
    var inDoc := if |ids| == 2 then false else st.inDocTypes;
    ScanState(if |parts| >= 2 then row.(names := StripQuotes(parts[1])) else row, inDoc, found)
  }

  /** A header line, second part: either open a multi-line document-type field, or read a
      one-line field and flush the row. */
  function HeaderDocTypes(st: ScanState, t: string, searchId: string): ScanState {
    match IndexOf(t, DocTypesStart)
    case None => st
    case Some(start) =>
      if !EndsWith(t, "\"") then ScanState(st.row.(documentTypes := t[start + 1..]), true, st.found)
      else
        assert OccursAt(t, DocTypesStart, start);
        ScanState(EmptyRow, st.inDocTypes, Resolve(st.found, RowDetails(st.row.(documentTypes := t[start + 1..|t| - 1]), searchId)))
  }

  /** A line inside a multi-line document-type field: up to a closing quote it ends the field
      and flushes the row, otherwise it is appended. */
  function ContinuationStep(st: ScanState, t: string, searchId: string): ScanState {
    match IndexOf(t, "\"")
    case Some(q) =>
      var row := st.row.(documentTypes := st.row.documentTypes + "\n" + t[..q]);
      ScanState(EmptyRow, false, Resolve(st.found, RowDetails(row, searchId)))
    case None =>
      ScanState(st.row.(documentTypes := st.row.documentTypes + "\n" + t), true, st.found)
  }

  function Step(st: ScanState, line: string, searchId: string): ScanState {
    var t := Trim(line);
    if t == "" then st
    else if StartsWith(t, HeaderStart) then HeaderDocTypes(HeaderRow(st, t, searchId), t, searchId)
    else if st.inDocTypes then ContinuationStep(st, t, searchId)
    else st
  }

  function Scan(lines: seq<string>, searchId: string): ScanState {
    if lines == [] then ScanState(EmptyRow, false, None)
    else Step(Scan(lines[..|lines| - 1], searchId), lines[|lines| - 1], searchId)
  }

  /** The lines the stream handler processes: every `\n`-terminated line; an unterminated last
      line stays in the buffer and is never processed. */
  function CardLines(text: string): seq<string> {
    var parts := Split(text, "\n");
    parts[..|parts| - 1]
  }

  /** What `getParticipantDetailsFromBusinessCards` resolves with, `None` standing for `null`;
      `cards` is the export's text, `None` when the file does not exist. */
  function CardSearch(cards: Option<string>, searchId: string): Option<Details> {
    match cards
    case None => None
    case Some(text) =>
      var st := Scan(CardLines(text), searchId);
      if st.row.participantId != "" then Resolve(st.found, RowDetails(st.row, searchId)) else st.found
  }

  /** `getParticipantDetailsFromBusinessCards`: the line state machine over the export. */
  method GetParticipantDetailsFromBusinessCards(cards: Option<string>, participantId: string)
    returns (r: Option<Details>)
    ensures r == CardSearch(cards, participantId)
  {
    if cards.None? {
      return None;
    }
    var lines := CardLines(cards.value);
    var st := ScanState(EmptyRow, false, None);
    for i := 0 to |lines|
      invariant st == Scan(lines[..i], participantId)
    {
      assert lines[..i + 1][..i] == lines[..i];
      var trimmedLine := Trim(lines[i]);
      if trimmedLine == "" {
        continue;
      }
      if StartsWith(trimmedLine, HeaderStart) {
        st := StartCardRow(st, trimmedLine, participantId);
        st := ReadHeaderDocTypes(st, trimmedLine, participantId);
      } else if st.inDocTypes {
        st := ContinueDocTypes(st, trimmedLine, participantId);
      }
    }
    assert lines[..|lines|] == lines;
    r := st.found;
    if st.row.participantId != "" {
      var res := ProcessRow(st.row, participantId);
      r := Resolve(r, res);
    }
  }

  /** The first part of a header line: flush `currentRow`, then fill a new one. */
  method StartCardRow(st: ScanState, trimmedLine: string, participantId: string) returns (st': ScanState)
    ensures st' == HeaderRow(st, trimmedLine, participantId)
  {
    var currentRow, isInDocumentTypes, found := st.row, st.inDocTypes, st.found;
    if currentRow.participantId != "" {
      var res := ProcessRow(currentRow, participantId);
      found := Resolve(found, res);
    }
    currentRow := EmptyRow;
    var parts := Split(trimmedLine, ";");
    var pid := StripQuotes(parts[0]);
    if StartsWith(pid, DirectoryPrefix) {
      var idParts := HeaderIdParts(pid);
      if |idParts| == 2 {
        currentRow := CardRow(idParts[0], idParts[1], "", "");
        isInDocumentTypes := false;
      }
    }
    if |parts| >= 2 {
      currentRow := currentRow.(names := StripQuotes(parts[1]));
    }
    st' := ScanState(currentRow, isInDocumentTypes, found);
  }

  /** The second part of a header line: the document-type field, on one line or opening several. */
  method ReadHeaderDocTypes(st: ScanState, trimmedLine: string, participantId: string) returns (st': ScanState)
    ensures st' == HeaderDocTypes(st, trimmedLine, participantId)
  {
    st' := st;
    var docStart := IndexOf(trimmedLine, DocTypesStart);
    if docStart.Some? && !EndsWith(trimmedLine, "\"") {
      st' := ScanState(st.row.(documentTypes := trimmedLine[docStart.value + 1..]), true, st.found);
    } else if docStart.Some? {
      assert OccursAt(trimmedLine, DocTypesStart, docStart.value);
      var currentRow := st.row.(documentTypes := trimmedLine[docStart.value + 1..|trimmedLine| - 1]);
      var res := ProcessRow(currentRow, participantId);
      st' := ScanState(EmptyRow, st.inDocTypes, Resolve(st.found, res));
    }
  }

  /** A line inside a multi-line document-type field. */
  method ContinueDocTypes(st: ScanState, trimmedLine: string, participantId: string) returns (st': ScanState)
    ensures st' == ContinuationStep(st, trimmedLine, participantId)
  {
    var quote := IndexOf(trimmedLine, "\"");
    if quote.Some? {
      var currentRow := st.row.(documentTypes := st.row.documentTypes + "\n" + trimmedLine[..quote.value]);
      var res := ProcessRow(currentRow, participantId);
      st' := ScanState(EmptyRow, false, Resolve(st.found, res));
    } else {
      st' := ScanState(st.row.(documentTypes := st.row.documentTypes + "\n" + trimmedLine), true, st.found);
    }
  }

  /** Whatever the scanner resolves with is a row that matches the searched identifier, with its
      supported types keyed by lower-cased short name. */
  ghost predicate MatchingDetails(found: Option<Details>, searchId: string) {
    found.Some? ==>
      found.value.participantId != "" && IsMatch(found.value.participantId, searchId)
      && forall k :: k in found.value.supportedDocumentTypes <==>
           exists t :: t in found.value.allDocumentTypes && Lower(t.shortName) == k
  }

  lemma ResolveMatching(found: Option<Details>, row: CardRow, searchId: string)
    requires MatchingDetails(found, searchId)
    ensures MatchingDetails(Resolve(found, RowDetails(row, searchId)), searchId)
  {
    RowDetailsSpec(row, searchId);
  }

  lemma StepMatching(st: ScanState, line: string, searchId: string)
    requires MatchingDetails(st.found, searchId)
    ensures MatchingDetails(Step(st, line, searchId).found, searchId)
  {
    var t := Trim(line);
    if t != "" && StartsWith(t, HeaderStart) {
      ResolveMatching(st.found, st.row, searchId);
      var mid := HeaderRow(st, t, searchId);
      match IndexOf(t, DocTypesStart)
      case None =>
      case Some(start) =>
        if EndsWith(t, "\"") {
          assert OccursAt(t, DocTypesStart, start);
          ResolveMatching(mid.found, mid.row.(documentTypes := t[start + 1..|t| - 1]), searchId);
        }
    } else if t != "" && st.inDocTypes {
      match IndexOf(t, "\"")
      case Some(q) =>
        ResolveMatching(st.found, st.row.(documentTypes := st.row.documentTypes + "\n" + t[..q]), searchId);
      case None =>
    }
  }

  lemma {:induction false} ScanMatching(lines: seq<string>, searchId: string)
    ensures MatchingDetails(Scan(lines, searchId).found, searchId)
  {
    if lines != [] {
      ScanMatching(lines[..|lines| - 1], searchId);
      StepMatching(Scan(lines[..|lines| - 1], searchId), lines[|lines| - 1], searchId);
    }
  }

  /** The business-card search only ever reports a row whose identifier matches the searched one
      under the four-way rule. */
  lemma CardSearchMatches(cards: Option<string>, searchId: string)
    ensures MatchingDetails(CardSearch(cards, searchId), searchId)
  {
    if cards.Some? {
      var st := Scan(CardLines(cards.value), searchId);
      ScanMatching(CardLines(cards.value), searchId);
      ResolveMatching(st.found, st.row, searchId);
    }
  }

  /** The first resolved row wins: once a row has been resolved, later lines never change it. */
  lemma {:induction false} ScanFirstWins(a: seq<string>, b: seq<string>, searchId: string)
    requires Scan(a, searchId).found.Some?
    ensures Scan(a + b, searchId).found == Scan(a, searchId).found
    decreases |b|
  {
    if b == [] {
      assert a + b == a;
    } else {
      var init := b[..|b| - 1];
      assert (a + b)[..|a + b| - 1] == a + init;
      ScanFirstWins(a, init, searchId);
      StepKeepsFound(Scan(a + init, searchId), b[|b| - 1], searchId);
    }
  }

  lemma StepKeepsFound(st: ScanState, line: string, searchId: string)
    requires st.found.Some?
    ensures Step(st, line, searchId).found == st.found
  {
    var t := Trim(line);
    if t != "" && StartsWith(t, HeaderStart) {
      var h := HeaderRow(st, t, searchId);
      assert h.found == st.found;
      HeaderDocTypesKeepsFound(h, t, searchId);
    }
  }

  lemma HeaderDocTypesKeepsFound(st: ScanState, t: string, searchId: string)
    requires st.found.Some?
    ensures HeaderDocTypes(st, t, searchId).found == st.found
  {
  }

  // ---------------------------------------------------------------------------------------------
  // The two searches

  /** The support flags of a `participants` table row. */
  datatype StoreRow = StoreRow(supportsInvoice: bool, supportsCreditnote: bool)

  datatype MatchType = Direct | AlternativeSchemes | NotFound

  /** One alternative the directory offers. */
  datatype AltScheme = AltScheme(scheme: string, participantId: string, fullId: string,
                                 isNormalized: bool, originalId: string)

  /** The lookup response; `supportsDocumentType` is `None` for `null`, and an absent scheme or
      company name is `None`. The user-facing `message` text is not modelled. */
  datatype Response = Response(participantId: string, schemeId: Option<string>, documentType: string,
                               matchType: MatchType, companyName: Option<string>,
                               allDocumentTypes: seq<DocType>, supportedDocumentTypes: set<string>,
                               supportsDocumentType: Option<bool>, alternativeSchemes: seq<AltScheme>)

  /** `{ found, response }`; the database miss carries no response. */
  datatype SearchResult = SearchResult(found: bool, response: Option<Response>)

  /** The database's answer to `SELECT * FROM participants WHERE full_pid = ?`: the store maps full
      participant ids to rows, and `None` stands for a query that throws. */
  type Store = Option<map<string, StoreRow>>

  /** What `searchInDatabase` returns. The identifier it reports and searches the business cards
      for is the second `:`-field of the full id, the scheme the first. */
  function DatabaseSearch(store: Store, fullPid: string, documentType: string, cards: Option<string>): SearchResult
    requires Contains(fullPid, ":")
  {
    if store.None? || fullPid !in store.value then SearchResult(false, None)
    else
      var row := store.value[fullPid];
      var fields := Split(fullPid, ":");
      var participantId := fields[1];
      var response :=
        match CardSearch(cards, participantId)
        case Some(d) =>
          Response(participantId, Some(fields[0]), documentType, Direct, Some(d.companyName),
                   d.allDocumentTypes, d.supportedDocumentTypes,
                   if documentType == "" then None else Some(Lower(documentType) in d.supportedDocumentTypes), [])
        case None =>
          Response(participantId, Some(fields[0]), documentType, Direct, Some("Unknown"), [], {},
                   if documentType == "" then None
                   else Some(if documentType == "Invoice" then row.supportsInvoice else row.supportsCreditnote), []);
      SearchResult(true, Some(response))
  }

  /** `searchInDatabase`. */
  method SearchInDatabase(store: Store, fullPid: string, documentType: string, cards: Option<string>)
    returns (result: SearchResult)
    requires Contains(fullPid, ":")
    ensures result == DatabaseSearch(store, fullPid, documentType, cards)
  {
    if store.None? || fullPid !in store.value {
      return SearchResult(false, None);
    }
    var row := store.value[fullPid];
    var participantId := Split(fullPid, ":")[1];
    var businessDetails := GetParticipantDetailsFromBusinessCards(cards, participantId);
    var response := Response(participantId, Some(Split(fullPid, ":")[0]), documentType, Direct, None, [], {}, None, []);
    if businessDetails.Some? {
      var d := businessDetails.value;
      response := response.(companyName := Some(d.companyName), allDocumentTypes := d.allDocumentTypes,
                            supportedDocumentTypes := d.supportedDocumentTypes);
      if documentType != "" {
        response := response.(supportsDocumentType := Some(Lower(documentType) in d.supportedDocumentTypes));
      }
    } else {
      response := response.(companyName := Some("Unknown"));
      if documentType != "" {
        response := response.(supportsDocumentType :=
          Some(if documentType == "Invoice" then row.supportsInvoice else row.supportsCreditnote));
      }
    }
    result := SearchResult(true, Some(response));
  }

  /** The database search finds exactly the stored full ids, reports them as direct matches, and
      answers the document-type question with `null` exactly when no type was asked for; when the
      business cards know the participant it answers from their document types, otherwise from the
      row's invoice flag for "Invoice" and its credit-note flag for anything else. */
  lemma DatabaseSearchSpec(store: Store, fullPid: string, documentType: string, cards: Option<string>)
    requires Contains(fullPid, ":")
    ensures var r := DatabaseSearch(store, fullPid, documentType, cards);
      (r.found <==> store.Some? && fullPid in store.value)
      && (r.found ==> (r.response.Some? && r.response.value.matchType == Direct
                       && (r.response.value.supportsDocumentType.None? <==> documentType == "")))
      && (!r.found ==> r.response.None?)
    ensures var r := DatabaseSearch(store, fullPid, documentType, cards);
      r.found && documentType != "" ==> (
        var participantId := Split(fullPid, ":")[1];
        var row := store.value[fullPid];
        r.response.value.supportsDocumentType == Some(
          match CardSearch(cards, participantId)
          case Some(d) => exists t :: t in d.allDocumentTypes && Lower(t.shortName) == Lower(documentType)
          case None => if documentType == "Invoice" then row.supportsInvoice else row.supportsCreditnote))
  {
    if store.Some? && fullPid in store.value {
      var participantId := Split(fullPid, ":")[1];
      match CardSearch(cards, participantId)
      case Some(d) =>
        CardSearchMatches(cards, participantId);
      case None =>
    }
  }

  /** The route's full id `scheme:identifier`, for a scheme without a colon and an identifier
      without one, is read back into the same scheme and identifier. */
  lemma DatabaseSearchEchoesIds(store: Store, scheme: string, id: string, documentType: string, cards: Option<string>)
    requires ':' !in scheme && ':' !in id && store.Some? && FullPid(scheme, id) in store.value
    ensures Contains(FullPid(scheme, id), ":")
    ensures var r := DatabaseSearch(store, FullPid(scheme, id), documentType, cards).response.value;
      r.participantId == id && r.schemeId == Some(scheme)
  {
    assert FullPid(scheme, id) == scheme + [':'] + id;
    assert OccursAt(FullPid(scheme, id), ":", |scheme|);
    SplitCharHead(scheme, ':', id);
    SplitOfColonFree(id);
  }

  /** The lookup keys of the alternative search: the lower-cased identifier and its lower-cased
      normalised form, once each. */
  function SearchKeys(participantId: string): seq<string> {
    Dedup([Lower(participantId), Lower(Normalize(participantId))])
  }

  /** The buckets of the keys, concatenated in key order. */
  function Collected(index: Index, keys: seq<string>): seq<DirEntry> {
    if keys == [] then [] else Collected(index, keys[..|keys| - 1]) + Bucket(index, keys[|keys| - 1])
  }

  function FullIdOf(e: DirEntry): string { e.fullId }

  function AltOf(e: DirEntry): AltScheme {
    AltScheme(e.scheme, e.participantId, e.fullId, e.isNormalized, e.participantId)
  }

  /** The directory entries found under the search keys, one per full id, first occurrence kept. */
  function Matches(participantId: string, index: Index): seq<DirEntry> {
    DedupBy(Collected(index, SearchKeys(participantId)), FullIdOf)
  }

  /** What `searchAlternativeSchemes` returns. */
  function AlternativeSearch(participantId: string, documentType: string, index: Index): SearchResult {
    var unique := Matches(participantId, index);
    if unique == [] then
      SearchResult(false, Some(Response(participantId, None, documentType, NotFound, None, [], {}, Some(false), [])))
    else
      SearchResult(true, Some(Response(participantId, Some("unknown"), documentType, AlternativeSchemes, None, [], {},
                                       Some(false), seq(|unique|, i requires 0 <= i < |unique| => AltOf(unique[i])))))
  }

  /** `searchAlternativeSchemes`. */
  method SearchAlternativeSchemes(participantId: string, documentType: string, participantList: Index)
    returns (result: SearchResult)
    ensures result == AlternativeSearch(participantId, documentType, participantList)
  {
    var normalized := NormalizeParticipantId(participantId);
    var searchKeys := Dedup([Lower(participantId), Lower(normalized)]);
    var allAlternativeSchemes: seq<DirEntry> := [];
    for i := 0 to |searchKeys|
      invariant allAlternativeSchemes == Collected(participantList, searchKeys[..i])
    {
      assert searchKeys[..i + 1][..i] == searchKeys[..i];
      var key := searchKeys[i];
      if key in participantList {
        allAlternativeSchemes := allAlternativeSchemes + participantList[key];
      }
    }
    assert searchKeys[..|searchKeys|] == searchKeys;
    if allAlternativeSchemes == [] {
      return SearchResult(false, Some(Response(participantId, None, documentType, NotFound, None, [], {}, Some(false), [])));
    }
    var uniqueSchemes := DedupBy(allAlternativeSchemes, FullIdOf);
    DedupByProperties(allAlternativeSchemes, FullIdOf);
    assert FullIdOf(allAlternativeSchemes[0]) in Keys(uniqueSchemes, FullIdOf);
    var alternatives := seq(|uniqueSchemes|, i requires 0 <= i < |uniqueSchemes| => AltOf(uniqueSchemes[i]));
    result := SearchResult(true, Some(Response(participantId, Some("unknown"), documentType, AlternativeSchemes, None,
                                               [], {}, Some(false), alternatives)));
  }

  lemma SearchKeysMember(participantId: string, key: string)
    ensures key in SearchKeys(participantId) <==>
      key == Lower(participantId) || key == Lower(Normalize(participantId))
  {
    DedupProperties([Lower(participantId), Lower(Normalize(participantId))]);
  }

  lemma {:induction false} CollectedMember(index: Index, keys: seq<string>, e: DirEntry)
    ensures e in Collected(index, keys) <==> exists j :: 0 <= j < |keys| && e in Bucket(index, keys[j])
  {
    if keys != [] {
      var init := keys[..|keys| - 1];
      CollectedMember(index, init, e);
      if j :| 0 <= j < |keys| && e in Bucket(index, keys[j]) {
        if j < |init| {
          assert init[j] == keys[j];
        }
      }
    }
  }

  /** An entry a row pushes records the row's id, scheme and identifier, and sits under the
      lower-cased identifier, or under its lower-cased normalised form when it is the normalised
      entry. */
  lemma RowPushesShape(participantId: string, key: string, e: DirEntry)
    requires (key, e) in RowPushes(participantId)
    ensures ParseDirectoryId(participantId) == Some((e.scheme, e.participantId)) && e.fullId == participantId
    ensures key == if e.isNormalized then Lower(Normalize(e.participantId)) else Lower(e.participantId)
  {
  }

  /** An entry in the bucket of `key` comes from a directory row, and `key` is that row's
      lower-cased identifier or, for the normalised entry, its lower-cased normalised form. */
  lemma BucketEntrySound(rows: seq<string>, key: string, e: DirEntry)
    requires e in Bucket(DirectoryIndex(rows), key)
    ensures exists i :: 0 <= i < |rows| && rows[i] == e.fullId && ParseDirectoryId(rows[i]) == Some((e.scheme, e.participantId))
    ensures key == if e.isNormalized then Lower(Normalize(e.participantId)) else Lower(e.participantId)
  {
    DirectoryIndexMember(rows, key, e);
    var i :| 0 <= i < |rows| && (key, e) in RowPushes(rows[i]);
    RowPushesShape(rows[i], key, e);
  }

  /** A collected entry sits in the bucket of one of the two search keys. */
  lemma MatchesKey(participantId: string, index: Index, e: DirEntry) returns (key: string)
    requires e in Matches(participantId, index)
    ensures e in Bucket(index, key)
    ensures key == Lower(participantId) || key == Lower(Normalize(participantId))
  {
    var keys := SearchKeys(participantId);
    DedupByProperties(Collected(index, keys), FullIdOf);
    CollectedMember(index, keys, e);
    var jj :| 0 <= jj < |keys| && e in Bucket(index, keys[jj]);
    key := keys[jj];
    SearchKeysMember(participantId, key);
  }

  /** Every entry the search collects is a directory row whose identifier matches the searched
      one under the four-way rule of the business-card matcher. */
  lemma MatchesSound(rows: seq<string>, participantId: string, e: DirEntry)
    requires e in Matches(participantId, DirectoryIndex(rows))
    ensures exists i :: 0 <= i < |rows| && rows[i] == e.fullId && ParseDirectoryId(rows[i]) == Some((e.scheme, e.participantId))
    ensures IsMatch(e.participantId, participantId)
  {
    var key := MatchesKey(participantId, DirectoryIndex(rows), e);
    BucketEntrySound(rows, key, e);
  }

  /** The entry a matching row files under one of the search keys. */
  lemma MatchingRowEntry(rows: seq<string>, participantId: string, i: int) returns (e: DirEntry)
    requires 0 <= i < |rows| && ParseDirectoryId(rows[i]).Some?
    requires IsMatch(ParseDirectoryId(rows[i]).value.1, participantId)
    ensures e.fullId == rows[i] && e in Collected(DirectoryIndex(rows), SearchKeys(participantId))
  {
    var (scheme, id) := ParseDirectoryId(rows[i]).value;
    var keys := SearchKeys(participantId);
    RowPushesAccepted(rows[i]);
    var key;
    if Lower(id) == Lower(participantId) || Lower(id) == Lower(Normalize(participantId)) {
      key, e := Lower(id), DirEntry(scheme, id, rows[i], false);
    } else {
      key, e := Lower(Normalize(id)), DirEntry(scheme, id, rows[i], true);
    }
    assert (key, e) in RowPushes(rows[i]);
    DirectoryIndexMember(rows, key, e);
    SearchKeysMember(participantId, key);
    var jj :| 0 <= jj < |keys| && keys[jj] == key;
    CollectedMember(DirectoryIndex(rows), keys, e);
  }

  /** Every directory row whose identifier matches the searched one under the four-way rule is
      collected: the index and its two lookup keys lose no match. */
  lemma MatchesComplete(rows: seq<string>, participantId: string, i: int)
    requires 0 <= i < |rows| && ParseDirectoryId(rows[i]).Some?
    requires IsMatch(ParseDirectoryId(rows[i]).value.1, participantId)
    ensures exists m :: (0 <= m < |Matches(participantId, DirectoryIndex(rows))|
                         && Matches(participantId, DirectoryIndex(rows))[m].fullId == rows[i])
  {
    var e := MatchingRowEntry(rows, participantId, i);
    var all := Collected(DirectoryIndex(rows), SearchKeys(participantId));
    DedupByProperties(all, FullIdOf);
    var k :| 0 <= k < |all| && all[k] == e;
    assert FullIdOf(all[k]) in Keys(all, FullIdOf);
    KeysMember(Matches(participantId, DirectoryIndex(rows)), FullIdOf, rows[i]);
  }

  /** Each alternative is the view of one collected entry. */
  lemma AlternativeOf(participantId: string, documentType: string, index: Index, a: AltScheme) returns (e: DirEntry)
    requires a in AlternativeSearch(participantId, documentType, index).response.value.alternativeSchemes
    ensures e in Matches(participantId, index) && a == AltOf(e)
  {
    var unique := Matches(participantId, index);
    var j :| 0 <= j < |unique| && a == AltOf(unique[j]);
    e := unique[j];
  }

  /** Each collected entry is offered, and the search then reports success. */
  lemma AlternativeFor(participantId: string, documentType: string, index: Index, m: int)
    requires 0 <= m < |Matches(participantId, index)|
    ensures var r := AlternativeSearch(participantId, documentType, index);
      r.found && AltOf(Matches(participantId, index)[m]) in r.response.value.alternativeSchemes
  {
    var alts := AlternativeSearch(participantId, documentType, index).response.value.alternativeSchemes;
    assert alts[m] == AltOf(Matches(participantId, index)[m]);
  }

  /** The alternatives offered are exactly the matching directory rows: each one is a row whose
      identifier matches, carrying its own identifier as `originalId`, and every matching row is
      offered. */
  lemma AlternativeSearchSound(rows: seq<string>, participantId: string, documentType: string, a: AltScheme)
    requires a in AlternativeSearch(participantId, documentType, DirectoryIndex(rows)).response.value.alternativeSchemes
    ensures exists i :: 0 <= i < |rows| && rows[i] == a.fullId && ParseDirectoryId(rows[i]) == Some((a.scheme, a.participantId))
    ensures IsMatch(a.participantId, participantId) && a.originalId == a.participantId
  {
    var e := AlternativeOf(participantId, documentType, DirectoryIndex(rows), a);
    MatchesSound(rows, participantId, e);
  }

  lemma AlternativeSearchComplete(rows: seq<string>, participantId: string, documentType: string, i: int)
    requires 0 <= i < |rows| && ParseDirectoryId(rows[i]).Some?
    requires IsMatch(ParseDirectoryId(rows[i]).value.1, participantId)
    ensures AlternativeSearch(participantId, documentType, DirectoryIndex(rows)).found
    ensures exists a :: (a in AlternativeSearch(participantId, documentType, DirectoryIndex(rows)).response.value.alternativeSchemes
                         && a.fullId == rows[i])
  {
    MatchesComplete(rows, participantId, i);
    var unique := Matches(participantId, DirectoryIndex(rows));
    var m :| 0 <= m < |unique| && unique[m].fullId == rows[i];
    AlternativeFor(participantId, documentType, DirectoryIndex(rows), m);
  }

  /** The alternative search never claims support for the document type; it finds something
      exactly when a lookup key has a bucket; its alternatives have distinct full ids, and the
      entries found under the identifier itself come first, in directory order. */
  lemma AlternativeSearchShape(participantId: string, documentType: string, index: Index)
    ensures var r := AlternativeSearch(participantId, documentType, index);
      r.response.Some? && r.response.value.supportsDocumentType == Some(false)
      && (r.found <==> Bucket(index, Lower(participantId)) != [] || Bucket(index, Lower(Normalize(participantId))) != [])
      && (r.found ==> r.response.value.matchType == AlternativeSchemes && r.response.value.schemeId == Some("unknown"))
      && (!r.found ==> r.response.value.matchType == NotFound && r.response.value.alternativeSchemes == [])
    ensures var alts := AlternativeSearch(participantId, documentType, index).response.value.alternativeSchemes;
      forall x, y :: 0 <= x < y < |alts| ==> alts[x].fullId != alts[y].fullId
    ensures var alts := AlternativeSearch(participantId, documentType, index).response.value.alternativeSchemes;
      var first := DedupBy(Bucket(index, Lower(participantId)), FullIdOf);
      |first| <= |alts| && forall x :: 0 <= x < |first| ==> alts[x] == AltOf(first[x])
  {
    var m := Matches(participantId, index);
    MatchesShape(participantId, index);
    var first := DedupBy(Bucket(index, Lower(participantId)), FullIdOf);
    assert forall x :: 0 <= x < |first| ==> first[x] == m[x];
  }

  /** The entries collected for the search keys: the bucket of the lower-cased id, then, when
      the normalised key differs, the bucket of the normalised one. */
  lemma CollectedSearchKeys(participantId: string, index: Index)
    ensures var k1, k2 := Lower(participantId), Lower(Normalize(participantId));
      Collected(index, SearchKeys(participantId)) == Bucket(index, k1) + (if k1 == k2 then [] else Bucket(index, k2))
  {
    var k1, k2 := Lower(participantId), Lower(Normalize(participantId));
    DedupPair(k1, k2);
    assert [k1, k2][..1] == [k1];
    assert [k1][..0] == [];
    assert Collected(index, [k1]) == Bucket(index, k1);
  }

  /** The matches are empty exactly when both buckets are, have distinct full ids, and start
      with the deduplicated bucket of the lower-cased id. */
  lemma MatchesShape(participantId: string, index: Index)
    ensures var m := Matches(participantId, index);
      (m == [] <==> Bucket(index, Lower(participantId)) == [] && Bucket(index, Lower(Normalize(participantId))) == [])
      && (forall x, y :: 0 <= x < y < |m| ==> m[x].fullId != m[y].fullId)
      && DedupBy(Bucket(index, Lower(participantId)), FullIdOf) <= m
  {
    var k1, k2 := Lower(participantId), Lower(Normalize(participantId));
    var all := Collected(index, SearchKeys(participantId));
    CollectedSearchKeys(participantId, index);
    var rest := if k1 == k2 then [] else Bucket(index, k2);
    DedupByProperties(all, FullIdOf);
    DedupByPrefix(Bucket(index, k1), rest, FullIdOf);
    if all != [] {
      assert FullIdOf(all[0]) in Keys(all, FullIdOf);
    }
  }

}
