/** `GET /api/participants`: the document-type list it reports for each participant, the paging
    rules and queries of the listing, and the dispatch on the request path. */
module ParticipantsRoute {
  import opened Text
  import opened Seqs
  import opened PeppolIds
  import opened SqlFilters

  /** The JSON values the structured `document_types` column can hold, as far as the parser looks
      at them. */
  datatype Json = JString(str: string) | JArray(items: seq<Json>) | JOther

  /** The `document_types` column: absent, a JSON text with what `JSON.parse` makes of it (`None`
      when it throws), or an already decoded value. */
  datatype DocTypesField = NoDocTypes | JsonText(text: string, parsed: Option<Json>) | JsonValue(value: Json)

  /** The columns of a participant row that `parseDocumentTypes` reads; an absent text is "". */
  datatype ParticipantRecord = ParticipantRecord(documentTypes: DocTypesField, rawDocumentTypes: string,
                                                 supportsInvoice: bool, supportsCreditnote: bool)

  /** The array the structured column decodes to, or nothing when it is falsy, fails to parse or
      is not an array. */
  function StructuredItems(field: DocTypesField): seq<Json> {
    match field
    case NoDocTypes => []
    case JsonText(text, parsed) =>
      if text != "" && parsed.Some? && parsed.value.JArray? then parsed.value.items else []
    case JsonValue(v) => if v.JArray? then v.items else []
  }

  predicate KeptItem(item: Json) {
    item.JString? && Trim(item.str) != ""
  }

  function ItemName(item: Json): string {
    if item.JString? then Trim(item.str) else ""
  }

  /** The trimmed, non-empty strings of the structured column, in order. */
  function StructuredTypes(field: DocTypesField): seq<string> {
    FilterMap(StructuredItems(field), KeptItem, ItemName)
  }

  /** The name the raw-line parser gives a line: the pattern cascade on the cleaned line, or ""
      when the line has no "::". */
  function RawLineName(line: string): string {
    match LineName(CleanLine(line))
    case Some(n) => Trim(n)
    case None => ""
  }

  /** A raw line survives both filters: it is not blank, holds the marker, and its name is
      neither empty nor "2.1". */
  predicate KeptRawLine(line: string) {
    |Trim(line)| > 0 && Contains(line, DocIdMarker)
    && var n := RawLineName(line); n != "" && n != "2.1"
  }

  /** The names parsed from `raw_document_types`. */
  function RawTypes(raw: string): seq<string> {
    if raw == "" then [] else FilterMap(Split(raw, "\n"), KeptRawLine, RawLineName)
  }

  /** Some entry equals `name` case-insensitively. */
  predicate HasLower(types: seq<string>, name: string) {
    exists i :: 0 <= i < |types| && Lower(types[i]) == name
  }

  /** The list before the flags: the structured names, or the raw names when there are none. */
  function BaseTypes(p: ParticipantRecord): seq<string> {
    var structured := StructuredTypes(p.documentTypes);
    if |structured| == 0 then RawTypes(p.rawDocumentTypes) else structured
  }

  function WithInvoice(types: seq<string>, supportsInvoice: bool): seq<string> {
    if supportsInvoice && !HasLower(types, "invoice") then types + ["Invoice"] else types
  }

  function WithCreditNote(types: seq<string>, supportsCreditnote: bool): seq<string> {
    if supportsCreditnote && !HasLower(types, "creditnote") then types + ["CreditNote"] else types
  }

  /** What `parseDocumentTypes` returns. */
  function DocumentTypes(p: ParticipantRecord): seq<string> {
    Dedup(WithCreditNote(WithInvoice(BaseTypes(p), p.supportsInvoice), p.supportsCreditnote))
  }

  /** The `forEach` over the decoded array that pushes each trimmed, non-empty string. */
  method CollectStructured(field: DocTypesField) returns (names: seq<string>)
    ensures names == StructuredTypes(field)
  {
    names := [];
    var items := StructuredItems(field);
    for i := 0 to |items|
      invariant names == FilterMap(items[..i], KeptItem, ItemName)
    {
      assert items[..i + 1][..i] == items[..i];
      if items[i].JString? && Trim(items[i].str) != "" {
        names := names + [Trim(items[i].str)];
      }
    }
    assert items[..|items|] == items;
  }

  /** `parseDocumentTypes`: push the structured names, else the raw names, then the missing flag
      names, and drop exact duplicates. */
  method ParseDocumentTypes(p: ParticipantRecord) returns (allDocumentTypes: seq<string>)
    ensures allDocumentTypes == DocumentTypes(p)
  {
    allDocumentTypes := CollectStructured(p.documentTypes);
    if |allDocumentTypes| == 0 && p.rawDocumentTypes != "" {
      var docTypes := RawTypes(p.rawDocumentTypes);
      allDocumentTypes := allDocumentTypes + docTypes;
      assert allDocumentTypes == docTypes;
    }
    ghost var base := allDocumentTypes;
    assert base == BaseTypes(p);
    if p.supportsInvoice && !HasLower(allDocumentTypes, "invoice") {
      allDocumentTypes := allDocumentTypes + ["Invoice"];
    }
    ghost var withInvoice := allDocumentTypes;
    assert withInvoice == WithInvoice(base, p.supportsInvoice);
    if p.supportsCreditnote && !HasLower(allDocumentTypes, "creditnote") {
      allDocumentTypes := allDocumentTypes + ["CreditNote"];
    }
    assert allDocumentTypes == WithCreditNote(withInvoice, p.supportsCreditnote);
    allDocumentTypes := Dedup(allDocumentTypes);
  }

  /** Every raw name comes from a line carrying the marker, and is the pattern cascade's trimmed
      result on that cleaned line: non-empty, not "2.1", never the whole line. */
  lemma RawTypesSpec(raw: string, name: string)
    requires name in RawTypes(raw)
    ensures name != "" && name != "2.1"
    ensures exists line :: (line in Split(raw, "\n") && Contains(line, DocIdMarker)
                            && LineName(CleanLine(line)).Some? && name == Trim(LineName(CleanLine(line)).value))
  {
    var lines := Split(raw, "\n");
    FilterMapMember(lines, KeptRawLine, RawLineName, name);
    var i :| 0 <= i < |lines| && KeptRawLine(lines[i]) && name == RawLineName(lines[i]);
    assert lines[i] in lines;
  }

  /** The structured names are the trimmed, non-empty strings of the decoded array, and the raw
      column is read only when they are none. */
  lemma BaseTypesSpec(p: ParticipantRecord, name: string)
    ensures name in StructuredTypes(p.documentTypes) <==>
      exists i :: 0 <= i < |StructuredItems(p.documentTypes)| && StructuredItems(p.documentTypes)[i].JString?
        && Trim(StructuredItems(p.documentTypes)[i].str) != "" && name == Trim(StructuredItems(p.documentTypes)[i].str)
    ensures |StructuredTypes(p.documentTypes)| > 0 ==> BaseTypes(p) == StructuredTypes(p.documentTypes)
    ensures |StructuredTypes(p.documentTypes)| == 0 ==> BaseTypes(p) == RawTypes(p.rawDocumentTypes)
  {
    FilterMapMember(StructuredItems(p.documentTypes), KeptItem, ItemName, name);
  }

  /** The reported list has no duplicates; it holds the base names and, when flagged, "Invoice" or
      "CreditNote" exactly when no base name equals it case-insensitively; so a flag is always
      reflected by some entry. The names keep the order of their first occurrence: the base
      names come first, deduplicated in first-seen order, then the added flag names. */
  lemma DocumentTypesSpec(p: ParticipantRecord)
    ensures var r := DocumentTypes(p);
      (forall i, j :: 0 <= i < j < |r| ==> r[i] != r[j])
      && (forall x :: x in r <==>
            (x in BaseTypes(p)
             || (x == "Invoice" && p.supportsInvoice && !HasLower(BaseTypes(p), "invoice"))
             || (x == "CreditNote" && p.supportsCreditnote && !HasLower(BaseTypes(p), "creditnote"))))
      && (p.supportsInvoice ==> HasLower(r, "invoice"))
      && (p.supportsCreditnote ==> HasLower(r, "creditnote"))
      && Dedup(BaseTypes(p)) <= r
      && (forall i, j :: 0 <= i < j < |r| ==>
            FirstIndex(WithCreditNote(WithInvoice(BaseTypes(p), p.supportsInvoice), p.supportsCreditnote), r[i])
            < FirstIndex(WithCreditNote(WithInvoice(BaseTypes(p), p.supportsInvoice), p.supportsCreditnote), r[j]))
  {
    DocumentTypesOrder(p);
    var all := WithCreditNote(WithInvoice(BaseTypes(p), p.supportsInvoice), p.supportsCreditnote);
    FlagsSpec(BaseTypes(p), p.supportsInvoice, p.supportsCreditnote);
    DedupProperties(all);
    if p.supportsInvoice {
      DedupHasLower(all, "invoice");
    }
    if p.supportsCreditnote {
      DedupHasLower(all, "creditnote");
    }
  }

  /** The base names, deduplicated in first-seen order, come first; every name keeps the place
      of its first occurrence in the list with the flagged names added. */
  lemma DocumentTypesOrder(p: ParticipantRecord)
    ensures Dedup(BaseTypes(p)) <= DocumentTypes(p)
    ensures var all := WithCreditNote(WithInvoice(BaseTypes(p), p.supportsInvoice), p.supportsCreditnote);
      forall i, j :: 0 <= i < j < |DocumentTypes(p)| ==>
        FirstIndex(all, DocumentTypes(p)[i]) < FirstIndex(all, DocumentTypes(p)[j])
  {
    var base := BaseTypes(p);
    var all := WithCreditNote(WithInvoice(base, p.supportsInvoice), p.supportsCreditnote);
    FlagsExtend(base, p.supportsInvoice, p.supportsCreditnote);
    DedupPrefix(base, all[|base|..]);
    DedupProperties(all);
  }

  /** The flagged names are only ever appended after the base names. */
  lemma FlagsExtend(base: seq<string>, invoice: bool, creditNote: bool)
    ensures var all := WithCreditNote(WithInvoice(base, invoice), creditNote);
      |base| <= |all| && all == base + all[|base|..]
  {
  }

  /** Adding the flagged names: the list holds the base names plus "Invoice" / "CreditNote" when
      flagged and not already there ignoring case; afterwards each flag is reflected. */
  lemma FlagsSpec(base: seq<string>, invoice: bool, creditNote: bool)
    ensures var all := WithCreditNote(WithInvoice(base, invoice), creditNote);
      (forall x :: x in all <==>
         (x in base
          || (x == "Invoice" && invoice && !HasLower(base, "invoice"))
          || (x == "CreditNote" && creditNote && !HasLower(base, "creditnote"))))
      && (invoice ==> HasLower(all, "invoice"))
      && (creditNote ==> HasLower(all, "creditnote"))
  {
    var withInvoice := WithInvoice(base, invoice);
    var all := WithCreditNote(withInvoice, creditNote);
    assert Lower("Invoice") == "invoice";
    assert Lower("CreditNote") == "creditnote";
    HasLowerAppend(base, withInvoice, "creditnote");
    if invoice {
      var i :| 0 <= i < |withInvoice| && Lower(withInvoice[i]) == "invoice";
      assert all[i] == withInvoice[i];
    }
    if creditNote && !HasLower(withInvoice, "creditnote") {
      assert all[|withInvoice|] == "CreditNote";
    }
  }

  /** Appending an "Invoice" entry does not change whether a "creditnote" is present. */
  lemma HasLowerAppend(base: seq<string>, withInvoice: seq<string>, name: string)
    requires name != "invoice"
    requires withInvoice == base || withInvoice == base + ["Invoice"]
    ensures HasLower(withInvoice, name) <==> HasLower(base, name)
  {
    assert Lower("Invoice") == "invoice";
    if HasLower(withInvoice, name) {
      var i :| 0 <= i < |withInvoice| && Lower(withInvoice[i]) == name;
      assert i < |base|;
      assert withInvoice[i] == base[i];
    }
    if HasLower(base, name) {
      var i :| 0 <= i < |base| && Lower(base[i]) == name;
      assert withInvoice[i] == base[i];
    }
  }

  lemma DedupHasLower(all: seq<string>, name: string)
    requires HasLower(all, name)
    ensures HasLower(Dedup(all), name)
  {
    DedupProperties(all);
    var i :| 0 <= i < |all| && Lower(all[i]) == name;
    assert all[i] in Dedup(all);
    var j :| 0 <= j < |Dedup(all)| && Dedup(all)[j] == all[i];
  }

  /** `maxLimit`. */
  const MaxLimit: int := 1000

  /** `Math.min(limit, maxLimit)`. */
  function ActualLimit(limit: int): int {
    if limit < MaxLimit then limit else MaxLimit
  }

  /** The paging check that answers 400 when it fails. */
  predicate ValidPaging(page: int, limit: int) {
    !(page < 1 || ActualLimit(limit) < 1)
  }

  function Offset(page: int, limit: int): int {
    (page - 1) * limit
  }

  /** `Math.ceil(totalCount / limit)`. */
  function TotalPages(totalCount: nat, limit: int): nat
    requires limit >= 1
  {
    (totalCount + limit - 1) / limit
  }

  /** The page count is the ceiling: `TotalPages` pages of `limit` rows hold every row and one page
      fewer does not; page `p` starts inside the rows exactly when `p <= TotalPages`. */
  lemma TotalPagesSpec(totalCount: nat, limit: int, page: int)
    requires limit >= 1 && page >= 1
    ensures totalCount <= TotalPages(totalCount, limit) * limit
    ensures (TotalPages(totalCount, limit) - 1) * limit < totalCount || totalCount == 0 == TotalPages(totalCount, limit)
    ensures Offset(page, limit) < totalCount <==> page <= TotalPages(totalCount, limit)
  {
    var t := TotalPages(totalCount, limit);
    var n := totalCount + limit - 1;
    assert n == t * limit + n % limit;
    if page <= t {
      assert (page - 1) * limit <= (t - 1) * limit;
    } else {
      assert (page - 1) * limit >= t * limit;
    }
  }

  /** The listing's two queries, with the values bound to the second. */
  datatype ListingQueries = ListingQueries(countSql: Sql, countValues: seq<SqlValue>, dataSql: Sql, dataValues: seq<SqlValue>)

  const SelectColumns: string :=
    "\n      SELECT \n        id,\n        full_pid,\n        scheme_id,\n        endpoint_id,\n        supports_invoice,\n"
    + "        supports_creditnote,\n        company_name,\n        country_code,\n        registration_date,\n"
    + "        raw_document_types,\n        document_types,\n        created_at\n      FROM participants\n      "

  /** The queries `getParticipantsWithFilters` sends: the count under the filter values, and the
      page under the filter values followed by the limit and the offset. */
  function Listing(filters: Filters, page: int, limit: int): ListingQueries {
    var where := WhereOf(ConditionsOf(Active(filters)));
    var values := ValuesOf(filters, Active(filters));
    var n := |values|;
    ListingQueries(CountSql(where), values,
                   [Lit(SelectColumns)] + where
                   + [Lit("\n      ORDER BY company_name ASC\n      LIMIT "), Param(n + 1), Lit(" OFFSET "), Param(n + 2), Lit("\n    ")],
                   values + [Number(limit), Number(Offset(page, limit))])
  }

  /** Every placeholder of the page query has a value: the filter placeholders `$1..$n` keep their
      values, `$(n+1)` is bound to the limit and `$(n+2)` to the offset. */
  lemma ListingSpec(filters: Filters, page: int, limit: int)
    ensures var q := Listing(filters, page, limit); var n := |q.countValues|;
      q.countValues == ValuesOf(filters, Active(filters))
      && (forall m: nat :: Param(m) in q.countSql <==> 1 <= m <= n)
      && (forall m: nat :: Param(m) in q.dataSql <==> 1 <= m <= |q.dataValues|)
      && |q.dataValues| == n + 2 && q.dataValues[..n] == q.countValues
      && q.dataValues[n] == Number(limit) && q.dataValues[n + 1] == Number(Offset(page, limit))
  {
    WhereClauseSpec(filters);
    var q := Listing(filters, page, limit);
    var where := WhereOf(ConditionsOf(Active(filters)));
    var n := |q.countValues|;
    forall m: nat ensures Param(m) in q.countSql <==> Param(m) in where {
      assert q.countSql == [Lit("SELECT COUNT(*) FROM participants ")] + where;
    }
    forall m: nat ensures Param(m) in q.dataSql <==> (Param(m) in where || m == n + 1 || m == n + 2) {
      assert q.dataSql == [Lit(SelectColumns)] + where
        + [Lit("\n      ORDER BY company_name ASC\n      LIMIT "), Param(n + 1), Lit(" OFFSET "), Param(n + 2), Lit("\n    ")];
    }
  }

  /** What `GET` does for a request, short of running the queries. */
  datatype Outcome =
    | BadRequest(error: string)
    | Countries
    | Schemes
    | Count(countSql: Sql, countValues: seq<SqlValue>)
    | Page(page: int, limit: int, filters: Filters, queries: ListingQueries)

  const ByCountry: string := "/by-country/"

  /** `GET`: the paging check first, then the filters, then the path tests in order. `page` and
      `limit` are the parsed header or query values. */
  function Get(pathname: string, page: int, limit: int, q: Query): Outcome {
    var actualLimit := ActualLimit(limit);
    if page < 1 || actualLimit < 1 then BadRequest("Invalid page or limit parameters")
    else
      var filters := DropEmpty(CollectFilters(q));
      if EndsWith(pathname, "/countries") then Countries
      else if EndsWith(pathname, "/schemes") then Schemes
      else if EndsWith(pathname, "/count") then
        Count(CountSql(WhereOf(ConditionsOf(Active(filters)))), ValuesOf(filters, Active(filters)))
      else if Contains(pathname, ByCountry) then
        var countryCode := Split(pathname, ByCountry)[1];
        if countryCode == "" then BadRequest("Country code is required")
        else
          var f := filters.(countryCode := Some(countryCode));
          Page(page, actualLimit, f, Listing(f, page, actualLimit))
      else Page(page, actualLimit, filters, Listing(filters, page, actualLimit))
  }

  /** Bad paging is refused before the path is looked at, even for the country and scheme
      lists; every page served has a page of at least 1 and a limit between 1 and 1000, and its
      queries are those of its filters. */
  lemma GetPaging(pathname: string, page: int, limit: int, q: Query)
    ensures !ValidPaging(page, limit) ==> Get(pathname, page, limit, q) == BadRequest("Invalid page or limit parameters")
    ensures var o := Get(pathname, page, limit, q);
      o.Page? ==> o.page == page >= 1 && 1 <= o.limit <= MaxLimit && o.limit == ActualLimit(limit)
                  && o.queries == Listing(o.filters, o.page, o.limit)
  {
  }

  /** A `/by-country/` path that is not one of the named lists answers 400 when nothing follows
      the marker, and otherwise lists the participants of the text after it, up to the next
      marker, as the country filter over the query's other filters. */
  lemma GetByCountry(pathname: string, page: int, limit: int, q: Query)
    requires ValidPaging(page, limit) && Contains(pathname, ByCountry)
    requires !EndsWith(pathname, "/countries") && !EndsWith(pathname, "/schemes") && !EndsWith(pathname, "/count")
    ensures var code := Split(pathname, ByCountry)[1]; var o := Get(pathname, page, limit, q);
      (code == "" <==> o == BadRequest("Country code is required"))
      && (code != "" ==> o.Page? && o.filters.countryCode == Some(code) && !Contains(code, ByCountry)
                         && o.filters.(countryCode := None) == DropEmpty(CollectFilters(q)).(countryCode := None))
  {
    SplitPartsAvoidSep(pathname, ByCountry, 1);
  }

  /** Without the marker, the listing runs on the query's filters, read alias by alias. */
  lemma GetDefaultListing(pathname: string, page: int, limit: int, q: Query)
    requires ValidPaging(page, limit) && !Contains(pathname, ByCountry)
    requires !EndsWith(pathname, "/countries") && !EndsWith(pathname, "/schemes") && !EndsWith(pathname, "/count")
    ensures var o := Get(pathname, page, limit, q);
      o.Page? && o.filters.countryCode == FirstNonEmpty(q, ["country", "countryCode"])
      && o.filters.companyName == FirstNonEmpty(q, ["company", "companyName", "search"])
  {
    FiltersFromQuery(q);
  }
}
