/** The JSON-file build: one record per accepted business-card CSV row, in input order. */
module BuildDatabase {
  import opened Text
  import opened Seqs
  import opened PeppolIds
  import opened CsvRows
  import AtomicBuild

  const UblInvoice: string := "urn:oasis:names:specification:ubl:schema:xsd:Invoice-2"
  const UblCreditNote: string := "urn:oasis:names:specification:ubl:schema:xsd:CreditNote-2"

  /** The record of a row; `None` when the row is skipped. */
  function BuildRecord(row: CsvRow): Option<CsvRecord> {
    match TrimmedRowPid(row)
    case None => None
    case Some((schemeId, endpointId)) =>
      var docField := row.documentTypes;
      Some(CsvRecord(FullPid(schemeId, endpointId), schemeId, endpointId,
                     Contains(docField, "Invoice-2::Invoice") || Contains(docField, UblInvoice),
                     Contains(docField, "CreditNote-2::CreditNote") || Contains(docField, UblCreditNote),
                     if row.names == "" then "Unknown" else row.names, docField))
  }

  predicate Kept(row: CsvRow) {
    BuildRecord(row).Some?
  }

  function RecordOf(row: CsvRow): CsvRecord {
    match BuildRecord(row)
    case Some(r) => r
    case None => CsvRecord("", "", "", false, false, "", "")
  }

  /** `processCSVToJSON`: push the record of every accepted row. */
  method ProcessCsvToJson(rows: seq<CsvRow>) returns (results: seq<CsvRecord>)
    ensures results == FilterMap(rows, Kept, RecordOf)
  {
    results := [];
    for i := 0 to |rows|
      invariant results == FilterMap(rows[..i], Kept, RecordOf)
    {
      assert rows[..i + 1][..i] == rows[..i];
      match BuildRecord(rows[i])
      case None =>
      case Some(record) =>
        results := results + [record];
    }
    assert rows[..|rows|] == rows;
  }

  /** Compared with the atomic build on the same row: this build also drops rows whose scheme
      is whitespace only, and otherwise produces the same key, parts, names and raw column, with
      flags that hold at least whenever the atomic build's do (the UBL namespaces add to them). */
  lemma ComparedWithAtomic(row: CsvRow)
    ensures BuildRecord(row).Some? <==> AtomicBuild.AtomicRecord(row).Some? && !Blank(row.scheme)
    ensures BuildRecord(row).Some? ==>
      var b := BuildRecord(row).value;
      var a := AtomicBuild.AtomicRecord(row).value;
      && b.fullPid == a.fullPid && b.schemeId == a.schemeId && b.endpointId == a.endpointId
      && b.companyName == a.companyName && b.rawDocumentTypes == a.rawDocumentTypes
      && (a.supportsInvoice ==> b.supportsInvoice) && (a.supportsCreditnote ==> b.supportsCreditnote)
      && (b.supportsInvoice <==> a.supportsInvoice || Contains(b.rawDocumentTypes, UblInvoice))
      && (b.supportsCreditnote <==> a.supportsCreditnote || Contains(b.rawDocumentTypes, UblCreditNote))
  {
    TrimmedRule(row);
  }

  /** The number of accepted rows. */
  function KeptCount(rows: seq<CsvRow>): nat {
    if rows == [] then 0 else KeptCount(rows[..|rows| - 1]) + if Kept(rows[|rows| - 1]) then 1 else 0
  }

  /** Nothing is deduplicated: there are as many records as accepted rows, every accepted row's
      record is among them, and each record comes from an accepted row. */
  lemma {:induction false} ResultsPerRow(rows: seq<CsvRow>, r: CsvRecord)
    ensures |FilterMap(rows, Kept, RecordOf)| == KeptCount(rows)
    ensures r in FilterMap(rows, Kept, RecordOf) <==> exists i :: 0 <= i < |rows| && Kept(rows[i]) && r == RecordOf(rows[i])
  {
    FilterMapMember(rows, Kept, RecordOf, r);
    if rows != [] {
      ResultsPerRow(rows[..|rows| - 1], r);
    }
  }
}
