/** A row of the business-card CSV export as the load scripts read it, the record most of them
    derive from it, and the two skip rules they apply to the identifier columns. */
module CsvRows {
  import opened Text
  import opened PeppolIds

  /** The columns "Identifier schemes", "Identifier values", "Document types" and "Names";
      a missing column is "". */
  datatype CsvRow = CsvRow(scheme: string, value: string, documentTypes: string, names: string)

  /** `{ full_pid, scheme_id, endpoint_id, supports_invoice, supports_creditnote, company_name,
      raw_document_types }`. */
  datatype CsvRecord = CsvRecord(fullPid: string, schemeId: string, endpointId: string,
                                 supportsInvoice: bool, supportsCreditnote: bool,
                                 companyName: string, rawDocumentTypes: string)

  /** `if (!scheme || !value) return;` then the `scheme:endpoint` split of the value. */
  function RowPid(row: CsvRow): (r: Option<(string, string)>)
    ensures r.Some? ==> row.scheme != "" && r.value.0 != "" && r.value.1 != ""
  {
    if row.scheme == "" || row.value == "" then None else SplitPid(row.value)
  }

  predicate Blank(s: string) {
    Trim(s) == ""
  }

  /** The stricter rule of the scripts that also reject whitespace-only columns. */
  function TrimmedRowPid(row: CsvRow): (r: Option<(string, string)>)
    ensures r.Some? ==> !Blank(row.scheme) && r.value.0 != "" && r.value.1 != ""
  {
    if Blank(row.scheme) || Blank(row.value) then None else SplitPid(row.value)
  }

  /** The stricter rule rejects exactly the rows the plain one rejects plus those whose scheme
      is whitespace only (a whitespace-only value never splits into two non-empty parts). */
  lemma TrimmedRule(row: CsvRow)
    ensures TrimmedRowPid(row) == if Blank(row.scheme) then None else RowPid(row)
  {
    if row.scheme == "" {
      assert Trim("") == "";
    }
    if !Blank(row.scheme) && Blank(row.value) && SplitPid(row.value).Some? {
      SplitPidSound(row.value);
      var (s, e) := SplitPid(row.value).value;
      TrimKeepsColon(row.value, |s|);
      assert false;
    }
    if row.value == "" {
      assert Trim("") == "";
    }
  }

  /** Trimming keeps a colon, so a text holding one is not blank. */
  lemma TrimKeepsColon(s: string, i: nat)
    requires OccursAt(s, ":", i)
    ensures !Blank(s)
  {
    TrimKeeps(s, ":", i);
  }
}
