/** The enhanced build: business-card CSV rows become records keyed by full participant id,
    with document-type names parsed from the raw column, then batched into INSERT statements. */
module EnhancedBuild {
  import opened Text
  import opened Seqs
  import opened PeppolIds
  import opened Batch
  import opened CsvRows
  import ParticipantsRoute

  /** The value stored under a full participant id. */
  datatype Enhanced = Enhanced(companyName: string, rawDocumentTypes: string, documentTypes: seq<string>,
                               supportsInvoice: bool, supportsCreditnote: bool)

  /** The document-type names of the raw column. The source repeats, line for line, the raw-line
      parser of the participants route, so it is that parser; an absent column is "". */
  function DocTypes(docField: string): seq<string> {
    ParticipantsRoute.RawTypes(docField)
  }

  /** The `data` handler body: `None` when the row is skipped. */
  function EnhancedRecord(row: CsvRow): Option<(string, Enhanced)> {
    match RowPid(row)
    case None => None
    case Some((schemeId, endpointId)) =>
      var docTypes := DocTypes(row.documentTypes);
      Some((FullPid(schemeId, endpointId),
            Enhanced(row.names, row.documentTypes, docTypes,
                     ParticipantsRoute.HasLower(docTypes, "invoice"),
                     ParticipantsRoute.HasLower(docTypes, "creditnote"))))
  }

  /** A row is kept exactly when its scheme is present and its value splits into a non-empty
      scheme and endpoint; then the key is `scheme:endpoint` of colon-free parts. The names are
      exactly the parsed lines, in order and with repeats; every one is non-empty and not
      "2.1"; the flags say some name is "invoice" / "creditnote" ignoring case. */
  lemma EnhancedRecordSpec(row: CsvRow)
    ensures EnhancedRecord(row).Some? <==> row.scheme != "" && row.value != "" && SplitPid(row.value).Some?
    ensures EnhancedRecord(row).Some? ==>
      var (pid, e) := EnhancedRecord(row).value;
      (exists s, p :: pid == FullPid(s, p) && s != "" && p != "" && ':' !in s && ':' !in p)
      && e.rawDocumentTypes == row.documentTypes && e.companyName == row.names
      && (forall t :: t in e.documentTypes ==> t != "" && t != "2.1")
      && (e.supportsInvoice <==> exists i :: 0 <= i < |e.documentTypes| && Lower(e.documentTypes[i]) == "invoice")
      && (e.supportsCreditnote <==> exists i :: 0 <= i < |e.documentTypes| && Lower(e.documentTypes[i]) == "creditnote")
  {
    if EnhancedRecord(row).Some? {
      SplitPidSound(row.value);
      var e := EnhancedRecord(row).value.1;
      forall t | t in e.documentTypes ensures t != "" && t != "2.1" {
        ParticipantsRoute.RawTypesSpec(row.documentTypes, t);
      }
    }
  }

  /** `parseBusinessCardsData`: every row through the handler into the `businessData` map. */
  method ParseBusinessCardsData(rows: seq<CsvRow>) returns (businessData: Entries<string, Enhanced>)
    ensures businessData == SetAll(rows, EnhancedRecord)
  {
    businessData := [];
    for i := 0 to |rows|
      invariant businessData == SetAll(rows[..i], EnhancedRecord)
    {
      assert rows[..i + 1][..i] == rows[..i];
      match EnhancedRecord(rows[i])
      case None =>
      case Some((fullPid, data)) =>
        businessData := Upsert(businessData, fullPid, data);
    }
    assert rows[..|rows|] == rows;
  }

  /** A later row with the same key overwrites the earlier one. */
  lemma LaterRowWins(rows: seq<CsvRow>, pid: string)
    ensures UniqueKeys(SetAll(rows, EnhancedRecord))
    ensures Lookup(SetAll(rows, EnhancedRecord), pid) == LastSet(rows, EnhancedRecord, pid)
  {
    SetAllLastWins(rows, EnhancedRecord, pid);
  }

  const BatchSize: nat := 100

  /** The seven values of one entry; scheme and endpoint come from splitting the key again. */
  function EnhancedColumns(entry: (string, Enhanced)): seq<Cell> {
    var (fullPid, data) := entry;
    var parts := Split(fullPid, ":");
    [Str(fullPid), Str(parts[0]), if |parts| > 1 then Str(parts[1]) else Null,
     Flag(data.supportsInvoice), Flag(data.supportsCreditnote), Str(data.companyName),
     JsonArray(data.documentTypes)]
  }

  /** `enhancedBuild` after parsing: one INSERT per slice of 100 entries. */
  method EnhancedStatements(businessData: Entries<string, Enhanced>) returns (statements: seq<(seq<seq<nat>>, seq<Cell>)>)
    ensures statements == Statements(businessData, BatchSize, 7, EnhancedColumns)
  {
    statements := SendAll(businessData, BatchSize, 7, EnhancedColumns);
  }

  /** Re-splitting a key of the parsed map gives back the scheme and endpoint it was built from,
      so the second and third values of every row are the parts of its key. */
  lemma ColumnsRecoverParts(rows: seq<CsvRow>, i: nat)
    requires i < |SetAll(rows, EnhancedRecord)|
    ensures var entry := SetAll(rows, EnhancedRecord)[i];
      exists s, p :: entry.0 == FullPid(s, p) && EnhancedColumns(entry)[1..3] == [Str(s), Str(p)]
  {
    var entry := SetAll(rows, EnhancedRecord)[i];
    SetAllKeys(rows, EnhancedRecord, i);
    var j :| 0 <= j < |rows| && EnhancedRecord(rows[j]).Some? && EnhancedRecord(rows[j]).value.0 == entry.0;
    EnhancedRecordSpec(rows[j]);
    var s, p :| entry.0 == FullPid(s, p) && s != "" && p != "" && ':' !in s && ':' !in p;
    ColumnsOfPid(s, p, entry.1);
  }

  lemma ColumnsOfPid(s: string, p: string, data: Enhanced)
    requires s != "" && p != "" && ':' !in s && ':' !in p
    ensures EnhancedColumns((FullPid(s, p), data))[1..3] == [Str(s), Str(p)]
  {
    SplitPidRoundTrip(s, p);
  }

  /** Each entry binds seven values, placeholders run `$1..$7n`, value `7i+j` is column `j` of
      entry `i`. */
  lemma EnhancedAligned(batch: seq<(string, Enhanced)>)
    ensures forall i, j :: 0 <= i < |batch| && 0 <= j < 7 ==>
      7 * i + j < |BatchValues(batch, EnhancedColumns)| && BatchValues(batch, EnhancedColumns)[7 * i + j] == EnhancedColumns(batch[i])[j]
    ensures Flatten(Placeholders(|batch|, 7)) == seq(7 * |batch|, p requires 0 <= p < 7 * |batch| => p + 1)
  {
    ValuesLength(batch, 7, EnhancedColumns);
    forall i, j | 0 <= i < |batch| && 0 <= j < 7
      ensures 7 * i + j < |BatchValues(batch, EnhancedColumns)| && BatchValues(batch, EnhancedColumns)[7 * i + j] == EnhancedColumns(batch[i])[j]
    {
      ValuesAligned(batch, 7, EnhancedColumns, i, j);
    }
    PlaceholdersConsecutive(|batch|, 7);
  }
}
