/** The atomic build: business-card CSV rows become records, the first row of each full
    participant id wins, and records are flushed to INSERT statements 500 at a time. */
module AtomicBuild {
  import opened Text
  import opened Seqs
  import opened PeppolIds
  import opened Batch
  import opened CsvRows

  const BatchSize: nat := 500

  /** The record of a row, before the duplicate check; `None` when the row is skipped. */
  function AtomicRecord(row: CsvRow): Option<CsvRecord> {
    match RowPid(row)
    case None => None
    case Some((schemeId, endpointId)) =>
      Some(CsvRecord(FullPid(schemeId, endpointId), schemeId, endpointId,
                     Contains(row.documentTypes, "Invoice-2::Invoice"),
                     Contains(row.documentTypes, "CreditNote-2::CreditNote"),
                     if row.names == "" then "Unknown" else row.names, row.documentTypes))
  }

  predicate Accepted(row: CsvRow) {
    AtomicRecord(row).Some?
  }

  function RecordOf(row: CsvRow): CsvRecord {
    match AtomicRecord(row)
    case Some(r) => r
    case None => CsvRecord("", "", "", false, false, "", "")
  }

  function PidOf(r: CsvRecord): string { r.fullPid }

  /** The records that reach a batch: the accepted rows' records, the first of each full id. */
  function Unique(rows: seq<CsvRow>): seq<CsvRecord> {
    DedupBy(FilterMap(rows, Accepted, RecordOf), PidOf)
  }

  /** A record's flags can be read back from its own raw column, its company name is never
      empty, and its key is `scheme:endpoint`. */
  lemma AtomicRecordSpec(row: CsvRow)
    requires AtomicRecord(row).Some?
    ensures var r := AtomicRecord(row).value;
      && r.fullPid == FullPid(r.schemeId, r.endpointId) && r.schemeId != "" && r.endpointId != ""
      && (r.supportsInvoice <==> Contains(r.rawDocumentTypes, "Invoice-2::Invoice"))
      && (r.supportsCreditnote <==> Contains(r.rawDocumentTypes, "CreditNote-2::CreditNote"))
      && r.companyName != "" && (row.names != "" ==> r.companyName == row.names)
  {
  }

  /** The records sent are the first accepted record of every full id, each once, each from an
      input row. */
  lemma UniqueSpec(rows: seq<CsvRow>)
    ensures forall i, j :: 0 <= i < j < |Unique(rows)| ==> Unique(rows)[i].fullPid != Unique(rows)[j].fullPid
    ensures Keys(Unique(rows), PidOf) == Keys(FilterMap(rows, Accepted, RecordOf), PidOf)
    ensures forall i :: 0 <= i < |Unique(rows)| ==>
      FirstWithKey(FilterMap(rows, Accepted, RecordOf), PidOf, Unique(rows)[i].fullPid) == Some(Unique(rows)[i])
  {
    DedupByProperties(FilterMap(rows, Accepted, RecordOf), PidOf);
  }

  /** One more row adds its record at the end, unless it is skipped or its id was seen. */
  lemma UniqueSnoc(rows: seq<CsvRow>, row: CsvRow)
    ensures Unique(rows + [row]) ==
      if !Accepted(row) || RecordOf(row).fullPid in Keys(Unique(rows), PidOf) then Unique(rows)
      else Unique(rows) + [RecordOf(row)]
  {
    var acc := rows + [row];
    assert acc[..|acc| - 1] == rows;
    var fm := FilterMap(acc, Accepted, RecordOf);
    var prev := FilterMap(rows, Accepted, RecordOf);
    if Accepted(row) {
      assert fm == prev + [RecordOf(row)];
      assert fm[..|fm| - 1] == prev;
      assert DedupBy(fm, PidOf) == if PidOf(RecordOf(row)) in Keys(DedupBy(prev, PidOf), PidOf) then DedupBy(prev, PidOf)
                                    else DedupBy(prev, PidOf) + [RecordOf(row)];
    } else {
      assert fm == prev;
    }
  }

  /** The state of `buildDatabase` while the CSV streams in. */
  class Builder {
    var currentBatch: seq<CsvRecord>
    var seenPids: set<string>
    /** The batches handed to `processBatch`, in order. */
    var sent: seq<seq<CsvRecord>>

    /** The records kept so far, in order. */
    ghost var records: seq<CsvRecord>

    /** The sent batches are full, the buffer is not, together they hold the kept records in
        order, and `seenPids` holds their ids. */
    ghost predicate Valid()
      reads this
    {
      && Batched(sent, currentBatch, records, BatchSize)
      && seenPids == Keys(records, PidOf)
    }

    constructor ()
      ensures Valid() && records == [] && sent == [] && currentBatch == []
    {
      currentBatch := [];
      seenPids := {};
      sent := [];
      records := [];
      new;
      assert Flatten(sent) == [];
    }

    /** The `data` handler: a row with a usable id offers its record; other rows change
        nothing. */
    method OnData(row: CsvRow)
      requires Valid()
      modifies this
      ensures Valid()
      ensures records == old(records) + if Accepted(row) && RecordOf(row).fullPid !in old(seenPids) then [RecordOf(row)] else []
      ensures sent == old(sent) || sent == old(sent) + [old(currentBatch) + [RecordOf(row)]]
    {
      if Accepted(row) {
        Keep(RecordOf(row));
      }
    }

    /** A record whose full id was seen is dropped; otherwise the id is remembered, the record
        pushed, and at 500 records the buffer is sent. */
    method Keep(record: CsvRecord)
      requires Valid()
      modifies this
      ensures Valid()
      ensures records == old(records) + if record.fullPid !in old(seenPids) then [record] else []
      ensures sent == old(sent) || sent == old(sent) + [old(currentBatch) + [record]]
    {
      if record.fullPid in seenPids {
        return;
      }
      KeysAppend(records, [record], PidOf);
      assert Keys([record], PidOf) == {record.fullPid} by { assert [record][..0] == []; }
      BatchedPush(sent, currentBatch, records, record, BatchSize);
      records := records + [record];
      seenPids := seenPids + {record.fullPid};
      currentBatch := currentBatch + [record];
      if |currentBatch| >= BatchSize {
        sent := sent + [currentBatch];
        currentBatch := [];
      }
    }

    /** The `end` handler: flush a non-empty remainder. */
    method OnEnd()
      requires Valid()
      modifies this
      ensures records == old(records) && sent == Chunks(records, BatchSize)
    {
      BatchedEnd(sent, currentBatch, records, BatchSize);
      if |currentBatch| > 0 {
        sent := sent + [currentBatch];
        currentBatch := [];
      }
    }
  }

  /** The whole stream: the batches sent are the unique records cut into slices of 500. */
  method BuildDatabase(rows: seq<CsvRow>) returns (batches: seq<seq<CsvRecord>>)
    ensures batches == Chunks(Unique(rows), BatchSize)
  {
    var builder := new Builder();
    for i := 0 to |rows|
      invariant builder.Valid() && builder.records == Unique(rows[..i])
    {
      UniquePrefix(rows, i, builder.seenPids);
      builder.OnData(rows[i]);
    }
    assert rows[..|rows|] == rows;
    builder.OnEnd();
    batches := builder.sent;
  }

  /** The kept records grow by one row at a time, as `OnData` keeps them. */
  lemma UniquePrefix(rows: seq<CsvRow>, i: nat, seen: set<string>)
    requires i < |rows| && seen == Keys(Unique(rows[..i]), PidOf)
    ensures Unique(rows[..i + 1]) == Unique(rows[..i]) +
      if Accepted(rows[i]) && RecordOf(rows[i]).fullPid !in seen then [RecordOf(rows[i])] else []
  {
    assert rows[..i] + [rows[i]] == rows[..i + 1];
    UniqueSnoc(rows[..i], rows[i]);
  }

  /** The six values of a record; `raw_document_types` is not inserted. */
  function AtomicColumns(r: CsvRecord): seq<Cell> {
    [Str(r.fullPid), Str(r.schemeId), Str(r.endpointId), Flag(r.supportsInvoice),
     Flag(r.supportsCreditnote), Str(r.companyName)]
  }

  /** `processBatch`: nothing for an empty batch, otherwise one INSERT with six placeholders
      per record. */
  function ProcessBatch(batch: seq<CsvRecord>): Option<(seq<seq<nat>>, seq<Cell>)> {
    if batch == [] then None else Some((Placeholders(|batch|, 6), BatchValues(batch, AtomicColumns)))
  }

  /** An INSERT for a non-empty batch binds `6n` values, value `6i+j` is column `j` of record
      `i`, the placeholders run `$1..$6n`, and the raw column does not affect the values. */
  lemma ProcessBatchSpec(batch: seq<CsvRecord>, raw: string)
    ensures ProcessBatch(batch).None? <==> batch == []
    ensures ProcessBatch(batch).Some? ==>
      var (placeholders, values) := ProcessBatch(batch).value;
      && |values| == 6 * |batch|
      && (forall i, j :: 0 <= i < |batch| && 0 <= j < 6 ==> 6 * i + j < |values| && values[6 * i + j] == AtomicColumns(batch[i])[j])
      && Flatten(placeholders) == seq(6 * |batch|, p requires 0 <= p < 6 * |batch| => p + 1)
    ensures forall r: CsvRecord :: AtomicColumns(r.(rawDocumentTypes := raw)) == AtomicColumns(r)
  {
    ValuesLength(batch, 6, AtomicColumns);
    forall i, j | 0 <= i < |batch| && 0 <= j < 6
      ensures 6 * i + j < |BatchValues(batch, AtomicColumns)| && BatchValues(batch, AtomicColumns)[6 * i + j] == AtomicColumns(batch[i])[j]
    {
      ValuesAligned(batch, 6, AtomicColumns, i, j);
    }
    PlaceholdersConsecutive(|batch|, 6);
  }
}
