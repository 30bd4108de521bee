/** The master-table load: directory participant ids become rows of scheme, endpoint, full id
    and a country code, inserted 500 at a time, with the remainder inserted one by one. */
module LoadAll {
  import opened Text
  import opened Seqs
  import opened PeppolIds
  import opened Batch
  import ParticipantUtils

  const BatchSize: nat := 500

  datatype MasterRow = MasterRow(participantId: string, schemeId: string, endpointId: string,
                                 fullPid: string, countryCode: string)

  /** `endpointId.substring(0, 2).toUpperCase()`. */
  function CountryCode(endpointId: string): string {
    Upper(if |endpointId| < 2 then endpointId else endpointId[..2])
  }

  /** The row of a "Participant ID" column ("" when missing); `None` when it is skipped. */
  function MasterRecord(participantId: string): Option<MasterRow> {
    match ParticipantUtils.ParseDirectoryId(participantId)
    case None => None
    case Some((scheme, endpointId)) =>
      Some(MasterRow(participantId, scheme, endpointId, FullPid(scheme, endpointId), CountryCode(endpointId)))
  }

  /** A kept id starts with the directory prefix, its row has non-empty colon-free parts joined
      into the full id, and the country code is the first two characters of the endpoint (one for
      a one-character endpoint), upper-cased. Every id written as the directory writes it is
      kept and gives its parts back. */
  lemma MasterRecordSpec(participantId: string)
    ensures MasterRecord(participantId).Some? ==>
      var r := MasterRecord(participantId).value;
      && StartsWith(participantId, ParticipantUtils.DirectoryPrefix)
      && r.participantId == participantId && r.fullPid == FullPid(r.schemeId, r.endpointId)
      && r.schemeId != "" && r.endpointId != "" && ':' !in r.schemeId && ':' !in r.endpointId
      && |r.countryCode| == (if |r.endpointId| < 2 then |r.endpointId| else 2)
      && forall i :: 0 <= i < |r.countryCode| ==> r.countryCode[i] == UpperChar(r.endpointId[i])
  {
    if MasterRecord(participantId).Some? {
      ParticipantUtils.ParseDirectoryIdSound(participantId);
    }
  }

  lemma MasterRecordRoundTrip(scheme: string, endpointId: string)
    requires scheme != "" && endpointId != "" && ':' !in scheme && ':' !in endpointId
    ensures var r := MasterRecord(ParticipantUtils.DirectoryPrefix + FullPid(scheme, endpointId));
      r.Some? && r.value.schemeId == scheme && r.value.endpointId == endpointId
  {
    ParticipantUtils.ParseDirectoryIdRoundTrip(scheme, endpointId);
  }

  predicate Accepted(participantId: string) {
    MasterRecord(participantId).Some?
  }

  function RowOf(participantId: string): MasterRow {
    match MasterRecord(participantId)
    case Some(r) => r
    case None => MasterRow("", "", "", "", "")
  }

  /** The rows of the accepted ids, in order. */
  function Rows(ids: seq<string>): seq<MasterRow> {
    FilterMap(ids, Accepted, RowOf)
  }

  /** The five values of a row, in the INSERT's column order. */
  function MasterColumns(r: MasterRow): seq<Cell> {
    [Str(r.participantId), Str(r.schemeId), Str(r.endpointId), Str(r.fullPid), Str(r.countryCode)]
  }

  /** The INSERT of one full batch. */
  function BatchStatement(batch: seq<MasterRow>): (seq<seq<nat>>, seq<Cell>) {
    (Placeholders(|batch|, 5), BatchValues(batch, MasterColumns))
  }

  /** A batch statement binds five values per row, value `5i+j` is column `j` of row `i`, and its
      placeholders run `$1..$5n`. */
  lemma BatchStatementAligned(batch: seq<MasterRow>)
    ensures |BatchStatement(batch).1| == 5 * |batch|
    ensures forall i, j :: 0 <= i < |batch| && 0 <= j < 5 ==>
      5 * i + j < |BatchStatement(batch).1| && BatchStatement(batch).1[5 * i + j] == MasterColumns(batch[i])[j]
    ensures Flatten(BatchStatement(batch).0) == seq(5 * |batch|, p requires 0 <= p < 5 * |batch| => p + 1)
  {
    ValuesLength(batch, 5, MasterColumns);
    forall i, j | 0 <= i < |batch| && 0 <= j < 5
      ensures 5 * i + j < |BatchValues(batch, MasterColumns)| && BatchValues(batch, MasterColumns)[5 * i + j] == MasterColumns(batch[i])[j]
    {
      ValuesAligned(batch, 5, MasterColumns, i, j);
    }
    PlaceholdersConsecutive(|batch|, 5);
  }

  /** The number of `true` outcomes among the first `n`. */
  function CountTrue(ok: nat -> bool, n: nat): nat {
    if n == 0 then 0 else CountTrue(ok, n - 1) + if ok(n - 1) then 1 else 0
  }

  lemma CountedBatches(ok: nat -> bool, n: nat)
    ensures BatchSize * CountTrue(ok, n + 1) == BatchSize * CountTrue(ok, n) + if ok(n) then BatchSize else 0
  {
  }

  /** The state of `loadAllParticipants` while the CSV streams in. The database's answers are
      inputs: `batchOk(b)` says whether the `b`-th batch INSERT succeeded. */
  class Loader {
    var currentBatch: seq<MasterRow>
    var processed: nat
    /** The full batches inserted so far, in order. */
    var batches: seq<seq<MasterRow>>
    /** The rows pushed so far, in order. */
    ghost var rows: seq<MasterRow>

    /** The inserted batches followed by the buffer are the rows pushed so far; every inserted
        batch is full and the buffer is not; `processed` counts 500 per successful batch. */
    ghost predicate Valid(batchOk: nat -> bool)
      reads this
    {
      && Batched(batches, currentBatch, rows, BatchSize)
      && processed == BatchSize * CountTrue(batchOk, |batches|)
    }

    constructor (batchOk: nat -> bool)
      ensures Valid(batchOk) && rows == [] && batches == []
    {
      currentBatch := [];
      processed := 0;
      batches := [];
      rows := [];
      new;
      assert Flatten(batches) == [];
    }

    /** The `data` handler: a kept id's row is pushed; a skipped id changes nothing. */
    method OnData(batchOk: nat -> bool, participantId: string)
      requires Valid(batchOk)
      modifies this
      ensures Valid(batchOk)
      ensures rows == old(rows) + if Accepted(participantId) then [RowOf(participantId)] else []
      ensures batches == old(batches) || batches == old(batches) + [old(currentBatch) + [RowOf(participantId)]]
    {
      if Accepted(participantId) {
        Push(batchOk, RowOf(participantId));
      }
    }

    /** Push a row, and at 500 rows insert them as one statement; a failed INSERT is swallowed
        and leaves `processed` alone. */
    method Push(batchOk: nat -> bool, row: MasterRow)
      requires Valid(batchOk)
      modifies this
      ensures Valid(batchOk)
      ensures rows == old(rows) + [row]
      ensures batches == old(batches) || batches == old(batches) + [old(currentBatch) + [row]]
    {
      BatchedPush(batches, currentBatch, rows, row, BatchSize);
      rows := rows + [row];
      currentBatch := currentBatch + [row];
      if |currentBatch| >= BatchSize {
        var batchToInsert := currentBatch;
        currentBatch := [];
        var ok := batchOk(|batches|);
        CountedBatches(batchOk, |batches|);
        batches := batches + [batchToInsert];
        if ok {
          processed := processed + |batchToInsert|;
        }
      }
    }

    /** The `end` handler: insert the remaining rows one by one; `rowOk(i)` says whether the
        `i`-th single INSERT succeeded. */
    method OnEnd(rowOk: nat -> bool) returns (singles: seq<MasterRow>)
      modifies this
      ensures singles == old(currentBatch)
      ensures processed == old(processed) + CountTrue(rowOk, |singles|)
      ensures batches == old(batches) && rows == old(rows)
    {
      singles := currentBatch;
      for i := 0 to |singles|
        invariant processed == old(processed) + CountTrue(rowOk, i)
        invariant batches == old(batches) && rows == old(rows)
      {
        if rowOk(i) {
          processed := processed + 1;
        }
      }
    }
  }

  /** The rows grow by one id at a time, as `OnData` pushes them. */
  lemma RowsPrefix(ids: seq<string>, i: nat)
    requires i < |ids|
    ensures Rows(ids[..i + 1]) == Rows(ids[..i]) + if Accepted(ids[i]) then [RowOf(ids[i])] else []
  {
    assert ids[..i] + [ids[i]] == ids[..i + 1];
  }

  /** The whole load: the accepted rows are inserted as full batches of 500 followed by fewer
      than 500 single rows, in order; `processed` counts 500 per successful batch and one per
      successful single insert. */
  method LoadAllParticipants(ids: seq<string>, batchOk: nat -> bool, rowOk: nat -> bool)
    returns (batches: seq<seq<MasterRow>>, singles: seq<MasterRow>, processed: nat)
    ensures Flatten(batches) + singles == Rows(ids)
    ensures (forall b :: b in batches ==> |b| == BatchSize) && |singles| < BatchSize
    ensures Chunks(Rows(ids), BatchSize) == batches + if singles == [] then [] else [singles]
    ensures processed == BatchSize * CountTrue(batchOk, |batches|) + CountTrue(rowOk, |singles|)
  {
    var loader := new Loader(batchOk);
    for i := 0 to |ids|
      invariant loader.Valid(batchOk) && loader.rows == Rows(ids[..i])
    {
      RowsPrefix(ids, i);
      loader.OnData(batchOk, ids[i]);
    }
    assert ids[..|ids|] == ids;
    BatchedEnd(loader.batches, loader.currentBatch, Rows(ids), BatchSize);
    singles := loader.OnEnd(rowOk);
    batches := loader.batches;
    processed := loader.processed;
  }
}
