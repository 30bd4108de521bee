/** The SQLite import: accepted business-card CSV rows become five-value tuples, buffered and
    written 500 at a time with INSERT OR REPLACE. */
module ImportCsv {
  import opened Text
  import opened Seqs
  import opened PeppolIds
  import opened Batch
  import opened CsvRows

  const BatchSize: nat := 500

  /** `[fullPid, schemeId, endpointId, supportsInvoice ? 1 : 0, supportsCredit ? 1 : 0]`. */
  datatype Tuple = Tuple(fullPid: string, schemeId: string, endpointId: string, invoice: int, creditnote: int)

  /** The tuple of a row; `None` when the row is skipped. */
  function ImportTuple(row: CsvRow): Option<Tuple> {
    match TrimmedRowPid(row)
    case None => None
    case Some((schemeId, endpointId)) =>
      Some(Tuple(FullPid(schemeId, endpointId), schemeId, endpointId,
                 if Contains(row.documentTypes, "Invoice-2::Invoice") then 1 else 0,
                 if Contains(row.documentTypes, "CreditNote-2::CreditNote") then 1 else 0))
  }

  predicate Accepted(row: CsvRow) {
    ImportTuple(row).Some?
  }

  function TupleOf(row: CsvRow): Tuple {
    match ImportTuple(row)
    case Some(t) => t
    case None => Tuple("", "", "", 0, 0)
  }

  /** The tuples of the accepted rows, in order. */
  function Tuples(rows: seq<CsvRow>): seq<Tuple> {
    FilterMap(rows, Accepted, TupleOf)
  }

  /** A tuple's flags are 1 or 0 and say whether the document column holds the UBL marker. */
  lemma ImportTupleSpec(row: CsvRow)
    requires Accepted(row)
    ensures var t := TupleOf(row);
      && t.fullPid == FullPid(t.schemeId, t.endpointId) && t.schemeId != "" && t.endpointId != ""
      && (t.invoice == 1 <==> Contains(row.documentTypes, "Invoice-2::Invoice"))
      && (t.creditnote == 1 <==> Contains(row.documentTypes, "CreditNote-2::CreditNote"))
      && 0 <= t.invoice <= 1 && 0 <= t.creditnote <= 1
  {
  }

  function TupleCells(t: Tuple): seq<Cell> {
    [Str(t.fullPid), Str(t.schemeId), Str(t.endpointId), Num(t.invoice), Num(t.creditnote)]
  }

  const Group: string := "(?, ?, ?, ?, ?)"

  /** `buffer.map(() => "(?, ?, ?, ?, ?)").join(",")`. */
  function Groups(n: nat): string {
    Join(seq(n, _ => Group), ",")
  }

  /** One flush: the statement text and the flattened buffer. */
  function Flush(buffer: seq<Tuple>): (string, seq<Cell>) {
    ("INSERT OR REPLACE INTO participants VALUES " + Groups(|buffer|), BatchValues(buffer, TupleCells))
  }

  function CountChar(s: string, c: char): nat {
    if s == [] then 0 else CountChar(s[..|s| - 1], c) + if s[|s| - 1] == c then 1 else 0
  }

  lemma {:induction false} CountCharAppend(a: string, b: string, c: char)
    ensures CountChar(a + b, c) == CountChar(a, c) + CountChar(b, c)
    decreases |b|
  {
    if b == [] {
      assert a + b == a;
    } else {
      assert (a + b)[..|a + b| - 1] == a + b[..|b| - 1];
      CountCharAppend(a, b[..|b| - 1], c);
    }
  }

  /** The statement has exactly one `?` per bound value: five per buffered tuple. */
  lemma FlushAligned(buffer: seq<Tuple>)
    ensures CountChar(Flush(buffer).0, '?') == |Flush(buffer).1| == 5 * |buffer|
  {
    GroupsMarks(|buffer|);
    ValuesLength(buffer, 5, TupleCells);
    CountCharAppend("INSERT OR REPLACE INTO participants VALUES ", Groups(|buffer|), '?');
    assert CountChar("INSERT OR REPLACE INTO participants VALUES ", '?') == 0 by {
      NoCharCount("INSERT OR REPLACE INTO participants VALUES ", '?');
    }
  }

  lemma {:induction false} NoCharCount(s: string, c: char)
    requires c !in s
    ensures CountChar(s, c) == 0
  {
    if s != [] {
      NoCharCount(s[..|s| - 1], c);
    }
  }

  lemma {:induction false} GroupsMarks(n: nat)
    ensures CountChar(Groups(n), '?') == 5 * n
  {
    GroupMarks();
    if n > 1 {
      GroupsMarks(n - 1);
      assert seq(n, _ => Group)[1..] == seq(n - 1, _ => Group);
      CountCharAppend(Group + ",", Groups(n - 1), '?');
      CountCharAppend(Group, ",", '?');
    }
  }

  /** One row's group `(?, ?, ?, ?, ?)` holds five marks. */
  lemma GroupMarks()
    ensures CountChar(Group, '?') == 5
  {
    assert CountChar("", '?') == 0;
    assert CountChar("(", '?') == 0 by { assert "("[..0] == ""; }
    assert CountChar("(?", '?') == 1 by { assert "(?"[..1] == "("; }
    assert CountChar("(?,", '?') == 1 by { assert "(?,"[..2] == "(?"; }
    assert CountChar("(?, ", '?') == 1 by { assert "(?, "[..3] == "(?,"; }
    assert CountChar("(?, ?", '?') == 2 by { assert "(?, ?"[..4] == "(?, "; }
    assert CountChar("(?, ?,", '?') == 2 by { assert "(?, ?,"[..5] == "(?, ?"; }
    assert CountChar("(?, ?, ", '?') == 2 by { assert "(?, ?, "[..6] == "(?, ?,"; }
    assert CountChar("(?, ?, ?", '?') == 3 by { assert "(?, ?, ?"[..7] == "(?, ?, "; }
    assert CountChar("(?, ?, ?,", '?') == 3 by { assert "(?, ?, ?,"[..8] == "(?, ?, ?"; }
    assert CountChar("(?, ?, ?, ", '?') == 3 by { assert "(?, ?, ?, "[..9] == "(?, ?, ?,"; }
    assert CountChar("(?, ?, ?, ?", '?') == 4 by { assert "(?, ?, ?, ?"[..10] == "(?, ?, ?, "; }
    assert CountChar("(?, ?, ?, ?,", '?') == 4 by { assert "(?, ?, ?, ?,"[..11] == "(?, ?, ?, ?"; }
    assert CountChar("(?, ?, ?, ?, ", '?') == 4 by { assert "(?, ?, ?, ?, "[..12] == "(?, ?, ?, ?,"; }
    assert CountChar("(?, ?, ?, ?, ?", '?') == 5 by { assert "(?, ?, ?, ?, ?"[..13] == "(?, ?, ?, ?, "; }
    assert CountChar("(?, ?, ?, ?, ?)", '?') == 5 by { assert "(?, ?, ?, ?, ?)"[..14] == "(?, ?, ?, ?, ?"; }
  }

  /** The table after INSERT OR REPLACE of the tuples in order: keyed by `full_pid`. */
  function Table(tuples: seq<Tuple>): map<string, Tuple> {
    if tuples == [] then map[]
    else Table(tuples[..|tuples| - 1])[tuples[|tuples| - 1].fullPid := tuples[|tuples| - 1]]
  }

  /** A later tuple with the same `full_pid` replaces the earlier one: the table holds exactly the
      ids written, each with its last tuple. */
  lemma {:induction false} TableLastWins(tuples: seq<Tuple>, i: nat)
    requires i < |tuples|
    requires forall j :: i < j < |tuples| ==> tuples[j].fullPid != tuples[i].fullPid
    ensures tuples[i].fullPid in Table(tuples) && Table(tuples)[tuples[i].fullPid] == tuples[i]
  {
    if i < |tuples| - 1 {
      TableLastWins(tuples[..|tuples| - 1], i);
    }
  }

  lemma {:induction false} TableKeys(tuples: seq<Tuple>, pid: string)
    ensures pid in Table(tuples) <==> exists i :: 0 <= i < |tuples| && tuples[i].fullPid == pid
  {
    if tuples != [] {
      TableKeys(tuples[..|tuples| - 1], pid);
      if exists i :: 0 <= i < |tuples| && tuples[i].fullPid == pid {
        var i :| 0 <= i < |tuples| && tuples[i].fullPid == pid;
        if i < |tuples| - 1 {
          assert tuples[..|tuples| - 1][i] == tuples[i];
        }
      }
    }
  }

  /** The state of `importPeppolCSV` while the CSV streams in. */
  class Importer {
    var buffer: seq<Tuple>
    var rowCount: nat
    /** The buffers flushed so far, in order. */
    var flushed: seq<seq<Tuple>>

    /** The tuples accepted so far, in order. */
    ghost var tuples: seq<Tuple>

    /** Flushed buffers are full, the buffer is not, together they hold the accepted tuples in
        order, and `rowCount` counts them. */
    ghost predicate Valid()
      reads this
    {
      && Batched(flushed, buffer, tuples, BatchSize)
      && rowCount == |tuples|
    }

    constructor ()
      ensures Valid() && tuples == [] && flushed == []
    {
      buffer := [];
      rowCount := 0;
      flushed := [];
      tuples := [];
      new;
      assert Flatten(flushed) == [];
    }

    /** The `data` handler: a row with a usable id adds its tuple; other rows change
        nothing. */
    method OnData(row: CsvRow)
      requires Valid()
      modifies this
      ensures Valid()
      ensures tuples == old(tuples) + if Accepted(row) then [TupleOf(row)] else []
      ensures flushed == old(flushed) || flushed == old(flushed) + [old(buffer) + [TupleOf(row)]]
    {
      if Accepted(row) {
        Push(TupleOf(row));
      }
    }

    /** Push a tuple and count it; a full buffer is written as `Flush(buffer)`. */
    method Push(t: Tuple)
      requires Valid()
      modifies this
      ensures Valid()
      ensures tuples == old(tuples) + [t]
      ensures flushed == old(flushed) || flushed == old(flushed) + [old(buffer) + [t]]
    {
      BatchedPush(flushed, buffer, tuples, t, BatchSize);
      tuples := tuples + [t];
      buffer := buffer + [t];
      rowCount := rowCount + 1;
      if |buffer| >= BatchSize {
        flushed := flushed + [buffer];
        buffer := [];
      }
    }

    /** The `end` handler: flush a non-empty remainder. */
    method OnEnd()
      requires Valid()
      modifies this
      ensures tuples == old(tuples) && flushed == Chunks(tuples, BatchSize) && rowCount == |tuples|
    {
      BatchedEnd(flushed, buffer, tuples, BatchSize);
      if |buffer| > 0 {
        flushed := flushed + [buffer];
        buffer := [];
      }
    }
  }

  lemma TuplesSnoc(rows: seq<CsvRow>, row: CsvRow)
    ensures Tuples(rows + [row]) == Tuples(rows) + if Accepted(row) then [TupleOf(row)] else []
  {
    assert (rows + [row])[..|rows|] == rows;
  }

  lemma TuplesPrefix(rows: seq<CsvRow>, i: nat)
    requires i < |rows|
    ensures Tuples(rows[..i + 1]) == Tuples(rows[..i]) + if Accepted(rows[i]) then [TupleOf(rows[i])] else []
  {
    assert rows[..i] + [rows[i]] == rows[..i + 1];
    TuplesSnoc(rows[..i], rows[i]);
  }

  /** The whole import: the buffers written are the accepted tuples cut into slices of 500, the
      count is the number of accepted rows, and the table ends as if every tuple had been
      written one by one. */
  method ImportPeppolCsv(rows: seq<CsvRow>) returns (statements: seq<(string, seq<Cell>)>, rowCount: nat)
    ensures var cs := Chunks(Tuples(rows), BatchSize);
      statements == seq(|cs|, c requires 0 <= c < |cs| => Flush(cs[c]))
    ensures rowCount == |Tuples(rows)|
  {
    var importer := new Importer();
    for i := 0 to |rows|
      invariant importer.Valid() && importer.tuples == Tuples(rows[..i])
    {
      TuplesPrefix(rows, i);
      importer.OnData(rows[i]);
    }
    assert rows[..|rows|] == rows;
    importer.OnEnd();
    var flushed := importer.flushed;
    statements := seq(|flushed|, c requires 0 <= c < |flushed| => Flush(flushed[c]));
    rowCount := importer.rowCount;
  }

  /** Writing the accepted tuples slice by slice leaves the same table as writing them in one go. */
  lemma ChunkedTable(rows: seq<CsvRow>)
    ensures Table(Flatten(Chunks(Tuples(rows), BatchSize))) == Table(Tuples(rows))
  {
    ChunksProperties(Tuples(rows), BatchSize);
  }
}
