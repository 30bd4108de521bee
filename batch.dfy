/** Multi-row INSERT statements of the load scripts: row `i` of a batch gets the placeholders
    `$(k·i+1) .. $(k·i+k)` and contributes its `k` column values, in column order, to one flat
    parameter list. */
module Batch {
  import opened Text
  import opened Seqs

  /** A value bound to a placeholder; `JsonArray` is `JSON.stringify` of a list of strings. */
  datatype Cell = Str(text: string) | Flag(flag: bool) | Num(num: int) | Null | JsonArray(items: seq<string>)

  /** The placeholder numbers of row `i` of a batch with `k` columns. */
  function RowPlaceholders(i: nat, k: nat): seq<nat> {
    seq(k, j requires 0 <= j < k => k * i + j + 1)
  }

  /** The placeholder groups of a batch of `n` rows: `batch.map((_, i) => offset = i * k ...)`. */
  function Placeholders(n: nat, k: nat): seq<seq<nat>> {
    seq(n, i requires 0 <= i < n => RowPlaceholders(i, k))
  }

  /** `batch.flatMap(row)`: every row's values, in row order. */
  function BatchValues<T>(batch: seq<T>, row: T -> seq<Cell>): seq<Cell> {
    Flatten(seq(|batch|, i requires 0 <= i < |batch| => row(batch[i])))
  }

  /** Read in order, the placeholders of a batch are exactly `$1 .. $(k·n)`, with no gap and no
      repetition. */
  lemma {:induction false} PlaceholdersConsecutive(n: nat, k: nat)
    ensures Flatten(Placeholders(n, k)) == seq(k * n, p requires 0 <= p < k * n => p + 1)
  {
    if n > 0 {
      PlaceholdersConsecutive(n - 1, k);
      assert Placeholders(n, k)[..n - 1] == Placeholders(n - 1, k);
      var all := seq(k * n, p requires 0 <= p < k * n => p + 1);
      assert all == seq(k * (n - 1), p requires 0 <= p < k * (n - 1) => p + 1) + RowPlaceholders(n - 1, k);
    }
  }

  lemma {:induction false} ValuesLength<T>(batch: seq<T>, k: nat, row: T -> seq<Cell>)
    requires forall i :: 0 <= i < |batch| ==> |row(batch[i])| == k
    ensures |BatchValues(batch, row)| == k * |batch|
    decreases |batch|
  {
    if batch != [] {
      BatchValuesSnoc(batch, row);
      ValuesLength(batch[..|batch| - 1], k, row);
      MulSucc(k, |batch| - 1);
    }
  }

  /** With `k` values per row, the value at position `k·i+j` of the batch (bound to `$(k·i+j+1)`)
      is column `j` of row `i`. */
  lemma {:induction false} ValuesAligned<T>(batch: seq<T>, k: nat, row: T -> seq<Cell>, i: nat, j: nat)
    requires forall i :: 0 <= i < |batch| ==> |row(batch[i])| == k
    requires i < |batch| && j < k
    ensures k * i + j < |BatchValues(batch, row)| && BatchValues(batch, row)[k * i + j] == row(batch[i])[j]
    decreases |batch|
  {
    var n := |batch|;
    var init := batch[..n - 1];
    BatchValuesSnoc(batch, row);
    ValuesLength(batch, k, row);
    ValuesLength(init, k, row);
    MulStep(k, i, j, n);
    if i < n - 1 {
      ValuesAligned(init, k, row, i, j);
    }
  }

  lemma BatchValuesSnoc<T>(batch: seq<T>, row: T -> seq<Cell>)
    requires batch != []
    ensures BatchValues(batch, row) == BatchValues(batch[..|batch| - 1], row) + row(batch[|batch| - 1])
  {
    var n := |batch|;
    assert seq(n, i requires 0 <= i < n => row(batch[i]))[..n - 1]
        == seq(n - 1, i requires 0 <= i < n - 1 => row(batch[..n - 1][i]));
  }

  lemma MulSucc(k: nat, m: nat)
    ensures k * (m + 1) == k * m + k
  {
  }

  /** Row `i` of `m` rows of width `k` lies before the row `m`. */
  lemma {:induction false} MulStep(k: nat, i: nat, j: nat, m: nat)
    requires i < m && j < k
    ensures k * i + j < k * m
    decreases m
  {
    MulSucc(k, m - 1);
    if i < m - 1 {
      MulStep(k, i, j, m - 1);
    }
  }

  /** The forEach that pushes each row's placeholder group and values. */
  method BuildBatch<T>(batch: seq<T>, k: nat, row: T -> seq<Cell>)
    returns (placeholders: seq<seq<nat>>, values: seq<Cell>)
    ensures placeholders == Placeholders(|batch|, k)
    ensures values == BatchValues(batch, row)
  {
    placeholders := [];
    values := [];
    for index := 0 to |batch|
      invariant placeholders == Placeholders(index, k)
      invariant values == BatchValues(batch[..index], row)
    {
      var offset := index * k;
      placeholders := placeholders + [seq(k, j requires 0 <= j < k => offset + j + 1)];
      assert placeholders == Placeholders(index + 1, k);
      BatchValuesSnoc(batch[..index + 1], row);
      assert batch[..index + 1][..index] == batch[..index];
      values := values + row(batch[index]);
    }
    assert batch[..|batch|] == batch;
  }

  /** The statements a load issues: `for (i = 0; i < n; i += size)` one INSERT per slice. */
  function Statements<T>(entries: seq<T>, size: nat, k: nat, row: T -> seq<Cell>): seq<(seq<seq<nat>>, seq<Cell>)>
    requires size > 0
  {
    var cs := Chunks(entries, size);
    seq(|cs|, c requires 0 <= c < |cs| => Statement(cs[c], k, row))
  }

  /** The INSERT of one slice: its placeholder groups and its flat parameter list. */
  function Statement<T>(batch: seq<T>, k: nat, row: T -> seq<Cell>): (seq<seq<nat>>, seq<Cell>) {
    (Placeholders(|batch|, k), BatchValues(batch, row))
  }

  /** Splitting a load into statements sends every row's values exactly once, in input order. */
  lemma StatementsSendAll<T>(entries: seq<T>, size: nat, k: nat, row: T -> seq<Cell>)
    requires size > 0
    ensures var st := Statements(entries, size, k, row);
      Flatten(seq(|st|, c requires 0 <= c < |st| => st[c].1)) == BatchValues(entries, row)
  {
    var cs := Chunks(entries, size);
    var st := Statements(entries, size, k, row);
    ChunksProperties(entries, size);
    FlattenBatchValues(cs, row);
    assert seq(|st|, c requires 0 <= c < |st| => st[c].1) == seq(|cs|, c requires 0 <= c < |cs| => BatchValues(cs[c], row));
  }

  lemma {:induction false} FlattenBatchValues<T>(cs: seq<seq<T>>, row: T -> seq<Cell>)
    ensures Flatten(seq(|cs|, c requires 0 <= c < |cs| => BatchValues(cs[c], row))) == BatchValues(Flatten(cs), row)
    decreases |cs|
  {
    if cs != [] {
      var n := |cs|;
      var init := cs[..n - 1];
      FlattenBatchValues(init, row);
      assert seq(n, c requires 0 <= c < n => BatchValues(cs[c], row))[..n - 1]
          == seq(n - 1, c requires 0 <= c < n - 1 => BatchValues(init[c], row));
      BatchValuesAppend(Flatten(init), cs[n - 1], row);
    } else {
      assert Flatten(cs) == [];
    }
  }

  lemma {:induction false} BatchValuesAppend<T>(a: seq<T>, b: seq<T>, row: T -> seq<Cell>)
    ensures BatchValues(a + b, row) == BatchValues(a, row) + BatchValues(b, row)
    decreases |b|
  {
    if b == [] {
      assert a + b == a;
      assert BatchValues(b, row) == [];
    } else {
      var ab := a + b;
      BatchValuesSnoc(ab, row);
      BatchValuesSnoc(b, row);
      assert ab[..|ab| - 1] == a + b[..|b| - 1];
      BatchValuesAppend(a, b[..|b| - 1], row);
    }
  }

  /** `for (let i = 0; i < entries.length; i += size)`: slice the entries and build one INSERT per
      slice with the forEach of `BuildBatch`. */
  method SendAll<T>(entries: seq<T>, size: nat, k: nat, row: T -> seq<Cell>)
    returns (statements: seq<(seq<seq<nat>>, seq<Cell>)>)
    requires size > 0
    ensures statements == Statements(entries, size, k, row)
  {
    statements := [];
    var i := 0;
    while i < |entries|
      invariant 0 <= i <= |entries|
      invariant statements + Statements(entries[i..], size, k, row) == Statements(entries, size, k, row)
      decreases |entries| - i
    {
      var end := if i + size < |entries| then i + size else |entries|;
      var placeholders, values := BuildBatch(entries[i..end], k, row);
      SendStep(entries, i, end, size, k, row, statements, placeholders, values);
      statements := statements + [(placeholders, values)];
      i := end;
    }
    assert entries[i..] == [];
  }

  /** One turn of the flush loop: the slice from `i` is the next statement. */
  lemma SendStep<T>(entries: seq<T>, i: nat, end: nat, size: nat, k: nat, row: T -> seq<Cell>,
                    sent: seq<(seq<seq<nat>>, seq<Cell>)>, placeholders: seq<seq<nat>>, values: seq<Cell>)
    requires size > 0 && i < |entries|
    requires end == if i + size < |entries| then i + size else |entries|
    requires (placeholders, values) == Statement(entries[i..end], k, row)
    requires sent + Statements(entries[i..], size, k, row) == Statements(entries, size, k, row)
    ensures (sent + [(placeholders, values)]) + Statements(entries[end..], size, k, row)
      == Statements(entries, size, k, row)
  {
    StatementsFront(entries[i..], size, k, row);
    assert entries[i..][..end - i] == entries[i..end];
    assert entries[i..][end - i..] == entries[end..];
  }

  /** The first statement covers the first `size` entries (or all of them), the rest follow. */
  lemma StatementsFront<T>(entries: seq<T>, size: nat, k: nat, row: T -> seq<Cell>)
    requires size > 0 && entries != []
    ensures var m := if size < |entries| then size else |entries|;
      Statements(entries, size, k, row)
      == [Statement(entries[..m], k, row)] + Statements(entries[m..], size, k, row)
  {
    var m := if size < |entries| then size else |entries|;
    if size < |entries| {
      assert Chunks(entries, size) == [entries[..size]] + Chunks(entries[size..], size);
    } else {
      assert entries[..m] == entries;
      assert Chunks(entries, size) == [entries];
      assert Chunks(entries[m..], size) == [];
    }
  }
}
