/**
 The streaming export of one partition and the independent re-computation that verifies
 the file it wrote. A Parquet file is its rows, its footer row count and its digest; the
 columnar encoding itself is not modelled.
 */
module Parquet {
  import opened Common

  /** A source row: its time in microseconds since a fixed instant, the value of its
      source-count column as text, and the remaining columns. */
  datatype Row = Row(time: int, source: string, rest: seq<int>)

  datatype Summary = Summary(rowCount: nat, minTime: Option<int>, maxTime: Option<int>, counts: map<string, nat>)

  // ---------------------------------------------------------------- the true summary

  function Sources(rows: seq<Row>): (r: seq<string>)
    ensures |r| == |rows| && forall i :: 0 <= i < |rows| ==> r[i] == rows[i].source
  {
    seq(|rows|, i requires 0 <= i < |rows| => rows[i].source)
  }

  predicate Earliest(rows: seq<Row>, t: Option<int>) {
    match t
    case None => rows == []
    case Some(v) => (exists r :: r in rows && r.time == v) && forall r :: r in rows ==> v <= r.time
  }

  predicate Latest(rows: seq<Row>, t: Option<int>) {
    match t
    case None => rows == []
    case Some(v) => (exists r :: r in rows && r.time == v) && forall r :: r in rows ==> r.time <= v
  }

  /** How often each source occurs; empty for a dataset without a source-count column. */
  function CountsOf(rows: seq<Row>, counted: bool): map<string, nat> {
    if counted then map s | s in Sources(rows) :: multiset(Sources(rows))[s] else map[]
  }

  /** `s` says of `rows` what the database's own count, min, max and grouped counts say. */
  predicate Summarizes(s: Summary, rows: seq<Row>, counted: bool) {
    && s.rowCount == |rows|
    && Earliest(rows, s.minTime)
    && Latest(rows, s.maxTime)
    && s.counts == CountsOf(rows, counted)
  }

  lemma SummaryUnique(a: Summary, b: Summary, rows: seq<Row>, counted: bool)
    requires Summarizes(a, rows, counted) && Summarizes(b, rows, counted)
    ensures a == b
  {
    if rows != [] {
      assert a.minTime.value == b.minTime.value;
      assert a.maxTime.value == b.maxTime.value;
    }
  }

  // ---------------------------------------------------------------- counts add up

  ghost function Total(counts: map<string, nat>): nat {
    if counts == map[] then 0
    else
      var s :| s in counts;
      counts[s] + Total(counts - {s})
  }

  lemma {:induction false} TotalWithout(counts: map<string, nat>, k: string)
    requires k in counts
    ensures Total(counts) == counts[k] + Total(counts - {k})
    decreases |counts|
  {
    var s :| s in counts && Total(counts) == counts[s] + Total(counts - {s});
    if s != k {
      TotalWithout(counts - {s}, k);
      TotalWithout(counts - {k}, s);
      assert counts - {s} - {k} == counts - {k} - {s};
    }
  }

  function Increment(counts: map<string, nat>, s: string): map<string, nat> {
    counts[s := (if s in counts then counts[s] else 0) + 1]
  }

  lemma CountsAppend(rows: seq<Row>, row: Row)
    ensures CountsOf(rows + [row], true) == Increment(CountsOf(rows, true), row.source)
  {
    assert Sources(rows + [row]) == Sources(rows) + [row.source];
  }

  lemma TotalIncrement(counts: map<string, nat>, s: string)
    ensures Total(Increment(counts, s)) == Total(counts) + 1
  {
    var after := Increment(counts, s);
    TotalWithout(after, s);
    assert after - {s} == counts - {s};
    if s in counts {
      TotalWithout(counts, s);
    } else {
      assert counts - {s} == counts;
    }
  }

  /** The per-source counts of any row sequence sum to its length. */
  lemma {:induction false} CountsSumToRows(rows: seq<Row>)
    ensures Total(CountsOf(rows, true)) == |rows|
  {
    if rows == [] {
      assert CountsOf(rows, true) == map[];
    } else {
      var init, row := rows[..|rows| - 1], rows[|rows| - 1];
      assert rows == init + [row];
      CountsSumToRows(init);
      CountsAppend(init, row);
      TotalIncrement(CountsOf(init, true), row.source);
    }
  }

  // ---------------------------------------------------------------- streaming

  /** The accumulators of the streaming loops after one more row. */
  lemma SummaryAppend(s: Summary, rows: seq<Row>, row: Row, counted: bool)
    requires Summarizes(s, rows, counted)
    ensures Summarizes(Summary(
                         s.rowCount + 1,
                         if s.minTime.None? || row.time < s.minTime.value then Some(row.time) else s.minTime,
                         if s.maxTime.None? || row.time > s.maxTime.value then Some(row.time) else s.maxTime,
                         if counted then Increment(s.counts, row.source) else s.counts),
                       rows + [row], counted)
  {
    var all := rows + [row];
    assert row in all && forall r :: r in all <==> r in rows || r == row;
    if counted { CountsAppend(rows, row); }
  }

  const NOTHING := Summary(0, None, None, map[])

  datatype ExportError = BatchRowsOutOfRange | RowGroupRowsOutOfRange

  /** A written file's rows and the statistics returned with it. */
  datatype Export = Export(written: seq<Row>, summary: Summary)

  /** The inner loop of both readers: folds one batch into the running statistics. */
  method FoldBatch(s: Summary, batch: seq<Row>, counted: bool, ghost earlier: seq<Row>) returns (r: Summary)
    requires Summarizes(s, earlier, counted)
    ensures Summarizes(r, earlier + batch, counted)
  {
    r := s;
    assert earlier + [] == earlier;
    for i := 0 to |batch|
      invariant Summarizes(r, earlier + batch[..i], counted)
    {
      var row := batch[i];
      SummaryAppend(r, earlier + batch[..i], row, counted);
      assert earlier + batch[..i] + [row] == earlier + batch[..i + 1];
      var minTime, maxTime, counts := r.minTime, r.maxTime, r.counts;
      if minTime.None? || row.time < minTime.value { minTime := Some(row.time); }
      if maxTime.None? || row.time > maxTime.value { maxTime := Some(row.time); }
      if counted { counts := counts[row.source := (if row.source in counts then counts[row.source] else 0) + 1]; }
      r := Summary(r.rowCount + 1, minTime, maxTime, counts);
    }
    assert batch[..|batch|] == batch;
  }

  /** export_partition: reads the ordered query result through a cursor in batches, writing each
      batch and folding its rows into the running statistics. */
  method ExportPartition(result: seq<Row>, counted: bool, batchRows: int, rowGroupRows: int)
    returns (r: Result<Export, ExportError>)
    ensures r.Err? <==> !(1_000 <= batchRows <= 100_000 && 1_000 <= rowGroupRows <= 1_000_000)
    ensures r.Ok? ==> r.value.written == result && Summarizes(r.value.summary, result, counted)
  {
    if !(1_000 <= batchRows <= 100_000) { return Err(BatchRowsOutOfRange); }
    if !(1_000 <= rowGroupRows <= 1_000_000) { return Err(RowGroupRowsOutOfRange); }
    var cursor, written, stats := result, [], NOTHING;
    while cursor != []
      invariant written + cursor == result
      invariant Summarizes(stats, written, counted)
      decreases |cursor|
    {
      var size := if batchRows < |cursor| then batchRows else |cursor|;
      var records := cursor[..size];
      assert written + records + cursor[size..] == written + cursor;
      stats := FoldBatch(stats, records, counted, written);
      cursor, written := cursor[size..], written + records;
    }
    assert written + [] == written;
    return Ok(Export(written, stats));
  }

  /** A file as the reader finds it. */
  datatype File = File(sha256: string, footerRows: nat, rows: seq<Row>)

  datatype VerifyError = HashDiffers | FooterCountDiffers | ReadCountDiffers | TimeBoundsDiffer | CountsDiffer

  const READ_BATCH := 65_536

  /** verify_parquet: recomputes the statistics from the file and compares them with the expected
      ones. It accepts exactly the files whose digest, footer and true summary are as expected. */
  method VerifyParquet(file: File, counted: bool, sha256: string, expected: Summary)
    returns (r: Result<(), VerifyError>)
    ensures r.Ok? <==>
              file.sha256 == sha256 && file.footerRows == expected.rowCount && Summarizes(expected, file.rows, counted)
  {
    if file.sha256 != sha256 { return Err(HashDiffers); }
    if file.footerRows != expected.rowCount { return Err(FooterCountDiffers); }
    var at, stats := 0, NOTHING;
    while at < |file.rows|
      invariant at <= |file.rows|
      invariant Summarizes(stats, file.rows[..at], counted)
    {
      var end := if at + READ_BATCH < |file.rows| then at + READ_BATCH else |file.rows|;
      stats := FoldBatch(stats, file.rows[at..end], counted, file.rows[..at]);
      assert file.rows[..at] + file.rows[at..end] == file.rows[..end];
      at := end;
    }
    assert file.rows[..at] == file.rows;
    if Summarizes(expected, file.rows, counted) { SummaryUnique(expected, stats, file.rows, counted); }
    if stats.rowCount != expected.rowCount { return Err(ReadCountDiffers); }
    if stats.minTime != expected.minTime || stats.maxTime != expected.maxTime { return Err(TimeBoundsDiffer); }
    if stats.counts != expected.counts { return Err(CountsDiffer); }
    return Ok(());
  }

  /** Every file is accepted with the statistics its own export produced, and with no others. */
  method ExportThenVerify(result: seq<Row>, counted: bool, batchRows: int, rowGroupRows: int, sha256: string,
                          claimed: Summary) returns (e: Result<Export, ExportError>, accepted: bool)
    ensures e.Ok? ==> (accepted <==> claimed == e.value.summary)
  {
    e := ExportPartition(result, counted, batchRows, rowGroupRows);
    if e.Err? { return e, false; }
    var file := File(sha256, |e.value.written|, e.value.written);
    var v := VerifyParquet(file, counted, sha256, claimed);
    accepted := v.Ok?;
    if accepted { SummaryUnique(claimed, e.value.summary, result, counted); }
  }
}
